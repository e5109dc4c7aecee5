/**
 * Character classes, case folding, substring tests and decimal numerals:
 * the pieces of Python's `str` and `re` behaviour the bot's command
 * grammars rely on. Case folding and digits are ASCII; whitespace is the
 * set Python's `\s` accepts in a `str` pattern.
 */
module Text {

  /** `\s` in a Python 3 `str` pattern. */
  predicate IsSpace(c: char) {
    c == ' ' || ('\t' <= c <= '\r') || ('\U{1c}' <= c <= '\U{1f}')
    || c == '\U{85}' || c == '\U{a0}' || c == '\U{1680}'
    || ('\U{2000}' <= c <= '\U{200a}') || c == '\U{2028}' || c == '\U{2029}'
    || c == '\U{202f}' || c == '\U{205f}' || c == '\U{3000}'
  }

  predicate IsDigit(c: char) {
    '0' <= c <= '9'
  }

  predicate IsUpper(c: char) {
    'A' <= c <= 'Z'
  }

  predicate IsLower(c: char) {
    'a' <= c <= 'z'
  }

  /** `[A-Z]` under `re.IGNORECASE`. */
  predicate IsLetter(c: char) {
    IsUpper(c) || IsLower(c)
  }

  function Lower(c: char): (r: char)
    ensures !IsUpper(r)
    ensures IsUpper(c) ==> IsLower(r)
    ensures !IsUpper(c) ==> r == c
  {
    if IsUpper(c) then (c as int + 32) as char else c
  }

  function Upper(c: char): (r: char)
    ensures !IsLower(r)
    ensures IsLower(c) ==> IsUpper(r)
    ensures !IsLower(c) ==> r == c
  {
    if IsLower(c) then (c as int - 32) as char else c
  }

  /** `str.lower()` */
  function LowerStr(s: string): (r: string)
    ensures |r| == |s|
  {
    seq(|s|, i requires 0 <= i < |s| => Lower(s[i]))
  }

  /** `str.upper()` */
  function UpperStr(s: string): (r: string)
    ensures |r| == |s|
    ensures AllLetters(s) ==> AllUpperLetters(r)
    ensures AllUpperLetters(s) ==> r == s
  {
    seq(|s|, i requires 0 <= i < |s| => Upper(s[i]))
  }

  predicate AllLower(s: string) {
    forall i :: 0 <= i < |s| ==> !IsUpper(s[i])
  }

  predicate AllLetters(s: string) {
    forall i :: 0 <= i < |s| ==> IsLetter(s[i])
  }

  predicate AllUpperLetters(s: string) {
    forall i :: 0 <= i < |s| ==> IsUpper(s[i])
  }

  /** `a.lower() == lit`, compared character by character. */
  predicate FoldsTo(a: string, lit: string) {
    |a| == |lit| && forall i :: 0 <= i < |a| ==> Lower(a[i]) == lit[i]
  }

  /** No character of `s` is `ch`. */
  predicate Lacks(s: string, ch: char) {
    forall i :: 0 <= i < |s| ==> s[i] != ch
  }

  lemma LacksJoin(a: string, b: string, ch: char)
    requires Lacks(a, ch) && Lacks(b, ch)
    ensures Lacks(a + b, ch)
  {
    forall i | 0 <= i < |a + b| ensures (a + b)[i] != ch {
      if i >= |a| {
        assert (a + b)[i] == b[i - |a|];
      }
    }
  }

  lemma LowerStrIdempotent(s: string)
    ensures AllLower(LowerStr(s))
    ensures AllLower(s) ==> LowerStr(s) == s
  {
  }

  // ---------------------------------------------------------------------
  // Substring tests: Python's `kw in s`
  // ---------------------------------------------------------------------

  ghost predicate OccursAt(s: string, kw: string, i: nat) {
    i + |kw| <= |s| && s[i..i + |kw|] == kw
  }

  /** The substring test as the bot evaluates it, scanning left to right. */
  function HasSubstring(s: string, kw: string): (r: bool)
    ensures r <==> exists i: nat :: OccursAt(s, kw, i)
    decreases |s|
  {
    if |s| < |kw| then
      assert forall i: nat :: !OccursAt(s, kw, i);
      false
    else if s[..|kw|] == kw then
      assert OccursAt(s, kw, 0);
      true
    else
      var r := HasSubstring(s[1..], kw);
      assert forall i: nat :: OccursAt(s[1..], kw, i) <==> OccursAt(s, kw, i + 1) by {
        forall i: nat ensures OccursAt(s[1..], kw, i) <==> OccursAt(s, kw, i + 1) {
          if i + |kw| <= |s[1..]| {
            assert s[1..][i..i + |kw|] == s[i + 1..i + 1 + |kw|];
          }
        }
      }
      assert forall i: nat :: OccursAt(s, kw, i) ==> i == 0 || OccursAt(s[1..], kw, i - 1);
      r
  }

  /** Python's `kw in s.lower()`: a case-insensitive occurrence of the lower-case keyword `kw`. */
  ghost predicate Mentions(s: string, kw: string) {
    exists i: nat :: OccursAt(LowerStr(s), kw, i)
  }

  // ---------------------------------------------------------------------
  // Maximal runs of one character class (greedy `\s+`, `\d+`, `[^\s]+`, `[^\s.]+`)
  // ---------------------------------------------------------------------

  datatype CharClass = Space | Digit | NonSpace | NonSpaceNonDot

  predicate InClass(c: char, k: CharClass) {
    match k
    case Space => IsSpace(c)
    case Digit => IsDigit(c)
    case NonSpace => !IsSpace(c)
    case NonSpaceNonDot => !IsSpace(c) && c != '.'
  }

  predicate AllIn(s: string, k: CharClass) {
    forall i :: 0 <= i < |s| ==> InClass(s[i], k)
  }

  /** Longest prefix of `t` in class `k`, and what follows it. */
  function Span(t: string, k: CharClass): (r: (string, string))
    ensures r.0 + r.1 == t
    ensures AllIn(r.0, k)
    ensures r.1 == [] || !InClass(r.1[0], k)
    decreases |t|
  {
    if t != [] && InClass(t[0], k) then
      var (run, rest) := Span(t[1..], k);
      ([t[0]] + run, rest)
    else
      ([], t)
  }

  /** A split into a run of the class and a rest that cannot continue it is the one `Span` finds. */
  lemma {:induction false} SpanOf(run: string, rest: string, k: CharClass)
    requires AllIn(run, k)
    requires rest == [] || !InClass(rest[0], k)
    ensures Span(run + rest, k) == (run, rest)
  {
    if run != [] {
      assert (run + rest)[1..] == run[1..] + rest;
      SpanOf(run[1..], rest, k);
      assert [run[0]] + run[1..] == run;
    } else {
      assert run + rest == rest;
    }
  }

  // ---------------------------------------------------------------------
  // Decimal numerals
  // ---------------------------------------------------------------------

  function DigitValue(c: char): nat
    requires IsDigit(c)
  {
    c as int - '0' as int
  }

  function DigitChar(d: nat): (c: char)
    requires d < 10
    ensures IsDigit(c) && DigitValue(c) == d
  {
    ('0' as int + d) as char
  }

  predicate AllDigits(s: string) {
    AllIn(s, Digit)
  }

  /** The value of a run of decimal digits, most significant first. */
  function DigitsValue(ds: string): nat
    requires AllDigits(ds)
  {
    if ds == [] then 0 else DigitsValue(ds[..|ds| - 1]) * 10 + DigitValue(ds[|ds| - 1])
  }

  function Pow10(k: nat): (r: nat)
    ensures r >= 1
  {
    if k == 0 then 1 else 10 * Pow10(k - 1)
  }

  /** The exact value of the numeral `whole.frac` (`frac` may be empty), as Python's `Decimal` reads it. */
  function NumeralValue(whole: string, frac: string): (r: real)
    requires AllDigits(whole) && AllDigits(frac)
    ensures r >= 0.0
  {
    DigitsValue(whole) as real + DigitsValue(frac) as real / Pow10(|frac|) as real
  }

  /** The decimal representation of `n`, as `str(n)` or the integer part of `format(x, '.2f')` writes it. */
  function NatDigits(n: nat): (r: string)
    ensures |r| > 0 && AllDigits(r)
    ensures DigitsValue(r) == n
    ensures r[0] == '0' ==> n == 0
  {
    if n < 10 then
      [DigitChar(n)]
    else
      var r := NatDigits(n / 10) + [DigitChar(n % 10)];
      assert r[..|r| - 1] == NatDigits(n / 10);
      r
  }
}
