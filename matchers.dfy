/**
 * The bot's fixed command patterns, matched the way Python's `re.search`
 * matches them: the leftmost position at which the pattern matches wins.
 *
 * Each pattern is a sequence of tokens. Every greedy token (a run of
 * spaces, of digits, of non-space characters) is followed by a token that
 * cannot begin with a character of its own class, so the backtracking
 * matcher can never succeed with a shorter run than the longest one. That
 * makes each token deterministic here: a token takes the longest run or
 * fails. Matchers work on the suffix that starts at the candidate position
 * and return what is left after them.
 */
module Matchers {
  import opened Wrappers
  import opened Text

  /** `lit` (written in lower case) at the head of `t`; with `ignoreCase` compared as `re.IGNORECASE` does. */
  function Literal(t: string, lit: string, ignoreCase: bool): (r: Option<string>)
    ensures r.Some? ==> |lit| <= |t| && r.value == t[|lit|..]
  {
    if |lit| <= |t| && (if ignoreCase then FoldsTo(t[..|lit|], lit) else t[..|lit|] == lit) then
      Some(t[|lit|..])
    else
      None
  }

  /** One or more whitespace characters, as many as there are. */
  function Spaces(t: string): (r: Option<string>)
  {
    var (run, rest) := Span(t, Space);
    if run == [] then None else Some(rest)
  }

  /** A non-empty longest run of class `k`, and what follows it. */
  function Run1(t: string, k: CharClass): (r: Option<(string, string)>)
    ensures r.Some? ==> |r.value.0| > 0 && AllIn(r.value.0, k)
  {
    var (run, rest) := Span(t, k);
    if run == [] then None else Some((run, rest))
  }

  /**
   * Digits, optionally a point and more digits, read as an exact decimal.
   * A point not followed by a digit is not part of the amount.
   */
  function Amount(t: string): (r: Option<(real, string)>)
    ensures r.Some? ==> r.value.0 >= 0.0
  {
    var w :- Run1(t, Digit);
    var (whole, r1) := w;
    if |r1| >= 2 && r1[0] == '.' && IsDigit(r1[1]) then
      var (frac, r2) := Span(r1[1..], Digit);
      Some((NumeralValue(whole, frac), r2))
    else
      Some((NumeralValue(whole, []), r1))
  }

  /** Three letters: upper-case ones, or with `ignoreCase` any ASCII letters. */
  function Letters3(t: string, ignoreCase: bool): (r: Option<(string, string)>)
    ensures r.Some? ==> |r.value.0| == 3
    ensures r.Some? ==> AllLetters(r.value.0)
    ensures r.Some? && !ignoreCase ==> AllUpperLetters(r.value.0)
  {
    if |t| >= 3 && forall i :: 0 <= i < 3 ==> (if ignoreCase then IsLetter(t[i]) else IsUpper(t[i])) then
      Some((t[..3], t[3..]))
    else
      None
  }

  // ---------------------------------------------------------------------
  // Fenced code blocks: three backticks, optional spaces, the shortest
  // content after which optional spaces and three backticks follow
  // (loan_central_bot.py:165-169 and :266-270)
  // ---------------------------------------------------------------------

  const Fence := "```"

  /** Optional whitespace, then the closing fence. */
  predicate ClosesBlock(q: string) {
    var (_, r) := Span(q, Space);
    |r| >= 3 && r[..3] == Fence
  }

  /** The shortest content length, at least `from`, after which the block closes. */
  function ShortestContent(p: string, from: nat): (r: Option<nat>)
    requires from <= |p|
    ensures r.Some? ==> from <= r.value <= |p| && ClosesBlock(p[r.value..])
    ensures r.Some? ==> forall j :: from <= j < r.value ==> !ClosesBlock(p[j..])
    ensures r.None? ==> forall j :: from <= j <= |p| ==> !ClosesBlock(p[j..])
    decreases |p| - from
  {
    if ClosesBlock(p[from..]) then Some(from)
    else if from == |p| then None
    else ShortestContent(p, from + 1)
  }

  // ---------------------------------------------------------------------
  // The patterns
  // ---------------------------------------------------------------------

  datatype Pattern =
    | LoanPattern          // `$loan`, amount, currency; case-insensitive (:121)
    | ConfirmSlashPattern  // `$confirm /u/<name>`, amount, currency; case-insensitive (:172)
    | ConfirmBarePattern   // `$confirm u/<name>`, amount, currency; case-insensitive (:177)
    | PaidPattern          // `$paid_with_id <digits>`, amount, currency; case-insensitive (:273)
    | ParentPattern        // the confirmation reply's first line; case-sensitive (:402)
    | StatsPattern         // `$stats` then `/u/` or `u/` and a name; case-insensitive (:490)
    | BlockPattern         // a fenced code block (:165)

  datatype Hit =
    | AmountHit(amount: real, currency: string)
    | NamedAmountHit(name: string, amount: real, currency: string)
    | IdAmountHit(id: nat, amount: real, currency: string)
    | ParentHit(borrower: string, amount: real, currency: string, lender: string)
    | NameHit(name: string)
    | BlockHit(content: string)

  /** Which kind of hit each pattern yields, with the shape of its groups. */
  predicate Fits(p: Pattern, h: Hit) {
    match p
    case LoanPattern => h.AmountHit? && h.amount >= 0.0 && |h.currency| == 3 && AllLetters(h.currency)
    case ConfirmSlashPattern =>
      h.NamedAmountHit? && |h.name| > 0 && h.amount >= 0.0 && |h.currency| == 3 && AllLetters(h.currency)
    case ConfirmBarePattern =>
      h.NamedAmountHit? && |h.name| > 0 && h.amount >= 0.0 && |h.currency| == 3 && AllLetters(h.currency)
    case PaidPattern => h.IdAmountHit? && h.amount >= 0.0 && |h.currency| == 3 && AllLetters(h.currency)
    case ParentPattern =>
      h.ParentHit? && |h.borrower| > 0 && h.amount >= 0.0 && |h.currency| == 3
      && AllUpperLetters(h.currency) && |h.lender| > 0 && AllIn(h.lender, NonSpaceNonDot)
    case StatsPattern => h.NameHit? && |h.name| > 0 && AllIn(h.name, NonSpace)
    case BlockPattern => h.BlockHit?
  }

  /** `$confirm`, spaces, `prefix`, a name, spaces, an amount, spaces, three letters. */
  function ConfirmAt(t: string, prefix: string): (r: Option<Hit>)
    ensures r.Some? ==> r.value.NamedAmountHit? && |r.value.name| > 0
    ensures r.Some? ==> r.value.amount >= 0.0 && |r.value.currency| == 3 && AllLetters(r.value.currency)
  {
    var t1 :- Literal(t, "$confirm", true);
    var t2 :- Spaces(t1);
    var t3 :- Literal(t2, prefix, true);
    var name :- Run1(t3, NonSpace);
    var t4 :- Spaces(name.1);
    var amount :- Amount(t4);
    var t5 :- Spaces(amount.1);
    var ccy :- Letters3(t5, true);
    Some(NamedAmountHit(name.0, amount.0, ccy.0))
  }

  /** `$paid_with_id`, spaces, a digit run read as the loan id, spaces, an amount, spaces, three letters. */
  function PaidAt(t: string): (r: Option<Hit>)
    ensures r.Some? ==> r.value.IdAmountHit?
    ensures r.Some? ==> r.value.amount >= 0.0 && |r.value.currency| == 3 && AllLetters(r.value.currency)
  {
    var t1 :- Literal(t, "$paid_with_id", true);
    var t2 :- Spaces(t1);
    var id :- Run1(t2, Digit);
    var t3 :- Spaces(id.1);
    var amount :- Amount(t3);
    var t4 :- Spaces(amount.1);
    var ccy :- Letters3(t4, true);
    Some(IdAmountHit(DigitsValue(id.0), amount.0, ccy.0))
  }

  /** The fence, optional whitespace, and the shortest content the block closes after. */
  function BlockAt(t: string): (r: Option<Hit>)
    ensures r.Some? ==> r.value.BlockHit?
  {
    var t1 :- Literal(t, Fence, false);
    var content := Span(t1, Space).1;
    var k :- ShortestContent(content, 0);
    Some(BlockHit(content[..k]))
  }

  /** Whether pattern `p` matches at the head of `t`, and its groups. */
  function MatchAt(p: Pattern, t: string): (r: Option<Hit>)
    ensures r.Some? ==> Fits(p, r.value)
  {
    match p
    case LoanPattern =>
      var t1 :- Literal(t, "$loan", true);
      var t2 :- Spaces(t1);
      var amount :- Amount(t2);
      var t3 :- Spaces(amount.1);
      var ccy :- Letters3(t3, true);
      Some(AmountHit(amount.0, ccy.0))
    case ConfirmSlashPattern =>
      ConfirmAt(t, "/u/")
    case ConfirmBarePattern =>
      ConfirmAt(t, "u/")
    case PaidPattern =>
      PaidAt(t)
    case ParentPattern =>
      var t1 :- Literal(t, "u/", false);
      var borrower :- Run1(t1, NonSpace);
      var t2 :- Literal(borrower.1, " has confirmed receiving ", false);
      var amount :- Amount(t2);
      var t3 :- Spaces(amount.1);
      var ccy :- Letters3(t3, false);
      var t4 :- Literal(ccy.1, " from u/", false);
      var lender :- Run1(t4, NonSpaceNonDot);
      Some(ParentHit(borrower.0, amount.0, ccy.0, lender.0))
    case StatsPattern =>
      var t1 :- Literal(t, "$stats", true);
      var t2 :- Spaces(t1);
      var t3 :- if Literal(t2, "/u/", true).Some? then Literal(t2, "/u/", true) else Literal(t2, "u/", true);
      var name :- Run1(t3, NonSpace);
      Some(NameHit(name.0))
    case BlockPattern =>
      BlockAt(t)
  }

  /** A matcher: the groups of a match at the head of its argument, if any. */
  type Matcher = string -> Option<Hit>

  /** The matcher of pattern `p`. */
  function Pat(p: Pattern): Matcher {
    t => MatchAt(p, t)
  }

  /** `m` matches at offset `k` of `t` and at no offset before it. */
  ghost predicate LeftmostAt(m: Matcher, t: string, k: nat) {
    k <= |t| && m(t[k..]).Some?
    && forall j :: 0 <= j < k ==> m(t[j..]).None?
  }

  /** `re.search`: the groups of the leftmost match, if the matcher matches anywhere. */
  function Search(m: Matcher, t: string): (r: Option<Hit>)
    ensures r.None? ==> forall k :: 0 <= k <= |t| ==> m(t[k..]).None?
    ensures r.Some? ==> exists k: nat :: LeftmostAt(m, t, k) && m(t[k..]) == r
    decreases |t|
  {
    if m(t).Some? then
      assert t[0..] == t;
      assert LeftmostAt(m, t, 0);
      m(t)
    else if t == [] then
      assert forall k :: 0 <= k <= |t| ==> t[k..] == t;
      None
    else
      var r := Search(m, t[1..]);
      assert forall k :: 1 <= k <= |t| ==> t[1..][k - 1..] == t[k..];
      assert t[0..] == t;
      assert r.Some? ==> exists k: nat :: LeftmostAt(m, t, k) && m(t[k..]) == r by {
        if r.Some? {
          var k: nat :| LeftmostAt(m, t[1..], k) && m(t[1..][k..]) == r;
          forall j | 0 <= j < k + 1 ensures m(t[j..]).None? {
            if j > 0 {
              assert t[j..] == t[1..][j - 1..];
            }
          }
          assert LeftmostAt(m, t, k + 1);
        }
      }
      r
  }

  /** Searching for pattern `p`: what its leftmost match captures. */
  function Find(p: Pattern, t: string): (r: Option<Hit>)
    ensures r.Some? ==> Fits(p, r.value)
    ensures r == Search(Pat(p), t)
  {
    var r := Search(Pat(p), t);
    assert r.Some? ==> Fits(p, r.value) by {
      if r.Some? {
        var k: nat :| LeftmostAt(Pat(p), t, k) && Pat(p)(t[k..]) == r;
        assert MatchAt(p, t[k..]) == r;
      }
    }
    r
  }

  /** The leftmost match determines the search: the form in which callers establish a search result. */
  lemma SearchFinds(m: Matcher, t: string, k: nat, h: Hit)
    requires k <= |t| && m(t[k..]) == Some(h)
    requires forall j :: 0 <= j < k ==> m(t[j..]).None?
    ensures Search(m, t) == Some(h)
  {
    var r := Search(m, t);
    if r.Some? {
      var k': nat :| LeftmostAt(m, t, k') && m(t[k'..]) == r;
      assert k' == k;
    }
  }

  lemma BlockPatternIsBlockAt(t: string)
    ensures MatchAt(BlockPattern, t) == BlockAt(t)
  {
  }

  lemma ConfirmSlashIsConfirmAt(t: string)
    ensures MatchAt(ConfirmSlashPattern, t) == ConfirmAt(t, "/u/")
  {
  }

  lemma PaidIsPaidAt(t: string)
    ensures MatchAt(PaidPattern, t) == PaidAt(t)
  {
  }

  /** `SearchFinds` for a pattern: a match at `k` and none before it is what `Find` returns. */
  lemma FindAt(p: Pattern, t: string, k: nat, h: Hit)
    requires k <= |t| && MatchAt(p, t[k..]) == Some(h)
    requires forall j :: 0 <= j < k ==> MatchAt(p, t[j..]).None?
    ensures Find(p, t) == Some(h)
  {
    SearchFinds(Pat(p), t, k, h);
  }
  /** A pattern with no match anywhere in the text is not found. */
  lemma NotFound(p: Pattern, t: string)
    requires forall k :: 0 <= k <= |t| ==> MatchAt(p, t[k..]).None?
    ensures Find(p, t).None?
  {
  }

  /** The patterns that begin with a `$` keyword. */
  predicate DollarLed(p: Pattern) {
    p.LoanPattern? || p.ConfirmSlashPattern? || p.ConfirmBarePattern? || p.PaidPattern? || p.StatsPattern?
  }

  /** A case-insensitive literal that starts with a non-letter matches only that very character. */
  lemma LiteralHead(t: string, lit: string)
    requires |lit| > 0 && !IsLetter(lit[0]) && Literal(t, lit, true).Some?
    ensures t[0] == lit[0]
  {
    assert t[..|lit|][0] == t[0];
  }

  /** A `$` keyword pattern matches only where a `$` stands. */
  lemma NeedsDollar(p: Pattern, t: string)
    requires DollarLed(p) && (t == [] || t[0] != '$')
    ensures MatchAt(p, t).None?
  {
    var lit := match p
      case LoanPattern => "$loan"
      case ConfirmSlashPattern => "$confirm"
      case ConfirmBarePattern => "$confirm"
      case PaidPattern => "$paid_with_id"
      case _ => "$stats";
    if Literal(t, lit, true).Some? {
      LiteralHead(t, lit);
    }
  }

  /** Text without a `$` in front of a match of a `$` keyword pattern does not move the search. */
  lemma {:induction false} FindAfterDollarFree(p: Pattern, head: string, line: string, h: Hit)
    requires DollarLed(p) && Lacks(head, '$')
    requires MatchAt(p, line) == Some(h)
    ensures Find(p, head + line) == Some(h)
  {
    var s := head + line;
    assert s[|head|..] == line;
    forall j | 0 <= j < |head| ensures MatchAt(p, s[j..]).None? {
      assert s[j..][0] == head[j];
      NeedsDollar(p, s[j..]);
    }
    FindAt(p, s, |head|, h);
  }
}
