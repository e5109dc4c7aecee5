/**
 * The few reply lines the bot writes that are read back as commands: the
 * first line of the confirmation reply, which the refund handler re-parses
 * (loan_central_bot.py:241, :402), and the commands the bot suggests in
 * code blocks (:148-150, :245-247). Amounts are written with two decimals.
 */
module Templates {
  import opened Wrappers
  import opened Text
  import opened Matchers
  import opened Commands

  // ---------------------------------------------------------------------
  // Two-decimal formatting of a Decimal
  // ---------------------------------------------------------------------

  /** The amount in cents as `format(x, '.2f')` writes it: nearest, ties to even (Decimal's default rounding). */
  function Cents(x: real): (c: nat)
    requires x >= 0.0
    ensures -0.5 <= c as real - 100.0 * x <= 0.5
    ensures c as real - 100.0 * x == 0.5 || c as real - 100.0 * x == -0.5 ==> c % 2 == 0
  {
    var f := (100.0 * x).Floor;
    var rem := 100.0 * x - f as real;
    if rem > 0.5 || (rem == 0.5 && f % 2 == 1) then f + 1 else f
  }

  /** The value a two-decimal rendering of `x` denotes. */
  function Round2(x: real): real
    requires x >= 0.0
  {
    Cents(x) as real / 100.0
  }

  /** An amount that is a whole number of cents is rendered exactly. */
  lemma Round2OfCents(x: real)
    requires x >= 0.0 && (100.0 * x).Floor as real == 100.0 * x
    ensures Round2(x) == x
  {
  }

  /** `format(x, '.2f')` for a non-negative amount. */
  function Fmt2(x: real): (r: string)
    requires x >= 0.0
    ensures |r| >= 4 && r[|r| - 3] == '.'
    ensures AllDigits(r[..|r| - 3]) && AllDigits(r[|r| - 2..])
  {
    var c := Cents(x);
    NatDigits(c / 100) + "." + [DigitChar(c % 100 / 10), DigitChar(c % 10)]
  }

  // ---------------------------------------------------------------------
  // Token lemmas: each matcher on text that begins with what it expects
  // ---------------------------------------------------------------------

  lemma LiteralExact(lit: string, t: string)
    ensures Literal(lit + t, lit, false) == Some(t)
  {
    assert (lit + t)[..|lit|] == lit;
    assert (lit + t)[|lit|..] == t;
  }

  lemma LiteralFolded(lit: string, t: string)
    requires forall c | c in lit :: !IsUpper(c)
    ensures Literal(lit + t, lit, true) == Some(t)
  {
    assert (lit + t)[..|lit|] == lit;
    assert (lit + t)[|lit|..] == t;
    forall i | 0 <= i < |lit| ensures Lower(lit[i]) == lit[i] {
      assert lit[i] in lit;
    }
  }

  lemma RunExact(run: string, rest: string, k: CharClass)
    requires |run| > 0 && AllIn(run, k)
    requires rest == [] || !InClass(rest[0], k)
    ensures Run1(run + rest, k) == Some((run, rest))
  {
    SpanOf(run, rest, k);
  }

  lemma OneSpace(t: string)
    requires t == [] || !IsSpace(t[0])
    ensures Spaces(" " + t) == Some(t)
  {
    SpanOf(" ", t, Space);
  }

  lemma LettersExact(ccy: string, t: string)
    requires IsCurrency(ccy)
    ensures Letters3(ccy + t, false) == Some((ccy, t))
    ensures Letters3(ccy + t, true) == Some((ccy, t))
  {
    assert (ccy + t)[..3] == ccy;
    assert (ccy + t)[3..] == t;
  }

  lemma LettersFolded(ccy: string, t: string)
    requires |ccy| == 3 && AllLetters(ccy)
    ensures Letters3(ccy + t, true) == Some((ccy, t))
  {
    assert (ccy + t)[..3] == ccy;
    assert (ccy + t)[3..] == t;
  }

  lemma TwoDigitsValue(a: nat, b: nat)
    requires a < 10 && b < 10
    ensures DigitsValue([DigitChar(a), DigitChar(b)]) == 10 * a + b
  {
    var s := [DigitChar(a), DigitChar(b)];
    assert s[..1] == [DigitChar(a)];
    assert [DigitChar(a)][..0] == [];
    calc {
      DigitsValue(s);
      DigitsValue(s[..1]) * 10 + DigitValue(s[1]);
      DigitsValue([DigitChar(a)]) * 10 + b;
      (DigitsValue([]) * 10 + a) * 10 + b;
    }
  }

  /** The last decimal digit is determined by any split off of tens. */
  lemma LastDigit(c: nat, k: nat, r: nat)
    requires r < 10 && c == 10 * k + r
    ensures c % 10 == r
  {
  }

  /** The two digits after the point are the cents part of the rendering. */
  lemma CentsDigits(c: nat)
    ensures DigitsValue([DigitChar(c % 100 / 10), DigitChar(c % 10)]) == c % 100
  {
    var m := c % 100;
    var q := c / 100;
    assert c == 100 * q + m;
    assert m == 10 * (m / 10) + m % 10;
    LastDigit(c, 10 * q + m / 10, m % 10);
    TwoDigitsValue(m / 10, c % 10);
  }

  /** Whole units and cents together make up the amount in units. */
  lemma CentsReal(c: nat)
    ensures (c / 100) as real + (c % 100) as real / Pow10(2) as real == c as real / 100.0
  {
    assert Pow10(2) == 100;
    assert c == 100 * (c / 100) + c % 100;
  }

  /** The amount grammar reads `whole.frac` followed by a non-digit as the numeral's value. */
  lemma AmountOfNumeral(whole: string, frac: string, t: string)
    requires |whole| > 0 && AllDigits(whole) && |frac| > 0 && AllDigits(frac)
    requires t == [] || !IsDigit(t[0])
    ensures Amount(whole + ("." + (frac + t))) == Some((NumeralValue(whole, frac), t))
  {
    var afterWhole := "." + (frac + t);
    RunExact(whole, afterWhole, Digit);
    assert afterWhole[1..] == frac + t;
    SpanOf(frac, t, Digit);
  }

  /** The amount grammar reads a two-decimal rendering back as the rounded value. */
  lemma {:induction false} AmountOfFmt2(x: real, t: string)
    requires x >= 0.0
    requires t == [] || !IsDigit(t[0])
    ensures Amount(Fmt2(x) + t) == Some((Round2(x), t))
  {
    var c := Cents(x);
    var whole := NatDigits(c / 100);
    var frac := [DigitChar(c % 100 / 10), DigitChar(c % 10)];
    Fmt2Value(x);
    assert Fmt2(x) + t == whole + ("." + (frac + t));
    AmountOfNumeral(whole, frac, t);
  }

  /** The digits of a two-decimal rendering denote the rounded value. */
  lemma Fmt2Value(x: real)
    requires x >= 0.0
    ensures var c := Cents(x);
      NumeralValue(NatDigits(c / 100), [DigitChar(c % 100 / 10), DigitChar(c % 10)]) == Round2(x)
  {
    CentsDigits(Cents(x));
    CentsReal(Cents(x));
  }

  // ---------------------------------------------------------------------
  // The confirmation reply and the refund pattern
  // ---------------------------------------------------------------------

  /**
   * The line of the confirmation reply that names the loan, from its `u/`
   * to the lender's name, followed by `tail` (:241).
   */
  function ReplyLine(borrower: string, amount: real, currency: string, lender: string, tail: string): (r: string)
    requires amount >= 0.0
    ensures |r| > 2 && r[..2] == "u/"
  {
    "u/" + (borrower + (" has confirmed receiving " + (Fmt2(amount) + (" " + (currency + (" from u/" + (lender + tail)))))))
  }

  /** What the reply writes before that line. */
  const ReplyHead := "\nConfirmed: "

  /** The opening of the reply to a recorded confirmation (:240-241). */
  function ConfirmReply(borrower: string, amount: real, currency: string, lender: string): (r: string)
    requires amount >= 0.0
    ensures |r| > |ReplyHead| + 2 && r[|ReplyHead|..|ReplyHead| + 2] == "u/"
    ensures forall i :: 0 <= i < |ReplyHead| ==> r[i] != 'u'
  {
    ReplyHead + ReplyLine(borrower, amount, currency, lender, ".")
  }

  lemma Assoc(a: string, b: string, c: string)
    ensures (a + b) + c == a + (b + c)
  {
  }

  /** Text appended to the reply line extends its tail. */
  lemma ReplyLineAppend(borrower: string, amount: real, currency: string, lender: string, tail: string, rest: string)
    requires amount >= 0.0
    ensures ReplyLine(borrower, amount, currency, lender, tail) + rest
            == ReplyLine(borrower, amount, currency, lender, tail + rest)
  {
    var l6 := lender + tail;
    var l5 := " from u/" + l6;
    var l4 := currency + l5;
    var l3 := " " + l4;
    var l2 := Fmt2(amount) + l3;
    var l1 := " has confirmed receiving " + l2;
    var l0 := borrower + l1;
    Assoc("u/", l0, rest);
    Assoc(borrower, l1, rest);
    Assoc(" has confirmed receiving ", l2, rest);
    Assoc(Fmt2(amount), l3, rest);
    Assoc(" ", l4, rest);
    Assoc(currency, l5, rest);
    Assoc(" from u/", l6, rest);
    Assoc(lender, tail, rest);
  }

  /** Names the refund pattern gives back unchanged: lower case, no whitespace and no `.`. */
  predicate PlainName(name: string) {
    |name| > 0 && AllLower(name) && AllIn(name, NonSpaceNonDot)
  }

  /** The refund pattern matches the reply line where its `u/` begins. */
  lemma {:induction false} ParentMatchesLine(
    borrower: string, amount: real, currency: string, lender: string, rest: string)
    requires PlainName(borrower) && PlainName(lender)
    requires amount >= 0.0 && IsCurrency(currency)
    ensures MatchAt(ParentPattern, ReplyLine(borrower, amount, currency, lender, "." + rest))
            == Some(ParentHit(borrower, Round2(amount), currency, lender))
  {
    var t5 := "." + rest;
    var t4 := lender + t5;
    var t3 := " from u/" + t4;
    var t2 := currency + t3;
    var t1 := " " + t2;
    var t0 := Fmt2(amount) + t1;
    var tb := " has confirmed receiving " + t0;
    var ta := borrower + tb;
    LiteralExact("u/", ta);
    assert AllIn(borrower, NonSpace);
    RunExact(borrower, tb, NonSpace);
    LiteralExact(" has confirmed receiving ", t0);
    AmountOfFmt2(amount, t1);
    OneSpace(t2);
    LettersExact(currency, t3);
    LiteralExact(" from u/", t4);
    RunExact(lender, t5, NonSpaceNonDot);
    ParentSteps("u/" + ta, ta, borrower, tb, t0, Round2(amount), t1, t2, currency, t3, t4, lender, t5);
  }

  /** The refund matcher's steps, each established on its own. */
  lemma ParentSteps(t: string, a: string, borrower: string, b: string, c: string, amount: real, d: string,
                    e: string, ccy: string, f: string, g: string, lender: string, rest: string)
    requires Literal(t, "u/", false) == Some(a) && Run1(a, NonSpace) == Some((borrower, b))
    requires Literal(b, " has confirmed receiving ", false) == Some(c) && Amount(c) == Some((amount, d))
    requires Spaces(d) == Some(e) && Letters3(e, false) == Some((ccy, f))
    requires Literal(f, " from u/", false) == Some(g) && Run1(g, NonSpaceNonDot) == Some((lender, rest))
    ensures MatchAt(ParentPattern, t) == Some(ParentHit(borrower, amount, ccy, lender))
  {
  }

  /** The refund pattern only matches where a `u` stands. */
  lemma ParentNeedsU(t: string)
    requires t != [] && t[0] != 'u'
    ensures MatchAt(ParentPattern, t).None?
  {
    if |t| >= 2 {
      assert t[..2][0] == t[0];
    }
  }

  /** Text without a `u` in front of a match does not move the search. */
  lemma {:induction false} FindAfterHead(head: string, line: string, h: Hit)
    requires forall i :: 0 <= i < |head| ==> head[i] != 'u'
    requires MatchAt(ParentPattern, line) == Some(h)
    ensures Find(ParentPattern, head + line) == Some(h)
  {
    var s := head + line;
    assert s[|head|..] == line;
    forall j | 0 <= j < |head| ensures MatchAt(ParentPattern, s[j..]).None? {
      assert s[j..][0] == head[j];
      ParentNeedsU(s[j..]);
    }
    FindAt(ParentPattern, s, |head|, h);
  }

  lemma HeadHasNoU()
    ensures forall i :: 0 <= i < |ReplyHead| ==> ReplyHead[i] != 'u'
  {
  }

  /**
   * Re-parsing the confirmation reply, followed by anything, gives back the
   * loan's borrower, currency and lender, and its amount rounded to cents.
   */
  lemma {:induction false} RefundReadsConfirmReply(
    borrower: string, amount: real, currency: string, lender: string, rest: string)
    requires PlainName(borrower) && PlainName(lender)
    requires amount >= 0.0 && IsCurrency(currency)
    ensures ParseParent(ConfirmReply(borrower, amount, currency, lender) + rest)
            == Refund(borrower, Round2(amount), currency, lender)
  {
    var line := ReplyLine(borrower, amount, currency, lender, "." + rest);
    ReplyLineAppend(borrower, amount, currency, lender, ".", rest);
    Assoc(ReplyHead, ReplyLine(borrower, amount, currency, lender, "."), rest);
    ParentMatchesLine(borrower, amount, currency, lender, rest);
    HeadHasNoU();
    FindAfterHead(ReplyHead, line, ParentHit(borrower, Round2(amount), currency, lender));
    LowerStrIdempotent(borrower);
    LowerStrIdempotent(lender);
  }

  // ---------------------------------------------------------------------
  // Suggested commands in code blocks
  // ---------------------------------------------------------------------

  /** A fenced block as the bot writes one: the fence, a line break, the command, a line break, the fence. */
  function CodeBlock(cmd: string): (r: string)
    ensures |r| == |cmd| + 8
    ensures r[..4] == Fence + "\n" && r[4..|r| - 4] == cmd && r[|r| - 4..] == "\n" + Fence
  {
    Fence + ("\n" + (cmd + ("\n" + Fence)))
  }

  /** The command the offer reply suggests to the borrower (:148-150). */
  function SuggestedConfirm(lender: string, amount: real, currency: string): (r: string)
    requires amount >= 0.0
    ensures |r| > 12 + |lender| + |currency|
    ensures r[..12] == "$confirm /u/" && r[12..12 + |lender|] == lender && r[|r| - |currency|..] == currency
  {
    "$confirm" + (" " + ("/u/" + (lender + (" " + (Fmt2(amount) + (" " + currency))))))
  }

  /** The command the confirmation reply suggests for repayment (:245-247). */
  function SuggestedPaid(loanId: nat, amount: real, currency: string): (r: string)
    requires amount >= 0.0
    ensures |r| > 14 + |currency|
    ensures r[..14] == "$paid_with_id " && r[|r| - |currency|..] == currency
  {
    "$paid_with_id" + (" " + (NatDigits(loanId) + (" " + (Fmt2(amount) + (" " + currency)))))
  }

  /** Text the block pattern can take whole as content: no backtick, no space at either end. */
  predicate BlockSafe(cmd: string) {
    |cmd| > 0 && !IsSpace(cmd[0]) && !IsSpace(cmd[|cmd| - 1]) && Lacks(cmd, '`')
  }

  /** Inside such a command the block cannot close. */
  lemma {:induction false} NoCloseInside(cmd: string, tail: string, j: nat)
    requires BlockSafe(cmd) && j < |cmd|
    ensures !ClosesBlock((cmd + tail)[j..])
    decreases |cmd| - j
  {
    var q := (cmd + tail)[j..];
    assert q[0] == cmd[j];
    if IsSpace(cmd[j]) {
      NoCloseInside(cmd, tail, j + 1);
      assert q[1..] == (cmd + tail)[j + 1..];
    }
  }

  /** The shortest content of a bot-written block is the whole command. */
  lemma {:induction false} ShortestIsCommand(cmd: string, rest: string)
    requires BlockSafe(cmd)
    ensures ShortestContent(cmd + ("\n" + (Fence + rest)), 0) == Some(|cmd|)
  {
    var tail := "\n" + (Fence + rest);
    var p := cmd + tail;
    forall j | 0 <= j < |cmd| ensures !ClosesBlock(p[j..]) {
      NoCloseInside(cmd, tail, j);
    }
    assert p[|cmd|..] == tail;
    SpanOf("\n", Fence + rest, Space);
    assert ClosesBlock(p[|cmd|..]);
  }

  /** The block matcher's steps, each established on its own. */
  lemma BlockSteps(s: string, t1: string, p: string, k: nat)
    requires Literal(s, Fence, false) == Some(t1)
    requires Span(t1, Space).1 == p
    requires k <= |p| && ShortestContent(p, 0) == Some(k)
    ensures BlockAt(s) == Some(BlockHit(p[..k]))
  {
  }

  /** The block pattern finds a bot-written block at the head of the text, whatever follows it. */
  lemma {:induction false} BlockFound(cmd: string, rest: string)
    requires BlockSafe(cmd)
    ensures Find(BlockPattern, Fence + ("\n" + (cmd + ("\n" + (Fence + rest))))) == Some(BlockHit(cmd))
  {
    var p := cmd + ("\n" + (Fence + rest));
    var t1 := "\n" + p;
    var s := Fence + t1;
    LiteralExact(Fence, t1);
    SpanOf("\n", p, Space);
    ShortestIsCommand(cmd, rest);
    BlockSteps(s, t1, p, |cmd|);
    assert p[..|cmd|] == cmd;
    assert s[0..] == s;
    BlockPatternIsBlockAt(s);
    FindAt(BlockPattern, s, 0, BlockHit(cmd));
  }

  /** A block written by the bot, followed by anything, yields its command as the command text. */
  lemma CommandTextOfBlock(cmd: string, rest: string)
    requires BlockSafe(cmd)
    ensures CommandText(CodeBlock(cmd) + rest) == cmd
  {
    var x3 := "\n" + Fence;
    var x2 := cmd + x3;
    var x1 := "\n" + x2;
    Assoc(Fence, x1, rest);
    Assoc("\n", x2, rest);
    Assoc(cmd, x3, rest);
    Assoc("\n", Fence, rest);
    BlockFound(cmd, rest);
  }

  /** A two-decimal rendering starts with a digit and holds no backtick. */
  lemma Fmt2Head(x: real)
    requires x >= 0.0
    ensures |Fmt2(x)| > 0 && IsDigit(Fmt2(x)[0]) && Lacks(Fmt2(x), '`')
  {
    var c := Cents(x);
    assert Fmt2(x)[0] == NatDigits(c / 100)[0];
  }

  /** The amount and currency the suggested commands end with: no backtick, and a last character that is a letter. */
  lemma AmountThenCurrencySafe(amount: real, currency: string)
    requires amount >= 0.0 && IsCurrency(currency)
    ensures Lacks(Fmt2(amount) + (" " + currency), '`')
    ensures var t := Fmt2(amount) + (" " + currency); |t| > 0 && !IsSpace(t[|t| - 1])
  {
    Fmt2Head(amount);
    LacksJoin(" ", currency, '`');
    LacksJoin(Fmt2(amount), " " + currency, '`');
  }

  /** Names the confirm pattern gives back unchanged: lower case, no whitespace, no `.` or backtick. */
  predicate PostableName(name: string) {
    PlainName(name) && Lacks(name, '`')
  }

  lemma SuggestedConfirmSafe(lender: string, amount: real, currency: string)
    requires PostableName(lender) && amount >= 0.0 && IsCurrency(currency)
    ensures BlockSafe(SuggestedConfirm(lender, amount, currency))
  {
    var tail := Fmt2(amount) + (" " + currency);
    AmountThenCurrencySafe(amount, currency);
    LacksJoin(" ", tail, '`');
    LacksJoin(lender, " " + tail, '`');
    LacksJoin("/u/", lender + (" " + tail), '`');
    LacksJoin(" ", "/u/" + (lender + (" " + tail)), '`');
    LacksJoin("$confirm", " " + ("/u/" + (lender + (" " + tail))), '`');
  }

  /** The tokens after a name or id: one space, the amount numeral, one space, the currency, and nothing more. */
  lemma AmountThenCurrency(num: string, currency: string)
    requires |currency| == 3 && AllLetters(currency)
    requires num != [] && !IsSpace(num[0])
    ensures Spaces(" " + (num + (" " + currency))) == Some(num + (" " + currency))
    ensures Spaces(" " + currency) == Some(currency)
    ensures Letters3(currency, true) == Some((currency, []))
  {
    OneSpace(num + (" " + currency));
    OneSpace(currency);
    assert currency + [] == currency;
    LettersFolded(currency, []);
  }

  /** The confirm matcher's steps, each established on its own. */
  lemma ConfirmSteps(t: string, prefix: string, a: string, b: string, c: string, name: string,
                     d: string, e: string, amount: real, f: string, g: string, ccy: string, rest: string)
    requires Literal(t, "$confirm", true) == Some(a) && Spaces(a) == Some(b)
    requires Literal(b, prefix, true) == Some(c) && Run1(c, NonSpace) == Some((name, d))
    requires Spaces(d) == Some(e) && Amount(e) == Some((amount, f))
    requires Spaces(f) == Some(g) && Letters3(g, true) == Some((ccy, rest))
    ensures ConfirmAt(t, prefix) == Some(NamedAmountHit(name, amount, ccy))
  {
  }

  /** A confirm command in either form (`/u/` or bare `u/`), with a numeral the amount grammar reads as `v` (written right-nested). */
  lemma {:induction false} ConfirmCommandMatches(prefix: string, name: string, num: string, v: real, currency: string)
    requires prefix == "/u/" || prefix == "u/"
    requires |name| > 0 && AllIn(name, NonSpace) && |currency| == 3 && AllLetters(currency)
    requires num != [] && !IsSpace(num[0])
    requires Amount(num + (" " + currency)) == Some((v, " " + currency))
    ensures ConfirmAt("$confirm" + (" " + (prefix + (name + (" " + (num + (" " + currency)))))), prefix)
            == Some(NamedAmountHit(name, v, currency))
  {
    var t4 := " " + currency;
    var f := num + t4;
    var t3 := " " + f;
    var t2 := name + t3;
    var t1 := " " + (prefix + t2);
    LiteralFolded("$confirm", t1);
    OneSpace(prefix + t2);
    LiteralFolded(prefix, t2);
    RunExact(name, t3, NonSpace);
    AmountThenCurrency(num, currency);
    ConfirmSteps("$confirm" + t1, prefix, t1, prefix + t2, t2, name, t3, f, v, t4, currency, currency, []);
  }

  lemma SuggestedConfirmMatches(lender: string, amount: real, currency: string)
    requires PostableName(lender) && amount >= 0.0 && IsCurrency(currency)
    ensures MatchAt(ConfirmSlashPattern, SuggestedConfirm(lender, amount, currency))
            == Some(NamedAmountHit(lender, Round2(amount), currency))
  {
    var num := Fmt2(amount);
    Fmt2Head(amount);
    AmountOfFmt2(amount, " " + currency);
    ConfirmCommandMatches("/u/", lender, num, Round2(amount), currency);
    ConfirmSlashIsConfirmAt(SuggestedConfirm(lender, amount, currency));
  }

  /**
   * Posting the block the offer reply suggests records the offered loan,
   * with the amount rounded to cents.
   */
  lemma ConfirmSuggestionRoundTrip(lender: string, amount: real, currency: string, rest: string)
    requires PostableName(lender) && amount >= 0.0 && IsCurrency(currency)
    ensures ParseConfirm(CodeBlock(SuggestedConfirm(lender, amount, currency)) + rest)
            == Confirm(lender, Round2(amount), currency)
  {
    var cmd := SuggestedConfirm(lender, amount, currency);
    SuggestedConfirmSafe(lender, amount, currency);
    CommandTextOfBlock(cmd, rest);
    SuggestedConfirmMatches(lender, amount, currency);
    assert cmd[0..] == cmd;
    FindAt(ConfirmSlashPattern, cmd, 0, NamedAmountHit(lender, Round2(amount), currency));
    LowerStrIdempotent(lender);
  }

  lemma SuggestedPaidSafe(loanId: nat, amount: real, currency: string)
    requires amount >= 0.0 && IsCurrency(currency)
    ensures BlockSafe(SuggestedPaid(loanId, amount, currency))
  {
    var tail := Fmt2(amount) + (" " + currency);
    var id := NatDigits(loanId);
    AmountThenCurrencySafe(amount, currency);
    assert Lacks(id, '`');
    LacksJoin(" ", tail, '`');
    LacksJoin(id, " " + tail, '`');
    LacksJoin(" ", id + (" " + tail), '`');
    LacksJoin("$paid_with_id", " " + (id + (" " + tail)), '`');
  }

  /** The paid matcher's steps, each established on its own. */
  lemma PaidSteps(t: string, a: string, b: string, ds: string, c: string, d: string,
                  amount: real, e: string, f: string, ccy: string, rest: string)
    requires Literal(t, "$paid_with_id", true) == Some(a) && Spaces(a) == Some(b)
    requires Run1(b, Digit) == Some((ds, c)) && Spaces(c) == Some(d)
    requires Amount(d) == Some((amount, e)) && Spaces(e) == Some(f)
    requires Letters3(f, true) == Some((ccy, rest))
    ensures PaidAt(t) == Some(IdAmountHit(DigitsValue(ds), amount, ccy))
  {
  }

  /** A paid command with an id numeral and an amount numeral the amount grammar reads as `v` (written right-nested). */
  lemma {:induction false} PaidCommandMatches(ds: string, num: string, v: real, currency: string)
    requires |ds| > 0 && AllDigits(ds) && IsCurrency(currency)
    requires num != [] && !IsSpace(num[0])
    requires Amount(num + (" " + currency)) == Some((v, " " + currency))
    ensures MatchAt(PaidPattern, "$paid_with_id" + (" " + (ds + (" " + (num + (" " + currency))))))
            == Some(IdAmountHit(DigitsValue(ds), v, currency))
  {
    var t4 := " " + currency;
    var f := num + t4;
    var t3 := " " + f;
    var t2 := ds + t3;
    var t1 := " " + t2;
    LiteralFolded("$paid_with_id", t1);
    OneSpace(t2);
    RunExact(ds, t3, Digit);
    AmountThenCurrency(num, currency);
    PaidSteps("$paid_with_id" + t1, t1, t2, ds, t3, f, v, t4, currency, currency, []);
    PaidIsPaidAt("$paid_with_id" + t1);
  }

  lemma SuggestedPaidMatches(loanId: nat, amount: real, currency: string)
    requires amount >= 0.0 && IsCurrency(currency)
    ensures MatchAt(PaidPattern, SuggestedPaid(loanId, amount, currency))
            == Some(IdAmountHit(loanId, Round2(amount), currency))
  {
    var num := Fmt2(amount);
    var ds := NatDigits(loanId);
    Fmt2Head(amount);
    AmountOfFmt2(amount, " " + currency);
    PaidCommandMatches(ds, num, Round2(amount), currency);
  }

  /**
   * Posting the block the confirmation reply suggests names the recorded
   * loan by its id, with its amount rounded to cents.
   */
  lemma PaidSuggestionRoundTrip(loanId: nat, amount: real, currency: string, rest: string)
    requires amount >= 0.0 && IsCurrency(currency)
    ensures ParsePaid(CodeBlock(SuggestedPaid(loanId, amount, currency)) + rest)
            == Paid(loanId, Round2(amount), currency)
  {
    var cmd := SuggestedPaid(loanId, amount, currency);
    SuggestedPaidSafe(loanId, amount, currency);
    CommandTextOfBlock(cmd, rest);
    SuggestedPaidMatches(loanId, amount, currency);
    assert cmd[0..] == cmd;
    FindAt(PaidPattern, cmd, 0, IdAmountHit(loanId, Round2(amount), currency));
  }
}
