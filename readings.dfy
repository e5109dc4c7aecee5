/**
 * Commands as people type them, read back by the bot's grammars: the offer
 * (loan_central_bot.py:121-131), the bare `u/` form of the confirmation
 * (:176-185) and both confirmation forms typed in plain text (:165-185),
 * the payment (:266-282) and the stats request (:490). Each
 * lemma states that the values
 * written in the comment are the values the handler goes on with.
 */
module Readings {
  import opened Wrappers
  import opened Text
  import opened Matchers
  import opened Commands
  import opened Templates

  // ---------------------------------------------------------------------
  // Amounts as typed
  // ---------------------------------------------------------------------

  /** A decimal numeral as typed: digits, then a point and more digits when `frac` is not empty. */
  function Numeral(whole: string, frac: string): (r: string)
    requires |whole| > 0 && AllDigits(whole) && AllDigits(frac)
    ensures |r| > 0 && IsDigit(r[0])
    ensures Lacks(r, '$') && Lacks(r, '`')
  {
    if frac == [] then
      whole
    else
      LacksJoin(".", frac, '$');
      LacksJoin(whole, "." + frac, '$');
      LacksJoin(".", frac, '`');
      LacksJoin(whole, "." + frac, '`');
      whole + ("." + frac)
  }

  /**
   * A whole number is read as its value when no point-and-digit follows it:
   * `\d+(?:\.\d+)?` then matches without its optional group.
   */
  lemma AmountOfWhole(whole: string, t: string)
    requires |whole| > 0 && AllDigits(whole)
    requires t == [] || !IsDigit(t[0])
    requires !(|t| >= 2 && t[0] == '.' && IsDigit(t[1]))
    ensures Amount(whole + t) == Some((NumeralValue(whole, []), t))
  {
    RunExact(whole, t, Digit);
  }

  /** The amount grammar reads a typed numeral, with or without a fraction, as its exact value. */
  lemma AmountReads(whole: string, frac: string, t: string)
    requires |whole| > 0 && AllDigits(whole) && AllDigits(frac)
    requires t == [] || (!IsDigit(t[0]) && t[0] != '.')
    ensures Amount(Numeral(whole, frac) + t) == Some((NumeralValue(whole, frac), t))
  {
    if frac == [] {
      AmountOfWhole(whole, t);
    } else {
      Assoc(whole, "." + frac, t);
      Assoc(".", frac, t);
      AmountOfNumeral(whole, frac, t);
    }
  }

  // ---------------------------------------------------------------------
  // The offer
  // ---------------------------------------------------------------------

  /** The offer matcher's steps, each established on its own. */
  lemma LoanSteps(t: string, a: string, b: string, amount: real, c: string, d: string, ccy: string, rest: string)
    requires Literal(t, "$loan", true) == Some(a) && Spaces(a) == Some(b)
    requires Amount(b) == Some((amount, c)) && Spaces(c) == Some(d)
    requires Letters3(d, true) == Some((ccy, rest))
    ensures MatchAt(LoanPattern, t) == Some(AmountHit(amount, ccy))
  {
  }

  /**
   * The offer pattern matches `$loan <amount> <CCY>`, with a numeral the
   * amount grammar reads as `v`, whatever follows the three letters.
   */
  lemma {:induction false} OfferMatches(num: string, v: real, ccy: string, rest: string)
    requires num != [] && !IsSpace(num[0])
    requires Amount(num + (" " + (ccy + rest))) == Some((v, " " + (ccy + rest)))
    requires |ccy| == 3 && AllLetters(ccy)
    ensures MatchAt(LoanPattern, "$loan" + (" " + (num + (" " + (ccy + rest))))) == Some(AmountHit(v, ccy))
  {
    var t3 := ccy + rest;
    var t2 := " " + t3;
    var t1 := num + t2;
    var t0 := " " + t1;
    LiteralFolded("$loan", t0);
    OneSpace(t1);
    OneSpace(t3);
    LettersFolded(ccy, rest);
    LoanSteps("$loan" + t0, t0, t1, v, t2, t3, ccy, rest);
  }

  /**
   * An offer typed after any text without a `$` is read with its exact
   * amount and its currency upper-cased, whatever follows the three letters.
   */
  lemma OfferReads(head: string, whole: string, frac: string, ccy: string, rest: string)
    requires Lacks(head, '$')
    requires |whole| > 0 && AllDigits(whole) && AllDigits(frac)
    requires |ccy| == 3 && AllLetters(ccy)
    ensures ParseOffer(head + ("$loan" + (" " + (Numeral(whole, frac) + (" " + (ccy + rest))))))
            == Offer(NumeralValue(whole, frac), UpperStr(ccy))
  {
    var line := "$loan" + (" " + (Numeral(whole, frac) + (" " + (ccy + rest))));
    AmountReads(whole, frac, " " + (ccy + rest));
    OfferMatches(Numeral(whole, frac), NumeralValue(whole, frac), ccy, rest);
    FindAfterDollarFree(LoanPattern, head, line, AmountHit(NumeralValue(whole, frac), ccy));
  }

  // ---------------------------------------------------------------------
  // The payment
  // ---------------------------------------------------------------------

  /** Text without a backtick holds no code block, so the command text is the whole of it. */
  lemma {:induction false} NoBlockWithoutBacktick(t: string)
    requires Lacks(t, '`')
    ensures CommandText(t) == t
  {
    forall k | 0 <= k <= |t| ensures MatchAt(BlockPattern, t[k..]).None? {
      BlockPatternIsBlockAt(t[k..]);
      if k < |t| {
        assert t[k..][0] == t[k];
      }
    }
    NotFound(BlockPattern, t);
  }

  /** A payment as typed: `$paid_with_id <id> <amount> <CCY>`, then whatever follows. */
  function TypedPaid(ds: string, num: string, ccy: string, rest: string): (r: string)
  {
    "$paid_with_id" + (" " + (ds + (" " + (num + (" " + (ccy + rest))))))
  }

  /**
   * The paid pattern matches a typed payment with the id's digits, an amount
   * numeral the amount grammar reads as `v`, and three letters in any case.
   */
  lemma {:induction false} PaidMatches(ds: string, num: string, v: real, ccy: string, rest: string)
    requires |ds| > 0 && AllDigits(ds)
    requires num != [] && !IsSpace(num[0])
    requires Amount(num + (" " + (ccy + rest))) == Some((v, " " + (ccy + rest)))
    requires |ccy| == 3 && AllLetters(ccy)
    ensures PaidAt(TypedPaid(ds, num, ccy, rest)) == Some(IdAmountHit(DigitsValue(ds), v, ccy))
  {
    var f := ccy + rest;
    var e := " " + f;
    var d := num + e;
    var c := " " + d;
    var b := ds + c;
    var a := " " + b;
    PaidHead(ds, c);
    OneSpace(d);
    OneSpace(f);
    LettersFolded(ccy, rest);
    PaidSteps(TypedPaid(ds, num, ccy, rest), a, b, ds, c, d, v, e, f, ccy, rest);
  }

  /** The keyword, one space and the id's digits, up to the space after them. */
  lemma PaidHead(ds: string, c: string)
    requires |ds| > 0 && AllDigits(ds) && |c| > 0 && c[0] == ' '
    ensures Literal("$paid_with_id" + (" " + (ds + c)), "$paid_with_id", true) == Some(" " + (ds + c))
    ensures Spaces(" " + (ds + c)) == Some(ds + c)
    ensures Run1(ds + c, Digit) == Some((ds, c))
  {
    LiteralFolded("$paid_with_id", " " + (ds + c));
    OneSpace(ds + c);
    RunExact(ds, c, Digit);
  }

  /** A typed payment has no backtick when its amount and what follows have none. */
  lemma TypedPaidSafe(ds: string, num: string, ccy: string, rest: string)
    requires AllDigits(ds) && Lacks(num, '`') && AllLetters(ccy) && Lacks(rest, '`')
    ensures Lacks(TypedPaid(ds, num, ccy, rest), '`')
  {
    assert Lacks(ds, '`') && Lacks(ccy, '`');
    LacksJoin(ccy, rest, '`');
    LacksJoin(" ", ccy + rest, '`');
    LacksJoin(num, " " + (ccy + rest), '`');
    LacksJoin(" ", num + (" " + (ccy + rest)), '`');
    LacksJoin(ds, " " + (num + (" " + (ccy + rest))), '`');
    LacksJoin(" ", ds + (" " + (num + (" " + (ccy + rest)))), '`');
    LacksJoin("$paid_with_id", " " + (ds + (" " + (num + (" " + (ccy + rest))))), '`');
  }

  /** The paid grammar's result once the command text and the match in it are known. */
  lemma ParsePaidOf(body: string, text: string, h: Hit)
    requires CommandText(body) == text && Find(PaidPattern, text) == Some(h)
    ensures ParsePaid(body) == Paid(h.id, h.amount, UpperStr(h.currency))
  {
  }

  /** A typed payment after text without a `$` is the paid pattern's leftmost match. */
  lemma PaidFound(head: string, ds: string, num: string, v: real, ccy: string, rest: string)
    requires Lacks(head, '$')
    requires |ds| > 0 && AllDigits(ds)
    requires num != [] && !IsSpace(num[0])
    requires Amount(num + (" " + (ccy + rest))) == Some((v, " " + (ccy + rest)))
    requires |ccy| == 3 && AllLetters(ccy)
    ensures Find(PaidPattern, head + TypedPaid(ds, num, ccy, rest)) == Some(IdAmountHit(DigitsValue(ds), v, ccy))
  {
    var line := TypedPaid(ds, num, ccy, rest);
    PaidMatches(ds, num, v, ccy, rest);
    PaidIsPaidAt(line);
    FindAfterDollarFree(PaidPattern, head, line, IdAmountHit(DigitsValue(ds), v, ccy));
  }

  /** `PaidReads` for any amount numeral the amount grammar reads as `v`. */
  lemma PaidNumeralReads(head: string, ds: string, num: string, v: real, ccy: string, rest: string)
    requires Lacks(head, '$') && Lacks(head, '`') && Lacks(num, '`') && Lacks(rest, '`')
    requires |ds| > 0 && AllDigits(ds)
    requires num != [] && !IsSpace(num[0])
    requires Amount(num + (" " + (ccy + rest))) == Some((v, " " + (ccy + rest)))
    requires |ccy| == 3 && AllLetters(ccy)
    ensures ParsePaid(head + TypedPaid(ds, num, ccy, rest)) == Paid(DigitsValue(ds), v, UpperStr(ccy))
  {
    var body := head + TypedPaid(ds, num, ccy, rest);
    TypedPaidSafe(ds, num, ccy, rest);
    LacksJoin(head, TypedPaid(ds, num, ccy, rest), '`');
    NoBlockWithoutBacktick(body);
    PaidFound(head, ds, num, v, ccy, rest);
    ParsePaidOf(body, body, IdAmountHit(DigitsValue(ds), v, ccy));
  }

  /**
   * A payment typed in plain text after any text without a `$`, with no code
   * block anywhere in the comment, pays the loan whose id the digits spell
   * (as the integer `id` column reads them), with the exact amount typed (as `Decimal()`
   * reads it) and the currency upper-cased.
   */
  lemma PaidReads(head: string, ds: string, whole: string, frac: string, ccy: string, rest: string)
    requires Lacks(head, '$') && Lacks(head, '`') && Lacks(rest, '`')
    requires |ds| > 0 && AllDigits(ds)
    requires |whole| > 0 && AllDigits(whole) && AllDigits(frac)
    requires |ccy| == 3 && AllLetters(ccy)
    ensures ParsePaid(head + TypedPaid(ds, Numeral(whole, frac), ccy, rest))
            == Paid(DigitsValue(ds), NumeralValue(whole, frac), UpperStr(ccy))
  {
    TypedNumeral(whole, frac, " " + (ccy + rest));
    PaidNumeralReads(head, ds, Numeral(whole, frac), NumeralValue(whole, frac), ccy, rest);
  }

  /** What the readings need of a typed numeral followed by a space. */
  lemma TypedNumeral(whole: string, frac: string, t: string)
    requires |whole| > 0 && AllDigits(whole) && AllDigits(frac)
    requires t != [] && t[0] == ' '
    ensures Numeral(whole, frac) != [] && !IsSpace(Numeral(whole, frac)[0]) && Lacks(Numeral(whole, frac), '`')
    ensures Amount(Numeral(whole, frac) + t) == Some((NumeralValue(whole, frac), t))
  {
    AmountReads(whole, frac, t);
  }

  /** A typed payment fits in a code block without closing it early. */
  lemma TypedPaidBlockSafe(ds: string, num: string, ccy: string)
    requires AllDigits(ds) && Lacks(num, '`') && |ccy| == 3 && AllLetters(ccy)
    ensures BlockSafe(TypedPaid(ds, num, ccy, []))
  {
    var cmd := TypedPaid(ds, num, ccy, []);
    TypedPaidSafe(ds, num, ccy, []);
    assert cmd[|cmd| - 1] == ccy[2];
  }

  /** `PaidBlockReads` for any amount numeral the amount grammar reads as `v`. */
  lemma PaidNumeralBlockReads(ds: string, num: string, v: real, ccy: string, rest: string)
    requires |ds| > 0 && AllDigits(ds) && Lacks(num, '`')
    requires num != [] && !IsSpace(num[0])
    requires Amount(num + (" " + (ccy + []))) == Some((v, " " + (ccy + [])))
    requires |ccy| == 3 && AllLetters(ccy)
    ensures ParsePaid(CodeBlock(TypedPaid(ds, num, ccy, [])) + rest) == Paid(DigitsValue(ds), v, UpperStr(ccy))
  {
    var cmd := TypedPaid(ds, num, ccy, []);
    TypedPaidBlockSafe(ds, num, ccy);
    CommandTextOfBlock(cmd, rest);
    PaidFound([], ds, num, v, ccy, []);
    assert [] + cmd == cmd;
    ParsePaidOf(CodeBlock(cmd) + rest, cmd, IdAmountHit(DigitsValue(ds), v, ccy));
  }

  /**
   * A typed payment posted in a code block, followed by anything, pays the
   * loan whose id the digits spell, with the exact amount typed and the
   * currency upper-cased.
   */
  lemma PaidBlockReads(ds: string, whole: string, frac: string, ccy: string, rest: string)
    requires |ds| > 0 && AllDigits(ds)
    requires |whole| > 0 && AllDigits(whole) && AllDigits(frac)
    requires |ccy| == 3 && AllLetters(ccy)
    ensures ParsePaid(CodeBlock(TypedPaid(ds, Numeral(whole, frac), ccy, [])) + rest)
            == Paid(DigitsValue(ds), NumeralValue(whole, frac), UpperStr(ccy))
  {
    TypedNumeral(whole, frac, " " + (ccy + []));
    PaidNumeralBlockReads(ds, Numeral(whole, frac), NumeralValue(whole, frac), ccy, rest);
  }

  // ---------------------------------------------------------------------
  // The stats request
  // ---------------------------------------------------------------------

  /** The stats matcher's steps, each established on its own. */
  lemma StatsSteps(t: string, a: string, b: string, c: string, name: string, rest: string)
    requires Literal(t, "$stats", true) == Some(a) && Spaces(a) == Some(b)
    requires (if Literal(b, "/u/", true).Some? then Literal(b, "/u/", true) else Literal(b, "u/", true)) == Some(c)
    requires Run1(c, NonSpace) == Some((name, rest))
    ensures MatchAt(StatsPattern, t) == Some(NameHit(name))
  {
  }

  /** `(?:/u/|u/)`: the first alternative that matches at the head of the text. */
  lemma StatsPrefix(prefix: string, t: string)
    requires prefix == "/u/" || prefix == "u/"
    ensures (if Literal(prefix + t, "/u/", true).Some? then Literal(prefix + t, "/u/", true)
             else Literal(prefix + t, "u/", true)) == Some(t)
  {
    LiteralFolded(prefix, t);
    if prefix == "u/" && |prefix + t| >= 3 {
      assert (prefix + t)[..3][0] == 'u';
    }
  }

  /** The stats pattern matches `$stats /u/<name>` and `$stats u/<name>` up to the first whitespace after the name. */
  lemma {:induction false} StatsMatches(prefix: string, name: string, rest: string)
    requires prefix == "/u/" || prefix == "u/"
    requires |name| > 0 && AllIn(name, NonSpace)
    requires rest == [] || IsSpace(rest[0])
    ensures MatchAt(StatsPattern, "$stats" + (" " + (prefix + (name + rest)))) == Some(NameHit(name))
  {
    var t2 := name + rest;
    var t1 := prefix + t2;
    var t0 := " " + t1;
    LiteralFolded("$stats", t0);
    OneSpace(t1);
    StatsPrefix(prefix, t2);
    RunExact(name, rest, NonSpace);
    StatsSteps("$stats" + t0, t0, t1, t2, name, rest);
  }

  /**
   * A stats request typed after any text without a `$` names the user it
   * was written with, lower-cased, in either form.
   */
  lemma StatsReads(head: string, prefix: string, name: string, rest: string)
    requires Lacks(head, '$')
    requires prefix == "/u/" || prefix == "u/"
    requires |name| > 0 && AllIn(name, NonSpace)
    requires rest == [] || IsSpace(rest[0])
    ensures ParseStats(head + ("$stats" + (" " + (prefix + (name + rest))))) == Stats(LowerStr(name))
  {
    StatsMatches(prefix, name, rest);
    FindAfterDollarFree(StatsPattern, head, "$stats" + (" " + (prefix + (name + rest))), NameHit(name));
  }

  // ---------------------------------------------------------------------
  // The bare confirmation
  // ---------------------------------------------------------------------

  /** A confirmation in the bare form: `$confirm u/<name> <amount> <CCY>`. */
  function BareConfirm(name: string, num: string, ccy: string): (r: string)
    ensures |r| > 0 && r[0] == '$'
  {
    "$confirm" + (" " + ("u/" + (name + (" " + (num + (" " + ccy))))))
  }

  /** The bare confirm pattern matches such a command with its name, amount and currency. */
  lemma BareConfirmMatches(name: string, whole: string, frac: string, ccy: string)
    requires |name| > 0 && AllIn(name, NonSpace) && |ccy| == 3 && AllLetters(ccy)
    requires |whole| > 0 && AllDigits(whole) && AllDigits(frac)
    ensures MatchAt(ConfirmBarePattern, BareConfirm(name, Numeral(whole, frac), ccy))
            == Some(NamedAmountHit(name, NumeralValue(whole, frac), ccy))
  {
    AmountReads(whole, frac, " " + ccy);
    ConfirmCommandMatches("u/", name, Numeral(whole, frac), NumeralValue(whole, frac), ccy);
  }

  /** After `$confirm` and a space, the `/u/` form needs a `/` where the bare form has its `u`. */
  lemma SlashFailsAtBare(name: string, num: string, ccy: string)
    ensures ConfirmAt(BareConfirm(name, num, ccy), "/u/").None?
  {
    var t1 := "u/" + (name + (" " + (num + (" " + ccy))));
    LiteralFolded("$confirm", " " + t1);
    OneSpace(t1);
    assert Literal(t1, "/u/", true).None? by {
      if |t1| >= 3 {
        assert t1[..3][0] == 'u';
      }
    }
    ConfirmStopsAtPrefix(BareConfirm(name, num, ccy), " " + t1, t1, "/u/");
  }

  /** The confirm matcher fails when the prefix it expects after `$confirm` and the spaces is not there. */
  lemma ConfirmStopsAtPrefix(t: string, a: string, b: string, prefix: string)
    requires Literal(t, "$confirm", true) == Some(a) && Spaces(a) == Some(b)
    requires Literal(b, prefix, true).None?
    ensures ConfirmAt(t, prefix).None?
  {
  }

  /** What follows the `$` of a bare confirmation holds no other `$`. */
  lemma BareConfirmTail(name: string, num: string, ccy: string)
    requires Lacks(name, '$') && Lacks(num, '$') && AllLetters(ccy)
    ensures Lacks(BareConfirm(name, num, ccy)[1..], '$')
  {
    var t5 := " " + ccy;
    var t4 := num + t5;
    var t3 := " " + t4;
    var t2 := name + t3;
    var t1 := "u/" + t2;
    var t0 := " " + t1;
    LacksJoin(" ", ccy, '$');
    LacksJoin(num, t5, '$');
    LacksJoin(" ", t4, '$');
    LacksJoin(name, t3, '$');
    LacksJoin("u/", t2, '$');
    LacksJoin(" ", t1, '$');
    LacksJoin("confirm", t0, '$');
    assert BareConfirm(name, num, ccy)[1..] == "confirm" + t0;
  }

  /** A bare confirmation contains no match of the `/u/` form, so the bare form is the one read. */
  lemma {:induction false} NoSlashInBare(name: string, num: string, ccy: string)
    requires Lacks(name, '$') && Lacks(num, '$') && AllLetters(ccy)
    ensures Find(ConfirmSlashPattern, BareConfirm(name, num, ccy)).None?
  {
    var t := BareConfirm(name, num, ccy);
    BareConfirmTail(name, num, ccy);
    forall k | 0 <= k <= |t| ensures MatchAt(ConfirmSlashPattern, t[k..]).None? {
      if k == 0 {
        assert t[0..] == t;
        SlashFailsAtBare(name, num, ccy);
        ConfirmSlashIsConfirmAt(t);
      } else {
        assert k < |t| ==> t[k..][0] == t[1..][k - 1];
        NeedsDollar(ConfirmSlashPattern, t[k..]);
      }
    }
    NotFound(ConfirmSlashPattern, t);
  }

  lemma BareConfirmSafe(name: string, num: string, ccy: string)
    requires Lacks(name, '`') && Lacks(num, '`') && |ccy| == 3 && AllLetters(ccy)
    ensures BlockSafe(BareConfirm(name, num, ccy))
  {
    var t5 := " " + ccy;
    var t4 := num + t5;
    var t3 := " " + t4;
    var t2 := name + t3;
    var t1 := "u/" + t2;
    var t0 := " " + t1;
    LacksJoin(" ", ccy, '`');
    LacksJoin(num, t5, '`');
    LacksJoin(" ", t4, '`');
    LacksJoin(name, t3, '`');
    LacksJoin("u/", t2, '`');
    LacksJoin(" ", t1, '`');
    LacksJoin("$confirm", t0, '`');
    var t := BareConfirm(name, num, ccy);
    assert t[|t| - 1] == ccy[2];
  }

  /**
   * A bare-form confirmation posted in a code block, followed by anything,
   * confirms a loan from the named lender (lower-cased) of the exact amount
   * typed, in the upper-cased currency.
   */
  lemma BareConfirmReads(name: string, whole: string, frac: string, ccy: string, rest: string)
    requires |name| > 0 && AllIn(name, NonSpace) && Lacks(name, '$') && Lacks(name, '`')
    requires |whole| > 0 && AllDigits(whole) && AllDigits(frac)
    requires |ccy| == 3 && AllLetters(ccy)
    ensures ParseConfirm(CodeBlock(BareConfirm(name, Numeral(whole, frac), ccy)) + rest)
            == Confirm(LowerStr(name), NumeralValue(whole, frac), UpperStr(ccy))
  {
    var num := Numeral(whole, frac);
    var cmd := BareConfirm(name, num, ccy);
    BareConfirmSafe(name, num, ccy);
    CommandTextOfBlock(cmd, rest);
    NoSlashInBare(name, num, ccy);
    BareConfirmMatches(name, whole, frac, ccy);
    assert cmd[0..] == cmd;
    FindAt(ConfirmBarePattern, cmd, 0, NamedAmountHit(name, NumeralValue(whole, frac), ccy));
  }

  // ---------------------------------------------------------------------
  // The confirmation typed in plain text
  // ---------------------------------------------------------------------

  /** A confirmation as typed: `$confirm <prefix><name> <amount> <CCY>`, then whatever follows. */
  function TypedConfirm(prefix: string, name: string, num: string, ccy: string, rest: string): string {
    "$confirm" + (" " + (prefix + (name + (" " + (num + (" " + (ccy + rest)))))))
  }

  /**
   * Either confirm form matches a typed confirmation with its name, an amount
   * numeral the amount grammar reads as `v`, and three letters in any case,
   * whatever follows them.
   */
  lemma {:induction false} TypedConfirmMatches(prefix: string, name: string, num: string, v: real, ccy: string, rest: string)
    requires prefix == "/u/" || prefix == "u/"
    requires |name| > 0 && AllIn(name, NonSpace) && |ccy| == 3 && AllLetters(ccy)
    requires num != [] && !IsSpace(num[0])
    requires Amount(num + (" " + (ccy + rest))) == Some((v, " " + (ccy + rest)))
    ensures ConfirmAt(TypedConfirm(prefix, name, num, ccy, rest), prefix) == Some(NamedAmountHit(name, v, ccy))
  {
    var g := ccy + rest;
    var f := " " + g;
    var e := num + f;
    var d := " " + e;
    ConfirmHead(prefix, name, d);
    OneSpace(e);
    OneSpace(g);
    LettersFolded(ccy, rest);
    ConfirmSteps(TypedConfirm(prefix, name, num, ccy, rest), prefix, " " + (prefix + (name + d)), prefix + (name + d),
                 name + d, name, d, e, v, f, g, ccy, rest);
  }

  /** `$confirm` in any case, one space, the prefix and the name, up to the space after it. */
  lemma ConfirmHead(prefix: string, name: string, d: string)
    requires prefix == "/u/" || prefix == "u/"
    requires |name| > 0 && AllIn(name, NonSpace) && |d| > 0 && d[0] == ' '
    ensures Literal("$confirm" + (" " + (prefix + (name + d))), "$confirm", true) == Some(" " + (prefix + (name + d)))
    ensures Spaces(" " + (prefix + (name + d))) == Some(prefix + (name + d))
    ensures Literal(prefix + (name + d), prefix, true) == Some(name + d)
    ensures Run1(name + d, NonSpace) == Some((name, d))
  {
    LiteralFolded("$confirm", " " + (prefix + (name + d)));
    OneSpace(prefix + (name + d));
    LiteralFolded(prefix, name + d);
    RunExact(name, d, NonSpace);
  }

  /** What follows the `$` of a typed confirmation lacks a backtick or `$` its name, amount and tail lack. */
  lemma TypedConfirmLacks(prefix: string, name: string, num: string, ccy: string, rest: string, ch: char)
    requires prefix == "/u/" || prefix == "u/"
    requires ch == '`' || ch == '$'
    requires Lacks(name, ch) && Lacks(num, ch) && AllLetters(ccy) && Lacks(rest, ch)
    ensures Lacks(TypedConfirm(prefix, name, num, ccy, rest)[1..], ch)
  {
    var c := name + (" " + (num + (" " + (ccy + rest))));
    var b := prefix + c;
    var a := " " + b;
    ConfirmTailLacks(name, num, ccy, rest, ch);
    LacksJoin(prefix, c, ch);
    LacksJoin(" ", b, ch);
    LacksJoin("confirm", a, ch);
    assert TypedConfirm(prefix, name, num, ccy, rest)[1..] == "confirm" + a;
  }

  /** The name, amount, currency and tail of a typed confirmation together lack what each lacks. */
  lemma ConfirmTailLacks(name: string, num: string, ccy: string, rest: string, ch: char)
    requires ch == '`' || ch == '$'
    requires Lacks(name, ch) && Lacks(num, ch) && AllLetters(ccy) && Lacks(rest, ch)
    ensures Lacks(name + (" " + (num + (" " + (ccy + rest)))), ch)
  {
    var g := ccy + rest;
    var f := " " + g;
    var e := num + f;
    assert Lacks(ccy, ch);
    LacksJoin(ccy, rest, ch);
    LacksJoin(" ", g, ch);
    LacksJoin(num, f, ch);
    LacksJoin(" ", e, ch);
    LacksJoin(name, " " + e, ch);
  }

  /** A typed confirmation holds no backtick when its name, amount and tail hold none. */
  lemma TypedConfirmSafe(prefix: string, name: string, num: string, ccy: string, rest: string)
    requires prefix == "/u/" || prefix == "u/"
    requires Lacks(name, '`') && Lacks(num, '`') && AllLetters(ccy) && Lacks(rest, '`')
    ensures Lacks(TypedConfirm(prefix, name, num, ccy, rest), '`')
  {
    var t := TypedConfirm(prefix, name, num, ccy, rest);
    TypedConfirmLacks(prefix, name, num, ccy, rest, '`');
    assert t == [t[0]] + t[1..];
    LacksJoin([t[0]], t[1..], '`');
  }

  /** A comment of a `$`- and backtick-free head and a typed slash-form confirmation is read as that confirmation. */
  lemma SlashConfirmNumeralReads(head: string, name: string, num: string, v: real, ccy: string, rest: string)
    requires Lacks(head, '$') && Lacks(head, '`') && Lacks(name, '`') && Lacks(num, '`') && Lacks(rest, '`')
    requires |name| > 0 && AllIn(name, NonSpace) && |ccy| == 3 && AllLetters(ccy)
    requires num != [] && !IsSpace(num[0])
    requires Amount(num + (" " + (ccy + rest))) == Some((v, " " + (ccy + rest)))
    ensures ParseConfirm(head + TypedConfirm("/u/", name, num, ccy, rest)) == Confirm(LowerStr(name), v, UpperStr(ccy))
  {
    var line := TypedConfirm("/u/", name, num, ccy, rest);
    TypedConfirmSafe("/u/", name, num, ccy, rest);
    LacksJoin(head, line, '`');
    NoBlockWithoutBacktick(head + line);
    TypedConfirmMatches("/u/", name, num, v, ccy, rest);
    ConfirmSlashIsConfirmAt(line);
    FindAfterDollarFree(ConfirmSlashPattern, head, line, NamedAmountHit(name, v, ccy));
  }

  /**
   * `$confirm /u/<name> <amount> <CCY>` typed in plain text after any text
   * without a `$`, in a comment without a code block, confirms a loan from
   * the named lender (lower-cased) of the exact amount typed, in the
   * upper-cased currency.
   */
  lemma SlashConfirmReads(head: string, name: string, whole: string, frac: string, ccy: string, rest: string)
    requires Lacks(head, '$') && Lacks(head, '`') && Lacks(rest, '`')
    requires |name| > 0 && AllIn(name, NonSpace) && Lacks(name, '`')
    requires |whole| > 0 && AllDigits(whole) && AllDigits(frac)
    requires |ccy| == 3 && AllLetters(ccy)
    ensures ParseConfirm(head + TypedConfirm("/u/", name, Numeral(whole, frac), ccy, rest))
            == Confirm(LowerStr(name), NumeralValue(whole, frac), UpperStr(ccy))
  {
    TypedNumeral(whole, frac, " " + (ccy + rest));
    SlashConfirmNumeralReads(head, name, Numeral(whole, frac), NumeralValue(whole, frac), ccy, rest);
  }

  /**
   * A comment of a `$`-free head and a typed bare-form confirmation whose
   * name, amount and tail hold no `$` contains no match of the `/u/` form.
   */
  lemma {:induction false} NoSlashInTyped(head: string, name: string, num: string, ccy: string, rest: string)
    requires Lacks(head, '$') && Lacks(name, '$') && Lacks(num, '$') && AllLetters(ccy) && Lacks(rest, '$')
    ensures Find(ConfirmSlashPattern, head + TypedConfirm("u/", name, num, ccy, rest)).None?
  {
    var line := TypedConfirm("u/", name, num, ccy, rest);
    var t := head + line;
    TypedConfirmLacks("u/", name, num, ccy, rest, '$');
    forall k | 0 <= k <= |t| ensures MatchAt(ConfirmSlashPattern, t[k..]).None? {
      if k < |head| {
        assert t[k..][0] == head[k];
        NeedsDollar(ConfirmSlashPattern, t[k..]);
      } else if k == |head| {
        assert t[k..] == line;
        TypedSlashFails(name, num, ccy, rest);
        ConfirmSlashIsConfirmAt(line);
      } else {
        assert k < |t| ==> t[k..][0] == line[1..][k - |head| - 1];
        NeedsDollar(ConfirmSlashPattern, t[k..]);
      }
    }
    NotFound(ConfirmSlashPattern, t);
  }

  /** The `/u/` form needs a `/` where a typed bare confirmation has its `u`. */
  lemma TypedSlashFails(name: string, num: string, ccy: string, rest: string)
    ensures ConfirmAt(TypedConfirm("u/", name, num, ccy, rest), "/u/").None?
  {
    var b := "u/" + (name + (" " + (num + (" " + (ccy + rest)))));
    LiteralFolded("$confirm", " " + b);
    OneSpace(b);
    assert Literal(b, "/u/", true).None? by {
      if |b| >= 3 {
        assert b[..3][0] == 'u';
      }
    }
    ConfirmStopsAtPrefix(TypedConfirm("u/", name, num, ccy, rest), " " + b, b, "/u/");
  }

  /** A comment of a `$`- and backtick-free head and a typed bare-form confirmation is read as that confirmation. */
  lemma BareConfirmNumeralReads(head: string, name: string, num: string, v: real, ccy: string, rest: string)
    requires Lacks(head, '$') && Lacks(head, '`') && Lacks(name, '`') && Lacks(num, '`') && Lacks(rest, '`')
    requires Lacks(name, '$') && Lacks(num, '$') && Lacks(rest, '$')
    requires |name| > 0 && AllIn(name, NonSpace) && |ccy| == 3 && AllLetters(ccy)
    requires num != [] && !IsSpace(num[0])
    requires Amount(num + (" " + (ccy + rest))) == Some((v, " " + (ccy + rest)))
    ensures ParseConfirm(head + TypedConfirm("u/", name, num, ccy, rest)) == Confirm(LowerStr(name), v, UpperStr(ccy))
  {
    var line := TypedConfirm("u/", name, num, ccy, rest);
    TypedConfirmSafe("u/", name, num, ccy, rest);
    LacksJoin(head, line, '`');
    NoBlockWithoutBacktick(head + line);
    NoSlashInTyped(head, name, num, ccy, rest);
    TypedConfirmMatches("u/", name, num, v, ccy, rest);
    FindAfterDollarFree(ConfirmBarePattern, head, line, NamedAmountHit(name, v, ccy));
  }

  /**
   * `$confirm u/<name> <amount> <CCY>` typed in plain text after any text
   * without a `$`, in a comment without a code block and with no other `$`
   * after it, confirms a loan from the named lender (lower-cased) of the
   * exact amount typed, in the upper-cased currency: the `/u/` form finds
   * nothing and the bare form is tried.
   */
  lemma BareConfirmPlainReads(head: string, name: string, whole: string, frac: string, ccy: string, rest: string)
    requires Lacks(head, '$') && Lacks(head, '`') && Lacks(rest, '$') && Lacks(rest, '`')
    requires |name| > 0 && AllIn(name, NonSpace) && Lacks(name, '$') && Lacks(name, '`')
    requires |whole| > 0 && AllDigits(whole) && AllDigits(frac)
    requires |ccy| == 3 && AllLetters(ccy)
    ensures ParseConfirm(head + TypedConfirm("u/", name, Numeral(whole, frac), ccy, rest))
            == Confirm(LowerStr(name), NumeralValue(whole, frac), UpperStr(ccy))
  {
    TypedNumeral(whole, frac, " " + (ccy + rest));
    BareConfirmNumeralReads(head, name, Numeral(whole, frac), NumeralValue(whole, frac), ccy, rest);
  }
}
