/**
 * Properties that span the grammars and the ledger: what the refund
 * handler finds when the lender replies to the bot's confirmation.
 */
module Lifecycle {
  import opened Wrappers
  import opened Text
  import opened Commands
  import opened Templates
  import opened Loans

  /**
   * A loan of a whole number of cents can always be refunded from its
   * confirmation reply: re-reading the reply gives its parties, amount and
   * currency, and the lookup finds that loan or a newer one just like it.
   */
  lemma {:induction false} RefundFindsConfirmedLoan(
    loans: map<nat, Loan>, nextId: nat, id: nat, rest: string)
    requires id < nextId && id in loans
    requires var l := loans[id];
      PlainName(l.borrower) && PlainName(l.lender) && IsCurrency(l.currency)
      && l.amount >= 0.0 && (100.0 * l.amount).Floor as real == 100.0 * l.amount
    ensures var l := loans[id];
      ParseParent(ConfirmReply(l.borrower, l.amount, l.currency, l.lender) + rest)
      == Refund(l.borrower, l.amount, l.currency, l.lender)
    ensures var l := loans[id];
      var m := LatestMatch(loans, nextId, l.lender, l.borrower, l.amount, l.currency);
      m.Some? && m.value >= id && Matches(loans[m.value], l.lender, l.borrower, l.amount, l.currency)
  {
    var l := loans[id];
    RefundReadsWholeCents(l.borrower, l.amount, l.currency, l.lender, rest);
    LoanFindsItself(loans, nextId, id);
  }

  /** For an amount of whole cents the reply is re-read with the amount unchanged. */
  lemma RefundReadsWholeCents(borrower: string, amount: real, currency: string, lender: string, rest: string)
    requires PlainName(borrower) && PlainName(lender) && IsCurrency(currency)
    requires amount >= 0.0 && (100.0 * amount).Floor as real == 100.0 * amount
    ensures ParseParent(ConfirmReply(borrower, amount, currency, lender) + rest)
            == Refund(borrower, amount, currency, lender)
  {
    RefundReadsConfirmReply(borrower, amount, currency, lender, rest);
    Round2OfCents(amount);
  }

  /** The refund lookup, asked for a loan's own terms, finds that loan or a newer one with the same terms. */
  lemma LoanFindsItself(loans: map<nat, Loan>, below: nat, id: nat)
    requires id < below && id in loans
    ensures var l := loans[id];
      var m := LatestMatch(loans, below, l.lender, l.borrower, l.amount, l.currency);
      m.Some? && m.value >= id && Matches(loans[m.value], l.lender, l.borrower, l.amount, l.currency)
  {
    var l := loans[id];
    assert Matches(l, l.lender, l.borrower, l.amount, l.currency);
  }

  /**
   * A loan confirmed with a fraction of a cent cannot be refunded from its
   * confirmation reply: the reply shows the amount rounded to cents, and the
   * lookup compares amounts exactly, so that loan is never the one found.
   */
  lemma {:induction false} SubCentLoanNotRefunded(
    loans: map<nat, Loan>, nextId: nat, id: nat, rest: string)
    requires id in loans
    requires var l := loans[id];
      PlainName(l.borrower) && PlainName(l.lender) && IsCurrency(l.currency)
      && l.amount >= 0.0 && Round2(l.amount) != l.amount
    ensures var l := loans[id];
      ParseParent(ConfirmReply(l.borrower, l.amount, l.currency, l.lender) + rest)
      == Refund(l.borrower, Round2(l.amount), l.currency, l.lender)
    ensures var l := loans[id];
      LatestMatch(loans, nextId, l.lender, l.borrower, Round2(l.amount), l.currency) != Some(id)
  {
    var l := loans[id];
    RefundReadsConfirmReply(l.borrower, l.amount, l.currency, l.lender, rest);
  }

  /** The reply to `$confirm /u/alice 10.005 USD` reads back as 10.00, which that loan does not match. */
  lemma SubCentExample()
    ensures Round2(10.005) == 10.0
    ensures !Matches(Loan("alice", "bob", 10.005, "USD", Confirmed, 0.0), "alice", "bob", Round2(10.005), "USD")
  {
    assert (100.0 * 10.005).Floor == 1000;
  }
}
