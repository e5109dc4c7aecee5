/**
 * The loan ledger: the `loans` and `users` tables (loan_central_bot.py:63-92)
 * and the read-modify-write steps the confirm, paid and refund handlers apply
 * to them. Each handler commits once or rolls back, so each is one atomic
 * method on `Ledger`. The serial `id` column doubles as creation order.
 */
module Loans {
  import opened Wrappers
  import opened Text
  import opened Commands

  // ---------------------------------------------------------------------
  // Rows
  // ---------------------------------------------------------------------

  datatype Status = Active | Confirmed | PartiallyRepaid | Repaid | Refunded

  /** Still owed: the statuses the user-information queries select (:618, :626, :636, :646). */
  predicate Open(s: Status) {
    s == Active || s == Confirmed || s == PartiallyRepaid
  }

  /** A row of `loans`, without its text id, thread link and timestamps. */
  datatype Loan = Loan(
    lender: string,
    borrower: string,
    amount: real,
    currency: string,
    status: Status,
    amountRepaid: real)

  /** A row of `users`, without its timestamp. */
  datatype UserStats = UserStats(
    loansAsBorrower: int,
    loansAsLender: int,
    amountBorrowed: real,
    amountLent: real,
    amountRepaid: real,
    unpaidLoans: int,
    unpaidAmount: real)

  /** The column defaults a freshly inserted row starts from. */
  const NoStats := UserStats(0, 0, 0.0, 0.0, 0.0, 0, 0.0)

  /** The user's row, or the defaults when the user has none. */
  function Row(users: map<string, UserStats>, u: string): UserStats {
    if u in users then users[u] else NoStats
  }

  /** `GREATEST(x, 0)` */
  function AtLeastZero(x: int): int {
    if x > 0 then x else 0
  }

  /** `GREATEST(x, 0)` on a numeric column. */
  function AtLeastZeroR(x: real): real {
    if x > 0.0 then x else 0.0
  }

  /** The largest value of the `SERIAL` (32-bit `integer`) id column. */
  const MaxSerial := 0x7fff_ffff

  // ---------------------------------------------------------------------
  // Invariant
  // ---------------------------------------------------------------------

  /**
   * What every loan row satisfies: amounts are non-negative, no row is ever
   * `active` (confirmation inserts `confirmed`), an unpaid row has repaid
   * nothing, and the status of a paid row agrees with what was repaid.
   */
  predicate LoanOk(l: Loan) {
    && l.amount >= 0.0
    && l.amountRepaid >= 0.0
    && l.status != Active
    && (l.status == Confirmed ==> l.amountRepaid == 0.0)
    && (l.status == PartiallyRepaid ==> l.amountRepaid < l.amount)
    && (l.status == Repaid ==> l.amountRepaid >= l.amount)
  }

  /**
   * What every user row satisfies: no counter or total is negative, and the
   * unpaid counters are zero, since no statement ever raises them.
   */
  predicate StatsOk(s: UserStats) {
    && s.loansAsBorrower >= 0 && s.loansAsLender >= 0
    && s.amountBorrowed >= 0.0 && s.amountLent >= 0.0 && s.amountRepaid >= 0.0
    && s.unpaidLoans == 0 && s.unpaidAmount == 0.0
  }

  predicate AllStatsOk(users: map<string, UserStats>) {
    forall u :: u in users ==> StatsOk(users[u])
  }

  /** The two tables together, with `nextId` the serial the next insert receives. */
  predicate Consistent(loans: map<nat, Loan>, nextId: nat, users: map<string, UserStats>) {
    && nextId >= 1
    && (forall id :: id in loans ==> 1 <= id < nextId && LoanOk(loans[id]))
    && (forall id :: id in loans ==> loans[id].lender in users && loans[id].borrower in users)
    && AllStatsOk(users)
  }

  // ---------------------------------------------------------------------
  // User-row updates
  // ---------------------------------------------------------------------

  /** The lender's upsert on confirmation (:213-222). */
  function CreditLender(s: UserStats, amount: real): (r: UserStats)
    ensures r.loansAsLender == s.loansAsLender + 1 && r.amountLent == s.amountLent + amount
    ensures r.(loansAsLender := s.loansAsLender, amountLent := s.amountLent) == s
    ensures StatsOk(s) && amount >= 0.0 ==> StatsOk(r)
  {
    s.(loansAsLender := s.loansAsLender + 1, amountLent := s.amountLent + amount)
  }

  /** The borrower's upsert on confirmation (:225-234). */
  function CreditBorrower(s: UserStats, amount: real): (r: UserStats)
    ensures r.loansAsBorrower == s.loansAsBorrower + 1 && r.amountBorrowed == s.amountBorrowed + amount
    ensures r.(loansAsBorrower := s.loansAsBorrower, amountBorrowed := s.amountBorrowed) == s
    ensures StatsOk(s) && amount >= 0.0 ==> StatsOk(r)
  {
    s.(loansAsBorrower := s.loansAsBorrower + 1, amountBorrowed := s.amountBorrowed + amount)
  }

  /** The lender's clamped decrement on refund (:450-456). */
  function DebitLender(s: UserStats, amount: real): (r: UserStats)
    ensures r.loansAsLender >= 0 && r.amountLent >= 0.0
    ensures r.loansAsLender == AtLeastZero(s.loansAsLender - 1) && r.amountLent == AtLeastZeroR(s.amountLent - amount)
    ensures s.loansAsLender >= 1 && s.amountLent >= amount ==>
              r.loansAsLender == s.loansAsLender - 1 && r.amountLent == s.amountLent - amount
    ensures r.(loansAsLender := s.loansAsLender, amountLent := s.amountLent) == s
    ensures StatsOk(s) ==> StatsOk(r)
  {
    s.(loansAsLender := AtLeastZero(s.loansAsLender - 1), amountLent := AtLeastZeroR(s.amountLent - amount))
  }

  /** The borrower's clamped decrement on refund (:458-464). */
  function DebitBorrower(s: UserStats, amount: real): (r: UserStats)
    ensures r.loansAsBorrower >= 0 && r.amountBorrowed >= 0.0
    ensures r.loansAsBorrower == AtLeastZero(s.loansAsBorrower - 1)
            && r.amountBorrowed == AtLeastZeroR(s.amountBorrowed - amount)
    ensures s.loansAsBorrower >= 1 && s.amountBorrowed >= amount ==>
              r.loansAsBorrower == s.loansAsBorrower - 1 && r.amountBorrowed == s.amountBorrowed - amount
    ensures r.(loansAsBorrower := s.loansAsBorrower, amountBorrowed := s.amountBorrowed) == s
    ensures StatsOk(s) ==> StatsOk(r)
  {
    s.(loansAsBorrower := AtLeastZero(s.loansAsBorrower - 1),
       amountBorrowed := AtLeastZeroR(s.amountBorrowed - amount))
  }

  /** The borrower's update on payment (:335-350): the repaid total, and when settled the clamped unpaid counters. */
  function CreditRepayment(s: UserStats, paid: real, principal: real, settled: bool): (r: UserStats)
    ensures r.amountRepaid == s.amountRepaid + paid
    ensures !settled ==> r == s.(amountRepaid := r.amountRepaid)
    ensures settled ==> r.unpaidLoans >= 0 && r.unpaidAmount >= 0.0
    ensures r.(amountRepaid := s.amountRepaid, unpaidLoans := s.unpaidLoans, unpaidAmount := s.unpaidAmount) == s
    ensures StatsOk(s) && paid >= 0.0 && principal >= 0.0 ==> StatsOk(r)
  {
    var s1 := s.(amountRepaid := s.amountRepaid + paid);
    if settled then
      s1.(unpaidLoans := AtLeastZero(s1.unpaidLoans - 1), unpaidAmount := AtLeastZeroR(s1.unpaidAmount - principal))
    else
      s1
  }

  /** Both upserts of a confirmation, the lender's first (:213-234). A missing row is created. */
  function ConfirmStats(users: map<string, UserStats>, lender: string, borrower: string, amount: real)
    : (r: map<string, UserStats>)
    ensures r.Keys == users.Keys + {lender, borrower}
    ensures forall u :: u in users && u != lender && u != borrower ==> r[u] == users[u]
    ensures lender != borrower ==>
              r[lender] == CreditLender(Row(users, lender), amount)
              && r[borrower] == CreditBorrower(Row(users, borrower), amount)
    ensures lender == borrower ==> r[lender] == CreditBorrower(CreditLender(Row(users, lender), amount), amount)
    ensures AllStatsOk(users) && amount >= 0.0 ==> AllStatsOk(r)
  {
    var u1 := users[lender := CreditLender(Row(users, lender), amount)];
    u1[borrower := CreditBorrower(Row(u1, borrower), amount)]
  }

  /** Both clamped decrements of a refund (:450-464); an `UPDATE` of a missing row changes nothing. */
  function RefundStats(users: map<string, UserStats>, lender: string, borrower: string, amount: real)
    : (r: map<string, UserStats>)
    ensures r.Keys == users.Keys
    ensures forall u :: u in users && u != lender && u != borrower ==> r[u] == users[u]
    ensures lender != borrower && lender in users ==> r[lender] == DebitLender(users[lender], amount)
    ensures lender != borrower && borrower in users ==> r[borrower] == DebitBorrower(users[borrower], amount)
    ensures lender == borrower && lender in users ==> r[lender] == DebitBorrower(DebitLender(users[lender], amount), amount)
    ensures AllStatsOk(users) ==> AllStatsOk(r)
  {
    var u1 := if lender in users then users[lender := DebitLender(users[lender], amount)] else users;
    if borrower in u1 then u1[borrower := DebitBorrower(u1[borrower], amount)] else u1
  }

  /** The borrower's update on payment (:335-350); an `UPDATE` of a missing row changes nothing. */
  function PaidStats(users: map<string, UserStats>, borrower: string, paid: real, principal: real, settled: bool)
    : (r: map<string, UserStats>)
    ensures r.Keys == users.Keys
    ensures forall u :: u in users && u != borrower ==> r[u] == users[u]
    ensures borrower in users ==> r[borrower].amountRepaid == users[borrower].amountRepaid + paid
    ensures borrower in users ==>
              r[borrower].(amountRepaid := users[borrower].amountRepaid, unpaidLoans := users[borrower].unpaidLoans,
                           unpaidAmount := users[borrower].unpaidAmount) == users[borrower]
    ensures borrower in users && !settled ==>
              r[borrower].unpaidLoans == users[borrower].unpaidLoans && r[borrower].unpaidAmount == users[borrower].unpaidAmount
    ensures borrower in users && settled ==>
              r[borrower].unpaidLoans == AtLeastZero(users[borrower].unpaidLoans - 1)
              && r[borrower].unpaidAmount == AtLeastZeroR(users[borrower].unpaidAmount - principal)
    ensures AllStatsOk(users) && paid >= 0.0 && principal >= 0.0 ==> AllStatsOk(r)
  {
    if borrower in users then users[borrower := CreditRepayment(users[borrower], paid, principal, settled)]
    else users
  }

  /** The unpaid counters of every row are non-negative (the `GREATEST` clamps keep them so). */
  predicate UnpaidNonNegative(users: map<string, UserStats>) {
    forall u :: u in users ==> users[u].unpaidLoans >= 0 && users[u].unpaidAmount >= 0.0
  }

  /**
   * No update ever raises an unpaid counter: confirmations and refunds leave
   * it, a payment leaves it or lowers it towards zero.
   */
  lemma {:induction false} UnpaidNeverRises(
    users: map<string, UserStats>, lender: string, borrower: string, amount: real, paid: real, settled: bool, u: string)
    requires UnpaidNonNegative(users) && amount >= 0.0
    ensures Row(ConfirmStats(users, lender, borrower, amount), u).unpaidLoans <= Row(users, u).unpaidLoans
    ensures Row(ConfirmStats(users, lender, borrower, amount), u).unpaidAmount <= Row(users, u).unpaidAmount
    ensures Row(RefundStats(users, lender, borrower, amount), u).unpaidLoans <= Row(users, u).unpaidLoans
    ensures Row(RefundStats(users, lender, borrower, amount), u).unpaidAmount <= Row(users, u).unpaidAmount
    ensures Row(PaidStats(users, borrower, paid, amount, settled), u).unpaidLoans <= Row(users, u).unpaidLoans
    ensures Row(PaidStats(users, borrower, paid, amount, settled), u).unpaidAmount <= Row(users, u).unpaidAmount
  {
    var c := ConfirmStats(users, lender, borrower, amount);
    var f := RefundStats(users, lender, borrower, amount);
    var p := PaidStats(users, borrower, paid, amount, settled);
    if u in users {
      var s := users[u];
      assert s.unpaidLoans >= 0 && s.unpaidAmount >= 0.0;
      if u == lender && u == borrower {
        assert c[u] == CreditBorrower(CreditLender(s, amount), amount);
        assert f[u] == DebitBorrower(DebitLender(s, amount), amount);
      } else if u == lender {
        assert c[u] == CreditLender(s, amount);
        assert f[u] == DebitLender(s, amount);
      } else if u == borrower {
        assert c[u] == CreditBorrower(s, amount);
        assert f[u] == DebitBorrower(s, amount);
      }
    } else if u == lender && u == borrower {
      assert c[u] == CreditBorrower(CreditLender(NoStats, amount), amount);
    } else if u == lender {
      assert c[u] == CreditLender(NoStats, amount);
    } else if u == borrower {
      assert c[u] == CreditBorrower(NoStats, amount);
    }
  }

  /**
   * A refund undoes the counters and totals of the confirmation it refunds,
   * for users who already had rows: the decrements never reach the clamp.
   */
  lemma {:induction false} RefundUndoesConfirm(users: map<string, UserStats>, lender: string, borrower: string, amount: real)
    requires AllStatsOk(users) && amount >= 0.0
    requires lender in users && borrower in users
    ensures RefundStats(ConfirmStats(users, lender, borrower, amount), lender, borrower, amount) == users
  {
    var c := ConfirmStats(users, lender, borrower, amount);
    var r := RefundStats(c, lender, borrower, amount);
    assert r.Keys == users.Keys;
    forall u | u in users ensures r[u] == users[u] {
      if u == lender || u == borrower {
        assert StatsOk(users[u]);
      }
    }
  }

  // ---------------------------------------------------------------------
  // Loan-row updates
  // ---------------------------------------------------------------------

  /** A payment on a loan row (:323-332): the repaid total grows, the status follows it. */
  function Settle(loan: Loan, paid: real): (r: Loan)
    ensures r.amountRepaid == loan.amountRepaid + paid
    ensures r.status == Repaid <==> r.amountRepaid >= loan.amount
    ensures r.status == Repaid || r.status == PartiallyRepaid
    ensures r.(status := loan.status, amountRepaid := loan.amountRepaid) == loan
    ensures LoanOk(loan) && paid >= 0.0 ==> LoanOk(r)
  {
    var repaid := loan.amountRepaid + paid;
    loan.(amountRepaid := repaid, status := if repaid >= loan.amount then Repaid else PartiallyRepaid)
  }

  /** The balance the payment reply reports (:375-379). */
  function Remaining(loan: Loan): (r: real)
    ensures r >= 0.0
    ensures r == 0.0 <==> loan.amountRepaid >= loan.amount
    ensures r > 0.0 ==> loan.amountRepaid + r == loan.amount
  {
    if loan.amount - loan.amountRepaid > 0.0 then loan.amount - loan.amountRepaid else 0.0
  }

  function Sum(ps: seq<real>): real {
    if ps == [] then 0.0 else ps[0] + Sum(ps[1..])
  }

  /** A sequence of payments on one loan, in order. */
  function SettleAll(loan: Loan, ps: seq<real>): Loan
    decreases |ps|
  {
    if ps == [] then loan else SettleAll(Settle(loan, ps[0]), ps[1..])
  }

  /**
   * Payments accumulate: after any non-empty run of payments the loan has
   * repaid its earlier total plus their sum, and it is `repaid` exactly when
   * that reaches the amount; nothing else in the row changes.
   */
  lemma {:induction false} PaymentsAccumulate(loan: Loan, ps: seq<real>)
    ensures SettleAll(loan, ps).amountRepaid == loan.amountRepaid + Sum(ps)
    ensures ps != [] ==> (SettleAll(loan, ps).status == Repaid <==> loan.amountRepaid + Sum(ps) >= loan.amount)
    ensures SettleAll(loan, ps).(status := loan.status, amountRepaid := loan.amountRepaid) == loan
    decreases |ps|
  {
    if ps != [] {
      PaymentsAccumulate(Settle(loan, ps[0]), ps[1..]);
    }
  }

  /** The refund lookup's filter (:427-429): parties, amount and currency, whatever the status. */
  predicate Matches(loan: Loan, lender: string, borrower: string, amount: real, currency: string)
    ensures Matches(loan, lender, borrower, amount, currency) <==>
              loan.(status := Confirmed, amountRepaid := 0.0) == Loan(lender, borrower, amount, currency, Confirmed, 0.0)
  {
    loan.lender == lender && loan.borrower == borrower && loan.amount == amount && loan.currency == currency
  }

  /** The most recently created matching loan with an id below `below` (:426-431). */
  function LatestMatch(loans: map<nat, Loan>, below: nat, lender: string, borrower: string, amount: real, currency: string)
    : (r: Option<nat>)
    ensures r.Some? ==> r.value < below && r.value in loans && Matches(loans[r.value], lender, borrower, amount, currency)
    ensures r.Some? ==> forall id: nat :: r.value < id < below && id in loans ==>
                          !Matches(loans[id], lender, borrower, amount, currency)
    ensures r.None? ==> forall id: nat :: id < below && id in loans ==>
                          !Matches(loans[id], lender, borrower, amount, currency)
    decreases below
  {
    if below == 0 then None
    else if below - 1 in loans && Matches(loans[below - 1], lender, borrower, amount, currency) then Some(below - 1)
    else LatestMatch(loans, below - 1, lender, borrower, amount, currency)
  }

  /**
   * Changing a loan's status does not change what the refund lookup finds:
   * a second refund of the same loan finds it again.
   */
  lemma {:induction false} LookupIgnoresStatus(
    loans: map<nat, Loan>, below: nat, id: nat, s: Status,
    lender: string, borrower: string, amount: real, currency: string)
    requires id in loans
    ensures LatestMatch(loans[id := loans[id].(status := s)], below, lender, borrower, amount, currency)
            == LatestMatch(loans, below, lender, borrower, amount, currency)
    decreases below
  {
    if below > 0 {
      LookupIgnoresStatus(loans, below - 1, id, s, lender, borrower, amount, currency);
    }
  }

  /** Marking a loan refunded and decrementing both rows keeps the tables consistent. */
  lemma RefundKeepsConsistent(loans: map<nat, Loan>, nextId: nat, users: map<string, UserStats>,
                              id: nat, lender: string, borrower: string, amount: real)
    requires Consistent(loans, nextId, users) && id in loans
    ensures Consistent(loans[id := loans[id].(status := Refunded)], nextId, RefundStats(users, lender, borrower, amount))
  {
  }

  /** Settling a loan and crediting its borrower keeps the tables consistent. */
  lemma PayKeepsConsistent(loans: map<nat, Loan>, nextId: nat, users: map<string, UserStats>, id: nat, paid: real)
    requires Consistent(loans, nextId, users) && id in loans && paid >= 0.0
    ensures var after := Settle(loans[id], paid);
      Consistent(loans[id := after], nextId,
                 PaidStats(users, loans[id].borrower, paid, loans[id].amount, after.status == Repaid))
  {
    assert LoanOk(loans[id]);
  }

  // ---------------------------------------------------------------------
  // Outcomes
  // ---------------------------------------------------------------------

  /** Why a handler answered with an error reply and left the ledger alone. */
  datatype Rejection =
    | LoanNotFound(loanId: nat)                          // :299-302
    | CurrencyMismatch(loanCurrency: string, given: string)  // :310-312
    | NotLender                                          // :414-416
    | NoMatchingLoan                                     // :433-437

  /** What handling one comment amounts to. */
  datatype Outcome =
    | Ignored                      // no handler, or the handler's pattern or gate did not match
    | SelfOffer                    // an offer to one's own post: logged, no reply (:133-135)
    | Crashed                      // the handler raised; the stream restarts (:761-765)
    | StoreFailed                  // a statement raised; rolled back, no reply
    | OfferAdvice(lender: string, borrower: string, amount: real, currency: string)
    | LoanConfirmed(loanId: nat, loan: Loan)
    | Repayment(before: Loan, after: Loan, paid: real, remaining: real)
    | LoanRefunded(loanId: nat, refunded: Loan)
    | StatsLookup(user: string)
    | Rejected(reason: Rejection)

  /**
   * What the paid transaction (:292-360) does to the tables, `loans1` and
   * `users1` being the tables after it. The loan is looked up by id and
   * lender only; its status is never checked.
   */
  predicate PayEffect(loans: map<nat, Loan>, users: map<string, UserStats>,
                      author: string, loanId: nat, paid: real, currency: string,
                      o: Outcome, loans1: map<nat, Loan>, users1: map<string, UserStats>)
  {
    if loanId > MaxSerial then
      // the id does not fit the integer column: the query raises
      o == StoreFailed && loans1 == loans && users1 == users
    else if loanId !in loans || loans[loanId].lender != author then
      o == Rejected(LoanNotFound(loanId)) && loans1 == loans && users1 == users
    else if loans[loanId].currency != currency then
      o == Rejected(CurrencyMismatch(loans[loanId].currency, currency)) && loans1 == loans && users1 == users
    else
      var before := loans[loanId];
      var after := Settle(before, paid);
      && loans1 == loans[loanId := after]
      && users1 == PaidStats(users, before.borrower, paid, before.amount, after.status == Repaid)
      && o == Repayment(before, after, paid, Remaining(after))
  }

  /**
   * What the refund transaction (:426-466) does to the tables once the
   * author is known to be the lender: the newest matching loan below
   * `nextId`, whatever its status, is marked `refunded` and both rows are
   * decremented.
   */
  predicate RefundEffect(loans: map<nat, Loan>, nextId: nat, users: map<string, UserStats>,
                         lender: string, borrower: string, amount: real, currency: string,
                         o: Outcome, loans1: map<nat, Loan>, users1: map<string, UserStats>)
  {
    match LatestMatch(loans, nextId, lender, borrower, amount, currency)
    case None =>
      o == Rejected(NoMatchingLoan) && loans1 == loans && users1 == users
    case Some(id) =>
      && loans1 == loans[id := loans[id].(status := Refunded)]
      && users1 == RefundStats(users, lender, borrower, amount)
      && o == LoanRefunded(id, loans1[id])
  }

  // ---------------------------------------------------------------------
  // The ledger
  // ---------------------------------------------------------------------

  class Ledger {
    var loans: map<nat, Loan>
    var nextId: nat
    var users: map<string, UserStats>

    ghost predicate Valid()
      reads this
    {
      Consistent(loans, nextId, users)
    }

    /** Empty tables; the serial starts at 1. */
    constructor()
      ensures Valid() && loans == map[] && nextId == 1 && users == map[]
    {
      loans := map[];
      nextId := 1;
      users := map[];
    }

    /** The confirm handler's transaction (:201-234): insert a `confirmed` loan, then both upserts. */
    method Confirm(lender: string, borrower: string, amount: real, currency: string) returns (id: nat)
      requires Valid() && amount >= 0.0
      modifies this
      ensures Valid()
      ensures id == old(nextId) && id !in old(loans) && nextId == old(nextId) + 1
      ensures loans == old(loans)[id := Loan(lender, borrower, amount, currency, Confirmed, 0.0)]
      ensures users == ConfirmStats(old(users), lender, borrower, amount)
    {
      id := nextId;
      loans := loans[id := Loan(lender, borrower, amount, currency, Confirmed, 0.0)];
      nextId := nextId + 1;
      users := users[lender := CreditLender(Row(users, lender), amount)];
      users := users[borrower := CreditBorrower(Row(users, borrower), amount)];
    }

    /** The paid handler's transaction (:292-360), as `PayEffect` describes it. */
    method Pay(author: string, loanId: nat, paid: real, currency: string) returns (o: Outcome)
      requires Valid() && paid >= 0.0
      modifies this
      ensures Valid()
      ensures nextId == old(nextId)
      ensures PayEffect(old(loans), old(users), author, loanId, paid, currency, o, loans, users)
    {
      if loanId > MaxSerial {
        // the id does not fit the integer column: the query raises
        return StoreFailed;
      }
      if loanId !in loans || loans[loanId].lender != author {
        return Rejected(LoanNotFound(loanId));
      }
      var before := loans[loanId];
      if before.currency != currency {
        return Rejected(CurrencyMismatch(before.currency, currency));
      }
      var after := Settle(before, paid);
      PayKeepsConsistent(loans, nextId, users, loanId, paid);
      loans := loans[loanId := after];
      if before.borrower in users {
        var row := users[before.borrower];
        row := row.(amountRepaid := row.amountRepaid + paid);
        if after.status == Repaid {
          row := row.(unpaidLoans := AtLeastZero(row.unpaidLoans - 1),
                      unpaidAmount := AtLeastZeroR(row.unpaidAmount - before.amount));
        }
        users := users[before.borrower := row];
      }
      o := Repayment(before, after, paid, Remaining(after));
    }

    /** The refund handler's transaction (:426-464), as `RefundEffect` describes it. */
    method Refund(lender: string, borrower: string, amount: real, currency: string) returns (o: Outcome)
      requires Valid()
      modifies this
      ensures Valid()
      ensures nextId == old(nextId)
      ensures RefundEffect(old(loans), old(nextId), old(users), lender, borrower, amount, currency, o, loans, users)
    {
      var m := LatestMatch(loans, nextId, lender, borrower, amount, currency);
      if m.None? {
        return Rejected(NoMatchingLoan);
      }
      var id := m.value;
      RefundKeepsConsistent(loans, nextId, users, id, lender, borrower, amount);
      loans := loans[id := loans[id].(status := Refunded)];
      if lender in users {
        users := users[lender := DebitLender(users[lender], amount)];
      }
      if borrower in users {
        users := users[borrower := DebitBorrower(users[borrower], amount)];
      }
      o := LoanRefunded(id, loans[id]);
    }

    /**
     * A recognised command that touches the ledger or looks up stats, run on
     * behalf of `author` (the comment author's lower-cased name): the
     * confirming borrower, the paying lender, or whoever claims a refund.
     */
    method Perform(cmd: Command, author: string) returns (o: Outcome)
      requires Valid()
      requires cmd.Confirm? || cmd.Paid? || cmd.Refund? || cmd.Stats?
      requires cmd.Confirm? || cmd.Paid? ==> cmd.amount >= 0.0
      modifies this
      ensures Valid()
      ensures cmd.Stats? ==> o == StatsLookup(cmd.user) && unchanged(this)
      ensures cmd.Confirm? ==>
                var loan := Loan(cmd.lender, author, cmd.amount, cmd.currency, Confirmed, 0.0);
                && o == LoanConfirmed(old(nextId), loan)
                && loans == old(loans)[old(nextId) := loan]
                && users == ConfirmStats(old(users), cmd.lender, author, cmd.amount)
                && nextId == old(nextId) + 1
      ensures cmd.Refund? && author != cmd.lender ==> o == Rejected(NotLender) && unchanged(this)
      ensures cmd.Paid? ==>
                PayEffect(old(loans), old(users), author, cmd.loanId, cmd.amount, cmd.currency, o, loans, users)
      ensures cmd.Refund? && author == cmd.lender ==>
                RefundEffect(old(loans), old(nextId), old(users), cmd.lender, cmd.borrower, cmd.amount, cmd.currency,
                             o, loans, users)
      ensures cmd.Paid? || cmd.Refund? ==>
                nextId == old(nextId) && loans.Keys == old(loans).Keys && users.Keys == old(users).Keys
    {
      match cmd
      case Stats(user) =>
        o := StatsLookup(user);
      case Confirm(lender, amount, currency) =>
        var id := Confirm(lender, author, amount, currency);
        o := LoanConfirmed(id, loans[id]);
      case Paid(loanId, amount, currency) =>
        o := Pay(author, loanId, amount, currency);
      case Refund(borrower, amount, currency, lender) =>
        if author != lender {
          o := Rejected(NotLender);
        } else {
          o := Refund(lender, borrower, amount, currency);
        }
    }

    /**
     * One comment from the stream (:744-758): recognise its command, then run
     * that handler's checks and transaction. Offers, stats requests and
     * unrecognised comments leave the ledger as it was.
     */
    method Handle(c: Comment, bot: string) returns (o: Outcome)
      requires Valid()
      modifies this
      ensures Valid()
      ensures var cmd := Recognize(c, bot); !(cmd.Confirm? || cmd.Paid? || cmd.Refund?) ==> unchanged(this)
      ensures Recognize(c, bot).NoMatch? ==> o == Ignored
      ensures Recognize(c, bot).Offer? ==> o == OfferOutcome(c, Recognize(c, bot))
      ensures Recognize(c, bot).Stats? ==> o == StatsLookup(Recognize(c, bot).user)
      ensures var cmd := Recognize(c, bot);
              cmd.Confirm? ==>
                var borrower := LowerStr(c.author.value);
                var loan := Loan(cmd.lender, borrower, cmd.amount, cmd.currency, Confirmed, 0.0);
                && o == LoanConfirmed(old(nextId), loan)
                && loans == old(loans)[old(nextId) := loan]
                && users == ConfirmStats(old(users), cmd.lender, borrower, cmd.amount)
                && nextId == old(nextId) + 1
      ensures var cmd := Recognize(c, bot);
              cmd.Refund? && LowerStr(c.author.value) != cmd.lender ==> o == Rejected(NotLender) && unchanged(this)
      ensures var cmd := Recognize(c, bot);
              cmd.Paid? ==>
                PayEffect(old(loans), old(users), LowerStr(c.author.value), cmd.loanId, cmd.amount, cmd.currency,
                          o, loans, users)
      ensures var cmd := Recognize(c, bot);
              cmd.Refund? && LowerStr(c.author.value) == cmd.lender ==>
                RefundEffect(old(loans), old(nextId), old(users), cmd.lender, cmd.borrower, cmd.amount, cmd.currency,
                             o, loans, users)
      ensures var cmd := Recognize(c, bot);
              cmd.Paid? || cmd.Refund? ==>
                nextId == old(nextId) && loans.Keys == old(loans).Keys && users.Keys == old(users).Keys
    {
      var cmd := Recognize(c, bot);
      if cmd.NoMatch? {
        o := Ignored;
      } else if cmd.Offer? {
        o := OfferOutcome(c, cmd);
      } else {
        o := Perform(cmd, LowerStr(c.author.value));
      }
    }
  }

  /**
   * The offer handler (:120-155): it records nothing. Without a post author
   * it raises; an offer on one's own post is dropped; otherwise it replies
   * with the confirmation the borrower should post.
   */
  function OfferOutcome(c: Comment, cmd: Command): (o: Outcome)
    requires cmd.Offer? && c.author.Some?
    ensures o.Crashed? <==> c.postAuthor.None?
    ensures o.SelfOffer? <==> c.postAuthor.Some? && LowerStr(c.postAuthor.value) == LowerStr(c.author.value)
    ensures o.OfferAdvice? ==> o.lender == LowerStr(c.author.value) && o.borrower == LowerStr(c.postAuthor.value)
    ensures o.OfferAdvice? ==> o.lender != o.borrower && AllLower(o.lender) && AllLower(o.borrower)
    ensures o.OfferAdvice? ==> o.amount == cmd.amount && o.currency == cmd.currency
    ensures o.Crashed? || o.SelfOffer? || o.OfferAdvice?
  {
    if c.postAuthor.None? then
      Crashed
    else
      var lender := LowerStr(c.author.value);
      var borrower := LowerStr(c.postAuthor.value);
      LowerStrIdempotent(c.author.value);
      LowerStrIdempotent(c.postAuthor.value);
      if borrower == lender then SelfOffer else OfferAdvice(lender, borrower, cmd.amount, cmd.currency)
  }
}
