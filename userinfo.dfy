/**
 * The answer to a `[REQ]` post (loan_central_bot.py:586-723): a read-only
 * projection of the two tables for one user. The reply's Markdown is not
 * modelled; the figures it is built from are.
 */
module UserInfo {
  import opened Wrappers
  import opened Text
  import opened Loans

  datatype Role = AsLender | AsBorrower

  function Party(l: Loan, role: Role): string {
    match role
    case AsLender => l.lender
    case AsBorrower => l.borrower
  }

  /** Loan `id` is open and `u` takes `role` in it. */
  predicate OpenFor(loans: map<nat, Loan>, id: nat, u: string, role: Role) {
    id in loans && Party(loans[id], role) == u && Open(loans[id].status)
  }

  /**
   * The ids of the open loans below `below` in which `u` takes `role`,
   * newest first (`ORDER BY date_created DESC`, :627 and :647).
   */
  function OpenIds(loans: map<nat, Loan>, below: nat, u: string, role: Role): (r: seq<nat>)
    ensures forall i :: 0 <= i < |r| ==> r[i] < below && OpenFor(loans, r[i], u, role)
    ensures forall id: nat :: id < below && OpenFor(loans, id, u, role) ==> id in r
    ensures forall i, j :: 0 <= i < j < |r| ==> r[i] > r[j]
    decreases below
  {
    if below == 0 then
      []
    else
      var rest := OpenIds(loans, below - 1, u, role);
      if OpenFor(loans, below - 1, u, role) then [below - 1] + rest else rest
  }

  /** `SUM(amount - amount_repaid)` over the given loans (:634, :665). */
  function Outstanding(loans: map<nat, Loan>, ids: seq<nat>): (r: real)
    requires forall i :: 0 <= i < |ids| ==> ids[i] in loans
    ensures (forall i :: 0 <= i < |ids| ==> loans[ids[i]].amountRepaid <= loans[ids[i]].amount) ==> r >= 0.0
  {
    if ids == [] then 0.0
    else loans[ids[0]].amount - loans[ids[0]].amountRepaid + Outstanding(loans, ids[1..])
  }

  /** How many rows the lender table shows (`LIMIT 5`, :628 and :648). */
  const TableRows := 5

  datatype Info =
    | NoHistory                 // no `users` row (:609-610)
    | Summary(
        stats: UserStats,       // the `users` row (:595-607)
        unpaidAsBorrower: nat,  // open loans as borrower (:615-620)
        table: seq<nat>,        // the newest open loans as lender (:623-630)
        tableTotal: real,       // what the table's loans still owe (:665)
        inProgressCount: nat,   // all open loans as lender (:633-641)
        inProgressTotal: real,  // what they still owe
        omitted: nat)           // open loans as lender not in the table (:666)

  /** The figures `generate_user_info` reads for `username`; lookups use its lower-case form. */
  function Lookup(loans: map<nat, Loan>, nextId: nat, users: map<string, UserStats>, username: string): (r: Info)
    ensures r.NoHistory? <==> LowerStr(username) !in users
    ensures r.Summary? ==>
              var name := LowerStr(username);
              var open := OpenIds(loans, nextId, name, AsLender);
              && r.stats == users[name]
              && r.unpaidAsBorrower == |OpenIds(loans, nextId, name, AsBorrower)|
              && r.inProgressCount == |open|
              && |r.table| <= |open| && r.table == open[..|r.table|]
              && r.inProgressTotal == Outstanding(loans, open)
              && r.tableTotal == Outstanding(loans, r.table)
    ensures r.Summary? ==> |r.table| <= TableRows && |r.table| + r.omitted == r.inProgressCount
    ensures r.Summary? && r.omitted > 0 ==> |r.table| == TableRows
  {
    var name := LowerStr(username);
    if name !in users then
      NoHistory
    else
      var open := OpenIds(loans, nextId, name, AsLender);
      var table := if |open| > TableRows then open[..TableRows] else open;
      var omitted := if |open| > |table| then |open| - |table| else 0;
      Summary(users[name], |OpenIds(loans, nextId, name, AsBorrower)|, table,
              Outstanding(loans, table), |open|, Outstanding(loans, open), omitted)
  }

  /**
   * The table holds the newest open loans: every open loan the user lent
   * that the table leaves out is older than every loan it shows.
   */
  lemma {:induction false} TableIsNewest(
    loans: map<nat, Loan>, nextId: nat, users: map<string, UserStats>, username: string, id: nat)
    requires Lookup(loans, nextId, users, username).Summary?
    requires id < nextId && OpenFor(loans, id, LowerStr(username), AsLender)
    requires id !in Lookup(loans, nextId, users, username).table
    ensures forall k :: 0 <= k < |Lookup(loans, nextId, users, username).table| ==>
              Lookup(loans, nextId, users, username).table[k] > id
  {
    var r := Lookup(loans, nextId, users, username);
    var open := OpenIds(loans, nextId, LowerStr(username), AsLender);
    var j :| 0 <= j < |open| && open[j] == id;
    assert j >= |r.table| by {
      assert forall k :: 0 <= k < |r.table| ==> r.table[k] == open[k];
    }
    forall k | 0 <= k < |r.table| ensures r.table[k] > id {
      assert r.table[k] == open[k];
    }
  }

  /** Each open loan of a consistent ledger still owes a non-negative amount. */
  lemma {:induction false} OutstandingNonNegative(loans: map<nat, Loan>, ids: seq<nat>)
    requires forall i :: 0 <= i < |ids| ==> ids[i] in loans && LoanOk(loans[ids[i]]) && Open(loans[ids[i]].status)
    ensures Outstanding(loans, ids) >= 0.0
    ensures forall n :: 0 <= n <= |ids| ==> Outstanding(loans, ids[..n]) <= Outstanding(loans, ids)
    decreases |ids|
  {
    if ids != [] {
      OutstandingNonNegative(loans, ids[1..]);
      forall n | 0 <= n <= |ids| ensures Outstanding(loans, ids[..n]) <= Outstanding(loans, ids) {
        if n > 0 {
          assert ids[..n][1..] == ids[1..][..n - 1];
        }
      }
    }
  }

  /**
   * On a consistent ledger the totals the answer reports are never negative,
   * and the table's total never exceeds the in-progress total.
   */
  lemma TotalsOrdered(loans: map<nat, Loan>, nextId: nat, users: map<string, UserStats>, username: string)
    requires Consistent(loans, nextId, users)
    requires Lookup(loans, nextId, users, username).Summary?
    ensures 0.0 <= Lookup(loans, nextId, users, username).tableTotal
    ensures Lookup(loans, nextId, users, username).tableTotal <= Lookup(loans, nextId, users, username).inProgressTotal
  {
    var r := Lookup(loans, nextId, users, username);
    var open := OpenIds(loans, nextId, LowerStr(username), AsLender);
    OutstandingNonNegative(loans, open);
    OutstandingNonNegative(loans, r.table);
  }

  /**
   * The post monitor (:776-777, :712-723): a post whose title contains
   * `[req]` in any case, and that has an author, gets the author's figures.
   */
  function PostAnswer(title: string, author: Option<string>,
                      loans: map<nat, Loan>, nextId: nat, users: map<string, UserStats>): (r: Option<Info>)
    ensures r.Some? <==> author.Some? && Mentions(title, "[req]")
    ensures r.Some? ==> r.value == Lookup(loans, nextId, users, author.value)
  {
    if HasSubstring(LowerStr(title), "[req]") && author.Some? then
      Some(Lookup(loans, nextId, users, author.value))
    else
      None
  }
}
