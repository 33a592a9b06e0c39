/** How a pass over the rows of a query gets along with a database that answers some calls and not
    others: which of its rows are handled, and how many are missed. */
module Passes {
  /** The sweep of active rentals past their end, and that of unpaid reservations past theirs. */
  datatype Sweep = Overdue | Unpaid

  /** Whether the call for a row fails if its first database call has number `c`: a rental takes a
      transaction of three calls, a reservation a single statement. */
  predicate CallFails(sweep: Sweep, failing: set<nat>, c: nat) {
    match sweep
    case Overdue => c in failing || c + 1 in failing || c + 2 in failing
    case Unpaid => c in failing
  }

  /** The number of database calls it makes. */
  function CallCost(sweep: Sweep, failing: set<nat>, c: nat): nat {
    match sweep
    case Overdue => if c in failing then 1 else if c + 1 in failing then 2 else 3
    case Unpaid => 1
  }

  /** The number of the first database call for row `i` of a pass. */
  function Start(sweep: Sweep, failing: set<nat>, from: nat, i: nat): (c: nat)
    ensures from <= c
  {
    if i == 0 then from
    else
      var c := Start(sweep, failing, from, i - 1);
      c + CallCost(sweep, failing, c)
  }

  /** The database answers every call made for row `i` of a pass. */
  predicate Answered(sweep: Sweep, failing: set<nat>, from: nat, i: nat) {
    !CallFails(sweep, failing, Start(sweep, failing, from, i))
  }

  ghost predicate Distinct(q: seq<int>) {
    forall i, j :: 0 <= i < j < |q| ==> q[i] != q[j]
  }

  /** The rows among the first `n` whose calls were answered. */
  function Handled(sweep: Sweep, q: seq<int>, failing: set<nat>, from: nat, n: nat): set<int>
    requires n <= |q|
  {
    if n == 0 then {}
    else Handled(sweep, q, failing, from, n - 1) + if Answered(sweep, failing, from, n - 1) then {q[n - 1]} else {}
  }

  /** The rows among the first `n` that met a failing call. */
  function Missed(sweep: Sweep, q: seq<int>, failing: set<nat>, from: nat, n: nat): set<int>
    requires n <= |q|
  {
    if n == 0 then {}
    else Missed(sweep, q, failing, from, n - 1) + if Answered(sweep, failing, from, n - 1) then {} else {q[n - 1]}
  }

  /** Every row is either handled or missed, and a row is neither before its turn. */
  lemma {:induction false} HandledOrMissed(sweep: Sweep, q: seq<int>, failing: set<nat>, from: nat, n: nat)
    requires n <= |q| && Distinct(q)
    ensures forall i :: 0 <= i < n ==> (q[i] in Handled(sweep, q, failing, from, n) <==> Answered(sweep, failing, from, i))
    ensures forall i :: 0 <= i < n ==> (q[i] in Missed(sweep, q, failing, from, n) <==> !Answered(sweep, failing, from, i))
    ensures forall i :: n <= i < |q| ==> q[i] !in Handled(sweep, q, failing, from, n) && q[i] !in Missed(sweep, q, failing, from, n)
    ensures forall x :: x in Handled(sweep, q, failing, from, n) || x in Missed(sweep, q, failing, from, n) ==> x in q
  {
    if n > 0 {
      HandledOrMissed(sweep, q, failing, from, n - 1);
      assert forall i :: 0 <= i < |q| && i != n - 1 ==> q[i] != q[n - 1];
    }
  }

  /** The next row is not among those handled so far, and joins them if its calls are answered. */
  lemma NextIsNew(sweep: Sweep, q: seq<int>, failing: set<nat>, from: nat, n: nat, before: set<int>, after: set<int>)
    requires n < |q| && Distinct(q)
    requires before == Handled(sweep, q, failing, from, n) && after == Handled(sweep, q, failing, from, n + 1)
    ensures q[n] !in before && after == if Answered(sweep, failing, from, n) then before + {q[n]} else before
  {
    HandledOrMissed(sweep, q, failing, from, n);
  }

  lemma MissedNext(sweep: Sweep, q: seq<int>, failing: set<nat>, from: nat, n: nat)
    requires 0 < n <= |q| && Distinct(q)
    ensures |Missed(sweep, q, failing, from, n)|
            == |Missed(sweep, q, failing, from, n - 1)| + if Answered(sweep, failing, from, n - 1) then 0 else 1
  {
    HandledOrMissed(sweep, q, failing, from, n - 1);
    var before := Missed(sweep, q, failing, from, n - 1);
    assert before + {} == before;
    assert q[n - 1] !in before;
  }

  /** The failing calls among those numbered from `from` up to `to`. */
  function FailedCalls(failing: set<nat>, from: nat, to: nat): set<nat> {
    set c | c in failing && from <= c < to
  }

  /** The call for a row ends with the first of its database calls that fails. */
  lemma CallStopsAtFailure(sweep: Sweep, failing: set<nat>, from: nat, c: nat)
    requires from <= c
    ensures |FailedCalls(failing, from, c + CallCost(sweep, failing, c))|
            == |FailedCalls(failing, from, c)| + if CallFails(sweep, failing, c) then 1 else 0
  {
    var d := c + CallCost(sweep, failing, c);
    if CallFails(sweep, failing, c) {
      assert FailedCalls(failing, from, d) == FailedCalls(failing, from, c) + {d - 1};
    } else {
      assert FailedCalls(failing, from, d) == FailedCalls(failing, from, c);
    }
  }

  /** Each failing call costs one row: a pass misses exactly as many rows as calls failed while it was
      at work. */
  lemma {:induction false} MissedAreFailures(sweep: Sweep, q: seq<int>, failing: set<nat>, from: nat, n: nat)
    requires n <= |q| && Distinct(q)
    ensures |Missed(sweep, q, failing, from, n)| == |FailedCalls(failing, from, Start(sweep, failing, from, n))|
  {
    if n == 0 {
      assert FailedCalls(failing, from, from) == {};
    } else {
      MissedAreFailures(sweep, q, failing, from, n - 1);
      MissedNext(sweep, q, failing, from, n);
      CallStopsAtFailure(sweep, failing, from, Start(sweep, failing, from, n - 1));
    }
  }
}
