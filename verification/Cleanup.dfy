/** The two schedulers that sweep up rentals whose time is over. */
module Cleanup {
  import opened Common
  import opened LedgerKeys
  import opened Tables
  import opened Ordering
  import opened Operations
  import opened Invariant
  import opened Steps
  import opened Runs
  import opened Passes
  import opened Repository

  /** The status a sweep takes rentals out of. */
  function Target(sweep: Sweep): RentalStatus {
    match sweep
    case Overdue => Active
    case Unpaid => WaitingPayment
  }

  /** The rows of the snapshot a pass starts with. */
  function Due(sweep: Sweep, t: Tables, now: int): set<int> {
    match sweep
    case Overdue => OverdueRentals(t, now)
    case Unpaid => ExpiredReservations(t, now)
  }

  function DueRank(sweep: Sweep, t: Tables): map<int, int> {
    match sweep
    case Overdue => EndRank(t)
    case Unpaid => ExpiryRank(t)
  }

  function AccountOf(t: Tables, x: int): int {
    if x in t.rentals then t.rentals[x].accountId else 0
  }

  /** The call a pass makes for row `x` of the snapshot it took of `t`. */
  function CallFor(sweep: Sweep, t: Tables, x: int, now: int): Op {
    match sweep
    case Overdue => Expire(x, AccountOf(t, x), now)
    case Unpaid => ExpireUnpaid(x, now)
  }

  function SweepOne(sweep: Sweep, t: Tables, x: int, aid: int, now: int): Outcome<bool> {
    match sweep
    case Overdue => ExpireRental(t, x, aid, now)
    case Unpaid => ExpireReservation(t, x, now)
  }

  // --- Among other operations -----------------------------------------------------------------------

  /** A snapshot holds exactly the rows whose call would change something at this time. */
  lemma DueExactly(sweep: Sweep, t: Tables, x: int, now: int)
    requires Valid(t)
    ensures x in Due(sweep, t, now) <==> SweepOne(sweep, t, x, AccountOf(t, x), now).result == Ok(true)
    ensures x in Due(sweep, t, now) <==>
              && x in t.rentals && t.rentals[x].status == Target(sweep)
              && TimeOf(sweep, t.rentals[x]) <= now
  {
    if x in t.rentals {
      RentalIsJoined(t, x);
      if RentalOverdue(t, x, AccountOf(t, x), now) {
        OverdueExpires(t, x, AccountOf(t, x), now);
      }
    }
  }

  /** When a rental's time is over: its own, or that of its reservation. */
  function TimeOf(sweep: Sweep, r: Rental): int {
    match sweep
    case Overdue => r.endAt
    case Unpaid => r.paymentExpiresAt
  }

  /** A row of the snapshot that is still in the status the sweep looks for is still due. */
  lemma StillDue(sweep: Sweep, t: Tables, t': Tables, x: int, now: int)
    requires Valid(t') && Evolves(t, t') && Valid(t)
    requires x in Due(sweep, t, now) && x in t'.rentals && t'.rentals[x].status == Target(sweep)
    ensures match sweep
            case Overdue => RentalOverdue(t', x, t.rentals[x].accountId, now)
            case Unpaid => ReservationExpired(t', x, now)
  {
    RentalIsJoined(t, x);
    RentalIsJoined(t', x);
    assert DossierEvolves(View(t, x), View(t', x));
  }

  /** A call for a row of the snapshot never fails, and afterwards the row has left its status and,
      if it was this call that took it out, its account is available. */
  lemma CallSettles(sweep: Sweep, t: Tables, t': Tables, x: int, now: int)
    requires Valid(t) && Valid(t') && Evolves(t, t') && x in Due(sweep, t, now)
    ensures var o := SweepOne(sweep, t', x, t.rentals[x].accountId, now);
            && o.result.Ok?
            && x in t'.rentals && x in o.tables.rentals
            && o.tables.rentals[x].status == (if t'.rentals[x].status == Target(sweep) then Expired else t'.rentals[x].status)
            && (o.result.value ==> t.rentals[x].accountId in o.tables.accounts
                                   && o.tables.accounts[t.rentals[x].accountId].status == Available)
            && (!o.result.value ==> o.tables == t')
  {
    RentalIsJoined(t, x);
    assert DossierEvolves(View(t, x), View(t', x));
    if t'.rentals[x].status == Target(sweep) {
      StillDue(sweep, t, t', x, now);
      if sweep == Overdue {
        OverdueExpires(t', x, t.rentals[x].accountId, now);
      }
    }
  }

  lemma LeftForGood(sweep: Sweep, before: RentalStatus, after: RentalStatus, end: RentalStatus)
    requires after == (if before == Target(sweep) then Expired else before)
    requires Reaches(Target(sweep), before) && Reaches(after, end)
    ensures end != Target(sweep)
  {
  }

  lemma RunReaches(t: Tables, ops: seq<Op>, x: int, t': Tables)
    requires Valid(t) && x in t.rentals && t' == Run(t, ops)
    ensures Valid(t') && Evolves(t, t')
    ensures x in t'.rentals && Reaches(t.rentals[x].status, t'.rentals[x].status)
  {
    RunIsGood(t, ops);
    assert DossierEvolves(View(t, x), View(t', x));
  }

  lemma CallApplies(sweep: Sweep, t: Tables, t1: Tables, x: int, now: int)
    ensures Apply(t1, CallFor(sweep, t, x, now)) == SweepOne(sweep, t1, x, AccountOf(t, x), now).tables
  {
  }

  /** Whatever other operations run before, between and after the calls of a pass, no rental of its
      snapshot is in the status the pass sweeps up once its call has been made. */
  lemma SweepSettles(sweep: Sweep, t: Tables, x: int, now: int, ops: seq<Op>, i: nat)
    requires Valid(t) && x in Due(sweep, t, now)
    requires i < |ops| && ops[i] == CallFor(sweep, t, x, now)
    ensures x in Run(t, ops).rentals && Run(t, ops).rentals[x].status != Target(sweep)
  {
    var before := Run(t, ops[..i]);
    RunReaches(t, ops[..i], x, before);
    CallSettles(sweep, t, before, x, now);
    CallApplies(sweep, t, before, x, now);
    StepIsGood(before, ops[i]);
    var after := SweepOne(sweep, before, x, t.rentals[x].accountId, now).tables;
    RunSplit(t, ops, i);
    RunReaches(after, ops[i + 1..], x, Run(t, ops));
    LeftForGood(sweep, before.rentals[x].status, after.rentals[x].status, Run(t, ops).rentals[x].status);
  }

  // --- What a pass changes ----------------------------------------------------------------------------

  /** What a pass does to a row of its snapshot. */
  ghost predicate Settled(sweep: Sweep, t: Tables, t': Tables, x: int) {
    && x in t.rentals && x in t'.rentals
    && match sweep
       case Overdue =>
         var r := t.rentals[x];
         t'.rentals[x] == r.(status := Expired, finishedAt := Some(r.endAt),
                             reviewDeadline := if r.deposit > 0 then Some(r.endAt + REVIEW_WINDOW) else None)
       case Unpaid =>
         && t'.rentals[x] == t.rentals[x].(status := Expired)
         && x in t.payments && x in t'.payments && t'.payments[x] == t.payments[x].(status := Failed)
  }

  ghost predicate Untouched(t: Tables, t': Tables, x: int) {
    && x in t.rentals && x in t'.rentals && t'.rentals[x] == t.rentals[x]
    && x in t.payments && x in t'.payments && t'.payments[x] == t.payments[x]
  }

  /** The rows of `done` are settled and their accounts available; all other rentals, payments and
      accounts are untouched, and so are all balances, deposits, refunds and the ledger. */
  ghost predicate Swept(sweep: Sweep, t: Tables, t': Tables, done: set<int>) {
    && t'.rentals.Keys == t.rentals.Keys && t'.accounts.Keys == t.accounts.Keys
    && (forall x :: x in t.rentals ==> if x in done then Settled(sweep, t, t', x) else Untouched(t, t', x))
    && (forall x :: x in t.rentals && x in done ==> t.rentals[x].accountId in Freed(t, done))
    && (forall a :: a in t.accounts ==>
          t'.accounts[a] == if a in Freed(t, done) then t.accounts[a].(status := Available) else t.accounts[a])
    && t'.users == t.users && t'.holds == t.holds && t'.refunds == t.refunds && t'.ledger == t.ledger
  }

  /** The accounts of some rentals. */
  function Freed(t: Tables, done: set<int>): set<int> {
    set x | x in done && x in t.rentals :: t.rentals[x].accountId
  }

  /** The effect of one call on a row that is still as the snapshot found it. */
  ghost predicate Moves(sweep: Sweep, t: Tables, t1: Tables, t2: Tables, x: int) {
    && Settled(sweep, t, t2, x)
    && t2.rentals == t1.rentals[x := t2.rentals[x]]
    && (match sweep
        case Overdue => t2.payments == t1.payments
        case Unpaid => x in t2.payments && t2.payments == t1.payments[x := t2.payments[x]])
    && t.rentals[x].accountId in t1.accounts && t2.accounts == WithStatus(t1.accounts, t.rentals[x].accountId, Available)
    && t2.users == t1.users && t2.holds == t1.holds && t2.refunds == t1.refunds && t2.ledger == t1.ledger
  }

  lemma CallMoves(sweep: Sweep, t: Tables, t1: Tables, x: int, now: int)
    requires Valid(t1) && x in Due(sweep, t, now) && Untouched(t, t1, x)
    ensures var o := SweepOne(sweep, t1, x, t.rentals[x].accountId, now);
            o.result == Ok(true) && Moves(sweep, t, t1, o.tables, x)
  {
    RentalIsJoined(t1, x);
    if sweep == Overdue {
      OverdueExpires(t1, x, t.rentals[x].accountId, now);
    }
  }

  lemma SweepStep(sweep: Sweep, t: Tables, t1: Tables, t2: Tables, done: set<int>, x: int)
    requires Swept(sweep, t, t1, done) && x !in done
    requires x in t.rentals && t.rentals[x].accountId in t.accounts
    requires Untouched(t, t1, x) && Moves(sweep, t, t1, t2, x)
    ensures Swept(sweep, t, t2, done + {x})
  {
    var aid := t.rentals[x].accountId;
    assert Freed(t, done + {x}) == Freed(t, done) + {aid};
    forall y | y in t.rentals
      ensures if y in done + {x} then Settled(sweep, t, t2, y) else Untouched(t, t2, y)
    {
      assert y != x ==> t2.rentals[y] == t1.rentals[y];
    }
  }

  // --- A pass of its own ------------------------------------------------------------------------------

  /** The rows of a pass: those of its snapshot, each once. */
  ghost predicate IsQueue(sweep: Sweep, t: Tables, now: int, q: seq<int>) {
    && (forall x :: x in q <==> x in Due(sweep, t, now))
    && Distinct(q)
  }

  ghost function Queue(sweep: Sweep, t: Tables, now: int): seq<int> {
    Sorted(Due(sweep, t, now), DueRank(sweep, t))
  }

  lemma QueueIsQueue(sweep: Sweep, t: Tables, now: int)
    ensures IsQueue(sweep, t, now, Queue(sweep, t, now))
  {
    var s, rank := Due(sweep, t, now), DueRank(sweep, t);
    forall x
      ensures x in Sorted(s, rank) <==> x in s
    {
      SortedElements(s, rank, x);
    }
    forall i, j | 0 <= i < j < |Sorted(s, rank)|
      ensures Sorted(s, rank)[i] != Sorted(s, rank)[j]
    {
      SortedInOrder(s, rank, i, j);
    }
  }

  /** The rows come in the order of their times, and by id among equals. */
  lemma QueueByTime(sweep: Sweep, t: Tables, now: int, q: seq<int>, i: nat, j: nat)
    requires q == Queue(sweep, t, now) && i < j < |q|
    ensures q[i] in t.rentals && q[j] in t.rentals
    ensures var s, s' := TimeOf(sweep, t.rentals[q[i]]), TimeOf(sweep, t.rentals[q[j]]);
            s < s' || (s == s' && q[i] < q[j])
  {
    SortedInOrder(Due(sweep, t, now), DueRank(sweep, t), i, j);
    SortedElements(Due(sweep, t, now), DueRank(sweep, t), q[i]);
    SortedElements(Due(sweep, t, now), DueRank(sweep, t), q[j]);
  }

  /** The tables after the first `n` rows of a pass. */
  ghost function After(sweep: Sweep, t: Tables, q: seq<int>, now: int, failing: set<nat>, from: nat, n: nat): Tables
    requires n <= |q|
  {
    if n == 0 then t
    else
      var t1 := After(sweep, t, q, now, failing, from, n - 1);
      if Answered(sweep, failing, from, n - 1) then SweepOne(sweep, t1, q[n - 1], AccountOf(t, q[n - 1]), now).tables else t1
  }

  lemma NothingSwept(sweep: Sweep, t: Tables)
    requires Valid(t)
    ensures Swept(sweep, t, t, {})
  {
  }

  lemma CallIsGood(sweep: Sweep, t: Tables, x: int, aid: int, now: int)
    requires Valid(t)
    ensures Valid(SweepOne(sweep, t, x, aid, now).tables)
  {
    match sweep
    case Overdue => ExpireRentalIsGood(t, x, aid, now);
    case Unpaid => ExpireReservationIsGood(t, x, now);
  }

  /** Where a pass stands: the tables are valid, and the rows of `done` are swept. */
  ghost predicate InPass(sweep: Sweep, t: Tables, t1: Tables, done: set<int>) {
    Valid(t1) && Swept(sweep, t, t1, done)
  }

  /** The call for the next row answers, and sweeps it. */
  lemma NextIsSwept(sweep: Sweep, t: Tables, t1: Tables, t2: Tables, now: int, done: set<int>, x: int)
    requires Valid(t) && InPass(sweep, t, t1, done) && x in Due(sweep, t, now) && x !in done
    requires t2 == SweepOne(sweep, t1, x, AccountOf(t, x), now).tables
    ensures InPass(sweep, t, t2, done + {x})
    ensures SweepOne(sweep, t1, x, AccountOf(t, x), now).result == Ok(true)
  {
    RentalIsJoined(t, x);
    CallMoves(sweep, t, t1, x, now);
    CallIsGood(sweep, t1, x, AccountOf(t, x), now);
    SweepStep(sweep, t, t1, t2, done, x);
  }

  lemma RowIsDue(sweep: Sweep, t: Tables, q: seq<int>, now: int, i: nat)
    requires IsQueue(sweep, t, now, q) && i < |q|
    ensures q[i] in Due(sweep, t, now)
  {
    assert q[i] in q;
  }

  /** A pass settles the rows whose calls were answered and leaves all others as they were: a failing
      call costs its own row and no other. */
  lemma {:induction false} PassSweeps(sweep: Sweep, t: Tables, q: seq<int>, now: int, failing: set<nat>, from: nat, n: nat,
                                      t1: Tables, done: set<int>)
    requires Valid(t) && IsQueue(sweep, t, now, q) && n <= |q|
    requires t1 == After(sweep, t, q, now, failing, from, n) && done == Handled(sweep, q, failing, from, n)
    ensures InPass(sweep, t, t1, done)
  {
    if n == 0 {
      NothingSwept(sweep, t);
    } else {
      var t0, done0 := After(sweep, t, q, now, failing, from, n - 1), Handled(sweep, q, failing, from, n - 1);
      PassSweeps(sweep, t, q, now, failing, from, n - 1, t0, done0);
      NextIsNew(sweep, q, failing, from, n - 1, done0, done);
      if Answered(sweep, failing, from, n - 1) {
        RowIsDue(sweep, t, q, now, n - 1);
        NextIsSwept(sweep, t, t0, t1, now, done0, q[n - 1]);
      }
    }
  }

  /** The database answers for a row unless a call fails. */
  lemma CallAnswers(sweep: Sweep, t: Tables, q: seq<int>, now: int, failing: set<nat>, from: nat, i: nat, t1: Tables)
    requires Valid(t) && IsQueue(sweep, t, now, q) && i < |q|
    requires t1 == After(sweep, t, q, now, failing, from, i)
    ensures SweepOne(sweep, t1, q[i], AccountOf(t, q[i]), now).result == Ok(true)
  {
    var done := Handled(sweep, q, failing, from, i);
    PassSweeps(sweep, t, q, now, failing, from, i, t1, done);
    HandledOrMissed(sweep, q, failing, from, i);
    NextIsSwept(sweep, t, t1, SweepOne(sweep, t1, q[i], AccountOf(t, q[i]), now).tables, now, done, q[i]);
  }

  /** What a pass over the rows `q` achieves whose first call for a row has number `from`. */
  ghost predicate Passed(sweep: Sweep, t: Tables, t': Tables, q: seq<int>, now: int, failing: set<nat>, from: nat, to: nat) {
    && IsQueue(sweep, t, now, q)
    && t' == After(sweep, t, q, now, failing, from, |q|)
    && Swept(sweep, t, t', Handled(sweep, q, failing, from, |q|))
    && to == Start(sweep, failing, from, |q|)
  }

  /** A row that was not swept is not settled. */
  lemma SettledIsSwept(sweep: Sweep, t: Tables, t': Tables, now: int, done: set<int>, x: int)
    requires Swept(sweep, t, t', done) && x in Due(sweep, t, now)
    ensures Settled(sweep, t, t', x) <==> x in done
  {
  }

  /** The rows of the snapshot a pass leaves as they were. */
  ghost function Unsettled(sweep: Sweep, t: Tables, t': Tables, now: int): set<int> {
    set x | x in Due(sweep, t, now) && !Settled(sweep, t, t', x)
  }

  lemma UnsettledIsMissed(sweep: Sweep, t: Tables, t': Tables, q: seq<int>, now: int, failing: set<nat>, from: nat)
    requires IsQueue(sweep, t, now, q) && Swept(sweep, t, t', Handled(sweep, q, failing, from, |q|))
    ensures Unsettled(sweep, t, t', now) == Missed(sweep, q, failing, from, |q|)
  {
    HandledOrMissed(sweep, q, failing, from, |q|);
    forall x
      ensures x in Missed(sweep, q, failing, from, |q|) <==> x in Unsettled(sweep, t, t', now)
    {
      if x in q {
        SettledIsSwept(sweep, t, t', now, Handled(sweep, q, failing, from, |q|), x);
        var i :| 0 <= i < |q| && q[i] == x;
      }
    }
  }

  /** How many rows a pass leaves unsettled: exactly as many as calls failed while it was at work, so
      none when none failed. */
  lemma EachFailureCostsOneRow(sweep: Sweep, t: Tables, t': Tables, q: seq<int>, now: int, failing: set<nat>, from: nat, to: nat)
    requires Passed(sweep, t, t', q, now, failing, from, to)
    ensures |Unsettled(sweep, t, t', now)| == |FailedCalls(failing, from, to)|
  {
    MissedAreFailures(sweep, q, failing, from, |q|);
    UnsettledIsMissed(sweep, t, t', q, now, failing, from);
  }

  /** The calls of a pass that were answered. */
  ghost function Calls(sweep: Sweep, t: Tables, q: seq<int>, now: int, failing: set<nat>, from: nat, n: nat): seq<Op>
    requires n <= |q|
  {
    if n == 0 then []
    else Calls(sweep, t, q, now, failing, from, n - 1)
         + if Answered(sweep, failing, from, n - 1) then [CallFor(sweep, t, q[n - 1], now)] else []
  }

  /** A pass is a run of its answered calls. */
  lemma {:induction false} PassIsRun(sweep: Sweep, t: Tables, q: seq<int>, now: int, failing: set<nat>, from: nat, n: nat)
    requires n <= |q|
    ensures After(sweep, t, q, now, failing, from, n) == Run(t, Calls(sweep, t, q, now, failing, from, n))
  {
    if n > 0 {
      PassIsRun(sweep, t, q, now, failing, from, n - 1);
      var calls := Calls(sweep, t, q, now, failing, from, n - 1);
      RunNext(t, calls, CallFor(sweep, t, q[n - 1], now));
      CallApplies(sweep, t, Run(t, calls), q[n - 1], now);
      assert calls + [] == calls;
    }
  }

  // --- The workers ------------------------------------------------------------------------------------

  class CleanupWorker {
    const repo: Database

    constructor (repo: Database)
      ensures this.repo == repo
    {
      this.repo := repo;
    }

    method CallOne(sweep: Sweep, x: int, aid: int, now: int) returns (r: Result<bool>)
      requires !repo.inTransaction
      requires SweepOne(sweep, repo.tables, x, aid, now).result.Ok?
      modifies repo
      ensures !repo.inTransaction
      ensures repo.calls == old(repo.calls) + CallCost(sweep, repo.failing, old(repo.calls))
      ensures var o := SweepOne(sweep, old(repo.tables), x, aid, now);
              if CallFails(sweep, repo.failing, old(repo.calls)) then r.Err? && repo.tables == old(repo.tables)
              else r == o.result && repo.tables == o.tables
    {
      match sweep
      case Overdue => r := repo.ExpireRental(x, aid, now);
      case Unpaid => r := repo.ExpireWaitingPaymentReservation(x, now);
    }

    /** The call for row `i` of a snapshot of `t`. */
    method SweepRow(sweep: Sweep, row: DueRental, now: int, ghost t: Tables, ghost q: seq<int>, ghost from: nat, ghost i: nat)
      requires !repo.inTransaction && Valid(t) && IsQueue(sweep, t, now, q) && i < |q|
      requires repo.tables == After(sweep, t, q, now, repo.failing, from, i) && repo.calls == Start(sweep, repo.failing, from, i)
      requires row == DueRental(q[i], AccountOf(t, q[i]))
      modifies repo
      ensures !repo.inTransaction
      ensures repo.tables == After(sweep, t, q, now, repo.failing, from, i + 1) && repo.calls == Start(sweep, repo.failing, from, i + 1)
    {
      CallAnswers(sweep, t, q, now, repo.failing, from, i, repo.tables);
      var changed := CallOne(sweep, row.id, row.accountId, now);
    }

    /** The loop over the rows of a snapshot.  A failing call is logged and the loop goes on. */
    method SweepRows(sweep: Sweep, rows: seq<DueRental>, now: int, ghost q: seq<int>)
      requires !repo.inTransaction && Valid(repo.tables)
      requires IsQueue(sweep, repo.tables, now, q) && RowsOf(repo.tables, q, rows)
      modifies repo
      ensures !repo.inTransaction
      ensures Passed(sweep, old(repo.tables), repo.tables, q, now, repo.failing, old(repo.calls), repo.calls)
    {
      ghost var t, from := repo.tables, repo.calls;
      for i := 0 to |rows|
        invariant !repo.inTransaction
        invariant repo.tables == After(sweep, t, q, now, repo.failing, from, i) && repo.calls == Start(sweep, repo.failing, from, i)
      {
        SweepRow(sweep, rows[i], now, t, q, from, i);
      }
      ghost var done := Handled(sweep, q, repo.failing, from, |q|);
      PassSweeps(sweep, t, q, now, repo.failing, from, |q|, repo.tables, done);
    }

    /** One pass over the expired rentals. */
    method CleanExpiredRentals(now: int) returns (r: Result<()>, ghost q: seq<int>)
      requires !repo.inTransaction && Valid(repo.tables)
      modifies repo
      ensures !repo.inTransaction
      ensures r.Err? <==> old(repo.calls) in repo.failing
      ensures r.Err? ==> r.error == DatabaseFailure && repo.tables == old(repo.tables)
      ensures q == Queue(Overdue, old(repo.tables), now)
      ensures r.Ok? ==> Passed(Overdue, old(repo.tables), repo.tables, q, now, repo.failing, old(repo.calls) + 1, repo.calls)
    {
      q := Queue(Overdue, repo.tables, now);
      QueueIsQueue(Overdue, repo.tables, now);
      var rows := repo.GetExpiredRentals(now);
      if rows.Err? { return Err(rows.error), q; }
      ghost var from := repo.calls;
      SweepRows(Overdue, rows.value, now, q);
      assert from == old(repo.calls) + 1;
      r := Ok(());
    }

    /** One pass over the reservations that were not paid in time. */
    method CleanUnpaidReservations(now: int) returns (r: Result<()>, ghost q: seq<int>)
      requires !repo.inTransaction && Valid(repo.tables)
      modifies repo
      ensures !repo.inTransaction
      ensures r.Err? <==> old(repo.calls) in repo.failing
      ensures r.Err? ==> r.error == DatabaseFailure && repo.tables == old(repo.tables)
      ensures q == Queue(Unpaid, old(repo.tables), now)
      ensures r.Ok? ==> Passed(Unpaid, old(repo.tables), repo.tables, q, now, repo.failing, old(repo.calls) + 1, repo.calls)
    {
      q := Queue(Unpaid, repo.tables, now);
      QueueIsQueue(Unpaid, repo.tables, now);
      var rows := repo.GetExpiredReservations(now);
      if rows.Err? { return Err(rows.error), q; }
      ghost var from := repo.calls;
      SweepRows(Unpaid, rows.value, now, q);
      assert from == old(repo.calls) + 1;
      r := Ok(());
    }
  }
}
