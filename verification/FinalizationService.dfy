/** The finalizer: a loop that completes expired rentals one transaction at a time. */
module FinalizationService {
  import opened Common
  import opened LedgerKeys
  import opened Tables
  import opened Ordering
  import opened Operations
  import opened Invariant
  import opened Readiness
  import opened FinalizationQueue
  import opened Repository
  import opened PaymentService

  datatype FinalizationResult = FinalizationResult(processed: int, completed: int, autoReleased: int)

  function Least(a: int, b: int): int {
    if a <= b then a else b
  }

  /** What a call of the finalizer with a permitted limit does.  It takes the first rentals of the
      queue, as many as the limit allows.  If it succeeds they are all completed and counted.  If it
      fails, whole rounds have been committed and the failing one has not: either a call to the
      database failed, or the next credit does not fit the balance it is for. */
  ghost predicate Finalizes(t: Tables, now: int, limit: int, after: Tables, r: Result<FinalizationResult>, failing: set<nat>, from: nat, to: nat)
    requires limit > 0
  {
    var q := Queue(t, now);
    var n := Least(limit, |q|);
    match r
    case Ok(counts) =>
      && Affordable(t, q[..n])
      && counts == FinalizationResult(n, n, Deposits(t, q[..n]))
      && after == Rounds(t, now, n)
    case Err(e) =>
      exists k: nat :: k <= n && FailsAfter(t, now, k, n, after, e, failing, from, to)
  }

  /** Exactly `k` rounds have been committed. */
  ghost predicate FailsAfter(t: Tables, now: int, k: nat, n: nat, after: Tables, e: Error, failing: set<nat>, from: nat, to: nat)
    requires k <= n <= |Queue(t, now)|
  {
    && Affordable(t, Queue(t, now)[..k]) && after == Rounds(t, now, k)
    && (Stopped(e, failing, from, to) || (e == BalanceOutOfRange && k < n && !Affordable(t, Queue(t, now)[..k + 1])))
  }

  /** A finalizer none of whose calls fails succeeds exactly when the credits of the
      rentals it would take fit the balances they are for. */
  lemma FinalizerSucceeds(t: Tables, now: int, limit: int, after: Tables, r: Result<FinalizationResult>, failing: set<nat>, from: nat, to: nat)
    requires Valid(t) && limit > 0 && forall i :: from <= i < to ==> i !in failing
    requires Finalizes(t, now, limit, after, r, failing, from, to)
    ensures r.Ok? <==> Affordable(t, Queue(t, now)[..Least(limit, |Queue(t, now)|)])
  {
    var n := Least(limit, |Queue(t, now)|);
    if r.Err? {
      var k: nat :| k <= n && FailsAfter(t, now, k, n, after, r.error, failing, from, to);
      FailureIsUnaffordable(t, now, k, n, after, r.error, failing, from, to);
    }
  }

  lemma FailureIsUnaffordable(t: Tables, now: int, k: nat, n: nat, after: Tables, e: Error, failing: set<nat>, from: nat, to: nat)
    requires Valid(t) && (forall i :: from <= i < to ==> i !in failing) && k <= n <= |Queue(t, now)|
    requires FailsAfter(t, now, k, n, after, e, failing, from, to)
    ensures !Affordable(t, Queue(t, now)[..n])
  {
    AffordableSoFar(t, Queue(t, now), n, k + 1);
  }

  /** A successful call has completed every rental it counts; one that processed fewer than its limit
      has left nothing that is due; automatic releases are some of the completions. */
  lemma FinalizerCompletes(t: Tables, now: int, limit: int, after: Tables, counts: FinalizationResult, failing: set<nat>, from: nat, to: nat)
    requires Valid(t) && limit > 0
    requires Finalizes(t, now, limit, after, Ok(counts), failing, from, to)
    ensures Valid(after)
    ensures counts.processed == counts.completed == Least(limit, |Candidates(t, now)|)
    ensures 0 <= counts.autoReleased <= counts.processed
    ensures AllCompleted(after, Queue(t, now)[..counts.processed])
    ensures counts.processed < limit ==> Candidates(after, now) == {}
  {
    var q := Queue(t, now);
    var n := Least(limit, |q|);
    RoundsSucceed(t, now, n);
    RoundsComplete(t, now, n);
    DepositsBound(t, q[..n]);
    if n < limit {
      RoundsDrain(t, now);
    }
  }

  lemma FinalizerDone(t: Tables, now: int, limit: int, after: Tables, k: nat, autoReleased: int, failing: set<nat>, from: nat, to: nat)
    requires limit > 0 && k == Least(limit, |Queue(t, now)|)
    requires after == Rounds(t, now, k) && Affordable(t, Queue(t, now)[..k]) && autoReleased == Deposits(t, Queue(t, now)[..k])
    ensures Finalizes(t, now, limit, after, Ok(FinalizationResult(k, k, autoReleased)), failing, from, to)
  {
  }

  lemma FinalizerFailed(t: Tables, now: int, limit: int, after: Tables, k: nat, e: Error, failing: set<nat>, from: nat, to: nat)
    requires k < limit && k <= |Queue(t, now)| && after == Rounds(t, now, k) && Affordable(t, Queue(t, now)[..k])
    requires Stopped(e, failing, from, to)
             || (e == BalanceOutOfRange && k < |Queue(t, now)| && !Affordable(t, Queue(t, now)[..k + 1]))
    ensures Finalizes(t, now, limit, after, Err(e), failing, from, to)
  {
    assert FailsAfter(t, now, k, Least(limit, |Queue(t, now)|), after, e, failing, from, to);
  }

  /** Where the loop stands: it has taken `k` rentals, and released the deposits of `released` of them. */
  ghost predicate Taken(t0: Tables, t: Tables, now: int, k: nat, released: int) {
    InLoop(t0, t, now, k) && released == Deposits(t0, Queue(t0, now)[..k])
  }

  lemma TakenStep(t0: Tables, t: Tables, now: int, k: nat, released: int, next: nat) returns (released': int)
    requires Valid(t0) && Taken(t0, t, now, k, released) && next == k + 1
    ensures var q := Queue(t0, now);
            var o := FinalizeNext(t, now);
            match o.result
            case Err(e) => e == BalanceOutOfRange && o.tables == t && k < |q| && !Affordable(t0, q[..next])
            case Ok(NothingDue) => o.tables == t && k == |q|
            case Ok(FinalizedRental(_, autoReleased)) =>
              next <= |q| && released' == released + (if autoReleased then 1 else 0) && Taken(t0, o.tables, now, next, released')
  {
    LoopStep(t0, t, now, k);
    released' := if next <= |Queue(t0, now)| then Deposits(t0, Queue(t0, now)[..next]) else 0;
  }

  lemma CandidatesAreSettleable(t: Tables, now: int)
    requires Valid(t)
    ensures forall rid :: rid in Candidates(t, now) ==> Settleable(t, rid)
  {
    forall rid | rid in Candidates(t, now)
      ensures Settleable(t, rid)
    {
      IsSettleable(t, rid);
    }
  }

  class FinalizationService {
    const payments: PaymentService

    constructor (payments: PaymentService)
      ensures this.payments == payments
    {
      this.payments := payments;
    }

    method FinalizeWithin(now: int) returns (r: Result<Finalized>)
      requires forall rid :: rid in Candidates(payments.repo.tables, now) ==> Settleable(payments.repo.tables, rid)
      modifies payments.repo`tables, payments.repo`calls
      ensures Performs(FinalizeNext(old(payments.repo.tables), now), payments.repo.tables, r, payments.repo.failing, old(payments.repo.calls), payments.repo.calls)
    {
      var next := payments.repo.LockNextFinalization(now);
      if next.Err? { return Err(next.error); }
      if next.value.None? { return Ok(NothingDue); }
      var rid := next.value.value;
      var loaded := payments.repo.LockDepositSettlementState(rid);
      if loaded.Err? {
        if loaded.error == DepositHoldNotFound { return Ok(NothingDue); }
        return Err(loaded.error);
      }
      var state := loaded.value;
      var rental, payment := state.rental, state.payment;
      if rental.status != Expired || payment.status != Paid { return Err(DepositSettlementNotAllowed); }

      var autoReleased := false;
      if rental.deposit == 0 && state.hold.None? {
      } else if !IsConsistentPositiveDeposit(state) {
        return Err(DepositSettlementNotAllowed);
      } else if state.hold.value.status == Held {
        if rental.reviewDeadline.None? || now < rental.reviewDeadline.value { return Err(DepositSettlementNotAllowed); }
        var e := payments.PayOutDeposit(rid, state, AutoRelease, None, AutoReleaseKey(rid), "deposit_auto_release", now);
        if e.Some? { return Err(e.value); }
        autoReleased := true;
      }
      var done := payments.CompleteRentalAfterSettlement(rid, rental, payment, None, now);
      if done.Err? { return Err(done.error); }
      r := Ok(FinalizedRental(rid, autoReleased));
    }

    method FinalizeOne(now: int) returns (r: Result<Finalized>)
      requires Valid(payments.repo.tables)
      modifies payments.repo
      ensures Serves(old(payments.repo.inTransaction), FinalizeNext(old(payments.repo.tables), now), old(payments.repo.tables), payments.repo.tables, r, payments.repo.failing, old(payments.repo.calls), payments.repo.calls)
      ensures payments.repo.inTransaction == old(payments.repo.inTransaction)
      ensures payments.repo.inTransaction ==> payments.repo.saved == old(payments.repo.saved)
    {
      CandidatesAreSettleable(payments.repo.tables, now);
      var e, owner := payments.repo.Begin();
      if e.Some? { return Err(e.value); }
      var body := FinalizeWithin(now);
      r := payments.repo.Finish(owner, body);
    }

    /** A round of a loop that has taken `k` rentals of the queue it found in `t`. */
    method Round(now: int, ghost t: Tables, ghost k: nat, ghost released: int) returns (r: Result<Finalized>, ghost next: nat, ghost released': int)
      requires !payments.repo.inTransaction && Valid(t) && Taken(t, payments.repo.tables, now, k, released)
      modifies payments.repo
      ensures !payments.repo.inTransaction
      ensures payments.repo.calls >= old(payments.repo.calls)
      ensures r.Err? ==>
                && payments.repo.tables == old(payments.repo.tables)
                && (Stopped(r.error, payments.repo.failing, old(payments.repo.calls), payments.repo.calls)
                    || (r.error == BalanceOutOfRange && k < |Queue(t, now)| && !Affordable(t, Queue(t, now)[..k + 1])))
      ensures r.Ok? && r.value.NothingDue? ==> payments.repo.tables == old(payments.repo.tables) && k == |Queue(t, now)|
      ensures r.Ok? && r.value.FinalizedRental? ==>
                && next == k + 1 && next <= |Queue(t, now)| && released' == released + (if r.value.autoReleased then 1 else 0)
                && Taken(t, payments.repo.tables, now, next, released')
    {
      next := k + 1;
      released' := TakenStep(t, payments.repo.tables, now, k, released, next);
      r := FinalizeOne(now);
    }

    /** A round of a call that was made at `from` with a limit that is not used up. */
    method LimitedRound(now: int, limit: int, ghost t: Tables, ghost k: nat, ghost released: int, ghost from: nat)
      returns (r: Result<Finalized>, ghost next: nat, ghost released': int)
      requires !payments.repo.inTransaction && Valid(t) && Taken(t, payments.repo.tables, now, k, released)
      requires k < limit && from <= payments.repo.calls
      modifies payments.repo
      ensures !payments.repo.inTransaction && payments.repo.calls >= old(payments.repo.calls)
      ensures r.Err? ==> Finalizes(t, now, limit, payments.repo.tables, Err(r.error), payments.repo.failing, from, payments.repo.calls)
      ensures r.Ok? && r.value.NothingDue? ==> payments.repo.tables == old(payments.repo.tables) && k == |Queue(t, now)|
      ensures r.Ok? && r.value.FinalizedRental? ==>
                && next == k + 1 && released' == released + (if r.value.autoReleased then 1 else 0)
                && Taken(t, payments.repo.tables, now, next, released')
    {
      r, next, released' := Round(now, t, k, released);
      if r.Err? {
        FinalizerFailed(t, now, limit, payments.repo.tables, k, r.error, payments.repo.failing, from, payments.repo.calls);
      }
    }

    /** The loop of the finalizer. */
    method FinalizeUpTo(now: int, limit: int) returns (r: Result<FinalizationResult>)
      requires !payments.repo.inTransaction && Valid(payments.repo.tables) && limit > 0
      modifies payments.repo
      ensures !payments.repo.inTransaction
      ensures Finalizes(old(payments.repo.tables), now, limit, payments.repo.tables, r, payments.repo.failing, old(payments.repo.calls), payments.repo.calls)
    {
      ghost var t, from := payments.repo.tables, payments.repo.calls;
      LoopStarts(t, now);
      var processed, completed, autoReleased := 0, 0, 0;
      while processed < limit
        invariant 0 <= processed <= limit && completed == processed
        invariant !payments.repo.inTransaction && payments.repo.calls >= from
        invariant Taken(t, payments.repo.tables, now, processed, autoReleased)
      {
        var round, next, released := LimitedRound(now, limit, t, processed, autoReleased, from);
        if round.Err? { return Err(round.error); }
        if round.value.NothingDue? { break; }
        processed := processed + 1;
        completed := completed + 1;
        if round.value.autoReleased {
          autoReleased := autoReleased + 1;
        }
        assert processed == next && autoReleased == released;
      }
      r := Ok(FinalizationResult(processed, completed, autoReleased));
      FinalizerDone(t, now, limit, payments.repo.tables, processed, autoReleased, payments.repo.failing, from, payments.repo.calls);
    }

    method FinalizeExpiredRentals(now: int, limit: int) returns (r: Result<FinalizationResult>)
      requires !payments.repo.inTransaction && Valid(payments.repo.tables)
      modifies payments.repo
      ensures !payments.repo.inTransaction
      ensures limit <= 0 || limit > 100 ==> r == Err(InvalidFinalizationLimit) && payments.repo.tables == old(payments.repo.tables)
      ensures 0 < limit <= 100 ==> Finalizes(old(payments.repo.tables), now, limit, payments.repo.tables, r, payments.repo.failing, old(payments.repo.calls), payments.repo.calls)
    {
      if limit <= 0 || limit > 100 { return Err(InvalidFinalizationLimit); }
      r := FinalizeUpTo(now, limit);
    }
  }
}
