/** The queue of expired rentals, and what repeated rounds of the finalizer do to it. */
module FinalizationQueue {
  import opened Common
  import opened LedgerKeys
  import opened Tables
  import opened Ordering
  import opened Operations
  import opened Invariant
  import opened Steps

  /** All rentals due at `now`, in the order in which the loop takes them. */
  ghost function Queue(t: Tables, now: int): seq<int> {
    Sorted(Candidates(t, now), QueueRank(t))
  }

  lemma {:induction false} SortedDependsOnRanks(s: set<int>, rank: map<int, int>, rank': map<int, int>)
    requires Ranked(s, rank) && Ranked(s, rank') && forall x :: x in s ==> rank[x] == rank'[x]
    ensures Sorted(s, rank) == Sorted(s, rank')
  {
    if s != {} {
      assert IsFirst(s, rank, First(s, rank'));
      SortedDependsOnRanks(s - {First(s, rank)}, rank, rank');
    }
  }

  /** A round completes rental `x`, credits its user and touches no other rental, payment or hold. */
  ghost predicate Took(t: Tables, t': Tables, x: int) {
    && x in t.rentals && x in t'.rentals && t.rentals[x].userId in t.users
    && t'.rentals == t.rentals[x := t'.rentals[x]] && t'.rentals[x].status == Completed
    && t'.payments == t.payments
    && t'.holds.Keys == t.holds.Keys && (forall r :: r in t.holds && r != x ==> t'.holds[r] == t.holds[r])
    && t'.users == WithBalance(t.users, t.rentals[x].userId, t.users[t.rentals[x].userId].balance + DueCredit(t, x))
  }

  lemma TookChange(t: Tables, x: int, c: Change)
    requires Joined(t, x) && x in t.holds && c.hold.Some?
    requires c.payment == t.payments[x] && c.rental.status == Completed
    requires c.balance == t.users[t.rentals[x].userId].balance + DueCredit(t, x)
    ensures Took(t, ApplyChange(t, x, c), x)
  {
  }

  lemma TookHeld(t: Tables, x: int, now: int)
    requires Valid(t) && x in t.rentals && IsCandidate(t, x, now) && t.rentals[x].deposit > 0
    requires FinalizeRental(t, x, now).result.Ok?
    ensures Took(t, FinalizeRental(t, x, now).tables, x)
  {
    CandidateShape(t, x, now);
    var c := ReleaseChange(t, x, AutoRelease, None, AutoReleaseKey(x), "deposit_auto_release", None, now);
    ReleaseTables(t, x, AutoRelease, None, AutoReleaseKey(x), "deposit_auto_release", None, now);
    TookChange(t, x, c);
  }

  lemma TookPlain(t: Tables, x: int, now: int)
    requires Valid(t) && x in t.rentals && IsCandidate(t, x, now) && t.rentals[x].deposit <= 0
    ensures Took(t, FinalizeRental(t, x, now).tables, x)
  {
    CandidateShape(t, x, now);
    RentalIsJoined(t, x);
    assert FinalizeRental(t, x, now).tables == CompleteRental(t, x, None, now).tables;
    WithBalanceSame(t.users, t.rentals[x].userId);
  }

  lemma CandidatesAfter(t: Tables, t': Tables, x: int, now: int)
    requires Took(t, t', x)
    ensures Candidates(t', now) == Candidates(t, now) - {x}
    ensures forall r :: r in t.rentals && r != x ==> r in t'.rentals && QueueRank(t')[r] == QueueRank(t)[r]
  {
    forall r | r in t.rentals && r != x
      ensures IsCandidate(t', r, now) <==> IsCandidate(t, r, now)
    {
      assert t'.rentals[r] == t.rentals[r];
    }
    assert !IsCandidate(t', x, now);
  }

  /** One round takes the head of the queue and leaves the rest in place. */
  lemma RoundTakesHead(t: Tables, now: int)
    requires Valid(t) && Candidates(t, now) != {} && FinalizeNext(t, now).result.Ok?
    ensures var t' := FinalizeNext(t, now).tables;
            var x := Queue(t, now)[0];
            && x in t.rentals && Took(t, t', x)
            && Queue(t, now) == [x] + Queue(t', now)
            && FinalizeNext(t, now).result == Ok(FinalizedRental(x, t.rentals[x].deposit > 0))
  {
    var s := Candidates(t, now);
    var x := First(s, QueueRank(t));
    var t' := FinalizeNext(t, now).tables;
    CandidateIsFinalized(t, x, now);
    if t.rentals[x].deposit > 0 {
      TookHeld(t, x, now);
    } else {
      TookPlain(t, x, now);
    }
    CandidatesAfter(t, t', x, now);
    SortedDependsOnRanks(s - {x}, QueueRank(t), QueueRank(t'));
  }

  lemma TakeMore(q: seq<int>, k: nat)
    requires k < |q|
    ensures q[..k + 1] == q[..k] + [q[k]] && q[..k + 1][..k] == q[..k] && q[..k + 1][k] == q[k]
  {
  }

  lemma DropMore(q: seq<int>, p: seq<int>, k: nat)
    requires k < |q| && q[k..] == [q[k]] + p
    ensures p == q[k + 1..]
  {
    assert q[k..] == [q[k]] + q[k + 1..];
  }

  // --- Rounds ---------------------------------------------------------------------------------------

  /** The tables after `n` rounds. */
  ghost function Rounds(t: Tables, now: int, n: nat): Tables {
    if n == 0 then t else FinalizeNext(Rounds(t, now, n - 1), now).tables
  }

  /** What the rentals of a list credit to user `u`. */
  ghost function DueTo(t: Tables, q: seq<int>, u: int): int {
    if |q| == 0 then 0
    else
      var x := q[|q| - 1];
      DueTo(t, q[..|q| - 1], u) + (if x in t.rentals && t.rentals[x].userId == u then DueCredit(t, x) else 0)
  }

  /** How many rentals of a list have a deposit to release. */
  ghost function Deposits(t: Tables, q: seq<int>): nat {
    if |q| == 0 then 0
    else
      var x := q[|q| - 1];
      Deposits(t, q[..|q| - 1]) + (if x in t.rentals && t.rentals[x].deposit > 0 then 1 else 0)
  }

  lemma {:induction false} DepositsBound(t: Tables, q: seq<int>)
    ensures Deposits(t, q) <= |q|
  {
    if |q| > 0 {
      DepositsBound(t, q[..|q| - 1]);
    }
  }

  /** Every balance can take what the listed rentals credit to it. */
  ghost predicate Affordable(t: Tables, q: seq<int>) {
    forall u :: u in t.users ==> t.users[u].balance + DueTo(t, q, u) <= MAX_INT64
  }

  /** The state of a loop that started in `t0` and has taken the first `k` rentals of its queue. */
  ghost predicate Progress(t0: Tables, t: Tables, now: int, k: nat) {
    && k <= |Queue(t0, now)|
    && Queue(t, now) == Queue(t0, now)[k..]
    && t.users.Keys == t0.users.Keys
    && (forall u :: u in t0.users ==> t.users[u].balance == t0.users[u].balance + DueTo(t0, Queue(t0, now)[..k], u))
    && (forall x :: x in t0.rentals && x !in Queue(t0, now)[..k] ==> x in t.rentals && t.rentals[x] == t0.rentals[x])
  }

  lemma QueueIsDistinct(t: Tables, now: int, k: nat)
    requires k < |Queue(t, now)|
    ensures Queue(t, now)[k] in Candidates(t, now) && Queue(t, now)[k] !in Queue(t, now)[..k]
  {
    var s, rank := Candidates(t, now), QueueRank(t);
    SortedElements(s, rank, Queue(t, now)[k]);
    forall i | 0 <= i < k
      ensures Queue(t, now)[i] != Queue(t, now)[k]
    {
      SortedInOrder(s, rank, i, k);
    }
  }

  lemma AffordableNext(t: Tables, q: seq<int>, k: nat)
    requires Valid(t) && k < |q| && q[k] in t.rentals && t.rentals[q[k]].userId in t.users
    requires Affordable(t, q[..k])
    ensures Affordable(t, q[..k + 1])
            <==> t.users[t.rentals[q[k]].userId].balance + DueTo(t, q[..k], t.rentals[q[k]].userId) + DueCredit(t, q[k]) <= MAX_INT64
  {
    TakeMore(q, k);
    forall u
      ensures DueTo(t, q[..k + 1], u) == DueTo(t, q[..k], u) + (if t.rentals[q[k]].userId == u then DueCredit(t, q[k]) else 0)
    {
    }
  }

  /** A list that is affordable is affordable as far as one looks. */
  lemma {:induction false} AffordablePrefix(t: Tables, q: seq<int>, k: nat)
    requires Valid(t) && k <= |q| && Affordable(t, q)
    ensures Affordable(t, q[..k])
  {
    if k == |q| {
      assert q[..k] == q;
    } else {
      var front := q[..|q| - 1];
      forall u | u in t.users
        ensures DueTo(t, front, u) <= DueTo(t, q, u)
      {
        var x := q[|q| - 1];
        if x in t.rentals {
          RentalIsJoined(t, x);
        }
      }
      AffordablePrefix(t, front, k);
      assert front[..k] == q[..k];
    }
  }

  /** The head of the remaining queue. */
  lemma NextHead(t0: Tables, t: Tables, now: int, k: nat)
    requires Valid(t) && Progress(t0, t, now, k) && k < |Queue(t0, now)|
    ensures var x := Queue(t0, now)[k];
            && x in t0.rentals && x in t.rentals && t.rentals[x] == t0.rentals[x] && IsCandidate(t, x, now)
            && Candidates(t, now) != {} && First(Candidates(t, now), QueueRank(t)) == x
            && t.rentals[x].userId in t0.users
  {
    var x := Queue(t0, now)[k];
    QueueIsDistinct(t0, now, k);
    assert Queue(t, now)[0] == x;
    RentalIsJoined(t, x);
  }

  lemma BalancesGoOn(t0: Tables, t: Tables, t': Tables, q: seq<int>, k: nat, u: int)
    requires k < |q| && q[k] in t0.rentals && q[k] in t.rentals && t.rentals[q[k]] == t0.rentals[q[k]] && Took(t, t', q[k])
    requires u in t.users && u in t0.users && t.users[u].balance == t0.users[u].balance + DueTo(t0, q[..k], u)
    ensures u in t'.users && t'.users[u].balance == t0.users[u].balance + DueTo(t0, q[..k + 1], u)
  {
    TakeMore(q, k);
  }

  lemma ProgressGoesOn(t0: Tables, t: Tables, t': Tables, now: int, k: nat, q: seq<int>)
    requires Progress(t0, t, now, k) && q == Queue(t0, now) && k < |q|
    requires q[k] in t0.rentals && q[k] in t.rentals && t.rentals[q[k]] == t0.rentals[q[k]] && Took(t, t', q[k])
    requires Queue(t', now) == q[k + 1..]
    ensures Progress(t0, t', now, k + 1)
  {
    TakeMore(q, k);
    forall u | u in t0.users
      ensures t'.users[u].balance == t0.users[u].balance + DueTo(t0, q[..k + 1], u)
    {
      BalancesGoOn(t0, t, t', q, k, u);
    }
    forall y | y in t0.rentals && y !in q[..k + 1]
      ensures y in t'.rentals && t'.rentals[y] == t0.rentals[y]
    {
      assert t'.rentals[y] == t.rentals[y];
    }
  }

  lemma AffordableSoFar(t: Tables, q: seq<int>, n: nat, k: nat)
    requires Valid(t) && k <= n <= |q|
    ensures Affordable(t, q[..n]) ==> Affordable(t, q[..k])
  {
    if Affordable(t, q[..n]) {
      AffordablePrefix(t, q[..n], k);
      assert q[..n][..k] == q[..k];
    }
  }

  /** What the next round does: it completes the next rental of the queue, and it fails exactly when
      that rental's credit does not fit its user's balance. */
  lemma NextRound(t0: Tables, t: Tables, now: int, k: nat)
    requires Valid(t0) && Valid(t) && Progress(t0, t, now, k) && Affordable(t0, Queue(t0, now)[..k])
    ensures k == |Queue(t0, now)| ==> FinalizeNext(t, now) == Outcome(t, Ok(NothingDue))
    ensures k < |Queue(t0, now)| ==>
              var q := Queue(t0, now);
              var o := FinalizeNext(t, now);
              && q[k] in t0.rentals
              && (o.result.Ok? <==> Affordable(t0, q[..k + 1]))
              && (o.result.Ok? ==> o.result == Ok(FinalizedRental(q[k], t0.rentals[q[k]].deposit > 0)) && Progress(t0, o.tables, now, k + 1))
              && (o.result.Err? ==> o == Outcome(t, Err(BalanceOutOfRange)))
  {
    var q := Queue(t0, now);
    if k < |q| {
      var x := q[k];
      NextHead(t0, t, now, k);
      CandidateIsFinalized(t, x, now);
      AffordableNext(t0, q, k);
      if FinalizeNext(t, now).result.Ok? {
        RoundTakesHead(t, now);
        DropMore(q, Queue(FinalizeNext(t, now).tables, now), k);
        ProgressGoesOn(t0, t, FinalizeNext(t, now).tables, now, k, q);
      }
    }
  }

  lemma ProgressStarts(t: Tables, now: int)
    requires UsersOk(t)
    ensures Progress(t, t, now, 0) && Affordable(t, Queue(t, now)[..0])
  {
  }

  /** The invariant of the finalizer's loop after `k` rounds. */
  ghost predicate InLoop(t0: Tables, t: Tables, now: int, k: nat) {
    && Valid(t) && Progress(t0, t, now, k)
    && t == Rounds(t0, now, k)
    && Affordable(t0, Queue(t0, now)[..k])
  }

  lemma LoopStarts(t: Tables, now: int)
    requires Valid(t)
    ensures InLoop(t, t, now, 0) && Deposits(t, Queue(t, now)[..0]) == 0
  {
    ProgressStarts(t, now);
  }

  lemma LoopStep(t0: Tables, t: Tables, now: int, k: nat)
    requires Valid(t0) && InLoop(t0, t, now, k)
    ensures var q := Queue(t0, now);
            var o := FinalizeNext(t, now);
            match o.result
            case Err(e) => e == BalanceOutOfRange && o.tables == t && k < |q| && !Affordable(t0, q[..k + 1])
            case Ok(NothingDue) => o.tables == t && k == |q|
            case Ok(FinalizedRental(_, released)) =>
              && k < |q| && InLoop(t0, o.tables, now, k + 1)
              && Deposits(t0, q[..k + 1]) == Deposits(t0, q[..k]) + (if released then 1 else 0)
  {
    NextRound(t0, t, now, k);
    FinalizeNextIsGood(t, now);
    if k < |Queue(t0, now)| {
      TakeMore(Queue(t0, now), k);
    }
  }

  /** As many rounds as are affordable all succeed ... */
  lemma {:induction false} RoundsSucceed(t: Tables, now: int, n: nat)
    requires Valid(t) && n <= |Queue(t, now)| && Affordable(t, Queue(t, now)[..n])
    ensures Valid(Rounds(t, now, n)) && Progress(t, Rounds(t, now, n), now, n)
  {
    ProgressStarts(t, now);
    if n > 0 {
      var q := Queue(t, now);
      AffordablePrefix(t, q[..n], n - 1);
      TakeMore(q, n - 1);
      RoundsSucceed(t, now, n - 1);
      NextRound(t, Rounds(t, now, n - 1), now, n - 1);
      FinalizeNextIsGood(Rounds(t, now, n - 1), now);
    }
  }

  ghost predicate AllCompleted(t: Tables, q: seq<int>) {
    forall x :: x in q ==> x in t.rentals && t.rentals[x].status == Completed
  }

  lemma NextTakes(t0: Tables, t: Tables, now: int, k: nat)
    requires Valid(t0) && Valid(t) && Progress(t0, t, now, k)
    requires k < |Queue(t0, now)| && Affordable(t0, Queue(t0, now)[..k]) && Affordable(t0, Queue(t0, now)[..k + 1])
    ensures Took(t, FinalizeNext(t, now).tables, Queue(t0, now)[k])
  {
    NextRound(t0, t, now, k);
    NextHead(t0, t, now, k);
    RoundTakesHead(t, now);
  }

  lemma OneMoreCompleted(t: Tables, t': Tables, q: seq<int>, k: nat)
    requires k < |q| && Took(t, t', q[k]) && AllCompleted(t, q[..k])
    ensures AllCompleted(t', q[..k + 1])
  {
    TakeMore(q, k);
  }

  /** ... and leave every rental they took completed. */
  lemma {:induction false} RoundsComplete(t: Tables, now: int, n: nat)
    requires Valid(t) && n <= |Queue(t, now)| && Affordable(t, Queue(t, now)[..n])
    ensures AllCompleted(Rounds(t, now, n), Queue(t, now)[..n])
  {
    if n > 0 {
      var q := Queue(t, now);
      AffordablePrefix(t, q[..n], n - 1);
      TakeMore(q, n - 1);
      RoundsSucceed(t, now, n - 1);
      RoundsComplete(t, now, n - 1);
      NextTakes(t, Rounds(t, now, n - 1), now, n - 1);
      OneMoreCompleted(Rounds(t, now, n - 1), Rounds(t, now, n), q, n - 1);
    }
  }

  /** A queue that has been worked off to its end has nothing left that is due. */
  lemma RoundsDrain(t: Tables, now: int)
    requires Valid(t) && Affordable(t, Queue(t, now)[..|Queue(t, now)|])
    ensures Candidates(Rounds(t, now, |Queue(t, now)|), now) == {}
  {
    RoundsSucceed(t, now, |Queue(t, now)|);
  }
}
