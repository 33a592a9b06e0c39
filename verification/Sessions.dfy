/** Clients of the services: calls that follow one another, each in its own transaction or all of them
    in one, on a database that may fail at any call. */
module Sessions {
  import opened Common
  import opened Tables
  import opened Operations
  import opened Invariant
  import opened Steps
  import opened Runs
  import opened Repository
  import Payments = PaymentService
  import Rentals = RentalService
  import Accounts = AccountService
  import Adjustments = BalanceAdjustment
  import Finalization = FinalizationService

  predicate IsPayment(op: Op) {
    op.Webhook? || op.PayWithBalance?
  }

  predicate IsSettlement(op: Op) {
    op.Release? || op.Forfeit? || op.RefundWallet?
  }

  predicate IsRental(op: Op) {
    op.Rent? || op.Cancel? || op.Credentials?
  }

  predicate IsPricing(op: Op) {
    op.AddAccount? || op.Reprice?
  }

  predicate IsBookkeeping(op: Op) {
    op.Adjust? || op.FinalizeOne?
  }

  /** The operations whose service method runs in `WithinTransaction`. */
  predicate Joinable(op: Op) {
    IsPayment(op) || IsSettlement(op) || IsRental(op) || IsPricing(op) || IsBookkeeping(op)
  }

  function Failure<R>(r: Result<R>): Option<Error> {
    if r.Err? then Some(r.error) else None
  }

  /** The error an operation returns when no call fails. */
  ghost function OpError(t: Tables, op: Op): Option<Error>
    requires Joinable(op)
  {
    match op
    case Rent(uid, aid, duration, now, dbNow, rentalId, paymentId) =>
      Failure(RentAccount(t, uid, aid, duration, now, dbNow, rentalId, paymentId).result)
    case Webhook(req, dbNow) => Failure(ProcessWebhook(t, req, dbNow).result)
    case PayWithBalance(uid, rid, now, dbNow) => Failure(PayRentalWithBalance(t, uid, rid, now, dbNow).result)
    case Cancel(uid, rid, now) => Failure(CancelRental(t, uid, rid, now).result)
    case Release(actor, role, rid, now) => Failure(ReleaseDeposit(t, actor, role, rid, now).result)
    case Forfeit(actor, role, rid, reason, evidence, now) =>
      Failure(ForfeitDeposit(t, actor, role, rid, reason, evidence, now).result)
    case RefundWallet(actor, role, rid, reason, now) => Failure(RefundWalletPayment(t, actor, role, rid, reason, now).result)
    case FinalizeOne(now) => Failure(FinalizeNext(t, now).result)
    case Adjust(actor, role, target, input) => Failure(AdjustBalance(t, actor, role, target, input).result)
    case Credentials(uid, rid, now) => Failure(IssueCredentials(t, uid, rid, now).result)
    case AddAccount(actor, aid, hourlyPrice, deposit) => Failure(CreateAccount(t, actor, aid, hourlyPrice, deposit).result)
    case Reprice(actor, aid, newPrice, newDeposit) => Failure(UpdatePricing(t, actor, aid, newPrice, newDeposit).result)
  }

  /** What a client sees of the call for an operation: its step, its error, or a failing call; and as
      long as the call is not part of an open transaction, an error means nothing has changed. */
  ghost predicate Answers(joined: bool, t: Tables, op: Op, after: Tables, e: Option<Error>, failing: set<nat>, from: nat, to: nat)
    requires Joinable(op)
  {
    && from <= to
    && (e.None? ==> OpError(t, op).None? && after == Apply(t, op))
    && (e.Some? ==> e == OpError(t, op) || Stopped(e.value, failing, from, to))
    && (e.Some? && !joined ==> after == t)
  }

  lemma ServesAnswers<R(!new)>(joined: bool, t: Tables, op: Op, spec: Outcome<R>, after: Tables, r: Result<R>,
                               failing: set<nat>, from: nat, to: nat)
    requires Joinable(op) && spec.tables == Apply(t, op) && Failure(spec.result) == OpError(t, op)
    requires Serves(joined, spec, t, after, r, failing, from, to)
    ensures Answers(joined, t, op, after, Failure(r), failing, from, to)
  {
  }

  ghost predicate AllJoinable(ops: seq<Op>) {
    forall i :: 0 <= i < |ops| ==> Joinable(ops[i])
  }

  ghost predicate NoneFails(failing: set<nat>, from: nat, to: nat) {
    forall c :: from <= c < to ==> c !in failing
  }

  lemma MoneyErrorTakesNoStep(t: Tables, op: Op)
    requires (IsPayment(op) || IsSettlement(op)) && OpError(t, op).Some?
    ensures Apply(t, op) == t
  {
  }

  /** An operation that returns an error takes no step. */
  lemma ErrorTakesNoStep(t: Tables, op: Op)
    requires Joinable(op) && OpError(t, op).Some?
    ensures Apply(t, op) == t
  {
    if IsPayment(op) || IsSettlement(op) {
      MoneyErrorTakesNoStep(t, op);
    }
  }

  /** A call of its own transaction takes the step of its operation or none, keeps the invariant either
      way, and takes its step if no call to the database fails. */
  lemma AnswerIsGood(t: Tables, op: Op, after: Tables, e: Option<Error>, failing: set<nat>, from: nat, to: nat)
    requires Valid(t) && Joinable(op) && Answers(false, t, op, after, e, failing, from, to)
    ensures after == if e.None? then Apply(t, op) else t
    ensures Valid(after)
    ensures NoneFails(failing, from, to) ==> after == Apply(t, op)
  {
    if e.None? {
      StepIsGood(t, op);
    } else if e == OpError(t, op) {
      ErrorTakesNoStep(t, op);
    }
  }

  lemma PrefixNext(t: Tables, ops: seq<Op>, i: nat)
    requires i < |ops|
    ensures Run(t, ops[..i + 1]) == Apply(Run(t, ops[..i]), ops[i])
  {
    assert ops[..i + 1][..i] == ops[..i];
  }

  /** `done` is `ops` with some operations left out. */
  ghost predicate Thinned(done: seq<Op>, ops: seq<Op>) {
    if |ops| == 0 then |done| == 0
    else
      var front, last := ops[..|ops| - 1], ops[|ops| - 1];
      Thinned(done, front) || (|done| > 0 && done[|done| - 1] == last && Thinned(done[..|done| - 1], front))
  }

  lemma ThinnedSkips(done: seq<Op>, ops: seq<Op>, i: nat)
    requires i < |ops| && Thinned(done, ops[..i])
    ensures Thinned(done, ops[..i + 1])
  {
    assert ops[..i + 1][..i] == ops[..i];
  }

  lemma ThinnedTakes(done: seq<Op>, ops: seq<Op>, i: nat)
    requires i < |ops| && Thinned(done, ops[..i])
    ensures Thinned(done + [ops[i]], ops[..i + 1])
  {
    assert ops[..i + 1][..i] == ops[..i];
    assert (done + [ops[i]])[..|done|] == done;
  }

  /** The first error in a run whose calls to the database all succeed. */
  ghost function FirstError(t: Tables, ops: seq<Op>): Option<Error>
    requires AllJoinable(ops)
  {
    if |ops| == 0 then None
    else
      var front := ops[..|ops| - 1];
      var e := FirstError(t, front);
      if e.Some? then e else OpError(Run(t, front), ops[|ops| - 1])
  }

  lemma FirstErrorNext(t: Tables, ops: seq<Op>, i: nat, t1: Tables)
    requires AllJoinable(ops) && i < |ops| && t1 == Run(t, ops[..i])
    ensures FirstError(t, ops[..i + 1]) == if FirstError(t, ops[..i]).Some? then FirstError(t, ops[..i]) else OpError(t1, ops[i])
  {
    assert ops[..i + 1][..i] == ops[..i];
  }

  lemma {:induction false} ErrorIsFirst(t: Tables, ops: seq<Op>, i: nat, e: Option<Error>)
    requires AllJoinable(ops) && i <= |ops| && e.Some? && FirstError(t, ops[..i]) == e
    ensures FirstError(t, ops) == e
  {
    if i == |ops| {
      assert ops[..i] == ops;
    } else {
      var front := ops[..|ops| - 1];
      assert front[..i] == ops[..i];
      ErrorIsFirst(t, front, i, e);
    }
  }

  /** Several operations as one transaction: the steps of all of them or, if one returns an error, none. */
  ghost function Transaction(t: Tables, ops: seq<Op>): Outcome<()>
    requires AllJoinable(ops)
  {
    match FirstError(t, ops)
    case Some(e) => Outcome(t, Err(e))
    case None => Outcome(Run(t, ops), Ok(()))
  }

  /** Where a transaction stands that has made the first `i` calls. */
  ghost predicate HaveJoined(t: Tables, ops: seq<Op>, i: nat, t1: Tables)
    requires AllJoinable(ops)
  {
    i <= |ops| && Valid(t1) && t1 == Run(t, ops[..i]) && FirstError(t, ops[..i]) == None
  }

  lemma JoinsNext(t: Tables, ops: seq<Op>, i: nat, t1: Tables, t2: Tables)
    requires AllJoinable(ops) && i < |ops| && HaveJoined(t, ops, i, t1)
    requires OpError(t1, ops[i]).None? && t2 == Apply(t1, ops[i])
    ensures HaveJoined(t, ops, i + 1, t2)
  {
    StepIsGood(t1, ops[i]);
    PrefixNext(t, ops, i);
    FirstErrorNext(t, ops, i, t1);
  }

  lemma JoinFails(t: Tables, ops: seq<Op>, i: nat, t1: Tables, e: Error)
    requires AllJoinable(ops) && i < |ops| && HaveJoined(t, ops, i, t1) && OpError(t1, ops[i]) == Some(e)
    ensures Transaction(t, ops) == Outcome(t, Err(e))
  {
    FirstErrorNext(t, ops, i, t1);
    ErrorIsFirst(t, ops, i + 1, OpError(t1, ops[i]));
  }

  lemma AllHaveJoined(t: Tables, ops: seq<Op>, t1: Tables)
    requires AllJoinable(ops) && HaveJoined(t, ops, |ops|, t1)
    ensures Transaction(t, ops) == Outcome(t1, Ok(()))
  {
    assert ops[..|ops|] == ops;
  }

  /** Where a session stands that has made the first `i` calls, of which those in `done` succeeded. */
  ghost predicate Served(t: Tables, ops: seq<Op>, i: nat, t1: Tables, done: seq<Op>, calm: bool) {
    && i <= |ops| && Valid(t1)
    && Thinned(done, ops[..i]) && t1 == Run(t, done)
    && (calm ==> t1 == Run(t, ops[..i]))
  }

  lemma ServesNext(t: Tables, ops: seq<Op>, i: nat, t1: Tables, t2: Tables, done: seq<Op>, done': seq<Op>, calm: bool, calm': bool)
    requires i < |ops| && Served(t, ops, i, t1, done, calm) && (calm' ==> calm && t2 == Apply(t1, ops[i]))
    requires Valid(t2) && (if done' == done then t2 == t1 else t2 == Apply(t1, ops[i]) && done' == done + [ops[i]])
    ensures Served(t, ops, i + 1, t2, done', calm')
  {
    PrefixNext(t, ops, i);
    if done' == done {
      ThinnedSkips(done, ops, i);
    } else {
      ThinnedTakes(done, ops, i);
      PrefixNext(t, done', |done|);
      assert done'[..|done|] == done && done'[..|done| + 1] == done';
    }
  }

  class Session {
    const repo: Database

    constructor (repo: Database)
      ensures this.repo == repo
    {
      this.repo := repo;
    }

    method ServePayment(op: Op) returns (e: Option<Error>)
      requires Valid(repo.tables) && IsPayment(op)
      modifies repo
      ensures Answers(old(repo.inTransaction), old(repo.tables), op, repo.tables, e, repo.failing, old(repo.calls), repo.calls)
      ensures repo.inTransaction == old(repo.inTransaction)
      ensures repo.inTransaction ==> repo.saved == old(repo.saved)
    {
      ghost var joined, t, from := repo.inTransaction, repo.tables, repo.calls;
      var service := new Payments.PaymentService(repo);
      match op
      case Webhook(req, dbNow) =>
        var r := service.ProcessWebhook(req, dbNow);
        ServesAnswers(joined, t, op, ProcessWebhook(t, req, dbNow), repo.tables, r, repo.failing, from, repo.calls);
        e := Failure(r);
      case PayWithBalance(uid, rid, now, dbNow) =>
        var r := service.PayRentalWithBalance(uid, rid, now, dbNow);
        ServesAnswers(joined, t, op, PayRentalWithBalance(t, uid, rid, now, dbNow), repo.tables, r, repo.failing, from, repo.calls);
        e := Failure(r);
    }

    method ServeSettlement(op: Op) returns (e: Option<Error>)
      requires Valid(repo.tables) && IsSettlement(op)
      modifies repo
      ensures Answers(old(repo.inTransaction), old(repo.tables), op, repo.tables, e, repo.failing, old(repo.calls), repo.calls)
      ensures repo.inTransaction == old(repo.inTransaction)
      ensures repo.inTransaction ==> repo.saved == old(repo.saved)
    {
      ghost var joined, t, from := repo.inTransaction, repo.tables, repo.calls;
      var service := new Payments.PaymentService(repo);
      match op
      case Release(actor, role, rid, now) =>
        var r := service.ReleaseDeposit(actor, role, rid, now);
        ServesAnswers(joined, t, op, ReleaseDeposit(t, actor, role, rid, now), repo.tables, r, repo.failing, from, repo.calls);
        e := Failure(r);
      case Forfeit(actor, role, rid, reason, evidence, now) =>
        var r := service.ForfeitDeposit(actor, role, rid, reason, evidence, now);
        ServesAnswers(joined, t, op, ForfeitDeposit(t, actor, role, rid, reason, evidence, now), repo.tables, r, repo.failing, from, repo.calls);
        e := Failure(r);
      case RefundWallet(actor, role, rid, reason, now) =>
        var r := service.RefundWalletPayment(actor, role, rid, reason, now);
        ServesAnswers(joined, t, op, RefundWalletPayment(t, actor, role, rid, reason, now), repo.tables, r, repo.failing, from, repo.calls);
        e := Failure(r);
    }

    method ServeRental(op: Op) returns (e: Option<Error>)
      requires Valid(repo.tables) && IsRental(op)
      modifies repo
      ensures Answers(old(repo.inTransaction), old(repo.tables), op, repo.tables, e, repo.failing, old(repo.calls), repo.calls)
      ensures repo.inTransaction == old(repo.inTransaction)
      ensures repo.inTransaction ==> repo.saved == old(repo.saved)
    {
      ghost var joined, t, from := repo.inTransaction, repo.tables, repo.calls;
      var service := new Rentals.RentalService(repo);
      match op
      case Rent(uid, aid, duration, now, dbNow, rentalId, paymentId) =>
        var r := service.RentAccount(uid, aid, duration, now, dbNow, rentalId, paymentId);
        ServesAnswers(joined, t, op, RentAccount(t, uid, aid, duration, now, dbNow, rentalId, paymentId), repo.tables, r, repo.failing, from, repo.calls);
        e := Failure(r);
      case Cancel(uid, rid, now) =>
        var r := service.CancelRental(uid, rid, now);
        ServesAnswers(joined, t, op, CancelRental(t, uid, rid, now), repo.tables, r, repo.failing, from, repo.calls);
        e := Failure(r);
      case Credentials(uid, rid, now) =>
        var r := service.GetRentalCredentials(uid, rid, now);
        ServesAnswers(joined, t, op, IssueCredentials(t, uid, rid, now), repo.tables, r, repo.failing, from, repo.calls);
        e := Failure(r);
    }

    method ServePricing(op: Op) returns (e: Option<Error>)
      requires Valid(repo.tables) && IsPricing(op)
      modifies repo
      ensures Answers(old(repo.inTransaction), old(repo.tables), op, repo.tables, e, repo.failing, old(repo.calls), repo.calls)
      ensures repo.inTransaction == old(repo.inTransaction)
      ensures repo.inTransaction ==> repo.saved == old(repo.saved)
    {
      ghost var joined, t, from := repo.inTransaction, repo.tables, repo.calls;
      match op
      case AddAccount(actor, aid, hourlyPrice, deposit) =>
        var service := new Accounts.AccountService(repo);
        var r := service.CreateAccount(actor, aid, hourlyPrice, deposit);
        ServesAnswers(joined, t, op, CreateAccount(t, actor, aid, hourlyPrice, deposit), repo.tables, r, repo.failing, from, repo.calls);
        e := Failure(r);
      case Reprice(actor, aid, newPrice, newDeposit) =>
        var service := new Accounts.AccountService(repo);
        var r := service.UpdateAccount(actor, aid, newPrice, newDeposit);
        ServesAnswers(joined, t, op, UpdatePricing(t, actor, aid, newPrice, newDeposit), repo.tables, r, repo.failing, from, repo.calls);
        e := Failure(r);
    }

    method ServeBookkeeping(op: Op) returns (e: Option<Error>)
      requires Valid(repo.tables) && IsBookkeeping(op)
      modifies repo
      ensures Answers(old(repo.inTransaction), old(repo.tables), op, repo.tables, e, repo.failing, old(repo.calls), repo.calls)
      ensures repo.inTransaction == old(repo.inTransaction)
      ensures repo.inTransaction ==> repo.saved == old(repo.saved)
    {
      ghost var joined, t, from := repo.inTransaction, repo.tables, repo.calls;
      match op
      case Adjust(actor, role, target, input) =>
        var service := new Adjustments.BalanceAdjustmentService(repo);
        var r := service.AdjustAdminBalance(actor, role, target, input);
        ServesAnswers(joined, t, op, AdjustBalance(t, actor, role, target, input), repo.tables, r, repo.failing, from, repo.calls);
        e := Failure(r);
      case FinalizeOne(now) =>
        var payments := new Payments.PaymentService(repo);
        var service := new Finalization.FinalizationService(payments);
        var r := service.FinalizeOne(now);
        ServesAnswers(joined, t, op, FinalizeNext(t, now), repo.tables, r, repo.failing, from, repo.calls);
        e := Failure(r);
    }

    /** The call of the service method for an operation. */
    method Serve(op: Op) returns (e: Option<Error>)
      requires Valid(repo.tables) && Joinable(op)
      modifies repo
      ensures Answers(old(repo.inTransaction), old(repo.tables), op, repo.tables, e, repo.failing, old(repo.calls), repo.calls)
      ensures repo.inTransaction == old(repo.inTransaction)
      ensures repo.inTransaction ==> repo.saved == old(repo.saved)
    {
      if IsPayment(op) {
        e := ServePayment(op);
      } else if IsSettlement(op) {
        e := ServeSettlement(op);
      } else if IsRental(op) {
        e := ServeRental(op);
      } else if IsPricing(op) {
        e := ServePricing(op);
      } else {
        e := ServeBookkeeping(op);
      }
    }

    // --- One transaction for each call --------------------------------------------------------------

    /** Calls one after the other: the tables are those of the run of the calls that succeeded, whatever
        else failed, and if no call to the database failed those of the run of all. */
    method ServeAll(ops: seq<Op>) returns (ghost done: seq<Op>)
      requires !repo.inTransaction && Valid(repo.tables) && AllJoinable(ops)
      modifies repo
      ensures !repo.inTransaction && repo.calls >= old(repo.calls)
      ensures Thinned(done, ops) && repo.tables == Run(old(repo.tables), done)
      ensures NoneFails(repo.failing, old(repo.calls), repo.calls) ==> repo.tables == Run(old(repo.tables), ops)
    {
      ghost var t, from := repo.tables, repo.calls;
      done := [];
      for i := 0 to |ops|
        invariant !repo.inTransaction && repo.calls >= from
        invariant Served(t, ops, i, repo.tables, done, NoneFails(repo.failing, from, repo.calls))
      {
        done := ServeNext(ops, i, t, done, from);
      }
      assert ops[..|ops|] == ops;
    }

    method ServeNext(ops: seq<Op>, i: nat, ghost t: Tables, ghost done: seq<Op>, ghost from: nat) returns (ghost done': seq<Op>)
      requires !repo.inTransaction && i < |ops| && Joinable(ops[i]) && from <= repo.calls
      requires Served(t, ops, i, repo.tables, done, NoneFails(repo.failing, from, repo.calls))
      modifies repo
      ensures !repo.inTransaction && repo.calls >= old(repo.calls)
      ensures Served(t, ops, i + 1, repo.tables, done', NoneFails(repo.failing, from, repo.calls))
    {
      ghost var t1, mid := repo.tables, repo.calls;
      var e := Serve(ops[i]);
      AnswerIsGood(t1, ops[i], repo.tables, e, repo.failing, mid, repo.calls);
      done' := if e.None? then done + [ops[i]] else done;
      ServesNext(t, ops, i, t1, repo.tables, done, done', NoneFails(repo.failing, from, mid), NoneFails(repo.failing, from, repo.calls));
    }

    // --- One transaction for all calls --------------------------------------------------------------

    method TogetherWithin(ops: seq<Op>, ghost spec: Outcome<()>) returns (r: Result<()>)
      requires repo.inTransaction && Valid(repo.tables) && AllJoinable(ops) && spec == Transaction(repo.tables, ops)
      modifies repo
      ensures repo.inTransaction && repo.saved == old(repo.saved)
      ensures Performs(spec, repo.tables, r, repo.failing, old(repo.calls), repo.calls)
    {
      ghost var t := repo.tables;
      for i := 0 to |ops|
        invariant repo.inTransaction && repo.saved == old(repo.saved) && repo.calls >= old(repo.calls)
        invariant HaveJoined(t, ops, i, repo.tables)
      {
        var e := JoinNext(ops, i, t);
        if e.Some? { return Err(e.value); }
      }
      AllHaveJoined(t, ops, repo.tables);
      r := Ok(());
    }

    method JoinNext(ops: seq<Op>, i: nat, ghost t: Tables) returns (e: Option<Error>)
      requires repo.inTransaction && AllJoinable(ops) && i < |ops| && HaveJoined(t, ops, i, repo.tables)
      modifies repo
      ensures repo.inTransaction && repo.saved == old(repo.saved) && repo.calls >= old(repo.calls)
      ensures e.None? ==> HaveJoined(t, ops, i + 1, repo.tables)
      ensures e.Some? ==> Transaction(t, ops) == Outcome(t, Err(e.value)) || Stopped(e.value, repo.failing, old(repo.calls), repo.calls)
    {
      ghost var t1 := repo.tables;
      e := Serve(ops[i]);
      if e.None? {
        JoinsNext(t, ops, i, t1, repo.tables);
      } else if OpError(t1, ops[i]) == e {
        JoinFails(t, ops, i, t1, e.value);
      }
    }

    /** Calls in one transaction: they join it, and either all of them take their steps or none does. */
    method Together(ops: seq<Op>) returns (r: Result<()>)
      requires Valid(repo.tables) && AllJoinable(ops)
      modifies repo
      ensures Serves(old(repo.inTransaction), Transaction(old(repo.tables), ops),
                     old(repo.tables), repo.tables, r, repo.failing, old(repo.calls), repo.calls)
      ensures repo.inTransaction == old(repo.inTransaction)
      ensures repo.inTransaction ==> repo.saved == old(repo.saved)
    {
      ghost var t, spec := repo.tables, Transaction(repo.tables, ops);
      var e, owner := repo.Begin();
      if e.Some? { return Err(e.value); }
      assert repo.tables == t;
      var body := TogetherWithin(ops, spec);
      r := repo.Finish(owner, body);
    }
  }
}
