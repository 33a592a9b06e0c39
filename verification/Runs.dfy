/** Whole runs: any operations, with any arguments, any clocks and in any order. */
module Runs {
  import opened Common
  import opened LedgerKeys
  import opened Tables
  import opened Pricing
  import opened Operations
  import opened Invariant
  import opened Steps
  import opened RentingSteps
  import opened AdministrationSteps

  /** One committed or failed transaction.  Nothing relates the clocks of different transactions. */
  datatype Op =
    | Rent(uid: int, aid: int, duration: int, now: int, dbNow: int, rentalId: int, paymentId: int)
    | Webhook(req: WebhookRequest, dbNow: int)
    | PayWithBalance(uid: int, rid: int, now: int, dbNow: int)
    | Cancel(uid: int, rid: int, now: int)
    | ExpireUnpaid(rid: int, now: int)
    | Expire(rid: int, aid: int, now: int)
    | Release(actor: int, role: string, rid: int, now: int)
    | Forfeit(actor: int, role: string, rid: int, reason: string, evidence: string, now: int)
    | RefundWallet(actor: int, role: string, rid: int, reason: string, now: int)
    | FinalizeOne(now: int)
    | Adjust(actor: int, role: string, target: int, input: AdjustmentInput)
    | Credentials(uid: int, rid: int, now: int)
    | Disable(aid: int)
    | DisableAsAdmin(actor: int, aid: int)
    | AddAccount(actor: int, aid: int, hourlyPrice: int, deposit: int)
    | Reprice(actor: int, aid: int, newPrice: Option<int>, newDeposit: Option<int>)
    | SetUser(actor: int, target: int, admin: Option<bool>, blocked: Option<bool>)
    | Register(uid: int)
    // a security event recorded by a component outside this model
    | Observe(event: Event)

  ghost function Apply(t: Tables, op: Op): Tables {
    match op
    case Rent(uid, aid, duration, now, dbNow, rentalId, paymentId) =>
      RentAccount(t, uid, aid, duration, now, dbNow, rentalId, paymentId).tables
    case Webhook(req, dbNow) => ProcessWebhook(t, req, dbNow).tables
    case PayWithBalance(uid, rid, now, dbNow) => PayRentalWithBalance(t, uid, rid, now, dbNow).tables
    case Cancel(uid, rid, now) => CancelRental(t, uid, rid, now).tables
    case ExpireUnpaid(rid, now) => ExpireReservation(t, rid, now).tables
    case Expire(rid, aid, now) => ExpireRental(t, rid, aid, now).tables
    case Release(actor, role, rid, now) => ReleaseDeposit(t, actor, role, rid, now).tables
    case Forfeit(actor, role, rid, reason, evidence, now) => ForfeitDeposit(t, actor, role, rid, reason, evidence, now).tables
    case RefundWallet(actor, role, rid, reason, now) => RefundWalletPayment(t, actor, role, rid, reason, now).tables
    case FinalizeOne(now) => FinalizeNext(t, now).tables
    case Adjust(actor, role, target, input) => AdjustBalance(t, actor, role, target, input).tables
    case Credentials(uid, rid, now) => IssueCredentials(t, uid, rid, now).tables
    case Disable(aid) => DisableAccount(t, aid).tables
    case DisableAsAdmin(actor, aid) => DisableAccountAsAdmin(t, actor, aid).tables
    case AddAccount(actor, aid, hourlyPrice, deposit) => CreateAccount(t, actor, aid, hourlyPrice, deposit).tables
    case Reprice(actor, aid, newPrice, newDeposit) => UpdatePricing(t, actor, aid, newPrice, newDeposit).tables
    case SetUser(actor, target, admin, blocked) => UpdateUser(t, actor, target, admin, blocked).tables
    case Register(uid) => RegisterUser(t, uid).tables
    case Observe(event) => t.(events := t.events + [event])
  }

  ghost function Run(t: Tables, ops: seq<Op>): Tables {
    if |ops| == 0 then t else Apply(Run(t, ops[..|ops| - 1]), ops[|ops| - 1])
  }

  lemma RunNext(t: Tables, ops: seq<Op>, op: Op)
    ensures Run(t, ops + [op]) == Apply(Run(t, ops), op)
  {
    assert (ops + [op])[..|ops + [op]| - 1] == ops;
  }

  lemma {:induction false} RunConcat(t: Tables, a: seq<Op>, b: seq<Op>)
    ensures Run(t, a + b) == Run(Run(t, a), b)
  {
    if |b| == 0 {
      assert a + b == a;
    } else {
      RunConcat(t, a, b[..|b| - 1]);
      assert (a + b)[..|a + b| - 1] == a + b[..|b| - 1];
    }
  }

  /** A run seen from one of its operations. */
  lemma RunSplit(t: Tables, ops: seq<Op>, i: nat)
    requires i < |ops|
    ensures Run(t, ops) == Run(Apply(Run(t, ops[..i]), ops[i]), ops[i + 1..])
  {
    assert ops[..i + 1][..i] == ops[..i];
    assert ops == ops[..i + 1] + ops[i + 1..];
    RunConcat(t, ops[..i + 1], ops[i + 1..]);
  }

  predicate MovesMoney(op: Op) {
    op.Webhook? || op.PayWithBalance? || op.Release? || op.Forfeit? || op.RefundWallet? || op.FinalizeOne? || op.Adjust?
  }

  lemma MoneyStepIsGood(t: Tables, op: Op)
    requires Valid(t) && MovesMoney(op)
    ensures GoodStep(t, Apply(t, op))
  {
    match op
    case Webhook(req, dbNow) => WebhookIsGood(t, req, dbNow);
    case PayWithBalance(uid, rid, now, dbNow) => PayIsGood(t, uid, rid, now, dbNow);
    case Release(actor, role, rid, now) => ReleaseIsGood(t, actor, role, rid, now);
    case Forfeit(actor, role, rid, reason, evidence, now) => ForfeitIsGood(t, actor, role, rid, reason, evidence, now);
    case RefundWallet(actor, role, rid, reason, now) => RefundIsGood(t, actor, role, rid, reason, now);
    case FinalizeOne(now) => FinalizeNextIsGood(t, now);
    case Adjust(actor, role, target, input) => AdjustIsGood(t, actor, role, target, input);
  }

  predicate ManagesAccounts(op: Op) {
    op.Disable? || op.DisableAsAdmin? || op.AddAccount? || op.Reprice?
  }

  lemma AccountStepIsGood(t: Tables, op: Op)
    requires Valid(t) && ManagesAccounts(op)
    ensures GoodStep(t, Apply(t, op))
  {
    match op
    case Disable(aid) => DisableIsGood(t, aid);
    case DisableAsAdmin(actor, aid) => DisableAsAdminIsGood(t, actor, aid);
    case AddAccount(actor, aid, hourlyPrice, deposit) => CreateAccountIsGood(t, actor, aid, hourlyPrice, deposit);
    case Reprice(actor, aid, newPrice, newDeposit) => UpdatePricingIsGood(t, actor, aid, newPrice, newDeposit);
  }

  lemma OtherStepIsGood(t: Tables, op: Op)
    requires Valid(t) && !MovesMoney(op) && !ManagesAccounts(op)
    ensures GoodStep(t, Apply(t, op))
  {
    match op
    case Rent(uid, aid, duration, now, dbNow, rentalId, paymentId) =>
      RentIsGood(t, uid, aid, duration, now, dbNow, rentalId, paymentId);
    case Cancel(uid, rid, now) => CancelIsGood(t, uid, rid, now);
    case ExpireUnpaid(rid, now) => ExpireReservationIsGood(t, rid, now);
    case Expire(rid, aid, now) => ExpireRentalIsGood(t, rid, aid, now);
    case Credentials(uid, rid, now) => CredentialsIsGood(t, uid, rid, now);
    case SetUser(actor, target, admin, blocked) => UpdateUserIsGood(t, actor, target, admin, blocked);
    case Register(uid) => RegisterIsGood(t, uid);
    case Observe(event) => ObserveIsGood(t, event);
  }

  /** Every operation keeps the invariant of the whole database. */
  lemma StepIsGood(t: Tables, op: Op)
    requires Valid(t)
    ensures GoodStep(t, Apply(t, op))
  {
    if MovesMoney(op) {
      MoneyStepIsGood(t, op);
    } else if ManagesAccounts(op) {
      AccountStepIsGood(t, op);
    } else {
      OtherStepIsGood(t, op);
    }
  }

  /** Safety over whole runs: the invariant holds after any run, all rows have only moved forward,
      and every change of a balance is booked. */
  lemma {:induction false} RunIsGood(t: Tables, ops: seq<Op>)
    requires Valid(t)
    ensures GoodStep(t, Run(t, ops))
  {
    if |ops| == 0 {
      GoodStepRefl(t);
    } else {
      var t' := Run(t, ops[..|ops| - 1]);
      RunIsGood(t, ops[..|ops| - 1]);
      StepIsGood(t', ops[|ops| - 1]);
      EvolvesTransitive(t, t', Run(t, ops));
      GoodStepFromParts(t, t', Run(t, ops));
    }
  }

  lemma GoodStepFromParts(t: Tables, t': Tables, t'': Tables)
    requires GoodStep(t, t') && GoodStep(t', t'') && Evolves(t, t'')
    ensures GoodStep(t, t'')
  {
  }

  /** A database some run can lead to. */
  ghost predicate Reachable(t: Tables) {
    exists start: Tables, ops: seq<Op> :: Initial(start) && t == Run(start, ops)
  }

  lemma ReachableIsValid(t: Tables)
    requires Reachable(t)
    ensures Valid(t)
  {
    var start: Tables, ops: seq<Op> :| Initial(start) && t == Run(start, ops);
    InitialIsValid(start);
    RunIsGood(start, ops);
  }

  // --- Money -----------------------------------------------------------------------------------------

  /** Conservation over every run, for the users of the start and for those registered on the way: a
      balance is the starting balance, if there was one, plus the signed sum of the user's ledger rows,
      and it always fits its column. */
  lemma BalanceIsLedger(start: Tables, ops: seq<Op>, u: int)
    requires Initial(start) && u in Run(start, ops).users
    ensures Run(start, ops).users[u].balance
            == (if u in start.users then start.users[u].balance else 0) + SignedSum(Run(start, ops).ledger, u)
    ensures 0 <= Run(start, ops).users[u].balance <= MAX_INT64
    ensures start.users.Keys <= Run(start, ops).users.Keys
  {
    InitialIsValid(start);
    RunIsGood(start, ops);
    assert SignedSum(start.ledger, u) == 0;
    assert Opening(Run(start, ops), u) == Opening(start, u);
  }

  ghost function Total(amounts: seq<int>): int {
    if |amounts| == 0 then 0 else Total(amounts[..|amounts| - 1]) + amounts[|amounts| - 1]
  }

  lemma TotalOfOne(condition: bool, amount: int)
    ensures Total(One(condition, amount)) == if condition then amount else 0
  {
    assert [amount][..0] == [];
    assert Total([]) == 0;
  }

  ghost function StillHeld(h: Option<Hold>): int {
    if h.Some? && h.value.status == Held then h.value.amount else 0
  }

  /** Every rental is charged at most once, by the webhook or by the wallet, exactly when its
      payment succeeded, and for its price plus its deposit. */
  lemma SingleCharge(t: Tables, r: int)
    requires Valid(t) && r in t.rentals
    ensures var b := BookOf(t.ledger, r);
            && |b.received| + |b.debited| == (if t.payments[r].status == Paid then 1 else 0)
            && Total(b.received) + Total(b.debited)
               == (if t.payments[r].status == Paid then t.rentals[r].price + t.rentals[r].deposit else 0)
            && t.payments[r].amount == t.rentals[r].price + t.rentals[r].deposit
  {
    RentalIsJoined(t, r);
    var p, amount := t.payments[r], t.rentals[r].price + t.rentals[r].deposit;
    TotalOfOne(p.status == Paid && p.provider == Internal, amount);
    TotalOfOne(p.status == Paid && p.provider == Balance, amount);
  }

  /** The sums the payment code computes without a guard never wrap: neither the charge nor the amount
      of a refund, which is never more than the charge. */
  lemma SumsNeverWrap(t: Tables, r: int)
    requires Valid(t) && r in t.rentals
    ensures WrapInt64(t.rentals[r].price + t.rentals[r].deposit) == t.payments[r].amount
    ensures WrapInt64(t.rentals[r].price + RefundableDeposit(t, r)) == t.rentals[r].price + RefundableDeposit(t, r)
            <= t.payments[r].amount
  {
    RentalIsJoined(t, r);
    WrapExact(t.rentals[r].price + t.rentals[r].deposit);
    WrapExact(t.rentals[r].price + RefundableDeposit(t, r));
  }

  /** A transaction id of the payment provider settles at most one payment, and is booked on the
      rental of that payment only. */
  lemma TransactionSettlesOnce(t: Tables, r: int, s: int, tx: string)
    requires Valid(t) && r in t.payments && s in t.payments
    requires SettledBy(t.payments[r], tx) && SettledBy(t.payments[s], tx)
    ensures r == s && t.payments[r].status == Paid
    ensures forall e :: e in t.ledger && e.key == WebhookKey(tx) ==> e.rental == Some(r)
  {
    RentalIsJoined(t, r);
    forall e | e in t.ledger && e.key == WebhookKey(tx)
      ensures e.rental == Some(r)
    {
      assert EntryOk(t, e);
      assert e.key.externalTx == tx;
      var s := e.rental.value;
      assert s in t.payments && SettledBy(t.payments[s], tx);
      assert t.payments[s].externalTx == Some(tx) == t.payments[r].externalTx;
    }
  }

  /** Conservation of deposits: what was taken into custody is exactly what was released, forfeited
      or refunded plus what is still held, and at most one of the four is not zero. */
  lemma DepositConservation(t: Tables, r: int)
    requires Valid(t) && r in t.rentals
    ensures var b := BookOf(t.ledger, r);
            var h := Lookup(t.holds, r);
            && Total(b.held) == Total(b.released) + Total(b.forfeited) + Total(b.depositRefund) + StillHeld(h)
            && |b.released| + |b.forfeited| + |b.depositRefund| + (if StillHeld(h) > 0 then 1 else 0) == |b.held| <= 1
            && Total(b.held) == (if t.payments[r].status == Paid then t.rentals[r].deposit else 0)
  {
    RentalIsJoined(t, r);
    var h, d := Lookup(t.holds, r), t.rentals[r].deposit;
    TotalOfOne(h.Some?, d);
    TotalOfOne(h.Some? && h.value.status == Released, d);
    TotalOfOne(h.Some? && h.value.status == Forfeited, d);
    TotalOfOne(h.Some? && h.value.status == Refunded, d);
  }

  /** The refund bound: whatever was released and refunded, in whatever order, a wallet payment never
      returns more than it took; it returns everything exactly when a refund completed and the
      deposit was not forfeited. */
  lemma RefundBound(t: Tables, r: int)
    requires Valid(t) && r in t.rentals && t.payments[r].status == Paid && t.payments[r].provider == Balance
    ensures var b := BookOf(t.ledger, r);
            var credited := Total(b.released) + Total(b.principal) + Total(b.depositRefund);
            && |b.debited| == 1
            && credited <= Total(b.debited)
            && (credited == Total(b.debited) <==> r in t.refunds && Total(b.forfeited) == 0)
  {
    RentalIsJoined(t, r);
    var h, d, price := Lookup(t.holds, r), t.rentals[r].deposit, t.rentals[r].price;
    TotalOfOne(h.Some? && h.value.status == Released, d);
    TotalOfOne(h.Some? && h.value.status == Forfeited, d);
    TotalOfOne(h.Some? && h.value.status == Refunded, d);
    TotalOfOne(r in t.refunds, price);
    TotalOfOne(true, price + d);
  }

  // --- Lifecycle ---------------------------------------------------------------------------------------

  /** Rental `r` is the only live rental of account `a`, and it has status `s`. */
  ghost predicate SoleLiveRental(t: Tables, a: int, r: int, s: RentalStatus) {
    && r in t.rentals && t.rentals[r].accountId == a && t.rentals[r].status == s
    && forall x :: x in t.rentals && t.rentals[x].accountId == a && IsLive(t.rentals[x].status) ==> x == r
  }

  /** Accounts and rentals agree: an account is reserved exactly when it has one waiting rental and
      no other live one, rented exactly when it has one active rental and no other live one, and in
      any other status exactly when it has no live rental. */
  lemma AccountsFollowRentals(t: Tables, a: int)
    requires Valid(t) && a in t.accounts
    ensures t.accounts[a].status == Reserved <==> exists r :: SoleLiveRental(t, a, r, WaitingPayment)
    ensures t.accounts[a].status == AccountStatus.Rented <==> exists r :: SoleLiveRental(t, a, r, Active)
    ensures IsBusy(t.accounts[a].status) <==> HasLiveRental(t.rentals, a)
  {
    IdleIsByStatus(t, a);
    if IsBusy(t.accounts[a].status) {
      var r :| r in t.rentals && t.rentals[r].accountId == a && IsLive(t.rentals[r].status);
      assert t.accounts[a].status == StatusFor(t.rentals[r].status);
      assert SoleLiveRental(t, a, r, t.rentals[r].status);
    }
    if r :| SoleLiveRental(t, a, r, WaitingPayment) {
      assert IsLive(t.rentals[r].status);
    }
    if r :| SoleLiveRental(t, a, r, Active) {
      assert IsLive(t.rentals[r].status);
    }
  }

  /** Payment and rental status always form one of six pairs, and a deposit is in custody exactly
      while a paid rental with a deposit is active or under review. */
  lemma LifecyclePairs(t: Tables, r: int)
    requires Valid(t) && r in t.rentals
    ensures (t.payments[r].status, t.rentals[r].status)
            in {(Pending, WaitingPayment), (Paid, Active), (Paid, Expired), (Paid, Completed), (Failed, Expired), (Failed, Cancelled)}
    ensures r in t.holds <==> t.payments[r].status == Paid && t.rentals[r].deposit > 0
    ensures r in t.holds ==> (t.holds[r].status == Held <==> t.rentals[r].status == Active || t.rentals[r].status == Expired)
  {
    RentalIsJoined(t, r);
  }

  lemma SettledStays(t: Tables, later: seq<Op>, r: int, end: Tables)
    requires Valid(t) && r in t.rentals && r in t.holds && t.holds[r].status != Held && t.rentals[r].status == Completed
    requires end == Run(t, later)
    ensures r in end.holds && end.holds[r] == t.holds[r] && r in end.rentals && end.rentals[r] == t.rentals[r]
  {
    RentalIsJoined(t, r);
    RunIsGood(t, later);
    assert DossierEvolves(View(t, r), View(end, r));
  }

  /** A deposit leaves custody at most once in a run: in the very step that completes its rental,
      and neither the hold nor the rental ever changes again. */
  lemma DepositSettledOnce(t: Tables, op: Op, later: seq<Op>, r: int)
    requires Valid(t) && r in t.rentals && r in t.holds && t.holds[r].status == Held
    ensures var t' := Apply(t, op);
            && r in t'.rentals && r in t'.holds && t'.holds[r].amount == t.holds[r].amount
            && (t'.holds[r].status != Held ==>
                  && t.rentals[r].status != Completed && t'.rentals[r].status == Completed
                  && var end := Run(t', later);
                     r in end.holds && end.holds[r] == t'.holds[r]
                     && r in end.rentals && end.rentals[r] == t'.rentals[r])
  {
    var t' := Apply(t, op);
    RentalIsJoined(t, r);
    StepIsGood(t, op);
    assert DossierEvolves(View(t, r), View(t', r));
    RentalIsJoined(t', r);
    if t'.holds[r].status != Held {
      SettledStays(t', later, r, Run(t', later));
    }
  }
}
