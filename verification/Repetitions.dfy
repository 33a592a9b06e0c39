/** Requests that are made again, at any later time: the answer is that of the first time, whatever has
    happened in between. */
module Repetitions {
  import opened Common
  import opened LedgerKeys
  import opened Tables
  import opened Operations
  import opened Invariant
  import opened Steps
  import opened Runs
  import opened Acceptance
  import Payments = PaymentAnswers
  import opened SettlementAnswers

  // --- Deposits -----------------------------------------------------------------------------------------

  /** A deposit that has been settled stays as it is in every run, and so does its rental. */
  lemma SettlementStays(t: Tables, ops: seq<Op>, rid: int, later: Tables)
    requires Valid(t) && rid in t.rentals && rid in t.holds && t.holds[rid].status != Held && later == Run(t, ops)
    ensures Valid(later) && rid in later.rentals && rid in later.holds
    ensures later.holds[rid] == t.holds[rid] && later.rentals[rid] == t.rentals[rid]
  {
    IsKnown(t, rid);
    RunIsGood(t, ops);
    SettledStays(t, ops, rid, later);
  }

  /** Once a deposit is settled, a release is answered with what was done then if an administrator
      released it, and refused if anything else became of it. */
  lemma ReleaseAfterwards(t: Tables, ops: seq<Op>, actor: int, role: string, rid: int, now: int, later: Tables)
    requires Valid(t) && rid in t.rentals && rid in t.holds && t.holds[rid].status != Held && later == Run(t, ops)
    requires Authorised(later, actor, role)
    ensures ReleaseDeposit(later, actor, role, rid, now)
            == Outcome(later, if WasReleased(t, rid)
                              then Ok(SettlementResult(false, true, Released, t.holds[rid].settledAt, t.rentals[rid].completedAt))
                              else Err(DepositAlreadySettled))
  {
    SettlementStays(t, ops, rid, later);
    ReleaseExactly(later, actor, role, rid, now);
  }

  /** A release made again, by any administrator, is answered with the times of the first. */
  lemma ReleaseRepeated(t: Tables, actor: int, role: string, rid: int, now: int, between: seq<Op>,
                        actor': int, role': string, now': int, later: Tables)
    requires Valid(t) && MayRelease(t, actor, role, rid)
    requires later == Run(ReleaseDeposit(t, actor, role, rid, now).tables, between) && Authorised(later, actor', role')
    ensures ReleaseDeposit(later, actor', role', rid, now')
            == Outcome(later, Ok(SettlementResult(false, true, Released, Some(now), Some(now))))
  {
    var first := ReleaseDeposit(t, actor, role, rid, now).tables;
    ReleaseEffect(t, actor, role, rid, now);
    ReleaseIsGood(t, actor, role, rid, now);
    ReleaseAfterwards(first, between, actor', role', rid, now', later);
  }

  /** The same for a forfeit: only the very same reason and evidence repeat it. */
  lemma ForfeitAfterwards(t: Tables, ops: seq<Op>, actor: int, role: string, rid: int, reason: string, evidence: string, now: int, later: Tables)
    requires Valid(t) && rid in t.rentals && rid in t.holds && t.holds[rid].status != Held && later == Run(t, ops)
    requires Authorised(later, actor, role) && Substantiated(reason, evidence)
    ensures ForfeitDeposit(later, actor, role, rid, reason, evidence, now)
            == Outcome(later, if WasForfeited(t, rid, reason, evidence)
                              then Ok(SettlementResult(false, true, Forfeited, t.holds[rid].settledAt, t.rentals[rid].completedAt))
                              else Err(DepositAlreadySettled))
  {
    SettlementStays(t, ops, rid, later);
    ForfeitExactly(later, actor, role, rid, reason, evidence, now);
    ForfeitRefusals(later, actor, role, rid, reason, evidence, now);
  }

  lemma ForfeitRepeated(t: Tables, actor: int, role: string, rid: int, reason: string, evidence: string, now: int, between: seq<Op>,
                        actor': int, role': string, now': int, later: Tables)
    requires Valid(t) && MayForfeit(t, actor, role, rid, reason, evidence, now)
    requires later == Run(ForfeitDeposit(t, actor, role, rid, reason, evidence, now).tables, between) && Authorised(later, actor', role')
    ensures ForfeitDeposit(later, actor', role', rid, reason, evidence, now')
            == Outcome(later, Ok(SettlementResult(false, true, Forfeited, Some(now), Some(now))))
  {
    var first := ForfeitDeposit(t, actor, role, rid, reason, evidence, now).tables;
    ForfeitEffect(t, actor, role, rid, reason, evidence, now);
    ForfeitIsGood(t, actor, role, rid, reason, evidence, now);
    ForfeitAfterwards(first, between, actor', role', rid, reason, evidence, now', later);
  }

  // --- Refunds ------------------------------------------------------------------------------------------

  lemma RefundStays(t: Tables, ops: seq<Op>, rid: int, later: Tables)
    requires Valid(t) && rid in t.rentals && rid in t.refunds && later == Run(t, ops)
    ensures Valid(later) && rid in later.rentals && rid in later.refunds && later.refunds[rid] == t.refunds[rid]
    ensures DepositAfter(later, rid) == DepositAfter(t, rid)
  {
    IsKnown(t, rid);
    RunIsGood(t, ops);
    assert DossierEvolves(View(t, rid), View(later, rid));
    IsKnown(later, rid);
  }

  lemma RefundAfterwards(t: Tables, ops: seq<Op>, actor: int, role: string, rid: int, reason: string, now: int, later: Tables)
    requires Valid(t) && rid in t.rentals && rid in t.refunds && later == Run(t, ops)
    requires Authorised(later, actor, role) && RefundReason(reason)
    ensures var f := t.refunds[rid];
            RefundWalletPayment(later, actor, role, rid, reason, now)
            == Outcome(later, Ok(RefundResult(false, true, f.principal, f.deposit, f.total, DepositAfter(t, rid))))
  {
    RefundStays(t, ops, rid, later);
    RefundExactly(later, actor, role, rid, reason, now);
  }

  /** What a first refund answers is what it leaves behind. */
  lemma RefundLeaves(t: Tables, actor: int, role: string, rid: int, reason: string, now: int, first: RefundResult, t1: Tables)
    requires Valid(t) && MayRefund(t, actor, role, rid, reason)
    requires RefundWalletPayment(t, actor, role, rid, reason, now) == Outcome(t1, Ok(first))
    ensures Valid(t1) && rid in t1.rentals && rid in t1.refunds
    ensures var f := t1.refunds[rid];
            first == RefundResult(true, false, f.principal, f.deposit, f.total, DepositAfter(t1, rid))
  {
    IsKnown(t, rid);
    RefundEffect(t, actor, role, rid, reason, now);
    RefundIsGood(t, actor, role, rid, reason, now);
  }

  /** A refund made again, by any administrator and for any allowed reason, is answered with the amounts
      and the deposit status of the first. */
  lemma RefundRepeated(t: Tables, actor: int, role: string, rid: int, reason: string, now: int, between: seq<Op>,
                       actor': int, role': string, reason': string, now': int, first: RefundResult, t1: Tables, later: Tables)
    requires Valid(t) && MayRefund(t, actor, role, rid, reason)
    requires RefundWalletPayment(t, actor, role, rid, reason, now) == Outcome(t1, Ok(first)) && later == Run(t1, between)
    requires Authorised(later, actor', role') && RefundReason(reason')
    ensures RefundWalletPayment(later, actor', role', rid, reason', now')
            == Outcome(later, Ok(first.(changed := false, idempotent := true)))
  {
    RefundLeaves(t, actor, role, rid, reason, now, first, t1);
    RefundAfterwards(t1, between, actor', role', rid, reason', now', later);
  }

  // --- Payments -----------------------------------------------------------------------------------------

  lemma PaymentStays(t: Tables, ops: seq<Op>, rid: int, later: Tables)
    requires Valid(t) && rid in t.rentals && t.payments[rid].status == Paid && later == Run(t, ops)
    ensures Valid(later) && rid in later.rentals && rid in later.payments && later.payments[rid] == t.payments[rid]
    ensures later.rentals[rid].userId == t.rentals[rid].userId && later.rentals[rid].accountId == t.rentals[rid].accountId
  {
    IsKnown(t, rid);
    RunIsGood(t, ops);
    assert DossierEvolves(View(t, rid), View(later, rid));
  }

  /** A webhook delivered again is answered as the first time, but as a repetition, as long as its rental
      is active, and refused afterwards. */
  lemma WebhookRepeated(t: Tables, req: WebhookRequest, dbNow: int, between: seq<Op>, dbNow': int, later: Tables)
    requires Valid(t) && Payments.MaySettle(t, req, dbNow)
    requires later == Run(ProcessWebhook(t, req, dbNow).tables, between)
    ensures var first := ProcessWebhook(t, req, dbNow).result;
            && first.Ok? && req.rentalId in later.rentals
            && ProcessWebhook(later, req, dbNow')
               == Outcome(later, if later.rentals[req.rentalId].status == Active then Ok(first.value.(idempotent := true))
                                 else Err(WebhookInvalidTransition))
  {
    var first, rid := ProcessWebhook(t, req, dbNow).tables, req.rentalId;
    Payments.WebhookExactly(t, req, dbNow);
    Payments.WebhookEffect(t, req, dbNow);
    WebhookIsGood(t, req, dbNow);
    PaymentStays(first, between, rid, later);
    assert Payments.Concerns(later, req, rid);
    Payments.WebhookRefusals(later, req, dbNow', rid);
    Payments.WebhookExactly(later, req, dbNow');
    Payments.WebhookDeclines(later, req, dbNow');
  }

  /** So is a payment from the balance. */
  lemma PayRepeated(t: Tables, uid: int, rid: int, now: int, dbNow: int, between: seq<Op>, now': int, dbNow': int, later: Tables)
    requires Valid(t) && Payments.MayPay(t, uid, rid, now, dbNow)
    requires later == Run(PayRentalWithBalance(t, uid, rid, now, dbNow).tables, between)
    ensures var first := PayRentalWithBalance(t, uid, rid, now, dbNow).result;
            && first.Ok? && rid in later.rentals
            && PayRentalWithBalance(later, uid, rid, now', dbNow')
               == Outcome(later, if later.rentals[rid].status == Active then Ok(first.value.(changed := false, idempotent := true))
                                 else Err(WalletPaymentNotAllowed))
  {
    var first := PayRentalWithBalance(t, uid, rid, now, dbNow).tables;
    Payments.PayExactly(t, uid, rid, now, dbNow);
    Payments.PayEffect(t, uid, rid, now, dbNow);
    PayIsGood(t, uid, rid, now, dbNow);
    PaymentStays(first, between, rid, later);
    Payments.PayExactly(later, uid, rid, now', dbNow');
  }
}
