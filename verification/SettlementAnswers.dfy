/** Which settlements of a deposit and which refunds are accepted, what they change and how the others are
    answered; and what the finalizer completes. */
module SettlementAnswers {
  import opened Common
  import opened LedgerKeys
  import opened Tables
  import opened Ordering
  import opened Operations
  import opened Invariant
  import opened Steps
  import opened Acceptance

  predicate HasStatus(t: Tables, rid: int, status: RentalStatus) {
    rid in t.rentals && t.rentals[rid].status == status
  }

  /** The rental is completed by `actor`, or by the scheduler, at `now`, and with it something that was
      just logged. */
  function Completing(t: Tables, rid: int, event: int, audit: Audit, actor: Option<int>, now: int): Tables
    requires rid in t.rentals
  {
    var r := t.rentals[rid];
    t.(rentals := t.rentals[rid := r.(status := Completed, completedAt := Some(now))],
       events := t.events + [Event(None, event, r.userId, Some(r.accountId), Some(rid), true),
                             Event(None, EVENT_RENTAL_COMPLETED, r.userId, Some(r.accountId), Some(rid), true)],
       audits := t.audits + [audit, Audit(actor, "rental", rid, "rental_complete")])
  }

  function Credited(t: Tables, uid: int, amount: int): map<int, User>
    requires uid in t.users
  {
    t.users[uid := t.users[uid].(balance := t.users[uid].balance + amount)]
  }

  // --- Releasing ----------------------------------------------------------------------------------------

  ghost predicate MayRelease(t: Tables, actor: int, role: string, rid: int) {
    && Authorised(t, actor, role)
    && HasStatus(t, rid, Expired) && IsHold(t, rid, Held) && HasRoom(t, rid, t.rentals[rid].deposit)
  }

  /** An administrator, not the scheduler, has released the deposit. */
  predicate WasReleased(t: Tables, rid: int) {
    IsHold(t, rid, Released) && t.holds[rid].source == Some(AdminRelease)
  }

  lemma ReleaseExactlyOf(t: Tables, actor: int, role: string, rid: int, now: int)
    requires Known(t, rid)
    ensures var o := ReleaseDeposit(t, actor, role, rid, now);
            var admin := Authorised(t, actor, role);
            && (o.result.Ok? && o.result.value.changed <==> MayRelease(t, actor, role, rid))
            && (o.result.Ok? && !o.result.value.changed <==> admin && rid in t.rentals && WasReleased(t, rid))
            && (o.result.Ok? && !o.result.value.changed ==>
                  o.result.value == SettlementResult(false, true, Released, t.holds[rid].settledAt, t.rentals[rid].completedAt))
            && (o.result == Err(AdminRequired) <==> !admin)
            && (o.result == Err(DepositHoldNotFound) <==> admin && rid !in t.rentals)
            && (o.result == Err(DepositAlreadySettled)
                <==> admin && rid in t.rentals && rid in t.holds && t.holds[rid].status != Held && !WasReleased(t, rid))
            && (o.result == Err(DepositSettlementNotAllowed)
                <==> admin && rid in t.rentals && (rid !in t.holds || (IsHold(t, rid, Held) && !HasStatus(t, rid, Expired))))
            && (o.result == Err(BalanceOutOfRange)
                <==> admin && HasStatus(t, rid, Expired) && IsHold(t, rid, Held) && !HasRoom(t, rid, t.rentals[rid].deposit))
            && (!MayRelease(t, actor, role, rid) ==> o.tables == t)
  {
    if HasStatus(t, rid, Expired) && IsHold(t, rid, Held) {
      PaidOut(t, rid, AdminRelease, Some(actor), ReleaseKey(rid), "deposit_release", Some(actor), now);
    }
  }

  /** Exactly when a deposit is released, when the release is answered as a repetition, and why it is
      refused. */
  lemma ReleaseExactly(t: Tables, actor: int, role: string, rid: int, now: int)
    requires Valid(t)
    ensures var o := ReleaseDeposit(t, actor, role, rid, now);
            var admin := Authorised(t, actor, role);
            && (o.result.Ok? && o.result.value.changed <==> MayRelease(t, actor, role, rid))
            && (o.result.Ok? && !o.result.value.changed <==> admin && rid in t.rentals && WasReleased(t, rid))
            && (o.result.Ok? && !o.result.value.changed ==>
                  o.result.value == SettlementResult(false, true, Released, t.holds[rid].settledAt, t.rentals[rid].completedAt))
            && (o.result == Err(AdminRequired) <==> !admin)
            && (o.result == Err(DepositHoldNotFound) <==> admin && rid !in t.rentals)
            && (o.result == Err(DepositAlreadySettled)
                <==> admin && rid in t.rentals && rid in t.holds && t.holds[rid].status != Held && !WasReleased(t, rid))
            && (o.result == Err(DepositSettlementNotAllowed)
                <==> admin && rid in t.rentals && (rid !in t.holds || (IsHold(t, rid, Held) && !HasStatus(t, rid, Expired))))
            && (o.result == Err(BalanceOutOfRange)
                <==> admin && HasStatus(t, rid, Expired) && IsHold(t, rid, Held) && !HasRoom(t, rid, t.rentals[rid].deposit))
            && (!MayRelease(t, actor, role, rid) ==> o.tables == t)
  {
    if rid in t.rentals {
      IsKnown(t, rid);
      ReleaseExactlyOf(t, actor, role, rid, now);
    }
  }

  /** A release returns the deposit to the user and completes the rental. */
  lemma ReleaseEffect(t: Tables, actor: int, role: string, rid: int, now: int)
    requires Valid(t) && MayRelease(t, actor, role, rid)
    ensures var r, h := t.rentals[rid], t.holds[rid];
            ReleaseDeposit(t, actor, role, rid, now) == Outcome(
              Completing(t, rid, EVENT_DEPOSIT_RELEASED, Audit(Some(actor), "deposit_hold", rid, "deposit_release"), Some(actor), now).(
                users := Credited(t, r.userId, r.deposit),
                holds := t.holds[rid := Hold(r.userId, h.paymentId, r.deposit, USD, Released, Some(AdminRelease), Some(actor), "", "", Some(now))],
                ledger := t.ledger + [Entry(DepositReleasedToBalance, r.userId, Some(rid), r.deposit, USD, ReleaseKey(rid), None)]),
              Ok(SettlementResult(true, false, Released, Some(now), Some(now))))
  {
    IsKnown(t, rid);
    PaidOut(t, rid, AdminRelease, Some(actor), ReleaseKey(rid), "deposit_release", Some(actor), now);
  }

  /** A held deposit of an expired rental is paid out and the rental completed. */
  lemma PaidOut(t: Tables, rid: int, source: SettlementSource, settler: Option<int>, key: LedgerKey, action: string, actor: Option<int>, now: int)
    requires Known(t, rid) && HasStatus(t, rid, Expired) && IsHold(t, rid, Held)
    ensures var r, h := t.rentals[rid], t.holds[rid];
            CompleteRental(ReleaseHold(t, rid, source, settler, key, action, now), rid, actor, now) == Outcome(
              Completing(t, rid, EVENT_DEPOSIT_RELEASED, Audit(settler, "deposit_hold", rid, action), actor, now).(
                users := Credited(t, r.userId, r.deposit),
                holds := t.holds[rid := Hold(r.userId, h.paymentId, r.deposit, USD, HoldStatus.Released, Some(source), settler, "", "", Some(now))],
                ledger := t.ledger + [Entry(DepositReleasedToBalance, r.userId, Some(rid), r.deposit, USD, key, None)]),
              Ok(Some(now)))
  {
    assert Completable(ReleaseHold(t, rid, source, settler, key, action, now), rid);
  }

  // --- Forfeiting ---------------------------------------------------------------------------------------

  predicate ForfeitReason(reason: string) {
    || reason == "ACCOUNT_SECURITY_VIOLATION" || reason == "ADMIN_CORRECTION" || reason == "CREDENTIAL_MISUSE"
    || reason == "DAMAGE_CONFIRMED" || reason == "USER_CAUSED_GAME_BAN"
  }

  /** The request names an allowed reason and a security event. */
  predicate Substantiated(reason: string, evidence: string) {
    ForfeitReason(reason) && ParseEvidence(evidence).Some?
  }

  /** The event is on record, as an incident of this rental, its user and its account. */
  ghost predicate OnRecord(t: Tables, rid: int, eventId: int)
    requires rid in t.rentals
  {
    var r := t.rentals[rid];
    || Event(Some(eventId), EVENT_SUSPICIOUS_ACTIVITY, r.userId, Some(r.accountId), Some(rid), true) in t.events
    || Event(Some(eventId), EVENT_SECURITY_INCIDENT, r.userId, Some(r.accountId), Some(rid), true) in t.events
  }

  lemma EvidenceOnRecord(t: Tables, rid: int, eventId: int)
    requires rid in t.rentals
    ensures EvidenceVerified(t.events, t.rentals[rid], rid, eventId) <==> OnRecord(t, rid, eventId)
  {
    var r := t.rentals[rid];
    if EvidenceVerified(t.events, r, rid, eventId) {
      var i :| 0 <= i < |t.events| && IsEvidence(t.events[i], r, rid, eventId);
      assert t.events[i] in t.events;
    }
    if OnRecord(t, rid, eventId) {
      var i :| 0 <= i < |t.events| && t.events[i].id == Some(eventId) && t.events[i].rental == Some(rid) && t.events[i].userId == r.userId
               && t.events[i].accountId == Some(r.accountId) && t.events[i].success
               && (t.events[i].eventType == EVENT_SUSPICIOUS_ACTIVITY || t.events[i].eventType == EVENT_SECURITY_INCIDENT);
      assert IsEvidence(t.events[i], r, rid, eventId);
    }
  }

  /** The end of the review. */
  function Deadline(t: Tables, rid: int): int
    requires rid in t.rentals
  {
    t.rentals[rid].endAt + 24 * HOUR
  }

  ghost predicate MayForfeit(t: Tables, actor: int, role: string, rid: int, reason: string, evidence: string, now: int) {
    && Authorised(t, actor, role) && Substantiated(reason, evidence)
    && HasStatus(t, rid, Expired) && IsHold(t, rid, Held) && now < Deadline(t, rid)
    && OnRecord(t, rid, ParseEvidence(evidence).value)
  }

  /** The deposit was forfeited for this reason and on this evidence. */
  predicate WasForfeited(t: Tables, rid: int, reason: string, evidence: string) {
    IsHold(t, rid, Forfeited) && t.holds[rid].reason == reason && t.holds[rid].evidence == evidence
  }

  lemma ForfeitGate(t: Tables, actor: int, role: string, rid: int, reason: string, evidence: string, now: int)
    requires Known(t, rid) && Authorised(t, actor, role) && Substantiated(reason, evidence)
    ensures ForfeitDeposit(t, actor, role, rid, reason, evidence, now)
            == if rid !in t.holds then Outcome(t, Err(DepositSettlementNotAllowed))
               else ForfeitOnce(t, actor, rid, reason, evidence, ParseEvidence(evidence).value, now)
  {
  }

  lemma ForfeitGateShut(t: Tables, actor: int, role: string, rid: int, reason: string, evidence: string, now: int)
    requires !(Authorised(t, actor, role) && Substantiated(reason, evidence))
    ensures ForfeitDeposit(t, actor, role, rid, reason, evidence, now)
            == Outcome(t, Err(if role != "ADMIN" then AdminRequired
                              else if !ForfeitReason(reason) then InvalidReasonCode
                              else if ParseEvidence(evidence).None? then InvalidEvidenceReference
                              else AdminRequired))
  {
  }

  lemma ForfeitOnceAnswers(t: Tables, actor: int, rid: int, reason: string, evidence: string, eventId: int, now: int)
    requires Known(t, rid) && rid in t.holds
    ensures var o := ForfeitOnce(t, actor, rid, reason, evidence, eventId, now);
            var r, h := t.rentals[rid], t.holds[rid];
            if h.status == Held then
              if r.status != Expired then o == Outcome(t, Err(DepositSettlementNotAllowed))
              else if Deadline(t, rid) <= now then o == Outcome(t, Err(DepositReviewDeadlinePassed))
              else if !OnRecord(t, rid, eventId) then o == Outcome(t, Err(InvalidEvidenceReference))
              else o.result == Ok(SettlementResult(true, false, Forfeited, Some(now), Some(now)))
            else if WasForfeited(t, rid, reason, evidence) then
              o == Outcome(t, Ok(SettlementResult(false, true, Forfeited, h.settledAt, r.completedAt)))
            else o == Outcome(t, Err(DepositAlreadySettled))
  {
    EvidenceOnRecord(t, rid, eventId);
    if HasStatus(t, rid, Expired) && IsHold(t, rid, Held) {
      Seized(t, rid, actor, reason, evidence, now);
    }
  }

  lemma ForfeitExactlyOf(t: Tables, actor: int, role: string, rid: int, reason: string, evidence: string, now: int)
    requires Known(t, rid)
    ensures var o := ForfeitDeposit(t, actor, role, rid, reason, evidence, now);
            var admin := Authorised(t, actor, role) && Substantiated(reason, evidence);
            && (o.result.Ok? && o.result.value.changed <==> MayForfeit(t, actor, role, rid, reason, evidence, now))
            && (o.result.Ok? && !o.result.value.changed <==> admin && rid in t.rentals && WasForfeited(t, rid, reason, evidence))
            && (o.result.Ok? && !o.result.value.changed ==>
                  o.result.value == SettlementResult(false, true, Forfeited, t.holds[rid].settledAt, t.rentals[rid].completedAt))
            && (!MayForfeit(t, actor, role, rid, reason, evidence, now) ==> o.tables == t)
  {
    if Authorised(t, actor, role) && Substantiated(reason, evidence) {
      ForfeitGate(t, actor, role, rid, reason, evidence, now);
      if rid in t.holds {
        ForfeitOnceAnswers(t, actor, rid, reason, evidence, ParseEvidence(evidence).value, now);
      }
    } else {
      ForfeitGateShut(t, actor, role, rid, reason, evidence, now);
    }
  }

  /** Exactly when a deposit is forfeited, when the forfeit is answered as a repetition, and why it is
      refused. */
  lemma ForfeitExactly(t: Tables, actor: int, role: string, rid: int, reason: string, evidence: string, now: int)
    requires Valid(t)
    ensures var o := ForfeitDeposit(t, actor, role, rid, reason, evidence, now);
            var admin := Authorised(t, actor, role) && Substantiated(reason, evidence);
            && (o.result.Ok? && o.result.value.changed <==> MayForfeit(t, actor, role, rid, reason, evidence, now))
            && (o.result.Ok? && !o.result.value.changed <==> admin && rid in t.rentals && WasForfeited(t, rid, reason, evidence))
            && (o.result.Ok? && !o.result.value.changed ==>
                  o.result.value == SettlementResult(false, true, Forfeited, t.holds[rid].settledAt, t.rentals[rid].completedAt))
            && (!MayForfeit(t, actor, role, rid, reason, evidence, now) ==> o.tables == t)
  {
    if rid in t.rentals {
      IsKnown(t, rid);
      ForfeitExactlyOf(t, actor, role, rid, reason, evidence, now);
    }
  }

  lemma ForfeitRefusalsOf(t: Tables, actor: int, role: string, rid: int, reason: string, evidence: string, now: int)
    requires Known(t, rid)
    ensures var e := ForfeitDeposit(t, actor, role, rid, reason, evidence, now).result;
            var admin := Authorised(t, actor, role) && Substantiated(reason, evidence);
            var held := admin && HasStatus(t, rid, Expired) && IsHold(t, rid, Held);
            && (e == Err(AdminRequired) <==> role != "ADMIN" || (Substantiated(reason, evidence) && !Administers(t, actor)))
            && (e == Err(InvalidReasonCode) <==> role == "ADMIN" && !ForfeitReason(reason))
            && (e == Err(InvalidEvidenceReference)
                <==> (role == "ADMIN" && ForfeitReason(reason) && ParseEvidence(evidence).None?)
                     || (held && now < Deadline(t, rid) && !OnRecord(t, rid, ParseEvidence(evidence).value)))
            && (e == Err(DepositHoldNotFound) <==> admin && rid !in t.rentals)
            && (e == Err(DepositAlreadySettled)
                <==> admin && rid in t.rentals && rid in t.holds && t.holds[rid].status != Held && !WasForfeited(t, rid, reason, evidence))
            && (e == Err(DepositSettlementNotAllowed)
                <==> admin && rid in t.rentals && (rid !in t.holds || (IsHold(t, rid, Held) && !HasStatus(t, rid, Expired))))
            && (e == Err(DepositReviewDeadlinePassed) <==> held && Deadline(t, rid) <= now)
  {
    if Authorised(t, actor, role) && Substantiated(reason, evidence) {
      ForfeitGate(t, actor, role, rid, reason, evidence, now);
      if rid in t.holds {
        ForfeitOnceAnswers(t, actor, rid, reason, evidence, ParseEvidence(evidence).value, now);
      }
    } else {
      ForfeitGateShut(t, actor, role, rid, reason, evidence, now);
    }
  }

  lemma ForfeitRefusals(t: Tables, actor: int, role: string, rid: int, reason: string, evidence: string, now: int)
    requires Valid(t)
    ensures var e := ForfeitDeposit(t, actor, role, rid, reason, evidence, now).result;
            var admin := Authorised(t, actor, role) && Substantiated(reason, evidence);
            var held := admin && HasStatus(t, rid, Expired) && IsHold(t, rid, Held);
            && (e == Err(AdminRequired) <==> role != "ADMIN" || (Substantiated(reason, evidence) && !Administers(t, actor)))
            && (e == Err(InvalidReasonCode) <==> role == "ADMIN" && !ForfeitReason(reason))
            && (e == Err(InvalidEvidenceReference)
                <==> (role == "ADMIN" && ForfeitReason(reason) && ParseEvidence(evidence).None?)
                     || (held && now < Deadline(t, rid) && !OnRecord(t, rid, ParseEvidence(evidence).value)))
            && (e == Err(DepositHoldNotFound) <==> admin && rid !in t.rentals)
            && (e == Err(DepositAlreadySettled)
                <==> admin && rid in t.rentals && rid in t.holds && t.holds[rid].status != Held && !WasForfeited(t, rid, reason, evidence))
            && (e == Err(DepositSettlementNotAllowed)
                <==> admin && rid in t.rentals && (rid !in t.holds || (IsHold(t, rid, Held) && !HasStatus(t, rid, Expired))))
            && (e == Err(DepositReviewDeadlinePassed) <==> held && Deadline(t, rid) <= now)
  {
    if rid in t.rentals {
      IsKnown(t, rid);
      ForfeitRefusalsOf(t, actor, role, rid, reason, evidence, now);
    }
  }

  /** A forfeit moves no balance, books the loss and completes the rental. */
  lemma ForfeitEffect(t: Tables, actor: int, role: string, rid: int, reason: string, evidence: string, now: int)
    requires Valid(t) && MayForfeit(t, actor, role, rid, reason, evidence, now)
    ensures var r, h := t.rentals[rid], t.holds[rid];
            ForfeitDeposit(t, actor, role, rid, reason, evidence, now) == Outcome(
              Completing(t, rid, EVENT_DEPOSIT_FORFEITED, Audit(Some(actor), "deposit_hold", rid, "deposit_forfeit"), Some(actor), now).(
                holds := t.holds[rid := Hold(r.userId, h.paymentId, r.deposit, USD, Forfeited, Some(AdminForfeit), Some(actor), reason, evidence, Some(now))],
                ledger := t.ledger + [Entry(DepositForfeited, r.userId, Some(rid), r.deposit, USD, ForfeitKey(rid), None)]),
              Ok(SettlementResult(true, false, Forfeited, Some(now), Some(now))))
  {
    IsKnown(t, rid);
    EvidenceOnRecord(t, rid, ParseEvidence(evidence).value);
    Seized(t, rid, actor, reason, evidence, now);
  }

  lemma Seized(t: Tables, rid: int, actor: int, reason: string, evidence: string, now: int)
    requires Known(t, rid) && HasStatus(t, rid, Expired) && IsHold(t, rid, Held)
    ensures var r, h := t.rentals[rid], t.holds[rid];
            CompleteRental(ForfeitHold(t, rid, actor, reason, evidence, now), rid, Some(actor), now) == Outcome(
              Completing(t, rid, EVENT_DEPOSIT_FORFEITED, Audit(Some(actor), "deposit_hold", rid, "deposit_forfeit"), Some(actor), now).(
                holds := t.holds[rid := Hold(r.userId, h.paymentId, r.deposit, USD, Forfeited, Some(AdminForfeit), Some(actor), reason, evidence, Some(now))],
                ledger := t.ledger + [Entry(DepositForfeited, r.userId, Some(rid), r.deposit, USD, ForfeitKey(rid), None)]),
              Ok(Some(now)))
  {
    assert Completable(ForfeitHold(t, rid, actor, reason, evidence, now), rid);
  }

  // --- Refunding ----------------------------------------------------------------------------------------

  predicate RefundReason(reason: string) {
    reason == "SERVICE_UNAVAILABLE" || reason == "ACCOUNT_INVALID" || reason == "ADMIN_CORRECTION"
  }

  /** The rental is over, and the balance paid for it. */
  predicate OverAndPaid(t: Tables, rid: int) {
    && rid in t.rentals && (t.rentals[rid].status == Expired || t.rentals[rid].status == Completed)
    && rid in t.payments && t.payments[rid].status == Paid && t.payments[rid].provider == Balance
  }

  /** A refund returns a deposit that is still held, and none that has been settled. */
  function ReturnedDeposit(t: Tables, rid: int): int
    requires rid in t.rentals
  {
    if IsHold(t, rid, Held) then t.rentals[rid].deposit else 0
  }

  predicate MayRefund(t: Tables, actor: int, role: string, rid: int, reason: string) {
    && Authorised(t, actor, role) && RefundReason(reason)
    && OverAndPaid(t, rid) && rid !in t.refunds
    && HasRoom(t, rid, t.rentals[rid].price + ReturnedDeposit(t, rid))
  }

  /** What becomes of the deposit, for the answer. */
  function DepositAfter(t: Tables, rid: int): Option<HoldStatus> {
    if rid !in t.holds then None else if t.holds[rid].status == Held then Some(Refunded) else Some(t.holds[rid].status)
  }

  lemma RefundExactlyOf(t: Tables, actor: int, role: string, rid: int, reason: string, now: int)
    requires Known(t, rid)
    ensures var o := RefundWalletPayment(t, actor, role, rid, reason, now);
            var admin := Authorised(t, actor, role) && RefundReason(reason);
            && (o.result.Ok? && o.result.value.changed <==> MayRefund(t, actor, role, rid, reason))
            && (o.result.Ok? && !o.result.value.changed <==> admin && rid in t.rentals && rid in t.refunds)
            && (o.result.Ok? && !o.result.value.changed ==>
                  var f := t.refunds[rid];
                  && o.result.value == RefundResult(false, true, f.principal, f.deposit, f.total, DepositAfter(t, rid))
                  && f.principal == t.rentals[rid].price && f.total == f.principal + f.deposit
                  && f.deposit == (if IsHold(t, rid, Refunded) then t.rentals[rid].deposit else 0))
            && (!MayRefund(t, actor, role, rid, reason) ==> o.tables == t)
  {
    if OverAndPaid(t, rid) && rid !in t.refunds {
      Returned(t, rid, actor, reason, now);
    }
  }

  /** Exactly when a refund is made, when it is answered as a repetition, with the amounts of the refund
      that was made, and why it is refused. */
  lemma RefundExactly(t: Tables, actor: int, role: string, rid: int, reason: string, now: int)
    requires Valid(t)
    ensures var o := RefundWalletPayment(t, actor, role, rid, reason, now);
            var admin := Authorised(t, actor, role) && RefundReason(reason);
            && (o.result.Ok? && o.result.value.changed <==> MayRefund(t, actor, role, rid, reason))
            && (o.result.Ok? && !o.result.value.changed <==> admin && rid in t.rentals && rid in t.refunds)
            && (o.result.Ok? && !o.result.value.changed ==>
                  var f := t.refunds[rid];
                  && o.result.value == RefundResult(false, true, f.principal, f.deposit, f.total, DepositAfter(t, rid))
                  && f.principal == t.rentals[rid].price && f.total == f.principal + f.deposit
                  && f.deposit == (if IsHold(t, rid, Refunded) then t.rentals[rid].deposit else 0))
            && (!MayRefund(t, actor, role, rid, reason) ==> o.tables == t)
  {
    if rid in t.rentals {
      IsKnown(t, rid);
      RefundExactlyOf(t, actor, role, rid, reason, now);
    }
  }

  lemma RefundRefusalsOf(t: Tables, actor: int, role: string, rid: int, reason: string, now: int)
    requires Known(t, rid)
    ensures var e := RefundWalletPayment(t, actor, role, rid, reason, now).result;
            var admin := Authorised(t, actor, role) && RefundReason(reason);
            && (e == Err(AdminRequired) <==> role != "ADMIN" || (RefundReason(reason) && !Administers(t, actor)))
            && (e == Err(InvalidReasonCode) <==> role == "ADMIN" && !RefundReason(reason))
            && (e == Err(WalletRefundNotFound) <==> admin && rid !in t.rentals)
            && (e == Err(WalletRefundNotAllowed) <==> admin && rid in t.rentals && !OverAndPaid(t, rid))
            && (e == Err(BalanceOutOfRange)
                <==> admin && OverAndPaid(t, rid) && rid !in t.refunds && !HasRoom(t, rid, t.rentals[rid].price + ReturnedDeposit(t, rid)))
  {
    if OverAndPaid(t, rid) && rid !in t.refunds {
      Returned(t, rid, actor, reason, now);
    }
  }

  lemma RefundRefusals(t: Tables, actor: int, role: string, rid: int, reason: string, now: int)
    requires Valid(t)
    ensures var e := RefundWalletPayment(t, actor, role, rid, reason, now).result;
            var admin := Authorised(t, actor, role) && RefundReason(reason);
            && (e == Err(AdminRequired) <==> role != "ADMIN" || (RefundReason(reason) && !Administers(t, actor)))
            && (e == Err(InvalidReasonCode) <==> role == "ADMIN" && !RefundReason(reason))
            && (e == Err(WalletRefundNotFound) <==> admin && rid !in t.rentals)
            && (e == Err(WalletRefundNotAllowed) <==> admin && rid in t.rentals && !OverAndPaid(t, rid))
            && (e == Err(BalanceOutOfRange)
                <==> admin && OverAndPaid(t, rid) && rid !in t.refunds && !HasRoom(t, rid, t.rentals[rid].price + ReturnedDeposit(t, rid)))
  {
    if rid in t.rentals {
      IsKnown(t, rid);
      RefundRefusalsOf(t, actor, role, rid, reason, now);
    }
  }

  /** The rental as a refund leaves it. */
  function RentalAfter(r: Rental, now: int): Rental {
    if r.status == Completed then r else r.(status := Completed, completedAt := Some(now))
  }

  /** The rows a refund is booked with. */
  function RefundRows(t: Tables, rid: int): seq<Entry>
    requires rid in t.rentals
  {
    var r, d := t.rentals[rid], ReturnedDeposit(t, rid);
    var principal := Entry(BalanceRefundCredit, r.userId, Some(rid), r.price, USD, PrincipalRefundKey(rid), None);
    var deposit := Entry(DepositRefundCredit, r.userId, Some(rid), d, USD, DepositRefundKey(rid), None);
    if d > 0 then [principal, deposit] else [principal]
  }

  /** What a refund writes to the log, and the completion it may bring with it. */
  function RefundLog(t: Tables, rid: int): seq<Event>
    requires rid in t.rentals
  {
    var r := t.rentals[rid];
    var refunded := Event(None, EVENT_WALLET_REFUND, r.userId, Some(r.accountId), Some(rid), true);
    var completed := Event(None, EVENT_RENTAL_COMPLETED, r.userId, Some(r.accountId), Some(rid), true);
    if r.status == Completed then [refunded] else [refunded, completed]
  }

  function RefundAudit(t: Tables, rid: int, actor: int): seq<Audit>
    requires rid in t.rentals
  {
    var refunded, completed := Audit(Some(actor), "refund", rid, "wallet_refund_completed"), Audit(Some(actor), "rental", rid, "rental_complete");
    if t.rentals[rid].status == Completed then [refunded] else [refunded, completed]
  }

  lemma RefundEffectOf(t: Tables, actor: int, role: string, rid: int, reason: string, now: int)
    requires Known(t, rid) && MayRefund(t, actor, role, rid, reason)
    ensures var r, p, d := t.rentals[rid], t.payments[rid], ReturnedDeposit(t, rid);
            RefundWalletPayment(t, actor, role, rid, reason, now) == Outcome(
              t.(users := Credited(t, r.userId, r.price + d),
                 refunds := t.refunds[rid := Refund(p.id, r.userId, r.accountId, RefundDone, reason, actor, r.price, d, r.price + d, USD)],
                 rentals := t.rentals[rid := RentalAfter(r, now)],
                 holds := if d > 0 then t.holds[rid := Hold(r.userId, p.id, d, USD, Refunded, Some(WalletRefund), Some(actor), "", "", Some(now))]
                          else t.holds,
                 ledger := t.ledger + RefundRows(t, rid),
                 events := t.events + RefundLog(t, rid),
                 audits := t.audits + RefundAudit(t, rid, actor)),
              Ok(RefundResult(true, false, r.price, d, r.price + d, DepositAfter(t, rid))))
  {
    Returned(t, rid, actor, reason, now);
    assert DepositAfter(t, rid) == DepositStatusOf(RefundTables(t, rid, actor, reason, now), rid);
  }

  /** A refund returns the price and a deposit that is still held, and completes a rental that is not. */
  lemma RefundEffect(t: Tables, actor: int, role: string, rid: int, reason: string, now: int)
    requires Valid(t) && MayRefund(t, actor, role, rid, reason)
    ensures var r, p, d := t.rentals[rid], t.payments[rid], ReturnedDeposit(t, rid);
            RefundWalletPayment(t, actor, role, rid, reason, now) == Outcome(
              t.(users := Credited(t, r.userId, r.price + d),
                 refunds := t.refunds[rid := Refund(p.id, r.userId, r.accountId, RefundDone, reason, actor, r.price, d, r.price + d, USD)],
                 rentals := t.rentals[rid := RentalAfter(r, now)],
                 holds := if d > 0 then t.holds[rid := Hold(r.userId, p.id, d, USD, Refunded, Some(WalletRefund), Some(actor), "", "", Some(now))]
                          else t.holds,
                 ledger := t.ledger + RefundRows(t, rid),
                 events := t.events + RefundLog(t, rid),
                 audits := t.audits + RefundAudit(t, rid, actor)),
              Ok(RefundResult(true, false, r.price, d, r.price + d, DepositAfter(t, rid))))
  {
    IsKnown(t, rid);
    RefundEffectOf(t, actor, role, rid, reason, now);
  }

  lemma Returned(t: Tables, rid: int, actor: int, reason: string, now: int)
    requires Known(t, rid) && OverAndPaid(t, rid) && rid !in t.refunds
    ensures var r, p, d := t.rentals[rid], t.payments[rid], ReturnedDeposit(t, rid);
            var t1 := RefundTables(t, rid, actor, reason, now);
            && d == RefundableDeposit(t, rid)
            && CompleteRental(t1, rid, Some(actor), now).result.Ok?
            && CompleteRental(t1, rid, Some(actor), now).tables
               == t.(users := Credited(t, r.userId, r.price + d),
                     refunds := t.refunds[rid := Refund(p.id, r.userId, r.accountId, RefundDone, reason, actor, r.price, d, r.price + d, USD)],
                     rentals := t.rentals[rid := RentalAfter(r, now)],
                     holds := if d > 0 then t.holds[rid := Hold(r.userId, p.id, d, USD, Refunded, Some(WalletRefund), Some(actor), "", "", Some(now))]
                              else t.holds,
                     ledger := t.ledger + RefundRows(t, rid),
                     events := t.events + RefundLog(t, rid),
                     audits := t.audits + RefundAudit(t, rid, actor))
  {
    var r := t.rentals[rid];
    var t1 := RefundTables(t, rid, actor, reason, now);
    assert RefundEntries(t, rid) == RefundRows(t, rid);
    if r.status == Completed {
      assert t.rentals[rid := r] == t.rentals;
    } else {
      assert Completable(t1, rid);
      assert (t.events + [RentalEvent(EVENT_WALLET_REFUND, r, rid)]) + [RentalEvent(EVENT_RENTAL_COMPLETED, r, rid)] == t.events + RefundLog(t, rid);
      assert CompleteRental(t1, rid, Some(actor), now).tables.audits == t.audits + RefundAudit(t, rid, actor);
    }
  }

  // --- Finalizing ---------------------------------------------------------------------------------------

  /** A rental is due when it is over and paid for and its deposit, if it has one, is past its review. */
  predicate IsDue(t: Tables, rid: int, now: int) {
    && HasStatus(t, rid, Expired) && rid in t.payments && t.payments[rid].status == Paid
    && (t.rentals[rid].deposit > 0 ==> Deadline(t, rid) <= now)
  }

  /** Since when a due rental has been due. */
  function DueSince(t: Tables, rid: int): int
    requires rid in t.rentals
  {
    if t.rentals[rid].deposit > 0 then Deadline(t, rid) else t.rentals[rid].endAt
  }

  /** The rental that has been due for longest, by id among equals. */
  ghost predicate IsNext(t: Tables, rid: int, now: int) {
    && IsDue(t, rid, now)
    && forall s :: IsDue(t, s, now) ==> DueSince(t, rid) < DueSince(t, s) || (DueSince(t, rid) == DueSince(t, s) && rid <= s)
  }

  /** The query of the finalizer finds exactly the due rentals. */
  lemma DueExactly(t: Tables, rid: int, now: int)
    requires Valid(t)
    ensures IsCandidate(t, rid, now) <==> IsDue(t, rid, now)
    ensures IsDue(t, rid, now) ==> rid in QueueRank(t) && QueueRank(t)[rid] == DueSince(t, rid)
  {
    if rid in t.rentals {
      IsKnown(t, rid);
    }
  }

  /** The tables after a due rental has been finalized: a deposit is released to its user by nobody in
      particular. */
  ghost function Finalizing(t: Tables, rid: int, now: int): Tables
    requires Known(t, rid) && (t.rentals[rid].deposit > 0 ==> rid in t.holds)
  {
    var r := t.rentals[rid];
    if r.deposit > 0 then
      Completing(t, rid, EVENT_DEPOSIT_RELEASED, Audit(None, "deposit_hold", rid, "deposit_auto_release"), None, now).(
        users := Credited(t, r.userId, r.deposit),
        holds := t.holds[rid := Hold(r.userId, t.payments[rid].id, r.deposit, USD, Released, Some(AutoRelease), None, "", "", Some(now))],
        ledger := t.ledger + [Entry(DepositReleasedToBalance, r.userId, Some(rid), r.deposit, USD, AutoReleaseKey(rid), None)])
    else
      t.(rentals := t.rentals[rid := r.(status := Completed, completedAt := Some(now))],
         events := t.events + [Event(None, EVENT_RENTAL_COMPLETED, r.userId, Some(r.accountId), Some(rid), true)],
         audits := t.audits + [Audit(None, "rental", rid, "rental_complete")])
  }

  lemma FinalizedOf(t: Tables, rid: int, now: int)
    requires Known(t, rid) && IsDue(t, rid, now)
    ensures t.rentals[rid].deposit > 0 ==> rid in t.holds
    ensures FinalizeRental(t, rid, now)
            == if HasRoom(t, rid, t.rentals[rid].deposit) || t.rentals[rid].deposit == 0
               then Outcome(Finalizing(t, rid, now), Ok(FinalizedRental(rid, t.rentals[rid].deposit > 0)))
               else Outcome(t, Err(BalanceOutOfRange))
  {
    if t.rentals[rid].deposit > 0 {
      PaidOut(t, rid, AutoRelease, None, AutoReleaseKey(rid), "deposit_auto_release", None, now);
    } else {
      assert Completable(t, rid);
    }
  }

  lemma NextIsFirst(t: Tables, rid: int, now: int)
    requires Valid(t) && IsNext(t, rid, now)
    ensures rid in Candidates(t, now) && First(Candidates(t, now), QueueRank(t)) == rid
  {
    DueExactly(t, rid, now);
    assert rid in Candidates(t, now);
    var x := First(Candidates(t, now), QueueRank(t));
    DueExactly(t, x, now);
  }

  /** A round of the finalizer completes the rental that has been due for longest, or reports that its
      user's balance has no room for the deposit; it does nothing exactly if nothing is due. */
  lemma FinalizeExactly(t: Tables, rid: int, now: int)
    requires Valid(t) && IsNext(t, rid, now)
    ensures Known(t, rid) && (t.rentals[rid].deposit > 0 ==> rid in t.holds)
    ensures FinalizeNext(t, now)
            == if HasRoom(t, rid, t.rentals[rid].deposit)
               then Outcome(Finalizing(t, rid, now), Ok(FinalizedRental(rid, t.rentals[rid].deposit > 0)))
               else Outcome(t, Err(BalanceOutOfRange))
  {
    IsKnown(t, rid);
    NextIsFirst(t, rid, now);
    FinalizedOf(t, rid, now);
  }

  lemma NothingToFinalize(t: Tables, now: int)
    requires Valid(t)
    ensures FinalizeNext(t, now).result == Ok(NothingDue) <==> forall rid :: !IsDue(t, rid, now)
    ensures FinalizeNext(t, now).result == Ok(NothingDue) ==> FinalizeNext(t, now).tables == t
    ensures (exists rid :: IsDue(t, rid, now)) ==> exists rid :: IsNext(t, rid, now)
  {
    forall rid
      ensures rid in Candidates(t, now) <==> IsDue(t, rid, now)
    {
      DueExactly(t, rid, now);
    }
    if Candidates(t, now) != {} {
      var x := First(Candidates(t, now), QueueRank(t));
      forall s | IsDue(t, s, now)
        ensures DueSince(t, x) < DueSince(t, s) || (DueSince(t, x) == DueSince(t, s) && x <= s)
      {
        DueExactly(t, s, now);
        DueExactly(t, x, now);
      }
      assert IsNext(t, x, now);
      FinalizeExactly(t, x, now);
    }
  }
}
