/** The time windows in which a deposit may be forfeited, a deposit is released automatically, and
    a reservation may still be paid. */
module Windows {
  import opened Common
  import opened LedgerKeys
  import opened Tables
  import opened Operations
  import opened Invariant
  import opened Steps
  import opened Runs
  import opened SettlementAnswers

  ghost predicate Forfeits(t: Tables, actor: int, role: string, r: int, reason: string, evidence: string, now: int) {
    var o := ForfeitDeposit(t, actor, role, r, reason, evidence, now);
    o.result.Ok? && o.result.value.changed
  }

  /** Exactly when the finalizer may release a deposit: it is held, the rental has expired, and the
      end of the rental plus 24 hours has been reached. */
  lemma AutoReleaseExactly(t: Tables, r: int, now: int)
    requires Valid(t) && r in t.rentals && t.rentals[r].deposit > 0
    ensures IsCandidate(t, r, now)
            <==> r in t.holds && t.holds[r].status == Held && t.rentals[r].status == Expired && t.rentals[r].endAt + 24 * HOUR <= now
  {
    RentalIsJoined(t, r);
  }

  /** Over every run: a forfeit that works at one time and an automatic release that works at another,
      whichever comes first in the run, are never at the same instant, and the forfeit's is the
      earlier one. */
  lemma SettlementWindowsDisjoint(t: Tables, ops: seq<Op>, actor: int, role: string, r: int, reason: string, evidence: string,
                                  forfeitAt: int, releaseAt: int)
    requires Valid(t) && r in t.rentals && t.rentals[r].deposit > 0
    requires (Forfeits(t, actor, role, r, reason, evidence, forfeitAt) && IsCandidate(Run(t, ops), r, releaseAt))
             || (IsCandidate(t, r, releaseAt) && Forfeits(Run(t, ops), actor, role, r, reason, evidence, forfeitAt))
    ensures forfeitAt < releaseAt
  {
    var t' := Run(t, ops);
    RunIsGood(t, ops);
    assert DossierEvolves(View(t, r), View(t', r));
    ForfeitExactly(t, actor, role, r, reason, evidence, forfeitAt);
    ForfeitExactly(t', actor, role, r, reason, evidence, forfeitAt);
    AutoReleaseExactly(t, r, releaseAt);
    AutoReleaseExactly(t', r, releaseAt);
  }

  lemma WebhookNeedsWindow(t: Tables, req: WebhookRequest, dbNow: int, r: int)
    requires Valid(t) && r in t.rentals && t.rentals[r].status == WaitingPayment
    requires var t' := ProcessWebhook(t, req, dbNow).tables; r in t'.rentals && t'.rentals[r].status == Active
    ensures dbNow < t.rentals[r].paymentExpiresAt
  {
    if ValidWebhookRequest(req) && req.status == "success" && HasWebhookRow(t.payments, req) {
      var rid :| WebhookRow(t.payments, req, rid) && ProcessWebhook(t, req, dbNow) == ProcessWebhookFor(t, req, rid, dbNow);
    }
  }

  lemma WalletNeedsWindow(t: Tables, uid: int, rid: int, now: int, dbNow: int, r: int)
    requires Valid(t) && r in t.rentals && t.rentals[r].status == WaitingPayment
    requires var t' := PayRentalWithBalance(t, uid, rid, now, dbNow).tables; r in t'.rentals && t'.rentals[r].status == Active
    ensures now < t.rentals[r].paymentExpiresAt && dbNow < t.rentals[r].paymentExpiresAt
  {
  }

  /** A payment through either channel changes the rental only while the reservation lives ... */
  lemma PaymentNeedsWindow(t: Tables, op: Op, r: int)
    requires Valid(t) && r in t.rentals && t.rentals[r].status == WaitingPayment
    requires op.Webhook? || op.PayWithBalance?
    requires r in Apply(t, op).rentals && Apply(t, op).rentals[r].status == Active
    ensures op.dbNow < t.rentals[r].paymentExpiresAt
    ensures op.PayWithBalance? ==> op.now < t.rentals[r].paymentExpiresAt
  {
    match op
    case Webhook(req, dbNow) => WebhookNeedsWindow(t, req, dbNow, r);
    case PayWithBalance(uid, rid, now, dbNow) => WalletNeedsWindow(t, uid, rid, now, dbNow, r);
  }

  /** ... and its expiry only afterwards, so no instant admits both, at any two points of a run. */
  lemma ReservationWindowsDisjoint(t: Tables, ops: seq<Op>, op: Op, r: int, expireAt: int)
    requires Valid(t) && r in t.rentals && t.rentals[r].status == WaitingPayment
    requires op.Webhook? || op.PayWithBalance?
    requires var t' := Run(t, ops);
             (ReservationExpired(t, r, expireAt) && r in t'.rentals && t'.rentals[r].status == WaitingPayment
              && r in Apply(t', op).rentals && Apply(t', op).rentals[r].status == Active)
             || (ReservationExpired(t', r, expireAt)
                 && r in Apply(t, op).rentals && Apply(t, op).rentals[r].status == Active)
    ensures op.dbNow < expireAt
  {
    var t' := Run(t, ops);
    RunIsGood(t, ops);
    assert DossierEvolves(View(t, r), View(t', r));
    if ReservationExpired(t', r, expireAt) && r in Apply(t, op).rentals && Apply(t, op).rentals[r].status == Active {
      PaymentNeedsWindow(t, op, r);
    } else {
      PaymentNeedsWindow(t', op, r);
    }
  }

  /** A fresh reservation lives for exactly fifteen minutes of the database's clock. */
  lemma ReservationLives(t: Tables, uid: int, aid: int, duration: int, now: int, dbNow: int, rentalId: int, paymentId: int, at: int)
    requires Valid(t) && RentAccount(t, uid, aid, duration, now, dbNow, rentalId, paymentId).result.Ok?
    ensures var t' := RentAccount(t, uid, aid, duration, now, dbNow, rentalId, paymentId).tables;
            ReservationExpired(t', rentalId, at) <==> dbNow + 15 * MINUTE <= at
  {
  }
}
