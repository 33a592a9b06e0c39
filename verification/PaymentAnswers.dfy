/** Which payments of a rental are accepted, by webhook and from the balance, what they change and how the
    others are answered. */
module PaymentAnswers {
  import opened Common
  import opened LedgerKeys
  import opened Tables
  import opened Operations
  import opened Invariant
  import opened Steps
  import opened Acceptance

  /** What a payment changes in its rental, whichever way it came: the rental becomes active, its account
      is rented, and a positive deposit is held and booked after the charge. */
  ghost function Paying(t: Tables, rid: int, paid: Payment, charge: Entry): Tables
    requires Joined(t, rid)
  {
    var r, p := t.rentals[rid], t.payments[rid];
    var held := Entry(DepositHeld, r.userId, Some(rid), r.deposit, USD, HoldKey(rid), None);
    t.(payments := t.payments[rid := paid],
       rentals := t.rentals[rid := r.(status := Active)],
       accounts := t.accounts[r.accountId := t.accounts[r.accountId].(status := Rented)],
       holds := if r.deposit > 0 then t.holds[rid := Hold(r.userId, p.id, r.deposit, USD, Held, None, None, "", "", None)] else t.holds,
       ledger := t.ledger + (if r.deposit > 0 then [charge, held] else [charge]))
  }

  // --- The webhook --------------------------------------------------------------------------------------

  /** A request the provider can have sent: positive ids, a transaction id of 1 to 128 safe characters. */
  ghost predicate WellFormed(req: WebhookRequest) {
    && 1 <= req.paymentId <= MAX_INT64 && 1 <= req.rentalId <= MAX_INT64
    && 1 <= |req.externalTx| <= 128
    && (forall i :: 0 <= i < |req.externalTx| ==>
          var c := req.externalTx[i];
          'a' <= c <= 'z' || 'A' <= c <= 'Z' || '0' <= c <= '9' || c == '-' || c == '_' || c == '.' || c == ':')
    && req.provider == "internal" && req.amount > 0 && |req.currency| == 3 && 1 <= |req.status| <= 16
  }

  /** Some payment was settled by the transaction. */
  ghost predicate Carried(t: Tables, tx: string) {
    exists s :: s in t.payments && t.payments[s].externalTx == Some(tx)
  }

  /** The payment a webhook is about: the one its transaction settled, or else the one it names. */
  ghost predicate Concerns(t: Tables, req: WebhookRequest, rid: int) {
    && rid in t.payments
    && (t.payments[rid].externalTx == Some(req.externalTx)
        || (t.payments[rid].id == req.paymentId && !Carried(t, req.externalTx)))
  }

  /** The request agrees with the payment it is about. */
  predicate Agrees(t: Tables, req: WebhookRequest, rid: int) {
    && rid in t.payments && rid == req.rentalId && t.payments[rid].id == req.paymentId
    && t.payments[rid].provider == Internal
    && t.payments[rid].amount == req.amount && t.payments[rid].currency == req.currency
  }

  lemma ConcernedRow(t: Tables, req: WebhookRequest, rid: int)
    requires Valid(t)
    ensures Concerns(t, req, rid) <==> WebhookRow(t.payments, req, rid)
  {
    forall s | s in t.payments
      ensures SettledBy(t.payments[s], req.externalTx) <==> t.payments[s].externalTx == Some(req.externalTx)
    {
      IsKnown(t, s);
    }
  }

  lemma WebhookIsAbout(t: Tables, req: WebhookRequest, dbNow: int, rid: int)
    requires Valid(t) && WellFormed(req) && req.status == "success" && Concerns(t, req, rid)
    ensures ProcessWebhook(t, req, dbNow) == ProcessWebhookFor(t, req, rid, dbNow)
  {
    assert ValidWebhookRequest(req);
    ConcernedRow(t, req, rid);
    var s :| WebhookRow(t.payments, req, s) && ProcessWebhook(t, req, dbNow) == ProcessWebhookFor(t, req, s, dbNow);
    WebhookRowUnique(t, req, rid, s);
  }

  /** What a well-formed report of a success is answered, by the payment it is about. */
  ghost predicate AnsweredFor(t: Tables, req: WebhookRequest, dbNow: int, rid: int, r: Result<WebhookResult>)
    requires rid in t.payments && rid in t.rentals
  {
    var p := t.payments[rid];
    && (r == Err(WebhookIdentifierMismatch) <==> rid != req.rentalId || p.id != req.paymentId)
    && (r == Err(WebhookProviderUnsupported) <==> rid == req.rentalId && p.id == req.paymentId && p.provider == Balance)
    && (r == Err(WebhookFinancialMismatch)
        <==> rid == req.rentalId && p.id == req.paymentId && p.provider == Internal && !Agrees(t, req, rid))
    && (r == Err(WebhookNotSuccessful) <==> Agrees(t, req, rid) && p.status == Failed)
    && (r == Err(WebhookExternalTxMismatch)
        <==> Agrees(t, req, rid) && p.status == Paid && p.externalTx != Some(req.externalTx))
    && (r == Err(WebhookInvalidTransition)
        <==> Agrees(t, req, rid) && p.status == Paid && p.externalTx == Some(req.externalTx) && t.rentals[rid].status != Active)
    && (r == Err(RentalNotEligible)
        <==> Agrees(t, req, rid) && p.status == Pending && t.rentals[rid].paymentExpiresAt <= dbNow)
    && (r == Ok(WebhookResult(p.id, rid, t.rentals[rid].accountId, true))
        <==> Agrees(t, req, rid) && p.status == Paid && p.externalTx == Some(req.externalTx) && t.rentals[rid].status == Active)
    && (r == Ok(WebhookResult(p.id, rid, t.rentals[rid].accountId, false))
        <==> Agrees(t, req, rid) && p.status == Pending && dbNow < t.rentals[rid].paymentExpiresAt)
    && (r.Ok? ==> r.value.paymentId == p.id && r.value.rentalId == rid && r.value.accountId == t.rentals[rid].accountId)
  }

  lemma WebhookAnswers(t: Tables, req: WebhookRequest, dbNow: int, rid: int)
    requires Known(t, rid)
    ensures AnsweredFor(t, req, dbNow, rid, ProcessWebhookFor(t, req, rid, dbNow).result)
  {
  }

  /** A pending payment is settled by a transaction that has settled no other, as long as its reservation
      lives. */
  ghost predicate MaySettle(t: Tables, req: WebhookRequest, dbNow: int) {
    var rid := req.rentalId;
    && WellFormed(req) && req.status == "success"
    && rid in t.payments && rid in t.rentals
    && t.payments[rid].id == req.paymentId && t.payments[rid].status == Pending
    && t.payments[rid].amount == req.amount && t.payments[rid].currency == req.currency
    && !Carried(t, req.externalTx)
    && dbNow < t.rentals[rid].paymentExpiresAt
  }

  /** The transaction has settled this very payment, and the rental is still active. */
  ghost predicate MayRepeat(t: Tables, req: WebhookRequest) {
    var rid := req.rentalId;
    && WellFormed(req) && req.status == "success"
    && rid in t.payments && rid in t.rentals
    && t.payments[rid].id == req.paymentId && t.payments[rid].status == Paid
    && t.payments[rid].externalTx == Some(req.externalTx)
    && t.payments[rid].amount == req.amount && t.payments[rid].currency == req.currency
    && t.rentals[rid].status == Active
  }

  lemma PendingCarriesNothing(t: Tables, req: WebhookRequest, rid: int)
    requires Known(t, rid) && Concerns(t, req, rid) && t.payments[rid].status == Pending
    ensures !Carried(t, req.externalTx)
  {
  }

  lemma AllDeclined(t: Tables, req: WebhookRequest, dbNow: int)
    requires Valid(t) && (!WellFormed(req) || req.status != "success" || forall rid :: !Concerns(t, req, rid))
    ensures ProcessWebhook(t, req, dbNow) == Outcome(t, Err(
              if !WellFormed(req) then WebhookInvalidPayload
              else if req.status != "success" then WebhookNotSuccessful
              else PaymentNotFound))
    ensures !MaySettle(t, req, dbNow) && !MayRepeat(t, req)
  {
    assert WellFormed(req) <==> ValidWebhookRequest(req);
    forall rid
      ensures WellFormed(req) && req.status == "success" ==> !WebhookRow(t.payments, req, rid)
    {
      ConcernedRow(t, req, rid);
    }
    assert !Concerns(t, req, req.rentalId) || !WellFormed(req) || req.status != "success";
  }

  lemma SettlesRow(t: Tables, req: WebhookRequest, dbNow: int, rid: int)
    requires Valid(t) && WellFormed(req) && req.status == "success" && Concerns(t, req, rid)
    ensures MaySettle(t, req, dbNow)
            <==> Agrees(t, req, rid) && t.payments[rid].status == Pending && rid in t.rentals && dbNow < t.rentals[rid].paymentExpiresAt
    ensures MayRepeat(t, req)
            <==> Agrees(t, req, rid) && t.payments[rid].status == Paid && t.payments[rid].externalTx == Some(req.externalTx)
                 && rid in t.rentals && t.rentals[rid].status == Active
  {
    IsKnown(t, rid);
    if t.payments[rid].status == Pending {
      PendingCarriesNothing(t, req, rid);
    }
    if req.rentalId in t.payments {
      IsKnown(t, req.rentalId);
    }
  }

  /** Exactly when a webhook settles a payment, and exactly when it is answered as a repetition. */
  lemma WebhookExactly(t: Tables, req: WebhookRequest, dbNow: int)
    requires Valid(t)
    ensures var o := ProcessWebhook(t, req, dbNow);
            && (o.result.Ok? && !o.result.value.idempotent <==> MaySettle(t, req, dbNow))
            && (o.result.Ok? && o.result.value.idempotent <==> MayRepeat(t, req))
            && (o.result.Ok? ==> req.rentalId in t.rentals
                                 && o.result.value.paymentId == req.paymentId && o.result.value.rentalId == req.rentalId
                                 && o.result.value.accountId == t.rentals[req.rentalId].accountId)
  {
    if WellFormed(req) && req.status == "success" && exists rid :: Concerns(t, req, rid) {
      var rid :| Concerns(t, req, rid);
      IsKnown(t, rid);
      WebhookIsAbout(t, req, dbNow, rid);
      WebhookAnswers(t, req, dbNow, rid);
      SettlesRow(t, req, dbNow, rid);
    } else {
      AllDeclined(t, req, dbNow);
    }
  }

  /** A webhook is declined unread if it is malformed or reports no success, and if there is no payment it
      can be about; whatever settles nothing changes nothing. */
  lemma WebhookDeclines(t: Tables, req: WebhookRequest, dbNow: int)
    requires Valid(t)
    ensures var o := ProcessWebhook(t, req, dbNow);
            && (o.result == Err(WebhookInvalidPayload) <==> !WellFormed(req))
            && (WellFormed(req) && req.status != "success" ==> o.result == Err(WebhookNotSuccessful))
            && (o.result == Err(PaymentNotFound)
                <==> WellFormed(req) && req.status == "success" && forall rid :: !Concerns(t, req, rid))
            && (!MaySettle(t, req, dbNow) ==> o.tables == t)
  {
    if WellFormed(req) && req.status == "success" && exists rid :: Concerns(t, req, rid) {
      var rid :| Concerns(t, req, rid);
      IsKnown(t, rid);
      WebhookIsAbout(t, req, dbNow, rid);
      SettlesRow(t, req, dbNow, rid);
      RefusedRow(t, req, dbNow, rid);
    } else {
      AllDeclined(t, req, dbNow);
    }
  }

  /** Why any other webhook is refused: the payment it is about, its state and the clock. */
  lemma WebhookRefusals(t: Tables, req: WebhookRequest, dbNow: int, rid: int)
    requires Valid(t) && WellFormed(req) && req.status == "success" && Concerns(t, req, rid)
    ensures rid in t.rentals && AnsweredFor(t, req, dbNow, rid, ProcessWebhook(t, req, dbNow).result)
    ensures forall s :: Concerns(t, req, s) ==> s == rid
  {
    IsKnown(t, rid);
    WebhookIsAbout(t, req, dbNow, rid);
    WebhookAnswers(t, req, dbNow, rid);
    forall s | Concerns(t, req, s)
      ensures s == rid
    {
      ConcernedRow(t, req, s);
      ConcernedRow(t, req, rid);
      WebhookRowUnique(t, req, rid, s);
    }
  }

  lemma RefusedRow(t: Tables, req: WebhookRequest, dbNow: int, rid: int)
    requires Known(t, rid)
    ensures var o := ProcessWebhookFor(t, req, rid, dbNow);
            (o.tables == t || (Agrees(t, req, rid) && t.payments[rid].status == Pending && dbNow < t.rentals[rid].paymentExpiresAt))
            && o.result != Err(PaymentNotFound) && o.result != Err(WebhookInvalidPayload)
  {
  }

  /** What a settled webhook changes: nobody's balance, and no other rental. */
  lemma WebhookEffect(t: Tables, req: WebhookRequest, dbNow: int)
    requires Valid(t) && MaySettle(t, req, dbNow)
    ensures Joined(t, req.rentalId)
    ensures var rid := req.rentalId;
            var r, p := t.rentals[rid], t.payments[rid];
            var charge := Entry(ProviderPaymentReceived, r.userId, Some(rid), p.amount, USD, WebhookKey(req.externalTx), None);
            ProcessWebhook(t, req, dbNow).tables
            == Paying(t, rid, p.(status := Paid, externalTx := Some(req.externalTx)), charge).(
                 events := t.events + [Event(None, EVENT_RENTAL_ACTIVATED, r.userId, Some(r.accountId), Some(rid), true)])
  {
    var rid := req.rentalId;
    IsKnown(t, rid);
    WebhookIsAbout(t, req, dbNow, rid);
    SettledRow(t, req, dbNow, rid);
  }

  lemma SettledRow(t: Tables, req: WebhookRequest, dbNow: int, rid: int)
    requires Known(t, rid) && Agrees(t, req, rid) && t.payments[rid].status == Pending && dbNow < t.rentals[rid].paymentExpiresAt
    ensures var r, p := t.rentals[rid], t.payments[rid];
            var charge := Entry(ProviderPaymentReceived, r.userId, Some(rid), p.amount, USD, WebhookKey(req.externalTx), None);
            ProcessWebhookFor(t, req, rid, dbNow).tables
            == Paying(t, rid, p.(status := Paid, externalTx := Some(req.externalTx)), charge).(
                 events := t.events + [Event(None, EVENT_RENTAL_ACTIVATED, r.userId, Some(r.accountId), Some(rid), true)])
  {
    WebhookAnswers(t, req, dbNow, rid);
    EntriesInOrder(t, rid, ProviderPaymentReceived, WebhookKey(req.externalTx), t.payments[rid].amount);
  }

  lemma EntriesInOrder(t: Tables, rid: int, kind: EntryKind, key: LedgerKey, amount: int)
    requires Known(t, rid)
    ensures var r := t.rentals[rid];
            var charge := Entry(kind, r.userId, Some(rid), amount, USD, key, None);
            var held := Entry(DepositHeld, r.userId, Some(rid), r.deposit, USD, HoldKey(rid), None);
            ChargeEntries(r, rid, t.payments[rid], kind, key, amount) == (if r.deposit > 0 then [charge, held] else [charge])
  {
  }

  // --- The balance --------------------------------------------------------------------------------------

  /** The balance pays for a pending rental of its owner that can still be paid by both clocks; a balance
      of exactly the amount is enough. */
  ghost predicate MayPay(t: Tables, uid: int, rid: int, now: int, dbNow: int) {
    && Own(t, uid, rid) && rid in t.payments && t.payments[rid].status == Pending
    && now < t.rentals[rid].paymentExpiresAt && dbNow < t.rentals[rid].paymentExpiresAt
    && uid in t.users && t.payments[rid].amount <= t.users[uid].balance
  }

  /** Exactly when the balance pays, exactly when the answer is that it has been paid, by whichever
      channel, and exactly why it is refused otherwise. */
  lemma PayExactly(t: Tables, uid: int, rid: int, now: int, dbNow: int)
    requires Valid(t)
    ensures Own(t, uid, rid) ==> rid in t.payments && uid in t.users
    ensures var o := PayRentalWithBalance(t, uid, rid, now, dbNow);
            var live := Own(t, uid, rid) && t.payments[rid].status == Pending && now < t.rentals[rid].paymentExpiresAt;
            && (o.result.Ok? && o.result.value.changed <==> MayPay(t, uid, rid, now, dbNow))
            && (o.result.Ok? && !o.result.value.changed
                <==> Own(t, uid, rid) && t.payments[rid].status == Paid && t.rentals[rid].status == Active)
            && (o.result == Err(WalletPaymentNotFound) <==> !Own(t, uid, rid))
            && (o.result == Err(WalletPaymentNotAllowed)
                <==> Own(t, uid, rid) && (t.payments[rid].status == Failed || (t.payments[rid].status == Paid && t.rentals[rid].status != Active)))
            && (o.result == Err(WalletPaymentExpired)
                <==> Own(t, uid, rid) && t.payments[rid].status == Pending && t.rentals[rid].paymentExpiresAt <= now)
            && (o.result == Err(WalletInsufficientBalance) <==> live && t.users[uid].balance < t.payments[rid].amount)
            && (o.result == Err(RentalNotEligible)
                <==> live && t.payments[rid].amount <= t.users[uid].balance && t.rentals[rid].paymentExpiresAt <= dbNow)
            && (o.result.Ok? ==>
                  var p, changed := t.payments[rid], o.result.value.changed;
                  o.result.value == PayResult(changed, !changed, p.id, rid, t.rentals[rid].accountId, if changed then Balance else p.provider))
            && (!MayPay(t, uid, rid, now, dbNow) ==> o.tables == t)
  {
    if rid in t.rentals {
      IsKnown(t, rid);
    }
  }

  /** The balance falls by exactly the amount of the payment. */
  lemma PayEffect(t: Tables, uid: int, rid: int, now: int, dbNow: int)
    requires Valid(t) && MayPay(t, uid, rid, now, dbNow)
    ensures Joined(t, rid)
    ensures var r, p, u := t.rentals[rid], t.payments[rid], t.users[uid];
            var charge := Entry(BalanceDebit, uid, Some(rid), p.amount, USD, DebitKey(rid), None);
            PayRentalWithBalance(t, uid, rid, now, dbNow).tables
            == Paying(t, rid, p.(status := Paid, provider := Balance), charge).(
                 users := t.users[uid := u.(balance := u.balance - p.amount)],
                 events := t.events + [Event(None, EVENT_WALLET_PAYMENT, uid, Some(r.accountId), Some(rid), true)],
                 audits := t.audits + [Audit(Some(uid), "payment", p.id, "wallet_payment_success")])
  {
    IsKnown(t, rid);
    EntriesInOrder(t, rid, BalanceDebit, DebitKey(rid), t.payments[rid].amount);
  }
}
