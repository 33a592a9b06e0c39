/** The payment service, call by call. */
module PaymentService {
  import opened Common
  import opened LedgerKeys
  import opened Tables
  import opened Pricing
  import opened Operations
  import opened Invariant
  import opened Steps
  import opened Readiness
  import opened Repository

  /** The transaction of a webhook is the one of the row it finds. */
  lemma WebhookByRow(t: Tables, req: WebhookRequest, dbNow: int)
    requires ValidWebhookRequest(req) && req.status == "success" && Receivable(t, req)
    ensures forall rid :: WebhookRow(t.payments, req, rid) ==> Operations.ProcessWebhook(t, req, dbNow) == ProcessWebhookFor(t, req, rid, dbNow)
    ensures !HasWebhookRow(t.payments, req) ==> Operations.ProcessWebhook(t, req, dbNow) == Outcome(t, Err(PaymentNotFound))
  {
  }

  /** The release of a held deposit, as far as it does not complete the rental. */
  function PayOut(t: Tables, rid: int, source: SettlementSource, settler: Option<int>, key: LedgerKey, action: string, now: int): Outcome<()>
    requires Joined(t, rid) && rid in t.holds
  {
    if !CreditFits(t, t.rentals[rid].userId, t.holds[rid].amount) then Outcome(t, Err(BalanceOutOfRange))
    else Outcome(ReleaseHold(t, rid, source, settler, key, action, now), Ok(()))
  }

  function LoadedState(t: Tables, rid: int): SettlementState
    requires Joined(t, rid)
  {
    SettlementState(t.rentals[rid], t.payments[rid], Lookup(t.holds, rid))
  }

  function RefundRows(rid: int, s: SettlementState, amounts: RefundAmounts): seq<Entry> {
    [RentalEntry(BalanceRefundCredit, s.rental, rid, amounts.principal, s.payment.currency, PrincipalRefundKey(rid))]
    + (if amounts.deposit > 0
       then [RentalEntry(DepositRefundCredit, s.rental, rid, amounts.deposit, s.payment.currency, DepositRefundKey(rid))] else [])
  }

  /** A refund has been asked for and nothing of it has been booked. */
  ghost predicate RefundPending(t: Tables, rid: int) {
    && Joined(t, rid) && Settleable(t, rid)
    && rid in t.refunds && t.refunds[rid].status == RefundStatus.Requested
    && !HasKey(t.ledger, PrincipalRefundKey(rid))
    && IsInt64(t.rentals[rid].price + RefundableDeposit(t, rid))
  }

  /** The part of a refund that follows the creation of its row. */
  function RefundOut(t: Tables, rid: int, actor: int, reason: string, now: int): Outcome<()>
    requires Joined(t, rid)
  {
    if !CreditFits(t, t.rentals[rid].userId, t.rentals[rid].price + RefundableDeposit(t, rid)) then Outcome(t, Err(BalanceOutOfRange))
    else Outcome(RefundTables(t, rid, actor, reason, now), Ok(()))
  }

  /** Storing the request first and completing it later is the same as storing it completed. */
  lemma RequestIsTransparent(t: Tables, t1: Tables, rid: int, actor: int, reason: string, now: int)
    requires Joined(t, rid) && rid !in t.refunds
    requires t1 == t.(refunds := t.refunds[rid := NewRefund(t, rid, actor, reason).(status := RefundStatus.Requested)])
    ensures Joined(t1, rid) && RefundTables(t1, rid, actor, reason, now) == RefundTables(t, rid, actor, reason, now)
  {
    assert t1.refunds[rid := CompletedRefund(t1, rid, actor, reason)] == t.refunds[rid := CompletedRefund(t, rid, actor, reason)];
  }

  function Reply(e: Option<Error>): Result<()> {
    if e.Some? then Err(e.value) else Ok(())
  }

  // --- What the service decides on loaded rows -----------------------------------------------------

  /** `isConsistentPositiveDepositState`. */
  predicate IsConsistentPositiveDeposit(s: SettlementState) {
    && s.rental.deposit > 0
    && s.hold.Some?
    && s.hold.value.amount == s.rental.deposit
    && s.hold.value.userId == s.rental.userId
    && s.hold.value.paymentId == s.payment.id
    && s.hold.value.currency == s.payment.currency
  }

  function ValidateDepositReleaseState(s: SettlementState): Option<Error>
    requires s.hold.Some?
  {
    match s.hold.value.status
    case Forfeited => Some(DepositAlreadySettled)
    case Refunded => Some(DepositAlreadySettled)
    case Released => None
    case Held =>
      if s.payment.status != Paid || s.rental.status != Expired || !IsConsistentPositiveDeposit(s) || s.rental.reviewDeadline.None?
      then Some(DepositSettlementNotAllowed)
      else None
  }

  function ValidateDepositForfeitState(s: SettlementState, now: int): Option<Error>
    requires s.hold.Some?
  {
    match s.hold.value.status
    case Released => Some(DepositAlreadySettled)
    case Refunded => Some(DepositAlreadySettled)
    case Forfeited => None
    case Held =>
      if s.payment.status != Paid || s.rental.status != Expired || !IsConsistentPositiveDeposit(s) || s.rental.reviewDeadline.None?
      then Some(DepositSettlementNotAllowed)
      else if now >= s.rental.reviewDeadline.value then Some(DepositReviewDeadlinePassed)
      else None
  }

  datatype RefundAmounts = RefundAmounts(principal: int, deposit: int)

  function ValidateWalletRefundEligibility(s: SettlementState): Result<RefundAmounts> {
    if s.payment.provider != Balance || s.payment.status != Paid then Err(WalletRefundNotAllowed)
    else if s.rental.status != Expired && s.rental.status != Completed then Err(WalletRefundNotAllowed)
    else if s.rental.price <= 0 then Err(WalletRefundNotAllowed)
    else if s.rental.deposit <= 0 then Ok(RefundAmounts(s.rental.price, 0))
    else if s.hold.None? then Err(WalletRefundNotAllowed)
    else Ok(RefundAmounts(s.rental.price, if s.hold.value.status == Held then s.hold.value.amount else 0))
  }

  function MaxRefundableDeposit(s: SettlementState): int {
    if s.rental.deposit <= 0 then 0
    else if s.hold.Some? && s.hold.value.status == Held then s.hold.value.amount
    else 0
  }

  function WalletRefundDepositStatus(s: SettlementState): Option<HoldStatus> {
    if s.rental.deposit <= 0 || s.hold.None? then None else Some(s.hold.value.status)
  }

  class PaymentService {
    const repo: Database

    constructor (repo: Database)
      ensures this.repo == repo
    {
      this.repo := repo;
    }

    /** The security event and the audit row of a change. */
    method Record(event: Event, audit: Audit) returns (e: Option<Error>)
      modifies repo`tables, repo`calls
      ensures e.Some? ==> Stopped(e.value, repo.failing, old(repo.calls), repo.calls)
      ensures e.None? ==> repo.tables == old(repo.tables).(events := old(repo.tables.events) + [event], audits := old(repo.tables.audits) + [audit])
      ensures repo.calls >= old(repo.calls)
    {
      e := repo.LogSecurityEvent(event);
      if e.Some? { return e; }
      e := repo.InsertAuditLog(audit);
    }

    // --- Taking payment ---------------------------------------------------------------------------

    /** A positive deposit is held and booked. */
    method HoldDeposit(rid: int, rental: Rental, payment: Payment) returns (e: Option<Error>)
      requires rid !in repo.tables.holds && !HasKey(repo.tables.ledger, HoldKey(rid))
      modifies repo`tables, repo`calls
      ensures e.Some? ==> Stopped(e.value, repo.failing, old(repo.calls), repo.calls)
      ensures repo.calls >= old(repo.calls)
      ensures e.None? ==>
                var t := old(repo.tables);
                repo.tables == t.(
                  holds := if rental.deposit > 0 then t.holds[rid := NewHold(rental, payment)] else t.holds,
                  ledger := t.ledger + DepositEntries(rental, rid, payment))
    {
      if rental.deposit <= 0 {
        return None;
      }
      e := repo.CreateDepositHold(rid, NewHold(rental, payment));
      if e.Some? { return e; }
      e := repo.InsertLedgerEntry(RentalEntry(DepositHeld, rental, rid, rental.deposit, payment.currency, HoldKey(rid)));
    }

    /** The payment has succeeded: the rental becomes active, its account rented, the charge is booked
        and the deposit held. */
    method ActivatePaid(rid: int, rental: Rental, payment: Payment, charge: Entry, dbNow: int) returns (e: Option<Error>)
      requires rid in repo.tables.rentals && repo.tables.rentals[rid] == rental && rental.status == WaitingPayment
      requires rental.accountId in repo.tables.accounts && repo.tables.accounts[rental.accountId].status == Reserved
      requires rid !in repo.tables.holds && !HasKey(repo.tables.ledger, charge.key) && !HasKey(repo.tables.ledger, HoldKey(rid))
      requires charge.key != HoldKey(rid)
      modifies repo`tables, repo`calls
      ensures e.Some? ==> Stopped(e.value, repo.failing, old(repo.calls), repo.calls)
                          || (e == Some(RentalNotEligible) && rental.paymentExpiresAt <= dbNow)
      ensures repo.calls >= old(repo.calls)
      ensures e.None? ==>
                var t := old(repo.tables);
                && dbNow < rental.paymentExpiresAt
                && repo.tables == t.(
                     rentals := t.rentals[rid := rental.(status := Active)],
                     accounts := WithStatus(t.accounts, rental.accountId, Rented),
                     holds := if rental.deposit > 0 then t.holds[rid := NewHold(rental, payment)] else t.holds,
                     ledger := t.ledger + ([charge] + DepositEntries(rental, rid, payment)))
    {
      e := repo.ActivateRental(rid, dbNow);
      if e.Some? { return e; }
      e := repo.MarkAccountRented(rental.accountId);
      if e.Some? { return e; }
      e := repo.InsertLedgerEntry(charge);
      if e.Some? { return e; }
      StillFree(old(repo.tables.ledger), charge, HoldKey(rid));
      e := HoldDeposit(rid, rental, payment);
    }

    /** The balance pays for the rental. */
    method ChargeWallet(uid: int, rid: int, rental: Rental, payment: Payment, total: int, dbNow: int) returns (e: Option<Error>)
      requires Joined(repo.tables, rid) && repo.tables.rentals[rid] == rental && repo.tables.payments[rid] == payment && rental.userId == uid
      requires CanActivate(repo.tables, rid) && Chargeable(repo.tables, rid) && total <= repo.tables.users[uid].balance
      modifies repo`tables, repo`calls
      ensures e.Some? ==> Stopped(e.value, repo.failing, old(repo.calls), repo.calls)
                          || (e == Some(RentalNotEligible) && rental.paymentExpiresAt <= dbNow)
      ensures e.None? ==>
                var t := old(repo.tables);
                && dbNow < rental.paymentExpiresAt
                && repo.tables == Activate(t, rid, payment.(status := Paid, provider := Balance, externalTx := None),
                                           ChargeEntries(rental, rid, payment, BalanceDebit, DebitKey(rid), total)).(
                                    users := WithBalance(t.users, uid, t.users[uid].balance - total))
      ensures repo.calls >= old(repo.calls)
    {
      e := repo.DebitUserBalance(uid, total);
      if e.Some? { return e; }
      e := repo.MarkPaymentSuccessfulForWallet(rid);
      if e.Some? { return e; }
      e := ActivatePaid(rid, rental, payment, RentalEntry(BalanceDebit, rental, rid, total, payment.currency, DebitKey(rid)), dbNow);
    }

    method PayWithin(uid: int, rid: int, now: int, dbNow: int) returns (r: Result<PayResult>)
      requires Chargeable(repo.tables, rid)
      modifies repo`tables, repo`calls
      ensures Performs(Operations.PayRentalWithBalance(old(repo.tables), uid, rid, now, dbNow),
                       repo.tables, r, repo.failing, old(repo.calls), repo.calls)
    {
      var loaded := repo.LockWalletPaymentState(rid, uid);
      if loaded.Err? { return Err(loaded.error); }
      var rental, payment, account := loaded.value.rental, loaded.value.payment, loaded.value.account;

      if payment.status == Paid {
        if rental.status != Active || account.status != Rented { return Err(WalletPaymentNotAllowed); }
        return Ok(PayResult(false, true, payment.id, rid, rental.accountId, payment.provider));
      }
      if payment.status != Pending || rental.status != WaitingPayment || account.status != Reserved {
        return Err(WalletPaymentNotAllowed);
      }
      if rental.paymentExpiresAt <= now { return Err(WalletPaymentExpired); }

      var total := WrapInt64(rental.price + rental.deposit);
      if loaded.value.balance < total { return Err(WalletInsufficientBalance); }

      var e := ChargeWallet(uid, rid, rental, payment, total, dbNow);
      if e.Some? { return Err(e.value); }
      e := Record(RentalEvent(EVENT_WALLET_PAYMENT, rental, rid), Audit(Some(uid), "payment", payment.id, "wallet_payment_success"));
      if e.Some? { return Err(e.value); }
      r := Ok(PayResult(true, false, payment.id, rid, rental.accountId, Balance));
    }

    /** The transaction of `PayRentalWithBalance`. */
    method PayRentalWithBalanceTransacted(uid: int, rid: int, now: int, dbNow: int) returns (r: Result<PayResult>)
      requires Chargeable(repo.tables, rid)
      modifies repo
      ensures Serves(old(repo.inTransaction), Operations.PayRentalWithBalance(old(repo.tables), uid, rid, now, dbNow),
                     old(repo.tables), repo.tables, r, repo.failing, old(repo.calls), repo.calls)
      ensures repo.inTransaction == old(repo.inTransaction)
      ensures repo.inTransaction ==> repo.saved == old(repo.saved)
    {
      var e, owner := repo.Begin();
      if e.Some? { return Err(e.value); }
      var body := PayWithin(uid, rid, now, dbNow);
      r := repo.Finish(owner, body);
    }

    method PayRentalWithBalance(uid: int, rid: int, now: int, dbNow: int) returns (r: Result<PayResult>)
      requires Valid(repo.tables)
      modifies repo
      ensures Serves(old(repo.inTransaction), Operations.PayRentalWithBalance(old(repo.tables), uid, rid, now, dbNow),
                     old(repo.tables), repo.tables, r, repo.failing, old(repo.calls), repo.calls)
      ensures repo.inTransaction == old(repo.inTransaction)
      ensures repo.inTransaction ==> repo.saved == old(repo.saved)
    {
      IsChargeable(repo.tables, rid);
      r := PayRentalWithBalanceTransacted(uid, rid, now, dbNow);
    }

    /** The payment a webhook reports succeeds, and the rental with it. */
    method SettleWebhook(req: WebhookRequest, state: WebhookState, dbNow: int) returns (e: Option<Error>)
      requires Receivable(repo.tables, req) && WebhookRow(repo.tables.payments, req, state.rid)
      requires CanActivate(repo.tables, state.rid)
      requires state == WebhookStateOf(repo.tables, state.rid) && state.payment.provider == Internal && state.payment.status == Pending
      modifies repo`tables, repo`calls
      ensures e.Some? ==> Stopped(e.value, repo.failing, old(repo.calls), repo.calls)
                          || (e == Some(RentalNotEligible) && state.rental.paymentExpiresAt <= dbNow)
      ensures e.None? ==>
                var t := old(repo.tables);
                && dbNow < state.rental.paymentExpiresAt
                && repo.tables == Activate(t, state.rid, state.payment.(status := Paid, externalTx := Some(req.externalTx)),
                                           ChargeEntries(state.rental, state.rid, state.payment, ProviderPaymentReceived,
                                                         WebhookKey(req.externalTx), state.payment.amount)).(
                                    events := t.events + [RentalEvent(EVENT_RENTAL_ACTIVATED, state.rental, state.rid)])
      ensures repo.calls >= old(repo.calls)
    {
      var rid, rental, payment := state.rid, state.rental, state.payment;
      e := repo.MarkPaymentSuccessful(rid, req.externalTx);
      if e.Some? { return e; }
      var received := RentalEntry(ProviderPaymentReceived, rental, rid, payment.amount, payment.currency, WebhookKey(req.externalTx));
      e := ActivatePaid(rid, rental, payment, received, dbNow);
      if e.Some? { return e; }
      e := repo.LogSecurityEvent(RentalEvent(EVENT_RENTAL_ACTIVATED, rental, rid));
    }

    /** A webhook, from the checks of the payment it found to the event that records it. */
    method ReceiveLoaded(req: WebhookRequest, state: WebhookState, dbNow: int) returns (r: Result<WebhookResult>)
      requires Receivable(repo.tables, req)
      requires WebhookRow(repo.tables.payments, req, state.rid) && Joined(repo.tables, state.rid)
      requires state == WebhookStateOf(repo.tables, state.rid)
      modifies repo`tables, repo`calls
      ensures Performs(ProcessWebhookFor(old(repo.tables), req, state.rid, dbNow), repo.tables, r, repo.failing, old(repo.calls), repo.calls)
    {
      var rid, rental, payment, account := state.rid, state.rental, state.payment, state.account;

      if payment.id != req.paymentId || rid != req.rentalId { return Err(WebhookIdentifierMismatch); }
      if payment.provider != Internal { return Err(WebhookProviderUnsupported); }
      if payment.amount != req.amount || payment.currency != req.currency { return Err(WebhookFinancialMismatch); }
      if rental.price <= 0 || rental.deposit < 0 || rental.price > MAX_INT64 - rental.deposit
         || WrapInt64(rental.price + rental.deposit) != payment.amount {
        return Err(WebhookFinancialMismatch);
      }

      if payment.status == Paid {
        if payment.externalTx != Some(req.externalTx) { return Err(WebhookExternalTxMismatch); }
        if rental.status != Active || account.status != Rented { return Err(WebhookInvalidTransition); }
        return Ok(WebhookResult(payment.id, rid, rental.accountId, true));
      }
      if payment.status != Pending { return Err(WebhookNotSuccessful); }
      if rental.status != WaitingPayment || account.status != Reserved { return Err(WebhookInvalidTransition); }

      var e := SettleWebhook(req, state, dbNow);
      if e.Some? { return Err(e.value); }
      r := Ok(WebhookResult(payment.id, rid, rental.accountId, false));
    }

    method ReceiveWithin(req: WebhookRequest, dbNow: int) returns (r: Result<WebhookResult>)
      requires ValidWebhookRequest(req) && req.status == "success" && Receivable(repo.tables, req)
      modifies repo`tables, repo`calls
      ensures Performs(Operations.ProcessWebhook(old(repo.tables), req, dbNow), repo.tables, r, repo.failing, old(repo.calls), repo.calls)
    {
      var loaded := repo.LockPaymentForWebhook(req);
      WebhookByRow(repo.tables, req, dbNow);
      if loaded.Err? { return Err(loaded.error); }
      r := ReceiveLoaded(req, loaded.value, dbNow);
    }

    /** The transaction of `ProcessWebhook`. */
    method ProcessWebhookTransacted(req: WebhookRequest, dbNow: int) returns (r: Result<WebhookResult>)
      requires ValidWebhookRequest(req) && req.status == "success" && Receivable(repo.tables, req)
      modifies repo
      ensures Serves(old(repo.inTransaction), Operations.ProcessWebhook(old(repo.tables), req, dbNow),
                     old(repo.tables), repo.tables, r, repo.failing, old(repo.calls), repo.calls)
      ensures repo.inTransaction == old(repo.inTransaction)
      ensures repo.inTransaction ==> repo.saved == old(repo.saved)
    {
      var e, owner := repo.Begin();
      if e.Some? { return Err(e.value); }
      var body := ReceiveWithin(req, dbNow);
      r := repo.Finish(owner, body);
    }

    method ProcessWebhook(req: WebhookRequest, dbNow: int) returns (r: Result<WebhookResult>)
      requires Valid(repo.tables)
      modifies repo
      ensures Serves(old(repo.inTransaction), Operations.ProcessWebhook(old(repo.tables), req, dbNow),
                     old(repo.tables), repo.tables, r, repo.failing, old(repo.calls), repo.calls)
      ensures repo.inTransaction == old(repo.inTransaction)
      ensures repo.inTransaction ==> repo.saved == old(repo.saved)
    {
      IsReceivable(repo.tables, req);
      if !ValidWebhookRequest(req) { return Err(WebhookInvalidPayload); }
      if req.status != "success" { return Err(WebhookNotSuccessful); }
      r := ProcessWebhookTransacted(req, dbNow);
    }

    // --- Completing and settling ------------------------------------------------------------------

    method CompleteRentalAfterSettlement(rid: int, rental: Rental, payment: Payment, actor: Option<int>, now: int)
      returns (r: Result<Option<int>>)
      requires rid in repo.tables.rentals && repo.tables.rentals[rid] == rental
      requires rid in repo.tables.payments && repo.tables.payments[rid] == payment
      modifies repo`tables, repo`calls
      ensures Performs(CompleteRental(old(repo.tables), rid, actor, now), repo.tables, r, repo.failing, old(repo.calls), repo.calls)
    {
      if rental.status == Completed { return Ok(rental.completedAt); }
      if rental.status != Expired || payment.status != Paid { return Err(DepositSettlementNotAllowed); }
      var changed := repo.MarkRentalCompleted(rid, now);
      if changed.Err? { return Err(changed.error); }
      if !changed.value { return Err(DepositSettlementNotAllowed); }
      var e := Record(RentalEvent(EVENT_RENTAL_COMPLETED, rental, rid), Audit(actor, "rental", rid, "rental_complete"));
      if e.Some? { return Err(e.value); }
      r := Ok(Some(now));
    }

    /** A credit and the row that books it. */
    method CreditAndBook(entry: Entry) returns (e: Option<Error>)
      requires entry.userId in repo.tables.users && !HasKey(repo.tables.ledger, entry.key)
      modifies repo`tables, repo`calls
      ensures var t := old(repo.tables);
              var balance := t.users[entry.userId].balance + entry.amount;
              && (e.None? ==> balance <= MAX_INT64
                              && repo.tables == t.(users := WithBalance(t.users, entry.userId, balance), ledger := t.ledger + [entry]))
              && (e.Some? ==> Stopped(e.value, repo.failing, old(repo.calls), repo.calls) || (e == Some(BalanceOutOfRange) && balance > MAX_INT64))
      ensures repo.calls >= old(repo.calls)
    {
      e := repo.CreditUserBalance(entry.userId, entry.amount);
      if e.Some? { return e; }
      e := repo.InsertLedgerEntry(entry);
    }

    /** The hold is released and its amount credited. */
    method MoveDeposit(rid: int, released: Hold, entry: Entry) returns (e: Option<Error>)
      requires rid in repo.tables.holds && repo.tables.holds[rid].status == Held
      requires entry.userId in repo.tables.users && !HasKey(repo.tables.ledger, entry.key)
      modifies repo`tables, repo`calls
      ensures var t := old(repo.tables);
              var balance := t.users[entry.userId].balance + entry.amount;
              && (e.None? ==> balance <= MAX_INT64
                              && repo.tables == t.(holds := t.holds[rid := released],
                                                   users := WithBalance(t.users, entry.userId, balance), ledger := t.ledger + [entry]))
              && (e.Some? ==> Stopped(e.value, repo.failing, old(repo.calls), repo.calls) || (e == Some(BalanceOutOfRange) && balance > MAX_INT64))
      ensures repo.calls >= old(repo.calls)
    {
      e := repo.SettleHeldDeposit(rid, released);
      if e.Some? { return e; }
      e := CreditAndBook(entry);
    }

    /** What settles a deposit in favour of the user, by an administrator or by the scheduler. */
    method PayOutDeposit(rid: int, state: SettlementState, source: SettlementSource, settler: Option<int>, key: LedgerKey, action: string, now: int)
      returns (e: Option<Error>)
      requires Joined(repo.tables, rid) && rid in repo.tables.holds && repo.tables.holds[rid].status == Held
      requires state == SettlementState(repo.tables.rentals[rid], repo.tables.payments[rid], Some(repo.tables.holds[rid]))
      requires !HasKey(repo.tables.ledger, key)
      modifies repo`tables, repo`calls
      ensures Performs(PayOut(old(repo.tables), rid, source, settler, key, action, now), repo.tables, Reply(e), repo.failing, old(repo.calls), repo.calls)
    {
      var rental, hold := state.rental, state.hold.value;
      e := MoveDeposit(rid, ReleasedHold(hold, source, settler, now),
                       RentalEntry(DepositReleasedToBalance, rental, rid, hold.amount, state.payment.currency, key));
      if e.Some? { return e; }
      e := Record(RentalEvent(EVENT_DEPOSIT_RELEASED, rental, rid), Audit(settler, "deposit_hold", rid, action));
    }

    method LoadDepositSettlementState(rid: int) returns (r: Result<SettlementState>)
      modifies repo`calls
      ensures r.Ok? ==> Joined(repo.tables, rid) && rid in repo.tables.holds
                        && r.value == SettlementState(repo.tables.rentals[rid], repo.tables.payments[rid], Some(repo.tables.holds[rid]))
      ensures r.Err? ==> Stopped(r.error, repo.failing, old(repo.calls), repo.calls)
                         || (if SettlementLoadError(repo.tables, rid).Some? then r.error == SettlementLoadError(repo.tables, rid).value
                             else rid !in repo.tables.holds && r.error == DepositSettlementNotAllowed)
      ensures repo.calls >= old(repo.calls)
    {
      r := repo.LockDepositSettlementState(rid);
      if r.Ok? && r.value.hold.Some? { return; }
      if r.Err? && r.error != DepositHoldNotFound { return; }
      var known := repo.LoadDepositSettlementEligibility(rid);
      if known.Err? { return Err(known.error); }
      r := Err(if known.value then DepositSettlementNotAllowed else DepositHoldNotFound);
    }

    /** How a settlement by an administrator begins. */
    method LoadAsAdmin(actor: int, rid: int) returns (r: Result<SettlementState>)
      modifies repo`calls
      ensures r.Ok? ==> IsCurrentAdmin(repo.tables, actor) && Joined(repo.tables, rid) && rid in repo.tables.holds
                        && r.value == SettlementState(repo.tables.rentals[rid], repo.tables.payments[rid], Some(repo.tables.holds[rid]))
      ensures r.Err? ==> Stopped(r.error, repo.failing, old(repo.calls), repo.calls)
                         || (if !IsCurrentAdmin(repo.tables, actor) then r.error == AdminRequired
                             else if SettlementLoadError(repo.tables, rid).Some? then r.error == SettlementLoadError(repo.tables, rid).value
                             else rid !in repo.tables.holds && r.error == DepositSettlementNotAllowed)
      ensures repo.calls >= old(repo.calls)
    {
      var e := repo.LockKey();
      if e.Some? { return Err(e.value); }
      e := repo.RequireCurrentAdmin(actor);
      if e.Some? { return Err(e.value); }
      r := LoadDepositSettlementState(rid);
    }

    method ReleaseWithin(actor: int, role: string, rid: int, now: int) returns (r: Result<SettlementResult>)
      requires role == ADMIN_ROLE && Settleable(repo.tables, rid)
      modifies repo`tables, repo`calls
      ensures Performs(Operations.ReleaseDeposit(old(repo.tables), actor, role, rid, now), repo.tables, r, repo.failing, old(repo.calls), repo.calls)
    {
      var loaded := LoadAsAdmin(actor, rid);
      if loaded.Err? { return Err(loaded.error); }
      var state := loaded.value;
      var hold := state.hold.value;
      var e := ValidateDepositReleaseState(state);
      if e.Some? { return Err(e.value); }

      if hold.status == Released {
        if hold.source.Some? && hold.source != Some(AdminRelease) { return Err(DepositAlreadySettled); }
        var replay := CompleteRentalAfterSettlement(rid, state.rental, state.payment, Some(actor), now);
        if replay.Err? { return Err(replay.error); }
        return Ok(SettlementResult(false, true, hold.status, hold.settledAt, replay.value));
      }

      e := PayOutDeposit(rid, state, AdminRelease, Some(actor), ReleaseKey(rid), "deposit_release", now);
      if e.Some? { return Err(e.value); }
      var done := CompleteRentalAfterSettlement(rid, state.rental, state.payment, Some(actor), now);
      if done.Err? { return Err(done.error); }
      r := Ok(SettlementResult(true, false, Released, Some(now), done.value));
    }

    /** The transaction of `ReleaseDeposit`. */
    method ReleaseDepositTransacted(actor: int, role: string, rid: int, now: int) returns (r: Result<SettlementResult>)
      requires role == ADMIN_ROLE && Settleable(repo.tables, rid)
      modifies repo
      ensures Serves(old(repo.inTransaction), Operations.ReleaseDeposit(old(repo.tables), actor, role, rid, now),
                     old(repo.tables), repo.tables, r, repo.failing, old(repo.calls), repo.calls)
      ensures repo.inTransaction == old(repo.inTransaction)
      ensures repo.inTransaction ==> repo.saved == old(repo.saved)
    {
      var e, owner := repo.Begin();
      if e.Some? { return Err(e.value); }
      var body := ReleaseWithin(actor, role, rid, now);
      r := repo.Finish(owner, body);
    }

    method ReleaseDeposit(actor: int, role: string, rid: int, now: int) returns (r: Result<SettlementResult>)
      requires Valid(repo.tables)
      modifies repo
      ensures Serves(old(repo.inTransaction), Operations.ReleaseDeposit(old(repo.tables), actor, role, rid, now),
                     old(repo.tables), repo.tables, r, repo.failing, old(repo.calls), repo.calls)
      ensures repo.inTransaction == old(repo.inTransaction)
      ensures repo.inTransaction ==> repo.saved == old(repo.saved)
    {
      IsSettleable(repo.tables, rid);
      if role != ADMIN_ROLE { return Err(AdminRequired); }
      r := ReleaseDepositTransacted(actor, role, rid, now);
    }

    /** The hold is forfeited and the loss recorded. */
    method SeizeDeposit(rid: int, state: SettlementState, actor: int, reason: string, evidence: string, now: int) returns (e: Option<Error>)
      requires Joined(repo.tables, rid) && rid in repo.tables.holds && repo.tables.holds[rid].status == Held
      requires state == SettlementState(repo.tables.rentals[rid], repo.tables.payments[rid], Some(repo.tables.holds[rid]))
      requires !HasKey(repo.tables.ledger, ForfeitKey(rid))
      modifies repo`tables, repo`calls
      ensures e.Some? ==> Stopped(e.value, repo.failing, old(repo.calls), repo.calls)
      ensures e.None? ==> repo.tables == ForfeitHold(old(repo.tables), rid, actor, reason, evidence, now)
      ensures repo.calls >= old(repo.calls)
    {
      var rental, hold := state.rental, state.hold.value;
      var settled := hold.(status := Forfeited, source := Some(AdminForfeit), settledBy := Some(actor),
                           reason := reason, evidence := evidence, settledAt := Some(now));
      e := repo.SettleHeldDeposit(rid, settled);
      if e.Some? { return e; }
      e := repo.InsertLedgerEntry(RentalEntry(DepositForfeited, rental, rid, hold.amount, state.payment.currency, ForfeitKey(rid)));
      if e.Some? { return e; }
      e := Record(RentalEvent(EVENT_DEPOSIT_FORFEITED, rental, rid), Audit(Some(actor), "deposit_hold", rid, "deposit_forfeit"));
    }

    /** A held deposit is forfeited on evidence that is on record. */
    method ForfeitHeld(rid: int, state: SettlementState, actor: int, reason: string, evidence: string, eventId: int, now: int)
      returns (r: Result<SettlementResult>)
      requires Joined(repo.tables, rid) && rid in repo.tables.holds && repo.tables.holds[rid].status == Held
      requires state == SettlementState(repo.tables.rentals[rid], repo.tables.payments[rid], Some(repo.tables.holds[rid]))
      requires !HasKey(repo.tables.ledger, ForfeitKey(rid))
      modifies repo`tables, repo`calls
      ensures Performs(ForfeitVerified(old(repo.tables), actor, rid, reason, evidence, eventId, now),
                       repo.tables, r, repo.failing, old(repo.calls), repo.calls)
    {
      var verified := repo.VerifyDepositForfeitEvidence(rid, state.rental, eventId);
      if verified.Err? { return Err(verified.error); }
      if !verified.value { return Err(InvalidEvidenceReference); }
      var e := SeizeDeposit(rid, state, actor, reason, evidence, now);
      if e.Some? { return Err(e.value); }
      var done := CompleteRentalAfterSettlement(rid, state.rental, state.payment, Some(actor), now);
      if done.Err? { return Err(done.error); }
      r := Ok(SettlementResult(true, false, Forfeited, Some(now), done.value));
    }

    /** A deposit is forfeited, or was and is so reported again. */
    method ForfeitLoaded(rid: int, state: SettlementState, actor: int, reason: string, evidence: string, eventId: int, now: int)
      returns (r: Result<SettlementResult>)
      requires Settleable(repo.tables, rid) && Joined(repo.tables, rid) && rid in repo.tables.holds
      requires state == SettlementState(repo.tables.rentals[rid], repo.tables.payments[rid], Some(repo.tables.holds[rid]))
      modifies repo`tables, repo`calls
      ensures Performs(ForfeitOnce(old(repo.tables), actor, rid, reason, evidence, eventId, now),
                       repo.tables, r, repo.failing, old(repo.calls), repo.calls)
    {
      var rental, hold := state.rental, state.hold.value;
      var e := ValidateDepositForfeitState(state, now);
      if e.Some? { return Err(e.value); }

      if hold.status == Forfeited {
        if hold.source.Some? && (hold.source != Some(AdminForfeit) || hold.reason != reason || hold.evidence != evidence) {
          return Err(DepositAlreadySettled);
        }
        var replay := CompleteRentalAfterSettlement(rid, rental, state.payment, Some(actor), now);
        if replay.Err? { return Err(replay.error); }
        return Ok(SettlementResult(false, true, hold.status, hold.settledAt, replay.value));
      }

      r := ForfeitHeld(rid, state, actor, reason, evidence, eventId, now);
    }

    method ForfeitWithin(actor: int, role: string, rid: int, reason: string, evidence: string, eventId: int, now: int) returns (r: Result<SettlementResult>)
      requires role == ADMIN_ROLE && Settleable(repo.tables, rid)
      requires reason in FORFEIT_REASONS && ParseEvidence(evidence) == Some(eventId)
      modifies repo`tables, repo`calls
      ensures Performs(Operations.ForfeitDeposit(old(repo.tables), actor, role, rid, reason, evidence, now),
                       repo.tables, r, repo.failing, old(repo.calls), repo.calls)
    {
      var loaded := LoadAsAdmin(actor, rid);
      if loaded.Err? { return Err(loaded.error); }
      r := ForfeitLoaded(rid, loaded.value, actor, reason, evidence, eventId, now);
    }

    /** The transaction of `ForfeitDeposit`. */
    method ForfeitDepositTransacted(actor: int, role: string, rid: int, reason: string, evidence: string, eventId: int, now: int) returns (r: Result<SettlementResult>)
      requires role == ADMIN_ROLE && Settleable(repo.tables, rid) && reason in FORFEIT_REASONS && ParseEvidence(evidence) == Some(eventId)
      modifies repo
      ensures Serves(old(repo.inTransaction), Operations.ForfeitDeposit(old(repo.tables), actor, role, rid, reason, evidence, now),
                     old(repo.tables), repo.tables, r, repo.failing, old(repo.calls), repo.calls)
      ensures repo.inTransaction == old(repo.inTransaction)
      ensures repo.inTransaction ==> repo.saved == old(repo.saved)
    {
      var e, owner := repo.Begin();
      if e.Some? { return Err(e.value); }
      var body := ForfeitWithin(actor, role, rid, reason, evidence, eventId, now);
      r := repo.Finish(owner, body);
    }

    method ForfeitDeposit(actor: int, role: string, rid: int, reason: string, evidence: string, now: int) returns (r: Result<SettlementResult>)
      requires Valid(repo.tables)
      modifies repo
      ensures Serves(old(repo.inTransaction), Operations.ForfeitDeposit(old(repo.tables), actor, role, rid, reason, evidence, now),
                     old(repo.tables), repo.tables, r, repo.failing, old(repo.calls), repo.calls)
      ensures repo.inTransaction == old(repo.inTransaction)
      ensures repo.inTransaction ==> repo.saved == old(repo.saved)
    {
      IsSettleable(repo.tables, rid);
      if role != ADMIN_ROLE { return Err(AdminRequired); }
      if reason !in FORFEIT_REASONS { return Err(InvalidReasonCode); }
      var eventId := ParseEvidence(evidence);
      if eventId.None? { return Err(InvalidEvidenceReference); }
      r := ForfeitDepositTransacted(actor, role, rid, reason, evidence, eventId.value, now);
    }

    // --- Refunds ----------------------------------------------------------------------------------

    /** The rows a refund writes to the ledger. */
    method BookRefund(rid: int, state: SettlementState, amounts: RefundAmounts) returns (e: Option<Error>)
      requires !HasKey(repo.tables.ledger, PrincipalRefundKey(rid))
      requires amounts.deposit > 0 ==> !HasKey(repo.tables.ledger, DepositRefundKey(rid))
      modifies repo`tables, repo`calls
      ensures e.Some? ==> Stopped(e.value, repo.failing, old(repo.calls), repo.calls)
      ensures e.None? ==> repo.tables == old(repo.tables).(ledger := old(repo.tables.ledger) + RefundRows(rid, state, amounts))
      ensures repo.calls >= old(repo.calls)
    {
      var currency := state.payment.currency;
      var principal := RentalEntry(BalanceRefundCredit, state.rental, rid, amounts.principal, currency, PrincipalRefundKey(rid));
      ghost var ledger := repo.tables.ledger;
      e := repo.InsertLedgerEntry(principal);
      if e.Some? { return e; }
      if amounts.deposit <= 0 { return None; }
      var deposit := RentalEntry(DepositRefundCredit, state.rental, rid, amounts.deposit, currency, DepositRefundKey(rid));
      StillFree(ledger, principal, deposit.key);
      assert (ledger + [principal]) + [deposit] == ledger + [principal, deposit];
      e := repo.InsertLedgerEntry(deposit);
    }

    /** The credit, and the hold whose deposit it returns. */
    method CreditRefund(rid: int, state: SettlementState, amounts: RefundAmounts, actor: int, now: int) returns (e: Option<Error>)
      requires state.rental.userId in repo.tables.users
      requires amounts.deposit > 0 ==> rid in repo.tables.holds && repo.tables.holds[rid].status == Held && state.hold == Some(repo.tables.holds[rid])
      modifies repo`tables, repo`calls
      ensures var t := old(repo.tables);
              var balance := t.users[state.rental.userId].balance + WrapInt64(amounts.principal + amounts.deposit);
              && (e.None? ==> balance <= MAX_INT64
                              && repo.tables == t.(users := WithBalance(t.users, state.rental.userId, balance),
                                                   holds := if amounts.deposit > 0 then t.holds[rid := RefundedHold(t.holds[rid], actor, now)]
                                                            else t.holds))
              && (e.Some? ==> Stopped(e.value, repo.failing, old(repo.calls), repo.calls) || (e == Some(BalanceOutOfRange) && balance > MAX_INT64))
      ensures repo.calls >= old(repo.calls)
    {
      e := repo.CreditUserBalance(state.rental.userId, WrapInt64(amounts.principal + amounts.deposit));
      if e.Some? || amounts.deposit <= 0 { return e; }
      e := repo.SettleHeldDeposit(rid, RefundedHold(state.hold.value, actor, now));
    }

    /** The credit, the hold and the rows that book them. */
    method MoveRefund(rid: int, state: SettlementState, amounts: RefundAmounts, actor: int, now: int) returns (e: Option<Error>)
      requires RefundPending(repo.tables, rid) && state == LoadedState(repo.tables, rid)
      requires amounts == RefundAmounts(state.rental.price, RefundableDeposit(repo.tables, rid))
      modifies repo`tables, repo`calls
      ensures var t := old(repo.tables);
              var balance := t.users[state.rental.userId].balance + (amounts.principal + amounts.deposit);
              && (e.None? ==> balance <= MAX_INT64
                              && repo.tables == t.(users := WithBalance(t.users, state.rental.userId, balance),
                                                   holds := if amounts.deposit > 0 then t.holds[rid := RefundedHold(t.holds[rid], actor, now)]
                                                            else t.holds,
                                                   ledger := t.ledger + RefundRows(rid, state, amounts)))
              && (e.Some? ==> Stopped(e.value, repo.failing, old(repo.calls), repo.calls) || (e == Some(BalanceOutOfRange) && balance > MAX_INT64))
      ensures repo.calls >= old(repo.calls)
    {
      e := CreditRefund(rid, state, amounts, actor, now);
      if e.Some? { return e; }
      e := BookRefund(rid, state, amounts);
    }

    /** Everything between the creation of the refund and the completion of its rental. */
    method PayOutRefund(rid: int, state: SettlementState, amounts: RefundAmounts, actor: int, reason: string, now: int) returns (e: Option<Error>)
      requires RefundPending(repo.tables, rid) && state == LoadedState(repo.tables, rid)
      requires amounts == RefundAmounts(state.rental.price, RefundableDeposit(repo.tables, rid))
      modifies repo`tables, repo`calls
      ensures Performs(RefundOut(old(repo.tables), rid, actor, reason, now), repo.tables, Reply(e), repo.failing, old(repo.calls), repo.calls)
    {
      e := MoveRefund(rid, state, amounts, actor, now);
      if e.Some? { return e; }
      e := repo.MarkRefundCompleted(rid);
      if e.Some? { return e; }
      e := Record(RentalEvent(EVENT_WALLET_REFUND, state.rental, rid), Audit(Some(actor), "refund", rid, "wallet_refund_completed"));
    }

    /** The completion of the rental on its reloaded rows. */
    method CompleteReloaded(rid: int, actor: int, now: int) returns (r: Result<Option<int>>)
      requires Joined(repo.tables, rid)
      modifies repo`tables, repo`calls
      ensures Performs(CompleteRental(old(repo.tables), rid, Some(actor), now), repo.tables, r, repo.failing, old(repo.calls), repo.calls)
    {
      var loaded := repo.LockDepositSettlementState(rid);
      if loaded.Err? { return Err(loaded.error); }
      r := CompleteRentalAfterSettlement(rid, loaded.value.rental, loaded.value.payment, Some(actor), now);
    }

    method RefundWithin(actor: int, role: string, rid: int, reason: string, now: int) returns (r: Result<RefundResult>)
      requires role == ADMIN_ROLE && Refundable(repo.tables, rid) && reason in REFUND_REASONS
      modifies repo`tables, repo`calls
      ensures Performs(Operations.RefundWalletPayment(old(repo.tables), actor, role, rid, reason, now),
                       repo.tables, r, repo.failing, old(repo.calls), repo.calls)
    {
      var e := repo.LockKey();
      if e.Some? { return Err(e.value); }
      e := repo.RequireCurrentAdmin(actor);
      if e.Some? { return Err(e.value); }
      var loaded := repo.LockDepositSettlementState(rid);
      if loaded.Err? {
        return Err(if loaded.error == DepositHoldNotFound || loaded.error == PaymentNotFound then WalletRefundNotFound else loaded.error);
      }
      var state := loaded.value;
      var eligible := ValidateWalletRefundEligibility(state);
      if eligible.Err? { return Err(eligible.error); }
      r := RefundEligible(actor, rid, reason, state, eligible.value, now);
    }

    method RefundEligible(actor: int, rid: int, reason: string, state: SettlementState, amounts: RefundAmounts, now: int)
      returns (r: Result<RefundResult>)
      requires Refundable(repo.tables, rid) && Joined(repo.tables, rid) && RefundAllowed(repo.tables, rid)
      requires state == LoadedState(repo.tables, rid)
      requires amounts == RefundAmounts(state.rental.price, RefundableDeposit(repo.tables, rid))
      modifies repo`tables, repo`calls
      ensures Performs(RefundOnce(old(repo.tables), actor, rid, reason, now), repo.tables, r, repo.failing, old(repo.calls), repo.calls)
    {
      ghost var t := repo.tables;
      var rental, payment := state.rental, state.payment;
      var created := repo.CreateRefund(rid, Refund(
        payment.id, rental.userId, rental.accountId, RefundStatus.Requested, reason, actor,
        amounts.principal, amounts.deposit, WrapInt64(amounts.principal + amounts.deposit), payment.currency));
      if created.Err? { return Err(created.error); }
      var refund := created.value;

      if refund.status == RefundDone {
        var status := if WalletRefundDepositStatus(state) == Some(Held) then Some(Refunded) else WalletRefundDepositStatus(state);
        var replay := CompleteReloaded(rid, actor, now);
        if replay.Err? { return Err(replay.error); }
        return Ok(RefundResult(false, true, refund.principal, refund.deposit, refund.total, status));
      }

      var totals := repo.LoadCompletedRefundTotals(rid);
      if totals.Err? { return Err(totals.error); }
      if totals.value.principal + amounts.principal > rental.price { return Err(WalletRefundNotAllowed); }
      if totals.value.deposit + amounts.deposit > MaxRefundableDeposit(state) { return Err(WalletRefundNotAllowed); }

      RequestIsTransparent(t, repo.tables, rid, actor, reason, now);
      var e := PayOutRefund(rid, state, amounts, actor, reason, now);
      if e.Some? { return Err(e.value); }
      var done := CompleteReloaded(rid, actor, now);
      if done.Err? { return Err(done.error); }
      r := Ok(RefundResult(true, false, refund.principal, refund.deposit, refund.total,
                           if amounts.deposit > 0 then Some(Refunded) else WalletRefundDepositStatus(state)));
    }

    /** The transaction of `RefundWalletPayment`. */
    method RefundWalletPaymentTransacted(actor: int, role: string, rid: int, reason: string, now: int) returns (r: Result<RefundResult>)
      requires role == ADMIN_ROLE && Refundable(repo.tables, rid) && reason in REFUND_REASONS
      modifies repo
      ensures Serves(old(repo.inTransaction), Operations.RefundWalletPayment(old(repo.tables), actor, role, rid, reason, now),
                     old(repo.tables), repo.tables, r, repo.failing, old(repo.calls), repo.calls)
      ensures repo.inTransaction == old(repo.inTransaction)
      ensures repo.inTransaction ==> repo.saved == old(repo.saved)
    {
      var e, owner := repo.Begin();
      if e.Some? { return Err(e.value); }
      var body := RefundWithin(actor, role, rid, reason, now);
      r := repo.Finish(owner, body);
    }

    method RefundWalletPayment(actor: int, role: string, rid: int, reason: string, now: int) returns (r: Result<RefundResult>)
      requires Valid(repo.tables)
      modifies repo
      ensures Serves(old(repo.inTransaction), Operations.RefundWalletPayment(old(repo.tables), actor, role, rid, reason, now),
                     old(repo.tables), repo.tables, r, repo.failing, old(repo.calls), repo.calls)
      ensures repo.inTransaction == old(repo.inTransaction)
      ensures repo.inTransaction ==> repo.saved == old(repo.saved)
    {
      IsRefundable(repo.tables, rid);
      if role != ADMIN_ROLE { return Err(AdminRequired); }
      if reason !in REFUND_REASONS { return Err(InvalidReasonCode); }
      r := RefundWalletPaymentTransacted(actor, role, rid, reason, now);
    }
  }
}
