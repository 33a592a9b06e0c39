/** What every transaction of the services does to the tables, as one atomic step.

    Each function takes the tables a transaction starts from and returns the tables it commits
    together with the value or error it returns; an error always leaves the tables as they were.
    The functions are total: joins that find no row take the branch the query takes. */
module Operations {
  import opened Common
  import opened LedgerKeys
  import opened Tables
  import opened Pricing
  import opened Ordering

  datatype Outcome<+R> = Outcome(tables: Tables, result: Result<R>)

  // security_events.event_type
  const EVENT_RENTAL_ACTIVATED := 2
  const EVENT_SUSPICIOUS_ACTIVITY := 4
  const EVENT_SECURITY_INCIDENT := 6
  const EVENT_CREDENTIALS_ISSUED := 7
  const EVENT_RESERVATION_EXPIRED := 8
  const EVENT_RENTAL_CANCELLED := 9
  const EVENT_RENTAL_EXPIRED := 10
  const EVENT_DEPOSIT_RELEASED := 11
  const EVENT_DEPOSIT_FORFEITED := 12
  const EVENT_WALLET_PAYMENT := 13
  const EVENT_WALLET_REFUND := 14
  const EVENT_BALANCE_ADJUSTMENT := 15
  const EVENT_RENTAL_COMPLETED := 16

  const ADMIN_ROLE := "ADMIN"

  // --- Shared pieces ----------------------------------------------------------------------------

  /** `RequireCurrentAdmin`: judged on the user's row, not on the caller's token. */
  predicate IsCurrentAdmin(t: Tables, actor: int) {
    actor > 0 && actor in t.users && t.users[actor].admin && !t.users[actor].blocked
  }

  /** The rows a rental joins with: its account, its user and that user's payment. */
  predicate Joined(t: Tables, rid: int) {
    && rid in t.rentals
    && t.rentals[rid].accountId in t.accounts
    && t.rentals[rid].userId in t.users
    && rid in t.payments
    && t.payments[rid].userId == t.rentals[rid].userId
  }

  predicate IsLive(s: RentalStatus) {
    s == WaitingPayment || s == Active
  }

  predicate HasActiveRental(rentals: map<int, Rental>, aid: int) {
    exists r :: r in rentals && rentals[r].accountId == aid && rentals[r].status == Active
  }

  predicate HasLiveRental(rentals: map<int, Rental>, aid: int) {
    exists r :: r in rentals && rentals[r].accountId == aid && IsLive(rentals[r].status)
  }

  function RentalEvent(eventType: int, r: Rental, rid: int): Event {
    Event(None, eventType, r.userId, Some(r.accountId), Some(rid), true)
  }

  function RentalEntry(kind: EntryKind, r: Rental, rid: int, amount: int, currency: string, key: LedgerKey): Entry {
    Entry(kind, r.userId, Some(rid), amount, currency, key, None)
  }

  function WithBalance(users: map<int, User>, uid: int, balance: int): map<int, User>
    requires uid in users
  {
    users[uid := users[uid].(balance := balance)]
  }

  function WithStatus(accounts: map<int, Account>, aid: int, status: AccountStatus): map<int, Account>
    requires aid in accounts
  {
    accounts[aid := accounts[aid].(status := status)]
  }

  // --- Renting ----------------------------------------------------------------------------------

  /** `int64(duration.Hours())`, at least one hour for durations that truncate to zero. */
  function BilledHours(duration: int): int {
    var hours := if duration >= 0 then duration / HOUR else -((-duration) / HOUR);
    if hours == 0 then 1 else hours
  }

  function PeriodError(duration: int): Option<Error> {
    if duration <= 0 then Some(InvalidPeriod)
    else if duration < HOUR then Some(PeriodTooShort)
    else if duration > 720 * HOUR then Some(PeriodTooLong)
    else None
  }

  function RentError(t: Tables, uid: int, aid: int, duration: int, rentalId: int, paymentId: int): Option<Error> {
    if aid !in t.accounts || t.accounts[aid].deleted then Some(AccountNotFound)
    else if t.accounts[aid].status != Available then Some(AccountNotAvailable)
    else if uid !in t.users then Some(UserNotFound)
    else if t.users[uid].blocked then Some(UserBlocked)
    else
      var total := CalculateRentalTotal(t.accounts[aid].hourlyPrice, t.accounts[aid].deposit, BilledHours(duration));
      if total.Err? then Some(total.error)
      else if t.users[uid].balance < total.value.payment then Some(InsufficientBalance)
      else if PeriodError(duration).Some? then PeriodError(duration)
      else if uid <= 0 then Some(InvalidUserID)
      else if aid <= 0 then Some(InvalidAccountID)
      else if rentalId in t.rentals then Some(DuplicateKey)
      else if HasLiveRental(t.rentals, aid) then Some(AccountNotAvailable)
      else if PaymentIdTaken(t.payments, paymentId) then Some(DuplicateKey)
      else None
  }

  predicate PaymentIdTaken(payments: map<int, Payment>, pid: int) {
    exists r :: r in payments && payments[r].id == pid
  }

  function NewRental(uid: int, aid: int, total: Total, deposit: int, duration: int, now: int, dbNow: int): Rental {
    Rental(uid, aid, WaitingPayment, total.rentalPrice, deposit, now, now + duration,
           dbNow + PAYMENT_WINDOW, None, None, None)
  }

  /** `RentAccount`.  `now` is the service's clock, `dbNow` the database's; the ids are those drawn
      by `generateRandomID` and by the payment sequence. */
  function RentAccount(t: Tables, uid: int, aid: int, duration: int, now: int, dbNow: int, rentalId: int, paymentId: int)
    : Outcome<Rental>
  {
    var e := RentError(t, uid, aid, duration, rentalId, paymentId);
    if e.Some? then Outcome(t, Err(e.value))
    else
      var acc := t.accounts[aid];
      var total := CalculateRentalTotal(acc.hourlyPrice, acc.deposit, BilledHours(duration)).value;
      var rental := NewRental(uid, aid, total, acc.deposit, duration, now, dbNow);
      Outcome(
        t.(accounts := WithStatus(t.accounts, aid, Reserved),
           rentals := t.rentals[rentalId := rental],
           payments := t.payments[rentalId := Payment(paymentId, uid, Internal, None, Pending, total.payment, USD)]),
        Ok(rental))
  }

  /** `CancelRental`; the result tells whether the call changed anything. */
  function CancelRental(t: Tables, uid: int, rid: int, now: int): Outcome<bool> {
    if Joined(t, rid) && t.rentals[rid].userId == uid && t.rentals[rid].status == WaitingPayment
       && t.payments[rid].status == Pending && t.accounts[t.rentals[rid].accountId].status == Reserved
    then
      var r := t.rentals[rid];
      if HasActiveRental(t.rentals, r.accountId) then Outcome(t, Err(InvalidTransition))
      else
        Outcome(
          t.(payments := t.payments[rid := t.payments[rid].(status := Failed)],
             rentals := t.rentals[rid := r.(status := Cancelled, finishedAt := Some(now))],
             accounts := WithStatus(t.accounts, r.accountId, Available),
             events := t.events + [RentalEvent(EVENT_RENTAL_CANCELLED, r, rid)]),
          Ok(true))
    else if rid !in t.rentals || t.rentals[rid].userId != uid then Outcome(t, Err(RentalNotFound))
    else if t.rentals[rid].status == Cancelled then Outcome(t, Ok(false))
    else Outcome(t, Err(CannotCancel))
  }

  /** The guard of `GetRentalCredentials`. */
  predicate CredentialsAvailable(t: Tables, uid: int, rid: int, now: int) {
    && Joined(t, rid)
    && t.rentals[rid].userId == uid
    && t.payments[rid].status == Paid
    && t.rentals[rid].status == Active
    && t.rentals[rid].startAt <= now < t.rentals[rid].endAt
    && t.accounts[t.rentals[rid].accountId].status == Rented
    && rid !in t.refunds
  }

  function IssueCredentials(t: Tables, uid: int, rid: int, now: int): Outcome<int> {
    if !CredentialsAvailable(t, uid, rid, now) then Outcome(t, Err(CredentialsNotAvailable))
    else
      Outcome(t.(events := t.events + [RentalEvent(EVENT_CREDENTIALS_ISSUED, t.rentals[rid], rid)]),
              Ok(t.rentals[rid].accountId))
  }

  // --- Schedulers -------------------------------------------------------------------------------

  predicate ReservationExpired(t: Tables, rid: int, now: int) {
    && rid in t.payments && rid in t.rentals && t.rentals[rid].accountId in t.accounts
    && t.payments[rid].provider == Internal
    && t.payments[rid].status == Pending
    && t.rentals[rid].status == WaitingPayment
    && t.accounts[t.rentals[rid].accountId].status == Reserved
    && t.rentals[rid].paymentExpiresAt <= now
  }

  /** `ExpireWaitingPaymentReservation`, for the payment of rental `rid`. */
  function ExpireReservation(t: Tables, rid: int, now: int): Outcome<bool> {
    if !ReservationExpired(t, rid, now) then Outcome(t, Ok(false))
    else
      var r := t.rentals[rid];
      Outcome(
        t.(payments := t.payments[rid := t.payments[rid].(status := Failed)],
           rentals := t.rentals[rid := r.(status := Expired)],
           accounts := WithStatus(t.accounts, r.accountId, Available),
           events := t.events + [RentalEvent(EVENT_RESERVATION_EXPIRED, r, rid)]),
        Ok(true))
  }

  /** The subquery that decides whether an expiring rental gets a deposit review deadline. */
  predicate HeldForReview(t: Tables, rid: int) {
    && rid in t.rentals && rid in t.payments && rid in t.holds
    && t.payments[rid].userId == t.rentals[rid].userId
    && t.payments[rid].status == Paid
    && t.holds[rid].paymentId == t.payments[rid].id
    && t.holds[rid].userId == t.payments[rid].userId
    && t.holds[rid].status == Held
    && t.holds[rid].amount == t.rentals[rid].deposit
    && t.holds[rid].currency == t.payments[rid].currency
  }

  predicate RentalOverdue(t: Tables, rid: int, aid: int, now: int) {
    && rid in t.rentals && t.rentals[rid].accountId == aid && aid in t.accounts
    && t.rentals[rid].status == Active
    && t.rentals[rid].endAt <= now
    && t.accounts[aid].status == Rented
  }

  predicate OtherActiveRental(rentals: map<int, Rental>, aid: int, rid: int) {
    exists r :: r in rentals && rentals[r].accountId == aid && r != rid && rentals[r].status == Active
  }

  /** `ExpireRental`. */
  function ExpireRental(t: Tables, rid: int, aid: int, now: int): Outcome<bool> {
    if !RentalOverdue(t, rid, aid, now) then Outcome(t, Ok(false))
    else if OtherActiveRental(t.rentals, aid, rid) then Outcome(t, Err(DatabaseFailure))
    else
      var r := t.rentals[rid];
      var deadline := if r.deposit > 0 && HeldForReview(t, rid) then Some(r.endAt + REVIEW_WINDOW) else None;
      Outcome(
        t.(rentals := t.rentals[rid := r.(status := Expired, finishedAt := Some(r.endAt), reviewDeadline := deadline)],
           accounts := WithStatus(t.accounts, aid, Available),
           events := t.events + [RentalEvent(EVENT_RENTAL_EXPIRED, r, rid)]),
        Ok(true))
  }

  /** The rows of `GetExpiredRentals`. */
  function OverdueRentals(t: Tables, now: int): set<int> {
    set r | r in t.rentals && t.rentals[r].status == Active && t.rentals[r].endAt <= now
  }

  function EndRank(t: Tables): map<int, int> {
    map r | r in t.rentals :: t.rentals[r].endAt
  }

  /** The rows of `GetExpiredWaitingPaymentReservations`. */
  function ExpiredReservations(t: Tables, now: int): set<int> {
    set r | r in t.rentals && ReservationExpired(t, r, now)
  }

  function ExpiryRank(t: Tables): map<int, int> {
    map r | r in t.rentals :: t.rentals[r].paymentExpiresAt
  }

  // --- Taking payment ---------------------------------------------------------------------------

  function NewHold(r: Rental, p: Payment): Hold {
    Hold(r.userId, p.id, r.deposit, p.currency, Held, None, None, "", "", None)
  }

  /** The row that records a positive deposit as held. */
  function DepositEntries(r: Rental, rid: int, p: Payment): seq<Entry> {
    if r.deposit > 0 then [RentalEntry(DepositHeld, r, rid, r.deposit, p.currency, HoldKey(rid))] else []
  }

  function ChargeEntries(r: Rental, rid: int, p: Payment, kind: EntryKind, key: LedgerKey, amount: int): seq<Entry> {
    [RentalEntry(kind, r, rid, amount, p.currency, key)] + DepositEntries(r, rid, p)
  }

  /** What the webhook and the wallet have in common: the payment succeeds, the rental becomes
      active, the account rented and the deposit held. */
  function Activate(t: Tables, rid: int, paid: Payment, entries: seq<Entry>): Tables
    requires Joined(t, rid)
  {
    var r := t.rentals[rid];
    t.(payments := t.payments[rid := paid],
       rentals := t.rentals[rid := r.(status := Active)],
       accounts := WithStatus(t.accounts, r.accountId, Rented),
       holds := if r.deposit > 0 then t.holds[rid := NewHold(r, t.payments[rid])] else t.holds,
       ledger := t.ledger + entries)
  }

  datatype WebhookRequest = WebhookRequest(
    paymentId: int, rentalId: int, externalTx: string, provider: string,
    amount: int, currency: string, status: string)

  datatype WebhookResult = WebhookResult(paymentId: int, rentalId: int, accountId: int, idempotent: bool)

  predicate IsSafeTxChar(c: char) {
    'a' <= c <= 'z' || 'A' <= c <= 'Z' || '0' <= c <= '9' || c == '-' || c == '_' || c == '.' || c == ':'
  }

  /** `validateWebhookRequest`, after the ids were parsed. */
  predicate ValidWebhookRequest(req: WebhookRequest) {
    && 0 < req.paymentId <= MAX_INT64 && 0 < req.rentalId <= MAX_INT64
    && 0 < |req.externalTx| <= 128 && (forall i :: 0 <= i < |req.externalTx| ==> IsSafeTxChar(req.externalTx[i]))
    && req.provider == "internal"
    && req.amount > 0
    && |req.currency| == 3
    && 0 < |req.status| <= 16
  }

  predicate SettledBy(p: Payment, externalTx: string) {
    p.provider == Internal && p.externalTx == Some(externalTx)
  }

  /** `WHERE provider = 'internal' AND external_transaction_id = $2`, else `WHERE id = $1`. */
  ghost predicate WebhookRow(payments: map<int, Payment>, req: WebhookRequest, rid: int) {
    && rid in payments
    && (SettledBy(payments[rid], req.externalTx)
        || (payments[rid].id == req.paymentId
            && forall r :: r in payments ==> !SettledBy(payments[r], req.externalTx)))
  }

  ghost predicate HasWebhookRow(payments: map<int, Payment>, req: WebhookRequest) {
    exists r :: WebhookRow(payments, req, r)
  }

  /** The unique index on provider and transaction id refuses `tx` for the payment of rental `rid`. */
  predicate TransactionTaken(payments: map<int, Payment>, rid: int, tx: string)
    requires rid in payments
  {
    exists s :: s in payments && s != rid && payments[s].provider == payments[rid].provider && payments[s].externalTx == Some(tx)
  }

  function WebhookError(t: Tables, req: WebhookRequest, rid: int): Option<Error>
    requires Joined(t, rid)
  {
    var r, p, a := t.rentals[rid], t.payments[rid], t.accounts[t.rentals[rid].accountId];
    if p.id != req.paymentId || rid != req.rentalId then Some(WebhookIdentifierMismatch)
    else if p.provider != Internal then Some(WebhookProviderUnsupported)
    else if p.amount != req.amount || p.currency != req.currency then Some(WebhookFinancialMismatch)
    else if r.price <= 0 || r.deposit < 0 || r.price > MAX_INT64 - r.deposit || WrapInt64(r.price + r.deposit) != p.amount
    then Some(WebhookFinancialMismatch)
    else if p.status == Paid then
      if p.externalTx != Some(req.externalTx) then Some(WebhookExternalTxMismatch)
      else if r.status != Active || a.status != Rented then Some(WebhookInvalidTransition)
      else None
    else if p.status != Pending then Some(WebhookNotSuccessful)
    else if r.status != WaitingPayment || a.status != Reserved then Some(WebhookInvalidTransition)
    else None
  }

  /** `ProcessWebhook`.  The only clock that matters is the database's. */
  ghost function ProcessWebhook(t: Tables, req: WebhookRequest, dbNow: int): Outcome<WebhookResult> {
    if !ValidWebhookRequest(req) then Outcome(t, Err(WebhookInvalidPayload))
    else if req.status != "success" then Outcome(t, Err(WebhookNotSuccessful))
    else if !HasWebhookRow(t.payments, req) then Outcome(t, Err(PaymentNotFound))
    else
      var rid :| WebhookRow(t.payments, req, rid);
      ProcessWebhookFor(t, req, rid, dbNow)
  }

  function ProcessWebhookFor(t: Tables, req: WebhookRequest, rid: int, dbNow: int): Outcome<WebhookResult> {
    if !Joined(t, rid) then Outcome(t, Err(PaymentNotFound))
    else
      var r, p := t.rentals[rid], t.payments[rid];
      var e := WebhookError(t, req, rid);
      if e.Some? then Outcome(t, Err(e.value))
      else if p.status == Paid then Outcome(t, Ok(WebhookResult(p.id, rid, r.accountId, true)))
      else if r.paymentExpiresAt <= dbNow then Outcome(t, Err(RentalNotEligible))
      else
        var paid := p.(status := Paid, externalTx := Some(req.externalTx));
        var entries := ChargeEntries(r, rid, p, ProviderPaymentReceived, WebhookKey(req.externalTx), p.amount);
        Outcome(
          Activate(t, rid, paid, entries).(events := t.events + [RentalEvent(EVENT_RENTAL_ACTIVATED, r, rid)]),
          Ok(WebhookResult(p.id, rid, r.accountId, false)))
  }

  datatype PayResult = PayResult(changed: bool, idempotent: bool, paymentId: int, rentalId: int, accountId: int, provider: Provider)

  function PayError(t: Tables, rid: int, now: int, dbNow: int): Option<Error>
    requires Joined(t, rid)
  {
    var r, p, a := t.rentals[rid], t.payments[rid], t.accounts[t.rentals[rid].accountId];
    if p.status == Paid then
      if r.status != Active || a.status != Rented then Some(WalletPaymentNotAllowed) else None
    else if p.status != Pending || r.status != WaitingPayment || a.status != Reserved then Some(WalletPaymentNotAllowed)
    else if r.paymentExpiresAt <= now then Some(WalletPaymentExpired)
    else if t.users[r.userId].balance < r.price + r.deposit then Some(WalletInsufficientBalance)
    else if r.paymentExpiresAt <= dbNow then Some(RentalNotEligible)
    else None
  }

  /** `PayRentalWithBalance`. */
  function PayRentalWithBalance(t: Tables, uid: int, rid: int, now: int, dbNow: int): Outcome<PayResult> {
    if !Joined(t, rid) || t.rentals[rid].userId != uid then Outcome(t, Err(WalletPaymentNotFound))
    else
      var r, p := t.rentals[rid], t.payments[rid];
      var e := PayError(t, rid, now, dbNow);
      if e.Some? then Outcome(t, Err(e.value))
      else if p.status == Paid then Outcome(t, Ok(PayResult(false, true, p.id, rid, r.accountId, p.provider)))
      else
        var total := r.price + r.deposit;
        var paid := p.(status := Paid, provider := Balance, externalTx := None);
        var entries := ChargeEntries(r, rid, p, BalanceDebit, DebitKey(rid), total);
        Outcome(
          Activate(t, rid, paid, entries).(
            users := WithBalance(t.users, uid, t.users[uid].balance - total),
            events := t.events + [RentalEvent(EVENT_WALLET_PAYMENT, r, rid)],
            audits := t.audits + [Audit(Some(uid), "payment", p.id, "wallet_payment_success")]),
          Ok(PayResult(true, false, p.id, rid, r.accountId, Balance)))
  }

  // --- Completing and settling -------------------------------------------------------------------

  /** The `WHERE` clause of `MarkRentalCompleted`. */
  predicate Completable(t: Tables, rid: int) {
    && rid in t.rentals && t.rentals[rid].status == Expired
    && rid in t.payments && t.payments[rid].userId == t.rentals[rid].userId && t.payments[rid].status == Paid
    && ((t.rentals[rid].deposit == 0 && rid !in t.holds)
        || (rid in t.holds
            && t.holds[rid].userId == t.rentals[rid].userId
            && t.holds[rid].paymentId == t.payments[rid].id
            && t.holds[rid].amount == t.rentals[rid].deposit
            && t.holds[rid].currency == t.payments[rid].currency
            && t.holds[rid].status != Held))
  }

  /** `completeRentalAfterSettlement`; returns the completion time of the rental. */
  function CompleteRental(t: Tables, rid: int, actor: Option<int>, now: int): Outcome<Option<int>>
    requires rid in t.rentals && rid in t.payments
  {
    var r := t.rentals[rid];
    if r.status == Completed then Outcome(t, Ok(r.completedAt))
    else if r.status != Expired || t.payments[rid].status != Paid || !Completable(t, rid)
    then Outcome(t, Err(DepositSettlementNotAllowed))
    else
      Outcome(
        t.(rentals := t.rentals[rid := r.(status := Completed, completedAt := Some(now))],
           events := t.events + [RentalEvent(EVENT_RENTAL_COMPLETED, r, rid)],
           audits := t.audits + [Audit(actor, "rental", rid, "rental_complete")]),
        Ok(Some(now)))
  }

  /** `LockDepositSettlementState`: the error of the joins, if any. */
  function SettlementLoadError(t: Tables, rid: int): Option<Error> {
    if rid !in t.rentals then Some(DepositHoldNotFound)
    else if t.rentals[rid].accountId !in t.accounts then Some(NoRows)
    else if rid !in t.payments || t.payments[rid].userId != t.rentals[rid].userId then Some(PaymentNotFound)
    else if t.rentals[rid].userId !in t.users then Some(NoRows)
    else None
  }

  /** `isConsistentPositiveDepositState`. */
  predicate ConsistentDeposit(t: Tables, rid: int) {
    && rid in t.rentals && rid in t.payments && rid in t.holds
    && t.rentals[rid].deposit > 0
    && t.holds[rid].amount == t.rentals[rid].deposit
    && t.holds[rid].userId == t.rentals[rid].userId
    && t.holds[rid].paymentId == t.payments[rid].id
    && t.holds[rid].currency == t.payments[rid].currency
  }

  datatype SettlementResult = SettlementResult(
    changed: bool, idempotent: bool, depositStatus: HoldStatus, settledAt: Option<int>, completedAt: Option<int>)

  function Settlement(changed: bool, hold: Hold, completion: Outcome<Option<int>>): Outcome<SettlementResult> {
    if completion.result.Err? then Outcome(completion.tables, Err(completion.result.error))
    else Outcome(completion.tables,
                 Ok(SettlementResult(changed, !changed, hold.status, hold.settledAt, completion.result.value)))
  }

  /** `validateDepositReleaseState`. */
  function ReleaseError(t: Tables, rid: int): Option<Error>
    requires Joined(t, rid) && rid in t.holds
  {
    var h := t.holds[rid];
    if h.status == Forfeited || h.status == Refunded then Some(DepositAlreadySettled)
    else if h.status == Released then
      if h.source.Some? && h.source != Some(AdminRelease) then Some(DepositAlreadySettled) else None
    else if t.payments[rid].status != Paid || t.rentals[rid].status != Expired || !ConsistentDeposit(t, rid)
            || t.rentals[rid].reviewDeadline.None?
    then Some(DepositSettlementNotAllowed)
    else None
  }

  function ReleasedHold(h: Hold, source: SettlementSource, settler: Option<int>, now: int): Hold {
    h.(status := Released, source := Some(source), settledBy := settler, reason := "", evidence := "", settledAt := Some(now))
  }

  /** The hold is released, its amount credited and the movement recorded. */
  function ReleaseHold(t: Tables, rid: int, source: SettlementSource, settler: Option<int>, key: LedgerKey, action: string, now: int): Tables
    requires Joined(t, rid) && rid in t.holds
  {
    var r, h := t.rentals[rid], t.holds[rid];
    t.(holds := t.holds[rid := ReleasedHold(h, source, settler, now)],
       users := WithBalance(t.users, r.userId, t.users[r.userId].balance + h.amount),
       ledger := t.ledger + [RentalEntry(DepositReleasedToBalance, r, rid, h.amount, t.payments[rid].currency, key)],
       events := t.events + [RentalEvent(EVENT_DEPOSIT_RELEASED, r, rid)],
       audits := t.audits + [Audit(settler, "deposit_hold", rid, action)])
  }

  predicate CreditFits(t: Tables, uid: int, amount: int)
    requires uid in t.users
  {
    t.users[uid].balance + amount <= MAX_INT64
  }

  /** A step of several that fails leaves the tables the transaction started from. */
  function Rollback<R>(t: Tables, o: Outcome<R>): Outcome<R> {
    if o.result.Err? then Outcome(t, o.result) else o
  }

  /** `ReleaseDeposit`. */
  function ReleaseDeposit(t: Tables, actor: int, role: string, rid: int, now: int): Outcome<SettlementResult> {
    if role != ADMIN_ROLE || !IsCurrentAdmin(t, actor) then Outcome(t, Err(AdminRequired))
    else if SettlementLoadError(t, rid).Some? then Outcome(t, Err(SettlementLoadError(t, rid).value))
    else if rid !in t.holds then Outcome(t, Err(DepositSettlementNotAllowed))
    else if ReleaseError(t, rid).Some? then Outcome(t, Err(ReleaseError(t, rid).value))
    else if t.holds[rid].status == Released then
      Rollback(t, Settlement(false, t.holds[rid], CompleteRental(t, rid, Some(actor), now)))
    else if !CreditFits(t, t.rentals[rid].userId, t.holds[rid].amount) then Outcome(t, Err(BalanceOutOfRange))
    else
      var t1 := ReleaseHold(t, rid, AdminRelease, Some(actor), ReleaseKey(rid), "deposit_release", now);
      Rollback(t, Settlement(true, t1.holds[rid], CompleteRental(t1, rid, Some(actor), now)))
  }

  const FORFEIT_REASONS: set<string> :=
    { "ACCOUNT_SECURITY_VIOLATION", "ADMIN_CORRECTION", "CREDENTIAL_MISUSE", "DAMAGE_CONFIRMED", "USER_CAUSED_GAME_BAN" }

  /** `validateDepositForfeitState`, with the replay check that follows it. */
  function ForfeitError(t: Tables, rid: int, reason: string, evidence: string, now: int): Option<Error>
    requires Joined(t, rid) && rid in t.holds
  {
    var h := t.holds[rid];
    if h.status == Released || h.status == Refunded then Some(DepositAlreadySettled)
    else if h.status == Forfeited then
      if h.source.Some? && (h.source != Some(AdminForfeit) || h.reason != reason || h.evidence != evidence)
      then Some(DepositAlreadySettled)
      else None
    else if t.payments[rid].status != Paid || t.rentals[rid].status != Expired || !ConsistentDeposit(t, rid)
            || t.rentals[rid].reviewDeadline.None?
    then Some(DepositSettlementNotAllowed)
    else if now >= t.rentals[rid].reviewDeadline.value then Some(DepositReviewDeadlinePassed)
    else None
  }

  /** `VerifyDepositForfeitEvidence`. */
  predicate EvidenceVerified(events: seq<Event>, r: Rental, rid: int, eventId: int) {
    exists i :: 0 <= i < |events| && IsEvidence(events[i], r, rid, eventId)
  }

  predicate IsEvidence(e: Event, r: Rental, rid: int, eventId: int) {
    && e.id == Some(eventId)
    && e.rental == Some(rid) && e.userId == r.userId && e.accountId == Some(r.accountId)
    && e.success
    && (e.eventType == EVENT_SUSPICIOUS_ACTIVITY || e.eventType == EVENT_SECURITY_INCIDENT)
  }

  function ForfeitHold(t: Tables, rid: int, actor: int, reason: string, evidence: string, now: int): Tables
    requires Joined(t, rid) && rid in t.holds
  {
    var r, h := t.rentals[rid], t.holds[rid];
    var settled := h.(status := Forfeited, source := Some(AdminForfeit), settledBy := Some(actor),
                      reason := reason, evidence := evidence, settledAt := Some(now));
    t.(holds := t.holds[rid := settled],
       ledger := t.ledger + [RentalEntry(DepositForfeited, r, rid, h.amount, t.payments[rid].currency, ForfeitKey(rid))],
       events := t.events + [RentalEvent(EVENT_DEPOSIT_FORFEITED, r, rid)],
       audits := t.audits + [Audit(Some(actor), "deposit_hold", rid, "deposit_forfeit")])
  }

  /** The forfeiture of a held deposit, if its evidence is on record. */
  function ForfeitVerified(t: Tables, actor: int, rid: int, reason: string, evidence: string, eventId: int, now: int)
    : Outcome<SettlementResult>
    requires Joined(t, rid) && rid in t.holds
  {
    if !EvidenceVerified(t.events, t.rentals[rid], rid, eventId) then Outcome(t, Err(InvalidEvidenceReference))
    else
      var t1 := ForfeitHold(t, rid, actor, reason, evidence, now);
      Rollback(t, Settlement(true, t1.holds[rid], CompleteRental(t1, rid, Some(actor), now)))
  }

  /** The forfeiture of a deposit by a current administrator: the first time it is carried out, later it
      is only reported. */
  function ForfeitOnce(t: Tables, actor: int, rid: int, reason: string, evidence: string, eventId: int, now: int)
    : Outcome<SettlementResult>
    requires Joined(t, rid) && rid in t.holds
  {
    if ForfeitError(t, rid, reason, evidence, now).Some? then Outcome(t, Err(ForfeitError(t, rid, reason, evidence, now).value))
    else if t.holds[rid].status == Forfeited then
      Rollback(t, Settlement(false, t.holds[rid], CompleteRental(t, rid, Some(actor), now)))
    else ForfeitVerified(t, actor, rid, reason, evidence, eventId, now)
  }

  /** `ForfeitDeposit`. */
  function ForfeitDeposit(t: Tables, actor: int, role: string, rid: int, reason: string, evidence: string, now: int)
    : Outcome<SettlementResult>
  {
    if role != ADMIN_ROLE then Outcome(t, Err(AdminRequired))
    else if reason !in FORFEIT_REASONS then Outcome(t, Err(InvalidReasonCode))
    else if ParseEvidence(evidence).None? then Outcome(t, Err(InvalidEvidenceReference))
    else if !IsCurrentAdmin(t, actor) then Outcome(t, Err(AdminRequired))
    else if SettlementLoadError(t, rid).Some? then Outcome(t, Err(SettlementLoadError(t, rid).value))
    else if rid !in t.holds then Outcome(t, Err(DepositSettlementNotAllowed))
    else ForfeitOnce(t, actor, rid, reason, evidence, ParseEvidence(evidence).value, now)
  }

  // --- Refunds -----------------------------------------------------------------------------------

  const REFUND_REASONS: set<string> := { "SERVICE_UNAVAILABLE", "ACCOUNT_INVALID", "ADMIN_CORRECTION" }

  /** `depositStatus` is `None` where the service answers "NONE". */
  datatype RefundResult = RefundResult(
    changed: bool, idempotent: bool, principal: int, deposit: int, total: int, depositStatus: Option<HoldStatus>)

  /** `validateWalletRefundEligibility`. */
  predicate RefundAllowed(t: Tables, rid: int)
    requires Joined(t, rid)
  {
    var r, p := t.rentals[rid], t.payments[rid];
    && p.provider == Balance && p.status == Paid
    && (r.status == Expired || r.status == Completed)
    && r.price > 0
    && (r.deposit > 0 ==> rid in t.holds)
  }

  /** The part of the deposit a refund returns: all of it while it is held, nothing afterwards. */
  function RefundableDeposit(t: Tables, rid: int): int
    requires rid in t.rentals
  {
    if t.rentals[rid].deposit > 0 && rid in t.holds && t.holds[rid].status == Held then t.holds[rid].amount else 0
  }

  function DepositStatusOf(t: Tables, rid: int): Option<HoldStatus>
    requires rid in t.rentals
  {
    if t.rentals[rid].deposit > 0 && rid in t.holds then Some(t.holds[rid].status) else None
  }

  function NewRefund(t: Tables, rid: int, actor: int, reason: string): Refund
    requires Joined(t, rid)
  {
    var r, p := t.rentals[rid], t.payments[rid];
    var d := RefundableDeposit(t, rid);
    Refund(p.id, r.userId, r.accountId, RefundDone, reason, actor, r.price, d, r.price + d, p.currency)
  }

  /** The stored refund, completed; a request left open earlier keeps its amounts. */
  function CompletedRefund(t: Tables, rid: int, actor: int, reason: string): Refund
    requires Joined(t, rid)
  {
    if rid in t.refunds then t.refunds[rid].(status := RefundDone) else NewRefund(t, rid, actor, reason)
  }

  function RefundedHold(h: Hold, actor: int, now: int): Hold {
    h.(status := Refunded, source := Some(WalletRefund), settledBy := Some(actor), reason := "", evidence := "", settledAt := Some(now))
  }

  function RefundEntries(t: Tables, rid: int): seq<Entry>
    requires Joined(t, rid)
  {
    var r, c := t.rentals[rid], t.payments[rid].currency;
    var d := RefundableDeposit(t, rid);
    [RentalEntry(BalanceRefundCredit, r, rid, r.price, c, PrincipalRefundKey(rid))]
    + (if d > 0 then [RentalEntry(DepositRefundCredit, r, rid, d, c, DepositRefundKey(rid))] else [])
  }

  function RefundTables(t: Tables, rid: int, actor: int, reason: string, now: int): Tables
    requires Joined(t, rid)
  {
    var r := t.rentals[rid];
    var d := RefundableDeposit(t, rid);
    t.(refunds := t.refunds[rid := CompletedRefund(t, rid, actor, reason)],
       users := WithBalance(t.users, r.userId, t.users[r.userId].balance + (r.price + d)),
       holds := if d > 0 then t.holds[rid := RefundedHold(t.holds[rid], actor, now)] else t.holds,
       ledger := t.ledger + RefundEntries(t, rid),
       events := t.events + [RentalEvent(EVENT_WALLET_REFUND, r, rid)],
       audits := t.audits + [Audit(Some(actor), "refund", rid, "wallet_refund_completed")])
  }

  function RefundOutcome(result: RefundResult, completion: Outcome<Option<int>>): Outcome<RefundResult> {
    if completion.result.Err? then Outcome(completion.tables, Err(completion.result.error))
    else Outcome(completion.tables, Ok(result))
  }

  /** The refund of an eligible payment: the first time it is carried out, later it is only reported. */
  function RefundOnce(t: Tables, actor: int, rid: int, reason: string, now: int): Outcome<RefundResult>
    requires Joined(t, rid)
  {
    if rid in t.refunds && t.refunds[rid].status == RefundDone then
      var f := t.refunds[rid];
      var status := if DepositStatusOf(t, rid) == Some(Held) then Some(Refunded) else DepositStatusOf(t, rid);
      Rollback(t, RefundOutcome(RefundResult(false, true, f.principal, f.deposit, f.total, status),
                                CompleteRental(t, rid, Some(actor), now)))
    else
      var d := RefundableDeposit(t, rid);
      if !CreditFits(t, t.rentals[rid].userId, t.rentals[rid].price + d) then Outcome(t, Err(BalanceOutOfRange))
      else
        var t1 := RefundTables(t, rid, actor, reason, now);
        var f := t1.refunds[rid];
        Rollback(t, RefundOutcome(RefundResult(true, false, f.principal, f.deposit, f.total, DepositStatusOf(t1, rid)),
                                  CompleteRental(t1, rid, Some(actor), now)))
  }

  /** `RefundWalletPayment`. */
  function RefundWalletPayment(t: Tables, actor: int, role: string, rid: int, reason: string, now: int): Outcome<RefundResult> {
    if role != ADMIN_ROLE then Outcome(t, Err(AdminRequired))
    else if reason !in REFUND_REASONS then Outcome(t, Err(InvalidReasonCode))
    else if !IsCurrentAdmin(t, actor) then Outcome(t, Err(AdminRequired))
    else if SettlementLoadError(t, rid).Some? then
      var e := SettlementLoadError(t, rid).value;
      Outcome(t, Err(if e == DepositHoldNotFound || e == PaymentNotFound then WalletRefundNotFound else e))
    else if !RefundAllowed(t, rid) then Outcome(t, Err(WalletRefundNotAllowed))
    else RefundOnce(t, actor, rid, reason, now)
  }

  // --- Finalization -------------------------------------------------------------------------------

  /** The `candidate` query of `LockNextRentalFinalizationState`. */
  predicate IsCandidate(t: Tables, rid: int, now: int) {
    && rid in t.rentals && rid in t.payments
    && t.payments[rid].userId == t.rentals[rid].userId && t.payments[rid].status == Paid
    && t.rentals[rid].status == Expired
    && ((t.rentals[rid].deposit == 0 && rid !in t.holds)
        || (ConsistentDeposit(t, rid)
            && (t.holds[rid].status != Held
                || (t.rentals[rid].reviewDeadline.Some? && t.rentals[rid].reviewDeadline.value <= now))))
  }

  function Candidates(t: Tables, now: int): set<int> {
    set r | r in t.rentals && IsCandidate(t, r, now)
  }

  /** `ORDER BY COALESCE(deposit_review_deadline_at, end_at), id`. */
  function QueueRank(t: Tables): map<int, int> {
    map r | r in t.rentals ::
      if t.rentals[r].reviewDeadline.Some? then t.rentals[r].reviewDeadline.value else t.rentals[r].endAt
  }

  datatype Finalized = NothingDue | FinalizedRental(rid: int, autoReleased: bool)

  function FinalizeOutcome(done: Finalized, completion: Outcome<Option<int>>): Outcome<Finalized> {
    if completion.result.Err? then Outcome(completion.tables, Err(completion.result.error))
    else Outcome(completion.tables, Ok(done))
  }

  /** The transaction `FinalizeExpiredRentals` runs on one locked rental. */
  function FinalizeRental(t: Tables, rid: int, now: int): Outcome<Finalized> {
    if SettlementLoadError(t, rid).Some? then
      Outcome(t, if SettlementLoadError(t, rid).value == DepositHoldNotFound then Ok(NothingDue)
                 else Err(SettlementLoadError(t, rid).value))
    else if t.rentals[rid].status != Expired || t.payments[rid].status != Paid then Outcome(t, Err(DepositSettlementNotAllowed))
    else if t.rentals[rid].deposit == 0 && rid !in t.holds then
      Rollback(t, FinalizeOutcome(FinalizedRental(rid, false), CompleteRental(t, rid, None, now)))
    else if !ConsistentDeposit(t, rid) then Outcome(t, Err(DepositSettlementNotAllowed))
    else if t.holds[rid].status != Held then
      Rollback(t, FinalizeOutcome(FinalizedRental(rid, false), CompleteRental(t, rid, None, now)))
    else if t.rentals[rid].reviewDeadline.None? || now < t.rentals[rid].reviewDeadline.value then
      Outcome(t, Err(DepositSettlementNotAllowed))
    else if !CreditFits(t, t.rentals[rid].userId, t.holds[rid].amount) then Outcome(t, Err(BalanceOutOfRange))
    else
      var t1 := ReleaseHold(t, rid, AutoRelease, None, AutoReleaseKey(rid), "deposit_auto_release", now);
      Rollback(t, FinalizeOutcome(FinalizedRental(rid, true), CompleteRental(t1, rid, None, now)))
  }

  /** One round of the loop of `FinalizeExpiredRentals`. */
  ghost function FinalizeNext(t: Tables, now: int): Outcome<Finalized> {
    if Candidates(t, now) == {} then Outcome(t, Ok(NothingDue))
    else FinalizeRental(t, First(Candidates(t, now), QueueRank(t)), now)
  }

  // --- Administration -----------------------------------------------------------------------------

  predicate IsSafeCodeChar(c: char) {
    'a' <= c <= 'z' || 'A' <= c <= 'Z' || '0' <= c <= '9' || c == '_' || c == '-'
  }

  predicate IsSafeReasonCode(s: string) {
    0 < |s| <= 64 && forall i :: 0 <= i < |s| ==> IsSafeCodeChar(s[i])
  }

  predicate IsSafeAdjustmentKey(s: string) {
    8 <= |s| <= 128 && forall i :: 0 <= i < |s| ==> IsSafeTxChar(s[i])
  }

  /** The request, with its texts already trimmed and its currency in upper case. */
  datatype AdjustmentInput = AdjustmentInput(amount: int, currency: string, reason: string, comment: string, clientKey: string)

  datatype AdjustmentResult = AdjustmentResult(
    actor: int, userId: int, previous: int, next: int, amount: int, currency: string,
    reason: string, comment: string, clientKey: string, replay: bool)

  /** The errors of `normalizeAdminBalanceAdjustment`. */
  function AdjustmentInputError(actor: int, target: int, input: AdjustmentInput): Option<Error> {
    if actor <= 0 || target <= 0 then Some(FinancialUserNotFound)
    else if input.amount == 0 then Some(AdjustmentAmountRequired)
    else if input.amount == MIN_INT64 then Some(AdjustmentOverflow)
    else if input.currency != USD then Some(AdjustmentCurrencyUnsupported)
    else if !IsSafeReasonCode(input.reason) then Some(InvalidReasonCode)
    else if |input.comment| > 500 then Some(AdjustmentCommentTooLong)
    else if !IsSafeAdjustmentKey(input.clientKey) then Some(AdjustmentKeyInvalid)
    else None
  }

  /** `checkedBalanceAdjustment`. */
  function CheckedAdjustment(previous: int, amount: int): Result<int> {
    if amount > 0 && previous > MAX_INT64 - amount then Err(AdjustmentOverflow)
    else if amount < 0 && previous < -amount then Err(AdjustmentWouldBeNegative)
    else Ok(WrapInt64(previous + amount))
  }

  function AdjustmentKind(amount: int): EntryKind {
    if amount < 0 then AdminBalanceDebit else AdminBalanceCredit
  }

  function Magnitude(amount: int): int {
    if amount < 0 then -amount else amount
  }

  /** The row `InsertAdminBalanceAdjustmentLedger` writes: a kind and a magnitude, no sign. */
  function AdjustmentEntry(actor: int, target: int, input: AdjustmentInput, previous: int, next: int): Entry {
    Entry(AdjustmentKind(input.amount), target, None, Magnitude(input.amount), input.currency,
          AdjustmentKey(input.clientKey),
          Some(AdjustmentMeta(actor, previous, next, input.reason, input.comment, input.clientKey)))
  }

  /** `GetAdminBalanceAdjustment`: the request as far as it can be read back from the row. */
  function StoredAdjustment(e: Entry): Option<AdjustmentResult> {
    if e.meta.None? then None
    else
      var m := e.meta.value;
      Some(AdjustmentResult(m.actor, e.userId, m.previous, m.next,
                            if e.kind == AdminBalanceDebit then -e.amount else e.amount,
                            e.currency, m.reason, m.comment, m.clientKey, true))
  }

  /** `adminBalanceAdjustmentMatches`. */
  predicate AdjustmentMatches(e: Entry, stored: AdjustmentResult, actor: int, target: int, input: AdjustmentInput) {
    && e.kind == AdjustmentKind(input.amount)
    && stored.actor == actor && stored.userId == target
    && stored.amount == input.amount && stored.currency == input.currency
    && stored.reason == input.reason && stored.comment == input.comment && stored.clientKey == input.clientKey
  }

  /** The part of an adjustment that follows the authorisation. */
  function AdjustKnown(t: Tables, actor: int, target: int, input: AdjustmentInput): Outcome<AdjustmentResult>
    requires target in t.users
  {
    match FindKey(t.ledger, AdjustmentKey(input.clientKey))
    case Some(e) =>
      var stored := StoredAdjustment(e);
      if stored.None? then Outcome(t, Err(DatabaseFailure))
      else if !AdjustmentMatches(e, stored.value, actor, target, input) then Outcome(t, Err(AdjustmentConflict))
      else Outcome(t, Ok(stored.value))
    case None =>
      var previous := t.users[target].balance;
      var next := CheckedAdjustment(previous, input.amount);
      if next.Err? then Outcome(t, Err(next.error))
      else
        Outcome(
          t.(ledger := t.ledger + [AdjustmentEntry(actor, target, input, previous, next.value)],
             users := WithBalance(t.users, target, next.value),
             audits := t.audits + [Audit(Some(actor), "user_balance", target, "admin_balance_adjustment")],
             events := t.events + [Event(None, EVENT_BALANCE_ADJUSTMENT, target, None, None, true)]),
          Ok(AdjustmentResult(actor, target, previous, next.value, input.amount, input.currency,
                              input.reason, input.comment, input.clientKey, false)))
  }

  /** `AdjustAdminBalance`. */
  function AdjustBalance(t: Tables, actor: int, role: string, target: int, input: AdjustmentInput): Outcome<AdjustmentResult> {
    if role != ADMIN_ROLE then Outcome(t, Err(AdminRequired))
    else if AdjustmentInputError(actor, target, input).Some? then Outcome(t, Err(AdjustmentInputError(actor, target, input).value))
    else if !IsCurrentAdmin(t, actor) then Outcome(t, Err(AdminRequired))
    else if target !in t.users then Outcome(t, Err(FinancialUserNotFound))
    else AdjustKnown(t, actor, target, input)
  }

  /** `disableAccountIfIdle`. */
  function DisableAccount(t: Tables, aid: int): Outcome<()> {
    if aid !in t.accounts || t.accounts[aid].deleted then Outcome(t, Err(NoRows))
    else if t.accounts[aid].status == Reserved || t.accounts[aid].status == Rented || HasLiveRental(t.rentals, aid)
    then Outcome(t, Err(AccountLifecycleConflict))
    else Outcome(t.(accounts := t.accounts[aid := t.accounts[aid].(status := Disabled, deleted := true)]), Ok(()))
  }

  /** `DisableAccountIfIdleAsCurrentAdmin`. */
  function DisableAccountAsAdmin(t: Tables, actor: int, aid: int): Outcome<()> {
    if !IsCurrentAdmin(t, actor) then Outcome(t, Err(AdminRequired)) else DisableAccount(t, aid)
  }

  /** `AdminService.CreateAccount`; `aid` is the id drawn from the sequence. */
  function CreateAccount(t: Tables, actor: int, aid: int, hourlyPrice: int, deposit: int): Outcome<int> {
    if ValidateAdminPricing(hourlyPrice, deposit).Some? then Outcome(t, Err(PricingOutOfRange))
    else if !IsCurrentAdmin(t, actor) then Outcome(t, Err(AdminRequired))
    else if aid in t.accounts then Outcome(t, Err(DuplicateKey))
    else Outcome(t.(accounts := t.accounts[aid := Account(Available, hourlyPrice, deposit, false)]), Ok(aid))
  }

  function Coalesce(o: Option<int>, d: int): int {
    if o.Some? then o.value else d
  }

  /** `AdminService.UpdateAccount`. */
  function UpdatePricing(t: Tables, actor: int, aid: int, hourlyPrice: Option<int>, deposit: Option<int>): Outcome<()> {
    if !IsCurrentAdmin(t, actor) then Outcome(t, Err(AdminRequired))
    else if aid !in t.accounts || t.accounts[aid].deleted then Outcome(t, Err(AccountNotFound))
    else
      var a := t.accounts[aid];
      var price, dep := Coalesce(hourlyPrice, a.hourlyPrice), Coalesce(deposit, a.deposit);
      if ValidateAdminPricing(price, dep).Some? then Outcome(t, Err(PricingOutOfRange))
      else Outcome(t.(accounts := t.accounts[aid := a.(hourlyPrice := price, deposit := dep)]), Ok(()))
  }

  /** `PostgresService.Register`; `uid` is the id drawn from the sequence. */
  function RegisterUser(t: Tables, uid: int): Outcome<int> {
    if uid in t.users then Outcome(t, Err(DuplicateKey))
    else Outcome(t.(users := t.users[uid := User(0, false, false)]), Ok(uid))
  }

  /** `AdminService.UpdateUser`, as far as role and block flag go. */
  function UpdateUser(t: Tables, actor: int, target: int, admin: Option<bool>, blocked: Option<bool>): Outcome<()> {
    if !IsCurrentAdmin(t, actor) then Outcome(t, Err(AdminRequired))
    else if actor == target then Outcome(t, Err(AdminSelfUpdateForbidden))
    else if target !in t.users then Outcome(t, Err(UserNotFound))
    else
      var u := t.users[target];
      var u' := u.(admin := if admin.Some? then admin.value else u.admin,
                   blocked := if blocked.Some? then blocked.value else u.blocked);
      Outcome(
        t.(users := t.users[target := u'],
           audits := if u' == u then t.audits
                     else t.audits + [Audit(Some(actor), "USER", target, "USER_SECURITY_STATE_UPDATED")]),
        Ok(()))
  }
}
