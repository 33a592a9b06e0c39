/** Two runs after which a credit would leave the range of its column: a rental that is due and cannot be
    finalized, and a refund that is eligible and cannot be made. */
module Overflows {
  import opened Common
  import opened LedgerKeys
  import opened Tables
  import opened Pricing
  import opened Ordering
  import opened Operations
  import opened Invariant
  import opened Steps
  import opened Runs
  import opened Eligibility

  const USER := 1
  const ADMIN := 2
  const ACCOUNT := 3
  const RENTAL := 4
  const PAYMENT := 5
  const TX := "tx-1"

  /** The clock at the end of the rental, and when the review of its deposit is over. */
  const OVER := HOUR
  const DUE := HOUR + REVIEW_WINDOW

  function Users(balance: int): map<int, User> {
    map[USER := User(balance, false, false), ADMIN := User(0, true, false)]
  }

  function OneAccount(status: AccountStatus): map<int, Account> {
    map[ACCOUNT := Account(status, 1, 1, false)]
  }

  function Reservation(): Rental {
    Rental(USER, ACCOUNT, WaitingPayment, 1, 1, 0, HOUR, PAYMENT_WINDOW, None, None, None)
  }

  function Unpaid(): Payment {
    Payment(PAYMENT, USER, Internal, None, Pending, 2, USD)
  }

  function Request(): WebhookRequest {
    WebhookRequest(PAYMENT, RENTAL, TX, "internal", 2, USD, "success")
  }

  function Adjustment(): AdjustmentInput {
    AdjustmentInput(2, USD, "CORRECTION", "", "adjust-1")
  }

  // --- The tables on the way ----------------------------------------------------------------------------

  /** A user who owns as much as a balance can hold, and an account with the smallest prices. */
  function Start(): Tables {
    Tables(Users(MAX_INT64), OneAccount(Available), map[], map[], map[], map[], [], [], [])
  }

  ghost predicate IsReserved(t: Tables) {
    && t.users == Users(MAX_INT64) && t.accounts == OneAccount(Reserved)
    && t.rentals == map[RENTAL := Reservation()] && t.payments == map[RENTAL := Unpaid()]
    && t.holds == map[] && t.refunds == map[] && t.ledger == []
  }

  ghost predicate IsPaid(p: Payment, provider: Provider) {
    p.id == PAYMENT && p.userId == USER && p.status == Paid && p.currency == USD && p.provider == provider
  }

  /** The rental is paid for through `provider` and its deposit held. */
  ghost predicate HasDeposit(t: Tables, balance: int, provider: Provider) {
    && t.users == Users(balance) && t.refunds == map[]
    && t.payments.Keys == {RENTAL} && IsPaid(t.payments[RENTAL], provider)
    && t.holds == map[RENTAL := NewHold(Reservation(), Unpaid())]
    && forall e :: e in t.ledger ==> !e.key.AdjustmentKey?
  }

  ghost predicate IsActive(t: Tables) {
    && t.accounts == OneAccount(AccountStatus.Rented)
    && t.rentals == map[RENTAL := Reservation().(status := Active)]
  }

  ghost predicate IsExpired(t: Tables) {
    t.rentals == map[RENTAL := Reservation().(status := Expired, finishedAt := Some(HOUR), reviewDeadline := Some(DUE))]
  }

  /** Everything a refund looks at is as after the payment, but the user is as rich as before. */
  ghost predicate Restored(t: Tables) {
    && t.users == Users(MAX_INT64) && IsExpired(t) && t.refunds == map[]
    && t.payments.Keys == {RENTAL} && IsPaid(t.payments[RENTAL], Balance)
    && t.holds == map[RENTAL := NewHold(Reservation(), Unpaid())]
  }

  lemma RentStep(t: Tables)
    requires t == RentAccount(Start(), USER, ACCOUNT, HOUR, 0, 0, RENTAL, PAYMENT).tables
    ensures IsReserved(t)
  {
    assert BilledHours(HOUR) == 1;
    assert CalculateRentalTotal(1, 1, 1) == Ok(Total(1, 2));
    assert RentError(Start(), USER, ACCOUNT, HOUR, RENTAL, PAYMENT) == None;
    assert WithStatus(Start().accounts, ACCOUNT, Reserved) == OneAccount(Reserved);
  }

  lemma WebhookStep(t: Tables, t': Tables)
    requires IsReserved(t) && t' == ProcessWebhook(t, Request(), 0).tables
    ensures HasDeposit(t', MAX_INT64, Internal) && IsActive(t')
  {
    assert ValidWebhookRequest(Request());
    assert WebhookRow(t.payments, Request(), RENTAL);
    assert WebhookError(t, Request(), RENTAL) == None;
    assert WithStatus(t.accounts, ACCOUNT, AccountStatus.Rented) == OneAccount(AccountStatus.Rented);
    assert t' == ProcessWebhookFor(t, Request(), RENTAL, 0).tables;
  }

  lemma PayStep(t: Tables, t': Tables)
    requires IsReserved(t) && t' == PayRentalWithBalance(t, USER, RENTAL, 0, 0).tables
    ensures HasDeposit(t', MAX_INT64 - 2, Balance) && IsActive(t')
  {
    assert PayError(t, RENTAL, 0, 0) == None;
    assert WithStatus(t.accounts, ACCOUNT, AccountStatus.Rented) == OneAccount(AccountStatus.Rented);
    assert WithBalance(t.users, USER, MAX_INT64 - 2) == Users(MAX_INT64 - 2);
  }

  /** The rental is over and its deposit under review. */
  lemma ExpireStep(t: Tables, t': Tables, balance: int, provider: Provider)
    requires HasDeposit(t, balance, provider) && IsActive(t) && t' == ExpireRental(t, RENTAL, ACCOUNT, OVER).tables
    ensures HasDeposit(t', balance, provider) && IsExpired(t')
  {
    assert RentalOverdue(t, RENTAL, ACCOUNT, OVER);
    assert HeldForReview(t, RENTAL);
  }

  lemma KnownAdjustment(t: Tables)
    requires HasDeposit(t, MAX_INT64 - 2, Balance)
    ensures FindKey(t.ledger, AdjustmentKey("adjust-1")) == None
  {
    FindKeyIsHasKey(t.ledger, AdjustmentKey("adjust-1"));
  }

  /** The user gets back by an adjustment what the rental was paid with. */
  lemma AdjustStep(t: Tables, t': Tables)
    requires HasDeposit(t, MAX_INT64 - 2, Balance) && IsExpired(t)
    requires t' == AdjustBalance(t, ADMIN, ADMIN_ROLE, USER, Adjustment()).tables
    ensures Restored(t')
  {
    KnownAdjustment(t);
    assert AdjustmentInputError(ADMIN, USER, Adjustment()) == None;
    assert CheckedAdjustment(MAX_INT64 - 2, 2) == Ok(MAX_INT64);
    assert WithBalance(t.users, USER, MAX_INT64) == Users(MAX_INT64);
  }

  // --- The runs -----------------------------------------------------------------------------------------

  lemma ReachableStep(t: Tables, op: Op, t': Tables)
    requires Reachable(t) && t' == Apply(t, op)
    ensures Reachable(t')
  {
    var start: Tables, ops: seq<Op> :| Initial(start) && t == Run(start, ops);
    RunNext(start, ops, op);
  }

  lemma Rented() returns (t: Tables)
    ensures Reachable(t) && IsReserved(t)
  {
    assert Initial(Start()) && Start() == Run(Start(), []);
    t := Apply(Start(), Rent(USER, ACCOUNT, HOUR, 0, 0, RENTAL, PAYMENT));
    ReachableStep(Start(), Rent(USER, ACCOUNT, HOUR, 0, 0, RENTAL, PAYMENT), t);
    RentStep(t);
  }

  lemma PaidByWebhook() returns (t: Tables)
    ensures Reachable(t) && HasDeposit(t, MAX_INT64, Internal) && IsActive(t)
  {
    var before := Rented();
    t := Apply(before, Webhook(Request(), 0));
    ReachableStep(before, Webhook(Request(), 0), t);
    WebhookStep(before, t);
  }

  lemma PaidByWallet() returns (t: Tables)
    ensures Reachable(t) && HasDeposit(t, MAX_INT64 - 2, Balance) && IsActive(t)
  {
    var before := Rented();
    t := Apply(before, PayWithBalance(USER, RENTAL, 0, 0));
    ReachableStep(before, PayWithBalance(USER, RENTAL, 0, 0), t);
    PayStep(before, t);
  }

  lemma Overdue(before: Tables, balance: int, provider: Provider) returns (t: Tables)
    requires Reachable(before) && HasDeposit(before, balance, provider) && IsActive(before)
    ensures Reachable(t) && HasDeposit(t, balance, provider) && IsExpired(t)
  {
    t := Apply(before, Expire(RENTAL, ACCOUNT, OVER));
    ReachableStep(before, Expire(RENTAL, ACCOUNT, OVER), t);
    ExpireStep(before, t, balance, provider);
  }

  lemma OnlyCandidate(t: Tables)
    requires Valid(t) && HasDeposit(t, MAX_INT64, Internal) && IsExpired(t)
    ensures Candidates(t, DUE) == {RENTAL} && FinalizeNext(t, DUE) == Outcome(t, Err(BalanceOutOfRange))
  {
    assert IsCandidate(t, RENTAL, DUE);
    assert Candidates(t, DUE) == {RENTAL};
    CandidateIsFinalized(t, RENTAL, DUE);
    assert First(Candidates(t, DUE), QueueRank(t)) in Candidates(t, DUE);
  }

  /** A rental that is due and stops the finalizer: its user owns as much as a balance can hold, and the
      deposit was paid through the webhook. */
  lemma FinalizerOverflows() returns (t: Tables)
    ensures Reachable(t) && Candidates(t, DUE) == {RENTAL}
    ensures FinalizeNext(t, DUE) == Outcome(t, Err(BalanceOutOfRange))
  {
    var before := PaidByWebhook();
    t := Overdue(before, MAX_INT64, Internal);
    ReachableIsValid(t);
    OnlyCandidate(t);
  }

  lemma AdjustApplies(t: Tables, actor: int, role: string, target: int, input: AdjustmentInput)
    ensures Apply(t, Adjust(actor, role, target, input)) == AdjustBalance(t, actor, role, target, input).tables
  {
  }

  lemma Adjusted(before: Tables, role: string, input: AdjustmentInput) returns (t: Tables)
    requires Reachable(before) && HasDeposit(before, MAX_INT64 - 2, Balance) && IsExpired(before)
    requires role == ADMIN_ROLE && input == Adjustment()
    ensures Reachable(t) && Restored(t)
  {
    t := AdjustBalance(before, ADMIN, role, USER, input).tables;
    AdjustApplies(before, ADMIN, role, USER, input);
    ReachableStep(before, Adjust(ADMIN, role, USER, input), t);
    AdjustStep(before, t);
  }

  lemma RefundRefused(t: Tables)
    requires Valid(t) && Restored(t)
    ensures IsCurrentAdmin(t, ADMIN) && SqlEligible(t, RENTAL) && DetailEligibility(t, RENTAL).None?
    ensures RefundWalletPayment(t, ADMIN, ADMIN_ROLE, RENTAL, "ADMIN_CORRECTION", OVER) == Outcome(t, Err(BalanceOutOfRange))
  {
    EligibilityAgrees(t, ADMIN, RENTAL, "ADMIN_CORRECTION", OVER);
  }

  /** A refund that every eligibility check promises and that cannot be made: what the user paid with has
      been given back by an adjustment in the meantime. */
  lemma RefundOverflows() returns (t: Tables)
    ensures Reachable(t) && RENTAL in t.rentals && IsCurrentAdmin(t, ADMIN)
    ensures SqlEligible(t, RENTAL) && DetailEligibility(t, RENTAL).None?
    ensures RefundWalletPayment(t, ADMIN, ADMIN_ROLE, RENTAL, "ADMIN_CORRECTION", OVER) == Outcome(t, Err(BalanceOutOfRange))
  {
    var paid := PaidByWallet();
    var expired := Overdue(paid, MAX_INT64 - 2, Balance);
    t := Adjusted(expired, ADMIN_ROLE, Adjustment());
    ReachableIsValid(t);
    RefundRefused(t);
  }
}
