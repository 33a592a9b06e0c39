/** The three places that decide whether a wallet payment can be refunded. */
module Eligibility {
  import opened Common
  import opened LedgerKeys
  import opened Tables
  import opened Operations
  import opened Invariant
  import opened Steps

  datatype Ineligible = RefundAlreadyCompleted | ProviderNotBalance | PaymentNotSuccess | RentalNotExpiredOrCompleted

  /** `adminWalletRefundEligibility`: `None` means eligible.  A missing payment reaches it as status
      0 and provider "", here `None`. */
  function AdminEligibility(rental: RentalStatus, payment: Option<PaymentStatus>, provider: Option<Provider>,
                            latestRefund: Option<RefundStatus>): Option<Ineligible> {
    if latestRefund == Some(RefundDone) then Some(RefundAlreadyCompleted)
    else if provider != Some(Balance) then Some(ProviderNotBalance)
    else if payment != Some(Paid) then Some(PaymentNotSuccess)
    else if rental != Expired && rental != Completed then Some(RentalNotExpiredOrCompleted)
    else None
  }

  /** What the administration's detail page shows for rental `r`. */
  function DetailEligibility(t: Tables, r: int): Option<Ineligible>
    requires r in t.rentals
  {
    AdminEligibility(
      t.rentals[r].status,
      if r in t.payments then Some(t.payments[r].status) else None,
      if r in t.payments then Some(t.payments[r].provider) else None,
      if r in t.refunds then Some(t.refunds[r].status) else None)
  }

  /** The column `eligible_wallet_refund`: its refund subquery also compares the user. */
  predicate SqlEligible(t: Tables, r: int)
    requires r in t.rentals
  {
    && r in t.payments && t.payments[r].provider == Balance
    && t.payments[r].status == Paid
    && (t.rentals[r].status == Expired || t.rentals[r].status == Completed)
    && !(r in t.refunds && t.refunds[r].userId == t.rentals[r].userId && t.refunds[r].status == RefundDone)
  }

  /** A refund asked for by a current administrator with an allowed reason changes the database. */
  ghost predicate RefundCommits(t: Tables, actor: int, r: int, reason: string, now: int) {
    var o := RefundWalletPayment(t, actor, ADMIN_ROLE, r, reason, now);
    o.result.Ok? && o.result.value.changed
  }

  /** What a refund of `r` would add to the balance of its user. */
  function RefundTotal(t: Tables, r: int): int
    requires r in t.rentals
  {
    t.rentals[r].price + RefundableDeposit(t, r)
  }

  /** In every valid database the three agree, and the refund itself can fail for one more reason
      only: the credited balance would leave the range of its column. */
  lemma EligibilityAgrees(t: Tables, actor: int, r: int, reason: string, now: int)
    requires Valid(t) && r in t.rentals && IsCurrentAdmin(t, actor) && reason in REFUND_REASONS
    ensures SqlEligible(t, r) <==> DetailEligibility(t, r).None?
    ensures RefundCommits(t, actor, r, reason, now)
            <==> SqlEligible(t, r) && t.users[t.rentals[r].userId].balance + RefundTotal(t, r) <= MAX_INT64
    ensures SqlEligible(t, r) && !RefundCommits(t, actor, r, reason, now) ==>
              RefundWalletPayment(t, actor, ADMIN_ROLE, r, reason, now) == Outcome(t, Err(BalanceOutOfRange))
  {
    RentalIsJoined(t, r);
    if r !in t.refunds && RefundAllowed(t, r) && CreditFits(t, t.rentals[r].userId, RefundTotal(t, r)) {
      RefundCompletes(t, r, actor, reason, now);
    }
  }

  /** What the page gives as the reason: that the rental was refunded, that the balance did not pay for it,
      or that it is not over; a payment from the balance has always succeeded. */
  lemma EligibilityReasons(t: Tables, r: int)
    requires Valid(t) && r in t.rentals
    ensures r in t.payments
    ensures var e := DetailEligibility(t, r);
            && (e == Some(RefundAlreadyCompleted) <==> r in t.refunds)
            && (e == Some(ProviderNotBalance) <==> r !in t.refunds && t.payments[r].provider == Internal)
            && e != Some(PaymentNotSuccess)
            && (e == Some(RentalNotExpiredOrCompleted)
                <==> r !in t.refunds && t.payments[r].provider == Balance && t.rentals[r].status == Active)
  {
    RentalIsJoined(t, r);
  }

  lemma CommittedRefund(t: Tables, actor: int, r: int, reason: string, now: int)
    requires Valid(t) && RefundCommits(t, actor, r, reason, now)
    ensures Joined(t, r)
    ensures var o := RefundWalletPayment(t, actor, ADMIN_ROLE, r, reason, now);
            var c := RefundChange(t, r, actor, reason, RefundEvents(t.rentals[r], r), RefundAudits(t.rentals[r], r, actor),
                                  RefundedRental(t.rentals[r], now), now);
            && o.tables == ApplyChange(t, r, c)
            && o.result.value.principal == t.rentals[r].price && o.result.value.deposit == RefundableDeposit(t, r)
            && o.result.value.total == RefundTotal(t, r)
  {
    RentalIsJoined(t, r);
    RefundEnds(t, r, actor, reason, now);
  }

  /** What a committed refund returns and where the deposit ends up. */
  lemma RefundReturns(t: Tables, actor: int, r: int, reason: string, now: int)
    requires Valid(t) && RefundCommits(t, actor, r, reason, now)
    ensures r in t.rentals && t.rentals[r].userId in t.users
    ensures var o := RefundWalletPayment(t, actor, ADMIN_ROLE, r, reason, now);
            var u := t.rentals[r].userId;
            && o.tables.users == WithBalance(t.users, u, t.users[u].balance + RefundTotal(t, r))
            && o.result.value.total == RefundTotal(t, r) == o.result.value.principal + o.result.value.deposit
            && r in o.tables.rentals && o.tables.rentals[r].status == Completed
            && (r in t.holds ==>
                  && r in o.tables.holds
                  && o.tables.holds[r].status == (if t.holds[r].status == Held then Refunded else t.holds[r].status))
  {
    RentalIsJoined(t, r);
    CommittedRefund(t, actor, r, reason, now);
  }
}
