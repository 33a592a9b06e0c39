/** Which requests of a renter are accepted, what they change and how the others are answered; and what
    the schedulers expire. */
module RentingAnswers {
  import opened Common
  import opened LedgerKeys
  import opened Tables
  import opened Pricing
  import opened Operations
  import opened Invariant
  import opened Steps
  import opened Acceptance

  // --- Renting ------------------------------------------------------------------------------------------

  predicate Rentable(t: Tables, aid: int) {
    aid in t.accounts && !t.accounts[aid].deleted && t.accounts[aid].status == Available
  }

  predicate MayAct(t: Tables, uid: int) {
    uid in t.users && !t.users[uid].blocked
  }

  /** Whole hours are billed. */
  function PriceOf(a: Account, duration: int): int {
    a.hourlyPrice * (duration / HOUR)
  }

  ghost predicate MayRent(t: Tables, uid: int, aid: int, duration: int, rentalId: int, paymentId: int) {
    && uid > 0 && aid > 0 && Rentable(t, aid) && MayAct(t, uid)
    && HOUR <= duration <= 720 * HOUR
    && rentalId !in t.rentals && (forall r :: r in t.payments ==> t.payments[r].id != paymentId)
    && PriceOf(t.accounts[aid], duration) + t.accounts[aid].deposit <= t.users[uid].balance
  }

  lemma NobodyRents(t: Tables, aid: int)
    requires Valid(t) && Rentable(t, aid)
    ensures !HasLiveRental(t.rentals, aid)
  {
  }

  /** Less than an hour counts as one, whichever way it points. */
  function BilledUnits(duration: int): (hours: int)
    requires -HOUR < duration
    ensures hours >= 1
    ensures HOUR <= duration ==> hours == duration / HOUR
  {
    if duration < HOUR then 1 else duration / HOUR
  }

  /** What the calculation yields for the billed hours of an account that can be rented. */
  lemma CalculatedTotal(a: Account, hours: int)
    requires 0 < a.hourlyPrice <= MAX_INT64 && 0 <= a.deposit <= MAX_INT64 && 0 < hours <= MAX_INT64
    ensures var total := CalculateRentalTotal(a.hourlyPrice, a.deposit, hours);
            if a.hourlyPrice * hours + a.deposit <= MAX_INT64
            then total == Ok(Total(a.hourlyPrice * hours, a.hourlyPrice * hours + a.deposit))
            else total == Err(RentalPriceOverflow)
  {
    TotalIsExact(a.hourlyPrice, a.deposit, hours);
  }

  /** What a request finds that asks for an account that can be rented, by a user who may act. */
  lemma RentErrorOf(t: Tables, uid: int, aid: int, duration: int, rentalId: int, paymentId: int, total: int)
    requires Valid(t) && Rentable(t, aid) && MayAct(t, uid) && -HOUR < duration && IsInt64(duration)
    requires total == t.accounts[aid].hourlyPrice * BilledUnits(duration) + t.accounts[aid].deposit
    ensures var e := RentError(t, uid, aid, duration, rentalId, paymentId);
            if total > MAX_INT64 then e == Some(RentalPriceOverflow)
            else if t.users[uid].balance < total then e == Some(InsufficientBalance)
            else if duration <= 0 then e == Some(InvalidPeriod)
            else if duration < HOUR then e == Some(PeriodTooShort)
            else if duration > 720 * HOUR then e == Some(PeriodTooLong)
            else if uid <= 0 then e == Some(InvalidUserID)
            else if aid <= 0 then e == Some(InvalidAccountID)
            else if rentalId in t.rentals || exists r :: r in t.payments && t.payments[r].id == paymentId then e == Some(DuplicateKey)
            else e == None
  {
    NobodyRents(t, aid);
    assert BilledHours(duration) == BilledUnits(duration);
    CalculatedTotal(t.accounts[aid], BilledUnits(duration));
  }

  /** A request is accepted exactly if the account can be rented, the user may act and can pay for every
      whole hour and the deposit, and period and ids are in order. */
  lemma RentExactly(t: Tables, uid: int, aid: int, duration: int, now: int, dbNow: int, rentalId: int, paymentId: int)
    requires Valid(t)
    ensures var o := RentAccount(t, uid, aid, duration, now, dbNow, rentalId, paymentId);
            && (o.result.Ok? <==> MayRent(t, uid, aid, duration, rentalId, paymentId))
            && (o.result.Err? ==> o.tables == t)
  {
    if HOUR <= duration <= 720 * HOUR && Rentable(t, aid) && MayAct(t, uid) {
      RentErrorOf(t, uid, aid, duration, rentalId, paymentId, PriceOf(t.accounts[aid], duration) + t.accounts[aid].deposit);
    }
  }

  /** The accepted rental costs its whole hours at the price of the account, lasts as long as asked for,
      can be paid for 15 minutes, and reserves the account. */
  lemma RentEffect(t: Tables, uid: int, aid: int, duration: int, now: int, dbNow: int, rentalId: int, paymentId: int)
    requires Valid(t) && MayRent(t, uid, aid, duration, rentalId, paymentId)
    ensures var a := t.accounts[aid];
            var price := PriceOf(a, duration);
            var rental := Rental(uid, aid, WaitingPayment, price, a.deposit, now, now + duration, dbNow + 15 * MINUTE, None, None, None);
            RentAccount(t, uid, aid, duration, now, dbNow, rentalId, paymentId) == Outcome(
              t.(accounts := t.accounts[aid := a.(status := Reserved)],
                 rentals := t.rentals[rentalId := rental],
                 payments := t.payments[rentalId := Payment(paymentId, uid, Internal, None, Pending, price + a.deposit, USD)]),
              Ok(rental))
  {
    var a := t.accounts[aid];
    RentErrorOf(t, uid, aid, duration, rentalId, paymentId, PriceOf(a, duration) + a.deposit);
    CalculatedTotal(a, duration / HOUR);
  }

  /** Why a request is refused: first because of the account, then of the user, of the price, of the
      balance and at last of the period. */
  lemma RentRefusals(t: Tables, uid: int, aid: int, duration: int, now: int, dbNow: int, rentalId: int, paymentId: int)
    requires Valid(t) && IsInt64(duration)
    ensures var r := RentAccount(t, uid, aid, duration, now, dbNow, rentalId, paymentId).result;
            && (r == Err(AccountNotFound) <==> aid !in t.accounts || t.accounts[aid].deleted)
            && (r == Err(AccountNotAvailable) <==> aid in t.accounts && !t.accounts[aid].deleted && !Rentable(t, aid))
            && (r == Err(UserNotFound) <==> Rentable(t, aid) && uid !in t.users)
            && (r == Err(UserBlocked) <==> Rentable(t, aid) && uid in t.users && t.users[uid].blocked)
            && (r == Err(InvalidRentalPricing) <==> Rentable(t, aid) && MayAct(t, uid) && duration <= -HOUR)
            && (Rentable(t, aid) && MayAct(t, uid) && -HOUR < duration ==>
                  var total := t.accounts[aid].hourlyPrice * BilledUnits(duration) + t.accounts[aid].deposit;
                  && (r == Err(RentalPriceOverflow) <==> total > MAX_INT64)
                  && (r == Err(InsufficientBalance) <==> t.users[uid].balance < total <= MAX_INT64)
                  && (total <= t.users[uid].balance ==>
                        && (r == Err(InvalidPeriod) <==> duration <= 0)
                        && (r == Err(PeriodTooShort) <==> 0 < duration < HOUR)
                        && (r == Err(PeriodTooLong) <==> duration > 720 * HOUR)))
  {
    if Rentable(t, aid) && MayAct(t, uid) {
      if -HOUR < duration {
        var total := t.accounts[aid].hourlyPrice * BilledUnits(duration) + t.accounts[aid].deposit;
        RentErrorOf(t, uid, aid, duration, rentalId, paymentId, total);
        assert t.users[uid].balance <= MAX_INT64;
      } else {
        assert BilledHours(duration) < 0;
      }
    }
  }

  // --- Cancelling ---------------------------------------------------------------------------------------

  /** A user cancels a rental of his own as long as it waits for its payment; to cancel it again changes
      nothing, and any other rental stays as it is. */
  lemma CancelExactly(t: Tables, uid: int, rid: int, now: int)
    requires Valid(t)
    ensures var o := CancelRental(t, uid, rid, now);
            && (o.result == Ok(true) <==> Own(t, uid, rid) && t.rentals[rid].status == WaitingPayment)
            && (o.result == Ok(false) <==> Own(t, uid, rid) && t.rentals[rid].status == Cancelled)
            && (o.result == Err(RentalNotFound) <==> !Own(t, uid, rid))
            && (o.result == Err(CannotCancel)
                <==> Own(t, uid, rid) && t.rentals[rid].status != WaitingPayment && t.rentals[rid].status != Cancelled)
            && (o.result != Ok(true) ==> o.tables == t)
  {
    if rid in t.rentals {
      IsKnown(t, rid);
      if t.rentals[rid].status == WaitingPayment {
        OnlyLive(t, rid);
      }
    }
  }

  /** The account of a live rental has no other. */
  lemma OnlyLive(t: Tables, rid: int)
    requires Valid(t) && rid in t.rentals && IsLive(t.rentals[rid].status)
    ensures forall s :: s in t.rentals && IsLive(t.rentals[s].status) && t.rentals[s].accountId == t.rentals[rid].accountId ==> s == rid
  {
  }

  lemma CancelEffect(t: Tables, uid: int, rid: int, now: int)
    requires Valid(t) && Own(t, uid, rid) && t.rentals[rid].status == WaitingPayment
    ensures Joined(t, rid)
    ensures var r := t.rentals[rid];
            CancelRental(t, uid, rid, now).tables == t.(
              payments := t.payments[rid := t.payments[rid].(status := Failed)],
              rentals := t.rentals[rid := r.(status := Cancelled, finishedAt := Some(now))],
              accounts := t.accounts[r.accountId := t.accounts[r.accountId].(status := Available)],
              events := t.events + [Event(None, EVENT_RENTAL_CANCELLED, uid, Some(r.accountId), Some(rid), true)])
  {
    IsKnown(t, rid);
    OnlyLive(t, rid);
  }

  // --- Credentials --------------------------------------------------------------------------------------

  /** Credentials are handed out to the renter himself, while the rental is active and for no instant
      beyond its period; each time an event records it. */
  lemma CredentialsExactly(t: Tables, uid: int, rid: int, now: int)
    requires Valid(t)
    ensures var o := IssueCredentials(t, uid, rid, now);
            && (o.result.Ok? <==> Own(t, uid, rid) && t.rentals[rid].status == Active
                                  && t.rentals[rid].startAt <= now < t.rentals[rid].endAt)
            && (o.result.Ok? ==>
                  var a := t.rentals[rid].accountId;
                  && o.result == Ok(a) && a in t.accounts && t.accounts[a].status == Rented
                  && o.tables == t.(events := t.events + [Event(None, EVENT_CREDENTIALS_ISSUED, uid, Some(a), Some(rid), true)]))
            && (o.result.Err? ==> o == Outcome(t, Err(CredentialsNotAvailable)))
  {
    if rid in t.rentals {
      IsKnown(t, rid);
    }
  }

  // --- Expiring -----------------------------------------------------------------------------------------

  /** An unpaid reservation expires exactly if its time is over; its payment then fails and its account
      is available again. */
  lemma ExpireReservationExactly(t: Tables, rid: int, now: int)
    requires Valid(t)
    ensures var o := ExpireReservation(t, rid, now);
            && (o.result == Ok(true) <==> rid in t.rentals && t.rentals[rid].status == WaitingPayment
                                          && t.rentals[rid].paymentExpiresAt <= now)
            && (o.result != Ok(true) ==> o == Outcome(t, Ok(false)))
            && (o.result == Ok(true) ==>
                  var r := t.rentals[rid];
                  && rid in t.payments && r.accountId in t.accounts
                  && o.tables == t.(
                       payments := t.payments[rid := t.payments[rid].(status := Failed)],
                       rentals := t.rentals[rid := r.(status := Expired)],
                       accounts := t.accounts[r.accountId := t.accounts[r.accountId].(status := Available)],
                       events := t.events + [Event(None, EVENT_RESERVATION_EXPIRED, r.userId, Some(r.accountId), Some(rid), true)]))
  {
    if rid in t.rentals {
      IsKnown(t, rid);
    }
  }

  /** A rental expires exactly if it is active and over; it ends when it should have, its account is
      available again, and its deposit, if it has one, is under review for 24 hours. */
  lemma ExpireRentalExactly(t: Tables, rid: int, aid: int, now: int)
    requires Valid(t)
    ensures var o := ExpireRental(t, rid, aid, now);
            && (o.result == Ok(true) <==> rid in t.rentals && t.rentals[rid].accountId == aid && t.rentals[rid].status == Active
                                          && t.rentals[rid].endAt <= now)
            && (o.result != Ok(true) ==> o == Outcome(t, Ok(false)))
            && (o.result == Ok(true) ==>
                  var r := t.rentals[rid];
                  && aid in t.accounts
                  && o.tables == t.(
                       rentals := t.rentals[rid := r.(status := Expired, finishedAt := Some(r.endAt),
                                                      reviewDeadline := if r.deposit > 0 then Some(r.endAt + 24 * HOUR) else None)],
                       accounts := t.accounts[aid := t.accounts[aid].(status := Available)],
                       events := t.events + [Event(None, EVENT_RENTAL_EXPIRED, r.userId, Some(aid), Some(rid), true)]))
  {
    if rid in t.rentals {
      IsKnown(t, rid);
      if RentalOverdue(t, rid, aid, now) {
        OverdueExpires(t, rid, aid, now);
      }
    }
  }
}
