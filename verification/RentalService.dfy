/** The rental service, call by call. */
module RentalService {
  import opened Common
  import opened LedgerKeys
  import opened Tables
  import opened Pricing
  import opened Operations
  import opened Invariant
  import opened Repository

  class RentalService {
    const repo: Database

    constructor (repo: Database)
      ensures this.repo == repo
    {
      this.repo := repo;
    }

    /** The inserts of a new rental. */
    method CreateWithin(aid: int, rid: int, rental: Rental, payment: Payment) returns (e: Option<Error>)
      requires repo.tables.payments.Keys <= repo.tables.rentals.Keys && rental.accountId == aid
      modifies repo`tables, repo`calls
      ensures var t := old(repo.tables);
              && (e.None? ==>
                    && rid !in t.rentals && !HasLiveRental(t.rentals, aid) && !PaymentIdTaken(t.payments, payment.id)
                    && repo.tables == t.(rentals := t.rentals[rid := rental], payments := t.payments[rid := payment]))
              && (e.Some? ==>
                    || Stopped(e.value, repo.failing, old(repo.calls), repo.calls)
                    || e == (if rid in t.rentals then Some(DuplicateKey)
                             else if HasLiveRental(t.rentals, aid) then Some(AccountNotAvailable)
                             else if PaymentIdTaken(t.payments, payment.id) then Some(DuplicateKey) else None))
      ensures repo.calls >= old(repo.calls)
    {
      e := repo.CreateRental(rid, rental);
      if e.Some? { return e; }
      e := repo.CreatePendingPayment(rid, payment);
    }

    method RentWithin(uid: int, aid: int, duration: int, now: int, dbNow: int, rid: int, paymentId: int) returns (r: Result<Rental>)
      requires repo.tables.payments.Keys <= repo.tables.rentals.Keys
      modifies repo`tables, repo`calls
      ensures Performs(Operations.RentAccount(old(repo.tables), uid, aid, duration, now, dbNow, rid, paymentId),
                       repo.tables, r, repo.failing, old(repo.calls), repo.calls)
    {
      var account := repo.GetAccountForUpdate(aid);
      if account.Err? { return Err(account.error); }
      if account.value.status != Available { return Err(AccountNotAvailable); }
      var user := repo.GetUser(uid);
      if user.Err? { return Err(user.error); }
      if user.value.blocked { return Err(UserBlocked); }

      var total := CalculateRentalTotal(account.value.hourlyPrice, account.value.deposit, BilledHours(duration));
      if total.Err? { return Err(total.error); }
      if user.value.balance < total.value.payment { return Err(InsufficientBalance); }

      var e := repo.ReserveAccount(aid);
      if e.Some? { return Err(e.value); }
      e := PeriodError(duration);
      if e.Some? { return Err(e.value); }
      if uid <= 0 { return Err(InvalidUserID); }
      if aid <= 0 { return Err(InvalidAccountID); }

      var rental := NewRental(uid, aid, total.value, account.value.deposit, duration, now, dbNow);
      e := CreateWithin(aid, rid, rental, Payment(paymentId, uid, Internal, None, Pending, total.value.payment, USD));
      if e.Some? { return Err(e.value); }
      r := Ok(rental);
    }

    method RentAccount(uid: int, aid: int, duration: int, now: int, dbNow: int, rid: int, paymentId: int) returns (r: Result<Rental>)
      requires Valid(repo.tables)
      modifies repo
      ensures Serves(old(repo.inTransaction), Operations.RentAccount(old(repo.tables), uid, aid, duration, now, dbNow, rid, paymentId),
                      old(repo.tables), repo.tables, r, repo.failing, old(repo.calls), repo.calls)
      ensures repo.inTransaction == old(repo.inTransaction)
      ensures repo.inTransaction ==> repo.saved == old(repo.saved)
    {
      var e, owner := repo.Begin();
      if e.Some? { return Err(e.value); }
      var body := RentWithin(uid, aid, duration, now, dbNow, rid, paymentId);
      r := repo.Finish(owner, body);
    }

    method CancelRental(uid: int, rid: int, now: int) returns (r: Result<bool>)
      modifies repo
      ensures Serves(old(repo.inTransaction), Operations.CancelRental(old(repo.tables), uid, rid, now),
                      old(repo.tables), repo.tables, r, repo.failing, old(repo.calls), repo.calls)
      ensures repo.inTransaction == old(repo.inTransaction)
      ensures repo.inTransaction ==> repo.saved == old(repo.saved)
    {
      var e, owner := repo.Begin();
      if e.Some? { return Err(e.value); }
      var body := repo.CancelWaitingPaymentRental(rid, uid, now);
      r := repo.Finish(owner, body);
    }

    /** Credentials are handed out only together with the event that records it. */
    method IssueWithin(uid: int, rid: int, now: int) returns (r: Result<int>)
      modifies repo`tables, repo`calls
      ensures Performs(IssueCredentials(old(repo.tables), uid, rid, now), repo.tables, r, repo.failing, old(repo.calls), repo.calls)
    {
      var loaded := repo.GetRentalCredentials(rid, uid, now);
      if loaded.Err? { return Err(if loaded.error == RentalNotFound then CredentialsNotAvailable else loaded.error); }
      var e := repo.LogSecurityEvent(RentalEvent(EVENT_CREDENTIALS_ISSUED, loaded.value, rid));
      if e.Some? { return Err(e.value); }
      r := Ok(loaded.value.accountId);
    }

    method GetRentalCredentials(uid: int, rid: int, now: int) returns (r: Result<int>)
      modifies repo
      ensures Serves(old(repo.inTransaction), IssueCredentials(old(repo.tables), uid, rid, now),
                      old(repo.tables), repo.tables, r, repo.failing, old(repo.calls), repo.calls)
      ensures repo.inTransaction == old(repo.inTransaction)
      ensures repo.inTransaction ==> repo.saved == old(repo.saved)
    {
      var e, owner := repo.Begin();
      if e.Some? { return Err(e.value); }
      var body := IssueWithin(uid, rid, now);
      r := repo.Finish(owner, body);
    }
  }
}
