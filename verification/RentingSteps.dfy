/** Creating a rental is a good step. */
module RentingSteps {
  import opened Common
  import opened LedgerKeys
  import opened Tables
  import opened Pricing
  import opened Operations
  import opened Invariant
  import opened Steps

  /** The amounts of a created rental were computed without overflow: its whole hours at the price of the
      account, and the exact sum with the deposit. */
  lemma RentedAmounts(t: Tables, uid: int, aid: int, duration: int, rentalId: int, paymentId: int)
    requires Valid(t) && RentError(t, uid, aid, duration, rentalId, paymentId) == None
    ensures var acc := t.accounts[aid];
            && HOUR <= duration <= 720 * HOUR
            && CalculateRentalTotal(acc.hourlyPrice, acc.deposit, BilledHours(duration)).Ok?
            && var total := CalculateRentalTotal(acc.hourlyPrice, acc.deposit, BilledHours(duration)).value;
               && total.rentalPrice == acc.hourlyPrice * (duration / HOUR) > 0
               && total.payment == total.rentalPrice + acc.deposit <= MAX_INT64
  {
    var acc := t.accounts[aid];
    var hours := BilledHours(duration);
    assert 1 <= hours <= 720;
    TotalIsExact(acc.hourlyPrice, acc.deposit, hours);
    MulMonotone(acc.hourlyPrice, 1, hours);
  }

  ghost function Rented(t: Tables, uid: int, aid: int, duration: int, now: int, dbNow: int, rentalId: int, paymentId: int): Tables {
    RentAccount(t, uid, aid, duration, now, dbNow, rentalId, paymentId).tables
  }

  lemma RentedDossiers(t: Tables, uid: int, aid: int, duration: int, now: int, dbNow: int, rentalId: int, paymentId: int)
    requires Valid(t) && RentError(t, uid, aid, duration, rentalId, paymentId) == None
    ensures var t' := Rented(t, uid, aid, duration, now, dbNow, rentalId, paymentId);
            DomainsOk(t') && DossiersOk(t') && RentalsEvolve(t, t')
  {
    var t' := Rented(t, uid, aid, duration, now, dbNow, rentalId, paymentId);
    NewDossier(t, uid, aid, duration, now, dbNow, rentalId, paymentId);
    forall r | r in t.rentals
      ensures DossierOk(View(t', r)) && DossierEvolves(View(t, r), View(t', r))
    {
      assert r != rentalId;
      assert View(t', r) == View(t, r);
    }
  }

  lemma NewDossier(t: Tables, uid: int, aid: int, duration: int, now: int, dbNow: int, rentalId: int, paymentId: int)
    requires Valid(t) && RentError(t, uid, aid, duration, rentalId, paymentId) == None
    ensures DossierOk(View(Rented(t, uid, aid, duration, now, dbNow, rentalId, paymentId), rentalId))
  {
    RentedAmounts(t, uid, aid, duration, rentalId, paymentId);
    forall i | 0 <= i < |t.ledger|
      ensures t.ledger[i].rental != Some(rentalId)
    {
      assert EntryOk(t, t.ledger[i]);
    }
    BookFrame(EMPTY_BOOK, t.ledger, rentalId);
  }

  lemma RentedCoupling(t: Tables, uid: int, aid: int, duration: int, now: int, dbNow: int, rentalId: int, paymentId: int)
    requires Valid(t) && RentError(t, uid, aid, duration, rentalId, paymentId) == None
    requires DomainsOk(Rented(t, uid, aid, duration, now, dbNow, rentalId, paymentId))
    ensures var t' := Rented(t, uid, aid, duration, now, dbNow, rentalId, paymentId);
            AccountsOk(t') && LiveRentalsMatch(t') && OneLiveRental(t') && BusyAccountsUsed(t')
  {
    var t' := Rented(t, uid, aid, duration, now, dbNow, rentalId, paymentId);
    forall s | s in t.rentals && IsLive(t.rentals[s].status)
      ensures t.rentals[s].accountId != aid
    {
    }
    forall b | b in t'.accounts && (t'.accounts[b].status == Reserved || t'.accounts[b].status == AccountStatus.Rented)
      ensures HasLiveRental(t'.rentals, b)
    {
      if b == aid {
        assert t'.rentals[rentalId].accountId == b;
      } else {
        var s :| s in t.rentals && t.rentals[s].accountId == b && IsLive(t.rentals[s].status);
        assert t'.rentals[s] == t.rentals[s];
      }
    }
  }

  lemma RentedRest(t: Tables, uid: int, aid: int, duration: int, now: int, dbNow: int, rentalId: int, paymentId: int, t': Tables)
    requires Valid(t) && RentError(t, uid, aid, duration, rentalId, paymentId) == None
    requires t' == Rented(t, uid, aid, duration, now, dbNow, rentalId, paymentId)
    ensures UsersOk(t') && PaymentsUnique(t') && LedgerOk(t') && UniqueKeys(t'.ledger) && Conserves(t, t')
    ensures t'.users == t.users && t'.ledger == t.ledger && t'.events == t.events && t'.audits == t.audits
    ensures t.accounts.Keys <= t'.accounts.Keys
  {
    forall i | 0 <= i < |t.ledger|
      ensures EntryOk(t', t'.ledger[i])
    {
      assert EntryOk(t, t.ledger[i]);
    }
  }

  lemma RentIsGood(t: Tables, uid: int, aid: int, duration: int, now: int, dbNow: int, rentalId: int, paymentId: int)
    requires Valid(t)
    ensures GoodStep(t, Rented(t, uid, aid, duration, now, dbNow, rentalId, paymentId))
  {
    var t' := Rented(t, uid, aid, duration, now, dbNow, rentalId, paymentId);
    if RentError(t, uid, aid, duration, rentalId, paymentId) == None {
      RentedDossiers(t, uid, aid, duration, now, dbNow, rentalId, paymentId);
      RentedCoupling(t, uid, aid, duration, now, dbNow, rentalId, paymentId);
      RentedRest(t, uid, aid, duration, now, dbNow, rentalId, paymentId, t');
    } else {
      GoodStepRefl(t);
    }
  }

  lemma CredentialsIsGood(t: Tables, uid: int, rid: int, now: int)
    requires Valid(t)
    ensures GoodStep(t, IssueCredentials(t, uid, rid, now).tables)
  {
    if CredentialsAvailable(t, uid, rid, now) {
      LogIsGood(t, [RentalEvent(EVENT_CREDENTIALS_ISSUED, t.rentals[rid], rid)], []);
      assert t.audits + [] == t.audits;
    } else {
      GoodStepRefl(t);
    }
  }

  /** Exclusive use: at no instant do two users hold the credentials of the same account. */
  lemma CredentialsAreExclusive(t: Tables, u: int, r: int, v: int, s: int, now: int, later: int)
    requires Valid(t)
    requires IssueCredentials(t, u, r, now).result.Ok? && IssueCredentials(t, v, s, later).result.Ok?
    requires t.rentals[r].accountId == t.rentals[s].accountId
    ensures u == v && r == s
  {
    assert IsLive(t.rentals[r].status) && IsLive(t.rentals[s].status);
  }
}
