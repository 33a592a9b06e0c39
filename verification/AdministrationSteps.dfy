/** The administrative operations are good steps. */
module AdministrationSteps {
  import opened Common
  import opened LedgerKeys
  import opened Tables
  import opened Pricing
  import opened Operations
  import opened Invariant
  import opened Steps

  ghost predicate IsBusy(s: AccountStatus) {
    s == Reserved || s == Rented
  }

  /** Accounts may be added, repriced and disabled, as long as no busy account is touched. */
  lemma AccountsChangeIsGood(t: Tables, accounts: map<int, Account>)
    requires Valid(t)
    requires t.accounts.Keys <= accounts.Keys
    requires AccountsOk(t.(accounts := accounts))
    requires forall a :: a in t.accounts && IsBusy(t.accounts[a].status) ==> accounts[a].status == t.accounts[a].status
    requires forall a :: a in accounts && IsBusy(accounts[a].status) ==> a in t.accounts && t.accounts[a].status == accounts[a].status
    ensures GoodStep(t, t.(accounts := accounts))
  {
    var t' := t.(accounts := accounts);
    forall r | r in t.rentals
      ensures View(t', r) == View(t, r)
    {
    }
    assert DossiersOk(t');
    forall i | 0 <= i < |t.ledger|
      ensures EntryOk(t', t'.ledger[i])
    {
      assert EntryOk(t, t.ledger[i]);
    }
    forall r | r in t'.rentals && IsLive(t'.rentals[r].status)
      ensures t'.accounts[t'.rentals[r].accountId].status == StatusFor(t'.rentals[r].status)
    {
      assert IsBusy(t.accounts[t.rentals[r].accountId].status);
    }
  }

  lemma DisableIsGood(t: Tables, aid: int)
    requires Valid(t)
    ensures GoodStep(t, DisableAccount(t, aid).tables)
  {
    if DisableAccount(t, aid).result.Ok? {
      AccountsChangeIsGood(t, DisableAccount(t, aid).tables.accounts);
    } else {
      GoodStepRefl(t);
    }
  }

  lemma DisableAsAdminIsGood(t: Tables, actor: int, aid: int)
    requires Valid(t)
    ensures GoodStep(t, DisableAccountAsAdmin(t, actor, aid).tables)
  {
    if IsCurrentAdmin(t, actor) {
      DisableIsGood(t, aid);
    } else {
      GoodStepRefl(t);
    }
  }

  lemma ObserveIsGood(t: Tables, event: Event)
    requires Valid(t)
    ensures GoodStep(t, t.(events := t.events + [event]))
  {
    LogIsGood(t, [event], []);
    assert t.audits + [] == t.audits;
  }

  /** The second guard of `disableAccountIfIdle` is implied by the first: an account is idle exactly
      when its status says so. */
  lemma IdleIsByStatus(t: Tables, aid: int)
    requires Valid(t) && aid in t.accounts
    ensures HasLiveRental(t.rentals, aid) <==> IsBusy(t.accounts[aid].status)
  {
    if HasLiveRental(t.rentals, aid) {
      var s :| s in t.rentals && t.rentals[s].accountId == aid && IsLive(t.rentals[s].status);
      assert t.accounts[t.rentals[s].accountId].status == StatusFor(t.rentals[s].status);
    }
  }

  lemma CreateAccountIsGood(t: Tables, actor: int, aid: int, hourlyPrice: int, deposit: int)
    requires Valid(t)
    ensures GoodStep(t, CreateAccount(t, actor, aid, hourlyPrice, deposit).tables)
  {
    if CreateAccount(t, actor, aid, hourlyPrice, deposit).result.Ok? {
      assert hourlyPrice <= MAX_INT64 / 720;
      assert deposit <= MAX_INT64;
      AccountsChangeIsGood(t, CreateAccount(t, actor, aid, hourlyPrice, deposit).tables.accounts);
    } else {
      GoodStepRefl(t);
    }
  }

  lemma UpdatePricingIsGood(t: Tables, actor: int, aid: int, hourlyPrice: Option<int>, deposit: Option<int>)
    requires Valid(t)
    ensures GoodStep(t, UpdatePricing(t, actor, aid, hourlyPrice, deposit).tables)
  {
    if UpdatePricing(t, actor, aid, hourlyPrice, deposit).result.Ok? {
      AccountsChangeIsGood(t, UpdatePricing(t, actor, aid, hourlyPrice, deposit).tables.accounts);
    } else {
      GoodStepRefl(t);
    }
  }

  /** Roles and block flags may change, balances may not. */
  lemma RolesChangeIsGood(t: Tables, t': Tables)
    requires Valid(t) && t' == t.(users := t'.users, audits := t'.audits)
    requires t'.users.Keys == t.users.Keys && t.audits <= t'.audits
    requires forall u :: u in t.users ==> t'.users[u].balance == t.users[u].balance
    ensures GoodStep(t, t')
  {
    RentalsFrame(t, t');
  }

  lemma UpdateUserIsGood(t: Tables, actor: int, target: int, admin: Option<bool>, blocked: Option<bool>)
    requires Valid(t)
    ensures GoodStep(t, UpdateUser(t, actor, target, admin, blocked).tables)
  {
    RolesChangeIsGood(t, UpdateUser(t, actor, target, admin, blocked).tables);
  }

  lemma RegisterIsGood(t: Tables, uid: int)
    requires Valid(t)
    ensures GoodStep(t, RegisterUser(t, uid).tables)
  {
    if uid in t.users {
      GoodStepRefl(t);
    } else {
      var t' := RegisterUser(t, uid).tables;
      RentalsFrame(t, t');
      forall i | 0 <= i < |t.ledger|
        ensures t.ledger[i].userId != uid
      {
        assert EntryOk(t, t.ledger[i]);
      }
      OtherUsersUntouched(t.ledger, uid);
    }
  }

  // --- Balance adjustments --------------------------------------------------------------------------

  /** The signed amount survives being stored as a kind and a magnitude, and the stored balances
      differ by exactly that amount. */
  lemma AdjustmentStoredExactly(actor: int, target: int, input: AdjustmentInput, previous: int, next: int)
    requires input.amount != 0
    ensures var e := AdjustmentEntry(actor, target, input, previous, next);
            && e.amount > 0
            && Signed(e) == input.amount
            && StoredAdjustment(e) == Some(AdjustmentResult(actor, target, previous, next, input.amount, input.currency,
                                                           input.reason, input.comment, input.clientKey, true))
            && AdjustmentMatches(e, StoredAdjustment(e).value, actor, target, input)
  {
  }

  /** The overflow guards admit exactly the sums that are valid balances. */
  lemma CheckedIsExact(previous: int, amount: int)
    requires 0 <= previous <= MAX_INT64
    ensures CheckedAdjustment(previous, amount).Ok? <==> 0 <= previous + amount <= MAX_INT64
    ensures CheckedAdjustment(previous, amount).Ok? ==> CheckedAdjustment(previous, amount).value == previous + amount
  {
  }

  lemma AdjustLedger(t: Tables, e: Entry)
    requires Valid(t) && e.amount > 0 && KeyMatches(e) && e.rental.None? && !HasKey(t.ledger, e.key)
    ensures UniqueKeys(t.ledger + [e])
    ensures forall r :: r in t.rentals ==> BookOf(t.ledger + [e], r) == BookOf(t.ledger, r)
  {
    forall r | r in t.rentals
      ensures BookOf(t.ledger + [e], r) == BookOf(t.ledger, r)
    {
      BookConcat(t.ledger, [e], r);
      BookFrame(BookOf(t.ledger, r), [e], r);
    }
    forall i | 0 <= i < |t.ledger|
      ensures t.ledger[i].key != e.key
    {
    }
  }

  lemma AdjustConserves(t: Tables, target: int, balance: int, e: Entry, t': Tables)
    requires target in t.users && e.userId == target && balance == t.users[target].balance + Signed(e)
    requires t'.users == WithBalance(t.users, target, balance) && t'.ledger == t.ledger + [e]
    ensures Conserves(t, t')
  {
    forall u | u in t'.users
      ensures Opening(t', u) == Opening(t, u)
    {
      SignedSumAppend(t.ledger, e, u);
    }
  }

  ghost function Adjusted(t: Tables, e: Entry, events: seq<Event>, audits: seq<Audit>): Tables
    requires e.userId in t.users
  {
    t.(ledger := t.ledger + [e], users := WithBalance(t.users, e.userId, t.users[e.userId].balance + Signed(e)),
       audits := t.audits + audits, events := t.events + events)
  }

  ghost predicate CanAdjust(t: Tables, e: Entry) {
    && e.userId in t.users && e.amount > 0 && e.key.AdjustmentKey? && KeyMatches(e)
    && !HasKey(t.ledger, e.key)
    && 0 <= t.users[e.userId].balance + Signed(e) <= MAX_INT64
  }

  lemma AdjustedIsValid(t: Tables, e: Entry, events: seq<Event>, audits: seq<Audit>)
    requires Valid(t) && CanAdjust(t, e)
    ensures Valid(Adjusted(t, e, events, audits)) && RentalsEvolve(t, Adjusted(t, e, events, audits))
  {
    AdjustLedger(t, e);
    RentalsFrame(t, Adjusted(t, e, events, audits));
    assert LedgerOk(Adjusted(t, e, events, audits));
  }

  lemma AdjustedIsGood(t: Tables, e: Entry, events: seq<Event>, audits: seq<Audit>, t': Tables)
    requires Valid(t) && CanAdjust(t, e) && t' == Adjusted(t, e, events, audits)
    ensures GoodStep(t, t')
  {
    AdjustedIsValid(t, e, events, audits);
    AdjustConserves(t, e.userId, t.users[e.userId].balance + Signed(e), e, t');
  }

  /** A request that is not a replay either fails or books its signed amount. */
  lemma AdjustTables(t: Tables, actor: int, role: string, target: int, input: AdjustmentInput)
    requires Valid(t)
    ensures var o := AdjustBalance(t, actor, role, target, input);
            o.tables != t ==>
              && o.result.Ok?
              && target in t.users
              && var previous := t.users[target].balance;
                 var e := AdjustmentEntry(actor, target, input, previous, previous + input.amount);
                 CanAdjust(t, e)
                 && o.tables == Adjusted(t, e, [Event(None, EVENT_BALANCE_ADJUSTMENT, target, None, None, true)],
                                         [Audit(Some(actor), "user_balance", target, "admin_balance_adjustment")])
  {
    var o := AdjustBalance(t, actor, role, target, input);
    if o.tables != t {
      var previous := t.users[target].balance;
      CheckedIsExact(previous, input.amount);
      AdjustmentStoredExactly(actor, target, input, previous, previous + input.amount);
      FindKeyIsHasKey(t.ledger, AdjustmentKey(input.clientKey));
    }
  }

  lemma AdjustIsGood(t: Tables, actor: int, role: string, target: int, input: AdjustmentInput)
    requires Valid(t)
    ensures GoodStep(t, AdjustBalance(t, actor, role, target, input).tables)
  {
    var o := AdjustBalance(t, actor, role, target, input);
    AdjustTables(t, actor, role, target, input);
    if o.tables == t {
      GoodStepRefl(t);
    } else {
      var previous := t.users[target].balance;
      AdjustedIsGood(t, AdjustmentEntry(actor, target, input, previous, previous + input.amount),
                     [Event(None, EVENT_BALANCE_ADJUSTMENT, target, None, None, true)],
                     [Audit(Some(actor), "user_balance", target, "admin_balance_adjustment")], o.tables);
    }
  }
}
