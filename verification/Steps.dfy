/** Every operation is a good step: it keeps the invariant, moves rows only forward and books every
    movement of money. */
module Steps {
  import opened Common
  import opened LedgerKeys
  import opened Tables
  import opened Pricing
  import opened Ordering
  import opened Operations
  import opened Invariant

  lemma SumOne(e: Entry, u: int)
    ensures SignedSum([e], u) == if e.userId == u then Signed(e) else 0
  {
    assert [e][..0] == [];
  }

  lemma SumTwo(e: Entry, f: Entry, u: int)
    ensures SignedSum([e, f], u) == SignedSum([e], u) + SignedSum([f], u)
  {
    assert [e, f] == [e] + [f];
    SignedSumConcat([e], [f], u);
  }

  lemma RentalIsJoined(t: Tables, rid: int)
    requires Valid(t) && rid in t.rentals
    ensures Joined(t, rid) && DossierOk(View(t, rid))
  {
  }

  // --- Taking payment ----------------------------------------------------------------------------

  ghost function ActivateChange(t: Tables, rid: int, paid: Payment, balance: int, entries: seq<Entry>, events: seq<Event>, audits: seq<Audit>): Change
    requires Joined(t, rid)
  {
    var r := t.rentals[rid];
    Change(r.(status := Active), paid,
           if r.deposit > 0 then Some(NewHold(r, t.payments[rid])) else Lookup(t.holds, rid), Lookup(t.refunds, rid),
           Rented, balance, entries, events, audits)
  }

  /** An unpaid rental has no row in the ledger. */
  lemma PendingIsUnbooked(t: Tables, rid: int)
    requires Valid(t) && rid in t.rentals && t.payments[rid].status == Pending
    ensures View(t, rid).book == EMPTY_BOOK && rid !in t.holds && rid !in t.refunds
    ensures t.payments[rid].provider == Internal && t.payments[rid].externalTx == None
  {
    RentalIsJoined(t, rid);
  }

  ghost predicate CanActivate(t: Tables, rid: int) {
    && Joined(t, rid)
    && t.payments[rid].status == Pending
    && t.rentals[rid].status == WaitingPayment
    && t.accounts[t.rentals[rid].accountId].status == Reserved
  }

  lemma ChargeIsBooked(t: Tables, rid: int, kind: EntryKind, key: LedgerKey, u: int)
    requires Valid(t) && CanActivate(t, rid)
    requires kind == ProviderPaymentReceived || kind == BalanceDebit
    ensures var r, p := t.rentals[rid], t.payments[rid];
            var entries := ChargeEntries(r, rid, p, kind, key, p.amount);
            && PostAll(EMPTY_BOOK, entries, rid)
               == (if kind == BalanceDebit then EMPTY_BOOK.(debited := [p.amount]) else EMPTY_BOOK.(received := [p.amount])).(
                    held := One(r.deposit > 0, r.deposit))
            && SignedSum(entries, r.userId) == if kind == BalanceDebit then -p.amount else 0
  {
    RentalIsJoined(t, rid);
    var r, p := t.rentals[rid], t.payments[rid];
    var entries := ChargeEntries(r, rid, p, kind, key, p.amount);
    var e := entries[0];
    SumOne(e, r.userId);
    PostOne(EMPTY_BOOK, e, rid);
    if r.deposit > 0 {
      var f := entries[1];
      assert entries == [e, f];
      SumOne(f, r.userId);
      SumTwo(e, f, r.userId);
      PostTwo(EMPTY_BOOK, e, f, rid);
    } else {
      assert entries == [e];
    }
  }

  /** The payment a webhook or a wallet debit leaves behind, with its kind of ledger row. */
  ghost predicate Settlement(p: Payment, paid: Payment, rid: int, kind: EntryKind, key: LedgerKey) {
    && paid == p.(status := Paid, provider := paid.provider, externalTx := paid.externalTx)
    && (paid.provider == Internal <==> paid.externalTx.Some?)
    && (paid.provider == Internal ==> kind == ProviderPaymentReceived && key == WebhookKey(paid.externalTx.value))
    && (paid.provider == Balance ==> kind == BalanceDebit && key == DebitKey(rid))
  }

  /** What the activation of a pending rental looks like in its dossier. */
  ghost predicate Activates(d: Dossier, rid: int, paid: Payment, kind: EntryKind, key: LedgerKey, c: Change) {
    && DossierOk(d) && d.payment.status == Pending && d.rental.status == WaitingPayment
    && d.book == EMPTY_BOOK && d.hold == None && d.refund == None
    && Settlement(d.payment, paid, rid, kind, key)
    && c.rental == d.rental.(status := Active) && c.payment == paid && c.refund == None
    && c.hold == (if d.rental.deposit > 0 then Some(NewHold(d.rental, d.payment)) else None)
    && c.entries == ChargeEntries(d.rental, rid, d.payment, kind, key, d.payment.amount)
    && PostAll(d.book, c.entries, rid)
       == (if kind == BalanceDebit then EMPTY_BOOK.(debited := [d.payment.amount])
           else EMPTY_BOOK.(received := [d.payment.amount])).(held := One(d.rental.deposit > 0, d.rental.deposit))
  }

  lemma ActivateFits(d: Dossier, rid: int, paid: Payment, kind: EntryKind, key: LedgerKey, c: Change)
    requires Activates(d, rid, paid, kind, key, c)
    ensures EntriesFit(d, rid, c)
  {
    var e := c.entries[0];
    assert KeyMatches(e);
    if d.rental.deposit > 0 {
      assert c.entries == [e, c.entries[1]];
      assert KeyMatches(c.entries[1]);
    } else {
      assert c.entries == [e];
    }
  }

  lemma ActivateBooks(d: Dossier, rid: int, paid: Payment, kind: EntryKind, key: LedgerKey, c: Change)
    requires Activates(d, rid, paid, kind, key, c)
    ensures DossierOk(Changed(d, rid, c))
  {
  }

  lemma ActivateDossier(d: Dossier, rid: int, paid: Payment, kind: EntryKind, key: LedgerKey, c: Change)
    requires Activates(d, rid, paid, kind, key, c)
    ensures DossierChangeOk(d, rid, c)
  {
    ActivateBooks(d, rid, paid, kind, key, c);
    ActivateFits(d, rid, paid, kind, key, c);
  }

  lemma ActivateOk(t: Tables, rid: int, paid: Payment, kind: EntryKind, key: LedgerKey, balance: int, events: seq<Event>, audits: seq<Audit>)
    requires Valid(t) && CanActivate(t, rid)
    requires Settlement(t.payments[rid], paid, rid, kind, key)
    requires FreshTransaction(t, paid.externalTx)
    requires balance == t.users[t.rentals[rid].userId].balance - (if kind == BalanceDebit then t.payments[rid].amount else 0)
    requires 0 <= balance
    ensures var entries := ChargeEntries(t.rentals[rid], rid, t.payments[rid], kind, key, t.payments[rid].amount);
            ChangeOk(t, rid, ActivateChange(t, rid, paid, balance, entries, events, audits))
  {
    RentalIsJoined(t, rid);
    PendingIsUnbooked(t, rid);
    ChargeIsBooked(t, rid, kind, key, t.rentals[rid].userId);
    var entries := ChargeEntries(t.rentals[rid], rid, t.payments[rid], kind, key, t.payments[rid].amount);
    var c := ActivateChange(t, rid, paid, balance, entries, events, audits);
    ActivateDossier(View(t, rid), rid, paid, kind, key, c);
  }

  lemma ActivateTables(t: Tables, rid: int, paid: Payment, entries: seq<Entry>, balance: int, events: seq<Event>, audits: seq<Audit>)
    requires Joined(t, rid)
    ensures ApplyChange(t, rid, ActivateChange(t, rid, paid, balance, entries, events, audits))
            == Activate(t, rid, paid, entries).(
                 users := WithBalance(t.users, t.rentals[rid].userId, balance),
                 events := t.events + events, audits := t.audits + audits)
  {
    var t' := ApplyChange(t, rid, ActivateChange(t, rid, paid, balance, entries, events, audits));
    assert t'.holds == Activate(t, rid, paid, entries).holds;
    assert t'.refunds == t.refunds;
  }

  ghost function PayChange(t: Tables, uid: int, rid: int): Change
    requires Joined(t, rid) && uid in t.users
  {
    var r, p := t.rentals[rid], t.payments[rid];
    var total := r.price + r.deposit;
    ActivateChange(t, rid, p.(status := Paid, provider := Balance, externalTx := None), t.users[uid].balance - total,
                   ChargeEntries(r, rid, p, BalanceDebit, DebitKey(rid), total),
                   [RentalEvent(EVENT_WALLET_PAYMENT, r, rid)], [Audit(Some(uid), "payment", p.id, "wallet_payment_success")])
  }

  /** A wallet payment either changes nothing or activates its rental. */
  lemma PayMoves(t: Tables, uid: int, rid: int, now: int, dbNow: int)
    requires Valid(t)
    ensures var t' := PayRentalWithBalance(t, uid, rid, now, dbNow).tables;
            t' != t ==> CanActivate(t, rid) && t.rentals[rid].userId == uid
                        && t.rentals[rid].price + t.rentals[rid].deposit <= t.users[uid].balance
                        && t' == ApplyChange(t, rid, PayChange(t, uid, rid))
  {
    if PayRentalWithBalance(t, uid, rid, now, dbNow).tables != t {
      var c := PayChange(t, uid, rid);
      ActivateTables(t, rid, c.payment, c.entries, c.balance, c.events, c.audits);
    }
  }

  lemma PayChangeOk(t: Tables, uid: int, rid: int, c: Change)
    requires Valid(t) && CanActivate(t, rid) && t.rentals[rid].userId == uid
    requires t.rentals[rid].price + t.rentals[rid].deposit <= t.users[uid].balance
    requires c == PayChange(t, uid, rid)
    ensures ChangeOk(t, rid, c)
  {
    var p := t.payments[rid];
    assert DossierOk(View(t, rid));
    assert p.amount == t.rentals[rid].price + t.rentals[rid].deposit;
    assert c == ActivateChange(t, rid, c.payment, c.balance, ChargeEntries(t.rentals[rid], rid, p, BalanceDebit, DebitKey(rid), p.amount),
                               c.events, c.audits);
    ActivateOk(t, rid, c.payment, BalanceDebit, DebitKey(rid), c.balance, c.events, c.audits);
  }

  lemma PayIsGood(t: Tables, uid: int, rid: int, now: int, dbNow: int)
    requires Valid(t)
    ensures GoodStep(t, PayRentalWithBalance(t, uid, rid, now, dbNow).tables)
  {
    PayMoves(t, uid, rid, now, dbNow);
    var t' := PayRentalWithBalance(t, uid, rid, now, dbNow).tables;
    if t' != t {
      PayChangeOk(t, uid, rid, PayChange(t, uid, rid));
      ChangeIsGood(t, rid, PayChange(t, uid, rid));
    } else {
      GoodStepRefl(t);
    }
  }

  lemma WithBalanceSame(users: map<int, User>, uid: int)
    requires uid in users
    ensures WithBalance(users, uid, users[uid].balance) == users
  {
    assert users[uid].(balance := users[uid].balance) == users[uid];
  }

  /** At most one payment answers a webhook, and its transaction id is free unless it is its own. */
  lemma WebhookRowUnique(t: Tables, req: WebhookRequest, r: int, s: int)
    requires Valid(t) && WebhookRow(t.payments, req, r) && WebhookRow(t.payments, req, s)
    ensures r == s
  {
  }

  lemma WebhookForIsGood(t: Tables, req: WebhookRequest, rid: int, dbNow: int)
    requires Valid(t) && WebhookRow(t.payments, req, rid)
    ensures GoodStep(t, ProcessWebhookFor(t, req, rid, dbNow).tables)
  {
    var o := ProcessWebhookFor(t, req, rid, dbNow);
    if o.result.Ok? && !o.result.value.idempotent {
      RentalIsJoined(t, rid);
      PendingIsUnbooked(t, rid);
      var r, p := t.rentals[rid], t.payments[rid];
      var paid := p.(status := Paid, externalTx := Some(req.externalTx));
      var entries := ChargeEntries(r, rid, p, ProviderPaymentReceived, WebhookKey(req.externalTx), p.amount);
      var events := [RentalEvent(EVENT_RENTAL_ACTIVATED, r, rid)];
      var balance := t.users[r.userId].balance;
      TransactionIsFresh(t, req, rid);
      ActivateOk(t, rid, paid, ProviderPaymentReceived, WebhookKey(req.externalTx), balance, events, []);
      ActivateTables(t, rid, paid, entries, balance, events, []);
      ChangeIsGood(t, rid, ActivateChange(t, rid, paid, balance, entries, events, []));
      WithBalanceSame(t.users, r.userId);
      assert t.audits + [] == t.audits;
    } else {
      GoodStepRefl(t);
    }
  }

  /** A pending payment found by a webhook was found by its id: no payment carries the
      transaction id. */
  lemma TransactionIsFresh(t: Tables, req: WebhookRequest, rid: int)
    requires Valid(t) && WebhookRow(t.payments, req, rid) && t.payments[rid].status == Pending
    ensures FreshTransaction(t, Some(req.externalTx))
  {
    PendingIsUnbooked(t, rid);
    forall s | s in t.payments
      ensures t.payments[s].externalTx != Some(req.externalTx)
    {
      assert DossierOk(View(t, s));
      assert !SettledBy(t.payments[s], req.externalTx);
    }
  }

  lemma WebhookIsGood(t: Tables, req: WebhookRequest, dbNow: int)
    requires Valid(t)
    ensures GoodStep(t, ProcessWebhook(t, req, dbNow).tables)
  {
    if ValidWebhookRequest(req) && req.status == "success" && HasWebhookRow(t.payments, req) {
      var rid :| WebhookRow(t.payments, req, rid) && ProcessWebhook(t, req, dbNow) == ProcessWebhookFor(t, req, rid, dbNow);
      WebhookForIsGood(t, req, rid, dbNow);
    } else {
      GoodStepRefl(t);
    }
  }

  // --- Renting, cancelling, expiring ---------------------------------------------------------------

  /** A change that moves a rental and its account but no money. */
  ghost function StatusChange(t: Tables, rid: int, rental: Rental, payment: Payment, account: AccountStatus, events: seq<Event>): Change
    requires Joined(t, rid)
  {
    Change(rental, payment, Lookup(t.holds, rid), Lookup(t.refunds, rid), account,
           t.users[t.rentals[rid].userId].balance, [], events, [])
  }

  lemma StatusChangeTables(t: Tables, rid: int, rental: Rental, payment: Payment, account: AccountStatus, events: seq<Event>)
    requires Joined(t, rid)
    ensures ApplyChange(t, rid, StatusChange(t, rid, rental, payment, account, events))
            == t.(rentals := t.rentals[rid := rental], payments := t.payments[rid := payment],
                  accounts := WithStatus(t.accounts, t.rentals[rid].accountId, account), events := t.events + events)
  {
    var t' := ApplyChange(t, rid, StatusChange(t, rid, rental, payment, account, events));
    WithBalanceSame(t.users, t.rentals[rid].userId);
    assert t'.holds == t.holds;
    assert t'.refunds == t.refunds;
    assert t'.ledger == t.ledger;
    assert t'.audits == t.audits;
  }

  lemma StatusChangeOk(t: Tables, rid: int, rental: Rental, payment: Payment, account: AccountStatus, events: seq<Event>)
    requires Valid(t) && rid in t.rentals
    requires payment == t.payments[rid] || (t.payments[rid].status == Pending && payment == t.payments[rid].(status := Failed))
    requires RentalEvolves(t.rentals[rid], rental)
    requires StatusPairOk(payment.status, rental.status)
    requires HoldOk(rental, payment, Lookup(t.holds, rid))
    requires rid !in t.refunds
    requires AccountFollows(t.rentals[rid].status, t.accounts[t.rentals[rid].accountId].status, rental.status, account)
    ensures Joined(t, rid) && ChangeOk(t, rid, StatusChange(t, rid, rental, payment, account, events))
  {
    RentalIsJoined(t, rid);
    StatusDossier(View(t, rid), rid, StatusChange(t, rid, rental, payment, account, events));
  }

  lemma StatusDossier(d: Dossier, rid: int, c: Change)
    requires DossierOk(d) && d.refund == None && c.refund == None && c.hold == d.hold && c.entries == []
    requires c.payment == d.payment || (d.payment.status == Pending && c.payment == d.payment.(status := Failed))
    requires RentalEvolves(d.rental, c.rental) && StatusPairOk(c.payment.status, c.rental.status)
    requires HoldOk(c.rental, c.payment, c.hold)
    ensures DossierChangeOk(d, rid, c)
  {
    assert DossierOk(Changed(d, rid, c));
  }

  lemma CancelIsGood(t: Tables, uid: int, rid: int, now: int)
    requires Valid(t)
    ensures GoodStep(t, CancelRental(t, uid, rid, now).tables)
  {
    if CancelRental(t, uid, rid, now).result == Ok(true) {
      RentalIsJoined(t, rid);
      var r := t.rentals[rid];
      var rental := r.(status := Cancelled, finishedAt := Some(now));
      var payment := t.payments[rid].(status := Failed);
      var events := [RentalEvent(EVENT_RENTAL_CANCELLED, r, rid)];
      StatusChangeOk(t, rid, rental, payment, Available, events);
      StatusChangeTables(t, rid, rental, payment, Available, events);
      ChangeIsGood(t, rid, StatusChange(t, rid, rental, payment, Available, events));
    } else {
      GoodStepRefl(t);
    }
  }

  lemma ExpireReservationIsGood(t: Tables, rid: int, now: int)
    requires Valid(t)
    ensures GoodStep(t, ExpireReservation(t, rid, now).tables)
  {
    if ReservationExpired(t, rid, now) {
      RentalIsJoined(t, rid);
      var r := t.rentals[rid];
      var rental := r.(status := Expired);
      var payment := t.payments[rid].(status := Failed);
      var events := [RentalEvent(EVENT_RESERVATION_EXPIRED, r, rid)];
      StatusChangeOk(t, rid, rental, payment, Available, events);
      StatusChangeTables(t, rid, rental, payment, Available, events);
      ChangeIsGood(t, rid, StatusChange(t, rid, rental, payment, Available, events));
    } else {
      GoodStepRefl(t);
    }
  }

  /** In a valid database an overdue rental is the only active one of its account, and its deposit,
      if any, is held: the expiry always succeeds and always sets the 24-hour deadline. */
  lemma OverdueExpires(t: Tables, rid: int, aid: int, now: int)
    requires Valid(t) && RentalOverdue(t, rid, aid, now)
    ensures ExpireRental(t, rid, aid, now).result == Ok(true)
    ensures ExpireRental(t, rid, aid, now).tables.rentals[rid].reviewDeadline
            == if t.rentals[rid].deposit > 0 then Some(t.rentals[rid].endAt + REVIEW_WINDOW) else None
  {
    RentalIsJoined(t, rid);
    forall s | s in t.rentals && t.rentals[s].accountId == aid && t.rentals[s].status == Active
      ensures s == rid
    {
      assert IsLive(t.rentals[s].status) && IsLive(t.rentals[rid].status);
    }
  }

  lemma ExpireRentalIsGood(t: Tables, rid: int, aid: int, now: int)
    requires Valid(t)
    ensures GoodStep(t, ExpireRental(t, rid, aid, now).tables)
  {
    if RentalOverdue(t, rid, aid, now) {
      RentalIsJoined(t, rid);
      OverdueExpires(t, rid, aid, now);
      var r, p := t.rentals[rid], t.payments[rid];
      var rental := ExpireRental(t, rid, aid, now).tables.rentals[rid];
      var events := [RentalEvent(EVENT_RENTAL_EXPIRED, r, rid)];
      StatusChangeOk(t, rid, rental, p, Available, events);
      StatusChangeTables(t, rid, rental, p, Available, events);
      ChangeIsGood(t, rid, StatusChange(t, rid, rental, p, Available, events));
      assert t.payments[rid := p] == t.payments;
    } else {
      GoodStepRefl(t);
    }
  }

  // --- Settling -----------------------------------------------------------------------------------

  /** A deposit awaiting its settlement. */
  ghost predicate AwaitsSettlement(t: Tables, rid: int) {
    Joined(t, rid) && rid in t.holds && t.holds[rid].status == Held
    && t.payments[rid].status == Paid && t.rentals[rid].status == Expired
  }

  ghost function SettleChange(t: Tables, rid: int, hold: Hold, balance: int, entry: Entry, events: seq<Event>, audits: seq<Audit>, now: int): Change
    requires Joined(t, rid)
  {
    Change(t.rentals[rid].(status := Completed, completedAt := Some(now)), t.payments[rid], Some(hold), Lookup(t.refunds, rid),
           t.accounts[t.rentals[rid].accountId].status, balance, [entry], events, audits)
  }

  ghost predicate SettlesHold(t: Tables, rid: int, hold: Hold, entry: Entry)
    requires Joined(t, rid) && rid in t.holds
  {
    var r, h := t.rentals[rid], t.holds[rid];
    && hold.amount == h.amount && hold.userId == h.userId && hold.paymentId == h.paymentId && hold.currency == h.currency
    && (hold.status == Released || hold.status == Forfeited) && SourceOk(hold)
    && entry.amount == h.amount && entry.rental == Some(rid) && entry.userId == r.userId
    && KeyMatches(entry)
    && entry.kind == (if hold.status == Released then DepositReleasedToBalance else DepositForfeited)
  }

  /** What a release or a forfeit looks like in its rental's dossier. */
  ghost predicate Settles(d: Dossier, rid: int, c: Change, now: int) {
    && DossierOk(d) && d.rental.status == Expired && d.payment.status == Paid
    && d.hold.Some? && d.hold.value.status == Held
    && c.rental == d.rental.(status := Completed, completedAt := Some(now)) && c.payment == d.payment && c.refund == d.refund
    && c.hold.Some?
    && var h, h' := d.hold.value, c.hold.value;
       && h'.amount == h.amount && h'.userId == h.userId && h'.paymentId == h.paymentId && h'.currency == h.currency
       && (h'.status == Released || h'.status == Forfeited) && SourceOk(h')
       && |c.entries| == 1
       && var e := c.entries[0];
          && e.amount == h.amount && e.rental == Some(rid) && e.userId == d.rental.userId && KeyMatches(e)
          && e.kind == (if h'.status == Released then DepositReleasedToBalance else DepositForfeited)
          && PostAll(d.book, c.entries, rid) == Post(d.book, e)
  }

  lemma SettleBooks(d: Dossier, rid: int, c: Change, now: int)
    requires Settles(d, rid, c, now)
    ensures DossierOk(Changed(d, rid, c))
  {
  }

  lemma SettleFits(d: Dossier, rid: int, c: Change, now: int)
    requires Settles(d, rid, c, now)
    ensures EntriesFit(d, rid, c)
  {
  }

  lemma SettleOk(t: Tables, rid: int, hold: Hold, balance: int, entry: Entry, events: seq<Event>, audits: seq<Audit>, now: int)
    requires Valid(t) && AwaitsSettlement(t, rid) && SettlesHold(t, rid, hold, entry)
    requires balance == t.users[t.rentals[rid].userId].balance + (if hold.status == Released then t.holds[rid].amount else 0)
    requires balance <= MAX_INT64
    ensures ChangeOk(t, rid, SettleChange(t, rid, hold, balance, entry, events, audits, now))
  {
    RentalIsJoined(t, rid);
    var c := SettleChange(t, rid, hold, balance, entry, events, audits, now);
    SumOne(entry, t.rentals[rid].userId);
    PostOne(View(t, rid).book, entry, rid);
    SettleBooks(View(t, rid), rid, c, now);
    SettleFits(View(t, rid), rid, c, now);
  }

  lemma WithStatusSame(accounts: map<int, Account>, aid: int)
    requires aid in accounts
    ensures WithStatus(accounts, aid, accounts[aid].status) == accounts
  {
    assert accounts[aid].(status := accounts[aid].status) == accounts[aid];
  }

  ghost function ReleaseChange(t: Tables, rid: int, source: SettlementSource, settler: Option<int>, key: LedgerKey, action: string, actor: Option<int>, now: int): Change
    requires AwaitsSettlement(t, rid)
  {
    var r, h := t.rentals[rid], t.holds[rid];
    SettleChange(t, rid, ReleasedHold(h, source, settler, now), t.users[r.userId].balance + h.amount,
                 RentalEntry(DepositReleasedToBalance, r, rid, h.amount, t.payments[rid].currency, key),
                 [RentalEvent(EVENT_DEPOSIT_RELEASED, r, rid), RentalEvent(EVENT_RENTAL_COMPLETED, r, rid)],
                 [Audit(settler, "deposit_hold", rid, action), Audit(actor, "rental", rid, "rental_complete")], now)
  }

  lemma ReleaseTables(t: Tables, rid: int, source: SettlementSource, settler: Option<int>, key: LedgerKey, action: string, actor: Option<int>, now: int)
    requires Valid(t) && AwaitsSettlement(t, rid)
    requires source == AdminRelease || source == AutoRelease
    ensures var t1 := ReleaseHold(t, rid, source, settler, key, action, now);
            CompleteRental(t1, rid, actor, now)
            == Outcome(ApplyChange(t, rid, ReleaseChange(t, rid, source, settler, key, action, actor, now)), Ok(Some(now)))
  {
    RentalIsJoined(t, rid);
    var t1 := ReleaseHold(t, rid, source, settler, key, action, now);
    assert Completable(t1, rid);
    SettleTables(t, rid, ReleaseChange(t, rid, source, settler, key, action, actor, now), CompleteRental(t1, rid, actor, now).tables);
  }

  /** The completion that follows a release always succeeds, so release and completion are one step. */
  lemma ReleaseCompletes(t: Tables, rid: int, source: SettlementSource, settler: Option<int>, key: LedgerKey, action: string, actor: Option<int>, now: int)
    requires Valid(t) && AwaitsSettlement(t, rid)
    requires source == AdminRelease || source == AutoRelease
    requires key == ReleaseKey(rid) || key == AutoReleaseKey(rid)
    requires CreditFits(t, t.rentals[rid].userId, t.holds[rid].amount)
    ensures var t1 := ReleaseHold(t, rid, source, settler, key, action, now);
            && CompleteRental(t1, rid, actor, now).result == Ok(Some(now))
            && GoodStep(t, CompleteRental(t1, rid, actor, now).tables)
  {
    var c := ReleaseChange(t, rid, source, settler, key, action, actor, now);
    SettleOk(t, rid, c.hold.value, c.balance, c.entries[0], c.events, c.audits, now);
    ChangeIsGood(t, rid, c);
    ReleaseTables(t, rid, source, settler, key, action, actor, now);
  }

  lemma SettleTables(t: Tables, rid: int, c: Change, t2: Tables)
    requires Joined(t, rid)
    requires c.payment == t.payments[rid] && c.account == t.accounts[t.rentals[rid].accountId].status
    requires c.refund == Lookup(t.refunds, rid)
    requires t2.users == WithBalance(t.users, t.rentals[rid].userId, c.balance) && t2.accounts == t.accounts
    requires t2.rentals == t.rentals[rid := c.rental] && t2.payments == t.payments
    requires t2.holds == Put(t.holds, rid, c.hold) && t2.refunds == t.refunds
    requires t2.ledger == t.ledger + c.entries && t2.events == t.events + c.events && t2.audits == t.audits + c.audits
    ensures ApplyChange(t, rid, c) == t2
  {
    WithStatusSame(t.accounts, t.rentals[rid].accountId);
    assert t.payments[rid := c.payment] == t.payments;
    assert Put(t.refunds, rid, c.refund) == t.refunds;
  }

  ghost function ForfeitChange(t: Tables, rid: int, actor: int, reason: string, evidence: string, now: int): Change
    requires AwaitsSettlement(t, rid)
  {
    var r := t.rentals[rid];
    var t1 := ForfeitHold(t, rid, actor, reason, evidence, now);
    SettleChange(t, rid, t1.holds[rid], t.users[r.userId].balance,
                 RentalEntry(DepositForfeited, r, rid, t.holds[rid].amount, t.payments[rid].currency, ForfeitKey(rid)),
                 [RentalEvent(EVENT_DEPOSIT_FORFEITED, r, rid), RentalEvent(EVENT_RENTAL_COMPLETED, r, rid)],
                 [Audit(Some(actor), "deposit_hold", rid, "deposit_forfeit"), Audit(Some(actor), "rental", rid, "rental_complete")], now)
  }

  lemma ForfeitTables(t: Tables, rid: int, actor: int, reason: string, evidence: string, now: int)
    requires Valid(t) && AwaitsSettlement(t, rid)
    ensures var t1 := ForfeitHold(t, rid, actor, reason, evidence, now);
            CompleteRental(t1, rid, Some(actor), now)
            == Outcome(ApplyChange(t, rid, ForfeitChange(t, rid, actor, reason, evidence, now)), Ok(Some(now)))
  {
    RentalIsJoined(t, rid);
    var t1 := ForfeitHold(t, rid, actor, reason, evidence, now);
    assert Completable(t1, rid);
    WithBalanceSame(t.users, t.rentals[rid].userId);
    SettleTables(t, rid, ForfeitChange(t, rid, actor, reason, evidence, now), CompleteRental(t1, rid, Some(actor), now).tables);
  }

  /** A forfeit and the completion that follows it always succeed together. */
  lemma ForfeitCompletes(t: Tables, rid: int, actor: int, reason: string, evidence: string, now: int)
    requires Valid(t) && AwaitsSettlement(t, rid)
    ensures var t1 := ForfeitHold(t, rid, actor, reason, evidence, now);
            && CompleteRental(t1, rid, Some(actor), now).result == Ok(Some(now))
            && GoodStep(t, CompleteRental(t1, rid, Some(actor), now).tables)
  {
    var c := ForfeitChange(t, rid, actor, reason, evidence, now);
    SettleOk(t, rid, c.hold.value, c.balance, c.entries[0], c.events, c.audits, now);
    ChangeIsGood(t, rid, c);
    ForfeitTables(t, rid, actor, reason, evidence, now);
  }

  /** A deposit that left `Held` belongs to a completed rental: replays find nothing to complete. */
  lemma SettledIsCompleted(t: Tables, rid: int, actor: Option<int>, now: int)
    requires Valid(t) && rid in t.rentals && rid in t.holds && t.holds[rid].status != Held
    ensures t.rentals[rid].status == Completed
    ensures CompleteRental(t, rid, actor, now) == Outcome(t, Ok(t.rentals[rid].completedAt))
  {
    RentalIsJoined(t, rid);
  }

  /** A release either changes nothing or settles a held deposit and completes its rental. */
  lemma ReleaseMoves(t: Tables, actor: int, role: string, rid: int, now: int)
    requires Valid(t)
    ensures var o := ReleaseDeposit(t, actor, role, rid, now);
            o.tables != t ==>
              && AwaitsSettlement(t, rid) && CreditFits(t, t.rentals[rid].userId, t.holds[rid].amount)
              && o.tables == CompleteRental(ReleaseHold(t, rid, AdminRelease, Some(actor), ReleaseKey(rid), "deposit_release", now),
                                            rid, Some(actor), now).tables
  {
    if rid in t.rentals && rid in t.holds {
      RentalIsJoined(t, rid);
      if t.holds[rid].status == Released {
        SettledIsCompleted(t, rid, Some(actor), now);
      }
    }
  }

  lemma ReleaseIsGood(t: Tables, actor: int, role: string, rid: int, now: int)
    requires Valid(t)
    ensures GoodStep(t, ReleaseDeposit(t, actor, role, rid, now).tables)
  {
    GoodStepRefl(t);
    ReleaseMoves(t, actor, role, rid, now);
    if ReleaseDeposit(t, actor, role, rid, now).tables != t {
      ReleaseCompletes(t, rid, AdminRelease, Some(actor), ReleaseKey(rid), "deposit_release", Some(actor), now);
    }
  }

  /** A forfeit either changes nothing or settles a held deposit and completes its rental. */
  lemma ForfeitMoves(t: Tables, actor: int, role: string, rid: int, reason: string, evidence: string, now: int)
    requires Valid(t)
    ensures var o := ForfeitDeposit(t, actor, role, rid, reason, evidence, now);
            o.tables != t ==>
              && AwaitsSettlement(t, rid)
              && o.tables == CompleteRental(ForfeitHold(t, rid, actor, reason, evidence, now), rid, Some(actor), now).tables
  {
    if rid in t.rentals && rid in t.holds {
      RentalIsJoined(t, rid);
      if t.holds[rid].status == Forfeited {
        SettledIsCompleted(t, rid, Some(actor), now);
      }
    }
  }

  lemma ForfeitIsGood(t: Tables, actor: int, role: string, rid: int, reason: string, evidence: string, now: int)
    requires Valid(t)
    ensures GoodStep(t, ForfeitDeposit(t, actor, role, rid, reason, evidence, now).tables)
  {
    GoodStepRefl(t);
    ForfeitMoves(t, actor, role, rid, reason, evidence, now);
    if ForfeitDeposit(t, actor, role, rid, reason, evidence, now).tables != t {
      ForfeitCompletes(t, rid, actor, reason, evidence, now);
    }
  }

  // --- Refunding -----------------------------------------------------------------------------------

  ghost function RefundChange(t: Tables, rid: int, actor: int, reason: string, events: seq<Event>, audits: seq<Audit>, rental: Rental, now: int): Change
    requires Joined(t, rid)
  {
    var r := t.rentals[rid];
    var d := RefundableDeposit(t, rid);
    Change(rental, t.payments[rid],
           if d > 0 then Some(RefundedHold(t.holds[rid], actor, now)) else Lookup(t.holds, rid),
           Some(NewRefund(t, rid, actor, reason)),
           t.accounts[r.accountId].status, t.users[r.userId].balance + (r.price + d),
           RefundEntries(t, rid), events, audits)
  }

  /** The rental as a refund leaves it. */
  ghost function RefundedRental(r: Rental, now: int): Rental {
    if r.status == Completed then r else r.(status := Completed, completedAt := Some(now))
  }

  lemma RefundIsBooked(t: Tables, rid: int, b: Book)
    requires Valid(t) && rid in t.rentals && Joined(t, rid)
    ensures var d := RefundableDeposit(t, rid);
            && PostAll(b, RefundEntries(t, rid), rid)
               == b.(principal := b.principal + [t.rentals[rid].price],
                     depositRefund := b.depositRefund + One(d > 0, d))
            && SignedSum(RefundEntries(t, rid), t.rentals[rid].userId) == t.rentals[rid].price + d
  {
    RentalIsJoined(t, rid);
    var entries, u := RefundEntries(t, rid), t.rentals[rid].userId;
    var e := entries[0];
    SumOne(e, u);
    PostOne(b, e, rid);
    if RefundableDeposit(t, rid) > 0 {
      var f := entries[1];
      assert entries == [e, f];
      SumOne(f, u);
      SumTwo(e, f, u);
      PostTwo(b, e, f, rid);
    } else {
      assert entries == [e];
    }
  }

  ghost predicate CanRefund(t: Tables, rid: int) {
    && Joined(t, rid) && RefundAllowed(t, rid) && rid !in t.refunds
    && CreditFits(t, t.rentals[rid].userId, t.rentals[rid].price + RefundableDeposit(t, rid))
  }

  /** What a refund looks like in its rental's dossier. */
  ghost predicate Refunds(d: Dossier, rid: int, c: Change, actor: int, now: int) {
    var held := d.hold.Some? && d.hold.value.status == Held;
    && DossierOk(d) && d.refund == None
    && d.payment.provider == Balance && d.payment.status == Paid
    && (d.rental.status == Expired || d.rental.status == Completed)
    && c.rental == RefundedRental(d.rental, now) && c.payment == d.payment
    && c.hold == (if held then Some(RefundedHold(d.hold.value, actor, now)) else d.hold)
    && c.refund.Some? && c.refund.value.status == RefundDone
    && c.refund.value.userId == d.rental.userId && c.refund.value.paymentId == d.payment.id
    && c.refund.value.principal == d.rental.price
    && c.refund.value.deposit == (if held then d.rental.deposit else 0)
    && c.refund.value.total == c.refund.value.principal + c.refund.value.deposit
    && c.entries == [RentalEntry(BalanceRefundCredit, d.rental, rid, d.rental.price, d.payment.currency, PrincipalRefundKey(rid))]
                    + (if held then [RentalEntry(DepositRefundCredit, d.rental, rid, d.rental.deposit, d.payment.currency, DepositRefundKey(rid))] else [])
    && PostAll(d.book, c.entries, rid)
       == d.book.(principal := d.book.principal + [d.rental.price],
                  depositRefund := d.book.depositRefund + One(held, d.rental.deposit))
  }

  lemma RefundFits(d: Dossier, rid: int, c: Change, actor: int, now: int)
    requires Refunds(d, rid, c, actor, now)
    ensures EntriesFit(d, rid, c)
  {
    var e := c.entries[0];
    assert KeyMatches(e);
    if |c.entries| == 2 {
      assert c.entries == [e, c.entries[1]];
      assert KeyMatches(c.entries[1]);
    } else {
      assert c.entries == [e];
    }
  }

  lemma RefundBooks(d: Dossier, rid: int, c: Change, actor: int, now: int)
    requires Refunds(d, rid, c, actor, now)
    ensures DossierOk(Changed(d, rid, c))
  {
  }

  lemma RefundDossier(d: Dossier, rid: int, c: Change, actor: int, now: int)
    requires Refunds(d, rid, c, actor, now)
    ensures DossierChangeOk(d, rid, c)
  {
    RefundBooks(d, rid, c, actor, now);
    RefundFits(d, rid, c, actor, now);
  }

  lemma RefundChangeOk(t: Tables, rid: int, actor: int, reason: string, events: seq<Event>, audits: seq<Audit>, now: int)
    requires Valid(t) && CanRefund(t, rid)
    ensures ChangeOk(t, rid, RefundChange(t, rid, actor, reason, events, audits, RefundedRental(t.rentals[rid], now), now))
  {
    RentalIsJoined(t, rid);
    var c := RefundChange(t, rid, actor, reason, events, audits, RefundedRental(t.rentals[rid], now), now);
    RefundIsBooked(t, rid, View(t, rid).book);
    RefundDossier(View(t, rid), rid, c, actor, now);
  }

  ghost function RefundEvents(r: Rental, rid: int): seq<Event> {
    [RentalEvent(EVENT_WALLET_REFUND, r, rid)]
    + (if r.status == Completed then [] else [RentalEvent(EVENT_RENTAL_COMPLETED, r, rid)])
  }

  ghost function RefundAudits(r: Rental, rid: int, actor: int): seq<Audit> {
    [Audit(Some(actor), "refund", rid, "wallet_refund_completed")]
    + (if r.status == Completed then [] else [Audit(Some(actor), "rental", rid, "rental_complete")])
  }

  lemma RefundEnds(t: Tables, rid: int, actor: int, reason: string, now: int)
    requires Valid(t) && CanRefund(t, rid)
    ensures var t1 := RefundTables(t, rid, actor, reason, now);
            var r := t.rentals[rid];
            var c := RefundChange(t, rid, actor, reason, RefundEvents(r, rid), RefundAudits(r, rid, actor), RefundedRental(r, now), now);
            && CompleteRental(t1, rid, Some(actor), now).result.Ok?
            && CompleteRental(t1, rid, Some(actor), now).tables == ApplyChange(t, rid, c)
  {
    RentalIsJoined(t, rid);
    var r := t.rentals[rid];
    var t1 := RefundTables(t, rid, actor, reason, now);
    if r.status == Expired {
      assert Completable(t1, rid);
    } else {
      assert t.rentals[rid := r] == t.rentals;
    }
    var c := RefundChange(t, rid, actor, reason, RefundEvents(r, rid), RefundAudits(r, rid, actor), RefundedRental(r, now), now);
    var t2 := CompleteRental(t1, rid, Some(actor), now).tables;
    assert t2.events == t.events + c.events;
    assert t2.audits == t.audits + c.audits;
    RefundEndTables(t, rid, c, t2);
  }

  /** A refund and the completion that follows it always succeed together. */
  lemma RefundCompletes(t: Tables, rid: int, actor: int, reason: string, now: int)
    requires Valid(t) && CanRefund(t, rid)
    ensures var t1 := RefundTables(t, rid, actor, reason, now);
            && CompleteRental(t1, rid, Some(actor), now).result.Ok?
            && GoodStep(t, CompleteRental(t1, rid, Some(actor), now).tables)
  {
    var r := t.rentals[rid];
    var c := RefundChange(t, rid, actor, reason, RefundEvents(r, rid), RefundAudits(r, rid, actor), RefundedRental(r, now), now);
    RefundChangeOk(t, rid, actor, reason, RefundEvents(r, rid), RefundAudits(r, rid, actor), now);
    ChangeIsGood(t, rid, c);
    RefundEnds(t, rid, actor, reason, now);
  }

  lemma RefundEndTables(t: Tables, rid: int, c: Change, t2: Tables)
    requires Joined(t, rid)
    requires c.payment == t.payments[rid] && c.account == t.accounts[t.rentals[rid].accountId].status
    requires t2.users == WithBalance(t.users, t.rentals[rid].userId, c.balance) && t2.accounts == t.accounts
    requires t2.rentals == t.rentals[rid := c.rental] && t2.payments == t.payments
    requires t2.holds == Put(t.holds, rid, c.hold) && t2.refunds == Put(t.refunds, rid, c.refund)
    requires t2.ledger == t.ledger + c.entries && t2.events == t.events + c.events && t2.audits == t.audits + c.audits
    ensures ApplyChange(t, rid, c) == t2
  {
    WithStatusSame(t.accounts, t.rentals[rid].accountId);
    assert t.payments[rid := c.payment] == t.payments;
  }

  lemma RefundIsGood(t: Tables, actor: int, role: string, rid: int, reason: string, now: int)
    requires Valid(t)
    ensures GoodStep(t, RefundWalletPayment(t, actor, role, rid, reason, now).tables)
  {
    GoodStepRefl(t);
    var o := RefundWalletPayment(t, actor, role, rid, reason, now);
    if rid in t.rentals && o.result.Ok? {
      RentalIsJoined(t, rid);
      if rid !in t.refunds {
        RefundCompletes(t, rid, actor, reason, now);
      }
    }
  }

  // --- Finalizing ----------------------------------------------------------------------------------

  /** What the finalizer adds to the balance of the rental's user. */
  ghost function DueCredit(t: Tables, rid: int): int
    requires rid in t.rentals
  {
    t.rentals[rid].deposit
  }

  lemma CompletionOk(d: Dossier, rid: int, c: Change, now: int)
    requires DossierOk(d) && d.rental.status == Expired && d.payment.status == Paid && d.rental.deposit == 0
    requires c.rental == d.rental.(status := Completed, completedAt := Some(now)) && c.payment == d.payment
    requires c.hold == None && c.refund == d.refund && c.entries == []
    ensures DossierChangeOk(d, rid, c)
  {
    assert DossierOk(Changed(d, rid, c));
  }

  lemma PlainCompletionOk(t: Tables, rid: int, now: int)
    requires Valid(t) && rid in t.rentals
    requires t.rentals[rid].status == Expired && t.payments[rid].status == Paid && t.rentals[rid].deposit == 0
    ensures CompleteRental(t, rid, None, now).result == Ok(Some(now))
    ensures GoodStep(t, CompleteRental(t, rid, None, now).tables)
  {
    RentalIsJoined(t, rid);
    assert Completable(t, rid);
    var r := t.rentals[rid];
    var t2 := CompleteRental(t, rid, None, now).tables;
    var events := [RentalEvent(EVENT_RENTAL_COMPLETED, r, rid)];
    var audits := [Audit(None, "rental", rid, "rental_complete")];
    var c := Change(r.(status := Completed, completedAt := Some(now)), t.payments[rid], None, Lookup(t.refunds, rid),
                    t.accounts[r.accountId].status, t.users[r.userId].balance, [], events, audits);
    CompletionOk(View(t, rid), rid, c, now);
    ChangeIsGood(t, rid, c);
    WithBalanceSame(t.users, r.userId);
    SettleTables(t, rid, c, t2);
  }

  /** A candidate has either no deposit or a held one whose review deadline has passed: the
      third alternative of the query, a settled deposit on an expired rental, never occurs. */
  lemma CandidateShape(t: Tables, rid: int, now: int)
    requires Valid(t) && rid in t.rentals && IsCandidate(t, rid, now)
    ensures SettlementLoadError(t, rid) == None
    ensures t.rentals[rid].deposit > 0 ==>
              AwaitsSettlement(t, rid) && ConsistentDeposit(t, rid)
              && t.holds[rid].amount == t.rentals[rid].deposit
              && t.rentals[rid].reviewDeadline == Some(t.rentals[rid].endAt + REVIEW_WINDOW)
              && t.rentals[rid].endAt + REVIEW_WINDOW <= now
    ensures t.rentals[rid].deposit <= 0 ==> t.rentals[rid].deposit == 0 && rid !in t.holds
  {
    RentalIsJoined(t, rid);
  }

  lemma AutoReleaseOutcome(t: Tables, rid: int, now: int)
    requires Valid(t) && rid in t.rentals && IsCandidate(t, rid, now) && t.rentals[rid].deposit > 0
    requires CreditFits(t, t.rentals[rid].userId, t.rentals[rid].deposit)
    ensures FinalizeRental(t, rid, now).result == Ok(FinalizedRental(rid, true))
    ensures GoodStep(t, FinalizeRental(t, rid, now).tables)
  {
    CandidateShape(t, rid, now);
    ReleaseCompletes(t, rid, AutoRelease, None, AutoReleaseKey(rid), "deposit_auto_release", None, now);
  }

  lemma NoDepositOutcome(t: Tables, rid: int, now: int)
    requires Valid(t) && rid in t.rentals && IsCandidate(t, rid, now) && t.rentals[rid].deposit <= 0
    ensures FinalizeRental(t, rid, now).result == Ok(FinalizedRental(rid, false))
    ensures GoodStep(t, FinalizeRental(t, rid, now).tables)
  {
    CandidateShape(t, rid, now);
    PlainCompletionOk(t, rid, now);
  }

  /** The switch of the finalizer agrees with the query that feeds it: a candidate is completed
      without error, unless its user's balance would overflow. */
  lemma CandidateIsFinalized(t: Tables, rid: int, now: int)
    requires Valid(t) && rid in t.rentals && IsCandidate(t, rid, now)
    ensures var o := FinalizeRental(t, rid, now);
            && (o.result.Ok? <==> CreditFits(t, t.rentals[rid].userId, DueCredit(t, rid)))
            && (o.result.Ok? ==> o.result == Ok(FinalizedRental(rid, t.rentals[rid].deposit > 0)))
            && (o.result.Err? ==> o.result == Err(BalanceOutOfRange) && o.tables == t)
            && GoodStep(t, o.tables)
  {
    CandidateShape(t, rid, now);
    GoodStepRefl(t);
    if t.rentals[rid].deposit <= 0 {
      NoDepositOutcome(t, rid, now);
    } else if CreditFits(t, t.rentals[rid].userId, DueCredit(t, rid)) {
      AutoReleaseOutcome(t, rid, now);
    }
  }

  lemma FinalizeNextIsGood(t: Tables, now: int)
    requires Valid(t)
    ensures GoodStep(t, FinalizeNext(t, now).tables)
  {
    GoodStepRefl(t);
    if Candidates(t, now) != {} {
      CandidateIsFinalized(t, First(Candidates(t, now), QueueRank(t)), now);
    }
  }

  // --- Steps that leave rentals alone ---------------------------------------------------------------

  /** A step that leaves the rentals, their books and the accounts alone keeps all that is said
      about them. */
  lemma RentalsFrame(t: Tables, t': Tables)
    requires Valid(t)
    requires t'.rentals == t.rentals && t'.payments == t.payments && t'.holds == t.holds && t'.refunds == t.refunds
    requires t'.accounts == t.accounts && t.users.Keys <= t'.users.Keys
    requires forall r :: r in t.rentals ==> BookOf(t'.ledger, r) == BookOf(t.ledger, r)
    ensures DomainsOk(t') && DossiersOk(t') && RentalsEvolve(t, t')
    ensures AccountsOk(t') && LiveRentalsMatch(t') && OneLiveRental(t') && BusyAccountsUsed(t') && PaymentsUnique(t')
    ensures forall i :: 0 <= i < |t.ledger| ==> EntryOk(t', t.ledger[i])
  {
    forall r | r in t.rentals
      ensures View(t', r) == View(t, r)
    {
    }
    forall i | 0 <= i < |t.ledger|
      ensures EntryOk(t', t.ledger[i])
    {
      assert EntryOk(t, t.ledger[i]);
    }
  }

  /** Appending events and audit rows changes nothing the invariant speaks about. */
  lemma LogIsGood(t: Tables, events: seq<Event>, audits: seq<Audit>)
    requires Valid(t)
    ensures GoodStep(t, t.(events := t.events + events, audits := t.audits + audits))
  {
    RentalsFrame(t, t.(events := t.events + events, audits := t.audits + audits));
  }
}
