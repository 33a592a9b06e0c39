/** The invariant of the database, the way rows evolve, and the one lemma every step of the money
    and lifecycle machine goes through. */
module Invariant {
  import opened Common
  import opened LedgerKeys
  import opened Tables
  import opened Operations

  // --- One rental --------------------------------------------------------------------------------

  /** Everything the database knows about one rental. */
  datatype Dossier = Dossier(rental: Rental, payment: Payment, hold: Option<Hold>, refund: Option<Refund>, book: Book)

  ghost function View(t: Tables, r: int): Dossier
    requires r in t.rentals && r in t.payments
  {
    Dossier(t.rentals[r], t.payments[r], Lookup(t.holds, r), Lookup(t.refunds, r), BookOf(t.ledger, r))
  }

  ghost predicate MoneyOk(r: Rental, p: Payment) {
    && r.price > 0 && r.deposit >= 0 && r.price + r.deposit <= MAX_INT64
    && p.amount == r.price + r.deposit
    && p.userId == r.userId
    && p.currency == USD
    && r.startAt < r.endAt
  }

  /** The six reachable pairs of payment and rental status. */
  ghost predicate StatusPairOk(p: PaymentStatus, r: RentalStatus) {
    match p
    case Pending => r == WaitingPayment
    case Paid => r == Active || r == Expired || r == Completed
    case Failed => r == Expired || r == Cancelled
  }

  ghost predicate ProviderOk(p: Payment) {
    match p.status
    case Paid => p.provider == Internal <==> p.externalTx.Some?
    case _ => p.provider == Internal && p.externalTx.None?
  }

  ghost predicate SourceOk(h: Hold) {
    match h.status
    case Held => h.source == None
    case Released => h.source == Some(AdminRelease) || h.source == Some(AutoRelease)
    case Forfeited => h.source == Some(AdminForfeit)
    case Refunded => h.source == Some(WalletRefund)
  }

  ghost predicate HoldOk(r: Rental, p: Payment, h: Option<Hold>) {
    && (h.Some? <==> p.status == Paid && r.deposit > 0)
    && (h.Some? ==>
          && h.value.amount == r.deposit
          && h.value.userId == r.userId && h.value.paymentId == p.id && h.value.currency == p.currency
          && (h.value.status == Held <==> r.status == Active || r.status == Expired)
          && SourceOk(h.value))
    && r.reviewDeadline == (if h.Some? && r.status != Active then Some(r.endAt + REVIEW_WINDOW) else None)
    && (r.completedAt.Some? <==> r.status == Completed)
  }

  ghost predicate WasRefunded(h: Option<Hold>) {
    h.Some? && h.value.status == Refunded
  }

  ghost predicate RefundOk(r: Rental, p: Payment, h: Option<Hold>, f: Option<Refund>) {
    && (f.Some? ==>
          && p.provider == Balance && p.status == Paid && r.status == Completed
          && f.value.status == RefundDone
          && f.value.userId == r.userId && f.value.paymentId == p.id
          && f.value.principal == r.price
          && f.value.deposit == (if WasRefunded(h) then r.deposit else 0)
          && f.value.total == f.value.principal + f.value.deposit)
    && (WasRefunded(h) ==> f.Some?)
  }

  function One(condition: bool, amount: int): seq<int> {
    if condition then [amount] else []
  }

  /** What the ledger must hold for a rental: at most one row of each kind, each of them explained
      by the status of the payment, the hold or the refund. */
  function ExpectedBook(r: Rental, p: Payment, h: Option<Hold>, f: Option<Refund>): Book {
    Book(
      One(p.status == Paid && p.provider == Internal, r.price + r.deposit),
      One(h.Some?, r.deposit),
      One(h.Some? && h.value.status == Released, r.deposit),
      One(h.Some? && h.value.status == Forfeited, r.deposit),
      One(p.status == Paid && p.provider == Balance, r.price + r.deposit),
      One(f.Some?, r.price),
      One(h.Some? && h.value.status == Refunded, r.deposit))
  }

  ghost predicate DossierOk(d: Dossier) {
    && MoneyOk(d.rental, d.payment)
    && StatusPairOk(d.payment.status, d.rental.status)
    && ProviderOk(d.payment)
    && HoldOk(d.rental, d.payment, d.hold)
    && RefundOk(d.rental, d.payment, d.hold, d.refund)
    && d.book == ExpectedBook(d.rental, d.payment, d.hold, d.refund)
  }

  // --- The ledger --------------------------------------------------------------------------------

  /** Which kind of row a key stands for, and for which rental. */
  ghost predicate KeyMatches(e: Entry) {
    match e.key
    case WebhookKey(_) => e.kind == ProviderPaymentReceived && e.rental.Some?
    case DebitKey(r) => e.kind == BalanceDebit && e.rental == Some(r)
    case HoldKey(r) => e.kind == DepositHeld && e.rental == Some(r)
    case ReleaseKey(r) => e.kind == DepositReleasedToBalance && e.rental == Some(r)
    case AutoReleaseKey(r) => e.kind == DepositReleasedToBalance && e.rental == Some(r)
    case ForfeitKey(r) => e.kind == DepositForfeited && e.rental == Some(r)
    case PrincipalRefundKey(r) => e.kind == BalanceRefundCredit && e.rental == Some(r)
    case DepositRefundKey(r) => e.kind == DepositRefundCredit && e.rental == Some(r)
    case AdjustmentKey(c) =>
      && IsAdjustment(e.kind) && e.rental.None?
      && e.meta.Some? && e.meta.value.clientKey == c
      && e.meta.value.next == e.meta.value.previous + Signed(e)
  }

  /** A row belongs to an existing rental of the same user; a webhook row to the payment its
      transaction id is stored on. */
  ghost predicate EntryLinked(t: Tables, e: Entry) {
    && e.userId in t.users
    && (e.rental.Some? ==>
      && e.rental.value in t.rentals && e.rental.value in t.payments
      && e.userId == t.rentals[e.rental.value].userId
      && (e.key.WebhookKey? ==> SettledBy(t.payments[e.rental.value], e.key.externalTx)))
  }

  ghost predicate EntryOk(t: Tables, e: Entry) {
    e.amount > 0 && KeyMatches(e) && EntryLinked(t, e)
  }

  // --- The database ------------------------------------------------------------------------------

  ghost predicate UsersOk(t: Tables) {
    forall u :: u in t.users ==> 0 <= t.users[u].balance <= MAX_INT64
  }

  ghost predicate AccountsOk(t: Tables) {
    forall a :: a in t.accounts ==>
      && 0 < t.accounts[a].hourlyPrice <= MAX_INT64
      && 0 <= t.accounts[a].deposit <= MAX_INT64
      && (t.accounts[a].deleted ==> t.accounts[a].status == Disabled)
  }

  ghost predicate DomainsOk(t: Tables) {
    && t.payments.Keys == t.rentals.Keys
    && t.holds.Keys <= t.rentals.Keys
    && t.refunds.Keys <= t.rentals.Keys
    && forall r :: r in t.rentals ==> t.rentals[r].userId in t.users && t.rentals[r].accountId in t.accounts
  }

  ghost predicate DossiersOk(t: Tables)
    requires DomainsOk(t)
  {
    forall r :: r in t.rentals ==> DossierOk(View(t, r))
  }

  /** The unique indexes on the payments table. */
  ghost predicate PaymentsUnique(t: Tables) {
    && (forall r, s :: r in t.payments && s in t.payments && t.payments[r].id == t.payments[s].id ==> r == s)
    && (forall r, s ::
          (&& r in t.payments && s in t.payments
           && t.payments[r].externalTx.Some? && t.payments[r].externalTx == t.payments[s].externalTx) ==> r == s)
  }

  /** The account status a live rental forces. */
  function StatusFor(s: RentalStatus): AccountStatus
    requires IsLive(s)
  {
    if s == WaitingPayment then Reserved else Rented
  }

  ghost predicate LiveRentalsMatch(t: Tables)
    requires DomainsOk(t)
  {
    forall r :: r in t.rentals && IsLive(t.rentals[r].status) ==>
      t.accounts[t.rentals[r].accountId].status == StatusFor(t.rentals[r].status)
  }

  /** The partial unique index `uq_rental_account_waiting_or_active`. */
  ghost predicate OneLiveRental(t: Tables) {
    forall r, s ::
      (&& r in t.rentals && s in t.rentals && IsLive(t.rentals[r].status) && IsLive(t.rentals[s].status)
       && t.rentals[r].accountId == t.rentals[s].accountId) ==> r == s
  }

  ghost predicate BusyAccountsUsed(t: Tables) {
    forall a :: a in t.accounts && (t.accounts[a].status == Reserved || t.accounts[a].status == Rented)
                ==> HasLiveRental(t.rentals, a)
  }

  ghost predicate LedgerOk(t: Tables) {
    forall i :: 0 <= i < |t.ledger| ==> EntryOk(t, t.ledger[i])
  }

  ghost predicate Valid(t: Tables) {
    && UsersOk(t)
    && AccountsOk(t)
    && DomainsOk(t)
    && DossiersOk(t)
    && PaymentsUnique(t)
    && LiveRentalsMatch(t)
    && OneLiveRental(t)
    && BusyAccountsUsed(t)
    && LedgerOk(t)
    && UniqueKeys(t.ledger)
  }

  /** A database before the first rental: users with any balances, and idle accounts. */
  ghost predicate Initial(t: Tables) {
    && UsersOk(t) && AccountsOk(t)
    && (forall a :: a in t.accounts ==> t.accounts[a].status != Reserved && t.accounts[a].status != Rented)
    && t.rentals == map[] && t.payments == map[] && t.holds == map[] && t.refunds == map[]
    && t.ledger == []
  }

  lemma InitialIsValid(t: Tables)
    requires Initial(t)
    ensures Valid(t)
  {
  }

  // --- Evolution ---------------------------------------------------------------------------------

  /** The statuses a rental can still reach. */
  ghost predicate Reaches(s: RentalStatus, s': RentalStatus) {
    match s
    case WaitingPayment => true
    case Active => s' == Active || s' == Expired || s' == Completed
    case Expired => s' == Expired || s' == Completed
    case Completed => s' == Completed
    case Cancelled => s' == Cancelled
  }

  ghost predicate RentalEvolves(r: Rental, r': Rental) {
    && r'.userId == r.userId && r'.accountId == r.accountId
    && r'.price == r.price && r'.deposit == r.deposit
    && r'.startAt == r.startAt && r'.endAt == r.endAt && r'.paymentExpiresAt == r.paymentExpiresAt
    && Reaches(r.status, r'.status)
    && (r.status == Completed || r.status == Cancelled ==> r' == r)
    && (r.reviewDeadline.Some? ==> r'.reviewDeadline == r.reviewDeadline)
  }

  ghost predicate PaymentEvolves(p: Payment, p': Payment) {
    && p'.id == p.id && p'.userId == p.userId && p'.amount == p.amount && p'.currency == p.currency
    && (p.status != Pending ==> p' == p)
  }

  /** A hold leaves `Held` at most once and never changes afterwards. */
  ghost predicate HoldEvolves(h: Option<Hold>, h': Option<Hold>) {
    h.Some? ==>
      && h'.Some? && h'.value.amount == h.value.amount
      && (h.value.status != Held ==> h' == h)
  }

  ghost predicate DossierEvolves(d: Dossier, d': Dossier) {
    && RentalEvolves(d.rental, d'.rental)
    && PaymentEvolves(d.payment, d'.payment)
    && HoldEvolves(d.hold, d'.hold)
    && (d.refund.Some? ==> d'.refund == d.refund)
  }

  ghost predicate RentalsEvolve(t: Tables, t': Tables) {
    && t.rentals.Keys <= t'.rentals.Keys
    && (forall r :: r in t.rentals && r in t.payments && r in t'.payments ==> DossierEvolves(View(t, r), View(t', r)))
  }

  ghost predicate Evolves(t: Tables, t': Tables) {
    && t.users.Keys <= t'.users.Keys
    && t.accounts.Keys <= t'.accounts.Keys
    && t.ledger <= t'.ledger && t.events <= t'.events && t.audits <= t'.audits
    && RentalsEvolve(t, t')
  }

  /** What a user owned before the first ledger row: nothing, for a user who is not there yet. */
  ghost function Opening(t: Tables, u: int): int {
    if u in t.users then t.users[u].balance - SignedSum(t.ledger, u) else 0
  }

  /** Every change of a balance is a ledger row, and every ledger row a change of a balance. */
  ghost predicate Conserves(t: Tables, t': Tables) {
    && t.users.Keys <= t'.users.Keys
    && forall u :: u in t'.users ==> Opening(t', u) == Opening(t, u)
  }

  ghost predicate GoodStep(t: Tables, t': Tables) {
    Valid(t') && Evolves(t, t') && Conserves(t, t')
  }

  lemma GoodStepRefl(t: Tables)
    requires Valid(t)
    ensures GoodStep(t, t)
  {
  }

  lemma EvolvesTransitive(t: Tables, t': Tables, t'': Tables)
    requires Valid(t) && Valid(t') && Valid(t'')
    requires Evolves(t, t') && Evolves(t', t'')
    ensures Evolves(t, t'')
  {
    forall r | r in t.rentals && r in t.payments && r in t''.payments
      ensures DossierEvolves(View(t, r), View(t'', r))
    {
      assert r in t'.rentals && r in t'.payments;
      assert DossierEvolves(View(t, r), View(t', r));
      assert DossierEvolves(View(t', r), View(t'', r));
    }
  }

  // --- A change to one rental ---------------------------------------------------------------------

  /** The new rows of one rental, of its account and of its user, and the rows appended. */
  datatype Change = Change(
    rental: Rental, payment: Payment, hold: Option<Hold>, refund: Option<Refund>,
    account: AccountStatus, balance: int, entries: seq<Entry>, events: seq<Event>, audits: seq<Audit>)

  function Put<V>(m: map<int, V>, k: int, v: Option<V>): map<int, V> {
    if v.Some? then m[k := v.value] else m
  }

  function ApplyChange(t: Tables, r: int, c: Change): Tables
    requires Joined(t, r)
  {
    t.(users := WithBalance(t.users, t.rentals[r].userId, c.balance),
       accounts := WithStatus(t.accounts, t.rentals[r].accountId, c.account),
       rentals := t.rentals[r := c.rental],
       payments := t.payments[r := c.payment],
       holds := Put(t.holds, r, c.hold),
       refunds := Put(t.refunds, r, c.refund),
       ledger := t.ledger + c.entries,
       events := t.events + c.events,
       audits := t.audits + c.audits)
  }

  /** The dossier after the change. */
  ghost function Changed(d: Dossier, r: int, c: Change): Dossier {
    Dossier(c.rental, c.payment, c.hold, c.refund, PostAll(d.book, c.entries, r))
  }

  /** While a rental is live its account is bound to it; otherwise the account is not touched. */
  ghost predicate AccountFollows(before: RentalStatus, account: AccountStatus, after: RentalStatus, account': AccountStatus) {
    if IsLive(after) then IsLive(before) && account' == StatusFor(after)
    else if IsLive(before) then account' == Available
    else account' == account
  }

  /** New rows are of kinds the rental has no row of yet, and of pairwise different kinds. */
  ghost predicate EntriesFit(d: Dossier, r: int, c: Change) {
    && (forall i :: 0 <= i < |c.entries| ==>
          var e := c.entries[i];
          && e.amount > 0 && e.rental == Some(r) && e.userId == d.rental.userId
          && KeyMatches(e) && !IsAdjustment(e.kind)
          && (e.key.WebhookKey? ==> SettledBy(c.payment, e.key.externalTx) && c.payment != d.payment)
          && Column(d.book, e.kind) == [])
    && (forall i, j :: 0 <= i < j < |c.entries| ==> c.entries[i].kind != c.entries[j].kind)
  }

  ghost predicate FreshTransaction(t: Tables, tx: Option<string>) {
    tx.Some? ==> forall s :: s in t.payments ==> t.payments[s].externalTx != tx
  }

  /** What a change must respect within its own rental ... */
  ghost predicate DossierChangeOk(d: Dossier, r: int, c: Change) {
    && DossierEvolves(d, Changed(d, r, c))
    && DossierOk(Changed(d, r, c))
    && (c.hold.None? ==> d.hold.None?) && (c.refund.None? ==> d.refund.None?)
    && EntriesFit(d, r, c)
  }

  /** ... and with respect to its account, its user and the other payments. */
  ghost predicate ChangeOk(t: Tables, r: int, c: Change)
    requires Joined(t, r)
  {
    var d := View(t, r);
    var rental := t.rentals[r];
    && DossierChangeOk(d, r, c)
    && (c.payment != d.payment ==> FreshTransaction(t, c.payment.externalTx))
    && AccountFollows(rental.status, t.accounts[rental.accountId].status, c.rental.status, c.account)
    && 0 <= c.balance <= MAX_INT64
    && c.balance - t.users[rental.userId].balance == SignedSum(c.entries, rental.userId)
  }

  lemma ViewsAfterChange(t: Tables, r: int, c: Change, s: int)
    requires Valid(t) && Joined(t, r) && ChangeOk(t, r, c) && s in t.rentals
    ensures var t' := ApplyChange(t, r, c);
            View(t', s) == if s == r then Changed(View(t, r), r, c) else View(t, s)
  {
    BookConcat(t.ledger, c.entries, s);
    if s != r {
      assert forall i :: 0 <= i < |c.entries| ==> c.entries[i].rental == Some(r);
      BookFrame(BookOf(t.ledger, s), c.entries, s);
    }
  }

  lemma DossiersAfterChange(t: Tables, r: int, c: Change)
    requires Valid(t) && Joined(t, r) && ChangeOk(t, r, c)
    ensures DomainsOk(ApplyChange(t, r, c)) && DossiersOk(ApplyChange(t, r, c))
    ensures RentalsEvolve(t, ApplyChange(t, r, c))
  {
    var t' := ApplyChange(t, r, c);
    assert DomainsOk(t');
    forall s | s in t'.rentals
      ensures DossierOk(View(t', s)) && DossierEvolves(View(t, s), View(t', s))
    {
      ViewsAfterChange(t, r, c, s);
    }
  }

  lemma AccountsAfterChange(t: Tables, r: int, c: Change)
    requires Valid(t) && Joined(t, r) && ChangeOk(t, r, c)
    ensures var t' := ApplyChange(t, r, c);
            AccountsOk(t') && OneLiveRental(t')
  {
    var t' := ApplyChange(t, r, c);
    var a := t.rentals[r].accountId;
    assert IsLive(t.rentals[r].status) ==> t.accounts[a].status == StatusFor(t.rentals[r].status);
    assert t.accounts[a].deleted ==> c.account == t.accounts[a].status;
    forall x, y | x in t'.rentals && y in t'.rentals && IsLive(t'.rentals[x].status) && IsLive(t'.rentals[y].status)
                  && t'.rentals[x].accountId == t'.rentals[y].accountId
      ensures x == y
    {
      assert IsLive(t.rentals[x].status) && IsLive(t.rentals[y].status);
    }
  }

  lemma CouplingAfterChange(t: Tables, r: int, c: Change)
    requires Valid(t) && Joined(t, r) && ChangeOk(t, r, c) && DomainsOk(ApplyChange(t, r, c))
    ensures var t' := ApplyChange(t, r, c);
            LiveRentalsMatch(t') && BusyAccountsUsed(t')
  {
    var t' := ApplyChange(t, r, c);
    var a := t.rentals[r].accountId;
    forall s | s in t'.rentals && IsLive(t'.rentals[s].status)
      ensures t'.accounts[t'.rentals[s].accountId].status == StatusFor(t'.rentals[s].status)
    {
      if s != r && t.rentals[s].accountId == a {
        assert !IsLive(t.rentals[r].status);
      }
    }
    forall b | b in t'.accounts && (t'.accounts[b].status == Reserved || t'.accounts[b].status == Rented)
      ensures HasLiveRental(t'.rentals, b)
    {
      if b == a && IsLive(c.rental.status) {
        assert t'.rentals[r].accountId == b;
      } else {
        assert t.accounts[b].status == t'.accounts[b].status;
        var s :| s in t.rentals && t.rentals[s].accountId == b && IsLive(t.rentals[s].status);
        assert s != r;
        assert t'.rentals[s] == t.rentals[s];
      }
    }
  }

  lemma PaymentsAfterChange(t: Tables, r: int, c: Change)
    requires Valid(t) && Joined(t, r) && ChangeOk(t, r, c)
    ensures PaymentsUnique(ApplyChange(t, r, c))
  {
  }

  /** A transaction id that no payment carries has no ledger row. */
  lemma FreshTransactionHasNoRow(t: Tables, tx: string, f: Entry)
    requires EntryOk(t, f) && FreshTransaction(t, Some(tx))
    ensures f.key != WebhookKey(tx)
  {
    if f.key.WebhookKey? {
      var s := f.rental.value;
      assert s in t.payments && SettledBy(t.payments[s], f.key.externalTx);
      assert t.payments[s].externalTx != Some(tx);
    }
  }

  /** A key built for rental `r` is unused as long as the rental has no row of the key's kind. */
  lemma RentalKeyFresh(t: Tables, r: int, e: Entry)
    requires Valid(t) && r in t.rentals
    requires KeyMatches(e) && e.rental == Some(r) && !e.key.WebhookKey?
    requires Column(BookOf(t.ledger, r), e.kind) == []
    ensures !HasKey(t.ledger, e.key)
  {
    forall i | 0 <= i < |t.ledger|
      ensures t.ledger[i].key != e.key
    {
      assert EntryOk(t, t.ledger[i]);
      if t.ledger[i].rental == Some(r) && !IsAdjustment(t.ledger[i].kind) {
        EntryIsBooked(EMPTY_BOOK, t.ledger, i, r);
      }
    }
    KeyIsUnused(t.ledger, e.key);
  }

  /** A row of the ledger under the key of a new row would be a second row for the same event. */
  lemma KeyTaken(t: Tables, r: int, c: Change, j: nat, i: nat)
    requires Valid(t) && Joined(t, r) && ChangeOk(t, r, c)
    requires j < |c.entries| && i < |t.ledger|
    ensures t.ledger[i].key != c.entries[j].key
  {
    var e, f := c.entries[j], t.ledger[i];
    assert EntryOk(t, f);
    if e.key.WebhookKey? {
      assert c.payment.externalTx == Some(e.key.externalTx);
      FreshTransactionHasNoRow(t, e.key.externalTx, f);
    } else if f.key == e.key {
      assert f.rental == Some(r) && f.kind == e.kind;
      EntryIsBooked(EMPTY_BOOK, t.ledger, i, r);
    }
  }

  /** The heart of at-most-once booking: no key a change writes is in the ledger yet, so the
      conflict clause of `insertLedgerEntry` never fires. */
  lemma ChangeKeysFresh(t: Tables, r: int, c: Change, j: nat)
    requires Valid(t) && Joined(t, r) && ChangeOk(t, r, c) && j < |c.entries|
    ensures !HasKey(t.ledger, c.entries[j].key)
  {
    forall i | 0 <= i < |t.ledger|
      ensures t.ledger[i].key != c.entries[j].key
    {
      KeyTaken(t, r, c, j, i);
    }
    KeyIsUnused(t.ledger, c.entries[j].key);
  }

  lemma EntriesAfterChange(t: Tables, r: int, c: Change, i: nat)
    requires Valid(t) && Joined(t, r) && ChangeOk(t, r, c) && i < |t.ledger|
    ensures EntryOk(ApplyChange(t, r, c), t.ledger[i])
  {
    var e := t.ledger[i];
    assert EntryOk(t, e);
    if e.rental == Some(r) && e.key.WebhookKey? {
      assert DossierOk(View(t, r));
      assert c.payment == t.payments[r];
    }
  }

  lemma KeysAfterChange(t: Tables, r: int, c: Change)
    requires Valid(t) && Joined(t, r) && ChangeOk(t, r, c)
    ensures UniqueKeys(t.ledger + c.entries)
  {
    forall i, j | 0 <= i < |t.ledger| && 0 <= j < |c.entries|
      ensures t.ledger[i].key != c.entries[j].key
    {
      KeyTaken(t, r, c, j, i);
    }
    EntriesDiffer(View(t, r), r, c);
    UniqueConcat(t.ledger, c.entries);
  }

  lemma EntriesDiffer(d: Dossier, r: int, c: Change)
    requires EntriesFit(d, r, c)
    ensures UniqueKeys(c.entries)
  {
    forall i, j | 0 <= i < j < |c.entries|
      ensures c.entries[i].key != c.entries[j].key
    {
      assert c.entries[i].kind != c.entries[j].kind;
    }
  }

  lemma LedgerAfterChange(t: Tables, r: int, c: Change)
    requires Valid(t) && Joined(t, r) && ChangeOk(t, r, c)
    ensures LedgerOk(ApplyChange(t, r, c)) && UniqueKeys(ApplyChange(t, r, c).ledger)
  {
    KeysAfterChange(t, r, c);
    forall i | 0 <= i < |t.ledger|
      ensures EntryOk(ApplyChange(t, r, c), t.ledger[i])
    {
      EntriesAfterChange(t, r, c, i);
    }
  }

  lemma {:induction false} OtherUsersUntouched(entries: seq<Entry>, u: int)
    requires forall i :: 0 <= i < |entries| ==> entries[i].userId != u
    ensures SignedSum(entries, u) == 0
  {
    if |entries| > 0 {
      OtherUsersUntouched(entries[..|entries| - 1], u);
    }
  }

  lemma ChangeConserves(t: Tables, r: int, c: Change)
    requires Valid(t) && Joined(t, r) && ChangeOk(t, r, c)
    ensures Conserves(t, ApplyChange(t, r, c)) && UsersOk(ApplyChange(t, r, c))
  {
    var t' := ApplyChange(t, r, c);
    forall u | u in t'.users
      ensures Opening(t', u) == Opening(t, u)
    {
      SignedSumConcat(t.ledger, c.entries, u);
      if u != t.rentals[r].userId {
        OtherUsersUntouched(c.entries, u);
      }
    }
  }

  /** Every step that changes one rental keeps the whole invariant, moves rows only forward and
      books every movement of money. */
  lemma ChangeIsGood(t: Tables, r: int, c: Change)
    requires Valid(t) && Joined(t, r) && ChangeOk(t, r, c)
    ensures GoodStep(t, ApplyChange(t, r, c))
  {
    DossiersAfterChange(t, r, c);
    AccountsAfterChange(t, r, c);
    CouplingAfterChange(t, r, c);
    PaymentsAfterChange(t, r, c);
    LedgerAfterChange(t, r, c);
    ChangeConserves(t, r, c);
  }
}
