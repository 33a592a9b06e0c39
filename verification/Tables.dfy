/** The rows of the database and the bookkeeping functions of the append-only ledger.

    `payments`, `deposit_holds` and `refunds` each admit one row per rental: the first two by their
    unique index on `rental_id`, the third because its unique idempotency key is built from the
    rental id.  The maps below are therefore keyed by rental id. */
module Tables {
  import opened Common
  import opened LedgerKeys

  datatype User = User(balance: int, admin: bool, blocked: bool)

  datatype AccountStatus = AccountCreated | Verifying | Available | Reserved | Rented | Maintenance | Disabled

  datatype Account = Account(status: AccountStatus, hourlyPrice: int, deposit: int, deleted: bool)

  datatype RentalStatus = WaitingPayment | Active | Expired | Completed | Cancelled

  datatype Rental = Rental(
    userId: int, accountId: int, status: RentalStatus, price: int, deposit: int,
    startAt: int, endAt: int, paymentExpiresAt: int,
    finishedAt: Option<int>, reviewDeadline: Option<int>, completedAt: Option<int>)

  datatype PaymentStatus = Pending | Paid | Failed

  /** `Internal` is the webhook provider, `Balance` the wallet. */
  datatype Provider = Internal | Balance

  datatype Payment = Payment(
    id: int, userId: int, provider: Provider, externalTx: Option<string>,
    status: PaymentStatus, amount: int, currency: string)

  datatype HoldStatus = Held | Released | Forfeited | Refunded

  datatype SettlementSource = AdminRelease | AdminForfeit | AutoRelease | WalletRefund

  datatype Hold = Hold(
    userId: int, paymentId: int, amount: int, currency: string, status: HoldStatus,
    source: Option<SettlementSource>, settledBy: Option<int>,
    reason: string, evidence: string, settledAt: Option<int>)

  datatype RefundStatus = Requested | RefundDone

  datatype Refund = Refund(
    paymentId: int, userId: int, accountId: int, status: RefundStatus, reason: string, requestedBy: int,
    principal: int, deposit: int, total: int, currency: string)

  datatype EntryKind =
    | ProviderPaymentReceived
    | DepositHeld
    | DepositReleasedToBalance
    | DepositForfeited
    | BalanceDebit
    | BalanceRefundCredit
    | DepositRefundCredit
    | AdminBalanceCredit
    | AdminBalanceDebit

  /** The JSON metadata an administrative balance adjustment stores in its ledger row. */
  datatype AdjustmentMeta = AdjustmentMeta(
    actor: int, previous: int, next: int, reason: string, comment: string, clientKey: string)

  /** `amount` is a magnitude; the kind of the entry gives its sign. */
  datatype Entry = Entry(
    kind: EntryKind, userId: int, rental: Option<int>, amount: int, currency: string,
    key: LedgerKey, meta: Option<AdjustmentMeta>)

  /** A security event.  Only the ids of events recorded by other components matter: those are the ones
      a forfeit can refer to.  They are any numbers, with any gaps; the services' own events have `None`. */
  datatype Event = Event(id: Option<int>, eventType: int, userId: int, accountId: Option<int>, rental: Option<int>, success: bool)

  datatype Audit = Audit(actor: Option<int>, entity: string, entityId: int, action: string)

  datatype Tables = Tables(
    users: map<int, User>,
    accounts: map<int, Account>,
    rentals: map<int, Rental>,
    payments: map<int, Payment>,
    holds: map<int, Hold>,
    refunds: map<int, Refund>,
    ledger: seq<Entry>,
    events: seq<Event>,
    audits: seq<Audit>)

  const USD := "USD"

  function Lookup<V>(m: map<int, V>, k: int): Option<V> {
    if k in m then Some(m[k]) else None
  }

  // --- Balances ---------------------------------------------------------------------------------

  /** The effect of a ledger row on its user's balance. */
  function Signed(e: Entry): int {
    match e.kind
    case DepositReleasedToBalance => e.amount
    case BalanceRefundCredit => e.amount
    case DepositRefundCredit => e.amount
    case AdminBalanceCredit => e.amount
    case BalanceDebit => -e.amount
    case AdminBalanceDebit => -e.amount
    case ProviderPaymentReceived => 0
    case DepositHeld => 0
    case DepositForfeited => 0
  }

  /** The net amount the ledger moved into the balance of user `u`. */
  ghost function SignedSum(ledger: seq<Entry>, u: int): int {
    if |ledger| == 0 then 0
    else
      var last := ledger[|ledger| - 1];
      SignedSum(ledger[..|ledger| - 1], u) + (if last.userId == u then Signed(last) else 0)
  }

  lemma SignedSumAppend(ledger: seq<Entry>, e: Entry, u: int)
    ensures SignedSum(ledger + [e], u) == SignedSum(ledger, u) + (if e.userId == u then Signed(e) else 0)
  {
    assert (ledger + [e])[..|ledger|] == ledger;
  }

  lemma {:induction false} SignedSumConcat(ledger: seq<Entry>, more: seq<Entry>, u: int)
    ensures SignedSum(ledger + more, u) == SignedSum(ledger, u) + SignedSum(more, u)
  {
    if |more| == 0 {
      assert ledger + more == ledger;
    } else {
      var front, last := more[..|more| - 1], more[|more| - 1];
      SignedSumConcat(ledger, front, u);
      assert ledger + more == (ledger + front) + [last];
      SignedSumAppend(ledger + front, last, u);
    }
  }

  // --- The books of one rental ------------------------------------------------------------------

  /** All amounts the ledger holds for one rental, by kind and in order of insertion. */
  datatype Book = Book(
    received: seq<int>, held: seq<int>, released: seq<int>, forfeited: seq<int>,
    debited: seq<int>, principal: seq<int>, depositRefund: seq<int>)

  const EMPTY_BOOK := Book([], [], [], [], [], [], [])

  ghost function Post(b: Book, e: Entry): Book {
    match e.kind
    case ProviderPaymentReceived => b.(received := b.received + [e.amount])
    case DepositHeld => b.(held := b.held + [e.amount])
    case DepositReleasedToBalance => b.(released := b.released + [e.amount])
    case DepositForfeited => b.(forfeited := b.forfeited + [e.amount])
    case BalanceDebit => b.(debited := b.debited + [e.amount])
    case BalanceRefundCredit => b.(principal := b.principal + [e.amount])
    case DepositRefundCredit => b.(depositRefund := b.depositRefund + [e.amount])
    case AdminBalanceCredit => b
    case AdminBalanceDebit => b
  }

  ghost function PostAll(b: Book, entries: seq<Entry>, r: int): Book {
    if |entries| == 0 then b
    else
      var last := entries[|entries| - 1];
      var before := PostAll(b, entries[..|entries| - 1], r);
      if last.rental == Some(r) then Post(before, last) else before
  }

  ghost function BookOf(ledger: seq<Entry>, r: int): Book {
    PostAll(EMPTY_BOOK, ledger, r)
  }

  lemma {:induction false} BookConcat(ledger: seq<Entry>, more: seq<Entry>, r: int)
    ensures BookOf(ledger + more, r) == PostAll(BookOf(ledger, r), more, r)
  {
    if |more| == 0 {
      assert ledger + more == ledger;
    } else {
      var front, last := more[..|more| - 1], more[|more| - 1];
      BookConcat(ledger, front, r);
      assert (ledger + more)[..|ledger + more| - 1] == ledger + front;
    }
  }

  /** Rows of other rentals leave the books of `r` alone. */
  lemma {:induction false} BookFrame(b: Book, entries: seq<Entry>, r: int)
    requires forall i :: 0 <= i < |entries| ==> entries[i].rental != Some(r)
    ensures PostAll(b, entries, r) == b
  {
    if |entries| > 0 {
      BookFrame(b, entries[..|entries| - 1], r);
    }
  }

  lemma PostOne(b: Book, e: Entry, r: int)
    requires e.rental == Some(r)
    ensures PostAll(b, [e], r) == Post(b, e)
  {
    assert [e][..0] == [];
  }

  lemma PostTwo(b: Book, e: Entry, f: Entry, r: int)
    requires e.rental == Some(r) && f.rental == Some(r)
    ensures PostAll(b, [e, f], r) == Post(Post(b, e), f)
  {
    assert [e, f][..1] == [e];
    PostOne(b, e, r);
  }

  /** The list of a book an entry kind is posted to. */
  ghost function Column(b: Book, kind: EntryKind): seq<int> {
    match kind
    case ProviderPaymentReceived => b.received
    case DepositHeld => b.held
    case DepositReleasedToBalance => b.released
    case DepositForfeited => b.forfeited
    case BalanceDebit => b.debited
    case BalanceRefundCredit => b.principal
    case DepositRefundCredit => b.depositRefund
    case AdminBalanceCredit => []
    case AdminBalanceDebit => []
  }

  ghost predicate IsAdjustment(kind: EntryKind) {
    kind == AdminBalanceCredit || kind == AdminBalanceDebit
  }

  /** A row of the ledger shows up in the books of its rental. */
  lemma {:induction false} EntryIsBooked(b: Book, ledger: seq<Entry>, i: nat, r: int)
    requires i < |ledger| && ledger[i].rental == Some(r) && !IsAdjustment(ledger[i].kind)
    ensures Column(PostAll(b, ledger, r), ledger[i].kind) != []
  {
    var front, last := ledger[..|ledger| - 1], ledger[|ledger| - 1];
    if i < |ledger| - 1 {
      EntryIsBooked(b, front, i, r);
    }
  }

  // --- Keys --------------------------------------------------------------------------------------

  /** `ON CONFLICT (idempotency_key)`: is the text of this key already in the index? */
  predicate HasKey(ledger: seq<Entry>, k: LedgerKey) {
    exists i :: 0 <= i < |ledger| && Render(ledger[i].key) == Render(k)
  }

  /** The row found by `WHERE idempotency_key = $1`. */
  function FindKey(ledger: seq<Entry>, k: LedgerKey): Option<Entry> {
    if |ledger| == 0 then None
    else if Render(ledger[0].key) == Render(k) then Some(ledger[0])
    else FindKey(ledger[1..], k)
  }

  lemma {:induction false} FindKeyIsHasKey(ledger: seq<Entry>, k: LedgerKey)
    ensures FindKey(ledger, k).Some? <==> HasKey(ledger, k)
    ensures FindKey(ledger, k).Some? ==> FindKey(ledger, k).value in ledger && FindKey(ledger, k).value.key == k
  {
    if |ledger| > 0 {
      FindKeyIsHasKey(ledger[1..], k);
      if Render(ledger[0].key) == Render(k) {
        RenderInjective(ledger[0].key, k);
      } else if HasKey(ledger, k) {
        var i :| 0 <= i < |ledger| && Render(ledger[i].key) == Render(k);
        assert ledger[1..][i - 1] == ledger[i];
      }
    }
  }

  lemma HeadAndTail(ledger: seq<Entry>, more: seq<Entry>)
    requires |ledger| > 0
    ensures (ledger + more)[0] == ledger[0] && (ledger + more)[1..] == ledger[1..] + more
  {
  }

  /** Appending rows never changes what a key already resolves to. */
  lemma {:induction false} FindKeyStable(ledger: seq<Entry>, more: seq<Entry>, k: LedgerKey)
    requires FindKey(ledger, k).Some?
    ensures FindKey(ledger + more, k) == FindKey(ledger, k)
  {
    HeadAndTail(ledger, more);
    if Render(ledger[0].key) != Render(k) {
      FindKeyStable(ledger[1..], more, k);
    }
  }

  lemma {:induction false} FindKeyAppend(ledger: seq<Entry>, e: Entry)
    requires !HasKey(ledger, e.key)
    ensures FindKey(ledger + [e], e.key) == Some(e)
  {
    if |ledger| > 0 {
      HeadAndTail(ledger, [e]);
      assert Render(ledger[0].key) != Render(e.key);
      assert forall i :: 0 <= i < |ledger[1..]| ==> ledger[1..][i] == ledger[i + 1];
      FindKeyAppend(ledger[1..], e);
    }
  }

  /** The unique index on `idempotency_key`. */
  ghost predicate UniqueKeys(ledger: seq<Entry>) {
    forall i, j :: 0 <= i < j < |ledger| ==> ledger[i].key != ledger[j].key
  }

  lemma UniqueConcat(a: seq<Entry>, b: seq<Entry>)
    requires UniqueKeys(a) && UniqueKeys(b)
    requires forall i, j :: 0 <= i < |a| && 0 <= j < |b| ==> a[i].key != b[j].key
    ensures UniqueKeys(a + b)
  {
    forall i, j | 0 <= i < j < |a + b|
      ensures (a + b)[i].key != (a + b)[j].key
    {
      if i >= |a| {
        assert b[i - |a|].key != b[j - |a|].key;
      } else if j >= |a| {
        assert a[i].key != b[j - |a|].key;
      }
    }
  }

  /** A key no row was written under is not in the index either. */
  lemma KeyIsUnused(ledger: seq<Entry>, k: LedgerKey)
    requires forall i :: 0 <= i < |ledger| ==> ledger[i].key != k
    ensures !HasKey(ledger, k)
  {
    forall i | 0 <= i < |ledger|
      ensures Render(ledger[i].key) != Render(k)
    {
      if Render(ledger[i].key) == Render(k) {
        RenderInjective(ledger[i].key, k);
      }
    }
  }
}
