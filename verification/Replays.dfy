/** Every effect happens at most once, whatever happens in between. */
module Replays {
  import opened Common
  import opened LedgerKeys
  import opened Tables
  import opened Operations
  import opened Invariant
  import opened Steps
  import opened AdministrationSteps
  import opened Runs

  /** The effects that must not be repeated.  A webhook and a wallet payment of the same rental
      have the same effect, and so do the release and the forfeit of the same deposit. */
  datatype Effect = Charge(rid: int) | Settle(rid: int) | GiveBack(rid: int)

  ghost function EffectOf(op: Op): Option<Effect> {
    match op
    case Webhook(req, _) => Some(Charge(req.rentalId))
    case PayWithBalance(_, rid, _, _) => Some(Charge(rid))
    case Release(_, _, rid, _) => Some(Settle(rid))
    case Forfeit(_, _, rid, _, _, _) => Some(Settle(rid))
    case RefundWallet(_, _, rid, _, _) => Some(GiveBack(rid))
    case _ => None
  }

  /** The effect took place. */
  ghost predicate Spent(t: Tables, e: Effect) {
    match e
    case Charge(rid) => rid in t.rentals && rid in t.payments && t.payments[rid].status == Paid
    case Settle(rid) => rid in t.rentals && rid in t.holds && t.holds[rid].status != Held
    case GiveBack(rid) => rid in t.rentals && rid in t.refunds
  }

  lemma WebhookChanges(t: Tables, req: WebhookRequest, dbNow: int)
    requires Valid(t) && ProcessWebhook(t, req, dbNow).tables != t
    ensures Spent(ProcessWebhook(t, req, dbNow).tables, Charge(req.rentalId))
  {
    var rid :| WebhookRow(t.payments, req, rid) && ProcessWebhook(t, req, dbNow) == ProcessWebhookFor(t, req, rid, dbNow);
  }

  lemma ReleaseChanges(t: Tables, actor: int, role: string, rid: int, now: int)
    requires Valid(t) && ReleaseDeposit(t, actor, role, rid, now).tables != t
    ensures Spent(ReleaseDeposit(t, actor, role, rid, now).tables, Settle(rid))
  {
    RentalIsJoined(t, rid);
    if t.holds[rid].status == Released {
      SettledIsCompleted(t, rid, Some(actor), now);
    }
  }

  lemma ForfeitChanges(t: Tables, actor: int, role: string, rid: int, reason: string, evidence: string, now: int)
    requires Valid(t) && ForfeitDeposit(t, actor, role, rid, reason, evidence, now).tables != t
    ensures Spent(ForfeitDeposit(t, actor, role, rid, reason, evidence, now).tables, Settle(rid))
  {
    RentalIsJoined(t, rid);
    if t.holds[rid].status == Forfeited {
      SettledIsCompleted(t, rid, Some(actor), now);
    }
  }

  lemma RefundChanges(t: Tables, actor: int, role: string, rid: int, reason: string, now: int)
    requires Valid(t) && RefundWalletPayment(t, actor, role, rid, reason, now).tables != t
    ensures Spent(RefundWalletPayment(t, actor, role, rid, reason, now).tables, GiveBack(rid))
  {
    RentalIsJoined(t, rid);
  }

  /** An operation that changed anything had its effect. */
  lemma ChangeSpends(t: Tables, op: Op)
    requires Valid(t) && EffectOf(op).Some? && Apply(t, op) != t
    ensures Spent(Apply(t, op), EffectOf(op).value)
  {
    match op
    case Webhook(req, dbNow) => WebhookChanges(t, req, dbNow);
    case PayWithBalance(uid, rid, now, dbNow) => RentalIsJoined(t, rid);
    case Release(actor, role, rid, now) => ReleaseChanges(t, actor, role, rid, now);
    case Forfeit(actor, role, rid, reason, evidence, now) => ForfeitChanges(t, actor, role, rid, reason, evidence, now);
    case RefundWallet(actor, role, rid, reason, now) => RefundChanges(t, actor, role, rid, reason, now);
  }

  /** A spent effect stays spent in every run. */
  lemma SpentStays(t: Tables, ops: seq<Op>, e: Effect)
    requires Valid(t) && Spent(t, e)
    ensures Spent(Run(t, ops), e)
  {
    RunIsGood(t, ops);
    assert DossierEvolves(View(t, e.rid), View(Run(t, ops), e.rid));
  }

  /** What a caller sees of a repetition: an error or a result marked idempotent. */
  ghost predicate AnswersAsReplay(t: Tables, op: Op) {
    match op
    case Webhook(req, dbNow) =>
      var r := ProcessWebhook(t, req, dbNow).result;
      r.Err? || r.value.idempotent
    case PayWithBalance(uid, rid, now, dbNow) =>
      var r := PayRentalWithBalance(t, uid, rid, now, dbNow).result;
      r.Err? || (r.value.idempotent && !r.value.changed)
    case Release(actor, role, rid, now) =>
      var r := ReleaseDeposit(t, actor, role, rid, now).result;
      r.Err? || (r.value.idempotent && !r.value.changed)
    case Forfeit(actor, role, rid, reason, evidence, now) =>
      var r := ForfeitDeposit(t, actor, role, rid, reason, evidence, now).result;
      r.Err? || (r.value.idempotent && !r.value.changed)
    case RefundWallet(actor, role, rid, reason, now) =>
      var r := RefundWalletPayment(t, actor, role, rid, reason, now).result;
      r.Err? || (r.value.idempotent && !r.value.changed)
    case _ => true
  }

  lemma WebhookRowReplay(t: Tables, req: WebhookRequest, rid: int, dbNow: int)
    requires Valid(t) && Spent(t, Charge(req.rentalId))
    ensures var o := ProcessWebhookFor(t, req, rid, dbNow);
            o.tables == t && (o.result.Err? || o.result.value.idempotent)
  {
  }

  lemma WebhookReplay(t: Tables, req: WebhookRequest, dbNow: int)
    requires Valid(t) && Spent(t, Charge(req.rentalId))
    ensures ProcessWebhook(t, req, dbNow).tables == t && AnswersAsReplay(t, Webhook(req, dbNow))
  {
    if ValidWebhookRequest(req) && req.status == "success" && HasWebhookRow(t.payments, req) {
      var rid :| WebhookRow(t.payments, req, rid) && ProcessWebhook(t, req, dbNow) == ProcessWebhookFor(t, req, rid, dbNow);
      WebhookRowReplay(t, req, rid, dbNow);
    }
  }

  lemma RefundReplay(t: Tables, actor: int, role: string, rid: int, reason: string, now: int)
    requires Valid(t) && Spent(t, GiveBack(rid))
    ensures RefundWalletPayment(t, actor, role, rid, reason, now).tables == t
    ensures AnswersAsReplay(t, RefundWallet(actor, role, rid, reason, now))
  {
    RentalIsJoined(t, rid);
  }

  lemma PayReplay(t: Tables, uid: int, rid: int, now: int, dbNow: int)
    requires Valid(t) && Spent(t, Charge(rid))
    ensures PayRentalWithBalance(t, uid, rid, now, dbNow).tables == t
    ensures AnswersAsReplay(t, PayWithBalance(uid, rid, now, dbNow))
  {
  }

  lemma ReleaseReplay(t: Tables, actor: int, role: string, rid: int, now: int)
    requires Valid(t) && Spent(t, Settle(rid))
    ensures ReleaseDeposit(t, actor, role, rid, now).tables == t && AnswersAsReplay(t, Release(actor, role, rid, now))
  {
    SettledIsCompleted(t, rid, Some(actor), now);
  }

  lemma ForfeitReplay(t: Tables, actor: int, role: string, rid: int, reason: string, evidence: string, now: int)
    requires Valid(t) && Spent(t, Settle(rid))
    ensures ForfeitDeposit(t, actor, role, rid, reason, evidence, now).tables == t
    ensures AnswersAsReplay(t, Forfeit(actor, role, rid, reason, evidence, now))
  {
    SettledIsCompleted(t, rid, Some(actor), now);
  }

  /** Once an effect is spent, no operation with this effect changes anything. */
  lemma SpentIsNoOp(t: Tables, op: Op)
    requires Valid(t) && EffectOf(op).Some? && Spent(t, EffectOf(op).value)
    ensures Apply(t, op) == t && AnswersAsReplay(t, op)
  {
    match op
    case Webhook(req, dbNow) => WebhookReplay(t, req, dbNow);
    case PayWithBalance(uid, rid, now, dbNow) => PayReplay(t, uid, rid, now, dbNow);
    case Release(actor, role, rid, now) => ReleaseReplay(t, actor, role, rid, now);
    case Forfeit(actor, role, rid, reason, evidence, now) => ForfeitReplay(t, actor, role, rid, reason, evidence, now);
    case RefundWallet(actor, role, rid, reason, now) => RefundReplay(t, actor, role, rid, reason, now);
  }

  /** At most once over every run: after an operation changed anything, every later operation with
      the same effect, by whomever and with whatever other arguments, leaves the whole database
      unchanged, down to its logs, and is answered as a replay or an error. */
  lemma AtMostOnce(t: Tables, op: Op, between: seq<Op>, again: Op)
    requires Valid(t) && EffectOf(op).Some? && EffectOf(again) == EffectOf(op)
    requires Apply(t, op) != t
    ensures var later := Run(Apply(t, op), between);
            Apply(later, again) == later && AnswersAsReplay(later, again)
  {
    StepIsGood(t, op);
    ChangeSpends(t, op);
    SpentStays(Apply(t, op), between, EffectOf(op).value);
    RunIsGood(Apply(t, op), between);
    SpentIsNoOp(Run(Apply(t, op), between), again);
  }

  // --- Balance adjustments --------------------------------------------------------------------------

  /** The row stored under the key of an accepted request is the row of that request. */
  ghost predicate Stored(t: Tables, actor: int, target: int, input: AdjustmentInput, result: AdjustmentResult) {
    var row := FindKey(t.ledger, AdjustmentKey(input.clientKey));
    && row.Some?
    && StoredAdjustment(row.value) == Some(result.(replay := true))
    && AdjustmentMatches(row.value, StoredAdjustment(row.value).value, actor, target, input)
  }

  lemma ReplayAnswers(t: Tables, actor: int, role: string, target: int, input: AdjustmentInput, e: Entry)
    requires FindKey(t.ledger, AdjustmentKey(input.clientKey)) == Some(e)
    requires AdjustBalance(t, actor, role, target, input).result.Ok?
    ensures target in t.users && StoredAdjustment(e).Some?
    ensures AdjustBalance(t, actor, role, target, input) == Outcome(t, Ok(StoredAdjustment(e).value))
    ensures AdjustmentMatches(e, StoredAdjustment(e).value, actor, target, input)
  {
  }

  lemma StoredRowAdds(t: Tables, actor: int, target: int, input: AdjustmentInput, e: Entry)
    requires EntryOk(t, e) && e.key == AdjustmentKey(input.clientKey) && StoredAdjustment(e).Some?
    requires AdjustmentMatches(e, StoredAdjustment(e).value, actor, target, input)
    ensures StoredAdjustment(e).value.next == StoredAdjustment(e).value.previous + input.amount
  {
  }

  lemma AdjustmentReplayed(t: Tables, actor: int, role: string, target: int, input: AdjustmentInput)
    requires Valid(t) && FindKey(t.ledger, AdjustmentKey(input.clientKey)).Some?
    requires AdjustBalance(t, actor, role, target, input).result.Ok?
    ensures var o := AdjustBalance(t, actor, role, target, input);
            && target in t.users && o.tables == t && o.result.value.replay
            && o.result.value.next == o.result.value.previous + input.amount
            && Stored(t, actor, target, input, o.result.value)
  {
    var key := AdjustmentKey(input.clientKey);
    FindKeyIsHasKey(t.ledger, key);
    var e := FindKey(t.ledger, key).value;
    ReplayAnswers(t, actor, role, target, input, e);
    StoredRowAdds(t, actor, target, input, e);
  }

  lemma AdjustmentFresh(t: Tables, actor: int, role: string, target: int, input: AdjustmentInput)
    requires Valid(t) && FindKey(t.ledger, AdjustmentKey(input.clientKey)).None?
    requires AdjustBalance(t, actor, role, target, input).result.Ok?
    ensures var o := AdjustBalance(t, actor, role, target, input);
            && target in t.users && !o.result.value.replay
            && o.tables.users == WithBalance(t.users, target, t.users[target].balance + input.amount)
            && o.result.value.next == o.result.value.previous + input.amount
            && Stored(o.tables, actor, target, input, o.result.value)
  {
    FindKeyIsHasKey(t.ledger, AdjustmentKey(input.clientKey));
    var previous := t.users[target].balance;
    CheckedIsExact(previous, input.amount);
    AdjustmentStoredExactly(actor, target, input, previous, previous + input.amount);
    FindKeyAppend(t.ledger, AdjustmentEntry(actor, target, input, previous, previous + input.amount));
  }

  /** An accepted adjustment moves one balance by exactly the signed amount, unless it is a replay,
      which moves nothing. */
  lemma AdjustmentMovesExactly(t: Tables, actor: int, role: string, target: int, input: AdjustmentInput)
    requires Valid(t) && AdjustBalance(t, actor, role, target, input).result.Ok?
    ensures var o := AdjustBalance(t, actor, role, target, input);
            && target in t.users
            && o.tables.users == (if o.result.value.replay then t.users
                                  else WithBalance(t.users, target, t.users[target].balance + input.amount))
            && o.result.value.next == o.result.value.previous + input.amount
            && Stored(o.tables, actor, target, input, o.result.value)
  {
    if FindKey(t.ledger, AdjustmentKey(input.clientKey)).Some? {
      AdjustmentReplayed(t, actor, role, target, input);
    } else {
      AdjustmentFresh(t, actor, role, target, input);
    }
  }

  /** One idempotency key, any run: after an accepted adjustment no request with its key moves a
      balance again.  The identical request is answered with the balances stored by the first one
      as long as its author is an administrator; every other request is an error, and a conflict if
      it is well formed, comes from an administrator and names an existing user. */
  lemma AdjustmentReplay(t: Tables, actor: int, role: string, target: int, input: AdjustmentInput,
                         between: seq<Op>, actor': int, role': string, target': int, input': AdjustmentInput)
    requires Valid(t) && AdjustBalance(t, actor, role, target, input).result.Ok?
    requires input'.clientKey == input.clientKey
    ensures var first := AdjustBalance(t, actor, role, target, input);
            var later := Run(first.tables, between);
            var o := AdjustBalance(later, actor', role', target', input');
            var identical := actor' == actor && target' == target && input' == input;
            var authorised := role' == ADMIN_ROLE && IsCurrentAdmin(later, actor');
            && o.tables == later
            && (o.result.Ok? <==> identical && authorised)
            && (o.result.Ok? ==> o.result.value == first.result.value.(replay := true))
            && (!identical && authorised && AdjustmentInputError(actor', target', input') == None && target' in later.users
                ==> o.result == Err(AdjustmentConflict))
  {
    var first := AdjustBalance(t, actor, role, target, input);
    AdjustIsGood(t, actor, role, target, input);
    AdjustmentMovesExactly(t, actor, role, target, input);
    RunIsGood(first.tables, between);
    StoredStays(first.tables, Run(first.tables, between), actor, target, input, first.result.value);
    AnsweredFromStore(Run(first.tables, between), actor, target, input, first.result.value, actor', role', target', input');
  }

  lemma StoredStays(t: Tables, t': Tables, actor: int, target: int, input: AdjustmentInput, result: AdjustmentResult)
    requires Stored(t, actor, target, input, result) && t.ledger <= t'.ledger
    ensures Stored(t', actor, target, input, result)
  {
    assert t'.ledger == t.ledger + t'.ledger[|t.ledger|..];
    FindKeyStable(t.ledger, t'.ledger[|t.ledger|..], AdjustmentKey(input.clientKey));
  }

  /** Every later request under a stored key is answered from the store. */
  lemma AnsweredFromStore(t: Tables, actor: int, target: int, input: AdjustmentInput, result: AdjustmentResult,
                          actor': int, role': string, target': int, input': AdjustmentInput)
    requires Stored(t, actor, target, input, result) && target in t.users && AdjustmentInputError(actor, target, input) == None
    requires input'.clientKey == input.clientKey
    ensures var o := AdjustBalance(t, actor', role', target', input');
            var identical := actor' == actor && target' == target && input' == input;
            var authorised := role' == ADMIN_ROLE && IsCurrentAdmin(t, actor');
            && o.tables == t
            && (o.result.Ok? <==> identical && authorised)
            && (o.result.Ok? ==> o.result.value == result.(replay := true))
            && (!identical && authorised && AdjustmentInputError(actor', target', input') == None && target' in t.users
                ==> o.result == Err(AdjustmentConflict))
  {
    AdjustmentIsRecognised(FindKey(t.ledger, AdjustmentKey(input.clientKey)).value, actor, target, input, actor', target', input');
  }

  /** A stored row matches exactly one request. */
  lemma AdjustmentIsRecognised(e: Entry, actor: int, target: int, input: AdjustmentInput, actor': int, target': int, input': AdjustmentInput)
    requires StoredAdjustment(e).Some? && AdjustmentMatches(e, StoredAdjustment(e).value, actor, target, input)
    ensures AdjustmentMatches(e, StoredAdjustment(e).value, actor', target', input')
            <==> actor' == actor && target' == target && input' == input
  {
  }
}
