/** Which requests of an administrator are accepted, what they change and how the others are answered. */
module AdministrationAnswers {
  import opened Common
  import opened LedgerKeys
  import opened Tables
  import opened Pricing
  import opened Operations
  import opened Invariant
  import opened Steps
  import opened AdministrationSteps
  import opened Acceptance

  // --- Accounts -----------------------------------------------------------------------------------------

  /** Prices for which the longest rental, of 720 hours, can be billed. */
  predicate Billable(hourlyPrice: int, deposit: int) {
    hourlyPrice > 0 && deposit >= 0 && hourlyPrice * 720 + deposit <= MAX_INT64
  }

  lemma BillableIsValid(hourlyPrice: int, deposit: int)
    ensures ValidateAdminPricing(hourlyPrice, deposit) == if Billable(hourlyPrice, deposit) then None else Some(PricingOutOfRange)
  {
  }

  lemma CreateAccountExactly(t: Tables, actor: int, aid: int, hourlyPrice: int, deposit: int)
    ensures CreateAccount(t, actor, aid, hourlyPrice, deposit)
            == if !Billable(hourlyPrice, deposit) then Outcome(t, Err(PricingOutOfRange))
               else if !Administers(t, actor) then Outcome(t, Err(AdminRequired))
               else if aid in t.accounts then Outcome(t, Err(DuplicateKey))
               else Outcome(t.(accounts := t.accounts[aid := Account(Available, hourlyPrice, deposit, false)]), Ok(aid))
  {
    BillableIsValid(hourlyPrice, deposit);
  }

  /** A price that is given is stored, one that is not stays; both must be billable together. */
  lemma UpdatePricingExactly(t: Tables, actor: int, aid: int, hourlyPrice: Option<int>, deposit: Option<int>)
    ensures UpdatePricing(t, actor, aid, hourlyPrice, deposit)
            == if !Administers(t, actor) then Outcome(t, Err(AdminRequired))
               else if aid !in t.accounts || t.accounts[aid].deleted then Outcome(t, Err(AccountNotFound))
               else
                 var a := t.accounts[aid];
                 var a' := Account(a.status, if hourlyPrice.Some? then hourlyPrice.value else a.hourlyPrice,
                                   if deposit.Some? then deposit.value else a.deposit, false);
                 if Billable(a'.hourlyPrice, a'.deposit) then Outcome(t.(accounts := t.accounts[aid := a']), Ok(()))
                 else Outcome(t, Err(PricingOutOfRange))
  {
    if aid in t.accounts {
      var a := t.accounts[aid];
      BillableIsValid(if hourlyPrice.Some? then hourlyPrice.value else a.hourlyPrice, if deposit.Some? then deposit.value else a.deposit);
    }
  }

  /** In a valid database an account is disabled exactly if nobody has reserved or rented it. */
  lemma DisableExactly(t: Tables, actor: int, aid: int)
    requires Valid(t)
    ensures DisableAccountAsAdmin(t, actor, aid)
            == if Administers(t, actor) then DisableAccount(t, aid) else Outcome(t, Err(AdminRequired))
    ensures DisableAccount(t, aid)
            == if aid !in t.accounts || t.accounts[aid].deleted then Outcome(t, Err(NoRows))
               else if t.accounts[aid].status == Reserved || t.accounts[aid].status == Rented then Outcome(t, Err(AccountLifecycleConflict))
               else
                 var a := t.accounts[aid];
                 Outcome(t.(accounts := t.accounts[aid := Account(Disabled, a.hourlyPrice, a.deposit, true)]), Ok(()))
  {
    if aid in t.accounts {
      IdleIsByStatus(t, aid);
    }
  }

  // --- Balance adjustments ------------------------------------------------------------------------------

  predicate IsWordChar(c: char) {
    'a' <= c <= 'z' || 'A' <= c <= 'Z' || '0' <= c <= '9' || c == '-' || c == '_'
  }

  predicate IsCode(s: string) {
    1 <= |s| <= 64 && forall i :: 0 <= i < |s| ==> IsWordChar(s[i])
  }

  predicate IsKey(s: string) {
    8 <= |s| <= 128 && forall i :: 0 <= i < |s| ==> IsWordChar(s[i]) || s[i] == '.' || s[i] == ':'
  }

  predicate InOrder(input: AdjustmentInput) {
    && input.amount != 0 && input.amount != MIN_INT64 && input.currency == "USD"
    && IsCode(input.reason) && |input.comment| <= 500 && IsKey(input.clientKey)
  }

  /** The key has not been used, and the balance stays between zero and the largest `int64`. */
  ghost predicate MayAdjust(t: Tables, actor: int, role: string, target: int, input: AdjustmentInput) {
    && Authorised(t, actor, role) && target > 0 && target in t.users && InOrder(input)
    && (forall e :: e in t.ledger ==> e.key != AdjustmentKey(input.clientKey))
    && 0 <= t.users[target].balance + input.amount <= MAX_INT64
  }

  lemma InOrderIsAccepted(actor: int, target: int, input: AdjustmentInput)
    ensures AdjustmentInputError(actor, target, input) == None <==> actor > 0 && target > 0 && InOrder(input)
  {
    assert IsSafeReasonCode(input.reason) <==> IsCode(input.reason);
    assert IsSafeAdjustmentKey(input.clientKey) <==> IsKey(input.clientKey);
  }

  lemma KeyUnused(t: Tables, k: LedgerKey)
    ensures FindKey(t.ledger, k).None? <==> forall e :: e in t.ledger ==> e.key != k
  {
    FindKeyIsHasKey(t.ledger, k);
    if FindKey(t.ledger, k).None? {
      forall e | e in t.ledger
        ensures e.key != k
      {
        var i :| 0 <= i < |t.ledger| && t.ledger[i] == e;
        assert Render(t.ledger[i].key) != Render(k);
      }
    }
  }

  /** The row of the very same request. */
  ghost predicate IsRowOf(e: Entry, actor: int, target: int, input: AdjustmentInput) {
    && e.key == AdjustmentKey(input.clientKey) && e.userId == target && Signed(e) == input.amount && e.currency == "USD"
    && e.meta.Some?
    && var m := e.meta.value;
       m.actor == actor && m.reason == input.reason && m.comment == input.comment && m.clientKey == input.clientKey
  }

  /** The answer that is read back from a row. */
  function Reported(e: Entry): AdjustmentResult
    requires e.meta.Some?
  {
    var m := e.meta.value;
    AdjustmentResult(m.actor, e.userId, m.previous, m.next, Signed(e), e.currency, m.reason, m.comment, m.clientKey, true)
  }

  lemma KnownRow(t: Tables, actor: int, target: int, input: AdjustmentInput, e: Entry)
    requires EntryOk(t, e) && e.key == AdjustmentKey(input.clientKey) && input.currency == "USD"
    ensures StoredAdjustment(e) == Some(Reported(e))
    ensures AdjustmentMatches(e, Reported(e), actor, target, input) <==> IsRowOf(e, actor, target, input)
  {
  }

  /** A request that is well formed, from an administrator and for a user there is. */
  ghost predicate Presentable(t: Tables, actor: int, role: string, target: int, input: AdjustmentInput) {
    Authorised(t, actor, role) && target > 0 && target in t.users && InOrder(input)
  }

  lemma AdjustIsKnown(t: Tables, actor: int, role: string, target: int, input: AdjustmentInput)
    requires Presentable(t, actor, role, target, input)
    ensures AdjustBalance(t, actor, role, target, input) == AdjustKnown(t, actor, target, input)
  {
    InOrderIsAccepted(actor, target, input);
  }

  /** With a fresh key the balance moves by exactly the amount, if it can. */
  lemma AdjustFresh(t: Tables, actor: int, role: string, target: int, input: AdjustmentInput)
    requires Valid(t) && Presentable(t, actor, role, target, input)
    requires forall e :: e in t.ledger ==> e.key != AdjustmentKey(input.clientKey)
    ensures var u := t.users[target];
            var next := u.balance + input.amount;
            var kind, magnitude := if input.amount < 0 then AdminBalanceDebit else AdminBalanceCredit, if input.amount < 0 then -input.amount else input.amount;
            var meta := AdjustmentMeta(actor, u.balance, next, input.reason, input.comment, input.clientKey);
            AdjustBalance(t, actor, role, target, input)
            == if next > MAX_INT64 then Outcome(t, Err(AdjustmentOverflow))
               else if next < 0 then Outcome(t, Err(AdjustmentWouldBeNegative))
               else Outcome(
                 t.(users := t.users[target := u.(balance := next)],
                    ledger := t.ledger + [Entry(kind, target, None, magnitude, USD, AdjustmentKey(input.clientKey), Some(meta))],
                    audits := t.audits + [Audit(Some(actor), "user_balance", target, "admin_balance_adjustment")],
                    events := t.events + [Event(None, EVENT_BALANCE_ADJUSTMENT, target, None, None, true)]),
                 Ok(AdjustmentResult(actor, target, u.balance, next, input.amount, USD, input.reason, input.comment, input.clientKey, false)))
  {
    AdjustIsKnown(t, actor, role, target, input);
    KeyUnused(t, AdjustmentKey(input.clientKey));
    CheckedIsExact(t.users[target].balance, input.amount);
  }

  /** With a key that has been used the request is answered from its row if it is the same, and refused
      otherwise. */
  lemma AdjustRepeated(t: Tables, actor: int, role: string, target: int, input: AdjustmentInput, e: Entry)
    requires Valid(t) && Presentable(t, actor, role, target, input)
    requires e in t.ledger && e.key == AdjustmentKey(input.clientKey)
    ensures e.meta.Some?
    ensures AdjustBalance(t, actor, role, target, input)
            == Outcome(t, if IsRowOf(e, actor, target, input) then Ok(Reported(e)) else Err(AdjustmentConflict))
  {
    AdjustIsKnown(t, actor, role, target, input);
    FoundRow(t, e);
    KnownRow(t, actor, target, input, e);
  }

  lemma FoundRow(t: Tables, e: Entry)
    requires Valid(t) && e in t.ledger
    ensures FindKey(t.ledger, e.key) == Some(e) && EntryOk(t, e)
  {
    var i :| 0 <= i < |t.ledger| && t.ledger[i] == e;
    assert EntryOk(t, t.ledger[i]);
    FindKeyIsHasKey(t.ledger, e.key);
    assert HasKey(t.ledger, e.key);
    var f := FindKey(t.ledger, e.key).value;
    var j :| 0 <= j < |t.ledger| && t.ledger[j] == f;
  }

  /** Any other request is refused unread, and why. */
  lemma AdjustRefusals(t: Tables, actor: int, role: string, target: int, input: AdjustmentInput)
    ensures var o := AdjustBalance(t, actor, role, target, input);
            !Presentable(t, actor, role, target, input) ==>
              o == Outcome(t, Err(
                if role != "ADMIN" then AdminRequired
                else if actor <= 0 || target <= 0 then FinancialUserNotFound
                else if input.amount == 0 then AdjustmentAmountRequired
                else if input.amount == MIN_INT64 then AdjustmentOverflow
                else if input.currency != "USD" then AdjustmentCurrencyUnsupported
                else if !IsCode(input.reason) then InvalidReasonCode
                else if |input.comment| > 500 then AdjustmentCommentTooLong
                else if !IsKey(input.clientKey) then AdjustmentKeyInvalid
                else if !Administers(t, actor) then AdminRequired
                else FinancialUserNotFound))
  {
    assert IsSafeReasonCode(input.reason) <==> IsCode(input.reason);
    assert IsSafeAdjustmentKey(input.clientKey) <==> IsKey(input.clientKey);
  }

  /** Exactly when an adjustment moves a balance; whatever does not changes nothing. */
  lemma AdjustExactly(t: Tables, actor: int, role: string, target: int, input: AdjustmentInput)
    requires Valid(t)
    ensures var o := AdjustBalance(t, actor, role, target, input);
            && (o.result.Ok? && !o.result.value.replay <==> MayAdjust(t, actor, role, target, input))
            && (!MayAdjust(t, actor, role, target, input) ==> o.tables == t)
  {
    if !Presentable(t, actor, role, target, input) {
      AdjustRefusals(t, actor, role, target, input);
    } else if e :| e in t.ledger && e.key == AdjustmentKey(input.clientKey) {
      AdjustRepeated(t, actor, role, target, input, e);
    } else {
      AdjustFresh(t, actor, role, target, input);
    }
  }

  // --- Users --------------------------------------------------------------------------------------------

  /** An administrator changes what he is asked to of any user but himself, and leaves a trace of it
      exactly if something changed. */
  lemma UpdateUserExactly(t: Tables, actor: int, target: int, admin: Option<bool>, blocked: Option<bool>)
    ensures UpdateUser(t, actor, target, admin, blocked)
            == if !Administers(t, actor) then Outcome(t, Err(AdminRequired))
               else if target == actor then Outcome(t, Err(AdminSelfUpdateForbidden))
               else if target !in t.users then Outcome(t, Err(UserNotFound))
               else
                 var u := t.users[target];
                 var a, b := if admin.Some? then admin.value else u.admin, if blocked.Some? then blocked.value else u.blocked;
                 var trace := if a == u.admin && b == u.blocked then [] else [Audit(Some(actor), "USER", target, "USER_SECURITY_STATE_UPDATED")];
                 Outcome(t.(users := t.users[target := User(u.balance, a, b)], audits := t.audits + trace), Ok(()))
  {
    assert t.audits + [] == t.audits;
  }

  /** A new user owns nothing, and nobody becomes an administrator by registering. */
  lemma RegisterExactly(t: Tables, uid: int)
    ensures var o := RegisterUser(t, uid);
            && (o.result == Ok(uid) <==> uid !in t.users) && (o.result.Err? ==> o == Outcome(t, Err(DuplicateKey)))
            && o.tables == t.(users := o.tables.users) && o.tables.users.Keys == t.users.Keys + {uid}
            && (forall u :: u in t.users ==> o.tables.users[u] == t.users[u])
            && (uid !in t.users ==> o.tables.users[uid].balance == 0 && !o.tables.users[uid].blocked)
            && (forall u :: Administers(o.tables, u) <==> Administers(t, u))
  {
  }
}
