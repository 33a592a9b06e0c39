/** The repositories over PostgreSQL: the tables as mutable state, the guarded statements that change
    them, and the transaction manager. */
module Repository {
  import opened Common
  import opened LedgerKeys
  import opened Tables
  import opened Pricing
  import opened Ordering
  import opened Operations

  datatype WalletPaymentState = WalletPaymentState(rental: Rental, payment: Payment, account: Account, balance: int)

  datatype SettlementState = SettlementState(rental: Rental, payment: Payment, hold: Option<Hold>)

  datatype WebhookState = WebhookState(rid: int, rental: Rental, payment: Payment, account: Account)

  function WalletPaymentStateOf(t: Tables, rid: int): WalletPaymentState
    requires Joined(t, rid)
  {
    var r := t.rentals[rid];
    WalletPaymentState(r, t.payments[rid], t.accounts[r.accountId], t.users[r.userId].balance)
  }

  function WebhookStateOf(t: Tables, rid: int): WebhookState
    requires Joined(t, rid)
  {
    WebhookState(rid, t.rentals[rid], t.payments[rid], t.accounts[t.rentals[rid].accountId])
  }

  datatype RefundTotals = RefundTotals(principal: int, deposit: int)

  /** A rental a scheduler has found to be over, and its account. */
  datatype DueRental = DueRental(id: int, accountId: int)

  ghost predicate RowsOf(t: Tables, q: seq<int>, rows: seq<DueRental>) {
    |rows| == |q| && forall i :: 0 <= i < |q| ==> q[i] in t.rentals && rows[i] == DueRental(q[i], t.rentals[q[i]].accountId)
  }

  /** A statement guarded by a `WHERE` clause: its effect if the clause holds, an error otherwise, and
      a database failure, without effect, if the call is one that fails. */
  ghost predicate Guarded(fails: bool, holds: bool, failure: Error, e: Option<Error>) {
    e == if fails then Some(DatabaseFailure) else if holds then None else Some(failure)
  }

  /** The last of the calls made was one that fails. */
  ghost predicate Stopped(e: Error, failing: set<nat>, from: nat, to: nat) {
    e == DatabaseFailure && from < to && to - 1 in failing
  }

  /** The part of a transaction between its two halves either behaves as specified or was stopped by
      a failing call; in the latter case its tables are about to be rolled back. */
  ghost predicate Performs<R(!new)>(spec: Outcome<R>, after: Tables, r: Result<R>, failing: set<nat>, from: nat, to: nat) {
    && from <= to
    && ((r == spec.result && (r.Ok? ==> after == spec.tables))
        || (r.Err? && Stopped(r.error, failing, from, to)))
  }

  /** What a service method does.  It returns what is specified or reports a failing call.  As the
      outermost transaction it is all or nothing: an error leaves the tables as they were.  Inside an
      open transaction it joins, and leaves the rolling back to the owner. */
  ghost predicate Serves<R(!new)>(joined: bool, spec: Outcome<R>, before: Tables, after: Tables, r: Result<R>,
                                  failing: set<nat>, from: nat, to: nat) {
    && Performs(spec, after, r, failing, from, to)
    && (!joined && r.Err? ==> after == before)
  }

  ghost predicate Commits<R(!new)>(spec: Outcome<R>, before: Tables, after: Tables, r: Result<R>,
                                   failing: set<nat>, from: nat, to: nat) {
    Serves(false, spec, before, after, r, failing, from, to)
  }

  class Database {
    var tables: Tables

    /** A transaction is open, and these are the tables it began with. */
    var inTransaction: bool
    var saved: Tables

    /** The calls made so far, and which calls fail for a reason outside the program. */
    var calls: nat
    const failing: set<nat>

    constructor (tables: Tables, failing: set<nat>)
      ensures this.tables == tables && this.failing == failing && !inTransaction && calls == 0
    {
      this.tables, this.failing := tables, failing;
      inTransaction, saved, calls := false, tables, 0;
    }

    /** Every statement passes here first. */
    method Call() returns (ok: bool)
      modifies `calls
      ensures (ok <==> old(calls) !in failing) && calls == old(calls) + 1
    {
      ok := calls !in failing;
      calls := calls + 1;
    }

    // --- WithinTransaction ------------------------------------------------------------------------

    /** The first half: a call made inside an open transaction joins it and owns nothing. */
    method Begin() returns (e: Option<Error>, owner: bool)
      modifies `inTransaction, `saved, `calls
      ensures old(inTransaction) ==> e == None && !owner && inTransaction && saved == old(saved) && calls == old(calls)
      ensures !old(inTransaction) ==>
                && e == (if old(calls) in failing then Some(DatabaseFailure) else None)
                && calls == old(calls) + 1 && owner == inTransaction == e.None?
                && (owner ==> saved == tables)
    {
      e, owner := None, false;
      if !inTransaction {
        var ok := Call();
        if ok {
          owner, inTransaction, saved := true, true, tables;
        } else {
          e := Some(DatabaseFailure);
        }
      }
    }

    /** The second half: the owner rolls back when the callback failed, and commits otherwise. */
    method Finish<R>(owner: bool, body: Result<R>) returns (r: Result<R>)
      requires inTransaction
      modifies this
      ensures !owner ==> r == body && tables == old(tables) && inTransaction && saved == old(saved) && calls == old(calls)
      ensures owner ==> !inTransaction && tables == (if r.Err? then old(saved) else old(tables))
      ensures owner && body.Err? ==> r == body && calls == old(calls)
      ensures owner && body.Ok? ==> calls == old(calls) + 1 && r == (if old(calls) in failing then Err(DatabaseFailure) else body)
    {
      r := body;
      if owner {
        if r.Ok? {
          var ok := Call();
          if !ok {
            r := Err(DatabaseFailure);
          }
        }
        if r.Err? {
          tables := saved;
        }
        inTransaction := false;
      }
    }

    // --- Authorization ----------------------------------------------------------------------------

    method RequireCurrentAdmin(actor: int) returns (e: Option<Error>)
      modifies `calls
      ensures calls == old(calls) + 1 && Guarded(old(calls) in failing, IsCurrentAdmin(tables, actor), AdminRequired, e)
    {
      var ok := Call();
      if !ok {
        e := Some(DatabaseFailure);
      } else if actor <= 0 || actor !in tables.users || tables.users[actor].blocked || !tables.users[actor].admin {
        e := Some(AdminRequired);
      } else {
        e := None;
      }
    }

    // --- Users ------------------------------------------------------------------------------------

    method DebitUserBalance(uid: int, amount: int) returns (e: Option<Error>)
      modifies `tables, `calls
      ensures calls == old(calls) + 1
      ensures var t := old(tables);
              Guarded(old(calls) in failing, uid in t.users && t.users[uid].balance >= amount, WalletInsufficientBalance, e)
      ensures e.Some? ==> tables == old(tables)
      ensures var t := old(tables);
              e.None? ==> tables == t.(users := WithBalance(t.users, uid, t.users[uid].balance - amount))
    {
      var ok := Call();
      if !ok {
        e := Some(DatabaseFailure);
      } else if uid !in tables.users || tables.users[uid].balance < amount {
        e := Some(WalletInsufficientBalance);
      } else {
        tables := tables.(users := WithBalance(tables.users, uid, tables.users[uid].balance - amount));
        e := None;
      }
    }

    /** The sum is computed by PostgreSQL, which refuses to leave the range of BIGINT. */
    method CreditUserBalance(uid: int, amount: int) returns (e: Option<Error>)
      modifies `tables, `calls
      ensures calls == old(calls) + 1
      ensures e == if old(calls) in failing then Some(DatabaseFailure)
                   else if uid !in old(tables.users) then Some(PaymentNotFound)
                   else if old(tables.users)[uid].balance + amount > MAX_INT64 then Some(BalanceOutOfRange)
                   else None
      ensures e.Some? ==> tables == old(tables)
      ensures var t := old(tables);
              e.None? ==> tables == t.(users := WithBalance(t.users, uid, t.users[uid].balance + amount))
    {
      var ok := Call();
      if !ok {
        e := Some(DatabaseFailure);
      } else if uid !in tables.users {
        e := Some(PaymentNotFound);
      } else if tables.users[uid].balance + amount > MAX_INT64 {
        e := Some(BalanceOutOfRange);
      } else {
        tables := tables.(users := WithBalance(tables.users, uid, tables.users[uid].balance + amount));
        e := None;
      }
    }

    method SetUserBalance(uid: int, balance: int) returns (e: Option<Error>)
      modifies `tables, `calls
      ensures calls == old(calls) + 1 && Guarded(old(calls) in failing, uid in old(tables.users), FinancialUserNotFound, e)
      ensures e.Some? ==> tables == old(tables)
      ensures e.None? ==> tables == old(tables).(users := WithBalance(old(tables.users), uid, balance))
    {
      var ok := Call();
      if !ok {
        e := Some(DatabaseFailure);
      } else if uid !in tables.users {
        e := Some(FinancialUserNotFound);
      } else {
        tables := tables.(users := WithBalance(tables.users, uid, balance));
        e := None;
      }
    }

    // --- Payment and activation -------------------------------------------------------------------

    method LockWalletPaymentState(rid: int, uid: int) returns (r: Result<WalletPaymentState>)
      modifies `calls
      ensures calls == old(calls) + 1
      ensures old(calls) in failing ==> r == Err(DatabaseFailure)
      ensures old(calls) !in failing ==>
                if Joined(tables, rid) && tables.rentals[rid].userId == uid
                then r == Ok(WalletPaymentStateOf(tables, rid))
                else r == Err(WalletPaymentNotFound)
    {
      var ok := Call();
      if !ok {
        r := Err(DatabaseFailure);
      } else if Joined(tables, rid) && tables.rentals[rid].userId == uid {
        r := Ok(WalletPaymentStateOf(tables, rid));
      } else {
        r := Err(WalletPaymentNotFound);
      }
    }

    /** The row of the transaction id, or else the row of the payment id. */
    method LockPaymentForWebhook(req: WebhookRequest) returns (r: Result<WebhookState>)
      modifies `calls
      ensures calls == old(calls) + 1
      ensures old(calls) in failing ==> r == Err(DatabaseFailure)
      ensures old(calls) !in failing && r.Err? ==>
                r.error == PaymentNotFound
                && (HasWebhookRow(tables.payments, req) ==> exists s :: WebhookRow(tables.payments, req, s) && !Joined(tables, s))
      ensures r.Ok? ==>
                var s := r.value;
                && WebhookRow(tables.payments, req, s.rid) && Joined(tables, s.rid)
                && s == WebhookStateOf(tables, s.rid)
    {
      var ok := Call();
      if !ok {
        return Err(DatabaseFailure);
      }
      var rid: int;
      if exists s :: s in tables.payments && SettledBy(tables.payments[s], req.externalTx) {
        rid :| rid in tables.payments && SettledBy(tables.payments[rid], req.externalTx);
      } else if exists s :: s in tables.payments && tables.payments[s].id == req.paymentId {
        rid :| rid in tables.payments && tables.payments[rid].id == req.paymentId;
      } else {
        return Err(PaymentNotFound);
      }
      assert WebhookRow(tables.payments, req, rid);
      if !Joined(tables, rid) {
        return Err(PaymentNotFound);
      }
      r := Ok(WebhookStateOf(tables, rid));
    }

    method MarkPaymentSuccessful(rid: int, tx: string) returns (e: Option<Error>)
      modifies `tables, `calls
      ensures calls == old(calls) + 1
      ensures var t := old(tables);
              e == if old(calls) in failing then Some(DatabaseFailure)
                   else if rid !in t.payments || t.payments[rid].status != Pending then Some(PaymentAlreadyProcessed)
                   else if TransactionTaken(t.payments, rid, tx) then Some(WebhookExternalTxMismatch)
                   else None
      ensures e.Some? ==> tables == old(tables)
      ensures var t := old(tables);
              e.None? ==> tables == t.(payments := t.payments[rid := t.payments[rid].(status := Paid, externalTx := Some(tx))])
    {
      var ok := Call();
      if !ok {
        e := Some(DatabaseFailure);
      } else if rid !in tables.payments || tables.payments[rid].status != Pending {
        e := Some(PaymentAlreadyProcessed);
      } else if TransactionTaken(tables.payments, rid, tx) {
        e := Some(WebhookExternalTxMismatch);
      } else {
        tables := tables.(payments := tables.payments[rid := tables.payments[rid].(status := Paid, externalTx := Some(tx))]);
        e := None;
      }
    }

    method MarkPaymentSuccessfulForWallet(rid: int) returns (e: Option<Error>)
      modifies `tables, `calls
      ensures calls == old(calls) + 1
      ensures var t := old(tables);
              Guarded(old(calls) in failing, rid in t.payments && t.payments[rid].status == Pending, PaymentAlreadyProcessed, e)
      ensures e.Some? ==> tables == old(tables)
      ensures var t := old(tables);
              e.None? ==> tables == t.(payments := t.payments[rid := t.payments[rid].(status := Paid, provider := Balance, externalTx := None)])
    {
      var ok := Call();
      if !ok {
        e := Some(DatabaseFailure);
      } else if rid !in tables.payments || tables.payments[rid].status != Pending {
        e := Some(PaymentAlreadyProcessed);
      } else {
        var paid := tables.payments[rid].(status := Paid, provider := Balance, externalTx := None);
        tables := tables.(payments := tables.payments[rid := paid]);
        e := None;
      }
    }

    method ActivateRental(rid: int, dbNow: int) returns (e: Option<Error>)
      modifies `tables, `calls
      ensures calls == old(calls) + 1
      ensures Guarded(old(calls) in failing, rid in old(tables.rentals) && old(tables.rentals)[rid].status == WaitingPayment
                                 && old(tables.rentals)[rid].paymentExpiresAt > dbNow, RentalNotEligible, e)
      ensures e.Some? ==> tables == old(tables)
      ensures var t := old(tables);
              e.None? ==> tables == t.(rentals := t.rentals[rid := t.rentals[rid].(status := Active)])
    {
      var ok := Call();
      if !ok {
        e := Some(DatabaseFailure);
      } else if rid !in tables.rentals || tables.rentals[rid].status != WaitingPayment || tables.rentals[rid].paymentExpiresAt <= dbNow {
        e := Some(RentalNotEligible);
      } else {
        tables := tables.(rentals := tables.rentals[rid := tables.rentals[rid].(status := Active)]);
        e := None;
      }
    }

    method MarkAccountRented(aid: int) returns (e: Option<Error>)
      modifies `tables, `calls
      ensures calls == old(calls) + 1
      ensures var t := old(tables);
              Guarded(old(calls) in failing, aid in t.accounts && t.accounts[aid].status == Reserved, AccountNotReserved, e)
      ensures e.Some? ==> tables == old(tables)
      ensures e.None? ==> tables == old(tables).(accounts := WithStatus(old(tables.accounts), aid, Rented))
    {
      var ok := Call();
      if !ok {
        e := Some(DatabaseFailure);
      } else if aid !in tables.accounts || tables.accounts[aid].status != Reserved {
        e := Some(AccountNotReserved);
      } else {
        tables := tables.(accounts := WithStatus(tables.accounts, aid, Rented));
        e := None;
      }
    }

    /** `ON CONFLICT DO NOTHING`: an existing hold stays as it is, without an error. */
    method CreateDepositHold(rid: int, hold: Hold) returns (e: Option<Error>)
      modifies `tables, `calls
      ensures calls == old(calls) + 1 && e == (if old(calls) in failing then Some(DatabaseFailure) else None)
      ensures var t := old(tables);
              tables == if e.Some? || rid in t.holds then t else t.(holds := t.holds[rid := hold])
    {
      var ok := Call();
      if !ok {
        return Some(DatabaseFailure);
      }
      if rid !in tables.holds {
        tables := tables.(holds := tables.holds[rid := hold]);
      }
      e := None;
    }

    /** The append-only ledger accepts a row only if its key is not in the unique index. */
    method InsertLedgerEntry(entry: Entry) returns (e: Option<Error>)
      modifies `tables, `calls
      ensures calls == old(calls) + 1 && Guarded(old(calls) in failing, !HasKey(old(tables.ledger), entry.key), LedgerIdempotencyConflict, e)
      ensures tables == if e.Some? then old(tables) else old(tables).(ledger := old(tables.ledger) + [entry])
    {
      var ok := Call();
      if !ok {
        return Some(DatabaseFailure);
      }
      if HasKey(tables.ledger, entry.key) {
        return Some(LedgerIdempotencyConflict);
      }
      tables := tables.(ledger := tables.ledger + [entry]);
      e := None;
    }

    method LogSecurityEvent(event: Event) returns (e: Option<Error>)
      modifies `tables, `calls
      ensures calls == old(calls) + 1 && e == (if old(calls) in failing then Some(DatabaseFailure) else None)
      ensures tables == if e.Some? then old(tables) else old(tables).(events := old(tables.events) + [event])
    {
      var ok := Call();
      if !ok {
        return Some(DatabaseFailure);
      }
      tables := tables.(events := tables.events + [event]);
      e := None;
    }

    method InsertAuditLog(audit: Audit) returns (e: Option<Error>)
      modifies `tables, `calls
      ensures calls == old(calls) + 1 && e == (if old(calls) in failing then Some(DatabaseFailure) else None)
      ensures tables == if e.Some? then old(tables) else old(tables).(audits := old(tables.audits) + [audit])
    {
      var ok := Call();
      if !ok {
        return Some(DatabaseFailure);
      }
      tables := tables.(audits := tables.audits + [audit]);
      e := None;
    }

    /** An advisory lock: it orders transactions and changes nothing. */
    method LockKey() returns (e: Option<Error>)
      modifies `calls
      ensures calls == old(calls) + 1 && e == (if old(calls) in failing then Some(DatabaseFailure) else None)
    {
      var ok := Call();
      e := if ok then None else Some(DatabaseFailure);
    }

    // --- Deposits ---------------------------------------------------------------------------------

    method LockDepositSettlementState(rid: int) returns (r: Result<SettlementState>)
      modifies `calls
      ensures calls == old(calls) + 1
      ensures old(calls) in failing ==> r == Err(DatabaseFailure)
      ensures old(calls) !in failing ==>
                if SettlementLoadError(tables, rid).Some? then r == Err(SettlementLoadError(tables, rid).value)
                else r == Ok(SettlementState(tables.rentals[rid], tables.payments[rid], Lookup(tables.holds, rid)))
    {
      var ok := Call();
      if !ok {
        return Err(DatabaseFailure);
      }
      if rid !in tables.rentals {
        return Err(DepositHoldNotFound);
      }
      if tables.rentals[rid].accountId !in tables.accounts {
        return Err(NoRows);
      }
      if rid !in tables.payments || tables.payments[rid].userId != tables.rentals[rid].userId {
        return Err(PaymentNotFound);
      }
      if tables.rentals[rid].userId !in tables.users {
        return Err(NoRows);
      }
      r := Ok(SettlementState(tables.rentals[rid], tables.payments[rid], Lookup(tables.holds, rid)));
    }

    /** Does the rental exist at all? */
    method LoadDepositSettlementEligibility(rid: int) returns (r: Result<bool>)
      modifies `calls
      ensures calls == old(calls) + 1
      ensures r == if old(calls) in failing then Err(DatabaseFailure) else Ok(rid in tables.rentals)
    {
      var ok := Call();
      r := if ok then Ok(rid in tables.rentals) else Err(DatabaseFailure);
    }

    /** `MarkDepositReleased`, `MarkDepositForfeited` and `MarkDepositRefunded` differ in the row they
        write and agree in the guard `status = HELD`. */
    method SettleHeldDeposit(rid: int, settled: Hold) returns (e: Option<Error>)
      modifies `tables, `calls
      ensures calls == old(calls) + 1
      ensures var t := old(tables);
              Guarded(old(calls) in failing, rid in t.holds && t.holds[rid].status == Held, DepositSettlementNotAllowed, e)
      ensures tables == if e.Some? then old(tables) else old(tables).(holds := old(tables.holds)[rid := settled])
    {
      var ok := Call();
      if !ok {
        return Some(DatabaseFailure);
      }
      if rid !in tables.holds || tables.holds[rid].status != Held {
        return Some(DepositSettlementNotAllowed);
      }
      tables := tables.(holds := tables.holds[rid := settled]);
      e := None;
    }

    method VerifyDepositForfeitEvidence(rid: int, rental: Rental, eventId: int) returns (r: Result<bool>)
      modifies `calls
      ensures calls == old(calls) + 1
      ensures r == if old(calls) in failing then Err(DatabaseFailure) else Ok(EvidenceVerified(tables.events, rental, rid, eventId))
    {
      var ok := Call();
      r := if ok then Ok(EvidenceVerified(tables.events, rental, rid, eventId)) else Err(DatabaseFailure);
    }

    method MarkRentalCompleted(rid: int, now: int) returns (r: Result<bool>)
      modifies `tables, `calls
      ensures calls == old(calls) + 1
      ensures r == if old(calls) in failing then Err(DatabaseFailure) else Ok(old(Completable(tables, rid)))
      ensures var t := old(tables);
              tables == if r != Ok(true) then t
                        else t.(rentals := t.rentals[rid := t.rentals[rid].(status := Completed, completedAt := Some(now))])
    {
      var ok := Call();
      if !ok {
        return Err(DatabaseFailure);
      }
      if !Completable(tables, rid) {
        return Ok(false);
      }
      tables := tables.(rentals := tables.rentals[rid := tables.rentals[rid].(status := Completed, completedAt := Some(now))]);
      r := Ok(true);
    }

    // --- Refunds ----------------------------------------------------------------------------------

    /** Inserts the refund, or returns the one already stored under the same key. */
    method CreateRefund(rid: int, refund: Refund) returns (r: Result<Refund>)
      modifies `tables, `calls
      ensures calls == old(calls) + 1
      ensures var t := old(tables);
              r == if old(calls) in failing then Err(DatabaseFailure) else Ok(if rid in t.refunds then t.refunds[rid]
              else refund)
      ensures var t := old(tables);
              tables == if r.Err? || rid in t.refunds then t else t.(refunds := t.refunds[rid := refund])
    {
      var ok := Call();
      if !ok {
        return Err(DatabaseFailure);
      }
      if rid !in tables.refunds {
        tables := tables.(refunds := tables.refunds[rid := refund]);
      }
      r := Ok(tables.refunds[rid]);
    }

    /** The sums over the completed refunds of a payment, which has at most one. */
    method LoadCompletedRefundTotals(rid: int) returns (r: Result<RefundTotals>)
      modifies `calls
      ensures calls == old(calls) + 1
      ensures r == if old(calls) in failing then Err(DatabaseFailure)
                   else if rid in tables.refunds && tables.refunds[rid].status == RefundDone
                   then Ok(RefundTotals(tables.refunds[rid].principal, tables.refunds[rid].deposit))
                   else Ok(RefundTotals(0, 0))
    {
      var ok := Call();
      if !ok {
        r := Err(DatabaseFailure);
      } else if rid in tables.refunds && tables.refunds[rid].status == RefundDone {
        r := Ok(RefundTotals(tables.refunds[rid].principal, tables.refunds[rid].deposit));
      } else {
        r := Ok(RefundTotals(0, 0));
      }
    }

    method MarkRefundCompleted(rid: int) returns (e: Option<Error>)
      modifies `tables, `calls
      ensures calls == old(calls) + 1
      ensures var t := old(tables);
              Guarded(old(calls) in failing, rid in t.refunds && t.refunds[rid].status == Requested, WalletRefundNotAllowed, e)
      ensures var t := old(tables);
              tables == if e.Some? then t
              else t.(refunds := t.refunds[rid := t.refunds[rid].(status := RefundDone)])
    {
      var ok := Call();
      if !ok {
        return Some(DatabaseFailure);
      }
      if rid !in tables.refunds || tables.refunds[rid].status != Requested {
        return Some(WalletRefundNotAllowed);
      }
      tables := tables.(refunds := tables.refunds[rid := tables.refunds[rid].(status := RefundDone)]);
      e := None;
    }

    // --- Finalization -----------------------------------------------------------------------------

    /** `LockNextRentalFinalizationState` for a lone worker: no row is locked elsewhere. */
    method LockNextFinalization(now: int) returns (r: Result<Option<int>>)
      modifies `calls
      ensures calls == old(calls) + 1
      ensures old(calls) in failing ==> r == Err(DatabaseFailure)
      ensures old(calls) !in failing ==>
                r == Ok(if Candidates(tables, now) == {} then None
                        else Some(First(Candidates(tables, now), QueueRank(tables))))
    {
      var ok := Call();
      if !ok {
        return Err(DatabaseFailure);
      }
      var candidates := Candidates(tables, now);
      if candidates == {} {
        return Ok(None);
      }
      var first := SelectFirst(candidates, QueueRank(tables));
      r := Ok(Some(first));
    }

    // --- Renting ----------------------------------------------------------------------------------

    method GetAccountForUpdate(aid: int) returns (r: Result<Account>)
      modifies `calls
      ensures calls == old(calls) + 1
      ensures r == if old(calls) in failing then Err(DatabaseFailure)
                   else if aid in tables.accounts && !tables.accounts[aid].deleted then Ok(tables.accounts[aid]) else Err(AccountNotFound)
    {
      var ok := Call();
      r := if !ok then Err(DatabaseFailure)
           else if aid in tables.accounts && !tables.accounts[aid].deleted then Ok(tables.accounts[aid]) else Err(AccountNotFound);
    }

    method GetUser(uid: int) returns (r: Result<User>)
      modifies `calls
      ensures calls == old(calls) + 1
      ensures r == if old(calls) in failing then Err(DatabaseFailure) else if uid in tables.users then Ok(tables.users[uid]) else Err(UserNotFound)
    {
      var ok := Call();
      r := if !ok then Err(DatabaseFailure) else if uid in tables.users then Ok(tables.users[uid]) else Err(UserNotFound);
    }

    /** The compare-and-set that keeps two renters from the same account. */
    method ReserveAccount(aid: int) returns (e: Option<Error>)
      modifies `tables, `calls
      ensures calls == old(calls) + 1
      ensures var t := old(tables);
              Guarded(old(calls) in failing, aid in t.accounts && t.accounts[aid].status == Available && !t.accounts[aid].deleted, InvalidState, e)
      ensures var t := old(tables);
              tables == if e.Some? then t else t.(accounts := WithStatus(t.accounts, aid, Reserved))
    {
      var ok := Call();
      if !ok {
        return Some(DatabaseFailure);
      }
      if aid !in tables.accounts || tables.accounts[aid].status != Available || tables.accounts[aid].deleted {
        return Some(InvalidState);
      }
      tables := tables.(accounts := WithStatus(tables.accounts, aid, Reserved));
      e := None;
    }

    /** An insert that can violate the primary key or the index of live rentals. */
    method CreateRental(rid: int, rental: Rental) returns (e: Option<Error>)
      modifies `tables, `calls
      ensures calls == old(calls) + 1
      ensures e == if old(calls) in failing then Some(DatabaseFailure)
                   else if rid in old(tables.rentals) then Some(DuplicateKey)
                   else if HasLiveRental(old(tables.rentals), rental.accountId) then Some(AccountNotAvailable)
                   else None
      ensures tables == if e.Some? then old(tables) else old(tables).(rentals := old(tables.rentals)[rid := rental])
    {
      var ok := Call();
      if !ok {
        return Some(DatabaseFailure);
      }
      if rid in tables.rentals {
        return Some(DuplicateKey);
      }
      if HasLiveRental(tables.rentals, rental.accountId) {
        return Some(AccountNotAvailable);
      }
      tables := tables.(rentals := tables.rentals[rid := rental]);
      e := None;
    }

    method CreatePendingPayment(rid: int, payment: Payment) returns (e: Option<Error>)
      modifies `tables, `calls
      ensures calls == old(calls) + 1
      ensures var t := old(tables);
              Guarded(old(calls) in failing, rid !in t.payments && !PaymentIdTaken(t.payments, payment.id), DuplicateKey, e)
      ensures var t := old(tables);
              tables == if e.Some? then t else t.(payments := t.payments[rid := payment])
    {
      var ok := Call();
      if !ok {
        return Some(DatabaseFailure);
      }
      if rid in tables.payments || PaymentIdTaken(tables.payments, payment.id) {
        return Some(DuplicateKey);
      }
      tables := tables.(payments := tables.payments[rid := payment]);
      e := None;
    }

    /** `CancelWaitingPaymentRental`: one statement that locks, updates three tables and logs, and a
        second one that explains why nothing was locked. */
    method CancelWaitingPaymentRental(rid: int, uid: int, now: int) returns (r: Result<bool>)
      modifies `tables, `calls
      ensures Performs(Operations.CancelRental(old(tables), uid, rid, now), tables, r, failing, old(calls), calls)
    {
      var ok := Call();
      if !ok {
        return Err(DatabaseFailure);
      }
      if Joined(tables, rid) && tables.rentals[rid].userId == uid && tables.rentals[rid].status == WaitingPayment
         && tables.payments[rid].status == Pending && tables.accounts[tables.rentals[rid].accountId].status == Reserved {
        var rental := tables.rentals[rid];
        var inUse := HasActiveRental(tables.rentals, rental.accountId);
        tables := tables.(payments := tables.payments[rid := tables.payments[rid].(status := Failed)]);
        tables := tables.(rentals := tables.rentals[rid := rental.(status := Cancelled, finishedAt := Some(now))]);
        if inUse {
          return Err(InvalidTransition);
        }
        tables := tables.(accounts := WithStatus(tables.accounts, rental.accountId, Available));
        tables := tables.(events := tables.events + [RentalEvent(EVENT_RENTAL_CANCELLED, rental, rid)]);
        return Ok(true);
      }
      ok := Call();
      if !ok {
        return Err(DatabaseFailure);
      }
      if rid !in tables.rentals || tables.rentals[rid].userId != uid {
        return Err(RentalNotFound);
      }
      if tables.rentals[rid].status == Cancelled {
        return Ok(false);
      }
      r := Err(CannotCancel);
    }

    method GetRentalCredentials(rid: int, uid: int, now: int) returns (r: Result<Rental>)
      modifies `calls
      ensures calls == old(calls) + 1
      ensures r == if old(calls) in failing then Err(DatabaseFailure)
                   else if CredentialsAvailable(tables, uid, rid, now) then Ok(tables.rentals[rid]) else Err(RentalNotFound)
    {
      var ok := Call();
      r := if !ok then Err(DatabaseFailure)
           else if CredentialsAvailable(tables, uid, rid, now) then Ok(tables.rentals[rid]) else Err(RentalNotFound);
    }

    // --- Schedulers -------------------------------------------------------------------------------

    /** `ExpireWaitingPaymentReservation`: a single statement, hence a transaction of its own. */
    method ExpireWaitingPaymentReservation(rid: int, now: int) returns (r: Result<bool>)
      modifies `tables, `calls
      ensures Commits(Operations.ExpireReservation(old(tables), rid, now), old(tables), tables, r, failing, old(calls), calls)
      ensures calls == old(calls) + 1 && (r.Err? <==> old(calls) in failing)
    {
      var ok := Call();
      if !ok {
        return Err(DatabaseFailure);
      }
      if !ReservationExpired(tables, rid, now) {
        return Ok(false);
      }
      var rental := tables.rentals[rid];
      tables := tables.(payments := tables.payments[rid := tables.payments[rid].(status := Failed)]);
      tables := tables.(rentals := tables.rentals[rid := rental.(status := Expired)]);
      tables := tables.(accounts := WithStatus(tables.accounts, rental.accountId, Available));
      tables := tables.(events := tables.events + [RentalEvent(EVENT_RESERVATION_EXPIRED, rental, rid)]);
      r := Ok(true);
    }

    /** The statement of `ExpireRental`, which counts the rows it changed. */
    method ExpireRentalStatement(rid: int, aid: int, now: int) returns (r: Result<bool>)
      modifies `tables, `calls
      ensures Performs(Operations.ExpireRental(old(tables), rid, aid, now), tables, r, failing, old(calls), calls)
      ensures calls == old(calls) + 1 && (old(calls) in failing ==> r.Err?)
    {
      var ok := Call();
      if !ok {
        return Err(DatabaseFailure);
      }
      if !RentalOverdue(tables, rid, aid, now) {
        return Ok(false);
      }
      var rental := tables.rentals[rid];
      var review := rental.deposit > 0 && HeldForReview(tables, rid);
      var inUse := OtherActiveRental(tables.rentals, aid, rid);
      var deadline := if review then Some(rental.endAt + REVIEW_WINDOW) else None;
      var expired := rental.(status := Expired, finishedAt := Some(rental.endAt), reviewDeadline := deadline);
      tables := tables.(rentals := tables.rentals[rid := expired]);
      if inUse {
        return Err(DatabaseFailure);
      }
      tables := tables.(accounts := WithStatus(tables.accounts, aid, Available));
      tables := tables.(events := tables.events + [RentalEvent(EVENT_RENTAL_EXPIRED, rental, rid)]);
      r := Ok(true);
    }

    method ExpireRental(rid: int, aid: int, now: int) returns (r: Result<bool>)
      requires !inTransaction
      modifies this
      ensures Commits(Operations.ExpireRental(old(tables), rid, aid, now), old(tables), tables, r, failing, old(calls), calls)
      ensures !inTransaction
      ensures var c := old(calls);
              Operations.ExpireRental(old(tables), rid, aid, now).result.Ok? ==>
                && (r.Err? <==> c in failing || c + 1 in failing || c + 2 in failing)
                && calls == (if c in failing then c + 1 else if c + 1 in failing then c + 2 else c + 3)
    {
      var e, owner := Begin();
      if e.Some? {
        return Err(e.value);
      }
      var body := ExpireRentalStatement(rid, aid, now);
      r := Finish(owner, body);
    }

    /** `GetExpiredRentals`: active rentals past their end, by end and id. */
    method GetExpiredRentals(now: int) returns (r: Result<seq<DueRental>>)
      modifies `calls
      ensures calls == old(calls) + 1
      ensures old(calls) in failing ==> r == Err(DatabaseFailure)
      ensures old(calls) !in failing ==> r.Ok? && RowsOf(tables, Sorted(OverdueRentals(tables, now), EndRank(tables)), r.value)
    {
      var ok := Call();
      if !ok {
        return Err(DatabaseFailure);
      }
      var rows := ScanRows(OverdueRentals(tables, now), EndRank(tables));
      r := Ok(rows);
    }

    /** `GetExpiredWaitingPaymentReservations`: unpaid reservations past their expiry, by expiry; ties go by rental. */
    method GetExpiredReservations(now: int) returns (r: Result<seq<DueRental>>)
      modifies `calls
      ensures calls == old(calls) + 1
      ensures old(calls) in failing ==> r == Err(DatabaseFailure)
      ensures old(calls) !in failing ==> r.Ok? && RowsOf(tables, Sorted(ExpiredReservations(tables, now), ExpiryRank(tables)), r.value)
    {
      var ok := Call();
      if !ok {
        return Err(DatabaseFailure);
      }
      var rows := ScanRows(ExpiredReservations(tables, now), ExpiryRank(tables));
      r := Ok(rows);
    }

    /** The loop that turns the rows of a query into a slice. */
    method ScanRows(found: set<int>, rank: map<int, int>) returns (rows: seq<DueRental>)
      requires Ranked(found, rank) && found <= tables.rentals.Keys
      ensures RowsOf(tables, Sorted(found, rank), rows)
    {
      var q := SelectAll(found, rank);
      rows := [];
      for i := 0 to |q|
        invariant |rows| == i
        invariant forall j :: 0 <= j < i ==> q[j] in tables.rentals && rows[j] == DueRental(q[j], tables.rentals[q[j]].accountId)
      {
        SortedElements(found, rank, q[i]);
        rows := rows + [DueRental(q[i], tables.rentals[q[i]].accountId)];
      }
    }

    // --- Administration ---------------------------------------------------------------------------

    /** `disableAccountIfIdle`: one statement that counts the rows it locked and updated. */
    method DisableIfIdle(aid: int) returns (r: Result<()>)
      modifies `tables, `calls
      ensures Performs(DisableAccount(old(tables), aid), tables, r, failing, old(calls), calls)
    {
      var ok := Call();
      if !ok {
        return Err(DatabaseFailure);
      }
      if aid !in tables.accounts || tables.accounts[aid].deleted {
        return Err(NoRows);
      }
      var status := tables.accounts[aid].status;
      if status == Reserved || status == Rented || HasLiveRental(tables.rentals, aid) {
        return Err(AccountLifecycleConflict);
      }
      tables := tables.(accounts := tables.accounts[aid := tables.accounts[aid].(status := Disabled, deleted := true)]);
      r := Ok(());
    }

    method CreateAdminAccount(aid: int, hourlyPrice: int, deposit: int) returns (e: Option<Error>)
      modifies `tables, `calls
      ensures calls == old(calls) + 1 && Guarded(old(calls) in failing, aid !in old(tables.accounts), DuplicateKey, e)
      ensures tables == if e.Some? then old(tables)
                        else old(tables).(accounts := old(tables.accounts)[aid := Account(Available, hourlyPrice, deposit, false)])
    {
      var ok := Call();
      if !ok {
        return Some(DatabaseFailure);
      }
      if aid in tables.accounts {
        return Some(DuplicateKey);
      }
      tables := tables.(accounts := tables.accounts[aid := Account(Available, hourlyPrice, deposit, false)]);
      e := None;
    }

    method UpdateAdminPricing(aid: int, hourlyPrice: Option<int>, deposit: Option<int>) returns (e: Option<Error>)
      modifies `tables, `calls
      ensures calls == old(calls) + 1
      ensures var t := old(tables);
              Guarded(old(calls) in failing, aid in t.accounts && !t.accounts[aid].deleted, AccountNotFound, e)
      ensures e.Some? ==> tables == old(tables)
      ensures e.None? ==>
                var a := old(tables.accounts)[aid];
                tables == old(tables).(accounts := old(tables.accounts)[aid :=
                  a.(hourlyPrice := Coalesce(hourlyPrice, a.hourlyPrice), deposit := Coalesce(deposit, a.deposit))])
    {
      var ok := Call();
      if !ok {
        return Some(DatabaseFailure);
      }
      if aid !in tables.accounts || tables.accounts[aid].deleted {
        return Some(AccountNotFound);
      }
      var a := tables.accounts[aid];
      tables := tables.(accounts := tables.accounts[aid :=
        a.(hourlyPrice := Coalesce(hourlyPrice, a.hourlyPrice), deposit := Coalesce(deposit, a.deposit))]);
      e := None;
    }

    /** `LockAdminAndUserBalanceForAdjustment`: the rows of the actor and of the target, locked in the
        order of their ids. */
    method LockAdminAndUserBalance(actor: int, target: int) returns (r: Result<int>)
      modifies `calls
      ensures calls == old(calls) + 1
      ensures r == if old(calls) in failing then Err(DatabaseFailure)
                   else if actor !in tables.users || !tables.users[actor].admin || tables.users[actor].blocked then Err(AdminRequired)
                   else if target !in tables.users then Err(FinancialUserNotFound)
                   else Ok(tables.users[target].balance)
    {
      var ok := Call();
      if !ok {
        return Err(DatabaseFailure);
      }
      var found := set u | u in tables.users && (u == actor || u == target);
      var rank := map u | u in tables.users :: u;
      var rows := SelectAll(found, rank);
      var actorAllowed, targetFound, balance := false, false, 0;
      for i := 0 to |rows|
        invariant calls == old(calls) + 1
        invariant actorAllowed <==>
                    actor in rows[..i] && actor in tables.users && tables.users[actor].admin && !tables.users[actor].blocked
        invariant targetFound <==> target in rows[..i]
        invariant targetFound ==> target in tables.users && balance == tables.users[target].balance
      {
        SortedElements(found, rank, rows[i]);
        var row := tables.users[rows[i]];
        if rows[i] == actor {
          actorAllowed := row.admin && !row.blocked;
        }
        if rows[i] == target {
          targetFound, balance := true, row.balance;
        }
      }
      SortedElements(found, rank, actor);
      SortedElements(found, rank, target);
      assert rows[..|rows|] == rows;
      if !actorAllowed {
        return Err(AdminRequired);
      }
      if !targetFound {
        return Err(FinancialUserNotFound);
      }
      r := Ok(balance);
    }

    /** `GetAdminBalanceAdjustment`: the stored row and the request read back from it, if any. */
    method GetAdminBalanceAdjustment(key: LedgerKey) returns (r: Result<Option<Entry>>)
      modifies `calls
      ensures calls == old(calls) + 1
      ensures r == if old(calls) in failing then Err(DatabaseFailure)
                   else if FindKey(tables.ledger, key).Some? && StoredAdjustment(FindKey(tables.ledger, key).value).None?
                   then Err(DatabaseFailure)
                   else Ok(FindKey(tables.ledger, key))
    {
      var ok := Call();
      if !ok {
        return Err(DatabaseFailure);
      }
      var row := FindKey(tables.ledger, key);
      if row.Some? && StoredAdjustment(row.value).None? {
        return Err(DatabaseFailure);
      }
      r := Ok(row);
    }

    method InsertAdminBalanceAdjustmentLedger(entry: Entry) returns (e: Option<Error>)
      modifies `tables, `calls
      ensures calls == old(calls) + 1 && Guarded(old(calls) in failing, !HasKey(old(tables.ledger), entry.key), AdjustmentConflict, e)
      ensures tables == if e.Some? then old(tables) else old(tables).(ledger := old(tables.ledger) + [entry])
    {
      var ok := Call();
      if !ok {
        return Some(DatabaseFailure);
      }
      if HasKey(tables.ledger, entry.key) {
        return Some(AdjustmentConflict);
      }
      tables := tables.(ledger := tables.ledger + [entry]);
      e := None;
    }
  }
}
