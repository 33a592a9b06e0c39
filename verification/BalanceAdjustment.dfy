/** Administrative balance adjustments, call by call. */
module BalanceAdjustment {
  import opened Common
  import opened LedgerKeys
  import opened Tables
  import opened Operations
  import opened Repository

  class BalanceAdjustmentService {
    const repo: Database

    constructor (repo: Database)
      ensures this.repo == repo
    {
      this.repo := repo;
    }

    method StoreAdjustment(actor: int, target: int, input: AdjustmentInput, previous: int, next: int) returns (e: Option<Error>)
      requires target in repo.tables.users && !HasKey(repo.tables.ledger, AdjustmentKey(input.clientKey))
      modifies repo`tables, repo`calls
      ensures e.Some? ==> Stopped(e.value, repo.failing, old(repo.calls), repo.calls)
      ensures e.None? ==>
                var t := old(repo.tables);
                repo.tables == t.(
                  ledger := t.ledger + [AdjustmentEntry(actor, target, input, previous, next)],
                  users := WithBalance(t.users, target, next),
                  audits := t.audits + [Audit(Some(actor), "user_balance", target, "admin_balance_adjustment")],
                  events := t.events + [Event(None, EVENT_BALANCE_ADJUSTMENT, target, None, None, true)])
      ensures repo.calls >= old(repo.calls)
    {
      e := repo.InsertAdminBalanceAdjustmentLedger(AdjustmentEntry(actor, target, input, previous, next));
      if e.Some? { return e; }
      e := repo.SetUserBalance(target, next);
      if e.Some? { return e; }
      e := repo.InsertAuditLog(Audit(Some(actor), "user_balance", target, "admin_balance_adjustment"));
      if e.Some? { return e; }
      e := repo.LogSecurityEvent(Event(None, EVENT_BALANCE_ADJUSTMENT, target, None, None, true));
    }

    method AdjustWithin(actor: int, target: int, input: AdjustmentInput) returns (r: Result<AdjustmentResult>)
      requires AdjustmentInputError(actor, target, input) == None
      modifies repo`tables, repo`calls
      ensures Performs(AdjustBalance(old(repo.tables), actor, ADMIN_ROLE, target, input), repo.tables, r, repo.failing, old(repo.calls), repo.calls)
    {
      var e := repo.RequireCurrentAdmin(actor);
      if e.Some? { return Err(e.value); }
      e := repo.LockKey();
      if e.Some? { return Err(e.value); }
      var balance := repo.LockAdminAndUserBalance(actor, target);
      if balance.Err? { return Err(balance.error); }

      r := AdjustLocked(actor, target, input, balance.value);
    }

    /** Either the answer of an earlier request, or a new row, a new balance and their records. */
    method AdjustLocked(actor: int, target: int, input: AdjustmentInput, previous: int) returns (r: Result<AdjustmentResult>)
      requires target in repo.tables.users && previous == repo.tables.users[target].balance
      modifies repo`tables, repo`calls
      ensures Performs(AdjustKnown(old(repo.tables), actor, target, input), repo.tables, r, repo.failing, old(repo.calls), repo.calls)
    {
      FindKeyIsHasKey(repo.tables.ledger, AdjustmentKey(input.clientKey));
      var existing := repo.GetAdminBalanceAdjustment(AdjustmentKey(input.clientKey));
      if existing.Err? { return Err(existing.error); }
      if existing.value.Some? {
        var row := existing.value.value;
        var stored := StoredAdjustment(row).value;
        if !AdjustmentMatches(row, stored, actor, target, input) { return Err(AdjustmentConflict); }
        return Ok(stored);
      }

      var next := CheckedAdjustment(previous, input.amount);
      if next.Err? { return Err(next.error); }
      var e := StoreAdjustment(actor, target, input, previous, next.value);
      if e.Some? { return Err(e.value); }
      r := Ok(AdjustmentResult(actor, target, previous, next.value, input.amount, input.currency,
                               input.reason, input.comment, input.clientKey, false));
    }

    method AdjustAdminBalance(actor: int, role: string, target: int, input: AdjustmentInput) returns (r: Result<AdjustmentResult>)
      modifies repo
      ensures Serves(old(repo.inTransaction), AdjustBalance(old(repo.tables), actor, role, target, input),
                      old(repo.tables), repo.tables, r, repo.failing, old(repo.calls), repo.calls)
      ensures repo.inTransaction == old(repo.inTransaction)
      ensures repo.inTransaction ==> repo.saved == old(repo.saved)
    {
      if role != ADMIN_ROLE { return Err(AdminRequired); }
      var invalid := AdjustmentInputError(actor, target, input);
      if invalid.Some? { return Err(invalid.value); }
      var e, owner := repo.Begin();
      if e.Some? { return Err(e.value); }
      var body := AdjustWithin(actor, target, input);
      r := repo.Finish(owner, body);
    }
  }
}
