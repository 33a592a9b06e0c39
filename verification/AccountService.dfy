/** The administration of accounts, call by call. */
module AccountService {
  import opened Common
  import opened Tables
  import opened Pricing
  import opened Operations
  import opened Repository

  class AccountService {
    const repo: Database

    constructor (repo: Database)
      ensures this.repo == repo
    {
      this.repo := repo;
    }

    method CreateWithin(actor: int, aid: int, hourlyPrice: int, deposit: int) returns (r: Result<int>)
      requires ValidateAdminPricing(hourlyPrice, deposit).None?
      modifies repo`tables, repo`calls
      ensures Performs(Operations.CreateAccount(old(repo.tables), actor, aid, hourlyPrice, deposit),
                       repo.tables, r, repo.failing, old(repo.calls), repo.calls)
    {
      var e := repo.RequireCurrentAdmin(actor);
      if e.Some? { return Err(e.value); }
      e := repo.CreateAdminAccount(aid, hourlyPrice, deposit);
      if e.Some? { return Err(e.value); }
      r := Ok(aid);
    }

    method CreateAccount(actor: int, aid: int, hourlyPrice: int, deposit: int) returns (r: Result<int>)
      modifies repo
      ensures Serves(old(repo.inTransaction), Operations.CreateAccount(old(repo.tables), actor, aid, hourlyPrice, deposit),
                      old(repo.tables), repo.tables, r, repo.failing, old(repo.calls), repo.calls)
      ensures repo.inTransaction == old(repo.inTransaction)
      ensures repo.inTransaction ==> repo.saved == old(repo.saved)
    {
      var invalid := ValidateAdminPricing(hourlyPrice, deposit);
      if invalid.Some? { return Err(invalid.value); }
      var e, owner := repo.Begin();
      if e.Some? { return Err(e.value); }
      var body := CreateWithin(actor, aid, hourlyPrice, deposit);
      r := repo.Finish(owner, body);
    }

    method UpdateWithin(actor: int, aid: int, hourlyPrice: Option<int>, deposit: Option<int>) returns (r: Result<()>)
      modifies repo`tables, repo`calls
      ensures Performs(UpdatePricing(old(repo.tables), actor, aid, hourlyPrice, deposit), repo.tables, r, repo.failing, old(repo.calls), repo.calls)
    {
      var e := repo.RequireCurrentAdmin(actor);
      if e.Some? { return Err(e.value); }
      var current := repo.GetAccountForUpdate(aid);
      if current.Err? { return Err(current.error); }
      e := ValidateAdminPricing(Coalesce(hourlyPrice, current.value.hourlyPrice), Coalesce(deposit, current.value.deposit));
      if e.Some? { return Err(e.value); }
      e := repo.UpdateAdminPricing(aid, hourlyPrice, deposit);
      if e.Some? { return Err(e.value); }
      r := Ok(());
    }

    method UpdateAccount(actor: int, aid: int, hourlyPrice: Option<int>, deposit: Option<int>) returns (r: Result<()>)
      modifies repo
      ensures Serves(old(repo.inTransaction), UpdatePricing(old(repo.tables), actor, aid, hourlyPrice, deposit),
                      old(repo.tables), repo.tables, r, repo.failing, old(repo.calls), repo.calls)
      ensures repo.inTransaction == old(repo.inTransaction)
      ensures repo.inTransaction ==> repo.saved == old(repo.saved)
    {
      var e, owner := repo.Begin();
      if e.Some? { return Err(e.value); }
      var body := UpdateWithin(actor, aid, hourlyPrice, deposit);
      r := repo.Finish(owner, body);
    }

    method DisableWithin(actor: int, aid: int) returns (r: Result<()>)
      modifies repo`tables, repo`calls
      ensures Performs(DisableAccountAsAdmin(old(repo.tables), actor, aid), repo.tables, r, repo.failing, old(repo.calls), repo.calls)
    {
      var e := repo.RequireCurrentAdmin(actor);
      if e.Some? { return Err(e.value); }
      r := repo.DisableIfIdle(aid);
    }

    method DisableAccountIfIdleAsCurrentAdmin(actor: int, aid: int) returns (r: Result<()>)
      requires !repo.inTransaction
      modifies repo
      ensures Serves(old(repo.inTransaction), DisableAccountAsAdmin(old(repo.tables), actor, aid),
                      old(repo.tables), repo.tables, r, repo.failing, old(repo.calls), repo.calls)
      ensures repo.inTransaction == old(repo.inTransaction)
      ensures repo.inTransaction ==> repo.saved == old(repo.saved)
    {
      var e, owner := repo.Begin();
      if e.Some? { return Err(e.value); }
      var body := DisableWithin(actor, aid);
      r := repo.Finish(owner, body);
    }
  }
}
