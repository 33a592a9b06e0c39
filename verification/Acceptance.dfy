/** What the rows of a valid database say about a request: the vocabulary of the theorems about which
    requests are accepted and how they are answered. */
module Acceptance {
  import opened Common
  import opened LedgerKeys
  import opened Tables
  import opened Operations
  import opened Invariant
  import opened Steps

  /** What a valid database says about one rental. */
  ghost predicate Known(t: Tables, rid: int) {
    && Joined(t, rid) && DossierOk(View(t, rid))
    && (IsLive(t.rentals[rid].status) ==> t.accounts[t.rentals[rid].accountId].status == StatusFor(t.rentals[rid].status))
  }

  lemma IsKnown(t: Tables, rid: int)
    requires Valid(t) && rid in t.rentals
    ensures Known(t, rid)
  {
    RentalIsJoined(t, rid);
  }

  /** The rental is the user's own. */
  predicate Own(t: Tables, uid: int, rid: int) {
    rid in t.rentals && t.rentals[rid].userId == uid
  }

  /** An administrator who has not been blocked in the meantime. */
  predicate Administers(t: Tables, actor: int) {
    actor > 0 && actor in t.users && !t.users[actor].blocked && t.users[actor].admin
  }

  /** He must also say that he comes as one. */
  predicate Authorised(t: Tables, actor: int, role: string) {
    role == "ADMIN" && Administers(t, actor)
  }

  /** There is room for a credit in the balance of the rental's user. */
  predicate HasRoom(t: Tables, rid: int, credit: int) {
    && rid in t.rentals && t.rentals[rid].userId in t.users
    && t.users[t.rentals[rid].userId].balance + credit <= MAX_INT64
  }

  predicate IsHold(t: Tables, rid: int, status: HoldStatus) {
    rid in t.holds && t.holds[rid].status == status
  }
}
