/** Facts a transaction relies on when it inserts rows: in a valid database the rows a guarded
    operation is about to insert are never there yet, so none of its inserts is ever refused. */
module Readiness {
  import opened Common
  import opened LedgerKeys
  import opened Tables
  import opened Operations
  import opened Invariant
  import opened Steps

  /** An insert takes no other key than its own. */
  lemma StillFree(ledger: seq<Entry>, e: Entry, k: LedgerKey)
    requires !HasKey(ledger, k) && e.key != k
    ensures !HasKey(ledger + [e], k)
  {
    forall i | 0 <= i < |ledger + [e]|
      ensures Render((ledger + [e])[i].key) != Render(k)
    {
      if i == |ledger| && Render(e.key) == Render(k) {
        RenderInjective(e.key, k);
      }
    }
  }

  lemma KeyIsFree(t: Tables, rid: int, kind: EntryKind, key: LedgerKey)
    requires Valid(t) && rid in t.rentals && !key.WebhookKey?
    requires KeyMatches(Entry(kind, 0, Some(rid), 1, USD, key, None))
    requires Column(BookOf(t.ledger, rid), kind) == []
    ensures !HasKey(t.ledger, key)
  {
    RentalKeyFresh(t, rid, Entry(kind, 0, Some(rid), 1, USD, key, None));
  }

  /** A pending payment has no hold and no ledger rows, and its amounts add up. */
  ghost predicate Chargeable(t: Tables, rid: int) {
    Joined(t, rid) && t.payments[rid].status == Pending ==>
      && rid !in t.holds
      && !HasKey(t.ledger, DebitKey(rid)) && !HasKey(t.ledger, HoldKey(rid))
      && IsInt64(t.rentals[rid].price + t.rentals[rid].deposit)
  }

  lemma IsChargeable(t: Tables, rid: int)
    requires Valid(t)
    ensures Chargeable(t, rid)
  {
    if Joined(t, rid) && t.payments[rid].status == Pending {
      RentalIsJoined(t, rid);
      PendingIsUnbooked(t, rid);
      KeyIsFree(t, rid, BalanceDebit, DebitKey(rid));
      KeyIsFree(t, rid, DepositHeld, HoldKey(rid));
    }
  }

  /** A webhook finds at most one payment, and while that is pending its transaction id is new. */
  ghost predicate Receivable(t: Tables, req: WebhookRequest) {
    && (forall r, s :: WebhookRow(t.payments, req, r) && WebhookRow(t.payments, req, s) ==> r == s)
    && (forall r :: WebhookRow(t.payments, req, r) ==>
          && Chargeable(t, r)
          && (t.payments[r].status == Pending ==>
                !HasKey(t.ledger, WebhookKey(req.externalTx)) && !TransactionTaken(t.payments, r, req.externalTx)))
  }

  lemma IsReceivable(t: Tables, req: WebhookRequest)
    requires Valid(t)
    ensures Receivable(t, req)
  {
    forall r | WebhookRow(t.payments, req, r)
      ensures Chargeable(t, r)
      ensures t.payments[r].status == Pending ==>
                !HasKey(t.ledger, WebhookKey(req.externalTx)) && !TransactionTaken(t.payments, r, req.externalTx)
    {
      IsChargeable(t, r);
      if t.payments[r].status == Pending {
        TransactionIsFresh(t, req, r);
        forall i | 0 <= i < |t.ledger|
          ensures t.ledger[i].key != WebhookKey(req.externalTx)
        {
          assert EntryOk(t, t.ledger[i]);
          FreshTransactionHasNoRow(t, req.externalTx, t.ledger[i]);
        }
        KeyIsUnused(t.ledger, WebhookKey(req.externalTx));
      }
    }
    forall r, s | WebhookRow(t.payments, req, r) && WebhookRow(t.payments, req, s)
      ensures r == s
    {
      WebhookRowUnique(t, req, r, s);
    }
  }

  /** A held deposit has no row that settles it. */
  ghost predicate Settleable(t: Tables, rid: int) {
    Joined(t, rid) && rid in t.holds && t.holds[rid].status == Held ==>
      && !HasKey(t.ledger, ReleaseKey(rid)) && !HasKey(t.ledger, AutoReleaseKey(rid))
      && !HasKey(t.ledger, ForfeitKey(rid)) && !HasKey(t.ledger, DepositRefundKey(rid))
  }

  lemma ReleaseIsFree(t: Tables, rid: int)
    requires Valid(t) && Joined(t, rid) && rid in t.holds && t.holds[rid].status == Held
    ensures !HasKey(t.ledger, ReleaseKey(rid)) && !HasKey(t.ledger, AutoReleaseKey(rid))
  {
    RentalIsJoined(t, rid);
    KeyIsFree(t, rid, DepositReleasedToBalance, ReleaseKey(rid));
    KeyIsFree(t, rid, DepositReleasedToBalance, AutoReleaseKey(rid));
  }

  lemma ForfeitIsFree(t: Tables, rid: int)
    requires Valid(t) && Joined(t, rid) && rid in t.holds && t.holds[rid].status == Held
    ensures !HasKey(t.ledger, ForfeitKey(rid))
  {
    RentalIsJoined(t, rid);
    KeyIsFree(t, rid, DepositForfeited, ForfeitKey(rid));
  }

  lemma DepositRefundIsFree(t: Tables, rid: int)
    requires Valid(t) && Joined(t, rid) && rid in t.holds && t.holds[rid].status == Held
    ensures !HasKey(t.ledger, DepositRefundKey(rid))
  {
    RentalIsJoined(t, rid);
    KeyIsFree(t, rid, DepositRefundCredit, DepositRefundKey(rid));
  }

  lemma IsSettleable(t: Tables, rid: int)
    requires Valid(t)
    ensures Settleable(t, rid)
  {
    if Joined(t, rid) && rid in t.holds && t.holds[rid].status == Held {
      ReleaseIsFree(t, rid);
      ForfeitIsFree(t, rid);
      DepositRefundIsFree(t, rid);
    }
  }

  /** A rental without a completed refund has no row of one. */
  ghost predicate Refundable(t: Tables, rid: int) {
    && Settleable(t, rid)
    && (Joined(t, rid) ==>
          && (rid in t.refunds ==> t.refunds[rid].status == RefundDone)
          && (rid !in t.refunds ==> !HasKey(t.ledger, PrincipalRefundKey(rid)))
          && IsInt64(t.rentals[rid].price + RefundableDeposit(t, rid)))
  }

  lemma IsRefundable(t: Tables, rid: int)
    requires Valid(t)
    ensures Refundable(t, rid)
  {
    IsSettleable(t, rid);
    if Joined(t, rid) {
      RentalIsJoined(t, rid);
      if rid !in t.refunds {
        KeyIsFree(t, rid, BalanceRefundCredit, PrincipalRefundKey(rid));
      }
    }
  }
}
