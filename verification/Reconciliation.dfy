/**
 Reconciliation of a wallet with its ledger (internal/application/wallet_service.go and
 internal/infrastructure/postgres/wallet_ledger_repository.go).
 */
module Reconciliation {
  import opened Basics
  import opened Money
  import opened Wallets
  import opened Engine
  import opened EngineInvariant
  import opened EnginePreservation
  import opened Netting

  datatype Snapshot = Snapshot(stored: Money, calculated: Money, checkedEntries: nat)

  datatype Report = Report(stored: Money, calculated: Money, difference: Money, consistent: bool, checkedEntries: nat)

  /** ReconciliationSnapshot: one pass over the ledger; a sum outside NUMERIC(20, 2) is an error. */
  method ReconciliationSnapshot(db: Db, wallet: Uuid) returns (r: Result<Snapshot>)
    ensures r == if wallet !in db.wallets then Err(NotFound)
                 else
                   var es := EntriesOf(db.ledger, wallet);
                   var calculated := NewMoney(Total(es), db.wallets[wallet].balance.currency);
                   if calculated.Err? then Err(calculated.error)
                   else Ok(Snapshot(db.wallets[wallet].balance, calculated.value, |es|))
  {
    if wallet !in db.wallets {
      return Err(NotFound);
    }
    var sum, count := 0, 0;
    for i := 0 to |db.ledger|
      invariant sum == Total(EntriesOf(db.ledger[..i], wallet)) && count == |EntriesOf(db.ledger[..i], wallet)|
    {
      var e := db.ledger[i];
      OneMoreEntry(db.ledger, i, wallet);
      if e.walletId == wallet {
        sum := if e.direction.Credit? then sum + e.amount.cents else sum - e.amount.cents;
        count := count + 1;
      }
    }
    assert db.ledger[..|db.ledger|] == db.ledger;
    var calculated :- NewMoney(sum, db.wallets[wallet].balance.currency);
    return Ok(Snapshot(db.wallets[wallet].balance, calculated, count));
  }

  lemma OneMoreEntry(ledger: seq<Entry>, i: nat, wallet: Uuid)
    requires i < |ledger|
    ensures var es := EntriesOf(ledger[..i], wallet);
            var es' := EntriesOf(ledger[..i + 1], wallet);
            if ledger[i].walletId == wallet then es' == es + [ledger[i]] && Total(es') == Total(es) + Cents(ledger[i])
            else es' == es
  {
    assert ledger[..i + 1][..i] == ledger[..i];
    var es := EntriesOf(ledger[..i], wallet);
    assert (es + [ledger[i]])[..|es|] == es;
  }

  /** Reconcile; an identifier that does not parse is NIL_UUID. */
  method Reconcile(db: Db, wallet: Uuid) returns (r: Result<Report>)
    ensures wallet == NIL_UUID || wallet !in db.wallets ==> r == Err(WalletNotFound)
    ensures r.Ok? ==> wallet in db.wallets && r.value.difference.cents == db.wallets[wallet].balance.cents - Total(EntriesOf(db.ledger, wallet))
    ensures r.Ok? ==> (r.value.consistent <==> db.wallets[wallet].balance.cents == Total(EntriesOf(db.ledger, wallet)))
    ensures EngineInvariant.Inv(db) && wallet in db.wallets ==> r == Ok(CleanReport(db, wallet))
  {
    if EngineInvariant.Inv(db) && wallet in db.wallets {
      LedgerAddsUp(db, wallet);
    }
    if wallet == NIL_UUID {
      return Err(WalletNotFound);
    }
    var found := ReconciliationSnapshot(db, wallet);
    if found.Err? {
      return Err(if found.error.NotFound? then WalletNotFound else found.error);
    }
    var snapshot := found.value;
    var difference :- snapshot.stored.Sub(snapshot.calculated);
    return Ok(Report(snapshot.stored, snapshot.calculated, difference, difference.IsZero(), snapshot.checkedEntries));
  }

  /** No difference, over exactly the wallet's entries. */
  function CleanReport(db: Db, wallet: Uuid): Report
    requires wallet in db.wallets
  {
    var balance := db.wallets[wallet].balance;
    Report(balance, balance, Money(0, balance.currency), true, |EntriesOf(db.ledger, wallet)|)
  }

  /** In every state of the invariant the ledger adds up to the stored balance. */
  lemma LedgerAddsUp(db: Db, wallet: Uuid)
    requires EngineInvariant.Inv(db) && wallet in db.wallets
    ensures Total(EntriesOf(db.ledger, wallet)) == db.wallets[wallet].balance.cents
    ensures HealthyWallet(db.wallets[wallet]) && wallet != NIL_UUID
  {
    var es := EntriesOf(db.ledger, wallet);
    WalletEntriesComplete(db, wallet);
    EntriesAreInLedger(db.ledger, wallet);
    EntryFacts(db.wagers, es, wallet);
    assert WalletLedgerOk(db.wagers, db.wallets[wallet], es);
    ChainTotal(db.wagers, es);
  }
}
