/** Lawful writes keep every part of the invariant. One lemma per part. */
module EnginePreservation {
  import opened Basics
  import opened Money
  import opened Wagers
  import opened Wallets
  import opened Engine
  import opened EngineInvariant

  lemma KeepsRows(db: Db, wr: Writes, ids: Ids)
    requires RowsOk(db.wagers) && Lawful(db, wr, ids)
    ensures RowsOk(Commit(db, wr).wagers)
  {
  }

  /** Inserting one row under its key, or replacing a row with the same terms, keeps the index exact. */
  lemma ExternalIndexStep(wagers: map<Uuid, WagerRow>, index: map<(string, string), Uuid>, row: WagerRow)
    requires ExternalIndexOk(wagers, index)
    requires var t := row.wager.terms;
             t.kind.IsExternal() && if t.id in wagers then wagers[t.id].wager.terms == t else ExternalKey(t) !in index
    ensures var t := row.wager.terms; ExternalIndexOk(wagers[t.id := row], index[ExternalKey(t) := t.id])
  {
    var t := row.wager.terms;
    var key := ExternalKey(t);
    var ws, ix := wagers[t.id := row], index[key := t.id];
    forall id | id in ws && ws[id].wager.terms.kind.IsExternal()
      ensures Listed(ix, ExternalKey(ws[id].wager.terms), id)
    {
      if id != t.id {
        assert Listed(index, ExternalKey(wagers[id].wager.terms), id);
      }
    }
  }

  lemma KeyIndexStep(wagers: map<Uuid, WagerRow>, index: map<(string, string), Uuid>, row: WagerRow)
    requires KeyIndexOk(wagers, index)
    requires var t := row.wager.terms;
             t.kind.IsExternal() && if t.id in wagers then wagers[t.id].wager.terms == t else IdempotencyKey(t) !in index
    ensures var t := row.wager.terms; KeyIndexOk(wagers[t.id := row], index[IdempotencyKey(t) := t.id])
  {
    var t := row.wager.terms;
    var key := IdempotencyKey(t);
    var ws, ix := wagers[t.id := row], index[key := t.id];
    forall id | id in ws && ws[id].wager.terms.kind.IsExternal()
      ensures Listed(ix, IdempotencyKey(ws[id].wager.terms), id)
    {
      if id != t.id {
        assert Listed(index, IdempotencyKey(wagers[id].wager.terms), id);
      }
    }
  }

  lemma KeepsIndex(db: Db, wr: Writes, ids: Ids)
    requires IndexOk(db) && LawfulEffect(db, wr, ids)
    ensures IndexOk(Commit(db, wr))
  {
    ExternalIndexStep(db.wagers, db.byExternal, wr.row);
    KeyIndexStep(db.wagers, db.byKey, wr.row);
  }

  lemma KeepsWallets(db: Db, wr: Writes, ids: Ids)
    requires WalletsOk(db) && LawfulEffect(db, wr, ids)
    ensures WalletsOk(Commit(db, wr))
  {
    hide RefOk, EntryFor, HasReversal, ProcessedEventData;
  }

  lemma KeepsReferences(db: Db, wr: Writes, ids: Ids)
    requires RefsOk(db.wagers) && LawfulEffect(db, wr, ids)
    ensures RefsOk(Commit(db, wr).wagers)
  {
    var t := wr.row.wager.terms;
    var d := Commit(db, wr);
    forall id | id in d.wagers
      ensures RefOk(d.wagers, d.wagers[id].wager)
    {
      var w := d.wagers[id].wager;
      if id != t.id { assert RefOk(db.wagers, w); }
    }
  }

  lemma KeepsOneReversal(db: Db, wr: Writes, ids: Ids)
    requires OneReversal(db.wagers) && LawfulEffect(db, wr, ids)
    ensures OneReversal(Commit(db, wr).wagers)
  {
  }

  /** A transaction about to be written has no entry yet. */
  lemma TransactionIsNew(db: Db, t: Terms)
    requires LedgerMatches(db.wagers, db.ledger) && Replaces(db, t)
    ensures forall i :: 0 <= i < |db.ledger| ==> db.ledger[i].transactionId != t.id
  {
    forall i | 0 <= i < |db.ledger|
      ensures db.ledger[i].transactionId != t.id
    {
      assert EntryOk(db.wagers, db.ledger[i]);
    }
  }

  lemma KeepsLedgerMatch(db: Db, wr: Writes, ids: Ids)
    requires LedgerMatches(db.wagers, db.ledger) && LawfulEffect(db, wr, ids) && FreshIds(db, ids)
    ensures LedgerMatches(Commit(db, wr).wagers, Commit(db, wr).ledger)
  {
    hide RefOk, HasReversal, HealthyWallet, ProcessedEventData, EntryOk;
    var w := wr.row.wager;
    var d := Commit(db, wr);
    TransactionIsNew(db, w.terms);
    forall id | id in d.wagers && Moves(d.wagers[id].wager)
      ensures HasEntry(d.ledger, id)
    {
      if id == w.terms.id {
        assert d.ledger[|db.ledger|].transactionId == id;
      } else {
        assert HasEntry(db.ledger, id);
        var i :| 0 <= i < |db.ledger| && db.ledger[i].transactionId == id;
        assert d.ledger[i].transactionId == id;
      }
    }
    KeepsEntries(db, wr, ids);
  }

  lemma KeepsEntries(db: Db, wr: Writes, ids: Ids)
    requires LedgerMatches(db.wagers, db.ledger) && LawfulEffect(db, wr, ids)
    ensures var d := Commit(db, wr);
            forall i {:trigger EntryOk(d.wagers, d.ledger[i])} :: 0 <= i < |d.ledger| ==> EntryOk(d.wagers, d.ledger[i])
  {
    hide RefOk, HasReversal, HealthyWallet, ProcessedEventData;
    var d := Commit(db, wr);
    TransactionIsNew(db, wr.row.wager.terms);
    forall i | 0 <= i < |d.ledger|
      ensures EntryOk(d.wagers, d.ledger[i])
    {
      if i < |db.ledger| { assert EntryOk(db.wagers, db.ledger[i]); }
    }
  }

  /** Rows that back the entries keep their terms, so the count of movements is unchanged. */
  lemma {:induction false} NonOpeningFrame(a: map<Uuid, WagerRow>, b: map<Uuid, WagerRow>, es: seq<Entry>)
    requires forall i :: 0 <= i < |es| ==> (IsOpening(a, es[i]) <==> IsOpening(b, es[i]))
    ensures NonOpening(a, es) == NonOpening(b, es)
  {
    if es != [] {
      NonOpeningFrame(a, b, es[..|es| - 1]);
    }
  }

  /** A wallet's entries are entries of the ledger. */
  lemma {:induction false} EntriesAreInLedger(ledger: seq<Entry>, wallet: Uuid)
    ensures forall e :: e in EntriesOf(ledger, wallet) ==> e in ledger && e.walletId == wallet
  {
    if ledger != [] {
      EntriesAreInLedger(ledger[..|ledger| - 1], wallet);
    }
  }

  lemma EntriesOfAppend(ledger: seq<Entry>, e: Entry, wallet: Uuid)
    ensures EntriesOf(ledger + [e], wallet) == EntriesOf(ledger, wallet) + (if e.walletId == wallet then [e] else [])
  {
    assert (ledger + [e])[..|ledger|] == ledger;
  }

  lemma ChangesOfAppend(outbox: seq<Event>, e: Event, wallet: Uuid)
    ensures ChangesOf(outbox + [e], wallet) == ChangesOf(outbox, wallet) + (if ChangedFor(e, wallet) then [e] else [])
  {
    assert (outbox + [e])[..|outbox|] == outbox;
  }

  lemma CountsAppend(outbox: seq<Event>, e: Event, id: Uuid)
    ensures CountProcessed(outbox + [e], id) == CountProcessed(outbox, id) + (if ProcessedFor(e, id) then 1 else 0)
    ensures CountRejected(outbox + [e], id) == CountRejected(outbox, id) + (if RejectedFor(e, id) then 1 else 0)
  {
    assert (outbox + [e])[..|outbox|] == outbox;
  }

  lemma ChainedAppend(es: seq<Entry>, e: Entry)
    requires Chained(es) && e.before.cents == Closing(es)
    ensures Chained(es + [e]) && Closing(es + [e]) == e.after.cents
  {
    var fs := es + [e];
    forall i | 0 <= i < |fs|
      ensures fs[i].before.cents == Closing(fs[..i])
    {
      assert fs[..i] == es[..i];
      if i == |es| {
        assert es[..i] == es;
      }
    }
  }

  lemma NonOpeningAppend(wagers: map<Uuid, WagerRow>, es: seq<Entry>, e: Entry)
    requires !IsOpening(wagers, e)
    ensures NonOpening(wagers, es + [e]) == NonOpening(wagers, es) + 1
  {
    assert (es + [e])[..|es|] == es;
  }

  /** One more movement extends the chain, the balance and the version together. */
  lemma ExtendLedger(wagers: map<Uuid, WagerRow>, wallet: Wallet, es: seq<Entry>, e: Entry, balance: Money, at: Time)
    requires WalletLedgerOk(wagers, wallet, es) && !IsOpening(wagers, e)
    requires e.before == wallet.balance && e.after == balance && wallet.updatedAt <= e.createdAt == at
    ensures WalletLedgerOk(wagers, wallet.(balance := balance, version := wallet.version + 1, updatedAt := at), es + [e])
  {
    ChainedAppend(es, e);
    NonOpeningAppend(wagers, es, e);
  }

  /** Old entries keep their transactions' terms. */
  lemma OldEntriesStay(a: map<Uuid, WagerRow>, b: map<Uuid, WagerRow>, wallet: Wallet, ledger: seq<Entry>, w: Uuid)
    requires forall i :: 0 <= i < |ledger| ==> ledger[i].transactionId in a
    requires forall id :: id in a ==> id in b && b[id].wager.terms == a[id].wager.terms
    requires WalletLedgerOk(a, wallet, EntriesOf(ledger, w))
    ensures WalletLedgerOk(b, wallet, EntriesOf(ledger, w))
  {
    var es := EntriesOf(ledger, w);
    EntriesAreInLedger(ledger, w);
    forall i | 0 <= i < |es|
      ensures IsOpening(a, es[i]) <==> IsOpening(b, es[i])
    {
      assert es[i] in ledger;
    }
    NonOpeningFrame(a, b, es);
  }

  lemma EntriesHaveRows(wagers: map<Uuid, WagerRow>, ledger: seq<Entry>)
    requires LedgerMatches(wagers, ledger)
    ensures forall i :: 0 <= i < |ledger| ==> ledger[i].transactionId in wagers
  {
    forall i | 0 <= i < |ledger|
      ensures ledger[i].transactionId in wagers
    {
      assert EntryOk(wagers, ledger[i]);
    }
  }

  lemma TermsStay(db: Db, wr: Writes, ids: Ids)
    requires LawfulEffect(db, wr, ids)
    ensures var d := Commit(db, wr);
            forall id :: id in db.wagers ==> id in d.wagers && d.wagers[id].wager.terms == db.wagers[id].wager.terms
  {
  }

  lemma KeepsOneLedger(db: Db, wr: Writes, ids: Ids, w: Uuid)
    requires LawfulEffect(db, wr, ids) && forall i :: 0 <= i < |db.ledger| ==> db.ledger[i].transactionId in db.wagers
    requires w in db.wallets && WalletLedgerOk(db.wagers, db.wallets[w], EntriesOf(db.ledger, w))
    ensures var d := Commit(db, wr);
            WalletLedgerOk(d.wagers, d.wallets[w], EntriesOf(d.ledger, w))
  {
    hide EntriesOf, WalletLedgerOk;
    var d := Commit(db, wr);
    TermsStay(db, wr, ids);
    OldEntriesStay(db.wagers, d.wagers, db.wallets[w], db.ledger, w);
    if Moves(wr.row.wager) {
      AppendedMovement(db.wallets[wr.row.wager.terms.walletId], wr, ids, d.wagers, db.wallets[w], db.ledger, w);
    }
  }

  /** The wallet that moved gets one more entry; every other wallet's entries are as before. */
  lemma AppendedMovement(
    was: Wallet, wr: Writes, ids: Ids, wagers: map<Uuid, WagerRow>, wallet: Wallet, ledger: seq<Entry>, w: Uuid)
    requires LawfulMovement(wr, was, ids) && wr.row.wager.terms.kind.IsExternal()
    requires wr.row.wager.terms.id in wagers && wagers[wr.row.wager.terms.id] == wr.row
    requires WalletLedgerOk(wagers, wallet, EntriesOf(ledger, w))
    requires w == wr.row.wager.terms.walletId ==> wallet == was
    ensures WalletLedgerOk(wagers, if w == wr.row.wager.terms.walletId then wr.wallet.value else wallet,
                           EntriesOf(ledger + [wr.entry.value], w))
  {
    hide EntriesOf, WalletLedgerOk;
    var row, e := wr.row.wager, wr.entry.value;
    EntriesOfAppend(ledger, e, w);
    if w == row.terms.walletId {
      ExtendLedger(wagers, wallet, EntriesOf(ledger, w), e, row.after.value, row.updatedAt);
    } else {
      assert EntriesOf(ledger, w) + [] == EntriesOf(ledger, w);
    }
  }

  lemma KeepsLedgers(db: Db, wr: Writes, ids: Ids)
    requires LedgerMatches(db.wagers, db.ledger) && LedgersOk(db) && LawfulEffect(db, wr, ids)
    ensures LedgersOk(Commit(db, wr))
  {
    var d := Commit(db, wr);
    EntriesHaveRows(db.wagers, db.ledger);
    forall w | w in d.wallets
      ensures WalletLedgerOk(d.wagers, d.wallets[w], EntriesOf(d.ledger, w))
    {
      KeepsOneLedger(db, wr, ids, w);
    }
  }

  lemma {:induction false} CountsConcat(a: seq<Event>, b: seq<Event>, id: Uuid)
    ensures CountProcessed(a + b, id) == CountProcessed(a, id) + CountProcessed(b, id)
    ensures CountRejected(a + b, id) == CountRejected(a, id) + CountRejected(b, id)
  {
    if b == [] {
      assert a + b == a;
    } else {
      var init, last := b[..|b| - 1], b[|b| - 1];
      CountsConcat(a, init, id);
      CountsAppend(a + init, last, id);
      assert a + b == (a + init) + [last];
    }
  }

  lemma {:induction false} ChangesConcat(a: seq<Event>, b: seq<Event>, wallet: Uuid)
    ensures ChangesOf(a + b, wallet) == ChangesOf(a, wallet) + ChangesOf(b, wallet)
  {
    if b == [] {
      assert a + b == a;
    } else {
      var init, last := b[..|b| - 1], b[|b| - 1];
      ChangesConcat(a, init, wallet);
      ChangesOfAppend(a + init, last, wallet);
      assert a + b == (a + init) + [last];
    }
  }

  lemma KeepsEventCounts(db: Db, wr: Writes, ids: Ids)
    requires EventCountsOk(db.wagers, db.outbox) && LawfulEffect(db, wr, ids)
    ensures EventCountsOk(Commit(db, wr).wagers, Commit(db, wr).outbox)
  {
    var d := Commit(db, wr);
    var w := wr.row.wager;
    forall id: Uuid
      ensures CountProcessed(d.outbox, id) == if Has(d.wagers, id, Processed) then 1 else 0
      ensures CountRejected(d.outbox, id) == if Has(d.wagers, id, Rejected) then 1 else 0
    {
      CountsConcat(db.outbox, wr.events, id);
      assert CountProcessed(db.outbox, id) == if Has(db.wagers, id, Processed) then 1 else 0;
      assert CountRejected(db.outbox, id) == if Has(db.wagers, id, Rejected) then 1 else 0;
      EventsOfLawful(db, wr, ids, id);
    }
  }

  lemma EventsOfLawful(db: Db, wr: Writes, ids: Ids, id: Uuid)
    requires LawfulEffect(db, wr, ids)
    ensures var w := wr.row.wager;
            |wr.events| <= 2
            && CountProcessed(wr.events, id) == (if id == w.terms.id && w.status.Processed? then 1 else 0)
            && CountRejected(wr.events, id) == (if id == w.terms.id && w.status.Rejected? then 1 else 0)
  {
    hide EntryFor, RefOk, HasReversal, Replaces, HealthyWallet, Owns;
    if wr.events != [] {
      CountsOfPair(wr.events, id);
    }
  }

  lemma CountsOfPair(evs: seq<Event>, id: Uuid)
    requires 1 <= |evs| <= 2
    ensures CountProcessed(evs, id) ==
            (if ProcessedFor(evs[0], id) then 1 else 0) + (if |evs| == 2 && ProcessedFor(evs[1], id) then 1 else 0)
    ensures CountRejected(evs, id) ==
            (if RejectedFor(evs[0], id) then 1 else 0) + (if |evs| == 2 && RejectedFor(evs[1], id) then 1 else 0)
  {
    CountsAppend([], evs[0], id);
    if |evs| == 2 {
      assert evs == ([] + [evs[0]]) + [evs[1]];
      CountsAppend([] + [evs[0]], evs[1], id);
    } else {
      assert evs == [] + [evs[0]];
    }
  }

  /** One movement adds one entry and one event that repeats it. */
  lemma ExtendMirror(was: Wallet, wallet: Wallet, es: seq<Entry>, evs: seq<Event>, e: Entry, ev: Event)
    requires Mirrors(was, es, evs)
    requires wallet.id == was.id && wallet.playerId == was.playerId && wallet.version == was.version + 1
    requires ev.data == BalanceChangedEventData(wallet, e)
    ensures Mirrors(wallet, es + [e], evs + [ev])
  {
  }

  lemma ChangesOfPair(evs: seq<Event>, w: Uuid)
    requires 1 <= |evs| <= 2 && !evs[0].data.BalanceChangedData?
    ensures ChangesOf(evs, w) == if |evs| == 2 && ChangedFor(evs[1], w) then [evs[1]] else []
  {
    assert ChangesOf([], w) == [];
    ChangesOfAppend([], evs[0], w);
    if |evs| == 2 {
      assert evs == ([] + [evs[0]]) + [evs[1]];
      ChangesOfAppend([] + [evs[0]], evs[1], w);
    } else {
      assert evs == [] + [evs[0]];
    }
  }

  /** Only a movement of the wallet appends a balance event for it. */
  lemma ChangesOfLawful(db: Db, wr: Writes, ids: Ids, w: Uuid)
    requires LawfulEffect(db, wr, ids)
    ensures ChangesOf(wr.events, w) ==
            if Moves(wr.row.wager) && w == wr.row.wager.terms.walletId then [wr.events[1]] else []
  {
    if wr.events != [] {
      ChangesOfPair(wr.events, w);
    }
  }

  lemma KeepsOneMirror(db: Db, wr: Writes, ids: Ids, w: Uuid)
    requires WalletsOk(db) && LawfulEffect(db, wr, ids) && w in db.wallets
    requires Mirrors(db.wallets[w], EntriesOf(db.ledger, w), ChangesOf(db.outbox, w))
    ensures var d := Commit(db, wr); Mirrors(d.wallets[w], EntriesOf(d.ledger, w), ChangesOf(d.outbox, w))
  {
    hide EntriesOf, ChangesOf, Mirrors;
    ChangesConcat(db.outbox, wr.events, w);
    ChangesOfLawful(db, wr, ids, w);
    var es, evs := EntriesOf(db.ledger, w), ChangesOf(db.outbox, w);
    assert evs + [] == evs && es + [] == es;
    if Moves(wr.row.wager) {
      EntriesOfAppend(db.ledger, wr.entry.value, w);
      if w == wr.row.wager.terms.walletId {
        ExtendMirror(db.wallets[w], wr.wallet.value, es, evs, wr.entry.value, wr.events[1]);
      }
    }
  }

  lemma KeepsMirrors(db: Db, wr: Writes, ids: Ids)
    requires MirrorsOk(db) && WalletsOk(db) && LawfulEffect(db, wr, ids)
    ensures MirrorsOk(Commit(db, wr))
  {
    var d := Commit(db, wr);
    forall w | w in d.wallets
      ensures Mirrors(d.wallets[w], EntriesOf(d.ledger, w), ChangesOf(d.outbox, w))
    {
      KeepsOneMirror(db, wr, ids, w);
    }
  }

  lemma KeepsEventIds(db: Db, wr: Writes, ids: Ids)
    requires EventIdsOk(db.outbox) && LawfulEffect(db, wr, ids) && FreshIds(db, ids)
    ensures EventIdsOk(Commit(db, wr).outbox)
  {
  }

  lemma KeepsChangesKnown(db: Db, wr: Writes, ids: Ids)
    requires ChangesKnown(db) && LawfulEffect(db, wr, ids)
    ensures ChangesKnown(Commit(db, wr))
  {
  }

  /** Any lawful writes with fresh identifiers lead from a good database to a good database. */
  lemma CommitKeepsInv(db: Db, wr: Writes, ids: Ids)
    requires Inv(db) && Lawful(db, wr, ids) && FreshIds(db, ids)
    ensures Inv(Commit(db, wr))
  {
    KeepsRows(db, wr, ids);
    KeepsIndex(db, wr, ids);
    KeepsWallets(db, wr, ids);
    KeepsReferences(db, wr, ids);
    KeepsOneReversal(db, wr, ids);
    KeepsLedgerMatch(db, wr, ids);
    KeepsLedgers(db, wr, ids);
    KeepsEventCounts(db, wr, ids);
    KeepsMirrors(db, wr, ids);
    KeepsChangesKnown(db, wr, ids);
    KeepsEventIds(db, wr, ids);
  }
}
