/** Opening a wallet keeps the invariant, with and without an initial balance. */
module EngineOpening {
  import opened Basics
  import opened Money
  import opened MoneyText
  import opened Wagers
  import opened Wallets
  import opened Engine
  import opened EngineInvariant
  import opened EnginePreservation

  /** Nothing mentions a wallet that does not exist. */
  lemma {:induction false} NoEntriesYet(wallets: map<Uuid, Wallet>, wagers: map<Uuid, WagerRow>, ledger: seq<Entry>, w: Uuid)
    requires w !in wallets
    requires forall i :: 0 <= i < |ledger| ==> ledger[i].walletId in wallets
    ensures EntriesOf(ledger, w) == []
  {
    if ledger != [] { NoEntriesYet(wallets, wagers, ledger[..|ledger| - 1], w); }
  }

  lemma {:induction false} NoChangesYet(wallets: map<Uuid, Wallet>, outbox: seq<Event>, w: Uuid)
    requires w !in wallets
    requires forall i :: 0 <= i < |outbox| && outbox[i].data.BalanceChangedData? ==> outbox[i].data.walletId in wallets
    ensures ChangesOf(outbox, w) == []
  {
    if outbox != [] { NoChangesYet(wallets, outbox[..|outbox| - 1], w); }
  }

  lemma EntryWalletsExist(db: Db)
    requires WalletsOk(db) && LedgerMatches(db.wagers, db.ledger)
    ensures forall i :: 0 <= i < |db.ledger| ==> db.ledger[i].walletId in db.wallets && db.ledger[i].transactionId in db.wagers
  {
    forall i | 0 <= i < |db.ledger|
      ensures db.ledger[i].walletId in db.wallets && db.ledger[i].transactionId in db.wagers
    {
      assert EntryOk(db.wagers, db.ledger[i]);
    }
  }

  /** The histories of a wallet that did not exist are empty. */
  lemma NoHistoryYet(db: Db, w: Uuid)
    requires WalletsOk(db) && LedgerMatches(db.wagers, db.ledger) && ChangesKnown(db) && w !in db.wallets
    ensures EntriesOf(db.ledger, w) == [] && ChangesOf(db.outbox, w) == []
  {
    EntryWalletsExist(db);
    NoEntriesYet(db.wallets, db.wagers, db.ledger, w);
    NoChangesYet(db.wallets, db.outbox, w);
  }

  lemma EmptyWalletHistories(db: Db, wallet: Wallet)
    requires LedgersOk(db) && MirrorsOk(db)
    requires EntriesOf(db.ledger, wallet.id) == [] && ChangesOf(db.outbox, wallet.id) == []
    requires wallet.balance.cents == 0 && wallet.version == INITIAL_VERSION
    ensures var d := db.(wallets := db.wallets[wallet.id := wallet]); LedgersOk(d) && MirrorsOk(d)
  {
  }

  lemma EmptyWalletWallets(db: Db, wallet: Wallet)
    requires WalletsOk(db) && wallet.id !in db.wallets && HealthyWallet(wallet)
    ensures WalletsOk(db.(wallets := db.wallets[wallet.id := wallet]))
  {
  }

  /** A wallet opened with 0.00 has no records but its own row. */
  lemma EmptyWalletKeepsInv(db: Db, wallet: Wallet)
    requires Inv(db) && wallet.id !in db.wallets && HealthyWallet(wallet)
    requires wallet.balance.cents == 0 && wallet.version == INITIAL_VERSION
    ensures Inv(db.(wallets := db.wallets[wallet.id := wallet]))
  {
    NoHistoryYet(db, wallet.id);
    EmptyWalletHistories(db, wallet);
    EmptyWalletWallets(db, wallet);
  }

  /** What createOpening adds to the tables. */
  predicate LawfulOpening(wallet: Wallet, opening: Wager, e: Entry, ev1: Event, ev2: Event) {
    && HealthyWallet(wallet) && wallet.balance.IsPositive() && wallet.version == INITIAL_VERSION
    && Stored(opening) && opening.terms.kind.Opening? && Moves(opening) && Owns(wallet, opening.terms)
    && opening.before == Some(Money(0, wallet.balance.currency)) && opening.after == Some(wallet.balance)
    && EntryFor(opening, e) && e.createdAt == wallet.updatedAt
    && ProcessedEventData(opening) == Ok(ev1.data) && ev2.data == BalanceChangedEventData(wallet, e)
  }

  function WithOpening(db: Db, wallet: Wallet, opening: Wager, e: Entry, ev1: Event, ev2: Event): Db {
    db.(wallets := db.wallets[wallet.id := wallet],
        wagers := db.wagers[opening.terms.id := WagerRow(opening, None)],
        ledger := db.ledger + [e],
        outbox := db.outbox + [ev1, ev2])
  }

  lemma OpeningKeepsRows(wagers: map<Uuid, WagerRow>, opening: Wager)
    requires RowsOk(wagers) && Stored(opening) && !opening.status.PendingReference?
    ensures RowsOk(wagers[opening.terms.id := WagerRow(opening, None)])
  {
  }

  lemma OpeningKeepsIndex(db: Db, wallet: Wallet, opening: Wager, e: Entry, ev1: Event, ev2: Event)
    requires IndexOk(db) && opening.terms.kind.Opening? && opening.terms.id !in db.wagers
    ensures IndexOk(WithOpening(db, wallet, opening, e, ev1, ev2))
  {
    OpeningKeepsIndexes(db.wagers, db.byExternal, db.byKey, opening);
  }

  /** An OPENING is not a provider transaction, so the indexes ignore it. */
  lemma OpeningKeepsIndexes(wagers: map<Uuid, WagerRow>, byExternal: map<(string, string), Uuid>,
                            byKey: map<(string, string), Uuid>, opening: Wager)
    requires ExternalIndexOk(wagers, byExternal) && KeyIndexOk(wagers, byKey)
    requires opening.terms.kind.Opening? && opening.terms.id !in wagers
    ensures var ws := wagers[opening.terms.id := WagerRow(opening, None)];
            ExternalIndexOk(ws, byExternal) && KeyIndexOk(ws, byKey)
  {
    hide ExternalKey, IdempotencyKey, Listed;
  }

  lemma OpeningKeepsWallets(db: Db, wallet: Wallet, opening: Wager, e: Entry, ev1: Event, ev2: Event)
    requires WalletsOk(db) && HealthyWallet(wallet) && Owns(wallet, opening.terms)
    requires wallet.id !in db.wallets && opening.terms.id !in db.wagers
    ensures WalletsOk(WithOpening(db, wallet, opening, e, ev1, ev2))
  {
  }

  lemma OpeningKeepsChangesKnown(db: Db, wallet: Wallet, opening: Wager, e: Entry, ev1: Event, ev2: Event)
    requires ChangesKnown(db) && ProcessedEventData(opening) == Ok(ev1.data) && ev2.data == BalanceChangedEventData(wallet, e)
    ensures ChangesKnown(WithOpening(db, wallet, opening, e, ev1, ev2))
  {
  }

  lemma OpeningKeepsReferences(wagers: map<Uuid, WagerRow>, opening: Wager)
    requires RefsOk(wagers) && OneReversal(wagers) && opening.terms.kind.Opening? && opening.referenceId == NIL_UUID
    requires opening.terms.id !in wagers
    ensures var ws := wagers[opening.terms.id := WagerRow(opening, None)]; RefsOk(ws) && OneReversal(ws)
  {
    var ws := wagers[opening.terms.id := WagerRow(opening, None)];
    forall id | id in ws
      ensures RefOk(ws, ws[id].wager)
    {
      if id != opening.terms.id { assert RefOk(wagers, wagers[id].wager); }
    }
  }

  lemma OpeningKeepsMatch(db: Db, wallet: Wallet, opening: Wager, e: Entry, ev1: Event, ev2: Event)
    requires LedgerMatches(db.wagers, db.ledger) && LawfulOpening(wallet, opening, e, ev1, ev2)
    requires opening.terms.id !in db.wagers && forall i :: 0 <= i < |db.ledger| ==> db.ledger[i].id != e.id
    ensures var d := WithOpening(db, wallet, opening, e, ev1, ev2); LedgerMatches(d.wagers, d.ledger)
  {
    var d := WithOpening(db, wallet, opening, e, ev1, ev2);
    forall i | 0 <= i < |d.ledger|
      ensures EntryOk(d.wagers, d.ledger[i]) && (i < |db.ledger| ==> d.ledger[i].transactionId != opening.terms.id)
    {
      if i < |db.ledger| { assert EntryOk(db.wagers, db.ledger[i]); }
    }
    forall id | id in d.wagers && Moves(d.wagers[id].wager)
      ensures HasEntry(d.ledger, id)
    {
      if id == opening.terms.id {
        assert d.ledger[|db.ledger|].transactionId == id;
      } else {
        assert HasEntry(db.ledger, id);
        var i :| 0 <= i < |db.ledger| && db.ledger[i].transactionId == id;
        assert d.ledger[i].transactionId == id;
      }
    }
  }

  lemma OpeningKeepsCounts(db: Db, wallet: Wallet, opening: Wager, e: Entry, ev1: Event, ev2: Event)
    requires EventCountsOk(db.wagers, db.outbox) && LawfulOpening(wallet, opening, e, ev1, ev2)
    requires opening.terms.id !in db.wagers
    ensures var d := WithOpening(db, wallet, opening, e, ev1, ev2); EventCountsOk(d.wagers, d.outbox)
  {
    hide Stored, HealthyWallet, EntryFor, Owns;
    var d := WithOpening(db, wallet, opening, e, ev1, ev2);
    forall id: Uuid
      ensures CountProcessed(d.outbox, id) == if Has(d.wagers, id, Processed) then 1 else 0
      ensures CountRejected(d.outbox, id) == if Has(d.wagers, id, Rejected) then 1 else 0
    {
      CountsConcat(db.outbox, [ev1, ev2], id);
      CountsOfPair([ev1, ev2], id);
      assert CountProcessed(db.outbox, id) == if Has(db.wagers, id, Processed) then 1 else 0;
      assert CountRejected(db.outbox, id) == if Has(db.wagers, id, Rejected) then 1 else 0;
    }
  }

  /** Histories after the opening: the new wallet's is the opening alone, every other one is unchanged. */
  lemma HistoriesAfterOpening(db: Db, wallet: Wallet, opening: Wager, e: Entry, ev1: Event, ev2: Event, w: Uuid)
    requires e.walletId == wallet.id
    requires ProcessedEventData(opening) == Ok(ev1.data) && ev2.data == BalanceChangedEventData(wallet, e)
    ensures EntriesOf(db.ledger + [e], w) == EntriesOf(db.ledger, w) + (if w == wallet.id then [e] else [])
    ensures ChangesOf(db.outbox + [ev1, ev2], w) == ChangesOf(db.outbox, w) + (if w == wallet.id then [ev2] else [])
  {
    EntriesOfAppend(db.ledger, e, w);
    ChangesConcat(db.outbox, [ev1, ev2], w);
    ChangesOfPair([ev1, ev2], w);
  }

  lemma OpeningKeepsLedgers(db: Db, wallet: Wallet, opening: Wager, e: Entry, ev1: Event, ev2: Event)
    requires LedgersOk(db) && LawfulOpening(wallet, opening, e, ev1, ev2) && opening.terms.id !in db.wagers
    requires EntriesOf(db.ledger, wallet.id) == []
    requires forall i :: 0 <= i < |db.ledger| ==> db.ledger[i].transactionId in db.wagers
    ensures LedgersOk(WithOpening(db, wallet, opening, e, ev1, ev2))
  {
    var d := WithOpening(db, wallet, opening, e, ev1, ev2);
    forall w | w in d.wallets
      ensures WalletLedgerOk(d.wagers, d.wallets[w], EntriesOf(d.ledger, w))
    {
      HistoriesAfterOpening(db, wallet, opening, e, ev1, ev2, w);
      if w == wallet.id {
        assert EntriesOf(d.ledger, w) == [e];
        FirstEntry(d.wagers, wallet, opening, e);
      } else {
        assert EntriesOf(d.ledger, w) == EntriesOf(db.ledger, w);
        OldEntriesStay(db.wagers, d.wagers, db.wallets[w], db.ledger, w);
      }
    }
  }

  lemma OpeningKeepsMirrors(db: Db, wallet: Wallet, opening: Wager, e: Entry, ev1: Event, ev2: Event)
    requires MirrorsOk(db) && e.walletId == wallet.id
    requires ProcessedEventData(opening) == Ok(ev1.data) && ev2.data == BalanceChangedEventData(wallet, e)
    requires EntriesOf(db.ledger, wallet.id) == [] && ChangesOf(db.outbox, wallet.id) == []
    ensures MirrorsOk(WithOpening(db, wallet, opening, e, ev1, ev2))
  {
    var d := WithOpening(db, wallet, opening, e, ev1, ev2);
    forall w | w in d.wallets
      ensures Mirrors(d.wallets[w], EntriesOf(d.ledger, w), ChangesOf(d.outbox, w))
    {
      HistoriesAfterOpening(db, wallet, opening, e, ev1, ev2, w);
      if w == wallet.id {
        assert EntriesOf(d.ledger, w) == [e] && ChangesOf(d.outbox, w) == [ev2];
        FirstMirror(wallet, e, ev2);
      } else {
        assert EntriesOf(d.ledger, w) == EntriesOf(db.ledger, w) && ChangesOf(d.outbox, w) == ChangesOf(db.outbox, w);
        assert Mirrors(db.wallets[w], EntriesOf(db.ledger, w), ChangesOf(db.outbox, w));
      }
    }
  }

  lemma FirstMirror(wallet: Wallet, e: Entry, ev: Event)
    requires ev.data == BalanceChangedEventData(wallet, e)
    ensures Mirrors(wallet, [e], [ev])
  {
    assert wallet.(version := wallet.version - 1 + 1 + 0) == wallet;
  }

  lemma OpeningKeepsEventIds(db: Db, ids: Ids, ev1: Event, ev2: Event)
    requires EventIdsOk(db.outbox) && FreshIds(db, ids) && ev1.eventId == ids.event1 && ev2.eventId == ids.event2
    ensures EventIdsOk(db.outbox + [ev1, ev2])
  {
  }

  lemma FirstEntry(wagers: map<Uuid, WagerRow>, wallet: Wallet, opening: Wager, e: Entry)
    requires opening.terms.id in wagers && wagers[opening.terms.id].wager == opening && opening.terms.kind.Opening?
    requires EntryFor(opening, e) && opening.before.value.cents == 0 && opening.after == Some(wallet.balance)
    requires wallet.version == INITIAL_VERSION && e.createdAt == wallet.updatedAt
    requires opening.before.Some?
    ensures WalletLedgerOk(wagers, wallet, [e])
  {
    assert [e][..0] == [];
    assert NonOpening(wagers, []) == 0;
    assert NonOpening(wagers, [e]) == NonOpening(wagers, [e][..0]);
  }

  lemma OpeningKeepsInv(db: Db, wallet: Wallet, opening: Wager, e: Entry, ev1: Event, ev2: Event, ids: Ids)
    requires Inv(db) && LawfulOpening(wallet, opening, e, ev1, ev2) && FreshIds(db, ids)
    requires wallet.id !in db.wallets && opening.terms.id !in db.wagers
    requires e.id == ids.entry && ev1.eventId == ids.event1 && ev2.eventId == ids.event2
    ensures Inv(WithOpening(db, wallet, opening, e, ev1, ev2))
  {
    NoHistoryYet(db, wallet.id);
    EntryWalletsExist(db);
    OpeningKeepsRows(db.wagers, opening);
    OpeningKeepsIndex(db, wallet, opening, e, ev1, ev2);
    OpeningKeepsWallets(db, wallet, opening, e, ev1, ev2);
    OpeningKeepsChangesKnown(db, wallet, opening, e, ev1, ev2);
    OpeningKeepsReferences(db.wagers, opening);
    OpeningKeepsMatch(db, wallet, opening, e, ev1, ev2);
    OpeningKeepsLedgers(db, wallet, opening, e, ev1, ev2);
    OpeningKeepsCounts(db, wallet, opening, e, ev1, ev2);
    OpeningKeepsMirrors(db, wallet, opening, e, ev1, ev2);
    OpeningKeepsEventIds(db, ids, ev1, ev2);
  }

  /** The records createOpening builds for a wallet with a positive balance are lawful. */
  lemma OpeningIsLawful(db: Db, wallet: Wallet, openingId: Uuid, x: Context)
    requires HealthyWallet(wallet) && wallet.balance.IsPositive() && wallet.version == INITIAL_VERSION
    requires wallet.updatedAt == x.now && ZERO_TIME < x.now
    requires CreateOpening(db, wallet, openingId, x).Ok?
    ensures exists opening, e, ev1, ev2 ::
              && LawfulOpening(wallet, opening, e, ev1, ev2) && opening.terms.id == openingId
              && e.id == x.ids.entry && ev1.eventId == x.ids.event1 && ev2.eventId == x.ids.event2
              && openingId !in db.wagers && wallet.id == opening.terms.walletId
              && CreateOpening(db, wallet, openingId, x).value ==
                 db.(wagers := db.wagers[openingId := WagerRow(opening, None)],
                     ledger := db.ledger + [e], outbox := db.outbox + [ev1, ev2])
  {
    var opening := NewOpening(openingId, wallet.id, wallet.playerId, wallet.balance, x.now).value;
    var zero := Zero(wallet.balance.currency).value;
    var e := BuildEntry(x.ids.entry, wallet.id, openingId, Credit, wallet.balance, zero, wallet.balance, x.now).value;
    var ev1 := Event(x.ids.event1, x.metadata, x.now, ProcessedEventData(opening).value);
    var ev2 := Event(x.ids.event2, x.metadata, x.now, BalanceChangedEventData(wallet, e));
    assert Stored(opening);
    assert LawfulOpening(wallet, opening, e, ev1, ev2);
  }

  /** WalletService.Create, whenever it succeeds, keeps the invariant and adds one healthy wallet. */
  lemma CreateWalletKeepsInv(db: Db, c: OpenWallet, walletId: Uuid, openingId: Uuid, x: Context)
    requires Inv(db) && FreshIds(db, x.ids) && ZERO_TIME < x.now
    requires CreateWallet(db, c, walletId, openingId, x).Ok?
    ensures Inv(CreateWallet(db, c, walletId, openingId, x).value)
  {
    var initial := ParseMoney(c.initialBalance, c.currency).value;
    var wallet := NewWallet(walletId, c.playerId, initial, x.now).value;
    if initial.IsZero() {
      EmptyWalletKeepsInv(db, wallet);
    } else {
      var mid := db.(wallets := db.wallets[walletId := wallet]);
      OpeningIsLawful(mid, wallet, openingId, x);
      var opening, e, ev1, ev2 :|
        && LawfulOpening(wallet, opening, e, ev1, ev2) && opening.terms.id == openingId
        && e.id == x.ids.entry && ev1.eventId == x.ids.event1 && ev2.eventId == x.ids.event2
        && openingId !in mid.wagers && wallet.id == opening.terms.walletId
        && CreateOpening(mid, wallet, openingId, x).value ==
           mid.(wagers := mid.wagers[openingId := WagerRow(opening, None)],
                ledger := mid.ledger + [e], outbox := mid.outbox + [ev1, ev2]);
      OpeningKeepsInv(db, wallet, opening, e, ev1, ev2, x.ids);
      assert CreateWallet(db, c, walletId, openingId, x).value == WithOpening(db, wallet, opening, e, ev1, ev2);
    }
  }
}
