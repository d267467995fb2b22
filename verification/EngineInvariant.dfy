/**
 What every committed state of the database satisfies, and the contract that the writes of
 one use case have to meet to keep it that way.
 */
module EngineInvariant {
  import opened Basics
  import opened Wagers
  import opened WagerLife
  import opened Wallets
  import opened Engine
  import opened Bookkeeping

  // ----- stored transactions -----

  /** The cents a processed transaction adds to its wallet. */
  function Movement(w: Wager): int {
    var a := w.terms.amount.cents;
    match w.terms.kind
    case Bet => -a
    case Loss => 0
    case Rollback => if w.referenceKind == Some(Bet) then a else -a
    case _ => a
  }

  predicate Moves(w: Wager) { w.status.Processed? && !w.terms.kind.Loss? }

  /** A row as it may be committed: never PENDING, and with the financial result of its kind. */
  predicate Stored(w: Wager) {
    && Sound(w) && !w.status.Pending?
    && (w.terms.kind.IsExternal() ==> ValidateExternal(w.terms).Pass?)
    && Clean(w.terms)
    && (w.status.Processed? ==> w.before.value.IsValid() && w.after.value.IsValid()
                                && w.after.value.cents == w.before.value.cents + Movement(w))
  }

  predicate RowOk(id: Uuid, row: WagerRow) {
    && row.wager.terms.id == id && Stored(row.wager)
    && (row.retry.Some? <==> row.wager.status.PendingReference?)
  }

  predicate RowsOk(wagers: map<Uuid, WagerRow>) {
    forall id {:trigger RowOk(id, wagers[id])} :: id in wagers ==> RowOk(id, wagers[id])
  }

  predicate Listed(index: map<(string, string), Uuid>, key: (string, string), id: Uuid) {
    key in index && index[key] == id
  }

  predicate ExternalIndexOk(wagers: map<Uuid, WagerRow>, index: map<(string, string), Uuid>) {
    && (forall id :: id in wagers && wagers[id].wager.terms.kind.IsExternal() ==>
          Listed(index, ExternalKey(wagers[id].wager.terms), id))
    && (forall k :: k in index ==>
          && index[k] in wagers && wagers[index[k]].wager.terms.kind.IsExternal()
          && ExternalKey(wagers[index[k]].wager.terms) == k)
  }

  predicate KeyIndexOk(wagers: map<Uuid, WagerRow>, index: map<(string, string), Uuid>) {
    && (forall id :: id in wagers && wagers[id].wager.terms.kind.IsExternal() ==>
          Listed(index, IdempotencyKey(wagers[id].wager.terms), id))
    && (forall k :: k in index ==>
          && index[k] in wagers && wagers[index[k]].wager.terms.kind.IsExternal()
          && IdempotencyKey(wagers[index[k]].wager.terms) == k)
  }

  /** The unique indexes hold exactly the provider transactions. */
  predicate IndexOk(db: Db) {
    ExternalIndexOk(db.wagers, db.byExternal) && KeyIndexOk(db.wagers, db.byKey)
  }

  /** Transaction and wallet agree on owner and currency: what lockWallet demands. */
  predicate Owns(wallet: Wallet, t: Terms) {
    wallet.id == t.walletId && wallet.playerId == t.playerId && wallet.balance.currency == t.amount.currency
  }

  predicate WalletsOk(db: Db) {
    && (forall w :: w in db.wallets ==> db.wallets[w].id == w && HealthyWallet(db.wallets[w]))
    && (forall id :: id in db.wagers ==>
          var t := db.wagers[id].wager.terms; t.walletId in db.wallets && Owns(db.wallets[t.walletId], t))
  }

  // ----- references -----

  /** `w` resolved its reference to `r`. */
  predicate Refers(w: Wager, r: Wager) {
    && r.status.Processed? && w.referenceId == r.terms.id && w.referenceKind == Some(r.terms.kind)
    && AllowedReferenceKind(w.terms.kind, r.terms.kind)
    && w.terms.walletId == r.terms.walletId && w.terms.referenceExternalId == r.terms.externalId
    && w.terms.providerId == r.terms.providerId && w.terms.roundId == r.terms.roundId
    && (w.terms.kind.RequiresReference() ==> w.terms.amount == r.terms.amount)
  }

  predicate RefOk(wagers: map<Uuid, WagerRow>, w: Wager) {
    w.referenceId != NIL_UUID ==> w.referenceId in wagers && Refers(w, wagers[w.referenceId].wager)
  }

  predicate RefsOk(wagers: map<Uuid, WagerRow>) {
    forall id {:trigger RefOk(wagers, wagers[id].wager)} :: id in wagers ==> RefOk(wagers, wagers[id].wager)
  }

  /** No transaction has two processed direct reversals. */
  predicate OneReversal(wagers: map<Uuid, WagerRow>) {
    forall a, b :: a in wagers && b in wagers && IsReversal(wagers[a].wager) && IsReversal(wagers[b].wager) ==>
      wagers[a].wager.referenceId == wagers[b].wager.referenceId ==> a == b
  }

  // ----- ledger -----

  /** The entries of one wallet in commit order. */
  function EntriesOf(ledger: seq<Entry>, wallet: Uuid): seq<Entry> {
    if ledger == [] then [] else
      var e := ledger[|ledger| - 1];
      EntriesOf(ledger[..|ledger| - 1], wallet) + (if e.walletId == wallet then [e] else [])
  }

  function Closing(es: seq<Entry>): int {
    if es == [] then 0 else es[|es| - 1].after.cents
  }

  /** Each balance before is the previous balance after, starting from 0. */
  predicate Chained(es: seq<Entry>) {
    forall i :: 0 <= i < |es| ==> es[i].before.cents == Closing(es[..i])
  }

  /** The entry records the movement of the processed transaction `w`. */
  predicate EntryFor(w: Wager, e: Entry) {
    && e.walletId == w.terms.walletId && e.transactionId == w.terms.id && e.amount == w.terms.amount
    && Signed(e.direction, e.amount.cents) == Movement(w)
    && w.before == Some(e.before) && w.after == Some(e.after) && e.createdAt == w.updatedAt
  }

  predicate EntryOk(wagers: map<Uuid, WagerRow>, e: Entry) {
    e.transactionId in wagers && Moves(wagers[e.transactionId].wager) && EntryFor(wagers[e.transactionId].wager, e)
  }

  predicate HasEntry(ledger: seq<Entry>, id: Uuid) {
    exists i :: 0 <= i < |ledger| && ledger[i].transactionId == id
  }

  /** Entries and money-moving transactions correspond one to one. */
  predicate LedgerMatches(wagers: map<Uuid, WagerRow>, ledger: seq<Entry>) {
    && (forall i {:trigger EntryOk(wagers, ledger[i])} :: 0 <= i < |ledger| ==> EntryOk(wagers, ledger[i]))
    && (forall i, j :: 0 <= i < j < |ledger| ==>
          ledger[i].transactionId != ledger[j].transactionId && ledger[i].id != ledger[j].id)
    && (forall id :: id in wagers && Moves(wagers[id].wager) ==> HasEntry(ledger, id))
  }

  predicate IsOpening(wagers: map<Uuid, WagerRow>, e: Entry) {
    e.transactionId in wagers && wagers[e.transactionId].wager.terms.kind.Opening?
  }

  function NonOpening(wagers: map<Uuid, WagerRow>, es: seq<Entry>): nat {
    if es == [] then 0 else
      NonOpening(wagers, es[..|es| - 1]) + (if IsOpening(wagers, es[|es| - 1]) then 0 else 1)
  }

  /** One wallet's ledger is a chain from 0 to its balance, and its version counts the movements. */
  predicate WalletLedgerOk(wagers: map<Uuid, WagerRow>, wallet: Wallet, es: seq<Entry>) {
    && Chained(es) && Closing(es) == wallet.balance.cents
    && wallet.version == 1 + NonOpening(wagers, es)
    && (forall i :: 0 < i < |es| ==> !IsOpening(wagers, es[i]))
    && (forall i :: 0 < i < |es| ==> es[i - 1].createdAt <= es[i].createdAt)
    && (es != [] ==> es[|es| - 1].createdAt <= wallet.updatedAt)
  }

  predicate LedgersOk(db: Db) {
    forall w {:trigger EntriesOf(db.ledger, w)} :: w in db.wallets ==> WalletLedgerOk(db.wagers, db.wallets[w], EntriesOf(db.ledger, w))
  }

  // ----- outbox -----

  predicate ProcessedFor(e: Event, id: Uuid) { e.data.ProcessedData? && e.data.subject.transactionId == id }

  predicate RejectedFor(e: Event, id: Uuid) { e.data.RejectedData? && e.data.subject.transactionId == id }

  function CountProcessed(outbox: seq<Event>, id: Uuid): nat {
    if outbox == [] then 0 else
      CountProcessed(outbox[..|outbox| - 1], id) + (if ProcessedFor(outbox[|outbox| - 1], id) then 1 else 0)
  }

  function CountRejected(outbox: seq<Event>, id: Uuid): nat {
    if outbox == [] then 0 else
      CountRejected(outbox[..|outbox| - 1], id) + (if RejectedFor(outbox[|outbox| - 1], id) then 1 else 0)
  }

  predicate Has(wagers: map<Uuid, WagerRow>, id: Uuid, status: Status) {
    id in wagers && wagers[id].wager.status == status
  }

  /** PROCESSED has one processed event, REJECTED one rejected event, every other state neither. */
  ghost predicate EventCountsOk(wagers: map<Uuid, WagerRow>, outbox: seq<Event>) {
    && (forall id :: CountProcessed(outbox, id) == if Has(wagers, id, Processed) then 1 else 0)
    && (forall id :: CountRejected(outbox, id) == if Has(wagers, id, Rejected) then 1 else 0)
  }

  predicate ChangedFor(e: Event, wallet: Uuid) { e.data.BalanceChangedData? && e.data.walletId == wallet }

  /** The WalletBalanceChanged events of one wallet in commit order. */
  function ChangesOf(outbox: seq<Event>, wallet: Uuid): seq<Event> {
    if outbox == [] then [] else
      var e := outbox[|outbox| - 1];
      ChangesOf(outbox[..|outbox| - 1], wallet) + (if ChangedFor(e, wallet) then [e] else [])
  }

  /** The events repeat the entries, numbered up to the wallet's version. */
  predicate Mirrors(wallet: Wallet, es: seq<Entry>, evs: seq<Event>) {
    && |es| == |evs|
    && forall i :: 0 <= i < |es| ==>
         evs[i].data == BalanceChangedEventData(wallet.(version := wallet.version - |es| + 1 + i), es[i])
  }

  predicate MirrorsOk(db: Db) {
    forall w {:trigger ChangesOf(db.outbox, w)} :: w in db.wallets ==> Mirrors(db.wallets[w], EntriesOf(db.ledger, w), ChangesOf(db.outbox, w))
  }

  predicate ChangesKnown(db: Db) {
    forall i :: 0 <= i < |db.outbox| && db.outbox[i].data.BalanceChangedData? ==> db.outbox[i].data.walletId in db.wallets
  }

  predicate EventIdsOk(outbox: seq<Event>) {
    forall i, j :: 0 <= i < j < |outbox| ==> outbox[i].eventId != outbox[j].eventId
  }

  // ----- the invariant -----

  ghost predicate Inv(db: Db) {
    && RowsOk(db.wagers) && IndexOk(db) && WalletsOk(db)
    && RefsOk(db.wagers) && OneReversal(db.wagers)
    && LedgerMatches(db.wagers, db.ledger) && LedgersOk(db)
    && EventCountsOk(db.wagers, db.outbox) && MirrorsOk(db) && ChangesKnown(db) && EventIdsOk(db.outbox)
  }

  // ----- lawful writes -----

  /** The identifiers are new to the tables. */
  predicate FreshIds(db: Db, ids: Ids) {
    && ids.entry != NIL_UUID && ids.event1 != ids.event2
    && (forall i :: 0 <= i < |db.ledger| ==> db.ledger[i].id != ids.entry)
    && (forall i :: 0 <= i < |db.outbox| ==> db.outbox[i].eventId != ids.event1 && db.outbox[i].eventId != ids.event2)
  }

  /** The row is new, under free keys, or it replaces a PENDING_REFERENCE row with the same terms. */
  predicate Replaces(db: Db, t: Terms) {
    if t.id in db.wagers then db.wagers[t.id].wager.terms == t && db.wagers[t.id].wager.status.PendingReference?
    else ExternalKey(t) !in db.byExternal && IdempotencyKey(t) !in db.byKey
  }

  /** A movement: the wallet, the entry and both events tell the same story as the row. */
  predicate LawfulMovement(wr: Writes, was: Wallet, ids: Ids) {
    var w := wr.row.wager;
    && wr.wallet.Some? && wr.entry.Some? && w.after.Some?
    && w.before == Some(was.balance) && was.updatedAt <= w.updatedAt
    && wr.wallet.value == was.(balance := w.after.value, version := was.version + 1, updatedAt := w.updatedAt)
    && HealthyWallet(wr.wallet.value) && w.after.value.currency == was.balance.currency
    && EntryFor(w, wr.entry.value) && wr.entry.value.id == ids.entry
    && |wr.events| == 2 && wr.events[0].eventId == ids.event1 && wr.events[1].eventId == ids.event2
    && ProcessedEventData(w) == Ok(wr.events[0].data)
    && wr.events[1].data == BalanceChangedEventData(wr.wallet.value, wr.entry.value)
  }

  /** Anything else touches only the row, with at most the one event of its status. */
  predicate LawfulMark(wr: Writes, isNew: bool, ids: Ids) {
    var w := wr.row.wager;
    && wr.wallet.None? && wr.entry.None?
    && match w.status
       case Processed => |wr.events| == 1 && wr.events[0].eventId == ids.event1
                         && ProcessedEventData(w) == Ok(wr.events[0].data)
       case Rejected => |wr.events| == 1 && wr.events[0].eventId == ids.event1
                        && TellsRejected(wr.events[0].data, w)
       case PendingReference =>
         if isNew then |wr.events| == 1 && wr.events[0].eventId == ids.event1 && TellsWaiting(wr.events[0].data, w.terms)
         else wr.events == []
       case _ => wr.events == []
  }

  /** Where the writes land, apart from the shape of the row itself. */
  predicate LawfulEffect(db: Db, wr: Writes, ids: Ids) {
    var w := wr.row.wager;
    var t := w.terms;
    && t.kind.IsExternal() && Replaces(db, t)
    && t.walletId in db.wallets && Owns(db.wallets[t.walletId], t)
    && RefOk(db.wagers, w)
    && (IsReversal(w) ==> !HasReversal(db, w.referenceId))
    && if Moves(w) then LawfulMovement(wr, db.wallets[t.walletId], ids)
       else LawfulMark(wr, t.id !in db.wagers, ids)
  }

  predicate Lawful(db: Db, wr: Writes, ids: Ids) {
    RowOk(wr.row.wager.terms.id, wr.row) && LawfulEffect(db, wr, ids)
  }
}
