/**
 What a consumer of WalletBalanceChanged events can rely on (internal/application/wager_events.go):
 however the outbox delivers them, in any order and with repeats, dropping repeats by event id
 and sorting by walletVersion rebuilds the wallet's history and its stored balance.
 */
module EventReplay {
  import opened Basics
  import opened Wallets
  import opened Engine
  import opened EngineInvariant
  import opened EnginePreservation
  import opened Netting

  function Version(e: Event): int
    requires e.data.BalanceChangedData?
  {
    e.data.walletVersion
  }

  predicate AllChanges(q: seq<Event>) {
    forall i :: 0 <= i < |q| ==> q[i].data.BalanceChangedData?
  }

  /** The balance a consumer computes by applying the events in order to an empty wallet. */
  function Replayed(q: seq<Event>): int
    requires AllChanges(q)
  {
    if q == [] then 0 else
      Replayed(q[..|q| - 1]) + Signed(q[|q| - 1].data.direction, q[|q| - 1].data.amount.cents)
  }

  /** Every event of the wallet arrived at least once, and nothing else did. */
  ghost predicate Delivers(sent: seq<Event>, received: seq<Event>) {
    forall e :: e in sent <==> e in received
  }

  /** `q` keeps one of the received events for each event id. */
  predicate Deduplicates(received: seq<Event>, q: seq<Event>) {
    && (forall e :: e in q ==> e in received)
    && (forall e :: e in received ==> exists i :: 0 <= i < |q| && q[i].eventId == e.eventId)
    && (forall i, j :: 0 <= i < j < |q| ==> q[i].eventId != q[j].eventId)
  }

  predicate SortedByVersion(q: seq<Event>)
    requires AllChanges(q)
  {
    forall i, j :: 0 <= i < j < |q| ==> Version(q[i]) <= Version(q[j])
  }

  /** Consecutive versions, first to last. */
  predicate Numbered(q: seq<Event>, first: int) {
    AllChanges(q) && forall i :: 0 <= i < |q| ==> q[i].data.walletVersion == first + i
  }

  lemma {:induction false} ChangesAreInOutbox(outbox: seq<Event>, wallet: Uuid)
    ensures forall e :: e in ChangesOf(outbox, wallet) ==> e in outbox && ChangedFor(e, wallet)
  {
    if outbox != [] { ChangesAreInOutbox(outbox[..|outbox| - 1], wallet); }
  }

  /** Distinct ids in the outbox mean that equal ids are equal events. */
  lemma EqualIdsEqualEvents(outbox: seq<Event>, e: Event, f: Event)
    requires EventIdsOk(outbox) && e in outbox && f in outbox && e.eventId == f.eventId
    ensures e == f
  {
    var i :| 0 <= i < |outbox| && outbox[i] == e;
    var j :| 0 <= j < |outbox| && outbox[j] == f;
    assert i == j;
  }

  lemma HasElement(q: seq<Event>)
    requires q != []
    ensures exists e :: e in q
  {
    assert q[0] in q;
  }

  /** Two sequences with the same events, one numbered and one sorted without repeats, are the same. */
  lemma {:induction false} SortedIsNumbered(a: seq<Event>, first: int, q: seq<Event>)
    requires Numbered(a, first) && AllChanges(q) && SortedByVersion(q) && Delivers(a, q)
    requires forall i, j :: 0 <= i < j < |q| ==> q[i] != q[j]
    ensures q == a
  {
    if a == [] {
      if q != [] {
        HasElement(q);
        assert false;
      }
    } else {
      var a', last := a[..|a| - 1], a[|a| - 1];
      LastIsLast(a, first, q);
      var q' := q[..|q| - 1];
      assert a == a' + [last] && q == q' + [last];
      SameWithoutLast(a', q', last, first);
      SortedIsNumbered(a', first, q');
    }
  }

  /** The event with the highest number comes last in both. */
  lemma LastIsLast(a: seq<Event>, first: int, q: seq<Event>)
    requires Numbered(a, first) && AllChanges(q) && SortedByVersion(q) && Delivers(a, q) && a != []
    ensures q != [] && q[|q| - 1] == a[|a| - 1]
  {
    var last := a[|a| - 1];
    assert last in q;
    var k :| 0 <= k < |q| && q[k] == last;
    var end := q[|q| - 1];
    assert end in a;
    var m :| 0 <= m < |a| && a[m] == end;
    assert Version(q[k]) <= Version(end);
    assert m == |a| - 1;
  }

  lemma SameWithoutLast(a: seq<Event>, q: seq<Event>, last: Event, first: int)
    requires Numbered(a + [last], first) && Delivers(a + [last], q + [last])
    requires forall i, j :: 0 <= i < j < |q + [last]| ==> (q + [last])[i] != (q + [last])[j]
    ensures Delivers(a, q)
  {
    var b, r := a + [last], q + [last];
    assert last !in q by {
      forall i | 0 <= i < |q|
        ensures q[i] != last
      {
        assert r[i] != r[|q|];
      }
    }
    assert last !in a by {
      forall i | 0 <= i < |a|
        ensures a[i] != last
      {
        assert b[i].data.walletVersion == first + i && b[|a|].data.walletVersion == first + |a|;
      }
    }
    forall e
      ensures e in a <==> e in q
    {
      assert e in b <==> e in a || e == last;
      assert e in r <==> e in q || e == last;
    }
  }

  /** All entries after the first are movements. */
  lemma {:induction false} CountAfterFirst(rows: Rows, es: seq<Entry>)
    requires es != [] && forall i :: 0 < i < |es| ==> !IsOpening(rows, es[i])
    ensures NonOpening(rows, es) == |es| - (if IsOpening(rows, es[0]) then 1 else 0)
  {
    if |es| > 1 {
      CountAfterFirst(rows, es[..|es| - 1]);
    } else {
      assert NonOpening(rows, es[..0]) == 0;
    }
  }

  function FirstVersion(rows: Rows, es: seq<Entry>): int {
    if es != [] && IsOpening(rows, es[0]) then 1 else 2
  }

  /** The events of one wallet are numbered without gap up to the stored version. */
  lemma StoredNumbers(rows: Rows, wallet: Wallet, es: seq<Entry>, evs: seq<Event>)
    requires wallet.version == 1 + NonOpening(rows, es) && (forall i :: 0 < i < |es| ==> !IsOpening(rows, es[i]))
    requires Mirrors(wallet, es, evs)
    ensures Numbered(evs, FirstVersion(rows, es)) && FirstVersion(rows, es) + |evs| - 1 == wallet.version
  {
    if es != [] { CountAfterFirst(rows, es); }
  }

  /** They repeat the movements of the ledger, which add up to the stored balance. */
  lemma StoredTotal(db: Db, w: Uuid, es: seq<Entry>, evs: seq<Event>)
    requires RowsOk(db.wagers) && LedgerMatches(db.wagers, db.ledger) && es == EntriesOf(db.ledger, w)
    requires Chained(es) && |es| == |evs| && AllChanges(evs)
    requires forall i :: 0 <= i < |es| ==> evs[i].data.direction == es[i].direction && evs[i].data.amount == es[i].amount
    ensures Replayed(evs) == Closing(es)
  {
    WalletEntriesComplete(db, w);
    EntriesAreInLedger(db.ledger, w);
    EntryFacts(db.wagers, es, w);
    ChainTotal(db.wagers, es);
    MirroredTotal(es, evs);
  }

  lemma MirroredData(wallet: Wallet, es: seq<Entry>, evs: seq<Event>)
    requires Mirrors(wallet, es, evs)
    ensures |es| == |evs| && AllChanges(evs)
    ensures forall i :: 0 <= i < |es| ==> evs[i].data.direction == es[i].direction && evs[i].data.amount == es[i].amount
  {
  }

  /** The stored events: numbered without gap up to the stored version, each continuing the one before. */
  lemma StoredChanges(db: Db, w: Uuid)
    requires RowsOk(db.wagers) && LedgerMatches(db.wagers, db.ledger) && w in db.wallets
    requires WalletLedgerOk(db.wagers, db.wallets[w], EntriesOf(db.ledger, w))
    requires Mirrors(db.wallets[w], EntriesOf(db.ledger, w), ChangesOf(db.outbox, w))
    ensures var evs, first := ChangesOf(db.outbox, w), FirstVersion(db.wagers, EntriesOf(db.ledger, w));
            && Numbered(evs, first) && first + |evs| - 1 == db.wallets[w].version
            && Replayed(evs) == db.wallets[w].balance.cents
  {
    var es, evs := EntriesOf(db.ledger, w), ChangesOf(db.outbox, w);
    StoredNumbers(db.wagers, db.wallets[w], es, evs);
    MirroredData(db.wallets[w], es, evs);
    StoredTotal(db, w, es, evs);
  }

  lemma {:induction false} MirroredTotal(es: seq<Entry>, evs: seq<Event>)
    requires |es| == |evs| && AllChanges(evs)
    requires forall i :: 0 <= i < |es| ==> evs[i].data.direction == es[i].direction && evs[i].data.amount == es[i].amount
    ensures Replayed(evs) == Total(es)
  {
    if es != [] { MirroredTotal(es[..|es| - 1], evs[..|evs| - 1]); }
  }

  /**
   Any delivery that brings every event at least once, deduplicated by event id and sorted by
   walletVersion, is the wallet's history: no gap, no clash, ending at the stored version, and
   it replays to the stored balance.
   */
  lemma ReplayRebuildsBalance(db: Db, w: Uuid, received: seq<Event>, q: seq<Event>)
    requires Inv(db) && w in db.wallets
    requires Delivers(ChangesOf(db.outbox, w), received) && Deduplicates(received, q)
    requires AllChanges(q) && SortedByVersion(q)
    ensures q == ChangesOf(db.outbox, w)
    ensures Numbered(q, FirstVersion(db.wagers, EntriesOf(db.ledger, w)))
    ensures q != [] ==> Version(q[|q| - 1]) == db.wallets[w].version
    ensures Replayed(q) == db.wallets[w].balance.cents
  {
    var evs := ChangesOf(db.outbox, w);
    assert WalletLedgerOk(db.wagers, db.wallets[w], EntriesOf(db.ledger, w));
    assert Mirrors(db.wallets[w], EntriesOf(db.ledger, w), evs);
    StoredChanges(db, w);
    ChangesAreInOutbox(db.outbox, w);
    forall e | e in evs
      ensures e in q
    {
      var i :| 0 <= i < |q| && q[i].eventId == e.eventId;
      assert q[i] in q && q[i] in received && q[i] in evs;
      EqualIdsEqualEvents(db.outbox, e, q[i]);
    }
    SortedIsNumbered(evs, FirstVersion(db.wagers, EntriesOf(db.ledger, w)), q);
  }
}
