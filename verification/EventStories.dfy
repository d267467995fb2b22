/**
 What the published events and the recorded digests say, in every state of every run: each
 event repeats its transaction row or ledger entry field by field, each row has exactly the
 event of its outcome, and each digest is that of the row's own fields (internal/application/wager_events.go).
 */
module EventStories {
  import opened Basics
  import opened Money
  import opened Wagers
  import opened Wallets
  import opened Engine
  import opened Bookkeeping
  import opened Commands
  import opened EngineInvariant
  import opened EnginePreservation
  import opened EngineRuns
  import opened EngineSafety
  import opened Settlement
  import opened EngineOutcomes
  import opened Answers
  import opened EngineDecisions

  type Rows = map<Uuid, WagerRow>

  // ----- the invariant -----

  /** The event repeats the row of its transaction; events of balances are compared with the ledger instead. */
  predicate Told(rows: Rows, e: Event) {
    match e.data
    case ProcessedData(s, _, _, _) => s.transactionId in rows && TellsProcessed(e.data, rows[s.transactionId].wager)
    case RejectedData(s, _, _) => s.transactionId in rows && TellsRejected(e.data, rows[s.transactionId].wager)
    case PendingReferenceData(s, _) => s.transactionId in rows && TellsWaiting(e.data, rows[s.transactionId].wager.terms)
    case BalanceChangedData(_, _, _, _, _, _, _, _) => true
  }

  predicate StoriesOk(rows: Rows, outbox: seq<Event>) {
    forall i {:trigger Told(rows, outbox[i])} :: 0 <= i < |outbox| ==> Told(rows, outbox[i])
  }

  /** The digest of a provider transaction was taken of its own terms. */
  predicate DigestOk(t: Terms) {
    t.kind.IsExternal() ==> t.payloadHash.Some? && Covers(t.payloadHash.value, t)
  }

  predicate DigestsOk(rows: Rows) {
    forall id :: id in rows ==> DigestOk(rows[id].wager.terms)
  }

  predicate HistoryOk(db: Db) { StoriesOk(db.wagers, db.outbox) && DigestsOk(db.wagers) }

  // ----- one step -----

  /** A row that replaces none, or a pending one with the same terms, leaves every event told. */
  lemma RowKeepsStories(rows: Rows, outbox: seq<Event>, row: WagerRow)
    requires StoriesOk(rows, outbox)
    requires var t := row.wager.terms;
             t.id in rows ==> rows[t.id].wager.terms == t && rows[t.id].wager.status.PendingReference?
    ensures StoriesOk(rows[row.wager.terms.id := row], outbox)
  {
    var after := rows[row.wager.terms.id := row];
    forall i | 0 <= i < |outbox|
      ensures Told(after, outbox[i])
    {
      assert Told(rows, outbox[i]);
    }
  }

  /** Lawful writes announce their row truthfully. */
  lemma WritesAreTold(db: Db, wr: Writes, ids: Ids)
    requires Lawful(db, wr, ids)
    ensures forall i :: 0 <= i < |wr.events| ==> Told(Commit(db, wr).wagers, wr.events[i])
  {
    hide RowOk, RefOk, Replaces, HasReversal, EntryFor, Owns, HealthyWallet;
  }

  lemma CommitTells(db: Db, wr: Writes, ids: Ids)
    requires StoriesOk(db.wagers, db.outbox) && Lawful(db, wr, ids)
    ensures StoriesOk(Commit(db, wr).wagers, Commit(db, wr).outbox)
  {
    var d := Commit(db, wr);
    ReplacedIsPending(db, wr, ids);
    RowKeepsStories(db.wagers, db.outbox, wr.row);
    WritesAreTold(db, wr, ids);
    forall i | 0 <= i < |d.outbox|
      ensures Told(d.wagers, d.outbox[i])
    {
      if i < |db.outbox| {
        assert Told(d.wagers, db.outbox[i]);
      } else {
        assert d.outbox[i] == wr.events[i - |db.outbox|];
      }
    }
  }

  lemma ReplacedIsPending(db: Db, wr: Writes, ids: Ids)
    requires Lawful(db, wr, ids)
    ensures var t := wr.row.wager.terms;
            t.id in db.wagers ==> db.wagers[t.id].wager.terms == t && db.wagers[t.id].wager.status.PendingReference?
  {
  }

  lemma SubmitTells(s: World, c: Command, id: Uuid, createdAt: Time, found: Option<Wager>, x: Context)
    requires WorldInv(s) && HistoryOk(s.db) && FreshCommand(s, c, id, createdAt, found, x)
    ensures var r := Process(s.db, c, id, createdAt, found, x); r.Ok? ==> HistoryOk(r.value.db)
  {
    var r := Process(s.db, c, id, createdAt, found, x);
    if r.Ok? {
      ProcessCommits(s, c, id, createdAt, found, x);
      ProcessAnswers(s, c, id, createdAt, found, x);
      if !r.value.reply.idempotentReplay {
        NewIsTold(s.db, r.value, s.policy, x.ids, x.now);
        NewIsDigested(s.db, c, id, createdAt, found, x, r);
      }
    }
  }

  lemma NewIsTold(db: Db, done: Done, p: Policy, ids: Ids, now: Time)
    requires StoriesOk(db.wagers, db.outbox) && CommittedNew(db, done, p, ids, now)
    ensures StoriesOk(done.db.wagers, done.db.outbox)
  {
    var wr :| Lawful(db, wr, ids) && done.db == Commit(db, wr) && wr.row.wager == done.reply.wager && NewRowTimes(wr, p, now);
    CommitTells(db, wr, ids);
  }

  lemma NewIsDigested(db: Db, c: Command, id: Uuid, createdAt: Time, found: Option<Wager>, x: Context, r: Result<Done>)
    requires KeyIndexOk(db.wagers, db.byKey) && DigestsOk(db.wagers) && r.Ok? && !r.value.reply.idempotentReplay
    requires AnswersCommand(db, c, id, createdAt, found, x, r)
    ensures DigestsOk(r.value.db.wagers)
  {
    hide Concludes, Digests, SameOperation, Covers, CommandVerdict, LinkAfter, Faulty, Undone, WellFormed;
  }

  lemma RetryTells(s: World, id: Uuid, found: Option<Wager>, later: Time, x: Context)
    requires WorldInv(s) && HistoryOk(s.db) && DueRetry(s, id, found, later, x)
    ensures var r := RetryOne(s.db, id, found, later, x); r.Ok? ==> HistoryOk(r.value)
  {
    hide HistoryOk, RetryOne, CommittedRetry, MayHaveSeen, EventCountsOk, LedgersOk, MirrorsOk;
    assert RowOk(id, s.db.wagers[id]);
    RetryCommits(s.db, id, found, later, x);
    var r := RetryOne(s.db, id, found, later, x);
    if r.Ok? {
      RetriedIsTold(s.db, r.value, id, x.policy, x.ids, x.now, later);
    }
  }

  lemma RetriedIsTold(db: Db, d: Db, id: Uuid, p: Policy, ids: Ids, now: Time, later: Time)
    requires HistoryOk(db) && id in db.wagers && db.wagers[id].retry.Some? && db.wagers[id].wager.terms.id == id
    requires CommittedRetry(db, d, id, p, ids, now, later)
    ensures HistoryOk(d)
  {
    hide Lawful, RetriedRowTimes, StoriesOk;
    var wr :| Lawful(db, wr, ids) && d == Commit(db, wr) && wr.row.wager.terms == db.wagers[id].wager.terms
              && RetriedRowTimes(wr, db.wagers[id].retry.value, p, now, later);
    CommitTells(db, wr, ids);
  }

  lemma GiveUpTells(s: World, id: Uuid, now: Time)
    requires WorldInv(s) && HistoryOk(s.db) && Abandoned(s, id, now)
    ensures var r := FailOne(s.db, id, now); r.Ok? ==> HistoryOk(r.value)
  {
    GiveUpAnswers(s.db, id, now);
    assert RowOk(id, s.db.wagers[id]);
    RowKeepsStories(s.db.wagers, s.db.outbox, FailOne(s.db, id, now).value.wagers[id]);
  }

  lemma OpenTells(s: World, c: OpenWallet, walletId: Uuid, openingId: Uuid, x: Context)
    requires HistoryOk(s.db) && openingId !in s.db.wagers && x.ids.entry != NIL_UUID && ZERO_TIME < x.now
    ensures var r := CreateWallet(s.db, c, walletId, openingId, x); r.Ok? ==> HistoryOk(r.value)
  {
    CreateAnswers(s.db, c, walletId, openingId, x);
    var r := CreateWallet(s.db, c, walletId, openingId, x);
    if r.Ok? && r.value.wagers != s.db.wagers {
      OpeningTells(s.db, r.value, r.value.wallets[walletId], openingId, x);
    }
  }

  lemma OpeningTells(db: Db, d: Db, wallet: Wallet, id: Uuid, x: Context)
    requires HistoryOk(db) && OpeningRecords(db, d, wallet, id, x)
    ensures HistoryOk(d)
  {
    RowKeepsStories(db.wagers, db.outbox, d.wagers[id]);
    forall i | 0 <= i < |d.outbox|
      ensures Told(d.wagers, d.outbox[i])
    {
      if i < |db.outbox| {
        assert d.outbox[i] == db.outbox[i] && Told(d.wagers, db.outbox[i]);
      }
    }
  }

  lemma StepTells(s: World, a: Action)
    requires WorldInv(s) && Enabled(s, a) && HistoryOk(s.db)
    ensures HistoryOk(Next(s, a).db)
  {
    hide WorldInv, HistoryOk, Process, RetryOne, FailOne, CreateWallet;
    match a
    case Tick(_) =>
    case Open(c, walletId, openingId, x) => OpenTells(s, c, walletId, openingId, x);
    case Submit(c, id, createdAt, found, x) => SubmitTells(s, c, id, createdAt, found, x);
    case Deliver(m, id, createdAt, found, x, at) => DeliverTells(s, m, id, createdAt, found, x, at);
    case Retry(id, found, later, x) => RetryTells(s, id, found, later, x);
    case GiveUp(id, now) => GiveUpTells(s, id, now);
  }

  lemma DeliverTells(s: World, m: Message, id: Uuid, createdAt: Time, found: Option<Wager>, x: Context, at: Time)
    requires WorldInv(s) && FreshCommand(s, m.command, id, createdAt, found, x) && HistoryOk(s.db)
    ensures var r := Handle(s.db, m, id, createdAt, found, x, at); r.Ok? ==> HistoryOk(r.value)
  {
    hide WorldInv, Process, FreshCommand;
    var y := x.(metadata := Metadata(m.id, m.id));
    MetadataIsFree(s, m.command, id, createdAt, found, x, y.metadata);
    SubmitTells(s, m.command, id, createdAt, found, y);
  }

  lemma {:induction false} RunTells(p: Policy, actions: seq<Action>)
    requires Legal(Initial(p), actions)
    ensures HistoryOk(Run(Initial(p), actions).db)
  {
    if actions != [] {
      var init := actions[..|actions| - 1];
      RunTells(p, init);
      InitialWorldInv(p);
      RunIsSafe(Initial(p), init);
      StepTells(Run(Initial(p), init), actions[|actions| - 1]);
    }
  }

  // ----- every reachable state -----

  lemma ReachableHistory(p: Policy, db: Db)
    requires Reachable(p, db)
    ensures HistoryOk(db)
  {
    var actions :| Legal(Initial(p), actions) && Run(Initial(p), actions).db == db;
    RunTells(p, actions);
  }

  /** Every published event about a transaction repeats its row. */
  lemma EventsRepeatRows(p: Policy, db: Db, i: nat)
    requires Reachable(p, db) && i < |db.outbox|
    ensures Told(db.wagers, db.outbox[i])
  {
    ReachableHistory(p, db);
  }

  /** Exactly one of the events is about the outcome of this transaction. */
  predicate OnlyAt(outbox: seq<Event>, i: nat, id: Uuid) {
    && i < |outbox| && (ProcessedFor(outbox[i], id) || RejectedFor(outbox[i], id))
    && forall j :: 0 <= j < |outbox| && j != i ==> !ProcessedFor(outbox[j], id) && !RejectedFor(outbox[j], id)
  }

  lemma {:induction false} NoneCounted(outbox: seq<Event>, id: Uuid)
    requires CountProcessed(outbox, id) + CountRejected(outbox, id) == 0
    ensures forall i :: 0 <= i < |outbox| ==> !ProcessedFor(outbox[i], id) && !RejectedFor(outbox[i], id)
  {
    if outbox != [] { NoneCounted(outbox[..|outbox| - 1], id); }
  }

  lemma {:induction false} OneCounted(outbox: seq<Event>, id: Uuid) returns (i: nat)
    requires CountProcessed(outbox, id) + CountRejected(outbox, id) == 1
    ensures OnlyAt(outbox, i, id)
  {
    var init, n := outbox[..|outbox| - 1], |outbox| - 1;
    if ProcessedFor(outbox[n], id) || RejectedFor(outbox[n], id) {
      NoneCounted(init, id);
      i := n;
    } else {
      i := OneCounted(init, id);
    }
  }

  /** The one ledger entry of the transaction shows the balances of its row. */
  predicate SameBalances(w: Wager, ledger: seq<Entry>) {
    forall k :: 0 <= k < |ledger| && ledger[k].transactionId == w.terms.id ==>
      w.before == Some(ledger[k].before) && w.after == Some(ledger[k].after)
  }

  /**
   A PROCESSED or REJECTED transaction is announced by exactly one event, which repeats its row
   field by field; the balances a processed event shows are those of the ledger entry.
   */
  lemma OutcomeIsAnnounced(p: Policy, db: Db, id: Uuid) returns (i: nat)
    requires Reachable(p, db) && id in db.wagers
    requires db.wagers[id].wager.status.Processed? || db.wagers[id].wager.status.Rejected?
    ensures var w := db.wagers[id].wager;
            && OnlyAt(db.outbox, i, id) && SameBalances(w, db.ledger)
            && (if w.status.Processed? then TellsProcessed(db.outbox[i].data, w) else TellsRejected(db.outbox[i].data, w))
  {
    RecordsAgree(p, db, id);
    i := OneCounted(db.outbox, id);
    EventsRepeatRows(p, db, i);
  }

  /** The balance events repeat the entries, with consecutive versions up to the stored one. */
  predicate TellsEntries(wallet: Wallet, es: seq<Entry>, evs: seq<Event>) {
    && |evs| == |es|
    && forall i :: 0 <= i < |es| ==> TellsChange(evs[i].data, wallet.playerId, wallet.version - |es| + 1 + i, es[i])
  }

  lemma MirrorsTell(wallet: Wallet, es: seq<Entry>, evs: seq<Event>)
    requires Mirrors(wallet, es, evs) && forall i :: 0 <= i < |es| ==> es[i].walletId == wallet.id
    ensures TellsEntries(wallet, es, evs)
  {
  }

  lemma MirroredWallet(db: Db, w: Uuid)
    requires WalletsOk(db) && MirrorsOk(db) && w in db.wallets
    ensures db.wallets[w].id == w && Mirrors(db.wallets[w], EntriesOf(db.ledger, w), ChangesOf(db.outbox, w))
  {
    hide Mirrors;
    var evs := ChangesOf(db.outbox, w);
  }

  lemma ReachableMirrors(p: Policy, db: Db)
    requires Reachable(p, db)
    ensures WalletsOk(db) && MirrorsOk(db)
  {
    hide Reachable, WalletsOk, MirrorsOk, RowsOk, RefsOk, IndexOk, LedgersOk, LedgerMatches, EventCountsOk, TimesOk, RetriesOk, InboxOk;
    var _ := ReachableIsSafe(p, db);
  }

  /** The balance events of a wallet repeat its ledger, entry by entry, with consecutive versions up to the stored one. */
  lemma ChangesRepeatLedger(p: Policy, db: Db, w: Uuid)
    requires Reachable(p, db) && w in db.wallets
    ensures TellsEntries(db.wallets[w], EntriesOf(db.ledger, w), ChangesOf(db.outbox, w))
  {
    hide Reachable, WalletsOk, MirrorsOk, TellsEntries, Mirrors;
    ReachableMirrors(p, db);
    MirroredWallet(db, w);
    EntriesAreInLedger(db.ledger, w);
    MirrorsTell(db.wallets[w], EntriesOf(db.ledger, w), ChangesOf(db.outbox, w));
  }

  /** The row recorded under a command's key has the command's digest exactly when it has its business fields. */
  lemma DigestsDecideReplays(p: Policy, db: Db, id: Uuid, c: Command)
    requires Reachable(p, db) && id in db.wagers && db.wagers[id].wager.terms.kind.IsExternal()
    ensures var t := db.wagers[id].wager.terms;
            t.payloadHash.Some? && (Digests(t.payloadHash.value, c) <==> SameOperation(t, c))
  {
    hide Covers, Digests, SameOperation, IndexOk, WalletsOk, RefsOk, LedgerMatches, LedgersOk, EventCountsOk, MirrorsOk, Stored;
    ReachableHistory(p, db);
    var s := ReachableIsSafe(p, db);
    assert RowOk(id, db.wagers[id]) && DigestOk(db.wagers[id].wager.terms);
    StoredAmount(db.wagers[id].wager);
    DigestDecides(db.wagers[id].wager.terms, c);
  }

  lemma StoredAmount(w: Wager)
    requires Stored(w) && w.terms.kind.IsExternal()
    ensures 0 <= w.terms.amount.cents <= MAX_CENTS
  {
  }

  lemma DigestDecides(t: Terms, c: Command)
    requires t.payloadHash.Some? && Covers(t.payloadHash.value, t) && 0 <= t.amount.cents <= MAX_CENTS
    ensures Digests(t.payloadHash.value, c) <==> SameOperation(t, c)
  {
  }

  /** In every reachable state Process replays exactly the recorded operations, and refuses any other use of a recorded key. */
  lemma ReplayedExactly(p: Policy, actions: seq<Action>, c: Command, id: Uuid, createdAt: Time, found: Option<Wager>, x: Context)
    requires Legal(Initial(p), actions) && FreshCommand(Run(Initial(p), actions), c, id, createdAt, found, x)
    requires WellFormed(c) && !Blank(x.metadata.correlationId)
    requires (c.providerId, c.idempotencyKey) in Run(Initial(p), actions).db.byKey
    ensures var db := Run(Initial(p), actions).db;
            var key := db.byKey[(c.providerId, c.idempotencyKey)];
            && key in db.wagers
            && Process(db, c, id, createdAt, found, x) ==
               if SameOperation(db.wagers[key].wager.terms, c) then Ok(Done(db, Reply(db.wagers[key].wager, true)))
               else Err(IdempotencyConflict)
  {
    hide Process, Digests, SameOperation, FreshIds, Reading, MayHaveSeen, RowsOk, EventCountsOk, LedgersOk, MirrorsOk;
    InitialWorldInv(p);
    RunIsSafe(Initial(p), actions);
    var s := Run(Initial(p), actions);
    var key := s.db.byKey[(c.providerId, c.idempotencyKey)];
    ProcessAnswers(s, c, id, createdAt, found, x);
    DigestsDecideReplays(p, s.db, key, c);
  }
}
