/**
 The main results about money, for every run of the engine from empty tables. By
 InterleavingRuns.InterleavingsRefineRuns they hold of every interleaving as well.
 */
module Settlement {
  import opened Basics
  import opened Money
  import opened Wagers
  import opened Wallets
  import opened Engine
  import opened EngineInvariant
  import opened EngineRuns
  import opened EngineSafety
  import opened Netting
  import opened Reconciliation
  import opened EventReplay
  import EngineDecisions

  /** The tables of some legal run from empty tables under the policy. */
  ghost predicate Reachable(p: Policy, db: Db) {
    exists actions :: Legal(Initial(p), actions) && Run(Initial(p), actions).db == db
  }

  lemma ReachableIsSafe(p: Policy, db: Db) returns (s: World)
    requires Reachable(p, db)
    ensures WorldInv(s) && s.db == db && s.policy == p
  {
    var actions :| Legal(Initial(p), actions) && Run(Initial(p), actions).db == db;
    InitialWorldInv(p);
    RunIsSafe(Initial(p), actions);
    s := Run(Initial(p), actions);
  }

  /** What the tree of a processed bet or win is worth. */
  predicate NetsOut(rows: Rows, es: seq<Entry>, root: Uuid)
    requires root in rows
  {
    var w, net := rows[root].wager, Net(rows, es, root);
    && (w.terms.kind.Bet? ==> net == -w.terms.amount.cents || net == 0)
    && (w.terms.kind.Win? ==> net == w.terms.amount.cents || net == 0)
    && (net == 0 <==> Reversed(rows, root) && !Undone(rows, root))
  }

  lemma TreeNetsOut(rows: Rows, es: seq<Entry>, wallet: Uuid, root: Uuid)
    requires Linked(rows) && Netting.Complete(rows, es, wallet) && root in rows && rows[root].wager.terms.walletId == wallet
    requires var w := rows[root].wager;
             w.status.Processed? && (w.terms.kind.Bet? || w.terms.kind.Win?) && w.terms.amount.cents > 0
    ensures NetsOut(rows, es, root)
  {
    NetOfRoot(rows, es, wallet, root);
    if Undone(rows, root) {
      OnlyRefundsAreUndone(rows, root);
    }
  }

  lemma StoredTreesNetOut(db: Db, root: Uuid)
    requires RowsOk(db.wagers) && Linked(db.wagers) && LedgerMatches(db.wagers, db.ledger) && root in db.wagers
    requires var w := db.wagers[root].wager; w.status.Processed? && (w.terms.kind.Bet? || w.terms.kind.Win?)
    ensures NetsOut(db.wagers, EntriesOf(db.ledger, db.wagers[root].wager.terms.walletId), root)
  {
    var w := db.wagers[root].wager;
    WalletEntriesComplete(db, w.terms.walletId);
    assert RowOk(root, db.wagers[root]);
    TreeNetsOut(db.wagers, EntriesOf(db.ledger, w.terms.walletId), w.terms.walletId, root);
  }

  /**
   A processed bet of a, with all its reversals, nets to -a or 0, and a processed win of a to
   a or 0: zero exactly when it has a processed reversal that was not itself rolled back.
   */
  lemma TreesNetOut(p: Policy, db: Db, root: Uuid)
    requires Reachable(p, db) && root in db.wagers
    ensures var w := db.wagers[root].wager;
            w.status.Processed? && (w.terms.kind.Bet? || w.terms.kind.Win?) ==>
              NetsOut(db.wagers, EntriesOf(db.ledger, w.terms.walletId), root)
  {
    var s := ReachableIsSafe(p, db);
    var w := db.wagers[root].wager;
    if w.status.Processed? && (w.terms.kind.Bet? || w.terms.kind.Win?) {
      RowsAreLinked(db.wagers);
      StoredTreesNetOut(db, root);
    }
  }

  /** Opening minus processed bets <= balance <= opening plus processed wins, and the balance is never negative. */
  lemma BalanceIsBounded(p: Policy, db: Db, w: Uuid)
    requires Reachable(p, db) && w in db.wallets
    ensures var es := EntriesOf(db.ledger, w);
            var balance := db.wallets[w].balance.cents;
            && 0 <= balance <= MAX_CENTS
            && SumOfKind(db.wagers, es, Opening) - SumOfKind(db.wagers, es, Bet) <= balance
            && balance <= SumOfKind(db.wagers, es, Opening) + SumOfKind(db.wagers, es, Win)
  {
    var s := ReachableIsSafe(p, db);
    BalanceIsSumOfTrees(db, w);
  }

  /** Each balance before is the previous balance after, and the first is 0. */
  predicate Pairwise(es: seq<Entry>) {
    forall i :: 0 <= i < |es| ==> es[i].before.cents == if i == 0 then 0 else es[i - 1].after.cents
  }

  /** The ledger is a chain from 0 to the balance, the version counts its movements, and it adds up. */
  lemma LedgerIsAChain(p: Policy, db: Db, w: Uuid)
    requires Reachable(p, db) && w in db.wallets
    ensures var es := EntriesOf(db.ledger, w);
            && Pairwise(es) && db.wallets[w].balance.cents == (if es == [] then 0 else es[|es| - 1].after.cents)
            && db.wallets[w].version == 1 + NonOpening(db.wagers, es)
            && Total(es) == db.wallets[w].balance.cents
  {
    hide RowsOk, IndexOk, WalletsOk, EventCountsOk, MirrorsOk, LedgerMatches, WalletLedgerOk, Pairwise;
    var s := ReachableIsSafe(p, db);
    var es := EntriesOf(db.ledger, w);
    assert WalletLedgerOk(db.wagers, db.wallets[w], es);
    ChainedPairs(db.wagers, db.wallets[w], es);
    LedgerAddsUp(db, w);
  }

  lemma ChainedPairs(rows: Rows, wallet: Wallet, es: seq<Entry>)
    requires WalletLedgerOk(rows, wallet, es)
    ensures Pairwise(es) && wallet.balance.cents == (if es == [] then 0 else es[|es| - 1].after.cents)
    ensures wallet.version == 1 + NonOpening(rows, es)
  {
    forall i | 0 <= i < |es|
      ensures es[i].before.cents == if i == 0 then 0 else es[i - 1].after.cents
    {
      assert es[i].before.cents == Closing(es[..i]);
    }
  }

  // ----- entries and events of one transaction -----

  function EntryCount(ledger: seq<Entry>, id: Uuid): nat {
    if ledger == [] then 0 else
      EntryCount(ledger[..|ledger| - 1], id) + (if ledger[|ledger| - 1].transactionId == id then 1 else 0)
  }

  lemma {:induction false} EntryCounts(ledger: seq<Entry>, id: Uuid)
    requires forall i, j :: 0 <= i < j < |ledger| ==> ledger[i].transactionId != ledger[j].transactionId
    ensures EntryCount(ledger, id) == if HasEntry(ledger, id) then 1 else 0
  {
    if ledger != [] {
      var init, n := ledger[..|ledger| - 1], |ledger| - 1;
      EntryCounts(init, id);
      if HasEntry(init, id) {
        var i :| 0 <= i < |init| && init[i].transactionId == id;
        assert ledger[i].transactionId == id;
      }
      if HasEntry(ledger, id) && ledger[n].transactionId != id {
        var i :| 0 <= i < |ledger| && ledger[i].transactionId == id;
        assert init[i] == ledger[i];
      }
    }
  }

  /**
   No committed transaction is PENDING. A processed one that moves money has exactly one
   ledger entry, which agrees with it; every other one has none. PROCESSED has exactly one
   processed event, REJECTED exactly one rejected event, the rest neither.
   */
  lemma RecordsAgree(p: Policy, db: Db, id: Uuid)
    requires Reachable(p, db) && id in db.wagers
    ensures var w := db.wagers[id].wager;
            && !w.status.Pending?
            && EntryCount(db.ledger, id) == (if w.status.Processed? && !w.terms.kind.Loss? then 1 else 0)
            && (forall i :: 0 <= i < |db.ledger| && db.ledger[i].transactionId == id ==> EntryFor(w, db.ledger[i]))
            && CountProcessed(db.outbox, id) == (if w.status.Processed? then 1 else 0)
            && CountRejected(db.outbox, id) == (if w.status.Rejected? then 1 else 0)
  {
    hide IndexOk, WalletsOk, LedgersOk, MirrorsOk;
    var s := ReachableIsSafe(p, db);
    assert RowOk(id, db.wagers[id]);
    EntryCounts(db.ledger, id);
    forall i | 0 <= i < |db.ledger| && db.ledger[i].transactionId == id
      ensures EntryFor(db.wagers[id].wager, db.ledger[i]) && Moves(db.wagers[id].wager)
    {
      assert EntryOk(db.wagers, db.ledger[i]);
    }
  }

  // ----- retries -----

  /** The stored retry count times the first delay stays below the time to live, and no attempt is set past the expiry. */
  lemma RetriesAreBounded(p: Policy, db: Db, id: Uuid)
    requires PolicyOk(p) && Reachable(p, db) && id in db.wagers && db.wagers[id].retry.Some?
    ensures var r := db.wagers[id].retry.value;
            0 <= r.count && r.count * Min(p.initialDelay, p.maxDelay) < p.ttl && r.nextAttemptAt <= r.expiresAt
  {
    var s := ReachableIsSafe(p, db);
    var r := db.wagers[id].retry.value;
    assert ScheduleOk(p, db.wagers[id]);
    TimesIsProduct(r.count, FirstDelay(p));
  }

  lemma ExpiredDecision(row: WagerRow, wallet: Wallet, found: Option<Wager>, reversed: bool, later: Time, x: Context)
    requires row.retry.Some? && row.retry.value.expiresAt <= x.now && RetryPending(row, wallet, found, reversed, later, x).Ok?
    ensures var wr := RetryPending(row, wallet, found, reversed, later, x).value;
            && wr.row.retry.None? && wr.row.wager.status.Rejected? && wr.row.wager.failureCode == ReferenceNotFound
            && wr.wallet.None? && wr.entry.None? && wr.row.wager.terms == row.wager.terms
  {
  }

  /** The first retry at or after the expiry finishes the transaction as REJECTED and moves no money. */
  lemma ExpiredRetryIsTerminal(s: World, id: Uuid, found: Option<Wager>, later: Time, x: Context)
    requires WalletsOk(s.db) && RowsOk(s.db.wagers) && RefsOk(s.db.wagers)
    requires DueRetry(s, id, found, later, x) && s.db.wagers[id].retry.value.expiresAt <= x.now
    ensures var r := RetryOne(s.db, id, found, later, x);
            && r.Ok? && id in r.value.wagers && r.value.wagers[id].retry.None?
            && r.value.wagers[id].wager.status.Rejected? && r.value.wagers[id].wager.failureCode == ReferenceNotFound
            && r.value.wallets == s.db.wallets && r.value.ledger == s.db.ledger
  {
    hide RowsOk, RefsOk, RetryPending, FreshIds, HasReversal, Reject, ValidateExternal, RefOk;
    var row := s.db.wagers[id];
    var y := x.(metadata := row.retry.value.metadata);
    var wallet, reversed := s.db.wallets[row.wager.terms.walletId], HasReversal(s.db, ReferenceOf(row.wager, found));
    EngineDecisions.PendingIsLive(s.db, id);
    ExpiredSucceeds(row, wallet, found, reversed, later, y);
    ExpiredDecision(row, wallet, found, reversed, later, y);
    assert LockWallet(s.db, row.wager) == Ok(wallet);
  }

  lemma ExpiredSucceeds(row: WagerRow, wallet: Wallet, found: Option<Wager>, reversed: bool, later: Time, x: Context)
    requires row.retry.Some? && row.retry.value.expiresAt <= x.now && row.wager.status.PendingReference?
    requires row.wager.updatedAt <= x.now && ZERO_TIME < x.now && !row.wager.terms.kind.Opening?
    ensures RetryPending(row, wallet, found, reversed, later, x).Ok?
  {
  }

  // ----- events -----

  /**
   However a wallet's balance events are reordered and repeated, deduplicating by event id and
   sorting by version rebuilds the balance, with no gap up to the stored version.
   */
  lemma EventsRebuildBalance(p: Policy, db: Db, w: Uuid, received: seq<Event>, q: seq<Event>)
    requires Reachable(p, db) && w in db.wallets
    requires Delivers(ChangesOf(db.outbox, w), received) && Deduplicates(received, q)
    requires AllChanges(q) && SortedByVersion(q)
    ensures Numbered(q, FirstVersion(db.wagers, EntriesOf(db.ledger, w)))
    ensures q != [] ==> Version(q[|q| - 1]) == db.wallets[w].version
    ensures Replayed(q) == db.wallets[w].balance.cents
  {
    var s := ReachableIsSafe(p, db);
    ReplayRebuildsBalance(db, w, received, q);
  }
}
