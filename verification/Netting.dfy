/**
 How BET, WIN, REFUND and ROLLBACK net out. Every entry of a wallet's ledger belongs to the
 tree of one opening, bet or win; the balance is the sum of the trees, a bet's tree is worth
 minus its amount or nothing, and a win's tree its amount or nothing.
 */
module Netting {
  import opened Basics
  import opened Wagers
  import opened Wallets
  import opened Engine
  import opened EngineInvariant
  import opened EnginePreservation

  type Rows = map<Uuid, WagerRow>

  /** Openings, bets and wins stand for themselves; a reversal belongs to what it undoes. */
  predicate IsRoot(w: Wager) { !w.terms.kind.RequiresReference() }

  function Root(rows: Rows, w: Wager): Uuid {
    if IsRoot(w) then w.terms.id
    else if w.referenceKind == Some(Refund) && w.referenceId in rows then rows[w.referenceId].wager.referenceId
    else w.referenceId
  }

  /** The entry belongs to the tree of `root`. */
  predicate InTree(rows: Rows, e: Entry, root: Uuid) {
    e.transactionId in rows && Root(rows, rows[e.transactionId].wager) == root
  }

  function Cents(e: Entry): int { Signed(e.direction, e.amount.cents) }

  /** The cents that the entries of one tree moved in total. */
  function Net(rows: Rows, es: seq<Entry>, root: Uuid): int {
    if es == [] then 0 else
      Net(rows, es[..|es| - 1], root) + (if InTree(rows, es[|es| - 1], root) then Cents(es[|es| - 1]) else 0)
  }

  function Total(es: seq<Entry>): int {
    if es == [] then 0 else Total(es[..|es| - 1]) + Cents(es[|es| - 1])
  }

  // ----- sums over sets of transactions -----

  function SumOver(es: seq<Entry>, ids: set<Uuid>): int {
    if es == [] then 0 else
      SumOver(es[..|es| - 1], ids) + (if es[|es| - 1].transactionId in ids then Cents(es[|es| - 1]) else 0)
  }

  lemma {:induction false} NetIsSum(rows: Rows, es: seq<Entry>, root: Uuid, ids: set<Uuid>)
    requires forall i :: 0 <= i < |es| ==> (InTree(rows, es[i], root) <==> es[i].transactionId in ids)
    ensures Net(rows, es, root) == SumOver(es, ids)
  {
    if es != [] { NetIsSum(rows, es[..|es| - 1], root, ids); }
  }

  lemma {:induction false} SumOverDisjoint(es: seq<Entry>, a: set<Uuid>, b: set<Uuid>)
    requires a !! b
    ensures SumOver(es, a + b) == SumOver(es, a) + SumOver(es, b)
  {
    if es != [] { SumOverDisjoint(es[..|es| - 1], a, b); }
  }

  lemma {:induction false} SumOverAbsent(es: seq<Entry>, ids: set<Uuid>)
    requires forall i :: 0 <= i < |es| ==> es[i].transactionId !in ids
    ensures SumOver(es, ids) == 0
  {
    if es != [] { SumOverAbsent(es[..|es| - 1], ids); }
  }

  predicate OncePerTransaction(es: seq<Entry>) {
    forall i, j :: 0 <= i < j < |es| ==> es[i].transactionId != es[j].transactionId
  }

  lemma {:induction false} SumOverOne(es: seq<Entry>, i: nat)
    requires OncePerTransaction(es) && i < |es|
    ensures SumOver(es, {es[i].transactionId}) == Cents(es[i])
  {
    var init := es[..|es| - 1];
    if i == |es| - 1 {
      SumOverAbsent(init, {es[i].transactionId});
    } else {
      SumOverOne(init, i);
    }
  }

  // ----- the entries of one wallet -----

  /** What the trees need to know about one wallet's entries. */
  ghost predicate Complete(rows: Rows, es: seq<Entry>, wallet: Uuid) {
    && OncePerTransaction(es)
    && (forall i {:trigger EntryOk(rows, es[i])} :: 0 <= i < |es| ==> EntryOk(rows, es[i]))
    && (forall id :: id in rows && Moves(rows[id].wager) && rows[id].wager.terms.walletId == wallet ==> HasEntry(es, id))
  }

  lemma {:induction false} EntriesKeepDistinct(ledger: seq<Entry>, wallet: Uuid)
    requires OncePerTransaction(ledger)
    ensures OncePerTransaction(EntriesOf(ledger, wallet))
  {
    if ledger != [] {
      var init := ledger[..|ledger| - 1];
      EntriesKeepDistinct(init, wallet);
      EntriesAreInLedger(init, wallet);
      var es, e := EntriesOf(init, wallet), ledger[|ledger| - 1];
      forall i | 0 <= i < |es|
        ensures es[i].transactionId != e.transactionId
      {
        assert es[i] in init;
      }
    }
  }

  lemma {:induction false} EntriesKeepOwn(ledger: seq<Entry>, wallet: Uuid, i: nat)
    requires i < |ledger| && ledger[i].walletId == wallet
    ensures ledger[i] in EntriesOf(ledger, wallet)
  {
    if i < |ledger| - 1 { EntriesKeepOwn(ledger[..|ledger| - 1], wallet, i); }
  }

  lemma WalletEntriesComplete(db: Db, wallet: Uuid)
    requires LedgerMatches(db.wagers, db.ledger)
    ensures Complete(db.wagers, EntriesOf(db.ledger, wallet), wallet)
  {
    var es := EntriesOf(db.ledger, wallet);
    EntriesKeepDistinct(db.ledger, wallet);
    EntriesAreInLedger(db.ledger, wallet);
    forall i | 0 <= i < |es|
      ensures EntryOk(db.wagers, es[i])
    {
      assert es[i] in db.ledger;
      var k :| 0 <= k < |db.ledger| && db.ledger[k] == es[i];
      assert EntryOk(db.wagers, db.ledger[k]);
    }
    forall id | id in db.wagers && Moves(db.wagers[id].wager) && db.wagers[id].wager.terms.walletId == wallet
      ensures HasEntry(es, id)
    {
      assert HasEntry(db.ledger, id);
      var k :| 0 <= k < |db.ledger| && db.ledger[k].transactionId == id;
      assert EntryOk(db.wagers, db.ledger[k]);
      EntriesKeepOwn(db.ledger, wallet, k);
    }
  }

  /** The single entry of a transaction contributes its movement. */
  lemma SumOfTransaction(rows: Rows, es: seq<Entry>, wallet: Uuid, id: Uuid)
    requires Complete(rows, es, wallet) && id in rows && Moves(rows[id].wager) && rows[id].wager.terms.walletId == wallet
    requires rows[id].wager.terms.id == id
    ensures SumOver(es, {id}) == Movement(rows[id].wager)
  {
    assert HasEntry(es, id);
    var i :| 0 <= i < |es| && es[i].transactionId == id;
    assert EntryOk(rows, es[i]);
    SumOverOne(es, i);
  }

  // ----- trees -----

  /** `r` is a processed direct reversal of `id`. */
  predicate Reverses(rows: Rows, r: Uuid, id: Uuid) {
    r in rows && IsReversal(rows[r].wager) && rows[r].wager.referenceId == id
  }

  predicate Reversed(rows: Rows, id: Uuid) {
    exists r :: r in rows && Reverses(rows, r, id)
  }

  /** The part of the invariant about references that trees rest on. */
  predicate Linked(rows: Rows) {
    && RefsOk(rows) && OneReversal(rows)
    && (forall id :: id in rows ==> rows[id].wager.terms.id == id)
    && (forall id :: id in rows && IsReversal(rows[id].wager) ==> rows[id].wager.referenceId != NIL_UUID)
  }

  lemma RowsAreLinked(rows: Rows)
    requires RowsOk(rows) && RefsOk(rows) && OneReversal(rows)
    ensures Linked(rows)
  {
    forall id | id in rows
      ensures rows[id].wager.terms.id == id
      ensures IsReversal(rows[id].wager) ==> rows[id].wager.referenceId != NIL_UUID
    {
      assert RowOk(id, rows[id]);
    }
  }

  /** What a processed reversal undoes is a processed bet, win or refund of the same amount and wallet. */
  lemma ReversalFacts(rows: Rows, r: Uuid, id: Uuid)
    requires Linked(rows) && Reverses(rows, r, id)
    ensures id in rows
    ensures var w, u := rows[r].wager, rows[id].wager;
            && Refers(w, u) && u.status.Processed? && (u.terms.kind.Bet? || u.terms.kind.Win? || u.terms.kind.Refund?)
            && Movement(w) == -Movement(u) && w.terms.walletId == u.terms.walletId && Moves(w) && Moves(u)
            && (u.terms.kind.Refund? ==> w.terms.kind.Rollback?)
  {
    assert RefOk(rows, rows[r].wager);
  }

  /** Exactly these transactions belong to the tree of a bet or a win: itself, its reversal, the reversal's rollback. */
  lemma TreeMembers(rows: Rows, es: seq<Entry>, wallet: Uuid, root: Uuid, ids: set<Uuid>)
    requires Linked(rows) && Complete(rows, es, wallet)
    requires root in rows && Moves(rows[root].wager) && IsRoot(rows[root].wager)
    requires forall id :: id in ids <==> id == root || Reverses(rows, id, root) || (exists r :: r in rows && Reverses(rows, r, root) && Reverses(rows, id, r))
    ensures forall i :: 0 <= i < |es| ==> (InTree(rows, es[i], root) <==> es[i].transactionId in ids)
  {
    forall i | 0 <= i < |es|
      ensures InTree(rows, es[i], root) <==> es[i].transactionId in ids
    {
      assert EntryOk(rows, es[i]);
      MemberOfTree(rows, es[i].transactionId, root);
    }
  }

  lemma MemberOfTree(rows: Rows, id: Uuid, root: Uuid)
    requires Linked(rows) && id in rows && Moves(rows[id].wager)
    requires root in rows && Moves(rows[root].wager) && IsRoot(rows[root].wager)
    ensures Root(rows, rows[id].wager) == root <==>
            id == root || Reverses(rows, id, root) || (exists r :: r in rows && Reverses(rows, r, root) && Reverses(rows, id, r))
  {
    var w := rows[id].wager;
    if !IsRoot(w) {
      assert Reverses(rows, id, w.referenceId);
      ReversalFacts(rows, id, w.referenceId);
      if w.referenceKind == Some(Refund) {
        assert Reverses(rows, w.referenceId, rows[w.referenceId].wager.referenceId);
      }
    }
  }

  /** A processed reversal of a bet by REFUND can itself be undone; a ROLLBACK cannot. */
  predicate Undone(rows: Rows, id: Uuid) {
    exists r :: r in rows && Reverses(rows, r, id) && Reversed(rows, r)
  }

  /**
   The tree of a processed bet or win is worth its own movement while it stands, nothing once
   reversed, and its own movement again if the reversal was rolled back. A debit is never
   returned twice and a win never taken back twice.
   */
  lemma TreeNet(rows: Rows, es: seq<Entry>, wallet: Uuid, root: Uuid)
    requires Linked(rows) && Complete(rows, es, wallet)
    requires root in rows && Moves(rows[root].wager) && IsRoot(rows[root].wager) && rows[root].wager.terms.walletId == wallet
    ensures Net(rows, es, root) ==
            if Reversed(rows, root) && !Undone(rows, root) then 0 else Movement(rows[root].wager)
  {
    var m := Movement(rows[root].wager);
    SumOfTransaction(rows, es, wallet, root);
    if !Reversed(rows, root) {
      TreeMembers(rows, es, wallet, root, {root});
      NetIsSum(rows, es, root, {root});
    } else {
      var r :| r in rows && Reverses(rows, r, root);
      ReversalFacts(rows, r, root);
      SumOfTransaction(rows, es, wallet, r);
      assert r != root;
      SumOverDisjoint(es, {root}, {r});
      assert {root} + {r} == {root, r};
      if !Reversed(rows, r) {
        NotUndone(rows, root, r);
        TreeMembers(rows, es, wallet, root, {root, r});
        NetIsSum(rows, es, root, {root, r});
      } else {
        var u :| u in rows && Reverses(rows, u, r);
        ReversalFacts(rows, u, r);
        assert Reverses(rows, r, root) && Reverses(rows, u, r);
        SumOfTransaction(rows, es, wallet, u);
        assert u != r && u != root;
        SumOverDisjoint(es, {root, r}, {u});
        assert {root, r} + {u} == {root, r, u};
        TreeMembers(rows, es, wallet, root, {root, r, u});
        NetIsSum(rows, es, root, {root, r, u});
      }
    }
  }

  lemma NotUndone(rows: Rows, root: Uuid, r: Uuid)
    requires OneReversal(rows) && Reverses(rows, r, root) && !Reversed(rows, r)
    ensures !Undone(rows, root)
  {
  }

  /** Only a bet can be undone and stand again, and only through a REFUND that was rolled back. */
  lemma OnlyRefundsAreUndone(rows: Rows, root: Uuid)
    requires Linked(rows) && Undone(rows, root)
    ensures root in rows && rows[root].wager.terms.kind.Bet?
  {
    var r :| r in rows && Reverses(rows, r, root) && Reversed(rows, r);
    var u :| u in rows && Reverses(rows, u, r);
    ReversalFacts(rows, r, root);
    ReversalFacts(rows, u, r);
  }

  /** -a or 0 for a bet of a, a or 0 for a win of a. */
  lemma NetOfRoot(rows: Rows, es: seq<Entry>, wallet: Uuid, root: Uuid)
    requires Linked(rows) && Complete(rows, es, wallet)
    requires root in rows && Moves(rows[root].wager) && IsRoot(rows[root].wager) && rows[root].wager.terms.walletId == wallet
    ensures var a := rows[root].wager.terms.amount.cents;
            match rows[root].wager.terms.kind
            case Bet => Net(rows, es, root) == if Reversed(rows, root) && !Undone(rows, root) then 0 else -a
            case Win => Net(rows, es, root) == if Reversed(rows, root) then 0 else a
            case _ => Net(rows, es, root) == a
  {
    TreeNet(rows, es, wallet, root);
    if Reversed(rows, root) {
      var r :| r in rows && Reverses(rows, r, root);
      ReversalFacts(rows, r, root);
    }
    if Undone(rows, root) {
      OnlyRefundsAreUndone(rows, root);
    }
  }

  // ----- the balance as a sum of trees -----

  predicate IsRootEntry(rows: Rows, e: Entry) {
    e.transactionId in rows && IsRoot(rows[e.transactionId].wager)
  }

  /** The nets, over the entries `all`, of the trees whose roots are among `es`. */
  function Nets(rows: Rows, es: seq<Entry>, all: seq<Entry>): int {
    if es == [] then 0 else
      Nets(rows, es[..|es| - 1], all)
      + (if IsRootEntry(rows, es[|es| - 1]) then Net(rows, all, es[|es| - 1].transactionId) else 0)
  }

  predicate HasRoot(rows: Rows, es: seq<Entry>, root: Uuid) {
    exists i :: 0 <= i < |es| && es[i].transactionId == root && IsRootEntry(rows, es[i])
  }

  lemma NetAppend(rows: Rows, all: seq<Entry>, x: Entry, root: Uuid)
    ensures Net(rows, all + [x], root) == Net(rows, all, root) + (if InTree(rows, x, root) then Cents(x) else 0)
  {
    assert (all + [x])[..|all|] == all;
  }

  /** One more entry adds its cents to exactly one tree. */
  lemma {:induction false} NetsAppend(rows: Rows, es: seq<Entry>, all: seq<Entry>, x: Entry)
    requires OncePerTransaction(es) && x.transactionId in rows
    ensures Nets(rows, es, all + [x]) ==
            Nets(rows, es, all) + (if HasRoot(rows, es, Root(rows, rows[x.transactionId].wager)) then Cents(x) else 0)
  {
    if es != [] {
      var init, e := es[..|es| - 1], es[|es| - 1];
      var root := Root(rows, rows[x.transactionId].wager);
      NetsAppend(rows, init, all, x);
      if IsRootEntry(rows, e) {
        NetAppend(rows, all, x, e.transactionId);
        assert e.transactionId == root ==> !HasRoot(rows, init, root) && HasRoot(rows, es, root) by {
          assert es[|es| - 1] == e;
        }
      }
      if HasRoot(rows, init, root) {
        var i :| 0 <= i < |init| && init[i].transactionId == root && IsRootEntry(rows, init[i]);
        assert es[i] == init[i];
      }
    }
  }

  lemma {:induction false} NetsOfNothing(rows: Rows, es: seq<Entry>)
    ensures Nets(rows, es, []) == 0
  {
    if es != [] { NetsOfNothing(rows, es[..|es| - 1]); }
  }

  /** If every tree that `all` touches has its root among `es`, the nets add up to everything. */
  lemma {:induction false} NetsAddUp(rows: Rows, es: seq<Entry>, all: seq<Entry>)
    requires OncePerTransaction(es)
    requires forall i :: 0 <= i < |all| ==>
               all[i].transactionId in rows && HasRoot(rows, es, Root(rows, rows[all[i].transactionId].wager))
    ensures Nets(rows, es, all) == Total(all)
  {
    if all == [] {
      NetsOfNothing(rows, es);
    } else {
      var init, x := all[..|all| - 1], all[|all| - 1];
      NetsAddUp(rows, es, init);
      NetsAppend(rows, es, init, x);
      assert all == init + [x];
    }
  }

  /** The root of every entry of a wallet is an entry of the same wallet. */
  lemma RootHasEntry(rows: Rows, es: seq<Entry>, wallet: Uuid, id: Uuid)
    requires Linked(rows) && Complete(rows, es, wallet)
    requires id in rows && Moves(rows[id].wager) && rows[id].wager.terms.walletId == wallet
    ensures HasRoot(rows, es, Root(rows, rows[id].wager))
  {
    var w := rows[id].wager;
    var root := Root(rows, w);
    if !IsRoot(w) {
      assert Reverses(rows, id, w.referenceId);
      ReversalFacts(rows, id, w.referenceId);
      if w.referenceKind == Some(Refund) {
        assert Reverses(rows, w.referenceId, root);
        ReversalFacts(rows, w.referenceId, root);
      }
    }
    assert HasEntry(es, root);
  }

  /** A chain from zero adds up to its closing balance. */
  lemma {:induction false} ChainTotal(rows: Rows, es: seq<Entry>)
    requires Chained(es) && forall i :: 0 <= i < |es| ==> es[i].after.cents == es[i].before.cents + Cents(es[i])
    ensures Total(es) == Closing(es)
  {
    if es != [] {
      var init := es[..|es| - 1];
      assert forall i :: 0 <= i < |init| ==> es[..i] == init[..i];
      ChainTotal(rows, init);
      assert es[|es| - 1].before.cents == Closing(es[..|es| - 1]);
    }
  }

  /** The amounts of the wallet's processed transactions of one kind. */
  function SumOfKind(rows: Rows, es: seq<Entry>, kind: Kind): int {
    if es == [] then 0 else
      var e := es[|es| - 1];
      SumOfKind(rows, es[..|es| - 1], kind)
      + (if e.transactionId in rows && rows[e.transactionId].wager.terms.kind == kind then e.amount.cents else 0)
  }

  lemma {:induction false} NetsBounds(rows: Rows, es: seq<Entry>, all: seq<Entry>, wallet: Uuid)
    requires Linked(rows) && Complete(rows, all, wallet)
    requires forall i {:trigger EntryOk(rows, es[i])} :: 0 <= i < |es| ==> EntryOk(rows, es[i])
    requires forall i :: 0 <= i < |es| ==> es[i].walletId == wallet && es[i].amount.cents > 0
    ensures SumOfKind(rows, es, Opening) - SumOfKind(rows, es, Bet) <= Nets(rows, es, all)
    ensures Nets(rows, es, all) <= SumOfKind(rows, es, Opening) + SumOfKind(rows, es, Win)
  {
    if es != [] {
      var init, e := es[..|es| - 1], es[|es| - 1];
      forall i | 0 <= i < |init|
        ensures EntryOk(rows, init[i])
      {
        assert EntryOk(rows, es[i]);
      }
      NetsBounds(rows, init, all, wallet);
      assert EntryOk(rows, es[|es| - 1]);
      if IsRootEntry(rows, e) {
        NetOfRoot(rows, all, wallet, e.transactionId);
      }
    }
  }

  /**
   The balance of a wallet is exactly the sum of the trees of its opening, bets and wins; so
   it never exceeds opening plus processed wins, nor falls below opening minus processed bets.
   */
  lemma BalanceIsSumOfTrees(db: Db, w: Uuid)
    requires Inv(db) && w in db.wallets
    ensures var es := EntriesOf(db.ledger, w);
            var balance := db.wallets[w].balance.cents;
            && balance == Nets(db.wagers, es, es)
            && SumOfKind(db.wagers, es, Opening) - SumOfKind(db.wagers, es, Bet) <= balance
            && balance <= SumOfKind(db.wagers, es, Opening) + SumOfKind(db.wagers, es, Win)
  {
    var rows, es := db.wagers, EntriesOf(db.ledger, w);
    WalletEntriesComplete(db, w);
    RowsAreLinked(rows);
    EntriesAreInLedger(db.ledger, w);
    assert WalletLedgerOk(rows, db.wallets[w], es);
    EntryFacts(rows, es, w);
    ChainTotal(rows, es);
    forall i | 0 <= i < |es|
      ensures es[i].transactionId in rows && HasRoot(rows, es, Root(rows, rows[es[i].transactionId].wager))
    {
      RootHasEntry(rows, es, w, es[i].transactionId);
    }
    NetsAddUp(rows, es, es);
    NetsBounds(rows, es, es, w);
  }

  lemma EntryFacts(rows: Rows, es: seq<Entry>, wallet: Uuid)
    requires RowsOk(rows) && Complete(rows, es, wallet) && forall e :: e in es ==> e.walletId == wallet
    ensures forall i :: 0 <= i < |es| ==>
              && es[i].walletId == wallet && es[i].amount.cents > 0 && es[i].after.cents == es[i].before.cents + Cents(es[i])
              && es[i].transactionId in rows && Moves(rows[es[i].transactionId].wager)
              && rows[es[i].transactionId].wager.terms.walletId == wallet
    ensures forall i {:trigger EntryOk(rows, es[i])} :: 0 <= i < |es| ==> EntryOk(rows, es[i])
  {
    forall i | 0 <= i < |es|
      ensures && es[i].walletId == wallet && es[i].amount.cents > 0 && es[i].after.cents == es[i].before.cents + Cents(es[i])
              && es[i].transactionId in rows && Moves(rows[es[i].transactionId].wager)
              && rows[es[i].transactionId].wager.terms.walletId == wallet
    {
      assert es[i] in es;
      assert EntryOk(rows, es[i]);
      assert RowOk(es[i].transactionId, rows[es[i].transactionId]);
    }
  }
}
