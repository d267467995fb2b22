/** What one commit may change under the feet of the other transactions: only what its own locks cover. */
module InterleavingFrames {
  import opened Basics
  import opened Wagers
  import opened Wallets
  import opened Engine
  import opened EngineInvariant
  import opened EngineDecisions
  import opened EngineSafety
  import opened Interleaving

  /** The row, wallet, unique keys and inbox key that a commit writes. */
  datatype Footprint = Footprint(row: Option<Uuid>, wallet: Option<Uuid>, keys: Option<Terms>, inbox: Option<string>)

  predicate FrameWallets(db: Db, d: Db, wallet: Option<Uuid>) {
    forall w :: w in db.wallets ==>
      && w in d.wallets && d.wallets[w].balance.currency == db.wallets[w].balance.currency
      && (Some(w) != wallet ==> d.wallets[w] == db.wallets[w])
  }

  predicate FrameRows(db: Db, d: Db, row: Option<Uuid>) {
    && (forall i :: i in db.wagers ==>
          && i in d.wagers && d.wagers[i].wager.terms == db.wagers[i].wager.terms
          && (Some(i) != row || db.wagers[i].wager.status.IsTerminal() ==> d.wagers[i] == db.wagers[i]))
    && (forall i :: i in d.wagers && i !in db.wagers ==> Some(i) == row)
  }

  predicate FrameKeys(db: Db, d: Db, keys: Option<Terms>) {
    && db.byExternal.Keys <= d.byExternal.Keys && db.byKey.Keys <= d.byKey.Keys
    && (forall k :: k in d.byExternal && k !in db.byExternal ==> keys.Some? && k == ExternalKey(keys.value))
    && (forall k :: k in d.byKey && k !in db.byKey ==> keys.Some? && k == IdempotencyKey(keys.value))
  }

  predicate FrameInbox(db: Db, d: Db, inbox: Option<string>) {
    forall m :: m in d.inbox && m !in db.inbox ==> Some(m) == inbox
  }

  /** Reversals appear only among the transactions of the locked wallet. */
  predicate FrameReversals(db: Db, d: Db, wallet: Option<Uuid>) {
    forall i :: i in db.wagers && Some(db.wagers[i].wager.terms.walletId) != wallet ==> HasReversal(d, i) == HasReversal(db, i)
  }

  predicate Frame(db: Db, d: Db, f: Footprint) {
    && FrameWallets(db, d, f.wallet) && FrameRows(db, d, f.row) && FrameKeys(db, d, f.keys)
    && FrameInbox(db, d, f.inbox) && FrameReversals(db, d, f.wallet)
  }

  /** The transaction holds nothing that the footprint covers. */
  predicate Apart(tx: Tx, f: Footprint) {
    && (f.row.Some? ==> RowLock(tx) != f.row && DraftId(tx) != f.row)
    && (f.wallet.Some? ==> WalletLock(tx) != f.wallet)
    && (f.keys.Some? && Inserted(tx).Some? ==> !SameKey(Inserted(tx).value, f.keys.value))
    && (f.inbox.Some? ==> InboxKey(tx) != f.inbox)
  }

  predicate Later(s: World, s': World) { s.time <= s'.time && s'.policy == s.policy }

  lemma PreparedFrame(s: World, s': World, tx: Tx, r: Request, w: Wager, f: Footprint)
    requires tx.job.Serve? || tx.job.Consume?
    requires Prepared(s, tx.job, r, w) && FrameRows(s.db, s'.db, f.row) && FrameInbox(s.db, s'.db, f.inbox) && Later(s, s')
    requires f.row != Some(w.terms.id) && (f.inbox.Some? && tx.job.Consume? ==> Some(tx.job.message.id) != f.inbox)
    ensures Prepared(s', tx.job, r, w)
  {
  }

  lemma WorkFrame(s: World, s': World, tx: Tx, f: Footprint)
    requires WellFormed(tx) && WorkOf(tx).Some? && WorkOk(s, tx, WorkOf(tx).value)
    requires Frame(s.db, s'.db, f) && Later(s, s') && Apart(tx, f)
    ensures WorkOk(s', tx, WorkOf(tx).value)
  {
    match WorkOf(tx).value
    case New(r, w) => PreparedFrame(s, s', tx, r, w, f);
    case Due(row) =>
  }

  lemma LockFrame(s: World, s': World, w: Wager, wallet: Wallet, f: Footprint)
    requires LockWallet(s.db, w) == Ok(wallet) && FrameWallets(s.db, s'.db, f.wallet)
    requires Some(w.terms.walletId) != f.wallet
    ensures LockWallet(s'.db, w) == Ok(wallet)
  {
  }

  lemma SeenFrame(s: World, s': World, key: (string, string), found: Option<Wager>, f: Footprint)
    requires MayHaveSeen(s.db, key, found) && FrameRows(s.db, s'.db, f.row)
    ensures MayHaveSeen(s'.db, key, found)
  {
  }

  lemma CheckFrame(s: World, s': World, w: Wager, found: Option<Wager>, reversed: bool, f: Footprint)
    requires CheckOk(s, w, found, reversed) && MayHaveSeen(s.db, ReferenceKey(w.terms), found)
    requires FrameReversals(s.db, s'.db, f.wallet) && Some(w.terms.walletId) != f.wallet
    ensures CheckOk(s', w, found, reversed)
  {
  }

  /** What a transaction relies on survives every commit it is apart from. */
  lemma TxFrame(s: World, s': World, tx: Tx, f: Footprint)
    requires TxOk(s, tx) && Frame(s.db, s'.db, f) && Later(s, s') && Apart(tx, f)
    ensures TxOk(s', tx)
  {
    if WorkOf(tx).Some? {
      WorkFrame(s, s', tx, f);
      if WalletLock(tx).Some? {
        LockFrame(s, s', tx.pc.work.Wager(), tx.pc.wallet, f);
      }
      if tx.pc.Looked? || tx.pc.Checked? {
        SeenFrame(s, s', ReferenceKey(tx.pc.work.Wager().terms), tx.pc.found, f);
      }
      if tx.pc.Checked? {
        CheckFrame(s, s', tx.pc.work.Wager(), tx.pc.found, tx.pc.reversed, f);
      }
    } else if tx.pc.Built? || tx.pc.Existing? {
      PreparedFrame(s, s', tx, tx.pc.request, tx.pc.wager, f);
    }
  }

  // ----- the footprints -----

  function FootprintOf(db: Db, wr: Writes): Footprint {
    var t := wr.row.wager.terms;
    Footprint(Some(t.id), if wr.wallet.Some? then Some(t.walletId) else None, if t.id in db.wagers then None else Some(t), None)
  }

  /** Lawful writes change one row, perhaps its wallet, and nothing about other wallets' reversals. */
  lemma CommitFrame(db: Db, wr: Writes, ids: Ids)
    requires Lawful(db, wr, ids) && IndexOk(db)
    ensures Frame(db, Commit(db, wr), FootprintOf(db, wr))
  {
    hide Commit, LawfulEffect, FrameWallets, FrameRows, FrameKeys, FrameInbox, FrameReversals;
    CommitFrameWallets(db, wr, ids);
    CommitFrameRows(db, wr, ids);
    CommitFrameKeys(db, wr, ids);
    CommitFrameReversals(db, wr, ids);
  }

  lemma CommitFrameWallets(db: Db, wr: Writes, ids: Ids)
    requires LawfulEffect(db, wr, ids)
    ensures FrameWallets(db, Commit(db, wr), FootprintOf(db, wr).wallet)
  {
  }

  lemma CommitFrameRows(db: Db, wr: Writes, ids: Ids)
    requires LawfulEffect(db, wr, ids)
    ensures FrameRows(db, Commit(db, wr), FootprintOf(db, wr).row) && FrameInbox(db, Commit(db, wr), None)
  {
  }

  lemma CommitFrameKeys(db: Db, wr: Writes, ids: Ids)
    requires LawfulEffect(db, wr, ids) && IndexOk(db)
    ensures FrameKeys(db, Commit(db, wr), FootprintOf(db, wr).keys)
  {
    var t := wr.row.wager.terms;
    if t.id in db.wagers {
      assert Listed(db.byExternal, ExternalKey(t), t.id) && Listed(db.byKey, IdempotencyKey(t), t.id);
    }
  }

  lemma CommitFrameReversals(db: Db, wr: Writes, ids: Ids)
    requires Lawful(db, wr, ids)
    ensures FrameReversals(db, Commit(db, wr), FootprintOf(db, wr).wallet)
  {
    var d, w := Commit(db, wr), wr.row.wager;
    forall i | i in db.wagers && Some(db.wagers[i].wager.terms.walletId) != FootprintOf(db, wr).wallet
      ensures HasReversal(d, i) == HasReversal(db, i)
    {
      assert IsReversal(w) ==> w.referenceId != i;
      if HasReversal(db, i) {
        var r :| r in db.wagers && IsReversal(db.wagers[r].wager) && db.wagers[r].wager.referenceId == i;
        assert d.wagers[r] == db.wagers[r];
      }
    }
  }

  lemma CompleteFrame(db: Db, m: Message, at: Time)
    ensures Frame(db, Complete(db, m, at), Footprint(None, None, None, Some(m.id)))
  {
  }

  lemma FrameThenComplete(db: Db, d: Db, f: Footprint, m: Message, at: Time)
    requires Frame(db, d, f) && f.inbox.None?
    ensures Frame(db, Complete(d, m, at), f.(inbox := Some(m.id)))
  {
  }

  /** Creating a wallet adds a wallet and perhaps an OPENING, which reverses nothing and has no provider keys. */
  lemma OpenFrame(db: Db, c: OpenWallet, walletId: Uuid, openingId: Uuid, x: Context)
    requires CreateWallet(db, c, walletId, openingId, x).Ok?
    ensures Frame(db, CreateWallet(db, c, walletId, openingId, x).value, Footprint(Some(openingId), None, None, None))
  {
    var d := CreateWallet(db, c, walletId, openingId, x).value;
    CreateAdds(db, c, walletId, openingId, x);
    CreatedOpening(db, c, walletId, openingId, x);
    forall i | i in db.wagers
      ensures HasReversal(d, i) == HasReversal(db, i)
    {
      if HasReversal(db, i) {
        var r :| r in db.wagers && IsReversal(db.wagers[r].wager) && db.wagers[r].wager.referenceId == i;
        assert d.wagers[r] == db.wagers[r];
      }
    }
  }

  lemma CreatedOpening(db: Db, c: OpenWallet, walletId: Uuid, openingId: Uuid, x: Context)
    requires CreateWallet(db, c, walletId, openingId, x).Ok?
    ensures var d := CreateWallet(db, c, walletId, openingId, x).value;
            && d.byExternal == db.byExternal && d.byKey == db.byKey
            && (openingId in d.wagers && openingId !in db.wagers ==> d.wagers[openingId].wager.terms.kind.Opening?)
  {
  }
}
