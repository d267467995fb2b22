/** The invariant of the interleaved machine, its refinement of the engine, and whole runs. */
module InterleavingRuns {
  import opened Basics
  import opened Wagers
  import opened Wallets
  import opened Engine
  import opened EngineInvariant
  import opened EngineDecisions
  import R = EngineRuns
  import opened EngineSafety
  import opened Interleaving
  import opened InterleavingFrames
  import opened InterleavingSafety

  // ----- steps of one transaction that commit nothing -----

  lemma BuildOk(s: World, tx: Tx, id: Uuid)
    requires tx.job.Serve? || tx.job.Consume?
    requires s.time > ZERO_TIME && id != NIL_UUID && id !in s.db.wagers && (tx.job.Consume? ==> tx.job.message.id !in s.db.inbox)
    ensures TxOk(s, tx.(pc := Build(s, tx.job, id)))
    ensures var n := tx.(pc := Build(s, tx.job, id));
            Inserted(n).None? && RowLock(n).None? && WalletLock(n).None? && (DraftId(n).None? || DraftId(n) == Some(id))
  {
    R.PreparedTerms(CommandOf(tx.job), id, s.time, MetadataOf(tx.job));
  }

  lemma HoldingOk(s: World, tx: Tx, id: Uuid, next: Tx)
    requires TimesOk(s.db, s.time) && s.time > ZERO_TIME
    requires TxOk(s, tx) && tx.pc.Holding? && ReadsOnly(tx.pc) && next == tx.(pc := Read(s, tx, id))
    ensures TxOk(s, next)
  {
  }

  lemma LockedOk(s: World, tx: Tx, id: Uuid, next: Tx)
    requires TimesOk(s.db, s.time) && s.time > ZERO_TIME
    requires TxOk(s, tx) && tx.pc.Locked? && ReadsOnly(tx.pc) && next == tx.(pc := Read(s, tx, id))
    ensures TxOk(s, next)
  {
    ReadingIsInTime(s, tx, tx.pc.work, tx.pc.wallet);
  }

  /** A reading taken now is not behind the transaction or the wallet it has locked. */
  lemma ReadingIsInTime(s: World, tx: Tx, work: Work, wallet: Wallet)
    requires TimesOk(s.db, s.time) && s.time > ZERO_TIME && WellFormed(tx) && WorkOf(tx) == Some(work)
    requires WorkOk(s, tx, work) && LockWallet(s.db, work.Wager()) == Ok(wallet) && !tx.job.Abandon?
    ensures TimeOk(s, work, wallet, s.time)
  {
    if work.New? {
      R.PreparedTerms(CommandOf(tx.job), work.draft.terms.id, work.draft.terms.createdAt, MetadataOf(tx.job));
    }
  }

  lemma TimedOk(s: World, tx: Tx, id: Uuid, next: Tx)
    requires RowsOk(s.db.wagers) && ExternalIndexOk(s.db.wagers, s.db.byExternal)
    requires TxOk(s, tx) && tx.pc.Timed? && ReadsOnly(tx.pc) && next == tx.(pc := Read(s, tx, id))
    ensures TxOk(s, next)
  {
    LookupIsSeen(s.db, ReferenceKey(tx.pc.work.Wager().terms));
  }

  lemma LookedOk(s: World, tx: Tx, id: Uuid, next: Tx)
    requires TxOk(s, tx) && tx.pc.Looked? && ReadsOnly(tx.pc) && next == tx.(pc := Read(s, tx, id))
    ensures TxOk(s, next)
  {
  }

  lemma BeginOk(s: World, tx: Tx, id: Uuid, next: Tx)
    requires RowsOk(s.db.wagers) && InboxOk(s.db) && s.time > ZERO_TIME && TxOk(s, tx) && ReadsOnly(tx.pc) && next == tx.(pc := Read(s, tx, id))
    requires (tx.pc.Begin? || tx.pc.Registered?) && id != NIL_UUID && id !in s.db.wagers
    ensures TxOk(s, next)
  {
    if tx.pc.Registered? || tx.job.Serve? {
      BuildOk(s, tx, id);
    } else if tx.job.Abandon? && tx.job.id in s.db.wagers {
      assert RowOk(tx.job.id, s.db.wagers[tx.job.id]);
    }
  }

  lemma StartingOk(s: World, tx: Tx, id: Uuid, next: Tx)
    requires RowsOk(s.db.wagers) && s.time > ZERO_TIME && TxOk(s, tx) && ReadsOnly(tx.pc) && next == tx.(pc := Read(s, tx, id))
    requires tx.pc.Aware? || tx.pc.Built? || tx.pc.Finished?
    ensures TxOk(s, next)
  {
    if tx.pc.Aware? && id in s.db.wagers {
      assert RowOk(id, s.db.wagers[id]);
    }
  }

  /** What a statement may add to what its transaction holds. */
  predicate Gains(tx: Tx, id: Uuid, next: Tx) {
    && (InboxKey(next).Some? ==>
          InboxKey(next) == InboxKey(tx) || (tx.pc.Begin? && tx.job.Consume? && InboxKey(next).value == tx.job.message.id))
    && (RowLock(next).Some? ==>
          || RowLock(next) == RowLock(tx) || (tx.pc.Begin? && tx.job.Abandon? && RowLock(next).value == tx.job.id)
          || (tx.pc.Aware? && RowLock(next).value == id))
    && (WalletLock(next).Some? ==>
          || WalletLock(next) == WalletLock(tx)
          || (tx.pc.Holding? && !tx.job.Abandon? && WalletLock(next).value == tx.pc.work.Wager().terms.walletId))
    && (DraftId(next).Some? ==>
          DraftId(next) == DraftId(tx) || ((tx.pc.Begin? || tx.pc.Registered?) && DraftId(next).value == id))
    && (Inserted(next).Some? ==> Inserted(next) == Inserted(tx) || (tx.pc.Built? && Inserted(next).value == tx.pc.wager.terms))
  }

  lemma StatementGains(s: World, tx: Tx, id: Uuid, next: Tx)
    requires RowsOk(s.db.wagers) && TxOk(s, tx) && ReadsOnly(tx.pc) && next == tx.(pc := Read(s, tx, id))
    ensures Gains(tx, id, next)
  {
    if tx.pc.Begin? {
      BeginGains(s, tx, id, next);
    } else if tx.pc.Aware? {
      AwareGains(s, tx, id, next);
    } else if tx.pc.Registered? {
      R.PreparedTerms(CommandOf(tx.job), id, s.time, MetadataOf(tx.job));
    } else {
      LaterGains(s, tx, id, next);
    }
  }

  lemma AwareGains(s: World, tx: Tx, id: Uuid, next: Tx)
    requires RowsOk(s.db.wagers) && WellFormed(tx) && tx.pc.Aware? && next == tx.(pc := Read(s, tx, id))
    ensures Gains(tx, id, next)
  {
    if id in s.db.wagers {
      assert RowOk(id, s.db.wagers[id]);
    }
  }

  lemma LaterGains(s: World, tx: Tx, id: Uuid, next: Tx)
    requires WellFormed(tx) && ReadsOnly(tx.pc) && next == tx.(pc := Read(s, tx, id))
    requires !tx.pc.Begin? && !tx.pc.Aware? && !tx.pc.Registered?
    ensures Gains(tx, id, next)
  {
  }

  lemma BeginGains(s: World, tx: Tx, id: Uuid, next: Tx)
    requires RowsOk(s.db.wagers) && WellFormed(tx) && tx.pc.Begin? && ReadsOnly(tx.pc) && next == tx.(pc := Read(s, tx, id))
    ensures Gains(tx, id, next)
  {
    if tx.job.Abandon? && tx.job.id in s.db.wagers {
      assert RowOk(tx.job.id, s.db.wagers[tx.job.id]);
    } else if tx.job.Serve? {
      R.PreparedTerms(CommandOf(tx.job), id, s.time, MetadataOf(tx.job));
    }
  }

  /** A statement that was not blocked acquires nothing that another transaction holds. */
  lemma AcquiresFree(tx: Tx, id: Uuid, next: Tx, other: Tx, mode: LockMode)
    requires Gains(tx, id, next) && Compatible(tx, other) && !Blocks(mode, tx, other)
    requires tx.pc.Begin? || tx.pc.Registered? ==> DraftId(other) != Some(id)
    requires tx.pc.Aware? ==> RowLock(other) != Some(id)
    ensures Compatible(next, other)
  {
  }

  lemma CompatibleSymmetric(a: Tx, b: Tx)
    requires Compatible(a, b)
    ensures Compatible(b, a)
  {
  }

  /** Replacing one transaction by one that is in order keeps the machine in order. */
  lemma ReplaceKeepsInv(m: Machine, t: nat, next: Tx)
    requires MachineInv(m) && TxOk(m.world, next)
    requires forall u {:trigger Compatible(next, m.txs[u])} :: u in m.txs && u != t ==> Compatible(next, m.txs[u])
    ensures MachineInv(m.(txs := m.txs[t := next]))
  {
    var txs := m.txs[t := next];
    forall u | u in txs
      ensures TxOk(m.world, txs[u])
    {
      assert u != t ==> TxOk(m.world, m.txs[u]);
    }
    forall u, v | u in txs && v in txs && u != v
      ensures Compatible(txs[u], txs[v])
    {
      if u == t {
        assert Compatible(next, m.txs[v]);
      } else if v == t {
        CompatibleSymmetric(next, m.txs[u]);
      } else {
        assert Compatible(m.txs[u], m.txs[v]);
      }
    }
  }

  lemma FinishedIsCompatible(tx: Tx, other: Tx)
    requires tx.pc.Finished? || tx.pc.Begin?
    ensures Compatible(tx, other)
  {
  }

  // ----- commits -----

  /** The footprint lies within what the transaction holds. */
  predicate Covered(tx: Tx, f: Footprint) {
    && (f.row.Some? ==> f.row == RowLock(tx) || f.row == DraftId(tx))
    && (f.wallet.Some? ==> f.wallet == WalletLock(tx))
    && (f.keys.Some? ==> f.keys == Inserted(tx))
    && (f.inbox.Some? ==> f.inbox == InboxKey(tx))
  }

  /** Locked rows are stored and pending, generated identifiers are not stored. */
  lemma HeldIds(s: World, tx: Tx)
    requires TxOk(s, tx)
    ensures RowLock(tx).Some? ==> RowLock(tx).value in s.db.wagers && s.db.wagers[RowLock(tx).value].retry.Some?
    ensures DraftId(tx).Some? ==> DraftId(tx).value !in s.db.wagers
  {
    if WorkOf(tx).Some? {
      assert WorkOk(s, tx, WorkOf(tx).value);
    }
  }

  lemma CoveredIsApart(s: World, tx: Tx, other: Tx, f: Footprint)
    requires TxOk(s, tx) && TxOk(s, other) && Compatible(tx, other) && Covered(tx, f)
    ensures Apart(other, f)
  {
    HeldIds(s, tx);
    HeldIds(s, other);
  }

  lemma OthersStayOk(m: Machine, t: nat, d: Db, f: Footprint, u: nat)
    requires AllOk(m.world, m.txs) && AllCompatible(m.txs) && t in m.txs && u in m.txs && u != t
    requires Frame(m.world.db, d, f) && Covered(m.txs[t], f)
    ensures TxOk(m.world.(db := d), m.txs[u])
  {
    assert TxOk(m.world, m.txs[t]) && TxOk(m.world, m.txs[u]) && Compatible(m.txs[t], m.txs[u]);
    CoveredIsApart(m.world, m.txs[t], m.txs[u], f);
    TxFrame(m.world, m.world.(db := d), m.txs[u], f);
  }

  lemma FinishKeepsCompatible(txs: map<nat, Tx>, t: nat)
    requires AllCompatible(txs) && t in txs
    ensures AllCompatible(txs[t := txs[t].(pc := Finished)])
  {
    var txs' := txs[t := txs[t].(pc := Finished)];
    forall u, v | u in txs' && v in txs' && u != v
      ensures Compatible(txs'[u], txs'[v])
    {
      if u == t {
        FinishedIsCompatible(txs'[u], txs'[v]);
      } else if v == t {
        FinishedIsCompatible(txs'[v], txs'[u]);
        CompatibleSymmetric(txs'[v], txs'[u]);
      } else {
        assert Compatible(txs[u], txs[v]);
      }
    }
  }

  lemma CommitKeepsMachine(m: Machine, t: nat, d: Db, f: Footprint)
    requires MachineInv(m) && t in m.txs && WorldInv(m.world.(db := d))
    requires Frame(m.world.db, d, f) && Covered(m.txs[t], f)
    ensures MachineInv(CommitTx(m, t, d))
  {
    var m' := CommitTx(m, t, d);
    forall u | u in m'.txs
      ensures TxOk(m'.world, m'.txs[u])
    {
      if u != t {
        OthersStayOk(m, t, d, f, u);
      } else {
        assert TxOk(m.world, m.txs[t]);
      }
    }
    FinishKeepsCompatible(m.txs, t);
  }

  // ----- every step -----

  /** The statement is blocked by nobody, and what it may acquire is fresh. */
  lemma UnblockedBy(m: Machine, t: nat, id: Uuid, ids: Ids, u: nat)
    requires AllCompatible(m.txs) && Enabled(m, Advance(t, id, ids)) && u in m.txs && u != t
    ensures Compatible(m.txs[t], m.txs[u]) && !Blocks(m.mode, m.txs[t], m.txs[u])
    ensures m.txs[t].pc.Begin? || m.txs[t].pc.Registered? ==> DraftId(m.txs[u]) != Some(id)
    ensures m.txs[t].pc.Aware? ==> RowLock(m.txs[u]) != Some(id)
  {
    assert !Waits(m, t, u);
  }

  lemma ReadGives(m: Machine, t: nat, id: Uuid, ids: Ids)
    requires MachineInv(m) && Enabled(m, Advance(t, id, ids)) && ReadsOnly(m.txs[t].pc)
    ensures WorldInv(m.world) && m.world.time > ZERO_TIME && TxOk(m.world, m.txs[t]) && WellFormed(m.txs[t]) && AllCompatible(m.txs)
    ensures m.txs[t].pc.Begin? || m.txs[t].pc.Registered? ==> id != NIL_UUID && id !in m.world.db.wagers
    ensures var next := m.txs[t].(pc := Read(m.world, m.txs[t], id)); Execute(m, t, id, ids) == m.(txs := m.txs[t := next])
  {
    assert TxOk(m.world, m.txs[t]);
  }

  lemma ReadStep(m: Machine, t: nat, id: Uuid, ids: Ids)
    requires MachineInv(m) && t in m.txs && Enabled(m, Advance(t, id, ids)) && ReadsOnly(m.txs[t].pc)
    ensures MachineInv(Execute(m, t, id, ids)) && Execute(m, t, id, ids).world == m.world
  {
    hide *;
    ReadGives(m, t, id, ids);
    WorldGives(m.world);
    var tx := m.txs[t];
    var next := tx.(pc := Read(m.world, tx, id));
    ReadIsOk(m.world, tx, id, next);
    StatementGains(m.world, tx, id, next);
    forall u | u in m.txs && u != t
      ensures Compatible(next, m.txs[u])
    {
      UnblockedBy(m, t, id, ids, u);
      AcquiresFree(tx, id, next, m.txs[u], m.mode);
    }
    ReplaceKeepsInv(m, t, next);
  }

  lemma ReadIsOk(s: World, tx: Tx, id: Uuid, next: Tx)
    requires WorldInv(s) && s.time > ZERO_TIME && TxOk(s, tx) && ReadsOnly(tx.pc) && next == tx.(pc := Read(s, tx, id))
    requires tx.pc.Begin? || tx.pc.Registered? ==> id != NIL_UUID && id !in s.db.wagers
    ensures TxOk(s, next)
  {
    if tx.pc.Holding? {
      HoldingOk(s, tx, id, next);
    } else if tx.pc.Locked? {
      LockedOk(s, tx, id, next);
    } else if tx.pc.Timed? {
      TimedOk(s, tx, id, next);
    } else if tx.pc.Looked? {
      LookedOk(s, tx, id, next);
    } else if tx.pc.Begin? || tx.pc.Registered? {
      BeginOk(s, tx, id, next);
    } else {
      StartingOk(s, tx, id, next);
    }
  }

  /** What the invariant of the machine says about one transaction. */
  lemma MachineGives(m: Machine, t: nat)
    requires MachineInv(m) && t in m.txs
    ensures WorldInv(m.world) && m.world.time > ZERO_TIME && TxOk(m.world, m.txs[t]) && WellFormed(m.txs[t])
  {
    assert TxOk(m.world, m.txs[t]);
  }

  /** The parts of the invariant of worlds that single steps rely on. */
  lemma WorldGives(s: World)
    requires WorldInv(s)
    ensures RowsOk(s.db.wagers) && RefsOk(s.db.wagers) && WalletsOk(s.db) && IndexOk(s.db) && TimesOk(s.db, s.time) && InboxOk(s.db)
  {
  }

  lemma SimulatesBy(s: World, a: R.Action)
    requires R.Enabled(s, a)
    ensures Simulates(s, R.Next(s, a))
  {
  }

  /** A commit that succeeded keeps the world, is a step of the engine and stays within what the transaction holds. */
  lemma EndingCommit(s: World, tx: Tx, ids: Ids) returns (f: Footprint)
    requires WorldInv(s) && TxOk(s, tx) && WellFormed(tx) && tx.pc.Checked? && FreshIds(s.db, ids) && Ending(s, tx, ids).Ok?
    ensures var d := Ending(s, tx, ids).value;
            WorldInv(s.(db := d)) && Simulates(s, s.(db := d)) && Frame(s.db, d, f) && Covered(tx, f)
  {
    hide *;
    WorldGives(s);
    CommitIsEngineStep(s, tx, ids);
    EndingKeepsWorld(s, ActionOf(s, tx, ids));
    f := OutcomeFrame(s, tx, ids);
  }

  lemma EndingKeepsWorld(s: World, a: R.Action)
    requires WorldInv(s) && R.Enabled(s, a)
    ensures WorldInv(R.Next(s, a)) && Simulates(s, R.Next(s, a))
  {
    StepKeepsWorld(s, a);
    SimulatesBy(s, a);
  }

  lemma OutcomeFrame(s: World, tx: Tx, ids: Ids) returns (f: Footprint)
    requires IndexOk(s.db) && TxOk(s, tx) && WellFormed(tx) && tx.pc.Checked? && Ending(s, tx, ids).Ok?
    requires GoodOutcome(s, tx, ids, Ending(s, tx, ids))
    ensures Frame(s.db, Ending(s, tx, ids).value, f) && Covered(tx, f)
  {
    var wr :| Commits(s, tx, ids, wr) && Ending(s, tx, ids).value == WithInbox(Commit(s.db, wr), tx.job, s.time);
    f := EndingFrame(s, tx, ids, wr);
  }

  lemma ExecuteChecked(m: Machine, t: nat, id: Uuid, ids: Ids)
    requires t in m.txs && WellFormed(m.txs[t]) && m.txs[t].pc.Checked?
    ensures (m.txs[t].pc.work.Due? ==> m.txs[t].pc.work.row.retry.Some?) && (m.txs[t].pc.work.New? ==> m.txs[t].job.Serve? || m.txs[t].job.Consume?)
    ensures var ending := Ending(m.world, m.txs[t], ids);
            Execute(m, t, id, ids) == if ending.Ok? then CommitTx(m, t, ending.value) else Goto(m, t, Finished)
  {
  }

  lemma CommitWorld(m: Machine, t: nat, d: Db)
    requires t in m.txs
    ensures CommitTx(m, t, d).world == m.world.(db := d) && Goto(m, t, Finished).world == m.world
    ensures Simulates(m.world, m.world)
  {
  }

  /** Commit or rollback at the end of the settlement. */
  lemma EndingStep(m: Machine, t: nat, id: Uuid, ids: Ids)
    requires MachineInv(m) && t in m.txs && WellFormed(m.txs[t]) && m.txs[t].pc.Checked? && FreshIds(m.world.db, ids)
    ensures MachineInv(Execute(m, t, id, ids)) && Simulates(m.world, Execute(m, t, id, ids).world)
  {
    hide *;
    MachineGives(m, t);
    ExecuteChecked(m, t, id, ids);
    var ending := Ending(m.world, m.txs[t], ids);
    CommitWorld(m, t, if ending.Ok? then ending.value else m.world.db);
    if ending.Ok? {
      var f := EndingCommit(m.world, m.txs[t], ids);
      CommitKeepsMachine(m, t, ending.value, f);
    } else {
      AbortStep(m, t);
    }
  }

  lemma EndingFrame(s: World, tx: Tx, ids: Ids, wr: Writes) returns (f: Footprint)
    requires IndexOk(s.db) && TxOk(s, tx) && tx.pc.Checked? && Commits(s, tx, ids, wr)
    ensures Frame(s.db, WithInbox(Commit(s.db, wr), tx.job, s.time), f) && Covered(tx, f)
  {
    CommitFrame(s.db, wr, ids);
    f := FootprintOf(s.db, wr);
    HeldIds(s, tx);
    if tx.job.Consume? {
      FrameThenComplete(s.db, Commit(s.db, wr), f, tx.job.message, s.time);
      f := f.(inbox := Some(tx.job.message.id));
    }
  }

  lemma AbortStep(m: Machine, t: nat)
    requires MachineInv(m) && t in m.txs
    ensures MachineInv(Goto(m, t, Finished))
  {
    var next := m.txs[t].(pc := Finished);
    forall u | u in m.txs && u != t
      ensures Compatible(next, m.txs[u])
    {
      FinishedIsCompatible(next, m.txs[u]);
    }
    ReplaceKeepsInv(m, t, next);
  }

  lemma DoomedCommit(s: World, tx: Tx) returns (wr: Writes)
    requires RowsOk(s.db.wagers) && RefsOk(s.db.wagers) && WalletsOk(s.db)
    requires TxOk(s, tx) && tx.pc.Doomed?
    ensures tx.pc.work.Due? && FailPending(tx.pc.work.Wager(), tx.pc.now) == Ok(wr) && wr.row.wager.terms == tx.pc.work.Wager().terms && wr.wallet.None?
    ensures exists free :: Lawful(s.db, wr, free)
  {
    var row, now := tx.pc.work.row.wager.terms.id, tx.pc.now;
    var free := FreshIdsExist(s.db);
    PendingIsLive(s.db, row);
    FailLawful(s.db, s.db.wagers[row].wager, now, free);
    wr := FailPending(s.db.wagers[row].wager, now).value;
    assert Lawful(s.db, wr, free);
  }

  lemma RowFrame(db: Db, tx: Tx, wr: Writes)
    requires IndexOk(db) && RowLock(tx) == Some(wr.row.wager.terms.id) && wr.row.wager.terms.id in db.wagers && wr.wallet.None?
    requires exists free :: Lawful(db, wr, free)
    ensures Frame(db, Commit(db, wr), FootprintOf(db, wr)) && Covered(tx, FootprintOf(db, wr))
  {
    var free :| Lawful(db, wr, free);
    CommitFrame(db, wr, free);
  }

  lemma DoomedAction(s: World, tx: Tx, wr: Writes)
    requires TxOk(s, tx) && tx.pc.Doomed? && FailPending(tx.pc.work.Wager(), tx.pc.now) == Ok(wr)
    ensures var a := R.GiveUp(tx.pc.work.row.wager.terms.id, tx.pc.now);
            R.Enabled(s, a) && R.Next(s, a) == s.(db := Commit(s.db, wr))
  {
  }

  lemma ExecuteDoomed(m: Machine, t: nat, id: Uuid, ids: Ids, wr: Writes)
    requires t in m.txs && WellFormed(m.txs[t]) && m.txs[t].pc.Doomed?
    requires FailPending(m.txs[t].pc.work.Wager(), m.txs[t].pc.now) == Ok(wr)
    ensures Execute(m, t, id, ids) == CommitTx(m, t, Commit(m.world.db, wr))
  {
  }

  lemma DoomedFrame(s: World, tx: Tx, wr: Writes)
    requires IndexOk(s.db) && TxOk(s, tx) && tx.pc.Doomed? && wr.row.wager.terms == tx.pc.work.Wager().terms && wr.wallet.None?
    requires exists free :: Lawful(s.db, wr, free)
    ensures Frame(s.db, Commit(s.db, wr), FootprintOf(s.db, wr)) && Covered(tx, FootprintOf(s.db, wr))
  {
    RowFrame(s.db, tx, wr);
  }

  lemma DoomedKeepsWorld(s: World, tx: Tx) returns (wr: Writes)
    requires WorldInv(s) && TxOk(s, tx) && tx.pc.Doomed?
    ensures FailPending(tx.pc.work.Wager(), tx.pc.now) == Ok(wr)
    ensures var d := Commit(s.db, wr);
            WorldInv(s.(db := d)) && Simulates(s, s.(db := d)) && Frame(s.db, d, FootprintOf(s.db, wr)) && Covered(tx, FootprintOf(s.db, wr))
  {
    hide *;
    WorldGives(s);
    wr := DoomedCommit(s, tx);
    DoomedFrame(s, tx, wr);
    DoomedAction(s, tx, wr);
    EndingKeepsWorld(s, R.GiveUp(tx.pc.work.row.wager.terms.id, tx.pc.now));
  }

  lemma DoomedStep(m: Machine, t: nat, id: Uuid, ids: Ids)
    requires MachineInv(m) && t in m.txs && m.txs[t].pc.Doomed? && WellFormed(m.txs[t])
    ensures MachineInv(Execute(m, t, id, ids)) && Simulates(m.world, Execute(m, t, id, ids).world)
  {
    hide *;
    MachineGives(m, t);
    var wr := DoomedKeepsWorld(m.world, m.txs[t]);
    ExecuteDoomed(m, t, id, ids, wr);
    CommitWorld(m, t, Commit(m.world.db, wr));
    CommitKeepsMachine(m, t, Commit(m.world.db, wr), FootprintOf(m.world.db, wr));
  }

  /** What the engine's Process does for a refused insert. */
  lemma ExistingProcess(s: World, tx: Tx, r: Request, w: Wager, x: Context)
    requires TxOk(s, tx) && tx.pc == Existing(r, w) && ResolveExisting(s.db, r).Ok? && x.metadata == MetadataOf(tx.job)
    ensures Process(s.db, CommandOf(tx.job), w.terms.id, w.terms.createdAt, None, x) ==
            Ok(Done(s.db, ResolveExisting(s.db, r).value))
  {
    R.PreparedTerms(CommandOf(tx.job), w.terms.id, w.terms.createdAt, x.metadata);
    assert Process(s.db, CommandOf(tx.job), w.terms.id, w.terms.createdAt, None, x) == ProcessRequest(s.db, r, w, None, x);
  }

  lemma ExistingIsFresh(s: World, tx: Tx, r: Request, w: Wager, x: Context)
    requires TimesOk(s.db, s.time) && s.time > ZERO_TIME && TxOk(s, tx) && tx.pc == Existing(r, w)
    requires FreshIds(s.db, x.ids) && x.policy == s.policy && x.now == s.time
    ensures R.FreshCommand(s, CommandOf(tx.job), w.terms.id, w.terms.createdAt, None, x)
  {
    var c := CommandOf(tx.job);
    R.PreparedTerms(c, w.terms.id, w.terms.createdAt, MetadataOf(tx.job));
    assert R.Reading(s, c.walletId, w.terms.createdAt, s.time);
  }

  lemma ExistingHandle(s: World, tx: Tx, r: Request, w: Wager, x: Context)
    requires TxOk(s, tx) && tx.pc == Existing(r, w) && tx.job.Consume? && ResolveExisting(s.db, r).Ok?
    requires x.metadata == MetadataOf(tx.job)
    ensures Handle(s.db, tx.job.message, w.terms.id, w.terms.createdAt, None, x, s.time) == Ok(Complete(s.db, tx.job.message, s.time))
  {
    assert x.(metadata := Metadata(tx.job.message.id, tx.job.message.id)) == x;
    ExistingProcess(s, tx, r, w, x);
  }

  /** A refused insert answers from the committed row, at this or any later time. */
  lemma ExistingAction(s: World, tx: Tx, r: Request, w: Wager) returns (a: R.Action)
    requires TimesOk(s.db, s.time) && s.time > ZERO_TIME && TxOk(s, tx) && tx.pc == Existing(r, w) && ResolveExisting(s.db, r).Ok?
    ensures R.Enabled(s, a) && R.Next(s, a) == s.(db := WithInbox(s.db, tx.job, s.time))
  {
    var free := FreshIdsExist(s.db);
    var x := Context(s.policy, MetadataOf(tx.job), free, s.time);
    ExistingIsFresh(s, tx, r, w, x);
    if tx.job.Serve? {
      ExistingProcess(s, tx, r, w, x);
      a := R.Submit(CommandOf(tx.job), w.terms.id, w.terms.createdAt, None, x);
    } else {
      ExistingHandle(s, tx, r, w, x);
      a := R.Deliver(tx.job.message, w.terms.id, w.terms.createdAt, None, x, s.time);
    }
  }

  lemma ExistingCommit(s: World, tx: Tx, r: Request, w: Wager) returns (f: Footprint)
    requires WorldInv(s) && s.time > ZERO_TIME && TxOk(s, tx) && tx.pc == Existing(r, w) && ResolveExisting(s.db, r).Ok?
    ensures var d := WithInbox(s.db, tx.job, s.time);
            WorldInv(s.(db := d)) && Simulates(s, s.(db := d)) && Frame(s.db, d, f) && Covered(tx, f)
  {
    hide *;
    WorldGives(s);
    var a := ExistingAction(s, tx, r, w);
    EndingKeepsWorld(s, a);
    f := ExistingFrame(s.db, tx, s.time);
  }

  lemma ExistingFrame(db: Db, tx: Tx, at: Time) returns (f: Footprint)
    requires tx.pc.Existing?
    ensures Frame(db, WithInbox(db, tx.job, at), f) && Covered(tx, f)
  {
    f := Footprint(None, None, None, if tx.job.Consume? then Some(tx.job.message.id) else None);
    if tx.job.Consume? {
      CompleteFrame(db, tx.job.message, at);
    }
  }

  lemma ExecuteExisting(m: Machine, t: nat, id: Uuid, ids: Ids)
    requires t in m.txs && WellFormed(m.txs[t]) && m.txs[t].pc.Existing?
    ensures Execute(m, t, id, ids) ==
            if ResolveExisting(m.world.db, m.txs[t].pc.request).Ok?
            then CommitTx(m, t, WithInbox(m.world.db, m.txs[t].job, m.world.time)) else Goto(m, t, Finished)
  {
  }

  lemma ExistingStep(m: Machine, t: nat, id: Uuid, ids: Ids)
    requires MachineInv(m) && t in m.txs && m.txs[t].pc.Existing? && WellFormed(m.txs[t])
    ensures MachineInv(Execute(m, t, id, ids)) && Simulates(m.world, Execute(m, t, id, ids).world)
  {
    hide *;
    var s, tx := m.world, m.txs[t];
    MachineGives(m, t);
    ExecuteExisting(m, t, id, ids);
    CommitWorld(m, t, WithInbox(s.db, tx.job, s.time));
    if ResolveExisting(s.db, tx.pc.request).Ok? {
      var f := ExistingCommit(s, tx, tx.pc.request, tx.pc.wager);
      CommitKeepsMachine(m, t, WithInbox(s.db, tx.job, s.time), f);
    } else {
      AbortStep(m, t);
    }
  }

  /** A change of the world that no transaction relies on keeps the machine in order. */
  lemma WorldKeepsMachine(m: Machine, s: World, f: Footprint)
    requires MachineInv(m) && WorldInv(s) && Frame(m.world.db, s.db, f) && Later(m.world, s)
    requires forall u {:trigger m.txs[u]} :: u in m.txs ==> Apart(m.txs[u], f)
    ensures MachineInv(m.(world := s))
  {
    forall u | u in m.txs
      ensures TxOk(s, m.txs[u])
    {
      assert TxOk(m.world, m.txs[u]);
      TxFrame(m.world, s, m.txs[u], f);
    }
  }

  lemma TickStep(m: Machine, to: Time)
    requires MachineInv(m) && m.world.time <= to
    ensures MachineInv(m.(world := m.world.(time := to)))
  {
    EndingKeepsWorld(m.world, R.Tick(to));
    NoFrame(m.world.db);
    WorldKeepsMachine(m, m.world.(time := to), Footprint(None, None, None, None));
  }

  lemma NoFrame(db: Db)
    ensures Frame(db, db, Footprint(None, None, None, None))
  {
  }

  lemma OpeningIsApart(m: Machine, openingId: Uuid)
    requires AllOk(m.world, m.txs) && Undrafted(m, openingId) && openingId !in m.world.db.wagers
    ensures forall u {:trigger m.txs[u]} :: u in m.txs ==> Apart(m.txs[u], Footprint(Some(openingId), None, None, None))
  {
    forall u | u in m.txs
      ensures Apart(m.txs[u], Footprint(Some(openingId), None, None, None))
    {
      assert TxOk(m.world, m.txs[u]);
      HeldIds(m.world, m.txs[u]);
    }
  }

  lemma OpenStep(m: Machine, c: OpenWallet, walletId: Uuid, openingId: Uuid, x: Context)
    requires MachineInv(m) && Enabled(m, Open(c, walletId, openingId, x))
    ensures MachineInv(Next(m, Open(c, walletId, openingId, x)))
  {
    var s := R.Next(m.world, R.Open(c, walletId, openingId, x));
    EndingKeepsWorld(m.world, R.Open(c, walletId, openingId, x));
    if CreateWallet(m.world.db, c, walletId, openingId, x).Ok? {
      OpenFrame(m.world.db, c, walletId, openingId, x);
      OpeningIsApart(m, openingId);
      WorldKeepsMachine(m, s, Footprint(Some(openingId), None, None, None));
    }
  }

  lemma StartStep(m: Machine, t: nat, job: Job)
    requires MachineInv(m) && t !in m.txs
    ensures MachineInv(m.(txs := m.txs[t := Tx(job, Begin)]))
  {
    forall u | u in m.txs && u != t
      ensures Compatible(Tx(job, Begin), m.txs[u])
    {
      FinishedIsCompatible(Tx(job, Begin), m.txs[u]);
    }
    ReplaceKeepsInv(m, t, Tx(job, Begin));
  }

  /** What Enabled says about the next statement of a transaction. */
  lemma AdvanceGives(m: Machine, t: nat, id: Uuid, ids: Ids)
    requires Enabled(m, Advance(t, id, ids))
    ensures t in m.txs && WellFormed(m.txs[t]) && (m.txs[t].pc.Checked? ==> FreshIds(m.world.db, ids))
    ensures ReadsOnly(m.txs[t].pc) <==> !m.txs[t].pc.Existing? && !m.txs[t].pc.Checked? && !m.txs[t].pc.Doomed?
    ensures Simulates(m.world, m.world)
    ensures Next(m, Advance(t, id, ids)) == Execute(m, t, id, ids)
  {
  }

  lemma AdvanceStep(m: Machine, t: nat, id: Uuid, ids: Ids)
    requires MachineInv(m) && Enabled(m, Advance(t, id, ids))
    ensures var m' := Next(m, Advance(t, id, ids)); MachineInv(m') && Simulates(m.world, m'.world)
  {
    hide *;
    AdvanceGives(m, t, id, ids);
    if m.txs[t].pc.Existing? {
      ExistingStep(m, t, id, ids);
    } else if m.txs[t].pc.Checked? {
      EndingStep(m, t, id, ids);
    } else if m.txs[t].pc.Doomed? {
      DoomedStep(m, t, id, ids);
    } else {
      ReadStep(m, t, id, ids);
    }
  }

  lemma OtherStep(m: Machine, step: Step)
    requires MachineInv(m) && Enabled(m, step) && !step.Advance?
    ensures MachineInv(Next(m, step)) && Simulates(m.world, Next(m, step).world)
  {
    match step
    case Tick(to) =>
      TickStep(m, to);
      SimulatesBy(m.world, R.Tick(to));
    case Open(c, walletId, openingId, x) =>
      OpenStep(m, c, walletId, openingId, x);
      SimulatesBy(m.world, R.Open(c, walletId, openingId, x));
    case Start(t, job) => StartStep(m, t, job);
    case Abort(t) =>
      if t in m.txs {
        AbortStep(m, t);
      }
  }

  lemma ModeStays(m: Machine, step: Step)
    ensures Next(m, step).mode == m.mode
  {
  }

  /** Every enabled step of the machine keeps its invariant and is invisible or a step of the engine. */
  lemma StepRefines(m: Machine, step: Step)
    requires MachineInv(m) && Enabled(m, step)
    ensures MachineInv(Next(m, step)) && Simulates(m.world, Next(m, step).world) && Next(m, step).mode == m.mode
  {
    hide *;
    ModeStays(m, step);
    if step.Advance? {
      AdvanceStep(m, step.t, step.id, step.ids);
    } else {
      OtherStep(m, step);
    }
  }

  // ----- whole interleavings -----

  function Boot(p: Policy, mode: LockMode): Machine { Machine(Initial(p), map[], mode) }

  function Run(m: Machine, steps: seq<Step>): Machine {
    if steps == [] then m else Next(Run(m, steps[..|steps| - 1]), steps[|steps| - 1])
  }

  predicate Legal(m: Machine, steps: seq<Step>) {
    steps == [] ||
    (Legal(m, steps[..|steps| - 1]) && Enabled(Run(m, steps[..|steps| - 1]), steps[|steps| - 1]))
  }

  /** The committed tables of the last state are those of some legal run of the engine. */
  ghost predicate EngineRun(p: Policy, s: World) {
    exists actions :: R.Legal(Initial(p), actions) && R.Run(Initial(p), actions) == s
  }

  lemma SimulatesExtendsRun(p: Policy, s: World, s': World)
    requires EngineRun(p, s) && Simulates(s, s')
    ensures EngineRun(p, s')
  {
    if s' != s {
      var actions :| R.Legal(Initial(p), actions) && R.Run(Initial(p), actions) == s;
      var a :| R.Enabled(s, a) && s' == R.Next(s, a);
      assert (actions + [a])[..|actions|] == actions;
      assert R.Legal(Initial(p), actions + [a]);
    }
  }

  ghost predicate Reached(p: Policy, mode: LockMode, m: Machine) {
    MachineInv(m) && EngineRun(p, m.world) && m.mode == mode
  }

  lemma ReachedNext(p: Policy, mode: LockMode, m: Machine, step: Step)
    requires Reached(p, mode, m) && Enabled(m, step)
    ensures Reached(p, mode, Next(m, step))
  {
    StepRefines(m, step);
    SimulatesExtendsRun(p, m.world, Next(m, step).world);
  }

  lemma ReachedInitial(p: Policy, mode: LockMode)
    ensures Reached(p, mode, Boot(p, mode))
  {
    InitialWorldInv(p);
    assert R.Legal(Initial(p), []);
  }

  /**
   For any number of transactions and any interleaving of their statements, with crashes and
   rollbacks anywhere, in both lock modes: the invariant holds, and the committed tables are
   those of a legal run of the engine.
   */
  lemma {:induction false} InterleavingsRefineRuns(p: Policy, mode: LockMode, steps: seq<Step>)
    requires Legal(Boot(p, mode), steps)
    ensures Reached(p, mode, Run(Boot(p, mode), steps))
  {
    if steps == [] {
      ReachedInitial(p, mode);
    } else {
      var early := steps[..|steps| - 1];
      InterleavingsRefineRuns(p, mode, early);
      ReachedNext(p, mode, Run(Boot(p, mode), early), steps[|steps| - 1]);
    }
  }

  /**
   In every interleaving: a transaction that reaches its writes is never refused by the
   version compare-and-set or for a backward timestamp, and no transaction has two processed
   direct reversals.
   */
  lemma NoConflictAtCommit(p: Policy, mode: LockMode, steps: seq<Step>, t: nat, ids: Ids)
    requires Legal(Boot(p, mode), steps)
    requires var m := Run(Boot(p, mode), steps); t in m.txs && m.txs[t].pc.Checked? && FreshIds(m.world.db, ids)
    ensures var m := Run(Boot(p, mode), steps);
            && OneReversal(m.world.db.wagers) && WellFormed(m.txs[t])
            && Ending(m.world, m.txs[t], ids) != Err(ConcurrentUpdate)
            && Ending(m.world, m.txs[t], ids) != Err(InvalidTimestamp)
  {
    InterleavingsRefineRuns(p, mode, steps);
    var m := Run(Boot(p, mode), steps);
    assert TxOk(m.world, m.txs[t]);
    CommitIsEngineStep(m.world, m.txs[t], ids);
  }

  /** In every interleaving a refused insert finds the row to answer from: the final already-exists error is unreachable. */
  lemma RefusedInsertIsAnswered(p: Policy, mode: LockMode, steps: seq<Step>, t: nat)
    requires Legal(Boot(p, mode), steps)
    requires var m := Run(Boot(p, mode), steps); t in m.txs && m.txs[t].pc.Existing?
    ensures var m := Run(Boot(p, mode), steps);
            ResolveExisting(m.world.db, m.txs[t].pc.request) != Err(AlreadyExists)
  {
    InterleavingsRefineRuns(p, mode, steps);
    var m := Run(Boot(p, mode), steps);
    assert TxOk(m.world, m.txs[t]);
    ExistingIsAnswered(m.world, m.txs[t]);
  }

  lemma ExistingIsAnswered(s: World, tx: Tx)
    requires IndexOk(s.db) && TxOk(s, tx) && tx.pc.Existing?
    ensures ResolveExisting(s.db, tx.pc.request) != Err(AlreadyExists)
  {
    var r, w := tx.pc.request, tx.pc.wager;
    R.PreparedTerms(CommandOf(tx.job), w.terms.id, w.terms.createdAt, MetadataOf(tx.job));
    R.ExistingIsFound(s.db, r, w.terms);
  }
}
