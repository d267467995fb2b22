/**
 Every step of every interleaving is either invisible or one enabled step of the engine in
 module EngineRuns, so all that holds of its runs holds of all interleavings.
 */
module InterleavingSafety {
  import opened Basics
  import opened Wagers
  import opened Wallets
  import opened Engine
  import opened EngineInvariant
  import opened EngineDecisions
  import R = EngineRuns
  import opened EngineSafety
  import opened Interleaving

  /** The step from `s` to `s'` is invisible to the tables, or one enabled step of the engine. */
  ghost predicate Simulates(s: World, s': World) {
    s' == s || exists a :: R.Enabled(s, a) && s' == R.Next(s, a)
  }

  // ----- committing one decision -----

  /** The answer of the reversal check matters only for a reference in the locked wallet, where it is current. */
  lemma CheckIsCurrent(s: World, w: Wager, wallet: Wallet, found: Option<Wager>, reversed: bool, x: Context)
    requires CheckOk(s, w, found, reversed) && ValidateExternal(w.terms).Pass?
    ensures ProcessNew(w, wallet, found, reversed, x) == ProcessNew(w, wallet, found, HasReversal(s.db, ReferenceOf(w, found)), x)
  {
    if w.terms.referenceExternalId == "" {
      assert !w.terms.kind.RequiresReference() by { assert Blank(w.terms.referenceExternalId); }
    }
  }

  lemma RetryCheckIsCurrent(s: World, row: WagerRow, wallet: Wallet, found: Option<Wager>, reversed: bool, x: Context)
    requires row.retry.Some? && CheckOk(s, row.wager, found, reversed) && row.wager.terms.referenceExternalId != ""
    ensures RetryPending(row, wallet, found, reversed, s.time, x) ==
            RetryPending(row, wallet, found, HasReversal(s.db, ReferenceOf(row.wager, found)), s.time, x)
  {
  }

  /** The compare-and-set on the wallet's version succeeds for lawful writes. */
  lemma LawfulWrites(db: Db, wr: Writes, ids: Ids)
    requires Lawful(db, wr, ids)
    ensures Write(db, wr) == Ok(Commit(db, wr))
  {
  }

  /** Process as one function, when its insert does not conflict and the wallet can be locked. */
  lemma ProcessUnfolds(db: Db, c: Command, r: Request, w: Wager, wallet: Wallet, found: Option<Wager>, x: Context)
    requires Prepare(c, w.terms.id, w.terms.createdAt, x.metadata) == Ok((r, w))
    requires !InsertConflicts(db, w.terms) && WalletReferenced(db, w.terms) && LockWallet(db, w) == Ok(wallet)
    ensures Process(db, c, w.terms.id, w.terms.createdAt, found, x) ==
            match ProcessNew(w, wallet, found, HasReversal(db, ReferenceOf(w, found)), x)
            case Ok(wr) => Ok(Done(Commit(db, wr), Reply(wr.row.wager, false)))
            case Err(e) => Err(e)
  {
    assert ProcessRequest(db, r, w, found, x) == ProcessInserted(db, w, found, x);
  }

  /** What a new transaction decides under its locks: lawful writes, or one of two errors. */
  lemma NewDecision(s: World, w: Wager, wallet: Wallet, found: Option<Wager>, x: Context)
    requires WalletsOk(s.db) && RowsOk(s.db.wagers)
    requires ValidateExternal(w.terms).Pass? && w == Unresolved(w.terms) && !InsertConflicts(s.db, w.terms)
    requires LockWallet(s.db, w) == Ok(wallet) && InTime(w, wallet, x.now) && x.ids.entry != NIL_UUID
    requires MayHaveSeen(s.db, ReferenceKey(w.terms), found)
    ensures var d := ProcessNew(w, wallet, found, HasReversal(s.db, ReferenceOf(w, found)), x);
            if d.Ok? then Lawfully(s.db, d, w.terms, x.ids) else d.error == InvalidMoney || d.error == InvalidWagerReference
  {
    if Clean(w.terms) {
      R.NewIsLive(s.db, w);
      ProcessNewLawful(s.db, w, found, x);
    } else {
      BlankReferenceFails(s.db, w, wallet, found, HasReversal(s.db, ReferenceOf(w, found)), x);
    }
  }

  function NewContext(s: World, tx: Tx, ids: Ids): Context
    requires tx.pc.Checked? && (tx.job.Serve? || tx.job.Consume?)
  {
    Context(s.policy, MetadataOf(tx.job), ids, tx.pc.now)
  }

  /** The step of the engine that the commit of `tx` is. */
  function ActionOf(s: World, tx: Tx, ids: Ids): R.Action
    requires tx.pc.Checked? && WellFormed(tx)
  {
    var work := tx.pc.work;
    match tx.job
    case Serve(c, _) => R.Submit(c, work.Wager().terms.id, work.Wager().terms.createdAt, tx.pc.found, NewContext(s, tx, ids))
    case Consume(m) =>
      R.Deliver(m, work.Wager().terms.id, work.Wager().terms.createdAt, tx.pc.found, NewContext(s, tx, ids), s.time)
    case _ =>
      R.Retry(work.Wager().terms.id, tx.pc.found, s.time, Context(s.policy, work.row.retry.value.metadata, ids, tx.pc.now))
  }

  /** A commit that succeeded: lawful writes for the wager in hand, completing the message if there is one. */
  predicate Commits(s: World, tx: Tx, ids: Ids, wr: Writes)
    requires tx.pc.Checked?
  {
    Lawful(s.db, wr, ids) && wr.row.wager.terms == tx.pc.work.Wager().terms
  }

  ghost predicate GoodOutcome(s: World, tx: Tx, ids: Ids, r: Result<Db>)
    requires tx.pc.Checked?
  {
    match r
    case Ok(d) => exists wr :: Commits(s, tx, ids, wr) && d == WithInbox(Commit(s.db, wr), tx.job, s.time)
    case Err(e) => !e.ConcurrentUpdate? && !e.InvalidTimestamp?
  }

  lemma NewOutcome(s: World, tx: Tx, ids: Ids)
    requires WalletsOk(s.db) && RowsOk(s.db.wagers) && ids.entry != NIL_UUID
    requires TxOk(s, tx) && tx.pc.Checked? && tx.pc.work.New?
    ensures GoodOutcome(s, tx, ids, Ending(s, tx, ids))
    ensures var p := Process(s.db, CommandOf(tx.job), tx.pc.work.draft.terms.id, tx.pc.work.draft.terms.createdAt, tx.pc.found,
                             NewContext(s, tx, ids));
            Ending(s, tx, ids) == if p.Ok? then Ok(WithInbox(p.value.db, tx.job, s.time)) else Err(p.error)
  {
    var w, wallet, found, x := tx.pc.work.draft, tx.pc.wallet, tx.pc.found, NewContext(s, tx, ids);
    R.PreparedTerms(CommandOf(tx.job), w.terms.id, w.terms.createdAt, x.metadata);
    ProcessUnfolds(s.db, CommandOf(tx.job), tx.pc.work.request, w, wallet, found, x);
    CheckIsCurrent(s, w, wallet, found, tx.pc.reversed, x);
    NewDecision(s, w, wallet, found, x);
    var decision := Decide(s, tx.job, tx.pc, ids);
    if decision.Ok? {
      LawfulWrites(s.db, decision.value, ids);
      assert Commits(s, tx, ids, decision.value);
    }
  }

  lemma DueOutcome(s: World, tx: Tx, ids: Ids)
    requires WalletsOk(s.db) && RowsOk(s.db.wagers) && RefsOk(s.db.wagers) && ids.entry != NIL_UUID
    requires TxOk(s, tx) && tx.pc.Checked? && tx.pc.work.Due?
    ensures GoodOutcome(s, tx, ids, Ending(s, tx, ids))
    ensures var x := Context(s.policy, tx.pc.work.row.retry.value.metadata, ids, tx.pc.now);
            Ending(s, tx, ids) == RetryOne(s.db, tx.pc.work.row.wager.terms.id, tx.pc.found, s.time, x)
  {
    hide RowsOk, RefsOk, WalletsOk, RetryPending, HasReversal, MayHaveSeen, LawfulEffect, InTime;
    var row, wallet, found := tx.pc.work.row, tx.pc.wallet, tx.pc.found;
    var id, x := row.wager.terms.id, Context(s.policy, row.retry.value.metadata, ids, tx.pc.now);
    PendingIsLive(s.db, id);
    RetryCheckIsCurrent(s, row, wallet, found, tx.pc.reversed, x);
    RetryLawful(s.db, id, found, s.time, x);
    var decision := Decide(s, tx.job, tx.pc, ids);
    if decision.Ok? {
      LawfulWrites(s.db, decision.value, ids);
      assert Commits(s, tx, ids, decision.value);
    }
  }

  /**
   Whatever the other transactions have done meanwhile, a commit writes what the engine
   would write at this instant; the compare-and-set never fails and no timestamp is refused.
   */
  lemma CommitIsEngineStep(s: World, tx: Tx, ids: Ids)
    requires WorldInv(s) && TxOk(s, tx) && tx.pc.Checked? && FreshIds(s.db, ids)
    ensures GoodOutcome(s, tx, ids, Ending(s, tx, ids))
    ensures R.Enabled(s, ActionOf(s, tx, ids))
    ensures R.Next(s, ActionOf(s, tx, ids)) == if Ending(s, tx, ids).Ok? then s.(db := Ending(s, tx, ids).value) else s
  {
    hide GoodOutcome, R.Enabled, R.Next, ActionOf, Ending;
    if tx.pc.work.New? {
      NewOutcome(s, tx, ids);
      NewActionEnabled(s, tx, ids);
      NewActionNext(s, tx, ids);
    } else {
      DueOutcome(s, tx, ids);
      DueActionEnabled(s, tx, ids);
      DueActionNext(s, tx, ids);
    }
  }

  lemma NewActionNext(s: World, tx: Tx, ids: Ids)
    requires TxOk(s, tx) && tx.pc.Checked? && tx.pc.work.New?
    requires var p := Process(s.db, CommandOf(tx.job), tx.pc.work.draft.terms.id, tx.pc.work.draft.terms.createdAt, tx.pc.found,
                              NewContext(s, tx, ids));
             Ending(s, tx, ids) == if p.Ok? then Ok(WithInbox(p.value.db, tx.job, s.time)) else Err(p.error)
    ensures R.Next(s, ActionOf(s, tx, ids)) == if Ending(s, tx, ids).Ok? then s.(db := Ending(s, tx, ids).value) else s
  {
    hide Process, Handle, Ending, WorkOk, TimeOk, CheckOk, MayHaveSeen, LockWallet;
    if tx.job.Consume? {
      HandleIsProcess(s, tx, ids);
    }
  }

  lemma DueActionNext(s: World, tx: Tx, ids: Ids)
    requires TxOk(s, tx) && tx.pc.Checked? && tx.pc.work.Due?
    requires var x := Context(s.policy, tx.pc.work.row.retry.value.metadata, ids, tx.pc.now);
             Ending(s, tx, ids) == RetryOne(s.db, tx.pc.work.row.wager.terms.id, tx.pc.found, s.time, x)
    ensures R.Next(s, ActionOf(s, tx, ids)) == if Ending(s, tx, ids).Ok? then s.(db := Ending(s, tx, ids).value) else s
  {
    hide RetryOne, Ending, TimeOk, CheckOk, MayHaveSeen, LockWallet;
  }

  lemma HandleIsProcess(s: World, tx: Tx, ids: Ids)
    requires TxOk(s, tx) && tx.pc.Checked? && tx.pc.work.New? && tx.job.Consume?
    ensures var m, w, x := tx.job.message, tx.pc.work.draft, NewContext(s, tx, ids);
            Handle(s.db, m, w.terms.id, w.terms.createdAt, tx.pc.found, x, s.time) ==
            Finish(m, Process(s.db, m.command, w.terms.id, w.terms.createdAt, tx.pc.found, x), s.time)
  {
    var m, w, x := tx.job.message, tx.pc.work.draft, NewContext(s, tx, ids);
    assert Prepared(s, tx.job, tx.pc.work.request, w);
    assert x.(metadata := Metadata(m.id, m.id)) == x;
  }

  lemma NewActionEnabled(s: World, tx: Tx, ids: Ids)
    requires TxOk(s, tx) && tx.pc.Checked? && tx.pc.work.New? && FreshIds(s.db, ids)
    ensures R.Enabled(s, ActionOf(s, tx, ids))
  {
    var w := tx.pc.work.draft;
    R.PreparedTerms(CommandOf(tx.job), w.terms.id, w.terms.createdAt, MetadataOf(tx.job));
    assert R.Reading(s, w.terms.walletId, w.terms.createdAt, tx.pc.now);
  }

  lemma DueActionEnabled(s: World, tx: Tx, ids: Ids)
    requires TxOk(s, tx) && tx.pc.Checked? && tx.pc.work.Due? && FreshIds(s.db, ids)
    ensures R.Enabled(s, ActionOf(s, tx, ids))
  {
    var w := tx.pc.work.row.wager;
    assert R.Reading(s, w.terms.walletId, w.updatedAt, tx.pc.now);
  }
}
