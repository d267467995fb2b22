/**
 The same engine as interleaved database transactions. Each transaction runs one statement
 at a time: register the inbox key, read the clock and build the transaction, insert its
 row, lock the wallet, read the clock again, look up the reference, ask for a reversal,
 write and commit. It works on the values it read; locks and unique keys are what it holds.
 */
module Interleaving {
  import opened Basics
  import opened Wagers
  import opened Wallets
  import opened Engine
  import opened EngineInvariant
  import opened EngineDecisions
  import R = EngineRuns
  import opened EngineSafety

  type World = R.World

  /** How FindByIDForUpdate locks a wallet. The source uses NoKeyUpdate. */
  datatype LockMode = NoKeyUpdate | ForUpdate

  datatype Job =
    | Serve(command: Command, metadata: Metadata) // Process called over HTTP
    | Consume(message: Message)                   // Handle
    | Sweep                                       // RetryNextPendingReference
    | Abandon(id: Uuid)                           // failPendingReference

  /** The wager transaction in the hands of a database transaction: new, or a locked pending row. */
  datatype Work = New(request: Request, draft: Wager) | Due(row: WagerRow) {
    function Wager(): Wager { if New? then draft else row.wager }
  }

  /** What a database transaction has done so far, with the values it has read. */
  datatype Pc =
    | Begin
    | Registered
    | Aware(seen: Time)
    | Built(request: Request, wager: Wager)
    | Existing(request: Request, wager: Wager)
    | Holding(work: Work)
    | Locked(work: Work, wallet: Wallet)
    | Timed(work: Work, wallet: Wallet, now: Time)
    | Looked(work: Work, wallet: Wallet, now: Time, found: Option<Wager>)
    | Checked(work: Work, wallet: Wallet, now: Time, found: Option<Wager>, reversed: bool)
    | Doomed(work: Work, now: Time)
    | Finished

  datatype Tx = Tx(job: Job, pc: Pc)

  datatype Machine = Machine(world: World, txs: map<nat, Tx>, mode: LockMode)

  function CommandOf(job: Job): Command
    requires job.Serve? || job.Consume?
  {
    if job.Serve? then job.command else job.message.command
  }

  function MetadataOf(job: Job): Metadata
    requires job.Serve? || job.Consume?
  {
    if job.Serve? then job.metadata else Metadata(job.message.id, job.message.id)
  }

  // ----- what a transaction holds -----

  function WorkOf(tx: Tx): Option<Work> {
    match tx.pc
    case Holding(work) => Some(work)
    case Locked(work, _) => Some(work)
    case Timed(work, _, _) => Some(work)
    case Looked(work, _, _, _) => Some(work)
    case Checked(work, _, _, _, _) => Some(work)
    case Doomed(work, _) => Some(work)
    case _ => None
  }

  /** The unique key of its uncommitted inbox row. */
  function InboxKey(tx: Tx): Option<string> {
    if tx.job.Consume? && !tx.pc.Begin? && !tx.pc.Finished? then Some(tx.job.message.id) else None
  }

  /** The terms of its uncommitted wager row: both unique keys, and a key share lock on the wallet. */
  function Inserted(tx: Tx): Option<Terms> {
    var work := WorkOf(tx);
    if work.Some? && work.value.New? then Some(work.value.draft.terms) else None
  }

  /** The identifier it generated for its new transaction. */
  function DraftId(tx: Tx): Option<Uuid> {
    if tx.pc.Built? || tx.pc.Existing? then Some(tx.pc.wager.terms.id)
    else if Inserted(tx).Some? then Some(Inserted(tx).value.id)
    else None
  }

  /** The pending row it has locked. */
  function RowLock(tx: Tx): Option<Uuid> {
    var work := WorkOf(tx);
    if work.Some? && work.value.Due? then Some(work.value.row.wager.terms.id) else None
  }

  /** The wallet it has locked. */
  function WalletLock(tx: Tx): Option<Uuid> {
    if tx.pc.Locked? || tx.pc.Timed? || tx.pc.Looked? || tx.pc.Checked?
    then Some(tx.pc.work.Wager().terms.walletId) else None
  }

  predicate SameKey(a: Terms, b: Terms) {
    ExternalKey(a) == ExternalKey(b) || IdempotencyKey(a) == IdempotencyKey(b)
  }

  /**
   The next statement of `a` has to wait for `b`: a rival inbox or wager key, a locked row, a
   locked wallet. With ForUpdate the wallet lock also conflicts with the key share lock that
   a foreign key takes on the wallet; with NoKeyUpdate it does not.
   */
  predicate Blocks(mode: LockMode, a: Tx, b: Tx) {
    match a.pc
    case Begin =>
      || (a.job.Consume? && InboxKey(b) == Some(a.job.message.id))
      || (a.job.Abandon? && RowLock(b) == Some(a.job.id))
    case Built(_, w) =>
      || (Inserted(b).Some? && SameKey(w.terms, Inserted(b).value))
      || (mode.ForUpdate? && WalletLock(b) == Some(w.terms.walletId))
    case Holding(work) =>
      && !a.job.Abandon?
      && var wallet := work.Wager().terms.walletId;
         || WalletLock(b) == Some(wallet)
         || (mode.ForUpdate? && Inserted(b).Some? && Inserted(b).value.walletId == wallet)
    case Checked(_, _, _, found, _) => // the foreign key of the resolved reference
      found.Some? && found.value.status.Processed? && RowLock(b) == Some(found.value.terms.id)
    case _ => false
  }

  predicate Waits(m: Machine, t: nat, u: nat) {
    t in m.txs && u in m.txs && t != u && Blocks(m.mode, m.txs[t], m.txs[u])
  }

  // ----- steps -----

  datatype Step =
    | Tick(to: Time)
    | Open(request: OpenWallet, walletId: Uuid, openingId: Uuid, x: Context)
    | Start(t: nat, job: Job)
    | Abort(t: nat)
    | Advance(t: nat, id: Uuid, ids: Ids)

  function Goto(m: Machine, t: nat, pc: Pc): Machine
    requires t in m.txs
  {
    m.(txs := m.txs[t := m.txs[t].(pc := pc)])
  }

  function CommitTx(m: Machine, t: nat, db: Db): Machine
    requires t in m.txs
  {
    Goto(m.(world := m.world.(db := db)), t, Finished)
  }

  /** The new transaction of Process, dated now. */
  function Build(s: World, job: Job, id: Uuid): Pc
    requires job.Serve? || job.Consume?
  {
    match Prepare(CommandOf(job), id, s.time, MetadataOf(job))
    case Ok((r, w)) => Built(r, w)
    case Err(_) => Finished
  }

  /** The inbox row is completed in the same transaction. */
  function WithInbox(db: Db, job: Job, at: Time): Db {
    if job.Consume? then Complete(db, job.message, at) else db
  }

  function Decide(s: World, job: Job, pc: Pc, ids: Ids): Result<Writes>
    requires pc.Checked? && (pc.work.Due? ==> pc.work.row.retry.Some?)
    requires pc.work.New? ==> job.Serve? || job.Consume?
  {
    if pc.work.New? then
      ProcessNew(pc.work.draft, pc.wallet, pc.found, pc.reversed, Context(s.policy, MetadataOf(job), ids, pc.now))
    else
      RetryPending(pc.work.row, pc.wallet, pc.found, pc.reversed, s.time,
                   Context(s.policy, pc.work.row.retry.value.metadata, ids, pc.now))
  }

  /** The wallet is updated by compare-and-set on its version. */
  function Write(db: Db, wr: Writes): Result<Db> {
    var id := wr.row.wager.terms.walletId;
    if wr.wallet.Some? && (id !in db.wallets || db.wallets[id].version != wr.wallet.value.version - 1)
    then Err(ConcurrentUpdate)
    else Ok(Commit(db, wr))
  }

  function Ending(s: World, tx: Tx, ids: Ids): Result<Db>
    requires tx.pc.Checked? && (tx.pc.work.Due? ==> tx.pc.work.row.retry.Some?)
    requires tx.pc.work.New? ==> tx.job.Serve? || tx.job.Consume?
  {
    var wr :- Decide(s, tx.job, tx.pc, ids);
    var d :- Write(s.db, wr);
    Ok(WithInbox(d, tx.job, s.time))
  }

  predicate WellFormed(tx: Tx) {
    && ((tx.pc.Registered? || tx.pc.Built? || tx.pc.Existing?) ==> tx.job.Serve? || tx.job.Consume?)
    && (WorkOf(tx).Some? ==>
          if WorkOf(tx).value.New? then tx.job.Serve? || tx.job.Consume?
          else WorkOf(tx).value.row.retry.Some? && (tx.job.Sweep? || tx.job.Abandon?))
  }

  /** The next statement reads or locks something and writes nothing that others can see. */
  predicate ReadsOnly(pc: Pc) { !pc.Existing? && !pc.Checked? && !pc.Doomed? }

  /** Where such a statement leads; an error rolls the transaction back. */
  function Read(s: World, tx: Tx, id: Uuid): Pc
    requires WellFormed(tx) && ReadsOnly(tx.pc)
  {
    match tx.pc
    case Begin =>
      (match tx.job
       case Serve(_, _) => Build(s, tx.job, id)
       case Consume(message) => if Register(s.db, message) == Ok(false) then Registered else Finished
       case Sweep => Aware(s.time)
       case Abandon(row) =>
         if row in s.db.wagers && s.db.wagers[row].retry.Some? then Holding(Due(s.db.wagers[row])) else Finished)
    case Registered => Build(s, tx.job, id)
    case Aware(seen) =>
      if id in s.db.wagers && s.db.wagers[id].retry.Some? && s.db.wagers[id].retry.value.nextAttemptAt <= seen
      then Holding(Due(s.db.wagers[id])) else Finished
    case Built(r, w) =>
      if InsertConflicts(s.db, w.terms) then Existing(r, w)
      else if WalletReferenced(s.db, w.terms) then Holding(New(r, w)) else Finished
    case Holding(work) =>
      if tx.job.Abandon? then Doomed(work, s.time)
      else (match LockWallet(s.db, work.Wager()) case Ok(wallet) => Locked(work, wallet) case Err(_) => Finished)
    case Locked(work, wallet) => Timed(work, wallet, s.time)
    case Timed(work, wallet, now) => Looked(work, wallet, now, FindByExternal(s.db, ReferenceKey(work.Wager().terms)))
    case Looked(work, wallet, now, found) =>
      Checked(work, wallet, now, found, HasReversal(s.db, ReferenceOf(work.Wager(), found)))
    case Finished => Finished
  }

  /** The next statement of transaction `t`; the last one commits or rolls back. */
  function Execute(m: Machine, t: nat, id: Uuid, ids: Ids): Machine
    requires t in m.txs && WellFormed(m.txs[t])
  {
    var s, tx := m.world, m.txs[t];
    match tx.pc
    case Existing(r, w) =>
      if ResolveExisting(s.db, r).Ok? then CommitTx(m, t, WithInbox(s.db, tx.job, s.time)) else Goto(m, t, Finished)
    case Checked(_, _, _, _, _) =>
      (match Ending(s, tx, ids) case Ok(d) => CommitTx(m, t, d) case Err(_) => Goto(m, t, Finished))
    case Doomed(work, now) =>
      (match FailPending(work.Wager(), now) case Ok(wr) => CommitTx(m, t, Commit(s.db, wr)) case Err(_) => Goto(m, t, Finished))
    case _ => Goto(m, t, Read(s, tx, id))
  }

  function Next(m: Machine, step: Step): Machine {
    match step
    case Tick(to) => m.(world := m.world.(time := to))
    case Open(c, walletId, openingId, x) => m.(world := R.Next(m.world, R.Open(c, walletId, openingId, x)))
    case Start(t, job) => m.(txs := m.txs[t := Tx(job, Begin)])
    case Abort(t) => if t in m.txs then Goto(m, t, Finished) else m
    case Advance(t, id, ids) => if t in m.txs && WellFormed(m.txs[t]) then Execute(m, t, id, ids) else m
  }

  /** No transaction in flight has generated this identifier. */
  predicate Undrafted(m: Machine, id: Uuid) {
    forall u :: u in m.txs ==> DraftId(m.txs[u]) != Some(id)
  }

  predicate Unlocked(m: Machine, row: Uuid) {
    forall u :: u in m.txs ==> RowLock(m.txs[u]) != Some(row)
  }

  predicate FreshId(m: Machine, id: Uuid) {
    id != NIL_UUID && id !in m.world.db.wagers && Undrafted(m, id)
  }

  /** Nothing blocks the statement, generated identifiers are fresh, and a sweep skips locked rows. */
  predicate Enabled(m: Machine, step: Step) {
    match step
    case Tick(to) => m.world.time <= to
    case Open(c, walletId, openingId, x) =>
      R.Enabled(m.world, R.Open(c, walletId, openingId, x)) && Undrafted(m, openingId)
    case Start(t, _) => t !in m.txs
    case Abort(_) => true
    case Advance(t, id, ids) =>
      && t in m.txs && WellFormed(m.txs[t])
      && (forall u :: u in m.txs ==> !Waits(m, t, u))
      && (m.txs[t].pc.Begin? || m.txs[t].pc.Registered? ==> FreshId(m, id))
      && (m.txs[t].pc.Aware? ==> Unlocked(m, id))
      && (m.txs[t].pc.Checked? ==> FreshIds(m.world.db, ids))
  }

  // ----- the invariant -----

  /** The new transaction is what Prepare built, at an instant that has passed. */
  predicate Prepared(s: World, job: Job, r: Request, w: Wager)
    requires job.Serve? || job.Consume?
  {
    && Prepare(CommandOf(job), w.terms.id, w.terms.createdAt, MetadataOf(job)) == Ok((r, w))
    && ZERO_TIME < w.terms.createdAt <= s.time && w.terms.id != NIL_UUID && w.terms.id !in s.db.wagers
    && (job.Consume? ==> job.message.id !in s.db.inbox)
  }

  /** Its keys are still free of committed rows; a locked row is still what was read. */
  predicate WorkOk(s: World, tx: Tx, work: Work)
    requires if work.New? then tx.job.Serve? || tx.job.Consume? else work.row.retry.Some?
  {
    match work
    case New(r, w) =>
      Prepared(s, tx.job, r, w) && !InsertConflicts(s.db, w.terms) && WalletReferenced(s.db, w.terms)
    case Due(row) =>
      && row.wager.terms.id in s.db.wagers && s.db.wagers[row.wager.terms.id] == row
      && (tx.job.Sweep? ==> row.retry.value.nextAttemptAt <= s.time)
  }

  predicate TimeOk(s: World, work: Work, wallet: Wallet, now: Time)
    requires work.Due? ==> work.row.retry.Some?
  {
    && InTime(work.Wager(), wallet, now) && now <= s.time
    && (work.Due? ==> work.row.retry.value.nextAttemptAt <= now)
  }

  predicate CheckOk(s: World, w: Wager, found: Option<Wager>, reversed: bool) {
    w.terms.referenceExternalId != "" && found.Some? && found.value.terms.walletId == w.terms.walletId ==>
      reversed == HasReversal(s.db, ReferenceOf(w, found))
  }

  /** What a transaction has read and still relies on. */
  predicate TxOk(s: World, tx: Tx) {
    && WellFormed(tx)
    && match tx.pc
       case Registered => tx.job.Consume? && tx.job.message.id !in s.db.inbox
       case Aware(seen) => tx.job.Sweep? && seen <= s.time
       case Built(r, w) => Prepared(s, tx.job, r, w)
       case Existing(r, w) =>
         && Prepared(s, tx.job, r, w)
         && (ExternalKey(w.terms) in s.db.byExternal || IdempotencyKey(w.terms) in s.db.byKey)
       case Holding(work) => WorkOk(s, tx, work)
       case Locked(work, wallet) =>
         !tx.job.Abandon? && WorkOk(s, tx, work) && LockWallet(s.db, work.Wager()) == Ok(wallet)
       case Timed(work, wallet, now) =>
         && !tx.job.Abandon? && WorkOk(s, tx, work) && LockWallet(s.db, work.Wager()) == Ok(wallet)
         && TimeOk(s, work, wallet, now)
       case Looked(work, wallet, now, found) =>
         && !tx.job.Abandon? && WorkOk(s, tx, work) && LockWallet(s.db, work.Wager()) == Ok(wallet)
         && TimeOk(s, work, wallet, now) && MayHaveSeen(s.db, ReferenceKey(work.Wager().terms), found)
       case Checked(work, wallet, now, found, reversed) =>
         && !tx.job.Abandon? && WorkOk(s, tx, work) && LockWallet(s.db, work.Wager()) == Ok(wallet)
         && TimeOk(s, work, wallet, now) && MayHaveSeen(s.db, ReferenceKey(work.Wager().terms), found)
         && CheckOk(s, work.Wager(), found, reversed)
       case Doomed(work, now) =>
         && tx.job.Abandon? && work.Due? && WorkOk(s, tx, work)
         && ZERO_TIME < now <= s.time && work.row.wager.updatedAt <= now
       case _ => true
  }

  /** Two transactions never hold the same key, row or wallet. */
  predicate Compatible(a: Tx, b: Tx) {
    && (InboxKey(a).Some? ==> InboxKey(a) != InboxKey(b))
    && (RowLock(a).Some? ==> RowLock(a) != RowLock(b))
    && (WalletLock(a).Some? ==> WalletLock(a) != WalletLock(b))
    && (DraftId(a).Some? ==> DraftId(a) != DraftId(b))
    && (Inserted(a).Some? && Inserted(b).Some? ==> !SameKey(Inserted(a).value, Inserted(b).value))
  }

  predicate AllOk(s: World, txs: map<nat, Tx>) {
    forall t {:trigger TxOk(s, txs[t])} :: t in txs ==> TxOk(s, txs[t])
  }

  predicate AllCompatible(txs: map<nat, Tx>) {
    forall t, u {:trigger Compatible(txs[t], txs[u])} :: t in txs && u in txs && t != u ==> Compatible(txs[t], txs[u])
  }

  ghost predicate MachineInv(m: Machine) {
    && WorldInv(m.world) && m.world.time > ZERO_TIME
    && AllOk(m.world, m.txs) && AllCompatible(m.txs)
  }
}
