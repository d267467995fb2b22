/**
 Whole runs of the engine. A step is one committed or refused use case, or the passing of
 time; a reference lookup may be stale in the way concurrent commits can make it stale.
 Every reachable database satisfies the invariant and only ever grows.
 */
module EngineRuns {
  import opened Basics
  import opened Wagers
  import opened WagerLife
  import opened Wallets
  import opened Engine
  import opened EngineInvariant
  import opened EngineDecisions

  datatype World = World(db: Db, time: Time, policy: Policy)

  datatype Action =
    | Tick(to: Time)
    | Open(request: OpenWallet, walletId: Uuid, openingId: Uuid, x: Context)
    | Submit(command: Command, id: Uuid, createdAt: Time, found: Option<Wager>, x: Context)
    | Deliver(message: Message, id: Uuid, createdAt: Time, found: Option<Wager>, x: Context, completedAt: Time)
    | Retry(id: Uuid, found: Option<Wager>, later: Time, x: Context)
    | GiveUp(id: Uuid, now: Time)

  function Next(s: World, a: Action): World {
    match a
    case Tick(to) => s.(time := to)
    case Open(c, walletId, openingId, x) =>
      (match CreateWallet(s.db, c, walletId, openingId, x) case Ok(d) => s.(db := d) case Err(_) => s)
    case Submit(c, id, createdAt, found, x) =>
      (match Process(s.db, c, id, createdAt, found, x) case Ok(done) => s.(db := done.db) case Err(_) => s)
    case Deliver(m, id, createdAt, found, x, at) =>
      (match Handle(s.db, m, id, createdAt, found, x, at) case Ok(d) => s.(db := d) case Err(_) => s)
    case Retry(id, found, later, x) =>
      if id !in s.db.wagers || s.db.wagers[id].retry.None? then s
      else (match RetryOne(s.db, id, found, later, x) case Ok(d) => s.(db := d) case Err(_) => s)
    case GiveUp(id, now) =>
      if id !in s.db.wagers || s.db.wagers[id].retry.None? then s
      else (match FailOne(s.db, id, now) case Ok(d) => s.(db := d) case Err(_) => s)
  }

  /** A clock reading taken no later than now, after `since` and after the wallet's last change. */
  predicate Reading(s: World, walletId: Uuid, since: Time, now: Time) {
    && ZERO_TIME < now <= s.time && since <= now
    && (walletId in s.db.wallets ==> s.db.wallets[walletId].updatedAt <= now)
  }

  predicate FreshCommand(s: World, c: Command, id: Uuid, createdAt: Time, found: Option<Wager>, x: Context) {
    && id != NIL_UUID && id !in s.db.wagers && FreshIds(s.db, x.ids) && x.policy == s.policy
    && ZERO_TIME < createdAt && Reading(s, c.walletId, createdAt, x.now)
    && MayHaveSeen(s.db, (c.providerId, c.referenceExternalId), found)
  }

  /** The row is pending and due, and the readings follow it. */
  predicate DueRetry(s: World, id: Uuid, found: Option<Wager>, later: Time, x: Context) {
    && id in s.db.wagers && s.db.wagers[id].retry.Some? && FreshIds(s.db, x.ids) && x.policy == s.policy
    && var row := s.db.wagers[id];
       && Reading(s, row.wager.terms.walletId, row.wager.updatedAt, x.now) && x.now <= later <= s.time
       && row.retry.value.nextAttemptAt <= x.now
       && MayHaveSeen(s.db, ReferenceKey(row.wager.terms), found)
  }

  predicate Abandoned(s: World, id: Uuid, now: Time) {
    id in s.db.wagers && s.db.wagers[id].retry.Some? && ZERO_TIME < now <= s.time && s.db.wagers[id].wager.updatedAt <= now
  }

  /** What the environment guarantees: fresh UUIDs, a clock that never goes back, lookups of committed rows. */
  predicate Enabled(s: World, a: Action) {
    match a
    case Tick(to) => s.time <= to
    case Open(c, walletId, openingId, x) =>
      walletId !in s.db.wallets && openingId !in s.db.wagers && FreshIds(s.db, x.ids) && ZERO_TIME < x.now <= s.time
    case Submit(c, id, createdAt, found, x) => FreshCommand(s, c, id, createdAt, found, x)
    case Deliver(m, id, createdAt, found, x, at) => FreshCommand(s, m.command, id, createdAt, found, x)
    case Retry(id, found, later, x) => DueRetry(s, id, found, later, x)
    case GiveUp(id, now) => Abandoned(s, id, now)
  }

  /** The world after the actions, in order. */
  function Run(s: World, actions: seq<Action>): World {
    if actions == [] then s else Next(Run(s, actions[..|actions| - 1]), actions[|actions| - 1])
  }

  predicate Legal(s: World, actions: seq<Action>) {
    actions == [] ||
    (Legal(s, actions[..|actions| - 1]) && Enabled(Run(s, actions[..|actions| - 1]), actions[|actions| - 1]))
  }

  // ----- what one use case does -----

  /** A use case that answered for its own transaction committed lawful writes for it. */
  ghost predicate CommittedNew(db: Db, done: Done, p: Policy, ids: Ids, now: Time) {
    exists wr :: Lawful(db, wr, ids) && done.db == Commit(db, wr) && wr.row.wager == done.reply.wager && NewRowTimes(wr, p, now)
  }

  lemma ProcessInsertedCommits(db: Db, w: Wager, found: Option<Wager>, x: Context)
    requires WalletsOk(db) && RowsOk(db.wagers)
    requires ValidateExternal(w.terms).Pass? && w == Unresolved(w.terms) && !InsertConflicts(db, w.terms)
    requires MayHaveSeen(db, ReferenceKey(w.terms), found)
    requires ZERO_TIME < x.now && w.updatedAt <= x.now && x.ids.entry != NIL_UUID
    requires w.terms.walletId in db.wallets ==> db.wallets[w.terms.walletId].updatedAt <= x.now
    ensures match ProcessInserted(db, w, found, x)
            case Err(e) => !e.AlreadyExists?
            case Ok(done) => !done.reply.idempotentReplay && CommittedNew(db, done, x.policy, x.ids, x.now)
  {
    hide Lawful, NewRowTimes, CommittedNew, Live, HasReversal;
    if WalletReferenced(db, w.terms) && LockWallet(db, w).Ok? {
      var wallet, reversed := db.wallets[w.terms.walletId], HasReversal(db, ReferenceOf(w, found));
      if !Clean(w.terms) {
        BlankReferenceFails(db, w, wallet, found, reversed, x);
        return;
      }
      NewIsLive(db, w);
      ProcessNewLawful(db, w, found, x);
      var decision := ProcessNew(w, wallet, found, reversed, x);
      if decision.Ok? {
        ProcessNewTimes(w, wallet, found, reversed, x);
        ConcludeCommits(db, decision.value, x);
      }
    }
  }

  lemma NewIsLive(db: Db, w: Wager)
    requires WalletsOk(db) && ValidateExternal(w.terms).Pass? && w == Unresolved(w.terms) && !InsertConflicts(db, w.terms)
    requires LockWallet(db, w).Ok? && Clean(w.terms)
    ensures Live(db, w) && LockWallet(db, w) == Ok(db.wallets[w.terms.walletId])
    ensures HealthyWallet(db.wallets[w.terms.walletId])
  {
    ConstructedIsSound(w.terms);
  }

  lemma ConcludeCommits(db: Db, wr: Writes, x: Context)
    requires Lawful(db, wr, x.ids) && NewRowTimes(wr, x.policy, x.now)
    ensures CommittedNew(db, Done(Commit(db, wr), Reply(wr.row.wager, false)), x.policy, x.ids, x.now)
  {
  }

  /** What Prepare hands on: the request's own command, and a new transaction under its identifiers. */
  lemma PreparedTerms(c: Command, id: Uuid, createdAt: Time, m: Metadata)
    ensures match Prepare(c, id, createdAt, m)
            case Err(e) => !e.AlreadyExists?
            case Ok((r, w)) =>
              && r.command == c && w == Unresolved(RequestTerms(r, id, createdAt)) && ValidateExternal(w.terms).Pass?
  {
  }

  lemma ProcessRequestCommits(s: World, r: Request, w: Wager, found: Option<Wager>, x: Context)
    requires IndexOk(s.db) && WalletsOk(s.db) && RowsOk(s.db.wagers)
    requires w == Unresolved(RequestTerms(r, w.terms.id, w.terms.createdAt)) && ValidateExternal(w.terms).Pass?
    requires FreshCommand(s, r.command, w.terms.id, w.terms.createdAt, found, x)
    ensures match ProcessRequest(s.db, r, w, found, x)
            case Err(e) => !e.AlreadyExists?
            case Ok(done) =>
              if done.reply.idempotentReplay then done.db == s.db else CommittedNew(s.db, done, s.policy, x.ids, x.now)
  {
    hide IndexOk, WalletsOk, RowsOk, CommittedNew;
    if InsertConflicts(s.db, w.terms) {
      ExistingIsFound(s.db, r, w.terms);
    } else {
      ProcessInsertedCommits(s.db, w, found, x);
    }
  }

  /** Process either replays and changes nothing, or commits lawful writes, or fails and changes nothing. */
  lemma ProcessCommits(s: World, c: Command, id: Uuid, createdAt: Time, found: Option<Wager>, x: Context)
    requires IndexOk(s.db) && WalletsOk(s.db) && RowsOk(s.db.wagers) && FreshCommand(s, c, id, createdAt, found, x)
    ensures match Process(s.db, c, id, createdAt, found, x)
            case Err(e) => !e.AlreadyExists?
            case Ok(done) =>
              if done.reply.idempotentReplay then done.db == s.db else CommittedNew(s.db, done, s.policy, x.ids, x.now)
  {
    hide Prepare, ProcessRequest, CommittedNew, ExternalIndexOk, KeyIndexOk, MayHaveSeen;
    PreparedTerms(c, id, createdAt, x.metadata);
    var prepared := Prepare(c, id, createdAt, x.metadata);
    if prepared.Ok? {
      ProcessRequestCommits(s, prepared.value.0, prepared.value.1, found, x);
    }
  }

  /** A refused insert always has a row to answer with: the final ErrAlreadyExists is unreachable. */
  lemma ExistingIsFound(db: Db, r: Request, t: Terms)
    requires IndexOk(db) && t.id !in db.wagers && InsertConflicts(db, t)
    requires t.providerId == r.command.providerId && t.externalId == r.command.externalId
    requires t.idempotencyKey == r.command.idempotencyKey
    ensures ResolveExisting(db, r) != Err(AlreadyExists)
    ensures ResolveExisting(db, r).Ok? ==> ResolveExisting(db, r).value.idempotentReplay
  {
  }

  /** The new row is stamped with the reading; a parked row gets its first retry state. */
  predicate NewRowTimes(wr: Writes, p: Policy, now: Time) {
    && wr.row.wager.updatedAt == now
    && (wr.row.retry.Some? ==>
          var r := wr.row.retry.value;
          r.count == 0 && r.expiresAt == now + p.ttl && r.nextAttemptAt == NextAttemptAt(p, now, r.expiresAt, 1))
  }

  lemma SettleTimes(w: Wager, wallet: Wallet, reversed: bool, x: Context)
    requires Settle(w, wallet, reversed, x).Ok?
    ensures var wr := Settle(w, wallet, reversed, x).value;
            wr.row.wager.updatedAt == x.now && wr.row.retry.None? && wr.row.wager.terms == w.terms
  {
  }

  lemma ProcessNewTimes(w: Wager, wallet: Wallet, found: Option<Wager>, reversed: bool, x: Context)
    requires ProcessNew(w, wallet, found, reversed, x).Ok?
    ensures NewRowTimes(ProcessNew(w, wallet, found, reversed, x).value, x.policy, x.now)
    ensures ProcessNew(w, wallet, found, reversed, x).value.row.wager.terms == w.terms
  {
    if w.terms.referenceExternalId == "" {
      SettleTimes(w, wallet, reversed, x);
    } else {
      match ResolveOutcome(w, found, x.now).value
      case Available(w') => SettleTimes(w', wallet, reversed, x);
      case _ =>
    }
  }

  /** What RetryPending leaves as retry state, if the row stays pending. */
  predicate RetriedRowTimes(wr: Writes, r: Engine.Retry, p: Policy, now: Time, later: Time) {
    && now <= wr.row.wager.updatedAt <= later
    && (wr.row.retry.Some? ==>
          && now < r.expiresAt && wr.row.retry.value.expiresAt == r.expiresAt && wr.row.retry.value.count == r.count + 1
          && wr.row.retry.value.nextAttemptAt == NextAttemptAt(p, now, r.expiresAt, r.count + 2))
  }

  lemma RetryPendingTimes(row: WagerRow, wallet: Wallet, found: Option<Wager>, reversed: bool, later: Time, x: Context)
    requires row.retry.Some? && x.now <= later && RetryPending(row, wallet, found, reversed, later, x).Ok?
    ensures RetriedRowTimes(RetryPending(row, wallet, found, reversed, later, x).value, row.retry.value, x.policy, x.now, later)
  {
    if x.now < row.retry.value.expiresAt {
      match ResolveOutcome(row.wager, found, x.now).value
      case Available(w') => SettleTimes(w', wallet, reversed, x);
      case _ =>
    }
  }

  ghost predicate CommittedRetry(db: Db, d: Db, id: Uuid, p: Policy, ids: Ids, now: Time, later: Time)
    requires id in db.wagers && db.wagers[id].retry.Some?
  {
    exists wr :: Lawful(db, wr, ids) && d == Commit(db, wr) && wr.row.wager.terms == db.wagers[id].wager.terms
                 && RetriedRowTimes(wr, db.wagers[id].retry.value, p, now, later)
  }

  lemma RetryCommits(db: Db, id: Uuid, found: Option<Wager>, later: Time, x: Context)
    requires WalletsOk(db) && RowsOk(db.wagers) && RefsOk(db.wagers)
    requires id in db.wagers && db.wagers[id].retry.Some? && MayHaveSeen(db, ReferenceKey(db.wagers[id].wager.terms), found)
    requires var w := db.wagers[id].wager; InTime(w, db.wallets[w.terms.walletId], x.now) && x.now <= later
    requires x.ids.entry != NIL_UUID
    ensures match RetryOne(db, id, found, later, x)
            case Err(e) => e == InvalidMoney
            case Ok(d) => CommittedRetry(db, d, id, x.policy, x.ids, x.now, later)
  {
    var row := db.wagers[id];
    var y := x.(metadata := row.retry.value.metadata);
    RetryLawful(db, id, found, later, y);
    var wallet, reversed := db.wallets[row.wager.terms.walletId], HasReversal(db, ReferenceOf(row.wager, found));
    assert LockWallet(db, row.wager) == Ok(wallet);
    var decision := RetryPending(row, wallet, found, reversed, later, y);
    if decision.Ok? {
      RetryPendingTimes(row, wallet, found, reversed, later, y);
      var wr := decision.value;
      assert RetryOne(db, id, found, later, x) == Ok(Commit(db, wr));
      assert Lawful(db, wr, x.ids);
    }
  }

  lemma GiveUpCommits(s: World, id: Uuid, now: Time, ids: Ids)
    requires WalletsOk(s.db) && RowsOk(s.db.wagers) && RefsOk(s.db.wagers) && Abandoned(s, id, now)
    ensures FailOne(s.db, id, now).Ok?
    ensures exists wr :: Lawful(s.db, wr, ids) && FailOne(s.db, id, now).value == Commit(s.db, wr)
                         && wr.row.wager.updatedAt == now && wr.row.retry.None?
  {
    PendingIsLive(s.db, id);
    FailLawful(s.db, s.db.wagers[id].wager, now, ids);
    var wr := FailPending(s.db.wagers[id].wager, now).value;
    assert Lawful(s.db, wr, ids);
  }
}
