/**
 Safety of every run: the invariant, the clock, the retry bound and the inbox hold in every
 reachable state, and committed history is never rewritten.
 */
module EngineSafety {
  import opened Basics
  import opened Wagers
  import opened Wallets
  import opened Engine
  import opened EngineInvariant
  import opened EnginePreservation
  import opened EngineOpening
  import opened EngineRuns
  import Backoff

  // ----- clocks and retries -----

  predicate TimesOk(db: Db, time: Time) {
    && (forall w :: w in db.wallets ==> db.wallets[w].updatedAt <= time)
    && (forall id :: id in db.wagers ==> db.wagers[id].wager.updatedAt <= time)
  }

  /** Positive durations, as the configuration demands, whose doubling fits in 64 bits. */
  predicate PolicyOk(p: Policy) {
    && Backoff.IsDuration(p.initialDelay) && Backoff.IsDuration(p.maxDelay) && 0 < p.ttl
    && Backoff.Reach(p.initialDelay, p.maxDelay) < Backoff.INT64_LIMIT
  }

  function FirstDelay(p: Policy): int { Min(p.initialDelay, p.maxDelay) }

  /** n * d, by repeated addition */
  function Times(n: int, d: int): int
    decreases n
  {
    if n <= 0 then 0 else Times(n - 1, d) + d
  }

  lemma {:induction false} TimesIsProduct(n: int, d: int)
    requires n >= 0
    ensures Times(n, d) == n * d
  {
    if n > 0 { TimesIsProduct(n - 1, d); }
  }

  /** The n-th retry was at least n first-delays after the transaction was parked, and before it expires. */
  predicate RetryOk(p: Policy, r: Engine.Retry) {
    && 0 <= r.count && r.nextAttemptAt <= r.expiresAt && Times(r.count, FirstDelay(p)) < p.ttl
    && (r.nextAttemptAt == r.expiresAt || r.nextAttemptAt >= r.expiresAt - p.ttl + Times(r.count + 1, FirstDelay(p)))
  }

  /** No attempt is set past the expiry; the bound on the number of retries needs delays that do not overflow. */
  predicate ScheduleOk(p: Policy, row: WagerRow) {
    row.retry.Some? ==>
      var r := row.retry.value;
      && 0 <= r.count && r.nextAttemptAt <= r.expiresAt
      && (0 < p.ttl ==> row.wager.terms.createdAt <= r.expiresAt)
      && (PolicyOk(p) ==> RetryOk(p, r))
  }

  predicate RetriesOk(db: Db, p: Policy) {
    forall id {:trigger ScheduleOk(p, db.wagers[id])} :: id in db.wagers ==> ScheduleOk(p, db.wagers[id])
  }

  lemma DelayAtLeastFirst(p: Policy, attempt: int)
    requires PolicyOk(p)
    ensures Backoff.LoopDelay(p.initialDelay, p.maxDelay, attempt) >= FirstDelay(p) > 0
  {
    Backoff.LoopIsDelay(p.initialDelay, p.maxDelay, attempt);
    var k := if attempt <= 1 then 0 else attempt - 1;
    Backoff.PowersGrow(0, k);
    assert p.initialDelay * Backoff.Pow2(k) >= p.initialDelay;
  }

  /** Every next attempt of a row that has not expired is after now exactly when no doubling of the delay overflows. */
  lemma AdvancesExactly(p: Policy)
    requires Backoff.IsDuration(p.initialDelay) && Backoff.IsDuration(p.maxDelay) && 0 < p.ttl
    ensures (forall now, expiresAt, attempt :: now < expiresAt ==> now < NextAttemptAt(p, now, expiresAt, attempt)) <==> PolicyOk(p)
  {
    if PolicyOk(p) {
      forall now, expiresAt, attempt | now < expiresAt
        ensures now < NextAttemptAt(p, now, expiresAt, attempt)
      {
        DelayAtLeastFirst(p, attempt);
      }
    } else {
      var attempt := Backoff.OverflowingAttempt(p.initialDelay, p.maxDelay);
      assert NextAttemptAt(p, 0, 1, attempt) < 0;
    }
  }

  lemma ParkedRetryOk(p: Policy, now: Time, r: Engine.Retry)
    requires PolicyOk(p) && r.count == 0 && r.expiresAt == now + p.ttl
    requires r.nextAttemptAt == NextAttemptAt(p, now, r.expiresAt, 1)
    ensures RetryOk(p, r) && now < r.nextAttemptAt
  {
    DelayAtLeastFirst(p, 1);
  }

  /**
   A retry that finds the reference still missing moves the next attempt strictly forward,
   never past the expiry, and keeps the bound on the number of retries.
   */
  lemma RescheduledRetryOk(p: Policy, now: Time, r: Engine.Retry, r': Engine.Retry)
    requires PolicyOk(p) && RetryOk(p, r) && r.nextAttemptAt <= now < r.expiresAt
    requires r'.count == r.count + 1 && r'.expiresAt == r.expiresAt
    requires r'.nextAttemptAt == NextAttemptAt(p, now, r.expiresAt, r.count + 2)
    ensures RetryOk(p, r') && now < r'.nextAttemptAt && r.nextAttemptAt < r'.nextAttemptAt <= r.expiresAt
  {
    DelayAtLeastFirst(p, r.count + 2);
    assert Times(r.count + 2, FirstDelay(p)) == Times(r.count + 1, FirstDelay(p)) + FirstDelay(p);
  }

  // ----- inbox -----

  predicate InboxOk(db: Db) {
    forall m :: m in db.inbox ==> db.inbox[m].completedAt.Some?
  }

  // ----- growth -----

  /** `d` continues `db`: nothing recorded is lost or rewritten, and finished transactions never change. */
  predicate Extends(db: Db, d: Db) {
    && (forall w :: w in db.wallets ==>
          && w in d.wallets && d.wallets[w].id == db.wallets[w].id && d.wallets[w].playerId == db.wallets[w].playerId
          && d.wallets[w].balance.currency == db.wallets[w].balance.currency
          && db.wallets[w].version <= d.wallets[w].version)
    && (forall id :: id in db.wagers ==>
          && id in d.wagers && d.wagers[id].wager.terms == db.wagers[id].wager.terms
          && (db.wagers[id].wager.status.IsTerminal() ==> d.wagers[id] == db.wagers[id]))
    && db.ledger <= d.ledger && db.outbox <= d.outbox
    && (forall m :: m in db.inbox && db.inbox[m].completedAt.Some? ==>
          m in d.inbox && d.inbox[m].hash == db.inbox[m].hash && d.inbox[m].completedAt.Some?)
  }

  lemma CommitExtends(db: Db, wr: Writes, ids: Ids)
    requires Lawful(db, wr, ids)
    ensures Extends(db, Commit(db, wr))
  {
    hide RowOk, RefOk, EntryFor, HasReversal;
  }

  /** Creation adds one wallet row stamped now, and perhaps one opening with its records. */
  predicate Adds(db: Db, d: Db, walletId: Uuid, openingId: Uuid, now: Time) {
    && walletId !in db.wallets && walletId in d.wallets && d.wallets == db.wallets[walletId := d.wallets[walletId]]
    && d.wallets[walletId].updatedAt == now && d.inbox == db.inbox
    && (|| d.wagers == db.wagers
        || (&& openingId !in db.wagers && openingId in d.wagers && d.wagers == db.wagers[openingId := d.wagers[openingId]]
            && d.wagers[openingId].wager.updatedAt == now && d.wagers[openingId].retry.None?))
    && db.ledger <= d.ledger && db.outbox <= d.outbox
  }

  lemma CreateAdds(db: Db, c: OpenWallet, walletId: Uuid, openingId: Uuid, x: Context)
    requires CreateWallet(db, c, walletId, openingId, x).Ok?
    ensures Adds(db, CreateWallet(db, c, walletId, openingId, x).value, walletId, openingId, x.now)
  {
    hide WalletTaken, BuildEntry, ProcessedEventData, BalanceChangedEventData;
    var d := CreateWallet(db, c, walletId, openingId, x).value;
    var wallet := d.wallets[walletId];
    if d.wagers != db.wagers {
      var mid := db.(wallets := db.wallets[walletId := wallet]);
      assert CreateOpening(mid, wallet, openingId, x) == Ok(d);
      OpeningAdds(mid, wallet, openingId, x);
    }
  }

  lemma OpeningAdds(db: Db, wallet: Wallet, openingId: Uuid, x: Context)
    requires CreateOpening(db, wallet, openingId, x).Ok?
    ensures var d := CreateOpening(db, wallet, openingId, x).value;
            && d.wallets == db.wallets && d.inbox == db.inbox && db.ledger <= d.ledger && db.outbox <= d.outbox
            && openingId !in db.wagers && openingId in d.wagers && d.wagers == db.wagers[openingId := d.wagers[openingId]]
            && d.wagers[openingId].wager.updatedAt == x.now && d.wagers[openingId].retry.None?
  {
  }

  lemma AddsKeepsTimes(s: World, d: Db, walletId: Uuid, openingId: Uuid, now: Time)
    requires Adds(s.db, d, walletId, openingId, now) && now <= s.time
    requires TimesOk(s.db, s.time) && RetriesOk(s.db, s.policy) && InboxOk(s.db)
    ensures TimesOk(d, s.time) && RetriesOk(d, s.policy) && InboxOk(d) && Extends(s.db, d)
  {
  }

  // ----- one step -----

  /** The invariant of worlds. */
  ghost predicate WorldInv(s: World) {
    Inv(s.db) && TimesOk(s.db, s.time) && RetriesOk(s.db, s.policy) && InboxOk(s.db)
  }

  /** `s'` continues `s` within the invariant. */
  ghost predicate Continues(s: World, s': World) {
    WorldInv(s') && Extends(s.db, s'.db) && s'.policy == s.policy && s.time <= s'.time
  }

  /** Lawful writes stamped no later than now, with a good retry state, keep the invariant of worlds. */
  lemma CommitKeepsWorld(s: World, wr: Writes, ids: Ids)
    requires WorldInv(s) && Lawful(s.db, wr, ids) && FreshIds(s.db, ids)
    requires wr.row.wager.updatedAt <= s.time && ScheduleOk(s.policy, wr.row)
    ensures WorldInv(s.(db := Commit(s.db, wr))) && Extends(s.db, Commit(s.db, wr))
  {
    CommitKeepsInv(s.db, wr, ids);
    CommitExtends(s.db, wr, ids);
    CommitKeepsTimes(s, wr, ids);
  }

  lemma CommitKeepsTimes(s: World, wr: Writes, ids: Ids)
    requires TimesOk(s.db, s.time) && RetriesOk(s.db, s.policy) && Lawful(s.db, wr, ids)
    requires wr.row.wager.updatedAt <= s.time && ScheduleOk(s.policy, wr.row)
    ensures var d := Commit(s.db, wr); TimesOk(d, s.time) && RetriesOk(d, s.policy)
  {
  }

  lemma CommittedNewKeepsWorld(s: World, done: Done, ids: Ids, now: Time)
    requires WorldInv(s) && CommittedNew(s.db, done, s.policy, ids, now)
    requires FreshIds(s.db, ids) && now <= s.time
    ensures WorldInv(s.(db := done.db)) && Extends(s.db, done.db)
  {
    var wr :| Lawful(s.db, wr, ids) && done.db == Commit(s.db, wr) && wr.row.wager == done.reply.wager
              && NewRowTimes(wr, s.policy, now);
    ParkedScheduleOk(s.policy, now, wr);
    CommitKeepsWorld(s, wr, ids);
  }

  lemma ParkedScheduleOk(p: Policy, now: Time, wr: Writes)
    requires RowOk(wr.row.wager.terms.id, wr.row) && NewRowTimes(wr, p, now)
    ensures ScheduleOk(p, wr.row)
  {
    if wr.row.retry.Some? && PolicyOk(p) {
      ParkedRetryOk(p, now, wr.row.retry.value);
    }
  }

  lemma SubmitKeepsWorld(s: World, c: Command, id: Uuid, createdAt: Time, found: Option<Wager>, x: Context)
    requires WorldInv(s) && FreshCommand(s, c, id, createdAt, found, x)
    ensures var r := Process(s.db, c, id, createdAt, found, x);
            r.Ok? ==> WorldInv(s.(db := r.value.db)) && Extends(s.db, r.value.db)
  {
    ProcessCommits(s, c, id, createdAt, found, x);
    var r := Process(s.db, c, id, createdAt, found, x);
    if r.Ok? && !r.value.reply.idempotentReplay {
      CommittedNewKeepsWorld(s, r.value, x.ids, x.now);
    } else if r.Ok? {
      ExtendsReflexive(s.db);
    }
  }

  lemma CompleteKeepsWorld(s: World, m: Message, at: Time)
    requires WorldInv(s)
    ensures WorldInv(s.(db := Complete(s.db, m, at)))
    ensures m.id in s.db.inbox ==> s.db.inbox[m.id].hash == m.hash ==> Extends(s.db, Complete(s.db, m, at))
    ensures m.id !in s.db.inbox ==> Extends(s.db, Complete(s.db, m, at))
  {
    CompleteKeepsInv(s.db, m, at);
  }

  lemma CompleteKeepsInv(db: Db, m: Message, at: Time)
    requires Inv(db)
    ensures Inv(Complete(db, m, at))
  {
  }

  lemma RetryWrites(s: World, d: Db, id: Uuid, ids: Ids, now: Time, later: Time) returns (wr: Writes)
    requires RetriesOk(s.db, s.policy) && id in s.db.wagers && s.db.wagers[id].retry.Some?
    requires CommittedRetry(s.db, d, id, s.policy, ids, now, later)
    requires s.db.wagers[id].retry.value.nextAttemptAt <= now <= later <= s.time
    ensures Lawful(s.db, wr, ids) && d == Commit(s.db, wr) && wr.row.wager.updatedAt <= s.time
    ensures ScheduleOk(s.policy, wr.row)
  {
    wr :| Lawful(s.db, wr, ids) && d == Commit(s.db, wr) && wr.row.wager.terms == s.db.wagers[id].wager.terms
          && RetriedRowTimes(wr, s.db.wagers[id].retry.value, s.policy, now, later);
    assert ScheduleOk(s.policy, s.db.wagers[id]);
    if wr.row.retry.Some? && PolicyOk(s.policy) {
      RescheduledRetryOk(s.policy, now, s.db.wagers[id].retry.value, wr.row.retry.value);
    }
  }

  lemma CommittedRetryKeepsWorld(s: World, d: Db, id: Uuid, ids: Ids, now: Time, later: Time)
    requires WorldInv(s) && id in s.db.wagers && s.db.wagers[id].retry.Some?
    requires CommittedRetry(s.db, d, id, s.policy, ids, now, later) && FreshIds(s.db, ids)
    requires s.db.wagers[id].retry.value.nextAttemptAt <= now <= later <= s.time
    ensures WorldInv(s.(db := d)) && Extends(s.db, d)
  {
    var wr := RetryWrites(s, d, id, ids, now, later);
    CommitKeepsWorld(s, wr, ids);
  }

  lemma RetryKeepsWorld(s: World, id: Uuid, found: Option<Wager>, later: Time, x: Context)
    requires WorldInv(s) && DueRetry(s, id, found, later, x)
    ensures var r := RetryOne(s.db, id, found, later, x); r.Ok? ==> WorldInv(s.(db := r.value)) && Extends(s.db, r.value)
  {
    RetryCommits(s.db, id, found, later, x);
    var r := RetryOne(s.db, id, found, later, x);
    if r.Ok? {
      CommittedRetryKeepsWorld(s, r.value, id, x.ids, x.now, later);
    }
  }

  lemma GiveUpKeepsWorld(s: World, id: Uuid, now: Time, ids: Ids) returns (d: Db)
    requires WorldInv(s) && Abandoned(s, id, now) && FreshIds(s.db, ids)
    ensures FailOne(s.db, id, now) == Ok(d) && Continues(s, s.(db := d))
  {
    GiveUpCommits(s, id, now, ids);
    d := FailOne(s.db, id, now).value;
    var wr :| Lawful(s.db, wr, ids) && d == Commit(s.db, wr) && wr.row.wager.updatedAt == now && wr.row.retry.None?;
    CommitKeepsWorld(s, wr, ids);
  }

  /** Some identifiers are always fresh. */
  lemma FreshIdsExist(db: Db) returns (ids: Ids)
    ensures FreshIds(db, ids)
  {
    var entry, event := 1, 1;
    for i := 0 to |db.ledger|
      invariant entry >= 1 && forall j :: 0 <= j < i ==> db.ledger[j].id < entry
    {
      entry := Max(entry, db.ledger[i].id + 1);
    }
    for i := 0 to |db.outbox|
      invariant event >= 1 && forall j :: 0 <= j < i ==> db.outbox[j].eventId < event
    {
      event := Max(event, db.outbox[i].eventId + 1);
    }
    ids := Ids(entry, event, event + 1);
  }

  lemma OpenKeepsWorld(s: World, c: OpenWallet, walletId: Uuid, openingId: Uuid, x: Context)
    requires WorldInv(s) && Enabled(s, Open(c, walletId, openingId, x))
    ensures var r := CreateWallet(s.db, c, walletId, openingId, x);
            r.Ok? ==> WorldInv(s.(db := r.value)) && Extends(s.db, r.value)
  {
    if CreateWallet(s.db, c, walletId, openingId, x).Ok? {
      CreateWalletKeepsInv(s.db, c, walletId, openingId, x);
      CreateAdds(s.db, c, walletId, openingId, x);
      AddsKeepsTimes(s, CreateWallet(s.db, c, walletId, openingId, x).value, walletId, openingId, x.now);
    }
  }

  lemma OpenStep(s: World, a: Action)
    requires WorldInv(s) && Enabled(s, a) && a.Open?
    ensures Continues(s, Next(s, a))
  {
    OpenKeepsWorld(s, a.request, a.walletId, a.openingId, a.x);
    ExtendsReflexive(s.db);
  }

  lemma CommandStep(s: World, a: Action)
    requires WorldInv(s) && Enabled(s, a) && (a.Submit? || a.Deliver?)
    ensures Continues(s, Next(s, a))
  {
    match a {
      case Submit(c, id, createdAt, found, x) => SubmitKeepsWorld(s, c, id, createdAt, found, x);
      case Deliver(m, id, createdAt, found, x, at) => DeliverKeepsWorld(s, m, id, createdAt, found, x, at);
    }
    ExtendsReflexive(s.db);
  }

  lemma RetryStep(s: World, a: Action)
    requires WorldInv(s) && Enabled(s, a) && a.Retry?
    ensures Continues(s, Next(s, a))
  {
    hide WorldInv, DueRetry, Extends, RetryOne;
    RetryKeepsWorld(s, a.id, a.found, a.later, a.x);
    ExtendsReflexive(s.db);
  }

  lemma GiveUpNext(s: World, a: Action, d: Db)
    requires a.GiveUp? && a.id in s.db.wagers && s.db.wagers[a.id].retry.Some? && FailOne(s.db, a.id, a.now) == Ok(d)
    ensures Next(s, a) == s.(db := d)
  {
  }

  lemma GiveUpStep(s: World, a: Action)
    requires WorldInv(s) && Enabled(s, a) && a.GiveUp?
    ensures Continues(s, Next(s, a))
  {
    var ids := FreshIdsExist(s.db);
    var d := GiveUpKeepsWorld(s, a.id, a.now, ids);
    GiveUpNext(s, a, d);
  }

  lemma TickStep(s: World, to: Time)
    requires WorldInv(s) && s.time <= to
    ensures Continues(s, s.(time := to))
  {
    ExtendsReflexive(s.db);
  }

  /** Every enabled step keeps the invariant and only extends the database. */
  lemma StepKeepsWorld(s: World, a: Action)
    requires WorldInv(s) && Enabled(s, a)
    ensures Continues(s, Next(s, a))
  {
    match a
    case Tick(to) => TickStep(s, to);
    case Open(_, _, _, _) => OpenStep(s, a);
    case Submit(_, _, _, _, _) => CommandStep(s, a);
    case Deliver(_, _, _, _, _, _) => CommandStep(s, a);
    case Retry(_, _, _, _) => RetryStep(s, a);
    case GiveUp(_, _) => GiveUpStep(s, a);
  }

  /** Handle is good whenever the Process inside it is. */
  lemma HandleKeepsWorld(
    s: World, m: Message, id: Uuid, createdAt: Time, found: Option<Wager>, x: Context, at: Time, done: Result<Done>)
    requires WorldInv(s)
    requires done == Process(s.db, m.command, id, createdAt, found, x.(metadata := Metadata(m.id, m.id)))
    requires done.Ok? ==> WorldInv(s.(db := done.value.db)) && Extends(s.db, done.value.db) && done.value.db.inbox == s.db.inbox
    ensures var r := Handle(s.db, m, id, createdAt, found, x, at);
            r.Ok? ==> WorldInv(s.(db := r.value)) && Extends(s.db, r.value)
  {
    hide Process, WorldInv, Extends;
    FinishKeepsWorld(s, m, done, at);
    ExtendsReflexive(s.db);
  }

  lemma DeliverKeepsWorld(s: World, m: Message, id: Uuid, createdAt: Time, found: Option<Wager>, x: Context, at: Time)
    requires WorldInv(s) && FreshCommand(s, m.command, id, createdAt, found, x)
    ensures var r := Handle(s.db, m, id, createdAt, found, x, at);
            r.Ok? ==> WorldInv(s.(db := r.value)) && Extends(s.db, r.value)
  {
    var y := x.(metadata := Metadata(m.id, m.id));
    var done := ProcessedForDelivery(s, m, id, createdAt, found, x);
    HandleKeepsWorld(s, m, id, createdAt, found, x, at, done);
  }

  lemma ProcessedForDelivery(s: World, m: Message, id: Uuid, createdAt: Time, found: Option<Wager>, x: Context)
    returns (done: Result<Done>)
    requires WorldInv(s) && FreshCommand(s, m.command, id, createdAt, found, x)
    ensures done == Process(s.db, m.command, id, createdAt, found, x.(metadata := Metadata(m.id, m.id)))
    ensures done.Ok? ==> WorldInv(s.(db := done.value.db)) && Extends(s.db, done.value.db) && done.value.db.inbox == s.db.inbox
  {
    var y := x.(metadata := Metadata(m.id, m.id));
    MetadataIsFree(s, m.command, id, createdAt, found, x, y.metadata);
    done := Process(s.db, m.command, id, createdAt, found, y);
    SubmitKeepsWorld(s, m.command, id, createdAt, found, y);
    ProcessKeepsInbox(s.db, m.command, id, createdAt, found, y);
  }

  lemma MetadataIsFree(s: World, c: Command, id: Uuid, createdAt: Time, found: Option<Wager>, x: Context, m: Metadata)
    requires FreshCommand(s, c, id, createdAt, found, x)
    ensures FreshCommand(s, c, id, createdAt, found, x.(metadata := m))
  {
  }

  lemma ExtendsReflexive(db: Db)
    ensures Extends(db, db)
  {
  }

  lemma FinishKeepsWorld(s: World, m: Message, done: Result<Done>, at: Time)
    requires done.Ok? ==> WorldInv(s.(db := done.value.db)) && Extends(s.db, done.value.db) && done.value.db.inbox == s.db.inbox
    ensures var r := Finish(m, done, at);
            Register(s.db, m) == Ok(false) && r.Ok? ==> WorldInv(s.(db := r.value)) && Extends(s.db, r.value)
  {
    if done.Ok? && Register(s.db, m) == Ok(false) {
      var d := done.value.db;
      CompleteKeepsWorld(s.(db := d), m, at);
      ExtendsTransitive(s.db, d, Complete(d, m, at));
    }
  }

  /** Process writes no inbox row of its own. */
  lemma ProcessKeepsInbox(db: Db, c: Command, id: Uuid, createdAt: Time, found: Option<Wager>, x: Context)
    ensures var r := Process(db, c, id, createdAt, found, x); r.Ok? ==> r.value.db.inbox == db.inbox
  {
    var p := Prepare(c, id, createdAt, x.metadata);
    if p.Ok? {
      assert Process(db, c, id, createdAt, found, x) == ProcessRequest(db, p.value.0, p.value.1, found, x);
    }
  }

  lemma ExtendsTransitive(a: Db, b: Db, c: Db)
    requires Extends(a, b) && Extends(b, c)
    ensures Extends(a, c)
  {
  }

  // ----- runs -----

  const START: Time := 1

  function Initial(p: Policy): World { World(EMPTY, START, p) }

  lemma InitialWorldInv(p: Policy)
    ensures WorldInv(Initial(p))
  {
    assert forall id :: CountProcessed([], id) == 0 && CountRejected([], id) == 0;
  }

  /** In every reachable state the invariant holds; along every run history only grows. */
  lemma {:induction false} RunIsSafe(s: World, actions: seq<Action>)
    requires WorldInv(s) && Legal(s, actions)
    ensures WorldInv(Run(s, actions)) && Run(s, actions).policy == s.policy
    ensures Extends(s.db, Run(s, actions).db) && s.time <= Run(s, actions).time
  {
    if actions != [] {
      var init := actions[..|actions| - 1];
      RunIsSafe(s, init);
      StepKeepsWorld(Run(s, init), actions[|actions| - 1]);
      ExtendsTransitive(s.db, Run(s, init).db, Run(s, actions).db);
    }
  }
}
