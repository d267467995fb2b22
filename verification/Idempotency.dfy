/**
 Idempotency over whole runs (internal/application/wager_service.go, wager_request.go): once a
 command has committed, every later copy of it, at any point of any run, changes nothing and
 answers with the persisted transaction.
 */
module Idempotency {
  import opened Basics
  import opened Wagers
  import opened Engine
  import opened Bookkeeping
  import opened Commands
  import opened EngineInvariant
  import opened EngineDecisions
  import opened EngineRuns
  import opened EngineSafety

  /** Two commands with the same idempotency digest agree on every business field. */
  lemma HashCoversBusinessFields(c: Command, c': Command, id: Uuid, at: Time, m: Metadata)
    requires Prepare(c, id, at, m).Ok? && Prepare(c', id, at, m).Ok?
    requires Prepare(c, id, at, m).value.0.payloadHash == Prepare(c', id, at, m).value.0.payloadHash
    ensures c' == c.(idempotencyKey := c'.idempotencyKey)
  {
    ParsedFields(c);
    ParsedFields(c');
  }

  /** The transaction recorded under the request's key or external id decides the answer, and nothing is written. */
  lemma RecordedAnswer(db: Db, r: Request, w: Wager, found: Option<Wager>, x: Context)
    requires IndexOk(db) && w.terms.id !in db.wagers
    requires w.terms.providerId == r.command.providerId && w.terms.externalId == r.command.externalId
    requires w.terms.idempotencyKey == r.command.idempotencyKey
    ensures var key, ext := IdempotencyKey(w.terms), ExternalKey(w.terms);
            && (key in db.byKey ==>
                  var known := db.wagers[db.byKey[key]].wager;
                  ProcessRequest(db, r, w, found, x) ==
                  if known.terms.payloadHash == Some(r.payloadHash) then Ok(Done(db, Reply(known, true)))
                  else Err(IdempotencyConflict))
            && (key !in db.byKey && ext in db.byExternal ==>
                  ProcessRequest(db, r, w, found, x) == Err(ExternalTransactionConflict))
  {
  }

  /** The command is recorded in the database as the transaction `known`. */
  predicate Records(db: Db, c: Command, known: Uuid) {
    && known in db.wagers && WellFormed(c)
    && var t := db.wagers[known].wager.terms;
       t.kind.IsExternal() && t.providerId == c.providerId && t.idempotencyKey == c.idempotencyKey
       && t.payloadHash.Some? && Digests(t.payloadHash.value, c)
  }

  lemma RecordsPersist(db: Db, d: Db, c: Command, known: Uuid)
    requires Records(db, c, known) && Extends(db, d)
    ensures Records(d, c, known) && d.wagers[known].wager.terms == db.wagers[known].wager.terms
    ensures db.wagers[known].wager.status.IsTerminal() ==> d.wagers[known] == db.wagers[known]
  {
  }

  /** A copy of a recorded command is answered from the record. */
  lemma CopyIsAnswered(db: Db, c: Command, known: Uuid, id: Uuid, createdAt: Time, found: Option<Wager>, x: Context)
    requires IndexOk(db) && Records(db, c, known) && id !in db.wagers && id != NIL_UUID && createdAt != ZERO_TIME
    requires !Blank(x.metadata.correlationId)
    ensures Process(db, c, id, createdAt, found, x) == Ok(Done(db, Reply(db.wagers[known].wager, true)))
  {
    hide Prepare, ProcessRequest, Digests, WellFormed, SameOperation, Covers;
    PreparesExactly(c, id, createdAt, x.metadata);
    var p := Prepare(c, id, createdAt, x.metadata).value;
    DigestIsUnique(p.0.payloadHash, db.wagers[known].wager.terms.payloadHash.value, c);
    CarriesKeys(p.1.terms, c, id, createdAt);
    assert Listed(db.byKey, IdempotencyKey(db.wagers[known].wager.terms), known);
    RecordedAnswer(db, p.0, p.1, found, x);
  }

  lemma CarriesKeys(t: Terms, c: Command, id: Uuid, at: Time)
    requires Carries(t, c, id, at)
    ensures t.id == id && ExternalKey(t) == (c.providerId, c.externalId) && IdempotencyKey(t) == (c.providerId, c.idempotencyKey)
    ensures ReferenceKey(t) == (c.providerId, c.referenceExternalId)
  {
  }

  /** A Process that commits a new transaction records its command. */
  lemma CommittedIsRecorded(s: World, c: Command, id: Uuid, createdAt: Time, found: Option<Wager>, x: Context)
    requires IndexOk(s.db) && WalletsOk(s.db) && RowsOk(s.db.wagers) && FreshCommand(s, c, id, createdAt, found, x)
    requires var r := Process(s.db, c, id, createdAt, found, x); r.Ok? && !r.value.reply.idempotentReplay
    ensures var done := Process(s.db, c, id, createdAt, found, x).value;
            Records(done.db, c, id) && done.reply.wager.terms.id == id
  {
    hide Prepare, ProcessInserted, Digests, WellFormed, SameOperation, Covers, FreshIds, Reading, WalletsOk, RowsOk;
    PreparesExactly(c, id, createdAt, x.metadata);
    var p := Prepare(c, id, createdAt, x.metadata).value;
    CarriesKeys(p.1.terms, c, id, createdAt);
    assert Process(s.db, c, id, createdAt, found, x) == ProcessRequest(s.db, p.0, p.1, found, x);
    if InsertConflicts(s.db, p.1.terms) {
      ExistingIsFound(s.db, p.0, p.1.terms);
    } else {
      InsertedIsRecorded(s.db, p.1, found, x);
    }
  }

  lemma InsertedIsRecorded(db: Db, w: Wager, found: Option<Wager>, x: Context)
    requires ProcessInserted(db, w, found, x).Ok? && w == Unresolved(w.terms)
    ensures var done := ProcessInserted(db, w, found, x).value;
            && w.terms.id in done.db.wagers && done.db.wagers[w.terms.id].wager.terms == w.terms
            && done.reply.wager.terms == w.terms
  {
    var wallet := LockWallet(db, w).value;
    var reversed := HasReversal(db, ReferenceOf(w, found));
    ProcessNewTimes(w, wallet, found, reversed, x);
  }

  /**
   A command that is recorded in state `s` is never executed again: after any
   further run, any new copy of it, with any new UUIDs, clock readings and lookups, is a step that
   changes nothing and answers with the recorded transaction; once finished, with the same answer for ever.
   */
  lemma CopiesChangeNothing(s: World, c: Command, known: Uuid, actions: seq<Action>,
                            id: Uuid, createdAt: Time, found: Option<Wager>, x: Context)
    requires WorldInv(s) && Legal(s, actions) && Records(s.db, c, known)
    requires FreshCommand(Run(s, actions), c, id, createdAt, found, x) && !Blank(x.metadata.correlationId)
    ensures var d := Run(s, actions).db;
            && known in d.wagers && d.wagers[known].wager.terms == s.db.wagers[known].wager.terms
            && Process(d, c, id, createdAt, found, x) == Ok(Done(d, Reply(d.wagers[known].wager, true)))
            && (s.db.wagers[known].wager.status.IsTerminal() ==> d.wagers[known] == s.db.wagers[known])
    ensures Next(Run(s, actions), Submit(c, id, createdAt, found, x)) == Run(s, actions)
  {
    hide Process, WorldInv, Records, FreshIds, MayHaveSeen, Legal, Enabled;
    RunKeepsRecords(s, c, known, actions);
    CopyIsAnswered(Run(s, actions).db, c, known, id, createdAt, found, x);
  }

  lemma RunKeepsRecords(s: World, c: Command, known: Uuid, actions: seq<Action>)
    requires WorldInv(s) && Legal(s, actions) && Records(s.db, c, known)
    ensures var d := Run(s, actions).db;
            && IndexOk(d) && Records(d, c, known) && d.wagers[known].wager.terms == s.db.wagers[known].wager.terms
            && (s.db.wagers[known].wager.status.IsTerminal() ==> d.wagers[known] == s.db.wagers[known])
  {
    RunIsSafe(s, actions);
    RecordsPersist(s.db, Run(s, actions).db, c, known);
  }

  /** An answer of Process, for the first time or from the record, names the transaction that records the command. */
  lemma AnsweredIsRecorded(s: World, c: Command, id: Uuid, createdAt: Time, found: Option<Wager>, x: Context)
    requires IndexOk(s.db) && WalletsOk(s.db) && RowsOk(s.db.wagers) && FreshCommand(s, c, id, createdAt, found, x)
    requires Process(s.db, c, id, createdAt, found, x).Ok?
    ensures var done := Process(s.db, c, id, createdAt, found, x).value; Records(done.db, c, done.reply.wager.terms.id)
  {
    hide Process, Records, RowsOk, WalletsOk, FreshCommand;
    var done := Process(s.db, c, id, createdAt, found, x).value;
    if done.reply.idempotentReplay {
      ReplayIsRecorded(s.db, c, id, createdAt, found, x);
    } else {
      CommittedIsRecorded(s, c, id, createdAt, found, x);
    }
  }

  lemma ReplayIsRecorded(db: Db, c: Command, id: Uuid, createdAt: Time, found: Option<Wager>, x: Context)
    requires KeyIndexOk(db.wagers, db.byKey) && RowsOk(db.wagers)
    requires var r := Process(db, c, id, createdAt, found, x); r.Ok? && r.value.reply.idempotentReplay
    ensures var done := Process(db, c, id, createdAt, found, x).value;
            done.db == db && Records(db, c, done.reply.wager.terms.id)
  {
    hide Prepare, WellFormed, SameOperation, Covers, Digests, Stored;
    PreparesExactly(c, id, createdAt, x.metadata);
    var p := Prepare(c, id, createdAt, x.metadata).value;
    assert Process(db, c, id, createdAt, found, x) == ProcessRequest(db, p.0, p.1, found, x);
    assert InsertConflicts(db, p.1.terms);
    var known := db.byKey[(c.providerId, c.idempotencyKey)];
    assert RowOk(known, db.wagers[known]);
  }

  /**
   The main result. Once Process has answered a command, it never executes it again: after any
   further run, any new copy, with any UUIDs, clock readings, lookups and correlation id, changes
   nothing and answers with the same transaction.
   */
  lemma AnsweredForEver(s: World, c: Command, id: Uuid, createdAt: Time, found: Option<Wager>, x: Context,
                        actions: seq<Action>, id': Uuid, createdAt': Time, found': Option<Wager>, x': Context)
    requires WorldInv(s) && FreshCommand(s, c, id, createdAt, found, x) && Process(s.db, c, id, createdAt, found, x).Ok?
    requires Legal(Next(s, Submit(c, id, createdAt, found, x)), actions)
    requires var later := Run(Next(s, Submit(c, id, createdAt, found, x)), actions);
             FreshCommand(later, c, id', createdAt', found', x') && !Blank(x'.metadata.correlationId)
    ensures var reply := Process(s.db, c, id, createdAt, found, x).value.reply;
            var d := Run(Next(s, Submit(c, id, createdAt, found, x)), actions).db;
            && reply.wager.terms.id in d.wagers
            && Process(d, c, id', createdAt', found', x') == Ok(Done(d, Reply(d.wagers[reply.wager.terms.id].wager, true)))
            && d.wagers[reply.wager.terms.id].wager.terms == reply.wager.terms
            && (reply.wager.status.IsTerminal() ==> d.wagers[reply.wager.terms.id].wager == reply.wager)
  {
    var done := Process(s.db, c, id, createdAt, found, x).value;
    var s' := Next(s, Submit(c, id, createdAt, found, x));
    AnsweredIsRecorded(s, c, id, createdAt, found, x);
    ReplyIsStored(s, c, id, createdAt, found, x);
    StepKeepsWorld(s, Submit(c, id, createdAt, found, x));
    CopiesChangeNothing(s', c, done.reply.wager.terms.id, actions, id', createdAt', found', x');
  }

  lemma ReplyIsStored(s: World, c: Command, id: Uuid, createdAt: Time, found: Option<Wager>, x: Context)
    requires IndexOk(s.db) && WalletsOk(s.db) && RowsOk(s.db.wagers) && FreshCommand(s, c, id, createdAt, found, x)
    requires Process(s.db, c, id, createdAt, found, x).Ok?
    ensures var done := Process(s.db, c, id, createdAt, found, x).value;
            done.reply.wager.terms.id in done.db.wagers && done.db.wagers[done.reply.wager.terms.id].wager == done.reply.wager
  {
    ProcessCommits(s, c, id, createdAt, found, x);
    var done := Process(s.db, c, id, createdAt, found, x).value;
    if done.reply.idempotentReplay {
      ReplayAnswers(s.db, c, id, createdAt, found, x);
    }
  }

  lemma ReplayAnswers(db: Db, c: Command, id: Uuid, createdAt: Time, found: Option<Wager>, x: Context)
    requires KeyIndexOk(db.wagers, db.byKey) && RowsOk(db.wagers)
    requires var r := Process(db, c, id, createdAt, found, x); r.Ok? && r.value.reply.idempotentReplay
    ensures var w := Process(db, c, id, createdAt, found, x).value.reply.wager; w.terms.id in db.wagers && db.wagers[w.terms.id].wager == w
  {
    var p := Prepare(c, id, createdAt, x.metadata).value;
    assert Process(db, c, id, createdAt, found, x) == ProcessRequest(db, p.0, p.1, found, x);
    var key := (p.0.command.providerId, p.0.command.idempotencyKey);
    assert RowOk(db.byKey[key], db.wagers[db.byKey[key]]);
  }

  /** Reusing a recorded key with another payload, or a recorded external id under a free key, is refused. */
  lemma ConflictsAreRefused(db: Db, known: Uuid, c: Command, id: Uuid, createdAt: Time, found: Option<Wager>, x: Context)
    requires IndexOk(db) && known in db.wagers && db.wagers[known].wager.terms.kind.IsExternal()
    requires id !in db.wagers && Prepare(c, id, createdAt, x.metadata).Ok?
    ensures var t := db.wagers[known].wager.terms;
            var r := Prepare(c, id, createdAt, x.metadata).value.0;
            && ((c.providerId, c.idempotencyKey) == IdempotencyKey(t) && t.payloadHash != Some(r.payloadHash) ==>
                  Process(db, c, id, createdAt, found, x) == Err(IdempotencyConflict))
            && ((c.providerId, c.externalId) == ExternalKey(t) && (c.providerId, c.idempotencyKey) !in db.byKey ==>
                  Process(db, c, id, createdAt, found, x) == Err(ExternalTransactionConflict))
  {
    PreparedTerms(c, id, createdAt, x.metadata);
    var p := Prepare(c, id, createdAt, x.metadata).value;
    var t := db.wagers[known].wager.terms;
    assert Listed(db.byKey, IdempotencyKey(t), known) && Listed(db.byExternal, ExternalKey(t), known);
    RecordedAnswer(db, p.0, p.1, found, x);
  }

  /** A completed message is never processed again: every redelivery, after any further run, changes nothing. */
  lemma RedeliveryChangesNothing(s: World, m: Message, actions: seq<Action>,
                                 id: Uuid, createdAt: Time, found: Option<Wager>, x: Context, at: Time)
    requires WorldInv(s) && Legal(s, actions)
    requires m.id in s.db.inbox && s.db.inbox[m.id].hash == m.hash
    ensures Handle(Run(s, actions).db, m, id, createdAt, found, x, at) == Ok(Run(s, actions).db)
  {
    RunIsSafe(s, actions);
    assert s.db.inbox[m.id].completedAt.Some?;
  }

  /** One operation moves money at most once: no two ledger entries share an idempotency key or an external id. */
  lemma OneMovementPerOperation(db: Db, i: nat, j: nat)
    requires RowsOk(db.wagers) && IndexOk(db) && LedgerMatches(db.wagers, db.ledger) && i < |db.ledger| && j < |db.ledger|
    requires db.ledger[i].transactionId in db.wagers && db.ledger[j].transactionId in db.wagers
    requires var a, b := db.wagers[db.ledger[i].transactionId].wager.terms, db.wagers[db.ledger[j].transactionId].wager.terms;
             && a.kind.IsExternal() && b.kind.IsExternal()
             && (IdempotencyKey(a) == IdempotencyKey(b) || ExternalKey(a) == ExternalKey(b))
    ensures i == j
  {
    assert EntryOk(db.wagers, db.ledger[i]) && EntryOk(db.wagers, db.ledger[j]);
    var p, q := db.ledger[i].transactionId, db.ledger[j].transactionId;
    assert Listed(db.byKey, IdempotencyKey(db.wagers[p].wager.terms), p) && Listed(db.byKey, IdempotencyKey(db.wagers[q].wager.terms), q);
    assert Listed(db.byExternal, ExternalKey(db.wagers[p].wager.terms), p) && Listed(db.byExternal, ExternalKey(db.wagers[q].wager.terms), q);
  }
}
