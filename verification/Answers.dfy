/**
 Every use case end to end, as a table over what it is called with: which error, which
 answer, and exactly which records it leaves in which tables (internal/application/wager_service.go,
 wager_reference.go, wallet_service.go, internal/infrastructure/sqs/wager_handler.go).
 */
module Answers {
  import opened Basics
  import opened Money
  import opened MoneyText
  import opened Wagers
  import opened WagerLife
  import opened Wallets
  import opened Engine
  import opened Bookkeeping
  import opened Commands
  import opened EngineInvariant
  import opened EngineDecisions
  import opened EngineOutcomes
  import opened EngineRuns
  import opened Idempotency

  // ----- the decision table over a command -----

  function CommandEffect(kind: string, referenced: Option<Kind>, cents: int): int {
    if kind == "WIN" || kind == "REFUND" then cents
    else if kind == "BET" then -cents
    else if kind == "ROLLBACK" then (if referenced == Some(Bet) then cents else -cents)
    else 0
  }

  function CommandSettles(kind: string, referenced: Option<Kind>, cents: int, balance: int, reversed: bool): Verdict {
    var sum := balance + CommandEffect(kind, referenced, cents);
    if IsReversalKind(kind) && reversed then Turned(DuplicateReversal)
    else if sum < 0 then Turned(if kind == "ROLLBACK" then ReversalInsufficientFunds else BetInsufficientFunds)
    else if sum > MAX_CENTS then OutOfRange
    else Applied(sum)
  }

  /** The command speaks of the provider, player, wallet, round and currency of the transaction. */
  predicate InContext(c: Command, r: Terms) {
    && c.providerId == r.providerId && c.playerId == r.playerId && c.walletId == r.walletId && c.roundId == r.roundId
    && c.currency == r.amount.currency
  }

  predicate MayName(kind: string, referenced: Kind) {
    if kind == "ROLLBACK" then referenced.Bet? || referenced.Win? || referenced.Refund?
    else (kind == "WIN" || kind == "REFUND") && referenced.Bet?
  }

  function CommandVerdict(c: Command, found: Option<Wager>, balance: int, reversed: bool): Verdict
    requires Matches(c.amount)
  {
    var cents := Cents(c.amount);
    if c.referenceExternalId == "" then CommandSettles(c.kind, None, cents, balance, reversed)
    else if found.None? || !found.value.status.IsTerminal() then Waits
    else
      var r := found.value;
      if !r.status.Processed? then Turned(ReferenceNotProcessable)
      else if !InContext(c, r.terms) then Turned(ReferenceMismatch)
      else if !MayName(c.kind, r.terms.kind) then Turned(ReferenceTypeNotAllowed)
      else if IsReversalKind(c.kind) && Print(r.terms.amount.cents) != c.amount then Turned(ReferenceMismatch)
      else CommandSettles(c.kind, Some(r.terms.kind), cents, balance, reversed)
  }

  /** Some processed REFUND or ROLLBACK already undoes the transaction found. */
  predicate Undone(db: Db, found: Option<Wager>) {
    found.Some? && exists id :: id in db.wagers && Undoes(db.wagers[id].wager, found.value.terms.id)
  }

  predicate Undoes(w: Wager, id: Uuid) {
    w.status.Processed? && (w.terms.kind.Refund? || w.terms.kind.Rollback?) && w.referenceId == id
  }

  predicate BearsId(w: Wager, provider: string, external: string) {
    w.terms.kind.IsExternal() && w.terms.providerId == provider && w.terms.externalId == external
  }

  /** The lookup finds the provider's transaction with that external id whenever there is one. */
  lemma LookupIsExact(db: Db, provider: string, external: string)
    requires ExternalIndexOk(db.wagers, db.byExternal)
    ensures match FindByExternal(db, (provider, external))
            case Some(w) => BearsId(w, provider, external) && exists id :: id in db.wagers && db.wagers[id].wager == w
            case None => forall id :: id in db.wagers ==> !BearsId(db.wagers[id].wager, provider, external)
  {
    forall id | id in db.wagers && BearsId(db.wagers[id].wager, provider, external)
      ensures FindByExternal(db, (provider, external)).Some?
    {
      assert Listed(db.byExternal, ExternalKey(db.wagers[id].wager.terms), id);
    }
  }

  // ----- Process -----

  /** The answer to a command that no transaction is recorded for. */
  ghost predicate AnswersNew(db: Db, c: Command, id: Uuid, createdAt: Time, found: Option<Wager>, x: Context, r: Result<Done>)
    requires WellFormed(c)
  {
    if c.walletId !in db.wallets || db.wallets[c.walletId].balance.currency != c.currency then r == Err(InvalidWalletReference)
    else if db.wallets[c.walletId].playerId != c.playerId then r == Err(WalletMismatch)
    else if c.referenceExternalId != "" && Blank(c.referenceExternalId) then r == Err(InvalidWagerReference)
    else Decides(db, c, id, createdAt, found, x, r)
  }

  /** The verdict of the table is carried out on the command's wallet. */
  ghost predicate Decides(db: Db, c: Command, id: Uuid, createdAt: Time, found: Option<Wager>, x: Context, r: Result<Done>)
    requires WellFormed(c) && c.walletId in db.wallets
  {
    var was := db.wallets[c.walletId];
    var v := CommandVerdict(c, found, was.balance.cents, Undone(db, found));
    if v.OutOfRange? then r == Err(InvalidMoney)
    else r.Ok? && exists wr: Writes ::
      && Carries(wr.row.wager.terms, c, id, createdAt)
      && Concludes(wr, v, wr.row.wager.terms, LinkAfter(wr.row.wager.terms, found, v), was, x)
      && Lands(db, r.value.db, wr) && r.value.reply == Reply(wr.row.wager, false)
  }

  /** The answer of Process, case by case, over the fields of the command and the tables it meets. */
  ghost predicate AnswersCommand(db: Db, c: Command, id: Uuid, createdAt: Time, found: Option<Wager>, x: Context, r: Result<Done>)
    requires KeyIndexOk(db.wagers, db.byKey)
  {
    if !WellFormed(c) || Blank(x.metadata.correlationId) then r.Err? && Faulty(c, id, createdAt, x.metadata, r.error)
    else if (c.providerId, c.idempotencyKey) in db.byKey then
      var known := db.wagers[db.byKey[(c.providerId, c.idempotencyKey)]].wager;
      if known.terms.payloadHash.Some? && Digests(known.terms.payloadHash.value, c) then r == Ok(Done(db, Reply(known, true)))
      else r == Err(IdempotencyConflict)
    else if (c.providerId, c.externalId) in db.byExternal then r == Err(ExternalTransactionConflict)
    else AnswersNew(db, c, id, createdAt, found, x, r)
  }

  lemma SameVerdict(c: Command, t: Terms, found: Option<Wager>, balance: int, reversed: bool)
    requires WellFormed(c) && SameOperation(t, c) && 0 <= t.amount.cents <= MAX_CENTS
    requires found.Some? && found.value.status.Processed? ==> 0 <= found.value.terms.amount.cents <= MAX_CENTS
    ensures CommandVerdict(c, found, balance, reversed) == TableVerdict(t, found, balance, reversed)
  {
    hide Print, Matches, ValidIdentifier, ReferenceFits;
    PrintThenParse(t.amount.cents);
    if found.Some? && found.value.status.Processed? {
      PrintThenParse(found.value.terms.amount.cents);
    }
  }

  /** Whatever the reference, only the reversals of the transaction found can matter. */
  lemma SameReversals(db: Db, w: Wager, found: Option<Wager>, balance: int)
    requires Clean(w.terms) && ValidateExternal(w.terms).Pass?
    ensures TableVerdict(w.terms, found, balance, HasReversal(db, ReferenceOf(w, found))) ==
            TableVerdict(w.terms, found, balance, Undone(db, found))
  {
    hide AmountAgrees, SameContext, MayReference;
    if found.Some? && w.terms.referenceExternalId != "" {
      var id := found.value.terms.id;
      if HasReversal(db, id) {
        var i :| i in db.wagers && IsReversal(db.wagers[i].wager) && db.wagers[i].wager.referenceId == id;
        assert Undoes(db.wagers[i].wager, id);
      }
    }
  }

  lemma SeenAmount(db: Db, key: (string, string), found: Option<Wager>)
    requires RowsOk(db.wagers) && MayHaveSeen(db, key, found) && found.Some? && found.value.status.Processed?
    ensures 0 <= found.value.terms.amount.cents <= MAX_CENTS
  {
    assert RowOk(found.value.terms.id, db.wagers[found.value.terms.id]);
  }

  lemma CommitLands(db: Db, wr: Writes)
    ensures Lands(db, Commit(db, wr), wr)
  {
  }

  /** A new command whose wallet it may use is decided by the table. */
  lemma NewIsDecided(db: Db, c: Command, w: Wager, found: Option<Wager>, x: Context)
    requires WellFormed(c) && Carries(w.terms, c, w.terms.id, w.terms.createdAt)
    requires ValidateExternal(w.terms).Pass? && Clean(w.terms) && w == Unresolved(w.terms)
    requires Live(db, w) && RowsOk(db.wagers) && MayHaveSeen(db, ReferenceKey(w.terms), found)
    requires var wallet := db.wallets[w.terms.walletId]; HealthyWallet(wallet) && InTime(w, wallet, x.now)
    requires x.ids.entry != NIL_UUID
    ensures var wallet, reversed := db.wallets[w.terms.walletId], HasReversal(db, ReferenceOf(w, found));
            Decides(db, c, w.terms.id, w.terms.createdAt, found, x, Concluded(db, ProcessNew(w, wallet, found, reversed, x)))
  {
    var wallet, reversed := db.wallets[w.terms.walletId], HasReversal(db, ReferenceOf(w, found));
    hide ProcessNew, Live, Commit, Lands, Concludes, HasReversal, ValidateExternal, RowsOk, TableVerdict, CommandVerdict, Undone, LinkAfter, WellFormed, Decides;
    ProcessingFollowsTable(db, w, found, reversed, x);
    DecidedVerdict(db, c, w, found, wallet.balance.cents);
    var v := TableVerdict(w.terms, found, wallet.balance.cents, reversed);
    DecidedIs(db, c, w.terms, found, x, v, ProcessNew(w, wallet, found, reversed, x));
  }

  /** The table over the command and the table over the terms that carry it say the same. */
  lemma DecidedVerdict(db: Db, c: Command, w: Wager, found: Option<Wager>, balance: int)
    requires WellFormed(c) && SameOperation(w.terms, c) && ValidateExternal(w.terms).Pass? && Clean(w.terms)
    requires RowsOk(db.wagers) && MayHaveSeen(db, ReferenceKey(w.terms), found)
    ensures CommandVerdict(c, found, balance, Undone(db, found)) ==
            TableVerdict(w.terms, found, balance, HasReversal(db, ReferenceOf(w, found)))
  {
    hide CommandVerdict, TableVerdict, Undone, RowsOk, ValidateExternal, WellFormed, SameOperation;
    SameReversals(db, w, found, balance);
    if found.Some? && found.value.status.Processed? {
      SeenAmount(db, ReferenceKey(w.terms), found);
    }
    AmountInRange(w.terms);
    SameVerdict(c, w.terms, found, balance, Undone(db, found));
  }

  lemma DecidedIs(db: Db, c: Command, t: Terms, found: Option<Wager>, x: Context, v: Verdict, decision: Result<Writes>)
    requires WellFormed(c) && Carries(t, c, t.id, t.createdAt) && c.walletId in db.wallets
    requires v == CommandVerdict(c, found, db.wallets[c.walletId].balance.cents, Undone(db, found))
    requires CarriesOut(decision, v, t, LinkAfter(t, found, v), db.wallets[c.walletId], x)
    ensures Decides(db, c, t.id, t.createdAt, found, x, Concluded(db, decision))
  {
    hide Commit, Lands, Concludes, CommandVerdict, Undone, LinkAfter, WellFormed, Carries;
    if decision.Ok? {
      CommitLands(db, decision.value);
      ConcludedTerms(decision.value, v, t, LinkAfter(t, found, v), db.wallets[c.walletId], x);
    }
  }

  lemma ConcludedTerms(wr: Writes, v: Verdict, t: Terms, link: Link, was: Wallet, x: Context)
    requires Concludes(wr, v, t, link, was, x)
    ensures wr.row.wager.terms == t
  {
  }

  lemma AmountInRange(t: Terms)
    requires ValidateExternal(t).Pass?
    ensures 0 <= t.amount.cents <= MAX_CENTS
  {
  }

  /** The end of a transaction of Process. */
  function Concluded(db: Db, decision: Result<Writes>): Result<Done> {
    var wr :- decision;
    Ok(Done(Commit(db, wr), Reply(wr.row.wager, false)))
  }

  lemma InsertedAnswers(db: Db, c: Command, w: Wager, found: Option<Wager>, x: Context)
    requires WellFormed(c) && Carries(w.terms, c, w.terms.id, w.terms.createdAt)
    requires WalletsOk(db) && RowsOk(db.wagers) && MayHaveSeen(db, ReferenceKey(w.terms), found)
    requires ValidateExternal(w.terms).Pass? && w == Unresolved(w.terms) && !InsertConflicts(db, w.terms)
    requires ZERO_TIME < x.now && w.updatedAt <= x.now && x.ids.entry != NIL_UUID
    requires w.terms.walletId in db.wallets ==> db.wallets[w.terms.walletId].updatedAt <= x.now
    ensures AnswersNew(db, c, w.terms.id, w.terms.createdAt, found, x, ProcessInserted(db, w, found, x))
  {
    hide Decides, Live, HasReversal, ProcessNew, Commit, RowsOk, ValidateExternal, WellFormed;
    if WalletReferenced(db, w.terms) && LockWallet(db, w).Ok? {
      var wallet, reversed := db.wallets[w.terms.walletId], HasReversal(db, ReferenceOf(w, found));
      assert ProcessInserted(db, w, found, x) == Concluded(db, ProcessNew(w, wallet, found, reversed, x));
      if Clean(w.terms) {
        NewIsLive(db, w);
        NewIsDecided(db, c, w, found, x);
      } else {
        BlankReferenceFails(db, w, wallet, found, reversed, x);
      }
    }
  }

  /** Process answers every command as the table over its fields says. */
  lemma ProcessAnswers(s: World, c: Command, id: Uuid, createdAt: Time, found: Option<Wager>, x: Context)
    requires IndexOk(s.db) && WalletsOk(s.db) && RowsOk(s.db.wagers) && FreshCommand(s, c, id, createdAt, found, x)
    ensures AnswersCommand(s.db, c, id, createdAt, found, x, Process(s.db, c, id, createdAt, found, x))
  {
    hide Prepare, ProcessInserted, AnswersNew, Faulty, WalletsOk, RowsOk, Digests, WellFormed, MayHaveSeen;
    PreparesExactly(c, id, createdAt, x.metadata);
    var p := Prepare(c, id, createdAt, x.metadata);
    if p.Ok? {
      var r, w := p.value.0, p.value.1;
      assert Process(s.db, c, id, createdAt, found, x) == ProcessRequest(s.db, r, w, found, x);
      CarriesKeys(w.terms, c, id, createdAt);
      RecordedAnswer(s.db, r, w, found, x);
      PreparedTerms(c, id, createdAt, x.metadata);
      if InsertConflicts(s.db, w.terms) {
        RecordedDigest(s.db, r, w.terms, c);
      } else {
        InsertedAnswers(s.db, c, w, found, x);
      }
    }
  }

  lemma RecordedDigest(db: Db, r: Request, t: Terms, c: Command)
    requires KeyIndexOk(db.wagers, db.byKey) && Digests(r.payloadHash, c)
    ensures IdempotencyKey(t) in db.byKey ==>
              var known := db.wagers[db.byKey[IdempotencyKey(t)]].wager.terms.payloadHash;
              known == Some(r.payloadHash) <==> known.Some? && Digests(known.value, c)
  {
    if IdempotencyKey(t) in db.byKey {
      var known := db.wagers[db.byKey[IdempotencyKey(t)]].wager.terms.payloadHash;
      if known.Some? && Digests(known.value, c) {
        DigestIsUnique(known.value, r.payloadHash, c);
      }
    }
  }

  // ----- messages -----

  /** Handle: the inbox decides first, then Process answers and its tables get the completed inbox row. */
  ghost predicate AnswersMessage(
    db: Db, m: Message, id: Uuid, createdAt: Time, found: Option<Wager>, x: Context, at: Time, r: Result<Db>)
    requires KeyIndexOk(db.wagers, db.byKey)
  {
    if m.id in db.inbox && db.inbox[m.id].hash != m.hash then r == Err(InboxMessageConflict)
    else if m.id in db.inbox && db.inbox[m.id].completedAt.Some? then r == Ok(db)
    else exists p: Result<Done> ::
      && AnswersCommand(db, m.command, id, createdAt, found, x.(metadata := Metadata(m.id, m.id)), p)
      && match p
         case Err(e) => r == Err(e)
         case Ok(done) => r == Ok(done.db.(inbox := done.db.inbox[m.id := InboxRow(m.hash, Some(at))]))
  }

  lemma HandleAnswers(s: World, m: Message, id: Uuid, createdAt: Time, found: Option<Wager>, x: Context, at: Time)
    requires IndexOk(s.db) && WalletsOk(s.db) && RowsOk(s.db.wagers) && FreshCommand(s, m.command, id, createdAt, found, x)
    ensures AnswersMessage(s.db, m, id, createdAt, found, x, at, Handle(s.db, m, id, createdAt, found, x, at))
  {
    hide Process, AnswersCommand, FreshIds, Reading, MayHaveSeen, ExternalIndexOk, WalletsOk, RowsOk;
    var y := x.(metadata := Metadata(m.id, m.id));
    ProcessAnswers(s, m.command, id, createdAt, found, y);
    var p := Process(s.db, m.command, id, createdAt, found, y);
    assert AnswersCommand(s.db, m.command, id, createdAt, found, y, p);
  }

  // ----- retries -----

  /** What a retry of the pending row comes to: the expired are turned away, the others follow the table. */
  ghost function RetryVerdict(db: Db, row: WagerRow, found: Option<Wager>, now: Time): Verdict
    requires row.retry.Some? && row.wager.terms.walletId in db.wallets
  {
    if row.retry.value.expiresAt <= now then Turned(ReferenceNotFound)
    else TableVerdict(row.wager.terms, found, db.wallets[row.wager.terms.walletId].balance.cents, Undone(db, found))
  }

  ghost predicate AnswersRetry(db: Db, id: Uuid, found: Option<Wager>, later: Time, x: Context, r: Result<Db>)
    requires id in db.wagers && db.wagers[id].retry.Some? && db.wagers[id].wager.terms.walletId in db.wallets
  {
    var row := db.wagers[id];
    var t, v, y := row.wager.terms, RetryVerdict(db, row, found, x.now), x.(metadata := row.retry.value.metadata);
    if v.OutOfRange? then r == Err(InvalidMoney)
    else r.Ok? && exists wr: Writes ::
      && wr.row.wager.terms == t && Lands(db, r.value, wr)
      && (if v.Waits? then RescheduledRecords(wr, row, later, y)
          else Concludes(wr, v, t, LinkAfter(t, found, v), db.wallets[t.walletId], y))
  }

  /** A retry answers as its verdict says, with the metadata the row was parked with. */
  lemma RetryAnswers(db: Db, id: Uuid, found: Option<Wager>, later: Time, x: Context)
    requires RowsOk(db.wagers) && RefsOk(db.wagers) && WalletsOk(db)
    requires id in db.wagers && db.wagers[id].retry.Some? && MayHaveSeen(db, ReferenceKey(db.wagers[id].wager.terms), found)
    requires var w := db.wagers[id].wager; InTime(w, db.wallets[w.terms.walletId], x.now)
    requires x.ids.entry != NIL_UUID
    ensures AnswersRetry(db, id, found, later, x, RetryOne(db, id, found, later, x))
  {
    var row := db.wagers[id];
    var w, wallet, y := row.wager, db.wallets[row.wager.terms.walletId], x.(metadata := row.retry.value.metadata);
    var reversed := HasReversal(db, ReferenceOf(w, found));
    hide RetryPending, Concludes, RescheduledRecords, Commit, Lands, HasReversal, RowsOk, RefsOk, Live, ValidateExternal, TableVerdict, MayHaveSeen, LinkAfter, AnswersRetry, LockWallet, Undone;
    RetryFollowsTable(db, id, found, reversed, later, y);
    PendingIsLive(db, id);
    SameReversals(db, w, found, wallet.balance.cents);
    PendingWallet(db, id);
    RetriedIs(db, id, found, later, x, RetryPending(row, wallet, found, reversed, later, y));
  }

  /** lockWallet finds the wallet of a stored row. */
  lemma PendingWallet(db: Db, id: Uuid)
    requires WalletsOk(db) && id in db.wagers
    ensures var w := db.wagers[id].wager; w.terms.walletId in db.wallets && LockWallet(db, w) == Ok(db.wallets[w.terms.walletId])
  {
  }

  lemma RetriedIs(db: Db, id: Uuid, found: Option<Wager>, later: Time, x: Context, decision: Result<Writes>)
    requires id in db.wagers && db.wagers[id].retry.Some? && db.wagers[id].wager.terms.walletId in db.wallets
    requires var row := db.wagers[id];
             var t, v, y := row.wager.terms, RetryVerdict(db, row, found, x.now), x.(metadata := row.retry.value.metadata);
             if v.Waits? then decision.Ok? && RescheduledRecords(decision.value, row, later, y)
             else CarriesOut(decision, v, t, LinkAfter(t, found, v), db.wallets[t.walletId], y)
    ensures AnswersRetry(db, id, found, later, x, match decision case Ok(wr) => Ok(Commit(db, wr)) case Err(e) => Err(e))
  {
    hide Concludes, RescheduledRecords, Commit, Lands, LinkAfter, RetryVerdict;
    var row := db.wagers[id];
    var v, y := RetryVerdict(db, row, found, x.now), x.(metadata := row.retry.value.metadata);
    if decision.Ok? {
      var t := row.wager.terms;
      RetriedTerms(decision.value, row, v, LinkAfter(t, found, v), db.wallets[t.walletId], later, y);
      CommitLands(db, decision.value);
    }
  }

  lemma RetriedTerms(wr: Writes, row: WagerRow, v: Verdict, link: Link, was: Wallet, later: Time, x: Context)
    requires row.retry.Some?
    requires if v.Waits? then RescheduledRecords(wr, row, later, x) else Concludes(wr, v, row.wager.terms, link, was, x)
    ensures wr.row.wager.terms == row.wager.terms
  {
  }

  /** failPendingReference: the row alone is finished as FAILED, with the stable code and no event. */
  predicate AnswersGiveUp(db: Db, id: Uuid, now: Time, r: Result<Db>)
    requires id in db.wagers
  {
    var w := db.wagers[id].wager;
    r == Ok(db.(wagers := db.wagers[id := WagerRow(
      w.(status := Failed, failureCode := ProcessingFailed, failureMessage := Explains(ProcessingFailed),
         updatedAt := now, completedAt := Some(now)), None)]))
  }

  lemma GiveUpAnswers(db: Db, id: Uuid, now: Time)
    requires RowsOk(db.wagers) && IndexOk(db) && id in db.wagers && db.wagers[id].retry.Some?
    requires ZERO_TIME < now && db.wagers[id].wager.updatedAt <= now
    ensures AnswersGiveUp(db, id, now, FailOne(db, id, now))
  {
    hide RowsOk, IndexOk, Stored;
    PendingRow(db, id);
    KeysStay(db, id);
    assert db.outbox + [] == db.outbox;
  }

  lemma PendingRow(db: Db, id: Uuid)
    requires RowsOk(db.wagers) && id in db.wagers && db.wagers[id].retry.Some?
    ensures var w := db.wagers[id].wager; w.terms.id == id && w.status.PendingReference? && w.terms.kind.IsExternal()
  {
    assert RowOk(id, db.wagers[id]);
  }

  /** The keys of a stored row are already in the indexes. */
  lemma KeysStay(db: Db, id: Uuid)
    requires IndexOk(db) && id in db.wagers && db.wagers[id].wager.terms.kind.IsExternal()
    ensures var t := db.wagers[id].wager.terms;
            db.byExternal[ExternalKey(t) := id] == db.byExternal && db.byKey[IdempotencyKey(t) := id] == db.byKey
  {
    var t := db.wagers[id].wager.terms;
    assert Listed(db.byExternal, ExternalKey(t), id) && Listed(db.byKey, IdempotencyKey(t), id);
  }

  // ----- wallets -----

  /** Some wallet of the player already has the currency. */
  predicate HasWallet(db: Db, playerId: Uuid, currency: string) {
    exists w :: w in db.wallets && db.wallets[w].playerId == playerId && db.wallets[w].balance.currency == currency
  }

  /** Every other wallet is as it was; the new one has the requested owner, currency and balance. */
  predicate Opened(db: Db, d: Db, c: OpenWallet, walletId: Uuid, now: Time) {
    && walletId in d.wallets && d.wallets == db.wallets[walletId := d.wallets[walletId]]
    && var w := d.wallets[walletId];
       && w.id == walletId && w.playerId == c.playerId && w.balance.currency == c.currency
       && 0 <= w.balance.cents <= MAX_CENTS && Print(w.balance.cents) == c.initialBalance
       && w.version == 1 && w.createdAt == now && w.updatedAt == now
  }

  /** The OPENING of a wallet, already PROCESSED and belonging to no provider. */
  predicate OpeningRow(row: WagerRow, id: Uuid, wallet: Wallet, now: Time) {
    && row.retry.None?
    && row.wager == Wager(
         Terms(id, "", "", "", None, wallet.id, wallet.playerId, "", "", Opening, wallet.balance, "", now),
         NIL_UUID, None, Processed, NO_CODE, NO_MESSAGE,
         Some(Money(0, wallet.balance.currency)), Some(wallet.balance), now, Some(now))
  }

  /** One OPENING row of the whole balance, its entry from 0.00, and both events. */
  predicate OpeningRecords(db: Db, d: Db, wallet: Wallet, id: Uuid, x: Context) {
    && id !in db.wagers && id in d.wagers && d.wagers == db.wagers[id := d.wagers[id]]
    && OpeningRow(d.wagers[id], id, wallet, x.now)
    && var e := Entry(x.ids.entry, wallet.id, id, Credit, wallet.balance, Money(0, wallet.balance.currency), wallet.balance, x.now);
       && d.ledger == db.ledger + [e]
       && |d.outbox| == |db.outbox| + 2 && d.outbox[..|db.outbox|] == db.outbox
       && var first, second := d.outbox[|db.outbox|], d.outbox[|db.outbox| + 1];
          && Stamped(first, x.ids.event1, x) && TellsProcessed(first.data, d.wagers[id].wager)
          && Stamped(second, x.ids.event2, x) && TellsChange(second.data, wallet.playerId, 1, e)
  }

  /** When a wallet is refused, and otherwise everything its creation writes. */
  predicate AnswersOpen(db: Db, c: OpenWallet, walletId: Uuid, openingId: Uuid, x: Context, r: Result<Db>) {
    if Blank(x.metadata.correlationId) then r == Err(InvalidCorrelationId)
    else if c.playerId == NIL_UUID then r == Err(InvalidPlayerId)
    else if !ValidCurrency(c.currency) then r == Err(InvalidCurrency)
    else if !Matches(c.initialBalance) then r == Err(InvalidMoney)
    else if walletId == NIL_UUID then r == Err(InvalidWalletId)
    else if walletId in db.wallets || HasWallet(db, c.playerId, c.currency) then r == Err(WalletAlreadyExists)
    else if c.initialBalance == NOTHING then
      && r.Ok? && Opened(db, r.value, c, walletId, x.now)
      && r.value == db.(wallets := r.value.wallets)
    else if openingId == NIL_UUID then r == Err(InvalidTransactionId)
    else if openingId in db.wagers then r == Err(AlreadyExists)
    else
      && r.Ok? && Opened(db, r.value, c, walletId, x.now)
      && OpeningRecords(db, r.value, r.value.wallets[walletId], openingId, x)
      && r.value.byExternal == db.byExternal && r.value.byKey == db.byKey && r.value.inbox == db.inbox
  }

  lemma CreateAnswers(db: Db, c: OpenWallet, walletId: Uuid, openingId: Uuid, x: Context)
    requires ZERO_TIME < x.now && x.ids.entry != NIL_UUID
    ensures AnswersOpen(db, c, walletId, openingId, x, CreateWallet(db, c, walletId, openingId, x))
  {
    hide Matches, Print, MoneyText.Cents, CreateOpening, OpeningRecords, WalletTaken;
    TakenExactly(db, c.playerId, c.currency);
    if Matches(c.initialBalance) && ValidCurrency(c.currency) {
      ParseThenPrint(c.initialBalance);
      ZeroIsNothing(c.initialBalance);
      var cents := MoneyText.Cents(c.initialBalance);
      if walletId != NIL_UUID && c.playerId != NIL_UUID && cents != 0 {
        var wallet := Wallet(walletId, c.playerId, Money(cents, c.currency), 1, x.now, x.now);
        OpeningAnswers(db.(wallets := db.wallets[walletId := wallet]), wallet, openingId, x);
        OpeningElsewhere(db, wallet, openingId, x);
      }
    }
  }

  lemma TakenExactly(db: Db, playerId: Uuid, currency: string)
    ensures WalletTaken(db, playerId, currency) <==> HasWallet(db, playerId, currency)
  {
  }

  lemma OpeningAnswers(db: Db, wallet: Wallet, id: Uuid, x: Context)
    requires HealthyWallet(wallet) && wallet.balance.cents > 0 && wallet.version == 1 && ZERO_TIME < x.now && x.ids.entry != NIL_UUID
    ensures var r := CreateOpening(db, wallet, id, x);
            if id == NIL_UUID then r == Err(InvalidTransactionId)
            else if id in db.wagers then r == Err(AlreadyExists)
            else r.Ok? && OpeningRecords(db, r.value, wallet, id, x)
                 && r.value == db.(wagers := r.value.wagers, ledger := r.value.ledger, outbox := r.value.outbox)
  {
  }

  /** The opening records do not depend on the wallet table. */
  lemma OpeningElsewhere(db: Db, wallet: Wallet, id: Uuid, x: Context)
    ensures var mid := db.(wallets := db.wallets[wallet.id := wallet]);
            forall d :: OpeningRecords(mid, d, wallet, id, x) <==> OpeningRecords(db, d, wallet, id, x)
  {
  }
}
