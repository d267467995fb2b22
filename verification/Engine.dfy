/**
 The settlement engine as functions on database values: what a use case reads, what it
 decides, and what it writes when it commits (internal/application/wager_service.go,
 wager_reference.go, wallet_service.go, wager_request.go, wager_events.go and the PostgreSQL
 repositories). A use case either commits all its writes or returns an error and writes nothing.
 */
module Engine {
  import opened Basics
  import opened Money
  import opened MoneyText
  import opened Wagers
  import opened Wallets
  import Backoff

  // ----- commands -----

  datatype Metadata = Metadata(correlationId: string, causationId: string)

  /** Identifiers that do not parse as UUIDs are represented by NIL_UUID. */
  datatype Command = Command(
    providerId: string, externalId: string, idempotencyKey: string, walletId: Uuid, playerId: Uuid,
    roundId: string, gameId: string, kind: string, amount: string, currency: string,
    referenceExternalId: string)

  datatype Request = Request(command: Command, kind: Kind, amount: Money, payloadHash: Payload)

  function ParseKind(text: string): Option<Kind> {
    if text == "OPENING" then Some(Opening)
    else if text == "BET" then Some(Bet)
    else if text == "WIN" then Some(Win)
    else if text == "LOSS" then Some(Loss)
    else if text == "REFUND" then Some(Refund)
    else if text == "ROLLBACK" then Some(Rollback)
    else None
  }

  function Hash(c: Command, kind: Kind, amount: Money): Payload {
    Payload(c.externalId, c.gameId, kind, amount, c.playerId, c.providerId, c.roundId, c.walletId,
            if c.referenceExternalId == "" then None else Some(c.referenceExternalId))
  }

  /** parseWagerRequest */
  function ParseRequest(c: Command): Result<Request> {
    if c.walletId == NIL_UUID then Err(InvalidWalletId)
    else if c.playerId == NIL_UUID then Err(InvalidPlayerId)
    else if !ValidCurrency(c.currency) then Err(InvalidCurrency)
    else
      var amount :- ParseMoney(c.amount, c.currency);
      var kind := ParseKind(c.kind);
      if kind.None? || !kind.value.IsExternal() then Err(InvalidWagerType)
      else Ok(Request(c, kind.value, amount, Hash(c, kind.value, amount)))
  }

  function RequestTerms(r: Request, id: Uuid, createdAt: Time): Terms {
    var c := r.command;
    Terms(id, c.providerId, c.externalId, c.idempotencyKey, Some(r.payloadHash), c.walletId, c.playerId,
          c.roundId, c.gameId, r.kind, r.amount, c.referenceExternalId, createdAt)
  }

  // ----- events -----

  /** What every transaction event says about its transaction. */
  datatype Subject = Subject(
    transactionId: Uuid, providerId: string, externalId: string, walletId: Uuid, playerId: Uuid,
    roundId: string, gameId: string, kind: Kind, amount: Money)

  datatype EventData =
    | ProcessedData(subject: Subject, before: Money, after: Money, referenceId: Option<Uuid>)
    | RejectedData(subject: Subject, failureCode: FailureCode, failureMessage: FailureMessage)
    | PendingReferenceData(subject: Subject, referenceExternalId: string)
    | BalanceChangedData(walletId: Uuid, playerId: Uuid, transactionId: Uuid, direction: Direction,
                         amount: Money, before: Money, after: Money, walletVersion: int)

  datatype Event = Event(eventId: Uuid, metadata: Metadata, occurredAt: Time, data: EventData)

  function SubjectOf(t: Terms): Subject {
    Subject(t.id, t.providerId, t.externalId, t.walletId, t.playerId, t.roundId, t.gameId, t.kind, t.amount)
  }

  /** processedEventData */
  function ProcessedEventData(w: Wager): Result<EventData> {
    if w.before.None? || w.after.None? then Err(InvalidWagerState)
    else Ok(ProcessedData(SubjectOf(w.terms), w.before.value, w.after.value,
                          if w.referenceId == NIL_UUID then None else Some(w.referenceId)))
  }

  function BalanceChangedEventData(wallet: Wallet, e: Entry): EventData {
    BalanceChangedData(wallet.id, wallet.playerId, e.transactionId, e.direction, e.amount, e.before, e.after, wallet.version)
  }

  // ----- tables -----

  datatype Policy = Policy(initialDelay: int, maxDelay: int, ttl: int)

  /** The durable retry columns of a PENDING_REFERENCE row. */
  datatype Retry = Retry(count: int, nextAttemptAt: Time, expiresAt: Time, metadata: Metadata)

  datatype WagerRow = WagerRow(wager: Wager, retry: Option<Retry>)

  datatype InboxRow = InboxRow(hash: string, completedAt: Option<Time>)

  /** The committed tables. The two unique indexes over provider identifiers are kept as maps. */
  datatype Db = Db(
    wallets: map<Uuid, Wallet>,
    wagers: map<Uuid, WagerRow>,
    byExternal: map<(string, string), Uuid>,
    byKey: map<(string, string), Uuid>,
    ledger: seq<Entry>,
    outbox: seq<Event>,
    inbox: map<string, InboxRow>)

  const EMPTY: Db := Db(map[], map[], map[], map[], [], [], map[])

  /** The UUIDs one use case generates, besides that of its transaction. */
  datatype Ids = Ids(entry: Uuid, event1: Uuid, event2: Uuid)

  function ExternalKey(t: Terms): (string, string) { (t.providerId, t.externalId) }

  function IdempotencyKey(t: Terms): (string, string) { (t.providerId, t.idempotencyKey) }

  /** The external key under which a transaction looks for its reference. */
  function ReferenceKey(t: Terms): (string, string) { (t.providerId, t.referenceExternalId) }

  /** FindByProviderAndExternalTransactionID */
  function FindByExternal(db: Db, key: (string, string)): Option<Wager> {
    if key in db.byExternal && db.byExternal[key] in db.wagers
    then Some(db.wagers[db.byExternal[key]].wager) else None
  }

  /** FindByProviderAndIdempotencyKey */
  function FindByKey(db: Db, key: (string, string)): Option<Wager> {
    if key in db.byKey && db.byKey[key] in db.wagers
    then Some(db.wagers[db.byKey[key]].wager) else None
  }

  /** A processed REFUND or ROLLBACK. */
  predicate IsReversal(w: Wager) {
    w.status.Processed? && w.terms.kind.RequiresReference()
  }

  /** HasProcessedDirectReversal */
  predicate HasReversal(db: Db, reference: Uuid) {
    exists id :: id in db.wagers && IsReversal(db.wagers[id].wager) && db.wagers[id].wager.referenceId == reference
  }

  /** What one use case adds to the tables for one wager transaction. */
  datatype Writes = Writes(row: WagerRow, wallet: Option<Wallet>, entry: Option<Entry>, events: seq<Event>)

  function Commit(db: Db, w: Writes): Db {
    var t := w.row.wager.terms;
    Db(if w.wallet.Some? then db.wallets[t.walletId := w.wallet.value] else db.wallets,
       db.wagers[t.id := w.row],
       db.byExternal[ExternalKey(t) := t.id],
       db.byKey[IdempotencyKey(t) := t.id],
       if w.entry.Some? then db.ledger + [w.entry.value] else db.ledger,
       db.outbox + w.events,
       db.inbox)
  }

  // ----- decisions -----

  /** What every step of one use case knows besides the transaction and the wallet. */
  datatype Context = Context(policy: Policy, metadata: Metadata, ids: Ids, now: Time)

  /** reject */
  function Reject(w: Wager, code: FailureCode, x: Context): Result<Writes> {
    var w' :- MarkRejected(w, code, Explains(code), x.now);
    var event := Event(x.ids.event1, x.metadata, x.now,
                       RejectedData(SubjectOf(w'.terms), w'.failureCode, w'.failureMessage));
    Ok(Writes(WagerRow(w', None), None, None, [event]))
  }

  function InsufficientFundsRejection(w: Wager): FailureCode {
    if w.terms.kind.Rollback? then ReversalInsufficientFunds else BetInsufficientFunds
  }

  /** applyMovement */
  function ApplyMovement(w: Wager, wallet: Wallet, x: Context): Result<Writes> {
    var direction :- MovementDirection(w);
    if direction.None? then
      var w' :- MarkProcessed(w, wallet.balance, wallet.balance, x.now);
      var data :- ProcessedEventData(w');
      Ok(Writes(WagerRow(w', None), None, None, [Event(x.ids.event1, x.metadata, x.now, data)]))
    else
      var moved := Move(wallet, direction.value, w.terms.amount, x.now);
      if moved == Err(InsufficientFunds) then Reject(w, InsufficientFundsRejection(w), x)
      else
        var wallet' :- moved;
        var w' :- MarkProcessed(w, wallet.balance, wallet'.balance, x.now);
        var entry :- BuildEntry(x.ids.entry, wallet.id, w.terms.id, direction.value, w.terms.amount,
                                wallet.balance, wallet'.balance, x.now);
        var data :- ProcessedEventData(w');
        Ok(Writes(WagerRow(w', None), Some(wallet'), Some(entry),
                  [Event(x.ids.event1, x.metadata, x.now, data),
                   Event(x.ids.event2, x.metadata, x.now, BalanceChangedEventData(wallet', entry))]))
  }

  /** settle; `reversed` is the answer of HasProcessedDirectReversal for the resolved reference */
  function Settle(w: Wager, wallet: Wallet, reversed: bool, x: Context): Result<Writes> {
    if w.terms.kind.RequiresReference() && reversed then
      Reject(w, DuplicateReversal, x)
    else ApplyMovement(w, wallet, x)
  }

  datatype Outcome = Unavailable | Refused(code: FailureCode) | Available(wager: Wager)

  /** resolveReference, given the row found under the reference's external id */
  function ResolveOutcome(w: Wager, found: Option<Wager>, now: Time): Result<Outcome> {
    if found.None? then Ok(Unavailable) else
      match found.value.status
      case Pending => Ok(Unavailable)
      case PendingReference => Ok(Unavailable)
      case Rejected => Ok(Refused(ReferenceNotProcessable))
      case Failed => Ok(Refused(ReferenceNotProcessable))
      case Processed =>
        match ResolveReference(w, found, now)
        case Ok(w') => Ok(Available(w'))
        case Err(e) =>
          if e.WagerReferenceMismatch? then
            Ok(Refused(ReferenceMismatch))
          else if e.InvalidWagerReference? then
            Ok(Refused(ReferenceTypeNotAllowed))
          else Err(e)
  }

  /** nextAttemptAt */
  function NextAttemptAt(p: Policy, now: Time, expiresAt: Time, attempt: int): Time {
    Min(now + Backoff.LoopDelay(p.initialDelay, p.maxDelay, attempt), expiresAt)
  }

  /** markPendingReference */
  function Park(w: Wager, x: Context): Result<Writes> {
    var w' :- MarkPendingReference(w, x.now);
    var expiresAt := x.now + x.policy.ttl;
    var retry := Retry(0, NextAttemptAt(x.policy, x.now, expiresAt, 1), expiresAt, x.metadata);
    var event := Event(x.ids.event1, x.metadata, x.now,
                       PendingReferenceData(SubjectOf(w'.terms), w'.terms.referenceExternalId));
    Ok(Writes(WagerRow(w', Some(retry)), None, None, [event]))
  }

  /** processNew: `found` is what the reference lookup returned, `reversed` what the reversal check returned. */
  function ProcessNew(w: Wager, wallet: Wallet, found: Option<Wager>, reversed: bool, x: Context): Result<Writes> {
    if w.terms.referenceExternalId == "" then Settle(w, wallet, reversed, x)
    else
      var outcome :- ResolveOutcome(w, found, x.now);
      match outcome
      case Refused(r) => Reject(w, r, x)
      case Unavailable => Park(w, x)
      case Available(w') => Settle(w', wallet, reversed, x)
  }

  /** retryPendingReference; `later` is the database clock when a reschedule is written */
  function RetryPending(
    row: WagerRow, wallet: Wallet, found: Option<Wager>, reversed: bool, later: Time, x: Context): Result<Writes>
    requires row.retry.Some?
  {
    var w, retry := row.wager, row.retry.value;
    if x.now >= retry.expiresAt then
      Reject(w, ReferenceNotFound, x)
    else
      var outcome :- ResolveOutcome(w, found, x.now);
      match outcome
      case Refused(r) => Reject(w, r, x)
      case Unavailable =>
        var count := retry.count + 1;
        var next := NextAttemptAt(x.policy, x.now, retry.expiresAt, count + 1);
        Ok(Writes(WagerRow(w.(updatedAt := later), Some(retry.(count := count, nextAttemptAt := next))), None, None, []))
      case Available(w') => Settle(w', wallet, reversed, x)
  }

  /** failPendingReference */
  function FailPending(w: Wager, now: Time): Result<Writes> {
    var w' :- MarkFailed(w, ProcessingFailed, Explains(ProcessingFailed), now);
    Ok(Writes(WagerRow(w', None), None, None, []))
  }

  // ----- use cases -----

  /** lockWallet */
  function LockWallet(db: Db, w: Wager): Result<Wallet> {
    if w.terms.walletId !in db.wallets then Err(WalletNotFound)
    else
      var wallet := db.wallets[w.terms.walletId];
      if wallet.playerId != w.terms.playerId then Err(WalletMismatch)
      else if wallet.balance.currency != w.terms.amount.currency then Err(CurrencyMismatch)
      else Ok(wallet)
  }

  datatype Reply = Reply(wager: Wager, idempotentReplay: bool)

  /** The new tables and the answer of a use case that committed. */
  datatype Done = Done(db: Db, reply: Reply)

  /** resolveExistingTransaction */
  function ResolveExisting(db: Db, r: Request): Result<Reply> {
    match FindByKey(db, (r.command.providerId, r.command.idempotencyKey))
    case Some(w) =>
      if w.terms.payloadHash != Some(r.payloadHash) then Err(IdempotencyConflict) else Ok(Reply(w, true))
    case None =>
      if FindByExternal(db, (r.command.providerId, r.command.externalId)).Some? then Err(ExternalTransactionConflict)
      else Err(AlreadyExists)
  }

  /** INSERT ... ON CONFLICT DO NOTHING affects no row */
  predicate InsertConflicts(db: Db, t: Terms) {
    t.id in db.wagers || ExternalKey(t) in db.byExternal || IdempotencyKey(t) in db.byKey
  }

  /** the foreign key (wallet_id, currency) */
  predicate WalletReferenced(db: Db, t: Terms) {
    t.walletId in db.wallets && db.wallets[t.walletId].balance.currency == t.amount.currency
  }

  /** The resolved reference whose reversals settle asks about. */
  function ReferenceOf(w: Wager, found: Option<Wager>): Uuid {
    if w.terms.referenceExternalId == "" || found.None? then w.referenceId else found.value.terms.id
  }

  /** Process from the moment its row is inserted; `found` is what the reference lookup saw. */
  function ProcessInserted(db: Db, w: Wager, found: Option<Wager>, x: Context): Result<Done> {
    if !WalletReferenced(db, w.terms) then Err(InvalidWalletReference) else
      var wallet :- LockWallet(db, w);
      var writes :- ProcessNew(w, wallet, found, HasReversal(db, ReferenceOf(w, found)), x);
      Ok(Done(Commit(db, writes), Reply(writes.row.wager, false)))
  }

  /** The transaction of Process, for a validated request and the pending transaction built from it. */
  function ProcessRequest(db: Db, r: Request, w: Wager, found: Option<Wager>, x: Context): Result<Done> {
    if InsertConflicts(db, w.terms) then
      var reply :- ResolveExisting(db, r);
      Ok(Done(db, reply))
    else ProcessInserted(db, w, found, x)
  }

  /** parseWagerRequest and newTransaction */
  function Prepare(c: Command, id: Uuid, createdAt: Time, m: Metadata): Result<(Request, Wager)> {
    if Blank(m.correlationId) then Err(InvalidCorrelationId) else
      var request :- ParseRequest(c);
      var w :- NewExternal(RequestTerms(request, id, createdAt));
      Ok((request, w))
  }

  /** WagerService.Process */
  function Process(db: Db, c: Command, id: Uuid, createdAt: Time, found: Option<Wager>, x: Context): Result<Done> {
    var prepared :- Prepare(c, id, createdAt, x.metadata);
    ProcessRequest(db, prepared.0, prepared.1, found, x)
  }

  /** The financial half of RetryNextPendingReference, for the pending row it has locked. */
  function RetryOne(db: Db, id: Uuid, found: Option<Wager>, later: Time, x: Context): Result<Db>
    requires id in db.wagers && db.wagers[id].retry.Some?
  {
    var row := db.wagers[id];
    var wallet :- LockWallet(db, row.wager);
    var writes :- RetryPending(row, wallet, found, HasReversal(db, ReferenceOf(row.wager, found)), later,
                               x.(metadata := row.retry.value.metadata));
    Ok(Commit(db, writes))
  }

  function FailOne(db: Db, id: Uuid, now: Time): Result<Db>
    requires id in db.wagers
  {
    var writes :- FailPending(db.wagers[id].wager, now);
    Ok(Commit(db, writes))
  }

  datatype OpenWallet = OpenWallet(playerId: Uuid, currency: string, initialBalance: string)

  predicate WalletTaken(db: Db, playerId: Uuid, currency: string) {
    exists w :: w in db.wallets && db.wallets[w].playerId == playerId && db.wallets[w].balance.currency == currency
  }

  /** WalletService.Create */
  function CreateWallet(db: Db, c: OpenWallet, walletId: Uuid, openingId: Uuid, x: Context): Result<Db> {
    if Blank(x.metadata.correlationId) then Err(InvalidCorrelationId)
    else if c.playerId == NIL_UUID then Err(InvalidPlayerId)
    else if !ValidCurrency(c.currency) then Err(InvalidCurrency)
    else
      var initial :- ParseMoney(c.initialBalance, c.currency);
      var wallet :- NewWallet(walletId, c.playerId, initial, x.now);
      if walletId in db.wallets || WalletTaken(db, c.playerId, c.currency) then Err(WalletAlreadyExists)
      else
        var db' := db.(wallets := db.wallets[walletId := wallet]);
        if initial.IsZero() then Ok(db') else CreateOpening(db', wallet, openingId, x)
  }

  /** createOpening and createOpeningEvents */
  function CreateOpening(db: Db, wallet: Wallet, openingId: Uuid, x: Context): Result<Db> {
    var opening :- NewOpening(openingId, wallet.id, wallet.playerId, wallet.balance, x.now);
    if openingId in db.wagers then Err(AlreadyExists)
    else
      var zero :- Zero(wallet.balance.currency);
      var entry :- BuildEntry(x.ids.entry, wallet.id, openingId, Credit, wallet.balance, zero, wallet.balance, x.now);
      var data :- ProcessedEventData(opening);
      Ok(db.(wagers := db.wagers[openingId := WagerRow(opening, None)],
             ledger := db.ledger + [entry],
             outbox := db.outbox + [Event(x.ids.event1, x.metadata, x.now, data),
                                    Event(x.ids.event2, x.metadata, x.now, BalanceChangedEventData(wallet, entry))]))
  }

  // ----- messages -----

  /** A queue message whose envelope parsed and whose provider is allowed; `hash` is the digest of its body. */
  datatype Message = Message(id: string, hash: string, command: Command)

  /** InboxRepository.Register: whether the message was already completed. */
  function Register(db: Db, m: Message): Result<bool> {
    if m.id !in db.inbox then Ok(false)
    else if db.inbox[m.id].hash != m.hash then Err(InboxMessageConflict)
    else Ok(db.inbox[m.id].completedAt.Some?)
  }

  /** InboxRepository.Complete, on a row registered in the same transaction */
  function Complete(db: Db, m: Message, at: Time): Db {
    db.(inbox := db.inbox[m.id := InboxRow(m.hash, Some(at))])
  }

  /** WagerMessageHandler.Handle: inbox, Process and completion in one transaction. */
  function Handle(
    db: Db, m: Message, id: Uuid, createdAt: Time, found: Option<Wager>, x: Context, completedAt: Time): Result<Db>
  {
    var completed :- Register(db, m);
    if completed then Ok(db)
    else Finish(m, Process(db, m.command, id, createdAt, found, x.(metadata := Metadata(m.id, m.id))), completedAt)
  }

  /** The end of Handle: a failed Process fails the whole transaction, any answer completes the message. */
  function Finish(m: Message, processed: Result<Done>, completedAt: Time): Result<Db> {
    var done :- processed;
    Ok(Complete(done.db, m, completedAt))
  }
}
