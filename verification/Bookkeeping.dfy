/**
 What the committed records say, field by field: a transaction row repeats its command, an
 event repeats its row or its ledger entry. Nothing here mentions how the engine builds them.
 */
module Bookkeeping {
  import opened Basics
  import opened Money
  import opened MoneyText
  import opened Wagers
  import opened Wallets
  import opened Engine
  import Backoff

  // ----- a transaction and its command -----

  function KindText(k: Kind): string {
    match k
    case Opening => "OPENING" case Bet => "BET" case Win => "WIN"
    case Loss => "LOSS" case Refund => "REFUND" case Rollback => "ROLLBACK"
  }

  /** The digest was taken of these terms. */
  predicate Covers(p: Payload, t: Terms) {
    && p.providerId == t.providerId && p.externalId == t.externalId && p.walletId == t.walletId && p.playerId == t.playerId
    && p.roundId == t.roundId && p.gameId == t.gameId && p.kind == t.kind && p.amount == t.amount
    && (if t.referenceExternalId == "" then p.referenceExternalId.None? else p.referenceExternalId == Some(t.referenceExternalId))
  }

  /** The same business fields: everything a command says but its idempotency key. */
  predicate SameOperation(t: Terms, c: Command) {
    && t.providerId == c.providerId && t.externalId == c.externalId && t.walletId == c.walletId && t.playerId == c.playerId
    && t.roundId == c.roundId && t.gameId == c.gameId && KindText(t.kind) == c.kind
    && Print(t.amount.cents) == c.amount && t.amount.currency == c.currency && t.referenceExternalId == c.referenceExternalId
  }

  /** The terms of the transaction that `id`, created at `at`, records for the command. */
  predicate Carries(t: Terms, c: Command, id: Uuid, at: Time) {
    && SameOperation(t, c) && t.idempotencyKey == c.idempotencyKey && t.id == id && t.createdAt == at
    && t.payloadHash.Some? && Covers(t.payloadHash.value, t)
  }

  // ----- events -----

  /** The event speaks of the transaction with these terms. */
  predicate Names(s: Subject, t: Terms) {
    && s.transactionId == t.id && s.providerId == t.providerId && s.externalId == t.externalId
    && s.walletId == t.walletId && s.playerId == t.playerId && s.roundId == t.roundId && s.gameId == t.gameId
    && s.kind == t.kind && s.amount == t.amount
  }

  predicate TellsProcessed(d: EventData, w: Wager) {
    && d.ProcessedData? && Names(d.subject, w.terms) && w.status.Processed?
    && w.before == Some(d.before) && w.after == Some(d.after)
    && (if w.referenceId == NIL_UUID then d.referenceId.None? else d.referenceId == Some(w.referenceId))
  }

  predicate TellsRejected(d: EventData, w: Wager) {
    && d.RejectedData? && Names(d.subject, w.terms) && w.status.Rejected?
    && d.failureCode == w.failureCode && d.failureMessage == w.failureMessage
  }

  predicate TellsWaiting(d: EventData, t: Terms) {
    d.PendingReferenceData? && Names(d.subject, t) && d.referenceExternalId == t.referenceExternalId
  }

  /** The movement of the entry took the player's wallet to this version. */
  predicate TellsChange(d: EventData, playerId: Uuid, version: int, e: Entry) {
    && d.BalanceChangedData? && d.walletId == e.walletId && d.playerId == playerId && d.transactionId == e.transactionId
    && d.direction == e.direction && d.amount == e.amount && d.before == e.before && d.after == e.after
    && d.walletVersion == version
  }

  predicate Stamped(e: Event, id: Uuid, x: Context) {
    e.eventId == id && e.metadata == x.metadata && e.occurredAt == x.now
  }

  // ----- what one use case writes -----

  /** The transaction a row resolved its reference to. */
  datatype Link = Link(id: Uuid, kind: Option<Kind>)

  const NO_LINK := Link(NIL_UUID, None)

  /** The row of a transaction that ended now, with no retry left. */
  predicate Ended(row: WagerRow, t: Terms, link: Link, status: Status, now: Time) {
    && row.retry.None? && row.wager.terms == t && row.wager.status == status
    && row.wager.referenceId == link.id && row.wager.referenceKind == link.kind
    && row.wager.updatedAt == now && row.wager.completedAt == Some(now)
  }

  /** REJECTED with the code and its explanation, one event, and no money moved. */
  predicate RejectedRecords(wr: Writes, t: Terms, link: Link, code: FailureCode, x: Context) {
    var w := wr.row.wager;
    && Ended(wr.row, t, link, Rejected, x.now) && w.failureCode == code && w.failureMessage == Explains(code)
    && w.before.None? && w.after.None? && wr.wallet.None? && wr.entry.None?
    && |wr.events| == 1 && Stamped(wr.events[0], x.ids.event1, x) && TellsRejected(wr.events[0].data, w)
  }

  /** PENDING_REFERENCE with its first attempt ahead, one event, and no money moved. */
  predicate WaitingRecords(wr: Writes, t: Terms, x: Context) {
    && wr.row.wager == Wager(t, NIL_UUID, None, PendingReference, NO_CODE, NO_MESSAGE, None, None, x.now, None)
    && wr.wallet.None? && wr.entry.None? && |wr.events| == 1 && Stamped(wr.events[0], x.ids.event1, x)
    && TellsWaiting(wr.events[0].data, t) && wr.row.retry.Some?
    && var r := wr.row.retry.value;
       && r.count == 0 && r.expiresAt == x.now + x.policy.ttl && r.metadata == x.metadata
       && r.nextAttemptAt == Min(x.now + Backoff.LoopDelay(x.policy.initialDelay, x.policy.maxDelay, 1), r.expiresAt)
  }

  /** PROCESSED: both balances, and unless it is a LOSS the wallet, one ledger entry and a second event. */
  predicate AppliedRecords(wr: Writes, t: Terms, link: Link, was: Wallet, balance: int, x: Context) {
    var w, after := wr.row.wager, Money(balance, t.amount.currency);
    && Ended(wr.row, t, link, Processed, x.now) && w.failureCode == NO_CODE && w.failureMessage == NO_MESSAGE
    && w.before == Some(was.balance) && w.after == Some(after)
    && |wr.events| >= 1 && Stamped(wr.events[0], x.ids.event1, x) && TellsProcessed(wr.events[0].data, w)
    && if t.kind.Loss? then wr.wallet.None? && wr.entry.None? && |wr.events| == 1
       else MovedRecords(wr, t, was, after, x)
  }

  predicate MovedRecords(wr: Writes, t: Terms, was: Wallet, after: Money, x: Context) {
    var direction := if after.cents < was.balance.cents then Debit else Credit;
    && wr.wallet == Some(Wallet(was.id, was.playerId, after, was.version + 1, was.createdAt, x.now))
    && wr.entry == Some(Entry(x.ids.entry, t.walletId, t.id, direction, t.amount, was.balance, after, x.now))
    && |wr.events| == 2 && Stamped(wr.events[1], x.ids.event2, x)
    && TellsChange(wr.events[1].data, was.playerId, was.version + 1, wr.entry.value)
  }

  /** The row stays as it was but for its next attempt; nothing else is written. */
  predicate RescheduledRecords(wr: Writes, row: WagerRow, later: Time, x: Context)
    requires row.retry.Some?
  {
    var was := row.retry.value;
    && wr.row.wager == row.wager.(updatedAt := later) && wr.row.retry.Some?
    && wr.wallet.None? && wr.entry.None? && wr.events == []
    && var r := wr.row.retry.value;
       && r.count == was.count + 1 && r.expiresAt == was.expiresAt && r.metadata == was.metadata
       && r.nextAttemptAt == Min(x.now + Backoff.LoopDelay(x.policy.initialDelay, x.policy.maxDelay, was.count + 2), was.expiresAt)
  }

  /** The tables with these records added, and nothing else changed. */
  predicate Lands(db: Db, d: Db, wr: Writes) {
    var t := wr.row.wager.terms;
    && d.wagers == db.wagers[t.id := wr.row]
    && d.byExternal == db.byExternal[(t.providerId, t.externalId) := t.id]
    && d.byKey == db.byKey[(t.providerId, t.idempotencyKey) := t.id]
    && d.wallets == (if wr.wallet.Some? then db.wallets[t.walletId := wr.wallet.value] else db.wallets)
    && d.ledger == (if wr.entry.Some? then db.ledger + [wr.entry.value] else db.ledger)
    && d.outbox == db.outbox + wr.events && d.inbox == db.inbox
  }
}
