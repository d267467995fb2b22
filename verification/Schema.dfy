/**
 The CHECK constraints, unique indexes and update triggers of the database
 (migrations/000002, 000004, 000006, 000011 and 000013) as predicates, and the proof that the
 writes of the services already meet them. A NULL text column is the empty string.
 */
module Schema {
  import opened Basics
  import opened Money
  import opened Wagers
  import opened Wallets
  import FailureCodes
  import opened Engine
  import opened EngineInvariant
  import opened EngineDecisions
  import opened EngineRuns
  import opened EngineSafety

  // ----- wager_transactions -----

  /** IS NOT NULL AND BTRIM(s) <> '' */
  predicate Filled(s: string) { s != "" && !OnlySpaces(s) }

  predicate CodeFilled(code: FailureCode) { Filled(FailureCodes.Text(code)) }

  predicate CurrencyCheck(t: Terms) { ValidCurrency(t.amount.currency) }

  predicate AmountCheck(t: Terms) {
    if t.kind.Loss? then t.amount.cents == 0 else t.amount.cents > 0
  }

  predicate BalancesCheck(w: Wager) {
    (w.before.Some? ==> w.before.value.cents >= 0) && (w.after.Some? ==> w.after.value.cents >= 0)
  }

  predicate OriginCheck(w: Wager) {
    var t := w.terms;
    if t.kind.Opening? then
      && t.providerId == "" && t.externalId == "" && t.idempotencyKey == "" && t.payloadHash.None?
      && t.roundId == "" && t.gameId == "" && t.referenceExternalId == ""
      && w.referenceId == NIL_UUID && w.referenceKind.None? && w.status.Processed?
    else
      && Filled(t.providerId) && Filled(t.externalId) && Filled(t.idempotencyKey) && t.payloadHash.Some?
      && Filled(t.roundId) && Filled(t.gameId)
  }

  predicate ReferenceNotBlankCheck(t: Terms) { t.referenceExternalId == "" || Filled(t.referenceExternalId) }

  predicate ReferencePairCheck(w: Wager) {
    || (w.referenceId == NIL_UUID && w.referenceKind.None?)
    || (w.referenceId != NIL_UUID && w.referenceKind.Some? && w.terms.referenceExternalId != "")
  }

  predicate ReferenceByTypeCheck(w: Wager) {
    match w.terms.kind
    case Win => w.referenceKind.None? || w.referenceKind == Some(Bet)
    case Refund => w.terms.referenceExternalId != "" && (w.referenceKind.None? || w.referenceKind == Some(Bet))
    case Rollback =>
      && w.terms.referenceExternalId != ""
      && (w.referenceKind.None? || w.referenceKind == Some(Bet) || w.referenceKind == Some(Win) || w.referenceKind == Some(Refund))
    case _ => w.terms.referenceExternalId == "" && w.referenceId == NIL_UUID && w.referenceKind.None?
  }

  predicate StatusFieldsCheck(w: Wager) {
    match w.status
    case Processed => w.completedAt.Some? && w.before.Some? && w.after.Some? && w.failureCode == NO_CODE && w.failureMessage == NO_MESSAGE
    case Rejected => w.completedAt.Some? && w.before.None? && w.after.None? && CodeFilled(w.failureCode)
    case Failed => w.completedAt.Some? && w.before.None? && w.after.None? && CodeFilled(w.failureCode)
    case _ => w.completedAt.None? && w.before.None? && w.after.None? && w.failureCode == NO_CODE && w.failureMessage == NO_MESSAGE
  }

  predicate PendingReferenceCheck(row: WagerRow) {
    row.wager.status.PendingReference? ==>
      row.wager.terms.referenceExternalId != "" && row.wager.referenceId == NIL_UUID && row.wager.referenceKind.None? && row.retry.Some?
  }

  predicate ProcessedReferenceCheck(w: Wager) {
    w.status.Processed? ==>
      match w.terms.kind
      case Win => w.terms.referenceExternalId == "" || w.referenceId != NIL_UUID
      case Refund => w.referenceId != NIL_UUID
      case Rollback => w.referenceId != NIL_UUID
      case _ => true
  }

  predicate ProcessedResultCheck(w: Wager) {
    w.status.Processed? ==>
      && w.before.Some? && w.after.Some?
      && var before, after, amount := w.before.value.cents, w.after.value.cents, w.terms.amount.cents;
         match w.terms.kind
         case Opening => before == 0 && after == amount
         case Bet => after == before - amount
         case Win => after == before + amount
         case Loss => after == before
         case Refund => after == before + amount
         case Rollback =>
           if w.referenceKind == Some(Bet) then after == before + amount
           else (w.referenceKind == Some(Win) || w.referenceKind == Some(Refund)) && after == before - amount
  }

  predicate RetryCheck(row: WagerRow) {
    row.retry.Some? ==>
      var r := row.retry.value;
      r.count >= 0 && r.expiresAt >= row.wager.terms.createdAt && r.nextAttemptAt <= r.expiresAt
  }

  predicate TimestampsCheck(w: Wager) {
    && w.updatedAt >= w.terms.createdAt
    && (w.completedAt.Some? ==> w.terms.createdAt <= w.completedAt.value <= w.updatedAt)
  }

  /** Every CHECK constraint of wager_transactions. */
  predicate RowAccepted(row: WagerRow) {
    var w := row.wager;
    && CurrencyCheck(w.terms) && AmountCheck(w.terms) && BalancesCheck(w) && OriginCheck(w)
    && ReferenceNotBlankCheck(w.terms) && ReferencePairCheck(w) && ReferenceByTypeCheck(w)
    && StatusFieldsCheck(w) && PendingReferenceCheck(row) && ProcessedReferenceCheck(w) && ProcessedResultCheck(w)
    && RetryCheck(row) && TimestampsCheck(w)
  }

  /** prevent_wager_transaction_mutation: terminal rows and business fields never change. */
  predicate RowUpdateAllowed(was: Wager, now: Wager) {
    !was.status.IsTerminal() && now.terms == was.terms
  }

  // ----- wallets and ledger -----

  predicate WalletAccepted(w: Wallet) {
    ValidCurrency(w.balance.currency) && w.balance.cents >= 0 && w.version >= 1 && w.updatedAt >= w.createdAt
  }

  /** enforce_wallet_update_rules: identity is fixed, and the version moves by one exactly with the balance. */
  predicate WalletUpdateAllowed(was: Wallet, now: Wallet) {
    && now.id == was.id && now.playerId == was.playerId && now.balance.currency == was.balance.currency
    && now.createdAt == was.createdAt
    && now.version == (if now.balance == was.balance then was.version else was.version + 1)
  }

  predicate EntryAccepted(e: Entry) {
    && ValidCurrency(e.amount.currency) && e.amount.cents > 0 && e.before.cents >= 0 && e.after.cents >= 0
    && e.after.cents == e.before.cents + (if e.direction.Debit? then -e.amount.cents else e.amount.cents)
  }

  // ----- what one transaction writes -----

  /** The row an UPDATE of these writes finds: the stored one, or the PENDING row inserted before. */
  function Before(db: Db, wr: Writes): Wager {
    var t := wr.row.wager.terms;
    if t.id in db.wagers then db.wagers[t.id].wager else Unresolved(t)
  }

  /** The inserted row, the update of the row, its keys and its reference. */
  predicate AcceptsRow(db: Db, wr: Writes) {
    var w := wr.row.wager;
    && (w.terms.id !in db.wagers ==> RowAccepted(WagerRow(Unresolved(w.terms), None)) && !InsertConflicts(db, w.terms))
    && WalletReferenced(db, w.terms)
    && RowAccepted(wr.row) && RowUpdateAllowed(Before(db, wr), w)
    && (w.referenceId != NIL_UUID ==>
          w.referenceId in db.wagers && w.referenceKind == Some(db.wagers[w.referenceId].wager.terms.kind))
    && (IsReversal(w) ==> !HasReversal(db, w.referenceId))
  }

  predicate AcceptsMoney(db: Db, wr: Writes) {
    var w := wr.row.wager;
    && (wr.wallet.Some? ==>
          && w.terms.walletId in db.wallets && WalletAccepted(wr.wallet.value)
          && WalletUpdateAllowed(db.wallets[w.terms.walletId], wr.wallet.value))
    && (wr.entry.Some? ==>
          && EntryAccepted(wr.entry.value) && wr.entry.value.transactionId == w.terms.id
          && wr.entry.value.walletId == w.terms.walletId && wr.entry.value.amount.currency == w.terms.amount.currency
          && !HasEntry(db.ledger, w.terms.id))
  }

  lemma NotBlankIsFilled(s: string)
    requires !Blank(s)
    ensures Filled(s)
  {
  }

  lemma CodeIsFilled(code: FailureCode)
    requires !code.IsBlank()
    ensures CodeFilled(code)
  {
    FailureCodes.BlankExactly(code);
    NotBlankIsFilled(FailureCodes.Text(code));
  }

  lemma TermsAreFilled(t: Terms)
    requires ValidateExternal(t).Pass? && Clean(t)
    ensures Filled(t.providerId) && Filled(t.externalId) && Filled(t.idempotencyKey) && Filled(t.roundId) && Filled(t.gameId)
    ensures t.referenceExternalId == "" || (Filled(t.referenceExternalId) && !Blank(t.referenceExternalId))
  {
    NotBlankIsFilled(t.providerId);
    NotBlankIsFilled(t.externalId);
    NotBlankIsFilled(t.idempotencyKey);
    NotBlankIsFilled(t.roundId);
    NotBlankIsFilled(t.gameId);
    if t.referenceExternalId != "" {
      NotBlankIsFilled(t.referenceExternalId);
    }
  }

  /** A stored provider transaction meets every CHECK. */
  lemma StoredIsAccepted(row: WagerRow)
    requires RowOk(row.wager.terms.id, row) && row.wager.terms.kind.IsExternal() && RetryCheck(row)
    ensures RowAccepted(row)
  {
    var w := row.wager;
    TermsAreFilled(w.terms);
    if w.status.Rejected? || w.status.Failed? {
      CodeIsFilled(w.failureCode);
    }
  }

  /** The insert of a validated transaction is accepted exactly when its reference is absent, or allowed and not just spaces. */
  lemma InsertAcceptedExactly(t: Terms)
    requires ValidateExternal(t).Pass?
    ensures RowAccepted(WagerRow(Unresolved(t), None)) <==>
            t.referenceExternalId == "" || (t.kind.AllowsReference() && !OnlySpaces(t.referenceExternalId))
  {
    NotBlankIsFilled(t.providerId);
    NotBlankIsFilled(t.externalId);
    NotBlankIsFilled(t.idempotencyKey);
    NotBlankIsFilled(t.roundId);
    NotBlankIsFilled(t.gameId);
  }

  predicate Accepts(db: Db, wr: Writes) { AcceptsRow(db, wr) && AcceptsMoney(db, wr) }

  lemma LawfulRowIsAccepted(db: Db, wr: Writes, ids: Ids)
    requires Lawful(db, wr, ids) && RetryCheck(wr.row)
    ensures AcceptsRow(db, wr)
  {
    var t := wr.row.wager.terms;
    StoredIsAccepted(wr.row);
    InsertAcceptedExactly(t);
    TermsAreFilled(t);
  }

  lemma LawfulMoneyIsAccepted(db: Db, wr: Writes, ids: Ids)
    requires Lawful(db, wr, ids) && LedgerMatches(db.wagers, db.ledger)
    ensures AcceptsMoney(db, wr)
  {
    var w := wr.row.wager;
    forall i | 0 <= i < |db.ledger|
      ensures db.ledger[i].transactionId != w.terms.id
    {
      assert EntryOk(db.wagers, db.ledger[i]);
    }
    if Moves(w) {
      MovementIsNotZero(w);
    }
  }

  lemma MovementIsNotZero(w: Wager)
    requires Stored(w) && Moves(w)
    ensures Movement(w) != 0 && w.terms.amount.cents > 0 && w.before.value.cents >= 0 && w.after.value.cents >= 0
    ensures w.before.value != w.after.value
  {
  }

  /** Lawful writes with a good retry schedule meet every CHECK, unique index, foreign key and trigger. */
  lemma LawfulIsAccepted(db: Db, wr: Writes, ids: Ids)
    requires Lawful(db, wr, ids) && LedgerMatches(db.wagers, db.ledger) && RetryCheck(wr.row)
    ensures Accepts(db, wr)
  {
    LawfulRowIsAccepted(db, wr, ids);
    LawfulMoneyIsAccepted(db, wr, ids);
  }

  // ----- the use cases -----

  /** The new tables come from writes that the schema accepts. */
  ghost predicate Accepted(db: Db, d: Db) {
    exists wr :: d == Commit(db, wr) && Accepts(db, wr)
  }

  lemma ProcessIsAccepted(s: World, c: Command, id: Uuid, createdAt: Time, found: Option<Wager>, x: Context)
    requires WorldInv(s) && 0 < s.policy.ttl && FreshCommand(s, c, id, createdAt, found, x)
    ensures var r := Process(s.db, c, id, createdAt, found, x);
            r.Ok? && !r.value.reply.idempotentReplay ==> Accepted(s.db, r.value.db)
  {
    ProcessCommits(s, c, id, createdAt, found, x);
    var r := Process(s.db, c, id, createdAt, found, x);
    if r.Ok? && !r.value.reply.idempotentReplay {
      CommittedNewIsAccepted(s, r.value, x.ids, x.now);
    }
  }

  lemma CommittedNewIsAccepted(s: World, done: Done, ids: Ids, now: Time)
    requires LedgerMatches(s.db.wagers, s.db.ledger) && 0 < s.policy.ttl && CommittedNew(s.db, done, s.policy, ids, now)
    ensures Accepted(s.db, done.db)
  {
    var wr :| Lawful(s.db, wr, ids) && done.db == Commit(s.db, wr) && wr.row.wager == done.reply.wager
              && NewRowTimes(wr, s.policy, now);
    ParkedScheduleOk(s.policy, now, wr);
    LawfulIsAccepted(s.db, wr, ids);
  }

  lemma RetryIsAccepted(s: World, id: Uuid, found: Option<Wager>, later: Time, x: Context)
    requires WorldInv(s) && 0 < s.policy.ttl && DueRetry(s, id, found, later, x)
    ensures var r := RetryOne(s.db, id, found, later, x); r.Ok? ==> Accepted(s.db, r.value)
  {
    RetryCommits(s.db, id, found, later, x);
    var r := RetryOne(s.db, id, found, later, x);
    if r.Ok? {
      var wr := RetryWrites(s, r.value, id, x.ids, x.now, later);
      LawfulIsAccepted(s.db, wr, x.ids);
    }
  }

  lemma GiveUpIsAccepted(s: World, id: Uuid, now: Time)
    requires WorldInv(s) && Abandoned(s, id, now)
    ensures FailOne(s.db, id, now).Ok? && Accepted(s.db, FailOne(s.db, id, now).value)
  {
    var ids := FreshIdsExist(s.db);
    GiveUpCommits(s, id, now, ids);
    var wr :| Lawful(s.db, wr, ids) && FailOne(s.db, id, now).value == Commit(s.db, wr)
              && wr.row.wager.updatedAt == now && wr.row.retry.None?;
    LawfulIsAccepted(s.db, wr, ids);
  }

  lemma BlankInsertFails(db: Db, w: Wager, found: Option<Wager>, x: Context)
    requires RowsOk(db.wagers) && MayHaveSeen(db, ReferenceKey(w.terms), found) && !Clean(w.terms)
    ensures ProcessInserted(db, w, found, x).Err?
  {
    if LockWallet(db, w).Ok? {
      BlankReferenceFails(db, w, LockWallet(db, w).value, found, HasReversal(db, ReferenceOf(w, found)), x);
    }
  }

  /** A command whose reference is only whitespace never commits a transaction. */
  lemma BlankReferenceNeverCommits(db: Db, c: Command, id: Uuid, createdAt: Time, found: Option<Wager>, x: Context)
    requires RowsOk(db.wagers) && MayHaveSeen(db, (c.providerId, c.referenceExternalId), found)
    requires c.referenceExternalId != "" && Blank(c.referenceExternalId)
    ensures var r := Process(db, c, id, createdAt, found, x);
            r.Err? || (r.value.reply.idempotentReplay && r.value.db == db)
  {
    PreparedTerms(c, id, createdAt, x.metadata);
    var p := Prepare(c, id, createdAt, x.metadata);
    if p.Ok? {
      BlankInsertFails(db, p.value.1, found, x);
    }
  }

  /** What WalletService.Create writes for a positive opening balance. */
  lemma OpeningIsAccepted(db: Db, wallet: Wallet, openingId: Uuid, x: Context)
    requires CreateOpening(db, wallet, openingId, x).Ok? && wallet.version == 1 && wallet.createdAt == wallet.updatedAt
    ensures var d := CreateOpening(db, wallet, openingId, x).value;
            && RowAccepted(d.wagers[openingId]) && |d.ledger| == |db.ledger| + 1 && EntryAccepted(d.ledger[|db.ledger|])
            && WalletAccepted(wallet)
  {
  }
}
