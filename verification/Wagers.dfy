/**
 The wager transaction as a value, and its operations as functions from one value to the
 next (internal/domain/wager_transaction.go). The mutable object that the source works
 with is the class in WagerObject.dfy, which is proved to follow these functions.
 */
module Wagers {
  import opened Basics
  import opened Money

  datatype Kind = Opening | Bet | Win | Loss | Refund | Rollback {
    predicate IsExternal() { !Opening? }
    predicate RequiresReference() { Refund? || Rollback? }
    predicate AllowsReference() { Win? || RequiresReference() }
  }

  datatype Status = Pending | PendingReference | Processed | Rejected | Failed {
    predicate IsTerminal() { Processed? || Rejected? || Failed? }
  }

  datatype Direction = Debit | Credit

  /** A failure code: one of the stable codes of the application, or any other text. FailureCodes gives their texts. */
  datatype FailureCode =
    | BetInsufficientFunds | ReversalInsufficientFunds | ReferenceNotFound | ReferenceNotProcessable
    | ReferenceMismatch | ReferenceTypeNotAllowed | DuplicateReversal | ProcessingFailed
    | OtherCode(text: string)
  {
    predicate IsBlank() { OtherCode? && Blank(text) }
  }

  /** The fixed explanation that goes with a code, or any other text. */
  datatype FailureMessage = Explains(code: FailureCode) | OtherMessage(text: string)

  const NO_CODE := OtherCode("")
  const NO_MESSAGE := OtherMessage("")

  const MAX_IDENTIFIER_LENGTH := 255

  /**
   The fields covered by the idempotency hash. SHA-256 of their canonical JSON is taken to
   be injective, so the hash is modelled by the fields themselves.
   */
  datatype Payload = Payload(
    externalId: string, gameId: string, kind: Kind, amount: Money, playerId: Uuid,
    providerId: string, roundId: string, walletId: Uuid, referenceExternalId: Option<string>)

  /** The part of a wager transaction that never changes after construction. */
  datatype Terms = Terms(
    id: Uuid, providerId: string, externalId: string, idempotencyKey: string,
    payloadHash: Option<Payload>, // None is the empty hash of an OPENING
    walletId: Uuid, playerId: Uuid, roundId: string, gameId: string,
    kind: Kind, amount: Money, referenceExternalId: string, createdAt: Time)

  datatype Wager = Wager(
    terms: Terms,
    referenceId: Uuid, referenceKind: Option<Kind>,
    status: Status, failureCode: FailureCode, failureMessage: FailureMessage,
    before: Option<Money>, after: Option<Money>,
    updatedAt: Time, completedAt: Option<Time>)

  // ----- construction -----

  predicate ValidIdentifier(s: string) {
    !Blank(s) && ByteLength(s) <= MAX_IDENTIFIER_LENGTH
  }

  function ValidateAmount(kind: Kind, amount: Money): Check {
    if kind.Loss? then
      if amount.IsZero() then Pass else Fail(InvalidWagerAmount)
    else
      if amount.IsPositive() then Pass else Fail(AmountMustBePositive)
  }

  function ValidateExternalReference(kind: Kind, referenceExternalId: string): Check {
    var hasReference := !Blank(referenceExternalId);
    if kind.RequiresReference() && !hasReference then Fail(InvalidWagerReference)
    else if !kind.AllowsReference() && hasReference then Fail(InvalidWagerReference)
    else Pass
  }

  function ValidateExternal(t: Terms): Check {
    if t.id == NIL_UUID then Fail(InvalidTransactionId)
    else if !ValidIdentifier(t.providerId) then Fail(InvalidProviderId)
    else if !ValidIdentifier(t.externalId) then Fail(InvalidExternalTransactionId)
    else if !ValidIdentifier(t.idempotencyKey) then Fail(InvalidIdempotencyKey)
    else if t.payloadHash.None? then Fail(InvalidPayloadHash)
    else if t.walletId == NIL_UUID then Fail(InvalidWalletId)
    else if t.playerId == NIL_UUID then Fail(InvalidPlayerId)
    else if !ValidIdentifier(t.roundId) then Fail(InvalidRoundId)
    else if !ValidIdentifier(t.gameId) then Fail(InvalidGameId)
    else if !t.kind.IsExternal() then Fail(InvalidWagerType)
    else if !t.amount.IsValid() then Fail(InvalidMoney)
    else if ValidateAmount(t.kind, t.amount).Fail? then ValidateAmount(t.kind, t.amount)
    else if ValidateExternalReference(t.kind, t.referenceExternalId).Fail? then
      ValidateExternalReference(t.kind, t.referenceExternalId)
    else if ByteLength(t.referenceExternalId) > MAX_IDENTIFIER_LENGTH || t.referenceExternalId == t.externalId then
      Fail(InvalidWagerReference)
    else if t.createdAt == ZERO_TIME then Fail(InvalidTimestamp)
    else Pass
  }

  /** The reference is absent or meaningful; the constructor lets a whitespace-only one pass for kinds that need none. */
  predicate Clean(t: Terms) {
    t.referenceExternalId == "" || !Blank(t.referenceExternalId)
  }

  function Unresolved(t: Terms): Wager {
    Wager(t, NIL_UUID, None, Pending, NO_CODE, NO_MESSAGE, None, None, t.createdAt, None)
  }

  /** NewExternalWagerTransaction. */
  function NewExternal(t: Terms): Result<Wager> {
    if ValidateExternal(t).Fail? then Err(ValidateExternal(t).error) else Ok(Unresolved(t))
  }

  /** NewOpeningWagerTransaction. */
  function NewOpening(id: Uuid, walletId: Uuid, playerId: Uuid, amount: Money, createdAt: Time): Result<Wager> {
    if id == NIL_UUID then Err(InvalidTransactionId)
    else if walletId == NIL_UUID then Err(InvalidWalletId)
    else if playerId == NIL_UUID then Err(InvalidPlayerId)
    else if !amount.IsValid() then Err(InvalidMoney)
    else if !amount.IsPositive() then Err(AmountMustBePositive)
    else if createdAt == ZERO_TIME then Err(InvalidTimestamp)
    else
      var zero :- Zero(amount.currency);
      Ok(Wager(
           Terms(id, "", "", "", None, walletId, playerId, "", "", Opening, amount, "", createdAt),
           NIL_UUID, None, Processed, NO_CODE, NO_MESSAGE, Some(zero), Some(amount), createdAt, Some(createdAt)))
  }

  // ----- state changes -----

  predicate AllowedReferenceKind(kind: Kind, reference: Kind) {
    match kind
    case Win => reference.Bet?
    case Refund => reference.Bet?
    case Rollback => reference.Bet? || reference.Win? || reference.Refund?
    case _ => false
  }

  predicate AllowedTransition(from: Status, to: Status) {
    match from
    case Pending => !to.Pending?
    case PendingReference => to.Pending? || to.Rejected? || to.Failed?
    case _ => false
  }

  function ValidateTimestamp(w: Wager, at: Time): Check {
    if at == ZERO_TIME || at < w.updatedAt then Fail(InvalidTimestamp) else Pass
  }

  function TransitionTo(w: Wager, status: Status, at: Time): Result<Wager> {
    if w.status.IsTerminal() then Err(WagerTransactionTerminal)
    else if ValidateTimestamp(w, at).Fail? then Err(InvalidTimestamp)
    else if !AllowedTransition(w.status, status) then Err(InvalidWagerTransition)
    else Ok(w.(status := status, updatedAt := at))
  }

  function MarkPendingReference(w: Wager, at: Time): Result<Wager> {
    if w.status.IsTerminal() then Err(WagerTransactionTerminal)
    else if !w.status.Pending? then Err(InvalidWagerTransition)
    else if !w.terms.kind.AllowsReference() then Err(InvalidWagerReference)
    else if Blank(w.terms.referenceExternalId) then Err(InvalidWagerReference)
    else if w.referenceId != NIL_UUID then Err(InvalidWagerReference)
    else TransitionTo(w, PendingReference, at)
  }

  function ValidateReference(w: Wager, reference: Option<Wager>): Check {
    if reference.None? then Fail(InvalidWagerReference) else
      var r := reference.value;
      if Blank(w.terms.referenceExternalId) then Fail(InvalidWagerReference)
      else if !r.status.Processed? then Fail(WagerReferenceNotProcessed)
      else if w.terms.referenceExternalId != r.terms.externalId then Fail(WagerReferenceMismatch)
      else if || w.terms.providerId != r.terms.providerId
              || w.terms.playerId != r.terms.playerId
              || w.terms.walletId != r.terms.walletId
              || w.terms.roundId != r.terms.roundId
              || w.terms.amount.currency != r.terms.amount.currency then Fail(WagerReferenceMismatch)
      else if !AllowedReferenceKind(w.terms.kind, r.terms.kind) then Fail(InvalidWagerReference)
      else if w.terms.kind.RequiresReference() && w.terms.amount != r.terms.amount then Fail(WagerReferenceMismatch)
      else Pass
  }

  function ResolveReference(w: Wager, reference: Option<Wager>, at: Time): Result<Wager> {
    if w.status.IsTerminal() then Err(WagerTransactionTerminal)
    else if ValidateReference(w, reference).Fail? then Err(ValidateReference(w, reference).error)
    else
      var r := reference.value;
      if w.referenceId != NIL_UUID then
        if w.referenceId != r.terms.id || w.referenceKind != Some(r.terms.kind) then Err(WagerReferenceMismatch)
        else Ok(w)
      else if ValidateTimestamp(w, at).Fail? then Err(InvalidTimestamp)
      else Ok(w.(status := Pending, referenceId := r.terms.id, referenceKind := Some(r.terms.kind), updatedAt := at))
  }

  /** None inside Ok means that the transaction moves no money. */
  function MovementDirection(w: Wager): Result<Option<Direction>> {
    match w.terms.kind
    case Bet => Ok(Some(Debit))
    case Win => Ok(Some(Credit))
    case Refund => Ok(Some(Credit))
    case Loss => Ok(None)
    case Rollback =>
      if w.referenceKind == Some(Bet) then Ok(Some(Credit))
      else if w.referenceKind == Some(Win) || w.referenceKind == Some(Refund) then Ok(Some(Debit))
      else Err(InvalidWagerReference)
    case Opening => Err(InvalidWagerType)
  }

  function ValidateReferenceReady(w: Wager): Check {
    var hasExternal := !Blank(w.terms.referenceExternalId);
    var hasInternal := w.referenceId != NIL_UUID;
    if w.terms.kind.RequiresReference() && !hasExternal then Fail(InvalidWagerReference)
    else if hasExternal && !hasInternal then Fail(InvalidWagerReference)
    else if hasInternal && !(w.referenceKind.Some? && AllowedReferenceKind(w.terms.kind, w.referenceKind.value)) then
      Fail(InvalidWagerReference)
    else Pass
  }

  function ValidateObservedBalances(w: Wager, before: Money, after: Money): Check {
    if !before.IsValid() || !after.IsValid() then Fail(InvalidMoney)
    else if before.IsNegative() || after.IsNegative() then Fail(InvalidFinancialResult)
    else if w.terms.amount.currency != before.currency || w.terms.amount.currency != after.currency then
      Fail(CurrencyMismatch)
    else if w.terms.kind.Loss? && before != after then Fail(InvalidFinancialResult)
    else Pass
  }

  function MarkProcessed(w: Wager, before: Money, after: Money, at: Time): Result<Wager> {
    if w.status.IsTerminal() then Err(WagerTransactionTerminal)
    else if !w.status.Pending? then Err(InvalidWagerTransition)
    else if ValidateReferenceReady(w).Fail? then Err(InvalidWagerReference)
    else if ValidateObservedBalances(w, before, after).Fail? then Err(ValidateObservedBalances(w, before, after).error)
    else
      var w' :- TransitionTo(w, Processed, at);
      Ok(w'.(before := Some(before), after := Some(after), completedAt := Some(at)))
  }

  /** MarkRejected and MarkFailed share this completion. */
  function CompleteWithFailure(w: Wager, status: Status, code: FailureCode, message: FailureMessage, at: Time): Result<Wager> {
    if w.status.IsTerminal() then Err(WagerTransactionTerminal)
    else if w.terms.kind.Opening? then Err(InvalidWagerTransition)
    else if code.IsBlank() then Err(InvalidFailureCode)
    else
      var w' :- TransitionTo(w, status, at);
      Ok(w'.(failureCode := code, failureMessage := message, completedAt := Some(at)))
  }

  function MarkRejected(w: Wager, code: FailureCode, message: FailureMessage, at: Time): Result<Wager> {
    CompleteWithFailure(w, Rejected, code, message, at)
  }

  function MarkFailed(w: Wager, code: FailureCode, message: FailureMessage, at: Time): Result<Wager> {
    CompleteWithFailure(w, Failed, code, message, at)
  }

  // ----- rehydration -----

  function ValidatePersistedReference(w: Wager): Check {
    var hasExternal := !Blank(w.terms.referenceExternalId);
    var hasInternal := w.referenceId != NIL_UUID;
    var hasKind := w.referenceKind.Some?;
    if (hasInternal || hasKind) && !hasExternal then Fail(InvalidWagerReference)
    else if hasInternal != hasKind then Fail(InvalidWagerReference)
    else if hasKind && !AllowedReferenceKind(w.terms.kind, w.referenceKind.value) then Fail(InvalidWagerReference)
    else Pass
  }

  function ValidatePendingState(w: Wager): Check {
    if w.completedAt.Some? || w.before.Some? || w.after.Some? || w.failureCode != NO_CODE || w.failureMessage != NO_MESSAGE then
      Fail(InvalidWagerState)
    else Pass
  }

  function ValidateProcessedState(w: Wager): Check {
    if w.completedAt.None? || w.before.None? || w.after.None? || w.failureCode != NO_CODE || w.failureMessage != NO_MESSAGE then
      Fail(InvalidWagerState)
    else if !Blank(w.terms.referenceExternalId) && w.referenceId == NIL_UUID then Fail(InvalidWagerReference)
    else if w.before.value.IsNegative() || w.after.value.IsNegative() then Fail(InvalidFinancialResult)
    else if || w.terms.amount.currency != w.before.value.currency
            || w.terms.amount.currency != w.after.value.currency then Fail(CurrencyMismatch)
    else if w.terms.kind.Loss? && w.before.value != w.after.value then Fail(InvalidFinancialResult)
    else Pass
  }

  function ValidateFailureState(w: Wager): Check {
    if w.failureCode.IsBlank() || w.completedAt.None? || w.before.Some? || w.after.Some? then Fail(InvalidWagerState)
    else Pass
  }

  function ValidateRehydratedExternal(w: Wager): Check {
    var t := w.terms;
    if Blank(t.providerId) then Fail(InvalidProviderId)
    else if Blank(t.externalId) then Fail(InvalidExternalTransactionId)
    else if Blank(t.idempotencyKey) then Fail(InvalidIdempotencyKey)
    else if t.payloadHash.None? then Fail(InvalidPayloadHash)
    else if Blank(t.roundId) then Fail(InvalidRoundId)
    else if Blank(t.gameId) then Fail(InvalidGameId)
    else if !t.kind.IsExternal() then Fail(InvalidWagerType)
    else if ValidateAmount(t.kind, t.amount).Fail? then ValidateAmount(t.kind, t.amount)
    else if ValidateExternalReference(t.kind, t.referenceExternalId).Fail? then
      ValidateExternalReference(t.kind, t.referenceExternalId)
    else if ValidatePersistedReference(w).Fail? then ValidatePersistedReference(w)
    else match w.status
      case Pending => ValidatePendingState(w)
      case PendingReference =>
        if Blank(t.referenceExternalId) || w.referenceId != NIL_UUID || w.referenceKind.Some? then
          Fail(InvalidWagerState)
        else ValidatePendingState(w)
      case Processed => ValidateProcessedState(w)
      case _ => ValidateFailureState(w)
  }

  function ValidateRehydratedOpening(w: Wager): Check {
    var t := w.terms;
    if || !Blank(t.providerId) || !Blank(t.externalId) || !Blank(t.idempotencyKey) || t.payloadHash.Some?
       || !Blank(t.roundId) || !Blank(t.gameId) || !Blank(t.referenceExternalId)
       || w.referenceId != NIL_UUID || w.referenceKind.Some? then Fail(InvalidWagerState)
    else if !t.amount.IsPositive() then Fail(AmountMustBePositive)
    else if || !w.status.Processed? || w.before.None? || w.after.None? || w.completedAt.None?
            || w.failureCode != NO_CODE || w.failureMessage != NO_MESSAGE then Fail(InvalidWagerState)
    else if Zero(t.amount.currency).Err? then Fail(Zero(t.amount.currency).error)
    else if w.before.value != Zero(t.amount.currency).value || w.after.value != t.amount then
      Fail(InvalidFinancialResult)
    else Pass
  }

  function ValidateRehydrated(w: Wager): Check {
    var t := w.terms;
    if t.id == NIL_UUID then Fail(InvalidTransactionId)
    else if t.walletId == NIL_UUID then Fail(InvalidWalletId)
    else if t.playerId == NIL_UUID then Fail(InvalidPlayerId)
    else if !t.amount.IsValid() then Fail(InvalidMoney)
    else if t.createdAt == ZERO_TIME || w.updatedAt == ZERO_TIME || w.updatedAt < t.createdAt then
      Fail(InvalidTimestamp)
    else if w.completedAt.Some? && (|| w.completedAt.value == ZERO_TIME || w.completedAt.value < t.createdAt
                                    || w.completedAt.value > w.updatedAt) then Fail(InvalidTimestamp)
    else if t.kind.Opening? then ValidateRehydratedOpening(w)
    else ValidateRehydratedExternal(w)
  }

  /** RehydrateWagerTransaction: a stored row becomes a transaction again, or is refused. */
  function Rehydrate(row: Wager): Result<Wager> {
    if ValidateRehydrated(row).Fail? then Err(ValidateRehydrated(row).error) else Ok(row)
  }

  // ----- the life of one transaction -----

  /** One call on a transaction object. */
  datatype Call =
    | CallMarkPendingReference(at: Time)
    | CallResolveReference(reference: Option<Wager>, at: Time)
    | CallMarkProcessed(before: Money, after: Money, at: Time)
    | CallMarkRejected(code: FailureCode, message: FailureMessage, at: Time)
    | CallMarkFailed(code: FailureCode, message: FailureMessage, at: Time)

  function Perform(w: Wager, call: Call): Result<Wager> {
    match call
    case CallMarkPendingReference(at) => MarkPendingReference(w, at)
    case CallResolveReference(reference, at) => ResolveReference(w, reference, at)
    case CallMarkProcessed(before, after, at) => MarkProcessed(w, before, after, at)
    case CallMarkRejected(code, message, at) => MarkRejected(w, code, message, at)
    case CallMarkFailed(code, message, at) => MarkFailed(w, code, message, at)
  }

  /** A failed call leaves the object as it was. */
  function After(w: Wager, call: Call): Wager {
    match Perform(w, call)
    case Ok(w') => w'
    case Err(_) => w
  }

  function Life(w: Wager, calls: seq<Call>): Wager {
    if calls == [] then w else After(Life(w, calls[..|calls| - 1]), calls[|calls| - 1])
  }

  /** How many of the calls changed status or reference. */
  function Changes(w: Wager, calls: seq<Call>): nat {
    if calls == [] then 0 else
      var u := Life(w, calls[..|calls| - 1]);
      Changes(w, calls[..|calls| - 1]) + (if Moved(u, After(u, calls[|calls| - 1])) then 1 else 0)
  }

  predicate Moved(u: Wager, v: Wager) {
    u.status != v.status || u.referenceId != v.referenceId || u.referenceKind != v.referenceKind
  }

  /** unresolved PENDING, PENDING_REFERENCE, resolved PENDING, terminal */
  function Rank(w: Wager): nat {
    match w.status
    case Pending => if w.referenceId == NIL_UUID then 3 else 1
    case PendingReference => 2
    case _ => 0
  }

  /** References handed to a call are transactions, and transactions have an identifier. */
  predicate RealReference(call: Call) {
    call.CallResolveReference? && call.reference.Some? ==> call.reference.value.terms.id != NIL_UUID
  }
}
