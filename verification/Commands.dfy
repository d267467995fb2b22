/**
 Which commands are accepted, what is wrong with the others, and what an accepted command
 becomes, all over the fields of the command (internal/application/wager_request.go,
 internal/domain/wager_transaction.go).
 */
module Commands {
  import opened Basics
  import opened Money
  import opened MoneyText
  import opened Wagers
  import opened Engine
  import opened Bookkeeping

  const NOTHING := "0.00"

  predicate IsOperation(kind: string) { kind in ["BET", "WIN", "LOSS", "REFUND", "ROLLBACK"] }

  predicate IsReversalKind(kind: string) { kind == "REFUND" || kind == "ROLLBACK" }

  /** A reversal names what it undoes, a win may name its bet, nothing else names anything. */
  predicate ReferenceFits(c: Command) {
    && (IsReversalKind(c.kind) ==> !Blank(c.referenceExternalId))
    && (c.kind == "BET" || c.kind == "LOSS" ==> Blank(c.referenceExternalId))
    && ByteLength(c.referenceExternalId) <= MAX_IDENTIFIER_LENGTH && c.referenceExternalId != c.externalId
  }

  predicate WellFormed(c: Command) {
    && c.walletId != NIL_UUID && c.playerId != NIL_UUID
    && ValidIdentifier(c.providerId) && ValidIdentifier(c.externalId) && ValidIdentifier(c.idempotencyKey)
    && ValidIdentifier(c.roundId) && ValidIdentifier(c.gameId)
    && ValidCurrency(c.currency) && Matches(c.amount) && IsOperation(c.kind)
    && (c.kind == "LOSS" <==> c.amount == NOTHING)
    && ReferenceFits(c)
  }

  /** The error names something that really is wrong with the call. */
  predicate Faulty(c: Command, id: Uuid, at: Time, m: Metadata, e: Error) {
    match e
    case InvalidCorrelationId => Blank(m.correlationId)
    case InvalidWalletId => c.walletId == NIL_UUID
    case InvalidPlayerId => c.playerId == NIL_UUID
    case InvalidCurrency => !ValidCurrency(c.currency)
    case InvalidMoney => !Matches(c.amount)
    case InvalidWagerType => !IsOperation(c.kind)
    case InvalidTransactionId => id == NIL_UUID
    case InvalidProviderId => !ValidIdentifier(c.providerId)
    case InvalidExternalTransactionId => !ValidIdentifier(c.externalId)
    case InvalidIdempotencyKey => !ValidIdentifier(c.idempotencyKey)
    case InvalidRoundId => !ValidIdentifier(c.roundId)
    case InvalidGameId => !ValidIdentifier(c.gameId)
    case InvalidWagerAmount => c.kind == "LOSS" && c.amount != NOTHING
    case AmountMustBePositive => c.kind != "LOSS" && c.amount == NOTHING
    case InvalidWagerReference => !ReferenceFits(c)
    case InvalidTimestamp => at == ZERO_TIME
    case _ => false
  }

  /** The idempotency digest was taken of the business fields of this command. */
  predicate Digests(p: Payload, c: Command) {
    && p.providerId == c.providerId && p.externalId == c.externalId && p.walletId == c.walletId && p.playerId == c.playerId
    && p.roundId == c.roundId && p.gameId == c.gameId && KindText(p.kind) == c.kind
    && 0 <= p.amount.cents <= MAX_CENTS && Print(p.amount.cents) == c.amount && p.amount.currency == c.currency
    && (if c.referenceExternalId == "" then p.referenceExternalId.None? else p.referenceExternalId == Some(c.referenceExternalId))
  }

  lemma KindsOfTexts(text: string)
    ensures ParseKind(text).Some? ==> KindText(ParseKind(text).value) == text
    ensures ParseKind(text).Some? && ParseKind(text).value.IsExternal() <==> IsOperation(text)
  {
  }

  lemma TextsOfKinds(k: Kind)
    ensures ParseKind(KindText(k)) == Some(k)
  {
  }

  lemma ZeroIsNothing(s: string)
    requires Matches(s)
    ensures Cents(s) == 0 <==> s == NOTHING
  {
    ParseThenPrint(s);
    PrintThenParse(0);
    assert Print(0) == NOTHING by { assert Digits(0) == "0"; }
  }

  /** parseWagerRequest keeps every field of the command, and its digest covers them. */
  lemma ParsedFields(c: Command)
    requires ParseRequest(c).Ok?
    ensures var r := ParseRequest(c).value;
            && r.command == c && KindText(r.kind) == c.kind && r.kind.IsExternal()
            && r.amount == Money(MoneyText.Cents(c.amount), c.currency) && Print(r.amount.cents) == c.amount
            && (r.amount.cents == 0 <==> c.amount == NOTHING) && r.amount.IsValid() && 0 <= r.amount.cents
            && Digests(r.payloadHash, c)
  {
    ParseThenPrint(c.amount);
    ZeroIsNothing(c.amount);
    KindsOfTexts(c.kind);
  }

  lemma ParsesExactly(c: Command, id: Uuid, at: Time, m: Metadata)
    ensures WellFormed(c) ==> ParseRequest(c).Ok?
    ensures ParseRequest(c).Err? ==> Faulty(c, id, at, m, ParseRequest(c).error)
  {
    hide ValidIdentifier, ReferenceFits, Print;
    KindsOfTexts(c.kind);
    if Matches(c.amount) {
      ParseThenPrint(c.amount);
    }
  }

  /** Process accepts exactly the well-formed commands, and turns each into a pending transaction with its fields. */
  lemma PreparesExactly(c: Command, id: Uuid, at: Time, m: Metadata)
    ensures Prepare(c, id, at, m).Ok? <==>
            WellFormed(c) && id != NIL_UUID && at != ZERO_TIME && !Blank(m.correlationId)
    ensures match Prepare(c, id, at, m)
            case Err(e) => Faulty(c, id, at, m, e)
            case Ok((r, w)) =>
              && Carries(w.terms, c, id, at) && w.terms.payloadHash == Some(r.payloadHash) && Digests(r.payloadHash, c)
              && r.command == c && w.terms.kind.IsExternal()
              && w == Wager(w.terms, NIL_UUID, None, Pending, NO_CODE, NO_MESSAGE, None, None, at, None)
  {
    hide ParseRequest, ValidateExternal, RequestTerms, WellFormed, SameOperation, Covers, Digests;
    ParsesExactly(c, id, at, m);
    if ParseRequest(c).Ok? {
      ParsedFields(c);
      TermsOfRequest(ParseRequest(c).value, id, at, m);
    }
  }

  lemma TermsOfRequest(r: Request, id: Uuid, at: Time, m: Metadata)
    requires ParseRequest(r.command) == Ok(r)
    ensures var t, c := RequestTerms(r, id, at), r.command;
            && Carries(t, c, id, at) && t.payloadHash == Some(r.payloadHash) && t.kind.IsExternal()
            && (ValidateExternal(t).Pass? <==> WellFormed(c) && id != NIL_UUID && at != ZERO_TIME)
            && (ValidateExternal(t).Fail? ==> Faulty(c, id, at, m, ValidateExternal(t).error))
  {
    hide ValidateExternal, WellFormed, Faulty, ValidIdentifier, Matches, Print;
    var t, c := RequestTerms(r, id, at), r.command;
    ParsedFields(c);
    ReferencesAgree(t, c);
    ValidExactly(t, c, id, at);
    RefusedForFault(t, c, id, at, m);
  }

  lemma ReferencesAgree(t: Terms, c: Command)
    requires t.referenceExternalId == c.referenceExternalId && t.externalId == c.externalId && KindText(t.kind) == c.kind
    requires t.kind.IsExternal()
    ensures ReferenceFits(c) <==>
            && ValidateExternalReference(t.kind, t.referenceExternalId).Pass?
            && ByteLength(t.referenceExternalId) <= MAX_IDENTIFIER_LENGTH && t.referenceExternalId != t.externalId
    ensures ValidateExternalReference(t.kind, t.referenceExternalId).Fail? ==>
            ValidateExternalReference(t.kind, t.referenceExternalId).error == InvalidWagerReference
    ensures IsOperation(c.kind) && (t.kind.Loss? <==> c.kind == "LOSS")
  {
    hide ByteLength, Blank;
  }

  /** The constructor's checks on terms that carry a command. */
  predicate Constructed(t: Terms, c: Command, id: Uuid, at: Time) {
    && Carries(t, c, id, at) && t.kind.IsExternal() && t.amount.IsValid() && t.amount.cents >= 0
    && (t.amount.cents == 0 <==> c.amount == NOTHING)
  }

  lemma ValidExactly(t: Terms, c: Command, id: Uuid, at: Time)
    requires Constructed(t, c, id, at) && Matches(c.amount) && ValidCurrency(c.currency)
    requires c.walletId != NIL_UUID && c.playerId != NIL_UUID
    ensures ValidateExternal(t).Pass? <==> WellFormed(c) && id != NIL_UUID && at != ZERO_TIME
  {
    hide ValidIdentifier, Matches, Print, ByteLength, ValidateExternalReference, ReferenceFits, Covers, KindText, IsOperation;
    ReferencesAgree(t, c);
  }

  lemma RefusedForFault(t: Terms, c: Command, id: Uuid, at: Time, m: Metadata)
    requires Constructed(t, c, id, at)
    ensures ValidateExternal(t).Fail? ==> Faulty(c, id, at, m, ValidateExternal(t).error)
  {
    hide ValidIdentifier, Matches, Print, ByteLength, ValidateExternalReference, ReferenceFits, Covers, KindText, IsOperation;
    ReferencesAgree(t, c);
  }

  /** There is only one digest of a command. */
  lemma DigestIsUnique(p: Payload, q: Payload, c: Command)
    requires Digests(p, c) && Digests(q, c)
    ensures p == q
  {
    TextsOfKinds(p.kind);
    TextsOfKinds(q.kind);
    PrintThenParse(p.amount.cents);
    PrintThenParse(q.amount.cents);
  }
}
