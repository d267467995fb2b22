/** Shared vocabulary: results, identifiers, instants and the blank-string test. */
module Basics {

  datatype Option<+T> = None | Some(value: T)

  /** Every error value the modelled code can return. */
  datatype Error =
    // money and currency
    | InvalidCurrency | InvalidMoney | CurrencyMismatch | AmountMustBePositive
    // wallet
    | InvalidWalletId | InvalidPlayerId | InvalidWalletVersion | InsufficientFunds | InvalidTimestamp
    // wager transaction
    | InvalidTransactionId | InvalidProviderId | InvalidExternalTransactionId | InvalidIdempotencyKey
    | InvalidPayloadHash | InvalidRoundId | InvalidGameId | InvalidWagerType | InvalidWagerStatus
    | InvalidWagerAmount | InvalidWagerReference | WagerReferenceMismatch | WagerReferenceNotProcessed
    | InvalidWagerTransition | WagerTransactionTerminal | InvalidFailureCode | InvalidFinancialResult
    | InvalidWagerState
    // ledger
    | InvalidLedgerEntry
    // application
    | InvalidCorrelationId | NotFound | AlreadyExists | IdempotencyConflict | ExternalTransactionConflict
    | WalletNotFound | WalletAlreadyExists | WalletMismatch | InvalidWalletReference
    | InboxMessageConflict | InboxMessageNotFound | ConcurrentUpdate | DependencyUnavailable

  datatype Result<+T> = Ok(value: T) | Err(error: Error) {
    predicate IsFailure() { Err? }

    function PropagateFailure<U>(): Result<U>
      requires Err?
    {
      Err(error)
    }

    function Extract(): T
      requires Ok?
    {
      value
    }
  }

  /** Result of a check that produces no value. */
  datatype Check = Pass | Fail(error: Error) {
    predicate IsFailure() { Fail? }

    function PropagateFailure<U>(): Result<U>
      requires Fail?
    {
      Err(error)
    }
  }

  /** UUIDs are opaque numbers; 0 stands for uuid.Nil. */
  type Uuid = nat

  const NIL_UUID: Uuid := 0

  /** Instants in nanoseconds; 0 stands for the zero time. */
  type Time = int

  const ZERO_TIME: Time := 0

  function Min(a: int, b: int): int { if a <= b then a else b }

  function Max(a: int, b: int): int { if a >= b then a else b }

  /** Go's unicode.IsSpace. */
  predicate IsSpace(c: char) {
    var n := c as int;
    || 0x09 <= n <= 0x0D || n == 0x20 || n == 0x85 || n == 0xA0 || n == 0x1680
    || 0x2000 <= n <= 0x200A || n == 0x2028 || n == 0x2029 || n == 0x202F || n == 0x205F || n == 0x3000
  }

  /** strings.TrimSpace(s) == "". */
  predicate Blank(s: string) {
    forall i :: 0 <= i < |s| ==> IsSpace(s[i])
  }

  /** PostgreSQL's BTRIM(s) = '': only the space character is trimmed. */
  predicate OnlySpaces(s: string) {
    forall i :: 0 <= i < |s| ==> s[i] == ' '
  }

  /** len(s): the number of UTF-8 bytes. */
  function ByteLength(s: string): nat {
    if s == "" then 0 else
      var n := s[|s| - 1] as int;
      ByteLength(s[..|s| - 1]) + (if n < 0x80 then 1 else if n < 0x800 then 2 else if n < 0x10000 then 3 else 4)
  }
}
