/** The texts of the stable failure codes and of their explanations (internal/application/failure_codes.go). */
module FailureCodes {
  import opened Basics
  import opened Wagers

  function Text(code: FailureCode): string {
    match code
    case BetInsufficientFunds => "BET_INSUFFICIENT_FUNDS"
    case ReversalInsufficientFunds => "REVERSAL_INSUFFICIENT_FUNDS"
    case ReferenceNotFound => "REFERENCE_NOT_FOUND"
    case ReferenceNotProcessable => "REFERENCE_NOT_PROCESSABLE"
    case ReferenceMismatch => "REFERENCE_MISMATCH"
    case ReferenceTypeNotAllowed => "REFERENCE_TYPE_NOT_ALLOWED"
    case DuplicateReversal => "DUPLICATE_REVERSAL"
    case ProcessingFailed => "PROCESSING_FAILED"
    case OtherCode(text) => text
  }

  function Explanation(message: FailureMessage): string {
    match message
    case OtherMessage(text) => text
    case Explains(code) =>
      match code
      case BetInsufficientFunds => "insufficient funds for bet"
      case ReversalInsufficientFunds => "insufficient funds for reversal"
      case ReferenceNotFound => "referenced transaction was not processed before expiration"
      case ReferenceNotProcessable => "referenced transaction did not complete successfully"
      case ReferenceMismatch => "referenced transaction does not match provider, player, wallet, currency, round or amount"
      case ReferenceTypeNotAllowed => "referenced transaction type cannot be used by this operation"
      case DuplicateReversal => "referenced transaction already has a successful direct reversal"
      case ProcessingFailed => "transaction could not be processed; see service logs"
      case OtherCode(_) => ""
  }

  /** A code is blank exactly when its text is, so the domain's check on codes is the check on their texts. */
  lemma BlankExactly(code: FailureCode)
    ensures code.IsBlank() <==> Blank(Text(code))
  {
    assert !IsSpace('B') && !IsSpace('R') && !IsSpace('D') && !IsSpace('P');
    if !code.OtherCode? {
      assert Text(code)[0] in "BRDP";
    }
  }

  /** The stable codes have different texts. */
  lemma StableCodesDiffer(a: FailureCode, b: FailureCode)
    requires !a.OtherCode? && !b.OtherCode? && Text(a) == Text(b)
    ensures a == b
  {
    assert |Text(a)| == |Text(b)|;
    assert Text(a)[0] == Text(b)[0];
  }
}
