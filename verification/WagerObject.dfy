/**
 The mutable transaction object of internal/domain/wager_transaction.go. Its methods check
 and assign field by field, in the order of the source, and each is proved to follow the
 function of the same name in module Wagers: same new value, or same error and no change.
 */
module WagerObject {
  import opened Basics
  import opened Money
  import W = Wagers

  type Wager = W.Wager

  /** One call took `was` to `now` and returned `err`, exactly as `spec` says. */
  ghost predicate Follows(was: Wager, spec: Result<Wager>, now: Wager, err: Check) {
    match spec
    case Ok(w) => err.Pass? && now == w
    case Err(e) => err == Fail(e) && now == was
  }

  class WagerTransaction {
    const terms: W.Terms
    var referenceId: Uuid
    var referenceKind: Option<W.Kind>
    var status: W.Status
    var failureCode: W.FailureCode
    var failureMessage: W.FailureMessage
    var before: Option<Money>
    var after: Option<Money>
    var updatedAt: Time
    var completedAt: Option<Time>

    function View(): Wager
      reads this
    {
      W.Wager(terms, referenceId, referenceKind, status, failureCode, failureMessage, before, after, updatedAt, completedAt)
    }

    constructor (w: Wager)
      ensures View() == w
    {
      terms := w.terms;
      referenceId, referenceKind := w.referenceId, w.referenceKind;
      status, failureCode, failureMessage := w.status, w.failureCode, w.failureMessage;
      before, after := w.before, w.after;
      updatedAt, completedAt := w.updatedAt, w.completedAt;
    }

    method TransitionTo(next: W.Status, at: Time) returns (err: Check)
      modifies this
      ensures Follows(old(View()), W.TransitionTo(old(View()), next, at), View(), err)
    {
      if status.IsTerminal() { return Fail(WagerTransactionTerminal); }
      if at == ZERO_TIME || at < updatedAt { return Fail(InvalidTimestamp); }
      if !W.AllowedTransition(status, next) { return Fail(InvalidWagerTransition); }
      status := next;
      updatedAt := at;
      return Pass;
    }

    method MarkPendingReference(at: Time) returns (err: Check)
      modifies this
      ensures Follows(old(View()), W.MarkPendingReference(old(View()), at), View(), err)
    {
      if status.IsTerminal() { return Fail(WagerTransactionTerminal); }
      if !status.Pending? { return Fail(InvalidWagerTransition); }
      if !terms.kind.AllowsReference() { return Fail(InvalidWagerReference); }
      if Blank(terms.referenceExternalId) { return Fail(InvalidWagerReference); }
      if referenceId != NIL_UUID { return Fail(InvalidWagerReference); }
      err := TransitionTo(W.PendingReference, at);
    }

    method ResolveReference(reference: WagerTransaction?, at: Time) returns (err: Check)
      modifies this
      ensures var ref := if reference == null then None else Some(old(reference.View()));
              Follows(old(View()), W.ResolveReference(old(View()), ref, at), View(), err)
    {
      if status.IsTerminal() { return Fail(WagerTransactionTerminal); }
      var ref := if reference == null then None else Some(reference.View());
      var valid := W.ValidateReference(View(), ref);
      if valid.Fail? { return valid; }
      if referenceId != NIL_UUID {
        if referenceId != reference.terms.id || referenceKind != Some(reference.terms.kind) {
          return Fail(WagerReferenceMismatch);
        }
        return Pass;
      }
      if at == ZERO_TIME || at < updatedAt { return Fail(InvalidTimestamp); }
      if status.PendingReference? {
        status := W.Pending;
      }
      referenceId := reference.terms.id;
      referenceKind := Some(reference.terms.kind);
      updatedAt := at;
      return Pass;
    }

    method MarkProcessed(balanceBefore: Money, balanceAfter: Money, at: Time) returns (err: Check)
      modifies this
      ensures Follows(old(View()), W.MarkProcessed(old(View()), balanceBefore, balanceAfter, at), View(), err)
    {
      if status.IsTerminal() { return Fail(WagerTransactionTerminal); }
      if !status.Pending? { return Fail(InvalidWagerTransition); }
      err := W.ValidateReferenceReady(View());
      if err.Fail? { return; }
      err := W.ValidateObservedBalances(View(), balanceBefore, balanceAfter);
      if err.Fail? { return; }
      err := TransitionTo(W.Processed, at);
      if err.Fail? { return; }
      before := Some(balanceBefore);
      after := Some(balanceAfter);
      completedAt := Some(at);
    }

    method CompleteWithFailure(outcome: W.Status, code: W.FailureCode, message: W.FailureMessage, at: Time) returns (err: Check)
      modifies this
      ensures Follows(old(View()), W.CompleteWithFailure(old(View()), outcome, code, message, at), View(), err)
    {
      if status.IsTerminal() { return Fail(WagerTransactionTerminal); }
      if terms.kind.Opening? { return Fail(InvalidWagerTransition); }
      if code.IsBlank() { return Fail(InvalidFailureCode); }
      err := TransitionTo(outcome, at);
      if err.Fail? { return; }
      failureCode := code;
      failureMessage := message;
      completedAt := Some(at);
    }
  }
}
