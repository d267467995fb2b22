/**
 The whole life of one transaction object under any sequence of calls
 (internal/domain/wager_transaction.go): at most three changes, and every state it can be
 in is accepted by rehydration and rebuilt unchanged.
 */
module WagerLife {
  import opened Basics
  import opened Money
  import opened Wagers

  /** The shape every constructed transaction keeps under every call. */
  predicate Sound(w: Wager) {
    && ValidateRehydrated(w).Pass?
    && (w.completedAt.Some? ==> w.updatedAt == w.completedAt.value)
  }

  lemma ConstructedIsSound(t: Terms)
    requires ValidateExternal(t).Pass?
    ensures NewExternal(t) == Ok(Unresolved(t)) && Sound(Unresolved(t)) && Rank(Unresolved(t)) == 3
  {
  }

  lemma CallKeepsSound(w: Wager, call: Call)
    requires Sound(w) && RealReference(call)
    ensures Sound(After(w, call)) && After(w, call).terms == w.terms
    ensures w.updatedAt <= After(w, call).updatedAt
  {
  }

  lemma CallLowersRank(w: Wager, call: Call)
    requires Sound(w) && RealReference(call)
    ensures Rank(After(w, call)) <= Rank(w)
    ensures Moved(w, After(w, call)) ==> Rank(After(w, call)) < Rank(w)
    ensures !Moved(w, After(w, call)) ==> After(w, call) == w
  {
  }

  /**
   Any sequence of calls on a sound transaction makes at most Rank(w) <= 3 changes, although
   the transition table alone allows PENDING and PENDING_REFERENCE to alternate for ever.
   */
  lemma {:induction false} LifeIsShort(w: Wager, calls: seq<Call>)
    requires Sound(w) && forall c :: c in calls ==> RealReference(c)
    ensures Sound(Life(w, calls)) && Life(w, calls).terms == w.terms
    ensures Changes(w, calls) + Rank(Life(w, calls)) <= Rank(w) <= 3
    ensures Rehydrate(Life(w, calls)) == Ok(Life(w, calls))
    ensures AllowedTransition(Pending, PendingReference) && AllowedTransition(PendingReference, Pending)
  {
    if calls != [] {
      var init, last := calls[..|calls| - 1], calls[|calls| - 1];
      LifeIsShort(w, init);
      assert last in calls;
      CallKeepsSound(Life(w, init), last);
      CallLowersRank(Life(w, init), last);
    }
  }

  /** Once terminal, no call has any effect: the stored outcome is final. */
  lemma {:induction false} TerminalIsFinal(w: Wager, calls: seq<Call>)
    requires w.status.IsTerminal()
    ensures Life(w, calls) == w && Changes(w, calls) == 0
  {
    if calls != [] {
      TerminalIsFinal(w, calls[..|calls| - 1]);
    }
  }

  /** An OPENING is born terminal and sound. */
  lemma OpeningIsFinal(id: Uuid, walletId: Uuid, playerId: Uuid, amount: Money, at: Time, calls: seq<Call>)
    requires NewOpening(id, walletId, playerId, amount, at).Ok?
    ensures var w := NewOpening(id, walletId, playerId, amount, at).value;
            Sound(w) && Life(w, calls) == w && Rehydrate(w) == Ok(w)
  {
    TerminalIsFinal(NewOpening(id, walletId, playerId, amount, at).value, calls);
  }

  /** The bound of three is reached by every transaction that waits for its reference and is then applied. */
  lemma WaitingLifeHasThreeChanges(t: Terms, r: Wager, before: Money, after: Money, at: Time)
    requires ValidateExternal(t).Pass? && !Blank(t.referenceExternalId) && ZERO_TIME != at >= t.createdAt
    requires r.terms.id != NIL_UUID && ValidateReference(Unresolved(t), Some(r)).Pass?
    requires ValidateObservedBalances(Unresolved(t), before, after).Pass?
    ensures var calls := [CallMarkPendingReference(at), CallResolveReference(Some(r), at),
                          CallMarkProcessed(before, after, at)];
            Changes(Unresolved(t), calls) == 3 && Life(Unresolved(t), calls).status.Processed?
  {
    var w := Unresolved(t);
    var c1, c2, c3 := CallMarkPendingReference(at), CallResolveReference(Some(r), at), CallMarkProcessed(before, after, at);
    var calls := [c1, c2, c3];
    assert calls[..2] == [c1, c2] && [c1, c2][..1] == [c1] && [c1][..0] == [];
    assert Life(w, []) == w && Changes(w, []) == 0;
    var w1 := After(w, c1);
    assert Life(w, [c1]) == w1 && Changes(w, [c1]) == 1;
    var w2 := After(w1, c2);
    assert Life(w, [c1, c2]) == w2 && Changes(w, [c1, c2]) == 2;
  }

  // ----- each call -----

  predicate Timely(w: Wager, at: Time) { at != ZERO_TIME && w.updatedAt <= at }

  /** The processed transaction may serve as the reference of one with these terms. */
  predicate Referable(t: Terms, r: Wager) {
    && r.status.Processed? && !Blank(t.referenceExternalId) && t.referenceExternalId == r.terms.externalId
    && t.providerId == r.terms.providerId && t.playerId == r.terms.playerId && t.walletId == r.terms.walletId
    && t.roundId == r.terms.roundId && t.amount.currency == r.terms.amount.currency
    && (match t.kind
        case Win => r.terms.kind.Bet?
        case Refund => r.terms.kind.Bet? && t.amount == r.terms.amount
        case Rollback => !r.terms.kind.Opening? && !r.terms.kind.Loss? && !r.terms.kind.Rollback? && t.amount == r.terms.amount
        case _ => false)
  }

  /** Whatever the transaction refers to is resolved, and is of a kind it may refer to. */
  predicate Resolved(w: Wager) {
    && (w.terms.kind.Refund? || w.terms.kind.Rollback? ==> !Blank(w.terms.referenceExternalId))
    && (!Blank(w.terms.referenceExternalId) ==> w.referenceId != NIL_UUID)
    && (w.referenceId != NIL_UUID ==>
          match w.terms.kind
          case Win => w.referenceKind == Some(Bet)
          case Refund => w.referenceKind == Some(Bet)
          case Rollback => w.referenceKind in [Some(Bet), Some(Win), Some(Refund)]
          case _ => false)
  }

  predicate Payable(w: Wager, before: Money, after: Money) {
    && before.IsValid() && after.IsValid() && before.cents >= 0 && after.cents >= 0
    && before.currency == w.terms.amount.currency == after.currency && (w.terms.kind.Loss? ==> before == after)
  }

  predicate Fails(w: Wager, code: FailureCode, at: Time) {
    !w.status.IsTerminal() && !w.terms.kind.Opening? && !code.IsBlank() && Timely(w, at)
  }

  /** When a call succeeds. */
  predicate Succeeds(w: Wager, call: Call) {
    match call
    case CallMarkPendingReference(at) =>
      && w.status.Pending? && (w.terms.kind.Win? || w.terms.kind.Refund? || w.terms.kind.Rollback?)
      && !Blank(w.terms.referenceExternalId) && w.referenceId == NIL_UUID && Timely(w, at)
    case CallResolveReference(reference, at) =>
      && !w.status.IsTerminal() && reference.Some? && Referable(w.terms, reference.value)
      && (if w.referenceId == NIL_UUID then Timely(w, at)
          else w.referenceId == reference.value.terms.id && w.referenceKind == Some(reference.value.terms.kind))
    case CallMarkProcessed(before, after, at) =>
      w.status.Pending? && Resolved(w) && Payable(w, before, after) && Timely(w, at)
    case CallMarkRejected(code, _, at) => Fails(w, code, at)
    case CallMarkFailed(code, _, at) => Fails(w, code, at)
  }

  /** What a successful call leaves. */
  predicate Leaves(w: Wager, call: Call, w': Wager) {
    match call
    case CallMarkPendingReference(at) => w' == w.(status := PendingReference, updatedAt := at)
    case CallResolveReference(reference, at) =>
      if w.referenceId != NIL_UUID then w' == w
      else reference.Some? && w' == w.(status := Pending, referenceId := reference.value.terms.id,
                                       referenceKind := Some(reference.value.terms.kind), updatedAt := at)
    case CallMarkProcessed(before, after, at) =>
      w' == w.(status := Processed, before := Some(before), after := Some(after), updatedAt := at, completedAt := Some(at))
    case CallMarkRejected(code, message, at) =>
      w' == w.(status := Rejected, failureCode := code, failureMessage := message, updatedAt := at, completedAt := Some(at))
    case CallMarkFailed(code, message, at) =>
      w' == w.(status := Failed, failureCode := code, failureMessage := message, updatedAt := at, completedAt := Some(at))
  }

  /** Exactly when each call succeeds, and exactly what it changes. */
  lemma CallsExactly(w: Wager, call: Call)
    ensures Perform(w, call).Ok? <==> Succeeds(w, call)
    ensures Perform(w, call).Ok? ==> Leaves(w, call, Perform(w, call).value)
  {
  }
}
