/**
 The outcome of a settlement as a decision table, stated without the code's own steps, and
 the proof that the engine decides exactly by it.
 */
module EngineOutcomes {
  import opened Basics
  import opened Money
  import opened Wagers
  import opened WagerLife
  import opened Wallets
  import opened Engine
  import opened EngineInvariant
  import opened EngineDecisions
  import opened Bookkeeping

  datatype Verdict =
    | Applied(balance: int)      // PROCESSED, leaving this balance
    | Turned(code: FailureCode)       // REJECTED with this failure code
    | Waits                      // PENDING_REFERENCE
    | OutOfRange                 // an error: the balance would leave the range of money

  /** What the operation adds to the balance. A rollback takes back what it references. */
  function Effect(kind: Kind, referenced: Option<Kind>, cents: int): int {
    match kind
    case Win => cents
    case Refund => cents
    case Bet => -cents
    case Rollback => if referenced == Some(Bet) then cents else -cents
    case _ => 0
  }

  function SettleVerdict(kind: Kind, referenced: Option<Kind>, cents: int, balance: int, reversed: bool): Verdict {
    var sum := balance + Effect(kind, referenced, cents);
    if (kind.Refund? || kind.Rollback?) && reversed then Turned(DuplicateReversal)
    else if sum < 0 then Turned(if kind.Rollback? then ReversalInsufficientFunds else BetInsufficientFunds)
    else if sum > MAX_CENTS then OutOfRange
    else Applied(sum)
  }

  /** Same provider, player, wallet, round and currency. */
  predicate SameContext(t: Terms, r: Terms) {
    && t.providerId == r.providerId && t.playerId == r.playerId && t.walletId == r.walletId && t.roundId == r.roundId
    && t.amount.currency == r.amount.currency
  }

  predicate MayReference(kind: Kind, referenced: Kind) {
    if kind.Rollback? then referenced.Bet? || referenced.Win? || referenced.Refund?
    else (kind.Win? || kind.Refund?) && referenced.Bet?
  }

  function TableVerdict(t: Terms, found: Option<Wager>, balance: int, reversed: bool): Verdict {
    if t.referenceExternalId == "" then SettleVerdict(t.kind, None, t.amount.cents, balance, reversed)
    else if found.None? || !found.value.status.IsTerminal() then Waits
    else
      var r := found.value;
      if !r.status.Processed? then Turned(ReferenceNotProcessable)
      else if !SameContext(t, r.terms) then Turned(ReferenceMismatch)
      else if !MayReference(t.kind, r.terms.kind) then Turned(ReferenceTypeNotAllowed)
      else if !AmountAgrees(t, r.terms) then Turned(ReferenceMismatch)
      else SettleVerdict(t.kind, Some(r.terms.kind), t.amount.cents, balance, reversed)
  }

  /** A verdict reached with the reference resolved. */
  predicate Settles(v: Verdict) {
    || v.Applied? || v.OutOfRange?
    || (v.Turned? && (v.code.DuplicateReversal? || v.code.BetInsufficientFunds? || v.code.ReversalInsufficientFunds?))
  }

  /** What the row is linked to after the verdict. */
  function LinkAfter(t: Terms, found: Option<Wager>, v: Verdict): Link {
    if t.referenceExternalId != "" && found.Some? && Settles(v) then Link(found.value.terms.id, Some(found.value.terms.kind))
    else NO_LINK
  }

  /** The writes are exactly the records of the verdict. */
  predicate Concludes(wr: Writes, v: Verdict, t: Terms, link: Link, was: Wallet, x: Context) {
    match v
    case Waits => WaitingRecords(wr, t, x)
    case Turned(code) => RejectedRecords(wr, t, link, code, x)
    case Applied(balance) => AppliedRecords(wr, t, link, was, balance, x)
    case OutOfRange => false
  }

  predicate CarriesOut(r: Result<Writes>, v: Verdict, t: Terms, link: Link, was: Wallet, x: Context) {
    if v.OutOfRange? then r == Err(InvalidMoney) else r.Ok? && Concludes(r.value, v, t, link, was, x)
  }

  function LinkOf(w: Wager): Link { Link(w.referenceId, w.referenceKind) }

  /** A transaction object that no call has given a result. */
  predicate Unfinished(w: Wager) {
    && !w.status.IsTerminal() && w.terms.kind.IsExternal() && w.failureCode == NO_CODE && w.failureMessage == NO_MESSAGE
    && w.before.None? && w.after.None? && w.completedAt.None?
  }

  lemma RejectRecords(w: Wager, code: FailureCode, x: Context)
    requires Unfinished(w) && ZERO_TIME < x.now && w.updatedAt <= x.now && !code.IsBlank()
    ensures Reject(w, code, x).Ok? && RejectedRecords(Reject(w, code, x).value, w.terms, LinkOf(w), code, x)
  {
  }

  lemma LiveIsUnfinished(db: Db, w: Wager)
    requires Live(db, w)
    ensures Unfinished(w)
  {
  }

  /** An accepted movement writes the records of its new balance. */
  lemma MovedIsApplied(w: Wager, wallet: Wallet, d: Direction, sum: int, x: Context)
    requires Unfinished(w) && w.status.Pending? && ValidateReferenceReady(w).Pass? && MovementDirection(w) == Ok(Some(d))
    requires HealthyWallet(wallet) && InTime(w, wallet, x.now) && x.ids.entry != NIL_UUID
    requires w.terms.id != NIL_UUID && wallet.id == w.terms.walletId && w.terms.amount.IsValid() && w.terms.amount.IsPositive()
    requires w.terms.amount.currency == wallet.balance.currency
    requires sum == wallet.balance.cents + Signed(d, w.terms.amount.cents) && 0 <= sum <= MAX_CENTS
    ensures ApplyMovement(w, wallet, x).Ok? && AppliedRecords(ApplyMovement(w, wallet, x).value, w.terms, LinkOf(w), wallet, sum, x)
  {
    hide Reject, ValidateReferenceReady;
    MoveExactly(wallet, d, w.terms.amount, x.now);
  }

  lemma LossIsApplied(w: Wager, wallet: Wallet, x: Context)
    requires Unfinished(w) && w.status.Pending? && ValidateReferenceReady(w).Pass? && w.terms.kind.Loss?
    requires HealthyWallet(wallet) && InTime(w, wallet, x.now) && w.terms.amount.currency == wallet.balance.currency
    ensures ApplyMovement(w, wallet, x).Ok?
    ensures AppliedRecords(ApplyMovement(w, wallet, x).value, w.terms, LinkOf(w), wallet, wallet.balance.cents, x)
  {
  }

  lemma MovementVerdict(db: Db, w: Wager, x: Context)
    requires Live(db, w) && w.status.Pending? && ValidateReferenceReady(w).Pass?
    requires var wallet := db.wallets[w.terms.walletId]; HealthyWallet(wallet) && InTime(w, wallet, x.now)
    requires x.ids.entry != NIL_UUID
    ensures var wallet := db.wallets[w.terms.walletId];
            CarriesOut(ApplyMovement(w, wallet, x),
                       SettleVerdict(w.terms.kind, w.referenceKind, w.terms.amount.cents, wallet.balance.cents, false),
                       w.terms, LinkOf(w), wallet, x)
  {
    hide Reject, Sound, RefOk, AppliedRecords, RejectedRecords;
    LiveIsUnfinished(db, w);
    var wallet, d := db.wallets[w.terms.walletId], MovementDirection(w).value;
    if d.None? {
      LossIsApplied(w, wallet, x);
    } else {
      MoveExactly(wallet, d.value, w.terms.amount, x.now);
      var sum := wallet.balance.cents + Signed(d.value, w.terms.amount.cents);
      if sum < 0 {
        RejectRecords(w, InsufficientFundsRejection(w), x);
      } else if sum <= MAX_CENTS {
        MovedIsApplied(w, wallet, d.value, sum, x);
      }
    }
  }

  lemma SettledVerdict(db: Db, w: Wager, reversed: bool, x: Context)
    requires Live(db, w) && w.status.Pending? && ValidateReferenceReady(w).Pass?
    requires var wallet := db.wallets[w.terms.walletId]; HealthyWallet(wallet) && InTime(w, wallet, x.now)
    requires x.ids.entry != NIL_UUID
    ensures var wallet := db.wallets[w.terms.walletId];
            CarriesOut(Settle(w, wallet, reversed, x),
                       SettleVerdict(w.terms.kind, w.referenceKind, w.terms.amount.cents, wallet.balance.cents, reversed),
                       w.terms, LinkOf(w), wallet, x)
  {
    hide Reject, ApplyMovement, AppliedRecords, RejectedRecords, Unfinished, Sound, RefOk;
    var wallet := db.wallets[w.terms.walletId];
    if w.terms.kind.RequiresReference() && reversed {
      LiveIsUnfinished(db, w);
      var why := DuplicateReversal;
      RejectRecords(w, why, x);
      assert Settle(w, wallet, reversed, x) == Reject(w, why, x);
    } else {
      MovementVerdict(db, w, x);
      assert Settle(w, wallet, reversed, x) == ApplyMovement(w, wallet, x);
    }
  }

  /** A new command under its locks ends as the table says, record by record. */
  lemma ProcessingFollowsTable(db: Db, w: Wager, found: Option<Wager>, reversed: bool, x: Context)
    requires Live(db, w) && RowsOk(db.wagers) && MayHaveSeen(db, ReferenceKey(w.terms), found)
    requires w == Unresolved(w.terms)
    requires var wallet := db.wallets[w.terms.walletId]; HealthyWallet(wallet) && InTime(w, wallet, x.now)
    requires x.ids.entry != NIL_UUID
    ensures var wallet := db.wallets[w.terms.walletId];
            var v := TableVerdict(w.terms, found, wallet.balance.cents, reversed);
            CarriesOut(ProcessNew(w, wallet, found, reversed, x), v, w.terms, LinkAfter(w.terms, found, v), wallet, x)
  {
    hide Settle, Reject, Park, AppliedRecords, RejectedRecords, WaitingRecords, RefOk, Sound;
    var wallet := db.wallets[w.terms.walletId];
    if w.terms.referenceExternalId == "" {
      SettledVerdict(db, w, reversed, x);
    } else {
      ResolvedIsLive(db, w, found, x.now);
      ResolvedByTable(w, found, x.now, wallet.balance.cents, reversed);
      LiveIsUnfinished(db, w);
      match ResolveOutcome(w, found, x.now).value
      case Refused(why) => RejectRecords(w, why, x);
      case Unavailable => ParkRecords(w, x);
      case Available(w') => SettledVerdict(db, w', reversed, x);
    }
  }

  lemma ParkRecords(w: Wager, x: Context)
    requires w == Unresolved(w.terms) && ZERO_TIME < x.now && w.updatedAt <= x.now
    requires w.terms.kind.AllowsReference() && !Blank(w.terms.referenceExternalId)
    ensures Park(w, x).Ok? && WaitingRecords(Park(w, x).value, w.terms, x)
  {
  }

  /** A due row that has not expired ends as the same table says, and one that still waits is rescheduled. */
  lemma RetryFollowsTable(db: Db, id: Uuid, found: Option<Wager>, reversed: bool, later: Time, x: Context)
    requires RowsOk(db.wagers) && RefsOk(db.wagers) && WalletsOk(db)
    requires id in db.wagers && db.wagers[id].retry.Some? && MayHaveSeen(db, ReferenceKey(db.wagers[id].wager.terms), found)
    requires var w := db.wagers[id].wager; InTime(w, db.wallets[w.terms.walletId], x.now)
    requires x.ids.entry != NIL_UUID
    ensures var row := db.wagers[id];
            var t, wallet := row.wager.terms, db.wallets[row.wager.terms.walletId];
            var v := if row.retry.value.expiresAt <= x.now then Turned(ReferenceNotFound)
                     else TableVerdict(t, found, wallet.balance.cents, reversed);
            var r := RetryPending(row, wallet, found, reversed, later, x);
            if v.Waits? then r.Ok? && RescheduledRecords(r.value, row, later, x)
            else CarriesOut(r, v, t, LinkAfter(t, found, v), wallet, x)
  {
    hide Settle, Reject, AppliedRecords, RejectedRecords, WaitingRecords, RefOk, Sound, TableVerdict, ValidateExternal;
    var row := db.wagers[id];
    var w, wallet := row.wager, db.wallets[row.wager.terms.walletId];
    PendingIsLive(db, id);
    LiveIsUnfinished(db, w);
    PendingIsUnresolved(db, id);
    if row.retry.value.expiresAt <= x.now {
      var why := ReferenceNotFound;
      RejectRecords(w, why, x);
    } else {
      ResolvedIsLive(db, w, found, x.now);
      ResolvedByTable(w, found, x.now, wallet.balance.cents, reversed);
      match ResolveOutcome(w, found, x.now).value
      case Refused(why) => RejectRecords(w, why, x);
      case Unavailable =>
      case Available(w') => SettledVerdict(db, w', reversed, x);
    }
  }

  lemma PendingIsUnresolved(db: Db, id: Uuid)
    requires RowsOk(db.wagers) && id in db.wagers && db.wagers[id].retry.Some?
    ensures var w := db.wagers[id].wager; w.referenceKind.None? && w.terms.amount.IsValid()
  {
    assert RowOk(id, db.wagers[id]);
  }

  predicate AmountAgrees(t: Terms, r: Terms) {
    t.kind.Refund? || t.kind.Rollback? ==> t.amount == r.amount
  }

  /** Exactly when a processed row is accepted as the reference, and what is wrong with it otherwise. */
  lemma ReferenceByTable(w: Wager, r: Wager)
    requires !Blank(w.terms.referenceExternalId) && r.status.Processed? && w.terms.referenceExternalId == r.terms.externalId
    ensures ValidateReference(w, Some(r)) ==
            if !SameContext(w.terms, r.terms) then Fail(WagerReferenceMismatch)
            else if !MayReference(w.terms.kind, r.terms.kind) then Fail(InvalidWagerReference)
            else if !AmountAgrees(w.terms, r.terms) then Fail(WagerReferenceMismatch)
            else Pass
  {
  }

  /** What the reference lookup leads to. */
  lemma ResolvedByTable(w: Wager, found: Option<Wager>, now: Time, balance: int, reversed: bool)
    requires !w.status.IsTerminal() && w.referenceId == NIL_UUID && w.terms.referenceExternalId != "" && Clean(w.terms)
    requires ZERO_TIME < now && w.updatedAt <= now && (found.Some? ==> ExternalKey(found.value.terms) == ReferenceKey(w.terms))
    ensures match ResolveOutcome(w, found, now)
            case Err(_) => false
            case Ok(Unavailable) => TableVerdict(w.terms, found, balance, reversed) == Waits
            case Ok(Refused(code)) => TableVerdict(w.terms, found, balance, reversed) == Turned(code)
            case Ok(Available(w')) =>
              && w'.terms == w.terms && found.Some? && w'.referenceKind == Some(found.value.terms.kind)
              && TableVerdict(w.terms, found, balance, reversed) ==
                 SettleVerdict(w.terms.kind, w'.referenceKind, w.terms.amount.cents, balance, reversed)
  {
    if found.Some? && found.value.status.Processed? {
      ReferenceByTable(w, found.value);
    }
  }
}
