/**
 The services as the source runs them: statement by statement on the tables, with mutable
 transaction and wallet objects, inside a database transaction that is rolled back on any
 error (internal/application/wager_service.go, wager_reference.go, wallet_service.go,
 internal/infrastructure/sqs/wager_handler.go and the PostgreSQL repositories). Each method is
 proved to compute exactly the function of the same name in module Engine.
 */
module Database {
  import opened Basics
  import opened Money
  import opened MoneyText
  import opened Wallets
  import opened WagerObject
  import W = Wagers
  import E = Engine
  import R = EngineRuns
  import Backoff

  /** The tables after an INSERT of the row under its unique keys. */
  function Inserted(db: E.Db, row: E.WagerRow): E.Db {
    var t := row.wager.terms;
    db.(wagers := db.wagers[t.id := row],
        byExternal := db.byExternal[E.ExternalKey(t) := t.id],
        byKey := db.byKey[E.IdempotencyKey(t) := t.id])
  }

  /** The tables after the UPDATEs and the remaining INSERTs of a use case. */
  function Written(db: E.Db, wr: E.Writes): E.Db {
    var t := wr.row.wager.terms;
    db.(wallets := if wr.wallet.Some? then db.wallets[t.walletId := wr.wallet.value] else db.wallets,
        wagers := db.wagers[t.id := wr.row],
        ledger := if wr.entry.Some? then db.ledger + [wr.entry.value] else db.ledger,
        outbox := db.outbox + wr.events)
  }

  /** A step did to the tables and answered what `spec` says; after an error the tables will be rolled back. */
  predicate Wrote(was: E.Db, spec: Result<E.Writes>, now: E.Db, err: Check) {
    match spec
    case Ok(wr) => err.Pass? && now == Written(was, wr)
    case Err(e) => err == Fail(e)
  }

  class Tables {
    var wallets: map<Uuid, Wallet>
    var wagers: map<Uuid, E.WagerRow>
    var byExternal: map<(string, string), Uuid>
    var byKey: map<(string, string), Uuid>
    var ledger: seq<Entry>
    var outbox: seq<E.Event>
    var inbox: map<string, E.InboxRow>

    function View(): E.Db
      reads this
    {
      E.Db(wallets, wagers, byExternal, byKey, ledger, outbox, inbox)
    }

    method Rollback(saved: E.Db)
      modifies this
      ensures View() == saved
    {
      wallets, wagers, byExternal, byKey := saved.wallets, saved.wagers, saved.byExternal, saved.byKey;
      ledger, outbox, inbox := saved.ledger, saved.outbox, saved.inbox;
    }

    // ----- repositories -----

    /** WagerRepository.Create: INSERT ... ON CONFLICT DO NOTHING, then the foreign key. */
    method CreateWager(w: WagerTransaction) returns (err: Check)
      modifies this
      ensures if E.InsertConflicts(old(View()), w.terms) then err == Fail(AlreadyExists) && View() == old(View())
              else if !E.WalletReferenced(old(View()), w.terms) then err == Fail(InvalidWalletReference) && View() == old(View())
              else err.Pass? && View() == Inserted(old(View()), E.WagerRow(w.View(), None))
    {
      if w.terms.id in wagers || E.ExternalKey(w.terms) in byExternal || E.IdempotencyKey(w.terms) in byKey {
        return Fail(AlreadyExists);
      }
      if w.terms.walletId !in wallets || wallets[w.terms.walletId].balance.currency != w.terms.amount.currency {
        return Fail(InvalidWalletReference);
      }
      wagers := wagers[w.terms.id := E.WagerRow(w.View(), None)];
      byExternal := byExternal[E.ExternalKey(w.terms) := w.terms.id];
      byKey := byKey[E.IdempotencyKey(w.terms) := w.terms.id];
      return Pass;
    }

    /** WagerRepository.Update clears the retry columns. */
    method UpdateWager(w: WagerTransaction) returns (err: Check)
      modifies this`wagers
      ensures if w.terms.id in old(wagers) then err.Pass? && wagers == old(wagers)[w.terms.id := E.WagerRow(w.View(), None)]
              else err == Fail(NotFound) && wagers == old(wagers)
    {
      if w.terms.id !in wagers { return Fail(NotFound); }
      wagers := wagers[w.terms.id := E.WagerRow(w.View(), None)];
      return Pass;
    }

    /** WagerRepository.UpdatePendingReference */
    method UpdatePendingReference(w: WagerTransaction, retry: E.Retry) returns (err: Check)
      modifies this`wagers
      ensures if w.terms.id in old(wagers) then err.Pass? && wagers == old(wagers)[w.terms.id := E.WagerRow(w.View(), Some(retry))]
              else err == Fail(NotFound) && wagers == old(wagers)
    {
      if w.terms.id !in wagers { return Fail(NotFound); }
      wagers := wagers[w.terms.id := E.WagerRow(w.View(), Some(retry))];
      return Pass;
    }

    /** WalletRepository.Update: compare-and-set on the version. */
    method UpdateWallet(wallet: WalletObject) returns (err: Check)
      modifies this`wallets
      ensures if wallet.id in old(wallets) && old(wallets)[wallet.id].version == wallet.version - 1
              then err.Pass? && wallets == old(wallets)[wallet.id := wallet.View()]
              else err == Fail(ConcurrentUpdate) && wallets == old(wallets)
    {
      if wallet.id !in wallets || wallets[wallet.id].version != wallet.version - 1 { return Fail(ConcurrentUpdate); }
      wallets := wallets[wallet.id := wallet.View()];
      return Pass;
    }

    method CreateEntry(e: Entry)
      modifies this`ledger
      ensures ledger == old(ledger) + [e]
    {
      ledger := ledger + [e];
    }

    method CreateEvent(e: E.Event)
      modifies this`outbox
      ensures outbox == old(outbox) + [e]
    {
      outbox := outbox + [e];
    }

    // ----- WagerService -----

    method Reject(w: WagerTransaction, code: W.FailureCode, x: E.Context) returns (err: Check)
      requires w.terms.id in wagers
      modifies this, w
      ensures Wrote(old(View()), E.Reject(old(w.View()), code, x), View(), err)
      ensures err.Pass? ==> E.Reject(old(w.View()), code, x).value.row.wager == w.View()
    {
      err := w.CompleteWithFailure(W.Rejected, code, W.Explains(code), x.now);
      if err.Fail? { return; }
      err := UpdateWager(w);
      var data := E.RejectedData(E.SubjectOf(w.terms), w.failureCode, w.failureMessage);
      CreateEvent(E.Event(x.ids.event1, x.metadata, x.now, data));
    }

    /** markPendingReference */
    method Park(w: WagerTransaction, x: E.Context) returns (err: Check)
      requires w.terms.id in wagers
      modifies this, w
      ensures Wrote(old(View()), E.Park(old(w.View()), x), View(), err)
      ensures err.Pass? ==> E.Park(old(w.View()), x).value.row.wager == w.View()
    {
      err := w.MarkPendingReference(x.now);
      if err.Fail? { return; }
      var expiresAt := x.now + x.policy.ttl;
      var delay := Backoff.ReferenceDelay(x.policy.initialDelay, x.policy.maxDelay, 1);
      var next := if x.now + delay > expiresAt then expiresAt else x.now + delay;
      err := UpdatePendingReference(w, E.Retry(0, next, expiresAt, x.metadata));
      var data := E.PendingReferenceData(E.SubjectOf(w.terms), w.terms.referenceExternalId);
      CreateEvent(E.Event(x.ids.event1, x.metadata, x.now, data));
    }

    /** The half of applyMovement for a LOSS. */
    method MarkWithoutMovement(w: WagerTransaction, wallet: WalletObject, x: E.Context) returns (err: Check)
      requires w.terms.id in wagers && W.MovementDirection(w.View()) == Ok(None)
      modifies this, w
      ensures Wrote(old(View()), E.ApplyMovement(old(w.View()), wallet.View(), x), View(), err)
      ensures err.Pass? ==> E.ApplyMovement(old(w.View()), wallet.View(), x).value.row.wager == w.View()
    {
      err := w.MarkProcessed(wallet.balance, wallet.balance, x.now);
      if err.Fail? { return; }
      err := UpdateWager(w);
      var data := E.ProcessedEventData(w.View());
      if data.Err? { return Fail(data.error); }
      CreateEvent(E.Event(x.ids.event1, x.metadata, x.now, data.value));
    }

    /** Debit or credit the locked wallet. */
    method Move(wallet: WalletObject, direction: W.Direction, amount: Money, now: Time) returns (err: Check)
      modifies wallet
      ensures match Wallets.Move(old(wallet.View()), direction, amount, now)
              case Ok(moved) => err.Pass? && wallet.View() == moved
              case Err(e) => err == Fail(e) && wallet.View() == old(wallet.View())
    {
      match direction
      case Debit => err := wallet.Debit(amount, now);
      case Credit => err := wallet.Credit(amount, now);
    }

    /** The records of a movement that has already been applied to the wallet object. */
    method Record(w: WagerTransaction, wallet: WalletObject, direction: W.Direction, before: Money, x: E.Context) returns (err: Check)
      requires w.terms.id in wagers && wallet.id in wallets && wallets[wallet.id].version == wallet.version - 1
      requires w.terms.walletId == wallet.id
      modifies this, w
      ensures Wrote(old(View()), Recorded(old(w.View()), wallet.View(), direction, before, x), View(), err)
      ensures err.Pass? ==> Recorded(old(w.View()), wallet.View(), direction, before, x).value.row.wager == w.View()
    {
      hide E.BalanceChangedEventData, E.ProcessedEventData, BuildEntry;
      err := w.MarkProcessed(before, wallet.balance, x.now);
      if err.Fail? { return; }
      err := UpdateWallet(wallet);
      err := UpdateWager(w);
      var entry := BuildEntry(x.ids.entry, wallet.id, w.terms.id, direction, w.terms.amount, before, wallet.balance, x.now);
      if entry.Err? { return Fail(entry.error); }
      CreateEntry(entry.value);
      var data := E.ProcessedEventData(w.View());
      if data.Err? { return Fail(data.error); }
      CreateEvent(E.Event(x.ids.event1, x.metadata, x.now, data.value));
      CreateEvent(E.Event(x.ids.event2, x.metadata, x.now, E.BalanceChangedEventData(wallet.View(), entry.value)));
    }

    /** The wallet object is the locked row of the transaction's wallet. */
    ghost predicate Holds(w: WagerTransaction, wallet: WalletObject)
      reads this, wallet
    {
      w.terms.id in wagers && wallet.id in wallets && wallets[wallet.id] == wallet.View() && w.terms.walletId == wallet.id
    }

    method ApplyMovement(w: WagerTransaction, wallet: WalletObject, x: E.Context) returns (err: Check)
      requires Holds(w, wallet)
      modifies this, w, wallet
      ensures Wrote(old(View()), E.ApplyMovement(old(w.View()), old(wallet.View()), x), View(), err)
      ensures err.Pass? ==> E.ApplyMovement(old(w.View()), old(wallet.View()), x).value.row.wager == w.View()
    {
      var direction := W.MovementDirection(w.View());
      if direction.Err? { return Fail(direction.error); }
      if direction.value.None? {
        err := MarkWithoutMovement(w, wallet, x);
        return;
      }
      var before := wallet.balance;
      ghost var was := wallet.View();
      err := Move(wallet, direction.value.value, w.terms.amount, x.now);
      if err == Fail(InsufficientFunds) {
        err := Reject(w, E.InsufficientFundsRejection(w.View()), x);
        return;
      }
      if err.Fail? { return; }
      MovedVersion(was, direction.value.value, w.terms.amount, x.now);
      ApplyMovementRecords(w.View(), was, x);
      err := Record(w, wallet, direction.value.value, before, x);
    }

    method Settle(w: WagerTransaction, wallet: WalletObject, x: E.Context) returns (err: Check)
      requires Holds(w, wallet)
      modifies this, w, wallet
      ensures var spec := E.Settle(old(w.View()), old(wallet.View()), E.HasReversal(old(View()), old(w.referenceId)), x);
              Wrote(old(View()), spec, View(), err) && (err.Pass? ==> spec.value.row.wager == w.View())
    {
      if w.terms.kind.RequiresReference() {
        var duplicate := E.HasReversal(View(), w.referenceId);
        if duplicate {
          err := Reject(w, W.DuplicateReversal, x);
          return;
        }
      }
      err := ApplyMovement(w, wallet, x);
    }

    /** resolveReference changes the transaction object only when the reference is available. */
    method ResolveReference(w: WagerTransaction, now: Time) returns (r: Result<E.Outcome>)
      modifies w
      ensures r == E.ResolveOutcome(old(w.View()), E.FindByExternal(View(), E.ReferenceKey(w.terms)), now)
      ensures w.View() == if r.Ok? && r.value.Available? then r.value.wager else old(w.View())
    {
      var found := E.FindByExternal(View(), E.ReferenceKey(w.terms));
      if found.None? { return Ok(E.Unavailable); }
      var refused := E.Refused(W.ReferenceNotProcessable);
      match found.value.status
      case Pending => return Ok(E.Unavailable);
      case PendingReference => return Ok(E.Unavailable);
      case Rejected => return Ok(refused);
      case Failed => return Ok(refused);
      case Processed =>
        var reference := new WagerTransaction(found.value);
        var err := w.ResolveReference(reference, now);
        if err.Pass? { return Ok(E.Available(w.View())); }
        if err.error.WagerReferenceMismatch? {
          return Ok(E.Refused(W.ReferenceMismatch));
        }
        if err.error.InvalidWagerReference? {
          return Ok(E.Refused(W.ReferenceTypeNotAllowed));
        }
        return Err(err.error);
    }

    method ProcessNew(w: WagerTransaction, wallet: WalletObject, x: E.Context) returns (err: Check)
      requires Holds(w, wallet)
      modifies this, w, wallet
      ensures var spec := NewSpec(old(View()), old(w.View()), old(wallet.View()), x);
              Wrote(old(View()), spec, View(), err) && (err.Pass? ==> spec.value.row.wager == w.View())
    {
      if w.terms.referenceExternalId != "" {
        var outcome := ResolveReference(w, x.now);
        if outcome.Err? { return Fail(outcome.error); }
        match outcome.value {
          case Refused(rejection) =>
            err := Reject(w, rejection, x);
            return;
          case Unavailable =>
            err := Park(w, x);
            return;
          case Available(resolved) =>
        }
      }
      err := Settle(w, wallet, x);
    }

    /** lockWallet */
    method LockWallet(w: WagerTransaction) returns (r: Result<WalletObject>)
      ensures if w.terms.walletId !in wallets then r == Err(WalletNotFound)
              else if wallets[w.terms.walletId].playerId != w.terms.playerId then r == Err(WalletMismatch)
              else if wallets[w.terms.walletId].balance.currency != w.terms.amount.currency then r == Err(CurrencyMismatch)
              else r.Ok? && fresh(r.value) && r.value.View() == wallets[w.terms.walletId]
    {
      if w.terms.walletId !in wallets { return Err(WalletNotFound); }
      var wallet := new WalletObject(wallets[w.terms.walletId]);
      if wallet.playerId != w.terms.playerId { return Err(WalletMismatch); }
      if wallet.balance.currency != w.terms.amount.currency { return Err(CurrencyMismatch); }
      return Ok(wallet);
    }

    /** The part of Process after its row is inserted. */
    method ProcessInserted(w: WagerTransaction, x: E.Context) returns (err: Check)
      requires w.terms.id in wagers && TablesOk(View())
      modifies this, w
      ensures var spec := LockedSpec(old(View()), old(w.View()), x);
              Wrote(old(View()), spec, View(), err) && (err.Pass? ==> spec.value.row.wager == w.View())
    {
      var locked := LockWallet(w);
      if locked.Err? { return Fail(locked.error); }
      err := ProcessNew(w, locked.value, x);
    }

    /** The rest of the transaction once the row is inserted into the tables `saved`. */
    method SettleInserted(saved: E.Db, w: WagerTransaction, x: E.Context) returns (r: Result<E.Reply>)
      requires TablesOk(saved) && !E.InsertConflicts(saved, w.terms) && View() == Inserted(saved, E.WagerRow(w.View(), None))
      requires w.status.Pending? && w.terms.externalId != w.terms.referenceExternalId
      modifies this, w
      ensures TablesOk(View())
      ensures Answered(saved, LockedDone(saved, old(w.View()), x), View(), r)
    {
      ghost var pending := w.View();
      InsertedSpec(saved, pending, x);
      InsertedTables(saved, pending);
      var err := ProcessInserted(w, x);
      if err.Fail? {
        Rollback(saved);
        return Err(err.error);
      }
      WrittenIsCommit(saved, pending, LockedSpec(saved, pending, x).value);
      LockedKeepsTables(saved, pending, x);
      return Ok(E.Reply(w.View(), false));
    }

    /** The transaction of Process, for the transaction object built from the request. */
    method ProcessRequest(request: E.Request, w: WagerTransaction, x: E.Context) returns (r: Result<E.Reply>)
      requires TablesOk(View()) && w.status.Pending? && w.terms.externalId != w.terms.referenceExternalId
      modifies this, w
      ensures TablesOk(View())
      ensures Answered(old(View()), RequestSpec(old(View()), request, old(w.View()), x), View(), r)
    {
      var saved := View();
      RequestUnfolds(saved, request, w.View(), x);
      var err := CreateWager(w);
      if err == Fail(AlreadyExists) {
        return E.ResolveExisting(View(), request);
      }
      if err.Fail? { return Err(err.error); }
      r := SettleInserted(saved, w, x);
    }

    /**
     Process: the answer and the tables are those of Engine.Process, and an error leaves the
     tables as they were.
     */
    method Process(c: E.Command, id: Uuid, createdAt: Time, x: E.Context) returns (r: Result<E.Reply>)
      requires TablesOk(View())
      modifies this
      ensures TablesOk(View())
      ensures Answered(old(View()), Answer(old(View()), c, id, createdAt, x), View(), r)
    {
      var prepared := E.Prepare(c, id, createdAt, x.metadata);
      if prepared.Err? { return Err(prepared.error); }
      var w := new WagerTransaction(prepared.value.1);
      R.PreparedTerms(c, id, createdAt, x.metadata);
      r := ProcessRequest(prepared.value.0, w, x);
    }

    // ----- retries -----

    /** FindDuePendingReferenceForUpdate: the first due row by next attempt and creation. */
    method FindDue(now: Time) returns (id: Option<Uuid>)
      ensures if id.None? then NoneDue(wagers, now) else FirstDue(wagers, id.value, now)
    {
      id := None;
      var todo := wagers.Keys;
      while todo != {}
        invariant todo <= wagers.Keys
        invariant id.None? ==> forall i :: i in wagers && i !in todo ==> !Due(wagers[i], now)
        invariant id.Some? ==> id.value in wagers && Due(wagers[id.value], now)
        invariant id.Some? ==>
                    forall i :: i in wagers && i !in todo && Due(wagers[i], now) ==> NotAfter(wagers[id.value], wagers[i])
        decreases |todo|
      {
        var i :| i in todo;
        if Due(wagers[i], now) && (id.None? || !NotAfter(wagers[id.value], wagers[i])) {
          id := Some(i);
        }
        todo := todo - {i};
      }
    }

    /** SchedulePendingReferenceRetry */
    method ScheduleRetry(id: Uuid, count: int, next: Time, later: Time)
      requires id in wagers && wagers[id].retry.Some?
      modifies this`wagers
      ensures var row := old(wagers)[id];
              wagers == old(wagers)[id := E.WagerRow(row.wager.(updatedAt := later),
                                                     Some(row.retry.value.(count := count, nextAttemptAt := next)))]
    {
      var row := wagers[id];
      wagers := wagers[id := E.WagerRow(row.wager.(updatedAt := later), Some(row.retry.value.(count := count, nextAttemptAt := next)))];
    }

    /** The next attempt after one that did not find the reference. */
    method Reschedule(id: Uuid, retry: E.Retry, later: Time, x: E.Context)
      requires id in wagers && wagers[id].retry == Some(retry)
      modifies this`wagers
      ensures var count := retry.count + 1;
              var next := E.NextAttemptAt(x.policy, x.now, retry.expiresAt, count + 1);
              wagers == old(wagers)[id := E.WagerRow(old(wagers)[id].wager.(updatedAt := later),
                                                     Some(retry.(count := count, nextAttemptAt := next)))]
    {
      var count := retry.count + 1;
      var delay := Backoff.ReferenceDelay(x.policy.initialDelay, x.policy.maxDelay, count + 1);
      var next := if x.now + delay > retry.expiresAt then retry.expiresAt else x.now + delay;
      ScheduleRetry(id, count, next, later);
    }

    /** retryPendingReference after the wallet is locked. */
    method RetryLocked(w: WagerTransaction, wallet: WalletObject, later: Time, x: E.Context) returns (err: Check)
      requires Holds(w, wallet) && wagers[w.terms.id].retry.Some? && wagers[w.terms.id].wager == w.View()
      modifies this, w, wallet
      ensures Wrote(old(View()), DueSpec(old(View()), old(wagers)[w.terms.id], old(wallet.View()), later, x), View(), err)
    {
      var retry := wagers[w.terms.id].retry.value;
      if x.now >= retry.expiresAt {
        err := Reject(w, W.ReferenceNotFound, x);
        return;
      }
      var outcome := ResolveReference(w, x.now);
      if outcome.Err? { return Fail(outcome.error); }
      match outcome.value
      case Refused(rejection) => err := Reject(w, rejection, x);
      case Unavailable =>
        Reschedule(w.terms.id, retry, later, x);
        err := Pass;
      case Available(resolved) => err := Settle(w, wallet, x);
    }

    /** retryPendingReference in its transaction: all of Engine.RetryOne, or nothing. */
    method RetryPendingReference(id: Uuid, later: Time, x: E.Context) returns (err: Check)
      requires TablesOk(View()) && id in wagers && wagers[id].retry.Some?
      modifies this
      ensures match Retried(old(View()), id, later, x)
              case Ok(d) => err.Pass? && View() == d
              case Err(e) => err == Fail(e) && View() == old(View())
    {
      var saved := View();
      var row := wagers[id];
      var w := new WagerTransaction(row.wager);
      var locked := LockWallet(w);
      if locked.Err? { return Fail(locked.error); }
      ghost var wallet := locked.value.View();
      var y := x.(metadata := row.retry.value.metadata);
      err := RetryLocked(w, locked.value, later, y);
      if err.Fail? {
        Rollback(saved);
      } else {
        RetryWritesCommit(saved, id, wallet, later, y);
      }
    }

    /** failPendingReference */
    method FailPendingReference(id: Uuid, now: Time) returns (err: Check)
      requires TablesOk(View())
      modifies this
      ensures if id in old(wagers) && old(wagers)[id].retry.Some? then
                match E.FailOne(old(View()), id, now)
                case Ok(d) => err.Pass? && View() == d
                case Err(e) => err == Fail(e) && View() == old(View())
              else err.Pass? && View() == old(View())
    {
      if id !in wagers || wagers[id].retry.None? { return Pass; }
      var w := new WagerTransaction(wagers[id].wager);
      err := w.CompleteWithFailure(W.Failed, W.ProcessingFailed, W.Explains(W.ProcessingFailed), now);
      if err.Fail? { return; }
      err := UpdateWager(w);
    }

    /**
     RetryNextPendingReference: a retry that fails for good is finished as FAILED in a second
     transaction. `outage` is a failure of the database during the retry, and `stopping` a
     cancelled context; after either the row stays pending.
     */
    method RetryNext(now: Time, later: Time, x: E.Context, failedAt: Time, outage: bool, stopping: bool)
      returns (claimed: Option<Uuid>, err: Check)
      requires TablesOk(View())
      modifies this
      ensures claimed.None? ==> View() == old(View()) && NoneDue(wagers, now)
      ensures claimed.Some? ==> FirstDue(old(wagers), claimed.value, now)
      ensures claimed.Some? ==>
                var db, id := old(View()), claimed.value;
                var attempt := Attempt(db, id, later, x, outage);
                err == (if attempt.Ok? then Pass else Fail(attempt.error)) && View() == AfterRetry(db, id, attempt, failedAt, stopping)
    {
      claimed := FindDue(now);
      if claimed.None? { return None, Pass; }
      if outage { return claimed, Fail(DependencyUnavailable); }
      err := RetryPendingReference(claimed.value, later, x);
      if err.Fail? && !stopping && !IsTransient(err.error) {
        var _ := FailPendingReference(claimed.value, failedAt);
      }
    }

    // ----- inbox -----

    /** InboxRepository.Register: whether the message was already completed. */
    method RegisterMessage(m: E.Message) returns (r: Result<bool>)
      modifies this`inbox
      ensures r == E.Register(old(View()), m)
      ensures inbox == if m.id in old(inbox) then old(inbox) else old(inbox)[m.id := E.InboxRow(m.hash, None)]
    {
      if m.id !in inbox {
        inbox := inbox[m.id := E.InboxRow(m.hash, None)];
        return Ok(false);
      }
      if inbox[m.id].hash != m.hash { return Err(InboxMessageConflict); }
      return Ok(inbox[m.id].completedAt.Some?);
    }

    /** InboxRepository.Complete: only a row that is not completed yet. */
    method CompleteMessage(m: E.Message, at: Time) returns (err: Check)
      modifies this`inbox
      ensures if m.id in old(inbox) && old(inbox)[m.id].completedAt.None?
              then err.Pass? && inbox == old(inbox)[m.id := old(inbox)[m.id].(completedAt := Some(at))]
              else err == Fail(InboxMessageNotFound) && inbox == old(inbox)
    {
      if m.id !in inbox || inbox[m.id].completedAt.Some? { return Fail(InboxMessageNotFound); }
      inbox := inbox[m.id := inbox[m.id].(completedAt := Some(at))];
      return Pass;
    }

    /** Process and completion of a registered message. */
    method ProcessMessage(m: E.Message, id: Uuid, createdAt: Time, x: E.Context, at: Time) returns (err: Check)
      requires TablesOk(View()) && m.id in inbox && inbox[m.id] == E.InboxRow(m.hash, None)
      modifies this
      ensures Finished(E.Finish(m, Answer(old(View()), m.command, id, createdAt, x), at), View(), err)
    {
      ghost var answer := Answer(View(), m.command, id, createdAt, x);
      AnswerKeepsInbox(View(), m.command, id, createdAt, x);
      var reply := Process(m.command, id, createdAt, x);
      if reply.Err? { return Fail(reply.error); }
      err := CompleteMessage(m, at);
    }

    /** WagerMessageHandler.Handle: inbox row, Process and completion in one transaction. */
    method HandleMessage(m: E.Message, id: Uuid, createdAt: Time, x: E.Context, at: Time) returns (err: Check)
      requires TablesOk(View())
      modifies this
      ensures Finished(Handled(old(View()), m, id, createdAt, x, at), View(), err) && (err.Fail? ==> View() == old(View()))
    {
      hide E.Process;
      var saved := View();
      var completed := RegisterMessage(m);
      if completed.Err? { return Fail(completed.error); }
      if completed.value { return Pass; }
      var y := x.(metadata := E.Metadata(m.id, m.id));
      RegisteredSpec(saved, m, id, createdAt, y, at, Answer(saved, m.command, id, createdAt, y));
      err := ProcessMessage(m, id, createdAt, y, at);
      if err.Fail? {
        Rollback(saved);
      }
    }

    // ----- WalletService -----

    /** createOpening and createOpeningEvents */
    method CreateOpening(wallet: Wallet, openingId: Uuid, x: E.Context) returns (err: Check)
      modifies this
      ensures match E.CreateOpening(old(View()), wallet, openingId, x)
              case Ok(d) => err.Pass? && View() == d
              case Err(e) => err == Fail(e)
    {
      var opening := W.NewOpening(openingId, wallet.id, wallet.playerId, wallet.balance, x.now);
      if opening.Err? { return Fail(opening.error); }
      if openingId in wagers { return Fail(AlreadyExists); }
      wagers := wagers[openingId := E.WagerRow(opening.value, None)];
      var zero := Zero(wallet.balance.currency);
      if zero.Err? { return Fail(zero.error); }
      var entry := BuildEntry(x.ids.entry, wallet.id, openingId, W.Credit, wallet.balance, zero.value, wallet.balance, x.now);
      if entry.Err? { return Fail(entry.error); }
      CreateEntry(entry.value);
      var data := E.ProcessedEventData(opening.value);
      if data.Err? { return Fail(data.error); }
      CreateEvent(E.Event(x.ids.event1, x.metadata, x.now, data.value));
      CreateEvent(E.Event(x.ids.event2, x.metadata, x.now, E.BalanceChangedEventData(wallet, entry.value)));
      return Pass;
    }

    /** Create: the wallet with its opening records, or nothing. */
    method CreateWallet(c: E.OpenWallet, walletId: Uuid, openingId: Uuid, x: E.Context) returns (err: Check)
      modifies this
      ensures match E.CreateWallet(old(View()), c, walletId, openingId, x)
              case Ok(d) => err.Pass? && View() == d
              case Err(e) => err == Fail(e) && View() == old(View())
    {
      if Blank(x.metadata.correlationId) { return Fail(InvalidCorrelationId); }
      if c.playerId == NIL_UUID { return Fail(InvalidPlayerId); }
      if !ValidCurrency(c.currency) { return Fail(InvalidCurrency); }
      var initial := ParseMoney(c.initialBalance, c.currency);
      if initial.Err? { return Fail(initial.error); }
      var saved := View();
      var wallet := NewWallet(walletId, c.playerId, initial.value, x.now);
      if wallet.Err? { return Fail(wallet.error); }
      if walletId in wallets || E.WalletTaken(View(), c.playerId, c.currency) { return Fail(WalletAlreadyExists); }
      wallets := wallets[walletId := wallet.value];
      if initial.value.IsZero() { return Pass; }
      err := CreateOpening(wallet.value, openingId, x);
      if err.Fail? { Rollback(saved); }
    }
  }

  /** What a movement writes once the wallet has moved from `before` to its present balance. */
  function Recorded(w: W.Wager, wallet: Wallet, direction: W.Direction, before: Money, x: E.Context): Result<E.Writes> {
    var w' :- W.MarkProcessed(w, before, wallet.balance, x.now);
    var entry :- BuildEntry(x.ids.entry, wallet.id, w.terms.id, direction, w.terms.amount, before, wallet.balance, x.now);
    var data :- E.ProcessedEventData(w');
    Ok(E.Writes(E.WagerRow(w', None), Some(wallet), Some(entry),
                [E.Event(x.ids.event1, x.metadata, x.now, data),
                 E.Event(x.ids.event2, x.metadata, x.now, E.BalanceChangedEventData(wallet, entry))]))
  }

  lemma MovedVersion(wallet: Wallet, direction: W.Direction, amount: Money, now: Time)
    requires Wallets.Move(wallet, direction, amount, now).Ok?
    ensures var moved := Wallets.Move(wallet, direction, amount, now).value;
            moved.version == wallet.version + 1 && moved.id == wallet.id
  {
  }

  lemma ApplyMovementRecords(w: W.Wager, wallet: Wallet, x: E.Context)
    requires W.MovementDirection(w).Ok? && W.MovementDirection(w).value.Some?
    requires Wallets.Move(wallet, W.MovementDirection(w).value.value, w.terms.amount, x.now).Ok?
    ensures var d := W.MovementDirection(w).value.value;
            E.ApplyMovement(w, wallet, x) ==
            Recorded(w, Wallets.Move(wallet, d, w.terms.amount, x.now).value, d, wallet.balance, x)
  {
  }

  /** processNew on the tables it reads. */
  function NewSpec(db: E.Db, w: W.Wager, wallet: Wallet, x: E.Context): Result<E.Writes> {
    var found := E.FindByExternal(db, E.ReferenceKey(w.terms));
    E.ProcessNew(w, wallet, found, E.HasReversal(db, E.ReferenceOf(w, found)), x)
  }

  /** Wallet and wager rows carry their own keys, and the indexes point to rows. */
  predicate TablesOk(db: E.Db) {
    && (forall w :: w in db.wallets ==> db.wallets[w].id == w)
    && (forall w :: w in db.wagers ==> db.wagers[w].wager.terms.id == w)
    && (forall k :: k in db.byExternal ==> db.byExternal[k] in db.wagers)
    && (forall k :: k in db.byKey ==> db.byKey[k] in db.wagers)
    && (forall w :: w in db.wagers && db.wagers[w].retry.Some? ==> Indexed(db, db.wagers[w].wager.terms))
  }

  predicate Indexed(db: E.Db, t: W.Terms) {
    && E.ExternalKey(t) in db.byExternal && db.byExternal[E.ExternalKey(t)] == t.id
    && E.IdempotencyKey(t) in db.byKey && db.byKey[E.IdempotencyKey(t)] == t.id
  }

  predicate Due(row: E.WagerRow, now: Time) {
    row.retry.Some? && row.retry.value.nextAttemptAt <= now
  }

  /** ORDER BY next_reference_attempt_at, created_at */
  predicate NotAfter(a: E.WagerRow, b: E.WagerRow)
    requires a.retry.Some? && b.retry.Some?
  {
    || a.retry.value.nextAttemptAt < b.retry.value.nextAttemptAt
    || (a.retry.value.nextAttemptAt == b.retry.value.nextAttemptAt && a.wager.terms.createdAt <= b.wager.terms.createdAt)
  }

  /** Every waiting row has its next attempt still ahead. */
  predicate NoneDue(wagers: map<Uuid, E.WagerRow>, now: Time) {
    forall i :: i in wagers && wagers[i].retry.Some? ==> now < wagers[i].retry.value.nextAttemptAt
  }

  /** The row is due, and no row that is due has an earlier attempt, or the same and an earlier creation. */
  predicate FirstDue(wagers: map<Uuid, E.WagerRow>, id: Uuid, now: Time) {
    && id in wagers && wagers[id].retry.Some? && wagers[id].retry.value.nextAttemptAt <= now
    && forall i :: i in wagers && wagers[i].retry.Some? ==>
         var first, other := wagers[id], wagers[i];
         || first.retry.value.nextAttemptAt < other.retry.value.nextAttemptAt
         || (first.retry.value.nextAttemptAt == other.retry.value.nextAttemptAt
             && first.wager.terms.createdAt <= other.wager.terms.createdAt)
  }

  /** retryPendingReference on the tables it reads. */
  function DueSpec(db: E.Db, row: E.WagerRow, wallet: Wallet, later: Time, x: E.Context): Result<E.Writes>
    requires row.retry.Some?
  {
    var found := E.FindByExternal(db, E.ReferenceKey(row.wager.terms));
    E.RetryPending(row, wallet, found, E.HasReversal(db, E.ReferenceOf(row.wager, found)), later, x)
  }

  /** lockWallet and processNew on the tables they read. */
  function LockedSpec(db: E.Db, w: W.Wager, x: E.Context): Result<E.Writes> {
    var wallet :- E.LockWallet(db, w);
    NewSpec(db, w, wallet, x)
  }

  /** The pending row a transaction inserted is neither its own reference nor a reversal. */
  lemma InsertedReads(db: E.Db, w: W.Wager)
    requires TablesOk(db) && w.terms.id !in db.wagers && !w.status.Processed? && w.terms.externalId != w.terms.referenceExternalId
    ensures var d := Inserted(db, E.WagerRow(w, None));
            && E.FindByExternal(d, E.ReferenceKey(w.terms)) == E.FindByExternal(db, E.ReferenceKey(w.terms))
            && forall r :: E.HasReversal(d, r) == E.HasReversal(db, r)
  {
    var d := Inserted(db, E.WagerRow(w, None));
    forall r
      ensures E.HasReversal(d, r) == E.HasReversal(db, r)
    {
      if E.HasReversal(db, r) {
        var i :| i in db.wagers && E.IsReversal(db.wagers[i].wager) && db.wagers[i].wager.referenceId == r;
        assert d.wagers[i] == db.wagers[i];
      }
    }
  }

  /** So what it decides is what it would decide on the tables before the insert. */
  lemma InsertedSpec(db: E.Db, w: W.Wager, x: E.Context)
    requires TablesOk(db) && w.terms.id !in db.wagers && !w.status.Processed? && w.terms.externalId != w.terms.referenceExternalId
    ensures LockedSpec(Inserted(db, E.WagerRow(w, None)), w, x) == LockedSpec(db, w, x)
  {
    InsertedReads(db, w);
  }

  lemma WrittenIsCommit(db: E.Db, w: W.Wager, wr: E.Writes)
    requires wr.row.wager.terms == w.terms
    ensures Written(Inserted(db, E.WagerRow(w, None)), wr) == E.Commit(db, wr)
  {
  }

  function RequestSpec(db: E.Db, r: E.Request, w: W.Wager, x: E.Context): Result<E.Done> {
    E.ProcessRequest(db, r, w, E.FindByExternal(db, E.ReferenceKey(w.terms)), x)
  }

  function LockedDone(db: E.Db, w: W.Wager, x: E.Context): Result<E.Done> {
    var wr :- LockedSpec(db, w, x);
    Ok(E.Done(E.Commit(db, wr), E.Reply(wr.row.wager, false)))
  }

  lemma RequestUnfolds(db: E.Db, r: E.Request, w: W.Wager, x: E.Context)
    ensures RequestSpec(db, r, w, x) ==
            if E.InsertConflicts(db, w.terms) then
              (match E.ResolveExisting(db, r) case Ok(reply) => Ok(E.Done(db, reply)) case Err(e) => Err(e))
            else if !E.WalletReferenced(db, w.terms) then Err(InvalidWalletReference)
            else LockedDone(db, w, x)
  {
  }

  lemma SettledWallet(w: W.Wager, wallet: Wallet, reversed: bool, x: E.Context)
    requires E.Settle(w, wallet, reversed, x).Ok?
    ensures var wr := E.Settle(w, wallet, reversed, x).value;
            wr.row.wager.terms == w.terms && (wr.wallet.Some? ==> wr.wallet.value.id == wallet.id)
  {
  }

  lemma NewWallets(w: W.Wager, wallet: Wallet, found: Option<W.Wager>, reversed: bool, x: E.Context)
    requires E.ProcessNew(w, wallet, found, reversed, x).Ok?
    ensures var wr := E.ProcessNew(w, wallet, found, reversed, x).value;
            wr.row.wager.terms == w.terms && (wr.wallet.Some? ==> wr.wallet.value.id == wallet.id)
  {
    if w.terms.referenceExternalId == "" {
      SettledWallet(w, wallet, reversed, x);
    } else {
      match E.ResolveOutcome(w, found, x.now).value
      case Available(w') => SettledWallet(w', wallet, reversed, x);
      case _ =>
    }
  }

  lemma CommitKeepsTables(db: E.Db, wr: E.Writes)
    requires TablesOk(db) && (wr.wallet.Some? ==> wr.wallet.value.id == wr.row.wager.terms.walletId)
    requires !E.InsertConflicts(db, wr.row.wager.terms)
    ensures TablesOk(E.Commit(db, wr))
  {
    var d, t := E.Commit(db, wr), wr.row.wager.terms;
    forall w | w in d.wagers && d.wagers[w].retry.Some?
      ensures Indexed(d, d.wagers[w].wager.terms)
    {
      if w != t.id {
        IndexedStays(db, wr, db.wagers[w].wager.terms);
      }
    }
  }

  lemma IndexedStays(db: E.Db, wr: E.Writes, t: W.Terms)
    requires Indexed(db, t) && !E.InsertConflicts(db, wr.row.wager.terms)
    ensures Indexed(E.Commit(db, wr), t)
  {
  }

  lemma InsertedTables(db: E.Db, w: W.Wager)
    requires TablesOk(db) && !E.InsertConflicts(db, w.terms)
    ensures TablesOk(Inserted(db, E.WagerRow(w, None)))
  {
    CommitKeepsTables(db, E.Writes(E.WagerRow(w, None), None, None, []));
    assert db.outbox + [] == db.outbox;
  }

  lemma LockedKeepsTables(db: E.Db, w: W.Wager, x: E.Context)
    requires TablesOk(db) && LockedSpec(db, w, x).Ok? && !E.InsertConflicts(db, w.terms)
    ensures TablesOk(E.Commit(db, LockedSpec(db, w, x).value))
  {
    var wallet := E.LockWallet(db, w).value;
    var found := E.FindByExternal(db, E.ReferenceKey(w.terms));
    NewWallets(w, wallet, found, E.HasReversal(db, E.ReferenceOf(w, found)), x);
    CommitKeepsTables(db, LockedSpec(db, w, x).value);
  }

  lemma RetryTerms(row: E.WagerRow, wallet: Wallet, found: Option<W.Wager>, reversed: bool, later: Time, x: E.Context)
    requires row.retry.Some? && E.RetryPending(row, wallet, found, reversed, later, x).Ok?
    ensures E.RetryPending(row, wallet, found, reversed, later, x).value.row.wager.terms == row.wager.terms
  {
    if x.now < row.retry.value.expiresAt {
      match E.ResolveOutcome(row.wager, found, x.now).value
      case Available(w') => SettledWallet(w', wallet, reversed, x);
      case _ =>
    }
  }

  lemma IndexedCommit(db: E.Db, wr: E.Writes)
    requires Indexed(db, wr.row.wager.terms)
    ensures Written(db, wr) == E.Commit(db, wr)
  {
    var d := E.Commit(db, wr);
    assert d.byExternal == db.byExternal && d.byKey == db.byKey;
  }

  /** The row and its keys already exist, so the updates of a retry are its whole commit. */
  lemma RetryWritesCommit(db: E.Db, id: Uuid, wallet: Wallet, later: Time, x: E.Context)
    requires TablesOk(db) && id in db.wagers && db.wagers[id].retry.Some? && DueSpec(db, db.wagers[id], wallet, later, x).Ok?
    ensures var wr := DueSpec(db, db.wagers[id], wallet, later, x).value; Written(db, wr) == E.Commit(db, wr)
  {
    var row := db.wagers[id];
    var found := E.FindByExternal(db, E.ReferenceKey(row.wager.terms));
    RetryTerms(row, wallet, found, E.HasReversal(db, E.ReferenceOf(row.wager, found)), later, x);
    assert Indexed(db, row.wager.terms);
    IndexedCommit(db, DueSpec(db, row, wallet, later, x).value);
  }

  /** A transaction ended as `spec` says. */
  predicate Finished(spec: Result<E.Db>, now: E.Db, err: Check) {
    match spec
    case Ok(d) => err.Pass? && now == d
    case Err(e) => err == Fail(e)
  }

  /** A Process answered and left the tables as `spec` says; an error leaves them as they were. */
  predicate Answered(was: E.Db, spec: Result<E.Done>, now: E.Db, r: Result<E.Reply>) {
    match spec
    case Ok(done) => r == Ok(done.reply) && now == done.db
    case Err(e) => r == Err(e) && now == was
  }

  /** Process on the tables it reads. */
  function Answer(db: E.Db, c: E.Command, id: Uuid, createdAt: Time, x: E.Context): Result<E.Done> {
    E.Process(db, c, id, createdAt, E.FindByExternal(db, (c.providerId, c.referenceExternalId)), x)
  }

  /** Handle on the tables it reads. */
  function Handled(db: E.Db, m: E.Message, id: Uuid, createdAt: Time, x: E.Context, at: Time): Result<E.Db> {
    E.Handle(db, m, id, createdAt, E.FindByExternal(db, (m.command.providerId, m.command.referenceExternalId)), x, at)
  }

  /** The retry of a pending row on the tables it reads. */
  function Retried(db: E.Db, id: Uuid, later: Time, x: E.Context): Result<E.Db>
    requires id in db.wagers && db.wagers[id].retry.Some?
  {
    E.RetryOne(db, id, E.FindByExternal(db, E.ReferenceKey(db.wagers[id].wager.terms)), later, x)
  }

  /** IsTransient, of the errors in the model */
  predicate IsTransient(e: Error) { e.DependencyUnavailable? }

  /** The first transaction of RetryNextPendingReference on a claimed row. */
  function Attempt(db: E.Db, id: Uuid, later: Time, x: E.Context, outage: bool): Result<E.Db>
    requires id in db.wagers && db.wagers[id].retry.Some?
  {
    if outage then Err(DependencyUnavailable) else Retried(db, id, later, x)
  }

  /** What RetryNextPendingReference leaves after its first transaction ended as `attempt`. */
  function AfterRetry(db: E.Db, id: Uuid, attempt: Result<E.Db>, failedAt: Time, stopping: bool): E.Db
    requires id in db.wagers
  {
    match attempt
    case Ok(d) => d
    case Err(e) =>
      if stopping || e == DependencyUnavailable then db
      else (match E.FailOne(db, id, failedAt) case Ok(d) => d case Err(_) => db)
  }

  /** What the inbox holds makes no difference to Process. */
  lemma AnswerIgnoresInbox(db: E.Db, inbox: map<string, E.InboxRow>, c: E.Command, id: Uuid, createdAt: Time, x: E.Context)
    ensures Answer(db.(inbox := inbox), c, id, createdAt, x) ==
            Over(Answer(db, c, id, createdAt, x), inbox)
  {
    hide E.Prepare, E.ProcessInserted;
    var d, found := db.(inbox := inbox), E.FindByExternal(db, (c.providerId, c.referenceExternalId));
    assert E.FindByExternal(d, (c.providerId, c.referenceExternalId)) == found;
    var p := E.Prepare(c, id, createdAt, x.metadata);
    if p.Ok? {
      InsertedIgnoresInbox(db, inbox, p.value.1, found, x);
    }
  }

  lemma AnswerKeepsInbox(db: E.Db, c: E.Command, id: Uuid, createdAt: Time, x: E.Context)
    ensures Answer(db, c, id, createdAt, x).Ok? ==> Answer(db, c, id, createdAt, x).value.db.inbox == db.inbox
  {
    AnswerIgnoresInbox(db, db.inbox, c, id, createdAt, x);
  }

  /** The same answer over another inbox. */
  function Over(p: Result<E.Done>, inbox: map<string, E.InboxRow>): Result<E.Done> {
    match p
    case Ok(done) => Ok(done.(db := done.db.(inbox := inbox)))
    case Err(e) => Err(e)
  }

  lemma FinishIgnoresRegistration(m: E.Message, p: Result<E.Done>, inbox: map<string, E.InboxRow>, at: Time)
    requires p.Ok? ==> p.value.db.inbox == inbox
    ensures E.Finish(m, Over(p, inbox[m.id := E.InboxRow(m.hash, None)]), at) == E.Finish(m, p, at)
  {
    var done := E.InboxRow(m.hash, Some(at));
    assert inbox[m.id := E.InboxRow(m.hash, None)][m.id := done] == inbox[m.id := done];
  }

  /** Registering the message first does not change what its handling amounts to. */
  lemma RegisteredSpec(db: E.Db, m: E.Message, id: Uuid, createdAt: Time, y: E.Context, at: Time, p: Result<E.Done>)
    requires p == Answer(db, m.command, id, createdAt, y)
    ensures var inbox := db.inbox[m.id := E.InboxRow(m.hash, None)];
            E.Finish(m, Answer(db.(inbox := inbox), m.command, id, createdAt, y), at) == E.Finish(m, p, at)
  {
    AnswerIgnoresInbox(db, db.inbox[m.id := E.InboxRow(m.hash, None)], m.command, id, createdAt, y);
    AnswerKeepsInbox(db, m.command, id, createdAt, y);
    FinishIgnoresRegistration(m, p, db.inbox, at);
  }

  lemma InsertedIgnoresInbox(db: E.Db, inbox: map<string, E.InboxRow>, w: W.Wager, found: Option<W.Wager>, x: E.Context)
    ensures E.ProcessInserted(db.(inbox := inbox), w, found, x) ==
            match E.ProcessInserted(db, w, found, x)
            case Ok(done) => Ok(done.(db := done.db.(inbox := inbox)))
            case Err(e) => Err(e)
  {
    var d := db.(inbox := inbox);
    assert E.HasReversal(d, E.ReferenceOf(w, found)) == E.HasReversal(db, E.ReferenceOf(w, found));
    assert E.LockWallet(d, w) == E.LockWallet(db, w);
  }
}
