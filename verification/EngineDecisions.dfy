/** Every decision of the engine that does not fail produces lawful writes. */
module EngineDecisions {
  import opened Basics
  import opened Money
  import opened Wagers
  import opened WagerLife
  import opened Wallets
  import opened Engine
  import opened EngineInvariant

  /**
   `found` may be what a reference lookup returned at some earlier moment of the same run:
   nothing, or a row of today's table. A terminal row cannot have changed since.
   */
  predicate MayHaveSeen(db: Db, key: (string, string), found: Option<Wager>) {
    found.Some? ==>
      var f := found.value;
      && f.terms.kind.IsExternal() && ExternalKey(f.terms) == key
      && f.terms.id in db.wagers && db.wagers[f.terms.id].wager.terms == f.terms
      && (f.status.IsTerminal() ==> db.wagers[f.terms.id].wager == f)
  }

  /** A lookup in the tables themselves is one of them. */
  lemma LookupIsSeen(db: Db, key: (string, string))
    requires RowsOk(db.wagers) && ExternalIndexOk(db.wagers, db.byExternal)
    ensures MayHaveSeen(db, key, FindByExternal(db, key))
  {
    if key in db.byExternal {
      assert RowOk(db.byExternal[key], db.wagers[db.byExternal[key]]);
    }
  }

  /** A transaction object in the hands of a use case: not terminal, and fit to be written back. */
  predicate Live(db: Db, w: Wager) {
    && Sound(w) && Clean(w.terms) && !w.status.IsTerminal() && ValidateExternal(w.terms).Pass? && Replaces(db, w.terms)
    && w.terms.walletId in db.wallets && Owns(db.wallets[w.terms.walletId], w.terms)
    && RefOk(db.wagers, w)
  }

  /** The clock reading is not behind anything the use case is about to overwrite. */
  predicate InTime(w: Wager, wallet: Wallet, now: Time) {
    ZERO_TIME < now && w.updatedAt <= now && wallet.updatedAt <= now
  }

  /** The decision succeeded with lawful writes for the transaction with terms `t`. */
  predicate Lawfully(db: Db, r: Result<Writes>, t: Terms, ids: Ids) {
    r.Ok? && r.value.row.wager.terms == t && Lawful(db, r.value, ids)
  }

  lemma RejectLawful(db: Db, w: Wager, code: FailureCode, x: Context)
    requires Live(db, w) && ZERO_TIME < x.now && w.updatedAt <= x.now && !code.IsBlank()
    ensures Lawfully(db, Reject(w, code, x), w.terms, x.ids)
    ensures Reject(w, code, x).value.row.wager.status.Rejected? && Reject(w, code, x).value.row.wager.failureCode == code
  {
    hide ValidateExternal, Owns, ExternalKey, IdempotencyKey, HasReversal;
  }

  lemma FailLawful(db: Db, w: Wager, now: Time, ids: Ids)
    requires Live(db, w) && ZERO_TIME < now && w.updatedAt <= now
    ensures Lawfully(db, FailPending(w, now), w.terms, ids)
    ensures FailPending(w, now).value.row.wager.status.Failed?
  {
  }

  lemma ParkLawful(db: Db, w: Wager, x: Context)
    requires Live(db, w) && ZERO_TIME < x.now && w.updatedAt <= x.now && w.terms.id !in db.wagers && w.status.Pending?
    ensures Park(w, x).Ok? ==> Lawfully(db, Park(w, x), w.terms, x.ids)
    ensures Park(w, x).Ok? <==>
            w.terms.kind.AllowsReference() && !Blank(w.terms.referenceExternalId) && w.referenceId == NIL_UUID
  {
  }

  /** The processed row of a movement states the financial result of its kind. */
  lemma ProcessedIsStored(w: Wager, before: Money, after: Money, at: Time)
    requires Sound(w) && Clean(w.terms) && ValidateExternal(w.terms).Pass? && MarkProcessed(w, before, after, at).Ok?
    requires MovementDirection(w).Ok?
    requires var d := MovementDirection(w).value;
             after.cents == before.cents + (if d.None? then 0 else Signed(d.value, w.terms.amount.cents))
    ensures var w' := MarkProcessed(w, before, after, at).value;
            && Stored(w') && w'.status.Processed? && w'.before == Some(before) && w'.after == Some(after)
            && w'.terms == w.terms && w'.referenceId == w.referenceId && w'.referenceKind == w.referenceKind
            && w'.updatedAt == at
            && (var d := MovementDirection(w).value;
                if d.None? then w.terms.kind.Loss?
                else !w.terms.kind.Loss? && Signed(d.value, w.terms.amount.cents) == Movement(w'))
  {
  }

  /** applyMovement succeeds or the amount would leave the range of money; what it writes is lawful. */
  lemma ApplyMovementLawful(db: Db, w: Wager, x: Context)
    requires Live(db, w) && w.status.Pending? && ValidateReferenceReady(w).Pass?
    requires var wallet := db.wallets[w.terms.walletId]; HealthyWallet(wallet) && InTime(w, wallet, x.now)
    requires x.ids.entry != NIL_UUID
    requires w.terms.kind.RequiresReference() ==> !HasReversal(db, w.referenceId)
    ensures var r := ApplyMovement(w, db.wallets[w.terms.walletId], x);
            Lawfully(db, r, w.terms, x.ids) || r == Err(InvalidMoney)
  {
    hide Sound, Reject, HasReversal;
    var wallet := db.wallets[w.terms.walletId];
    var d := MovementDirection(w).value;
    if d.None? {
      ProcessedIsStored(w, wallet.balance, wallet.balance, x.now);
    } else {
      MoveExactly(wallet, d.value, w.terms.amount, x.now);
      var moved := Move(wallet, d.value, w.terms.amount, x.now);
      if moved == Err(InsufficientFunds) {
        RejectLawful(db, w, InsufficientFundsRejection(w), x);
      } else if moved.Ok? {
        ProcessedIsStored(w, wallet.balance, moved.value.balance, x.now);
      }
    }
  }

  lemma SettleLawful(db: Db, w: Wager, x: Context)
    requires Live(db, w) && w.status.Pending? && ValidateReferenceReady(w).Pass?
    requires var wallet := db.wallets[w.terms.walletId]; HealthyWallet(wallet) && InTime(w, wallet, x.now)
    requires x.ids.entry != NIL_UUID
    ensures var r := Settle(w, db.wallets[w.terms.walletId], HasReversal(db, w.referenceId), x);
            Lawfully(db, r, w.terms, x.ids) || r == Err(InvalidMoney)
  {
    var r := Settle(w, db.wallets[w.terms.walletId], HasReversal(db, w.referenceId), x);
    if w.terms.kind.RequiresReference() && HasReversal(db, w.referenceId) {
      var why := DuplicateReversal;
      assert r == Reject(w, why, x);
      RejectLawful(db, w, why, x);
    } else {
      assert r == ApplyMovement(w, db.wallets[w.terms.walletId], x);
      ApplyMovementLawful(db, w, x);
    }
  }

  /** A reference that resolves is a processed row of the same wallet; nothing else about the transaction changes. */
  lemma ResolvedIsLive(db: Db, w: Wager, found: Option<Wager>, now: Time)
    requires Live(db, w) && RowsOk(db.wagers) && MayHaveSeen(db, ReferenceKey(w.terms), found) && w.referenceId == NIL_UUID
    requires ZERO_TIME < now && w.updatedAt <= now && w.terms.referenceExternalId != ""
    ensures match ResolveOutcome(w, found, now)
            case Err(_) => false
            case Ok(Unavailable) => true
            case Ok(Refused(code)) => !code.IsBlank()
            case Ok(Available(w')) =>
              && Live(db, w') && w'.status.Pending? && ValidateReferenceReady(w').Pass? && w'.updatedAt == now
              && w'.terms == w.terms && w'.referenceId == ReferenceOf(w, found)
  {
    if found.Some? && found.value.status.Processed? {
      var r := found.value;
      assert RowOk(r.terms.id, db.wagers[r.terms.id]);
    }
  }

  /** processNew on a freshly built transaction. */
  lemma ProcessNewLawful(db: Db, w: Wager, found: Option<Wager>, x: Context)
    requires Live(db, w) && RowsOk(db.wagers) && MayHaveSeen(db, ReferenceKey(w.terms), found)
    requires w == Unresolved(w.terms) && w.terms.id !in db.wagers
    requires var wallet := db.wallets[w.terms.walletId]; HealthyWallet(wallet) && InTime(w, wallet, x.now)
    requires x.ids.entry != NIL_UUID
    ensures var r := ProcessNew(w, db.wallets[w.terms.walletId], found, HasReversal(db, ReferenceOf(w, found)), x);
            Lawfully(db, r, w.terms, x.ids) || r == Err(InvalidMoney)
  {
    var wallet, reversed := db.wallets[w.terms.walletId], HasReversal(db, ReferenceOf(w, found));
    var r := ProcessNew(w, wallet, found, reversed, x);
    if w.terms.referenceExternalId == "" {
      assert r == Settle(w, wallet, reversed, x);
      SettleLawful(db, w, x);
    } else {
      ResolvedIsLive(db, w, found, x.now);
      match ResolveOutcome(w, found, x.now).value
      case Refused(why) =>
        assert r == Reject(w, why, x);
        RejectLawful(db, w, why, x);
      case Unavailable =>
        assert r == Park(w, x);
        ParkLawful(db, w, x);
      case Available(w') =>
        assert r == Settle(w', wallet, reversed, x);
        SettleLawful(db, w', x);
    }
  }

  lemma ExternalIdsAreNotBlank(wagers: map<Uuid, WagerRow>, id: Uuid)
    requires RowsOk(wagers) && id in wagers && wagers[id].wager.terms.kind.IsExternal()
    ensures !Blank(wagers[id].wager.terms.externalId)
  {
    assert RowOk(id, wagers[id]);
  }

  /** No stored transaction has a blank external id, so a blank reference is never found and the command fails. */
  lemma BlankReferenceFails(db: Db, w: Wager, wallet: Wallet, found: Option<Wager>, reversed: bool, x: Context)
    requires RowsOk(db.wagers) && MayHaveSeen(db, ReferenceKey(w.terms), found) && !Clean(w.terms)
    ensures ProcessNew(w, wallet, found, reversed, x).Err?
    ensures w.status.Pending? ==> ProcessNew(w, wallet, found, reversed, x) == Err(InvalidWagerReference)
  {
    if found.Some? {
      ExternalIdsAreNotBlank(db.wagers, found.value.terms.id);
    }
  }

  /** A pending row, read back under its lock, is live. */
  lemma PendingIsLive(db: Db, id: Uuid)
    requires RowsOk(db.wagers) && RefsOk(db.wagers) && WalletsOk(db)
    requires id in db.wagers && db.wagers[id].retry.Some?
    ensures var w := db.wagers[id].wager;
            Live(db, w) && w.status.PendingReference? && w.referenceId == NIL_UUID
            && w.terms.referenceExternalId != "" && !Blank(w.terms.referenceExternalId) && w.terms.id == id
  {
    assert RowOk(id, db.wagers[id]) && RefOk(db.wagers, db.wagers[id].wager);
  }

  lemma RescheduleLawful(db: Db, id: Uuid, retry: Retry, later: Time, ids: Ids)
    requires RowsOk(db.wagers) && RefsOk(db.wagers) && WalletsOk(db)
    requires id in db.wagers && db.wagers[id].retry.Some? && db.wagers[id].wager.updatedAt <= later && ZERO_TIME < later
    ensures var w := db.wagers[id].wager;
            Lawfully(db, Ok(Writes(WagerRow(w.(updatedAt := later), Some(retry)), None, None, [])), w.terms, ids)
  {
    PendingIsLive(db, id);
    assert RowOk(id, db.wagers[id]);
  }

  /** retryPendingReference on a locked row. */
  lemma RetryLawful(db: Db, id: Uuid, found: Option<Wager>, later: Time, x: Context)
    requires RowsOk(db.wagers) && RefsOk(db.wagers) && WalletsOk(db)
    requires id in db.wagers && db.wagers[id].retry.Some? && MayHaveSeen(db, ReferenceKey(db.wagers[id].wager.terms), found)
    requires var w := db.wagers[id].wager; InTime(w, db.wallets[w.terms.walletId], x.now) && x.now <= later
    requires x.ids.entry != NIL_UUID
    ensures var row := db.wagers[id];
            var r := RetryPending(row, db.wallets[row.wager.terms.walletId], found,
                                  HasReversal(db, ReferenceOf(row.wager, found)), later, x);
            Lawfully(db, r, row.wager.terms, x.ids) || r == Err(InvalidMoney)
  {
    hide Lawful, Settle, Reject;
    var row := db.wagers[id];
    var w, retry := row.wager, row.retry.value;
    var wallet, reversed := db.wallets[w.terms.walletId], HasReversal(db, ReferenceOf(w, found));
    var r := RetryPending(row, wallet, found, reversed, later, x);
    PendingIsLive(db, id);
    if x.now >= retry.expiresAt {
      var why := ReferenceNotFound;
      assert r == Reject(w, why, x);
      RejectLawful(db, w, why, x);
    } else {
      ResolvedIsLive(db, w, found, x.now);
      match ResolveOutcome(w, found, x.now).value
      case Refused(why) =>
        assert r == Reject(w, why, x);
        RejectLawful(db, w, why, x);
      case Unavailable =>
        RescheduleLawful(db, id, r.value.row.retry.value, later, x.ids);
      case Available(w') =>
        assert r == Settle(w', wallet, reversed, x);
        SettleLawful(db, w', x);
    }
  }
}
