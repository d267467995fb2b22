/**
 Waiting in the interleaved machine. Waits only climb: from an inbox key to a wager key or
 row, and from there to a wallet. With the lock mode of the source nobody ever waits for a
 transaction that is itself waiting lower down, so there is no cycle; with FOR UPDATE there is.
 */
module Deadlock {
  import opened Basics
  import opened Money
  import opened MoneyText
  import opened Wagers
  import opened Wallets
  import opened Engine
  import opened EngineInvariant
  import opened EngineDecisions
  import R = EngineRuns
  import opened EngineSafety
  import opened Interleaving
  import opened InterleavingRuns

  /** The kind of lock that the next statement may have to wait for; TOP never waits. */
  const TOP := 3

  function Level(tx: Tx): nat {
    match tx.pc
    case Begin => if tx.job.Consume? then 0 else if tx.job.Abandon? then 1 else TOP
    case Built(_, _) => 1
    case Holding(_) => if tx.job.Abandon? then TOP else 2
    case _ => TOP
  }

  predicate Waiting(m: Machine, t: nat) {
    exists u :: u in m.txs && Waits(m, t, u)
  }

  /** The foreign key of a resolved reference is never blocked: its row is processed, and only pending rows are locked. */
  lemma ReferenceIsNeverLocked(s: World, a: Tx, b: Tx, mode: LockMode)
    requires RowsOk(s.db.wagers) && TxOk(s, a) && TxOk(s, b) && a.pc.Checked?
    ensures !Blocks(mode, a, b)
  {
    HeldIds(s, b);
    if RowLock(b).Some? {
      assert RowOk(RowLock(b).value, s.db.wagers[RowLock(b).value]);
    }
  }

  /** A transaction waits only for one that has already climbed past its own level. */
  lemma WaitsClimb(m: Machine, t: nat, u: nat)
    requires MachineInv(m) && m.mode.NoKeyUpdate? && Waits(m, t, u)
    ensures Level(m.txs[t]) < Level(m.txs[u])
  {
    hide RowsOk, IndexOk, WalletsOk, MayHaveSeen, CheckOk, InTime, Prepare, LockWallet;
    var a, b := m.txs[t], m.txs[u];
    assert TxOk(m.world, a) && TxOk(m.world, b);
    if a.pc.Checked? {
      ReferenceIsNeverLocked(m.world, a, b, m.mode);
    }
  }

  /** Each transaction of the chain waits for the next one. */
  predicate Chain(m: Machine, chain: seq<nat>) {
    forall i :: 0 <= i < |chain| - 1 ==> Waits(m, chain[i], chain[i + 1])
  }

  lemma {:induction false} ChainsClimb(m: Machine, chain: seq<nat>)
    requires MachineInv(m) && m.mode.NoKeyUpdate? && Chain(m, chain) && |chain| > 0
    requires forall i :: 0 <= i < |chain| ==> chain[i] in m.txs
    ensures Level(m.txs[chain[0]]) + |chain| - 1 <= Level(m.txs[chain[|chain| - 1]]) <= TOP
  {
    if |chain| > 1 {
      var init := chain[..|chain| - 1];
      assert Chain(m, init);
      ChainsClimb(m, init);
      WaitsClimb(m, chain[|chain| - 2], chain[|chain| - 1]);
    }
  }

  /** No waiting transaction ever waits, directly or through others, for itself. */
  lemma NoCycle(m: Machine, chain: seq<nat>)
    requires MachineInv(m) && m.mode.NoKeyUpdate? && Chain(m, chain) && |chain| > 1
    ensures chain[0] != chain[|chain| - 1] && |chain| <= 4
  {
    forall i | 0 <= i < |chain|
      ensures chain[i] in m.txs
    {
      assert if i == 0 then Waits(m, chain[0], chain[1]) else Waits(m, chain[i - 1], chain[i]);
    }
    ChainsClimb(m, chain);
  }

  // ----- progress -----

  lemma {:induction false} SetIsBounded(ids: set<Uuid>) returns (bound: Uuid)
    ensures forall i :: i in ids ==> i < bound
    ensures bound > NIL_UUID
  {
    if ids == {} {
      bound := 1;
    } else {
      var i :| i in ids;
      var rest := SetIsBounded(ids - {i});
      bound := if i < rest then rest else i + 1;
      assert forall j :: j in ids ==> j == i || j in ids - {i};
    }
  }

  /** Some identifier is new to the tables and to every transaction in flight. */
  lemma FreshIdExists(m: Machine) returns (id: Uuid)
    ensures FreshId(m, id)
  {
    var drafts := set t | t in m.txs && DraftId(m.txs[t]).Some? :: DraftId(m.txs[t]).value;
    id := SetIsBounded(m.world.db.wagers.Keys + drafts);
    forall t | t in m.txs
      ensures DraftId(m.txs[t]) != Some(id)
    {
      if DraftId(m.txs[t]).Some? {
        assert DraftId(m.txs[t]).value in drafts;
      }
    }
  }

  /** The next statement of the transaction can be executed now. */
  ghost predicate CanRun(m: Machine, t: nat) {
    exists id, ids :: Enabled(m, Advance(t, id, ids))
  }

  /** A transaction that does not wait can execute its next statement. */
  lemma UnblockedCanRun(m: Machine, t: nat)
    requires AllOk(m.world, m.txs) && t in m.txs && !Waiting(m, t)
    ensures CanRun(m, t)
  {
    var id := FreshIdExists(m);
    var ids := FreshIdsExist(m.world.db);
    forall u | u in m.txs
      ensures RowLock(m.txs[u]) != Some(id)
    {
      assert TxOk(m.world, m.txs[u]);
      HeldIds(m.world, m.txs[u]);
    }
    assert TxOk(m.world, m.txs[t]);
    assert Enabled(m, Advance(t, id, ids));
  }

  /** Whatever blocks another transaction holds something, so it is not over. */
  lemma BlockerIsRunning(mode: LockMode, a: Tx, b: Tx)
    requires Blocks(mode, a, b)
    ensures !b.pc.Finished?
  {
  }

  /**
   Behind every waiting transaction there is an unfinished one whose next statement can be
   executed now: the last of a chain of at most four.
   */
  lemma SomeoneCanRun(m: Machine, t: nat) returns (chain: seq<nat>)
    requires MachineInv(m) && m.mode.NoKeyUpdate? && t in m.txs
    ensures 0 < |chain| <= TOP + 1 - Level(m.txs[t]) && chain[0] == t && Chain(m, chain)
    ensures chain[|chain| - 1] in m.txs && CanRun(m, chain[|chain| - 1])
    ensures if !Waiting(m, t) then chain == [t] else |chain| > 1 && !m.txs[chain[|chain| - 1]].pc.Finished?
    decreases TOP - Level(m.txs[t])
  {
    hide AllOk, Compatible, CanRun, WorldInv;
    if Waiting(m, t) {
      var u :| u in m.txs && Waits(m, t, u);
      WaitsClimb(m, t, u);
      BlockerIsRunning(m.mode, m.txs[t], m.txs[u]);
      var rest := SomeoneCanRun(m, u);
      chain := [t] + rest;
      assert forall i :: 0 < i < |chain| ==> chain[i] == rest[i - 1];
    } else {
      UnblockedCanRun(m, t);
      chain := [t];
    }
  }

  // ----- rival reversals -----

  /** The transaction is about to write a reversal of `reference`. */
  predicate Reverses(tx: Tx, reference: Uuid) {
    && tx.pc.Checked? && tx.pc.work.Wager().terms.kind.RequiresReference()
    && ValidateReference(tx.pc.work.Wager(), tx.pc.found).Pass? && tx.pc.found.value.terms.id == reference
  }

  /**
   Two transactions never hold reversals of the same reference at the same time: both would
   have locked its wallet. So no insert into the unique index of successful reversals waits.
   */
  lemma NoRivalReversals(m: Machine, t: nat, u: nat, reference: Uuid)
    requires MachineInv(m) && t in m.txs && u in m.txs && Reverses(m.txs[t], reference) && Reverses(m.txs[u], reference)
    ensures t == u
  {
    assert TxOk(m.world, m.txs[t]) && TxOk(m.world, m.txs[u]);
    if t != u {
      assert Compatible(m.txs[t], m.txs[u]);
      SameReferenceSameWallet(m.world.db, m.txs[t], m.txs[u], reference);
    }
  }

  lemma SameReferenceSameWallet(db: Db, a: Tx, b: Tx, reference: Uuid)
    requires Reverses(a, reference) && Reverses(b, reference)
    requires MayHaveSeen(db, ReferenceKey(a.pc.work.Wager().terms), a.pc.found)
    requires MayHaveSeen(db, ReferenceKey(b.pc.work.Wager().terms), b.pc.found)
    ensures WalletLock(a) == WalletLock(b)
  {
  }

  // ----- FOR UPDATE -----

  const METADATA := Metadata("m", "")

  function LossCommand(key: string): Command {
    Command("p", key, key, 1, 1, "r", "g", "LOSS", Print(0), "BRL", "")
  }

  function LossTerms(key: string, id: Uuid, at: Time): Terms {
    RequestTerms(Request(LossCommand(key), Loss, Money(0, "BRL"), Hash(LossCommand(key), Loss, Money(0, "BRL"))), id, at)
  }

  predicate Letter(s: string) { |s| == 1 && 'a' <= s[0] <= 'z' }

  lemma LetterIsIdentifier(s: string)
    requires Letter(s)
    ensures ValidIdentifier(s)
  {
    assert !IsSpace(s[0]);
    assert s[..0] == "";
    assert ByteLength(s) == ByteLength("") + 1;
  }

  lemma LossIsPrepared(key: string, id: Uuid, at: Time)
    requires Letter(key) && id != NIL_UUID && at > ZERO_TIME
    ensures var t := LossTerms(key, id, at);
            exists r :: Prepare(LossCommand(key), id, at, METADATA) == Ok((r, Unresolved(t)))
  {
    var c := LossCommand(key);
    PrintThenParse(0);
    LetterIsIdentifier(key);
    LetterIsIdentifier("p");
    LetterIsIdentifier("r");
    LetterIsIdentifier("g");
    LetterIsIdentifier("m");
    assert ParseMoney(Print(0), "BRL") == Ok(Money(0, "BRL"));
    var r := Request(c, Loss, Money(0, "BRL"), Hash(c, Loss, Money(0, "BRL")));
    assert ParseRequest(c) == Ok(r);
    assert NewExternal(RequestTerms(r, id, at)) == Ok(Unresolved(LossTerms(key, id, at)));
  }

  lemma OneMore(m: Machine, steps: seq<Step>, step: Step)
    requires Legal(m, steps) && Enabled(Run(m, steps), step)
    ensures Legal(m, steps + [step]) && Run(m, steps + [step]) == Next(Run(m, steps), step)
  {
    assert (steps + [step])[..|steps|] == steps;
  }

  const WALLET := Wallet(1, 1, Money(0, "BRL"), 1, START, START)

  const ONE_WALLET: Db := EMPTY.(wallets := map[1 := WALLET])

  const NO_IDS := Ids(1, 1, 2)

  function Two(p: Policy, a: Pc, b: Pc): Machine {
    Machine(R.World(ONE_WALLET, START, p),
            map[0 := Tx(Serve(LossCommand("a"), METADATA), a), 1 := Tx(Serve(LossCommand("b"), METADATA), b)], ForUpdate)
  }

  lemma OpenOneWallet(p: Policy)
    ensures var step := Open(OpenWallet(1, "BRL", Print(0)), 1, 1, Context(p, METADATA, NO_IDS, START));
            Enabled(Boot(p, ForUpdate), step)
            && Next(Boot(p, ForUpdate), step) == Machine(R.World(ONE_WALLET, START, p), map[], ForUpdate)
  {
    PrintThenParse(0);
    LetterIsIdentifier("m");
    var x := Context(p, METADATA, NO_IDS, START);
    assert ParseMoney(Print(0), "BRL") == Ok(Money(0, "BRL"));
    assert CreateWallet(EMPTY, OpenWallet(1, "BRL", Print(0)), 1, 1, x) == Ok(ONE_WALLET);
  }

  lemma BuildLoss(p: Policy, key: string, id: Uuid) returns (r: Request)
    requires Letter(key) && id != NIL_UUID
    ensures Build(R.World(ONE_WALLET, START, p), Serve(LossCommand(key), METADATA), id) == Built(r, Unresolved(LossTerms(key, id, START)))
  {
    LossIsPrepared(key, id, START);
    r :| Prepare(LossCommand(key), id, START, METADATA) == Ok((r, Unresolved(LossTerms(key, id, START))));
  }

  lemma StartTwo(p: Policy) returns (steps: seq<Step>)
    ensures Legal(Boot(p, ForUpdate), steps) && Run(Boot(p, ForUpdate), steps) == Two(p, Begin, Begin)
  {
    var m := Boot(p, ForUpdate);
    var open := Open(OpenWallet(1, "BRL", Print(0)), 1, 1, Context(p, METADATA, NO_IDS, START));
    OpenOneWallet(p);
    OneMore(m, [], open);
    steps := [open];
    OneMore(m, steps, Start(0, Serve(LossCommand("a"), METADATA)));
    steps := steps + [Start(0, Serve(LossCommand("a"), METADATA))];
    OneMore(m, steps, Start(1, Serve(LossCommand("b"), METADATA)));
    steps := steps + [Start(1, Serve(LossCommand("b"), METADATA))];
  }

  lemma BuildFirst(p: Policy) returns (pc: Pc)
    ensures pc.Built? && pc.wager == Unresolved(LossTerms("a", 2, START))
    ensures var m := Two(p, Begin, Begin);
            Enabled(m, Advance(0, 2, NO_IDS)) && Next(m, Advance(0, 2, NO_IDS)) == Two(p, pc, Begin)
  {
    var r := BuildLoss(p, "a", 2);
    pc := Built(r, Unresolved(LossTerms("a", 2, START)));
    BuildEnabled(p, Begin, Begin, 0, 2);
    BuildNext(Two(p, Begin, Begin), 0, 2, NO_IDS);
    GotoTwo(p, pc, Begin, Begin);
  }

  /** A transaction at its beginning can build its wager while the other one holds nothing. */
  lemma BuildEnabled(p: Policy, a: Pc, b: Pc, t: nat, id: Uuid)
    requires t < 2 && (if t == 0 then a else b).Begin? && id != NIL_UUID
    requires (if t == 0 then b else a).Begin? || ((if t == 0 then b else a).Built? && (if t == 0 then b else a).wager.terms.id != id)
    ensures Enabled(Two(p, a, b), Advance(t, id, NO_IDS))
  {
  }

  lemma BuildNext(m: Machine, t: nat, id: Uuid, ids: Ids)
    requires t in m.txs && m.txs[t].pc.Begin? && m.txs[t].job.Serve?
    ensures Next(m, Advance(t, id, ids)) == Goto(m, t, Build(m.world, m.txs[t].job, id))
  {
  }

  lemma GotoTwo(p: Policy, pc: Pc, a: Pc, b: Pc)
    ensures Goto(Two(p, a, b), 0, pc) == Two(p, pc, b) && Goto(Two(p, a, b), 1, pc) == Two(p, a, pc)
  {
  }

  lemma BuildSecond(p: Policy, a: Pc) returns (pc: Pc)
    requires a.Built? && a.wager == Unresolved(LossTerms("a", 2, START))
    ensures pc.Built? && pc.wager == Unresolved(LossTerms("b", 3, START))
    ensures var m := Two(p, a, Begin);
            Enabled(m, Advance(1, 3, NO_IDS)) && Next(m, Advance(1, 3, NO_IDS)) == Two(p, a, pc)
  {
    var r := BuildLoss(p, "b", 3);
    pc := Built(r, Unresolved(LossTerms("b", 3, START)));
    BuildEnabled(p, a, Begin, 1, 3);
    BuildNext(Two(p, a, Begin), 1, 3, NO_IDS);
    GotoTwo(p, pc, a, Begin);
  }

  lemma InsertFirst(p: Policy, a: Pc, b: Pc)
    requires a.Built? && a.wager == Unresolved(LossTerms("a", 2, START)) && b.Built?
    ensures var m := Two(p, a, b);
            Enabled(m, Advance(0, 2, NO_IDS)) && Next(m, Advance(0, 2, NO_IDS)) == Two(p, Holding(New(a.request, a.wager)), b)
  {
    hide MayHaveSeen, ProcessNew, RetryPending, Prepare, Write;
  }

  lemma InsertSecond(p: Policy, a: Pc, b: Pc)
    requires a.Holding? && a.work.New? && a.work.draft == Unresolved(LossTerms("a", 2, START))
    requires b.Built? && b.wager == Unresolved(LossTerms("b", 3, START))
    ensures var m := Two(p, a, b);
            Enabled(m, Advance(1, 3, NO_IDS)) && Next(m, Advance(1, 3, NO_IDS)) == Two(p, a, Holding(New(b.request, b.wager)))
  {
    hide FreshIds, Prepare, NewExternal;
    assert "a" != "b" by { assert "a"[0] != "b"[0]; }
  }

  lemma BothInserted(p: Policy, a: Pc, b: Pc)
    requires a.Holding? && a.work.New? && a.work.draft == Unresolved(LossTerms("a", 2, START))
    requires b.Holding? && b.work.New? && b.work.draft == Unresolved(LossTerms("b", 3, START))
    ensures Waits(Two(p, a, b), 0, 1) && Waits(Two(p, a, b), 1, 0)
  {
  }

  /**
   With FOR UPDATE two commands on one wallet can deadlock: each has inserted its row, which
   share-locks the wallet, and each waits for the other before it can lock the wallet itself.
   */
  lemma ForUpdateDeadlocks(p: Policy) returns (steps: seq<Step>)
    ensures Legal(Boot(p, ForUpdate), steps)
    ensures var m := Run(Boot(p, ForUpdate), steps); Waits(m, 0, 1) && Waits(m, 1, 0)
  {
    hide *;
    var m := Boot(p, ForUpdate);
    steps := StartTwo(p);
    var a := BuildFirst(p);
    OneMore(m, steps, Advance(0, 2, NO_IDS));
    steps := steps + [Advance(0, 2, NO_IDS)];
    var b := BuildSecond(p, a);
    OneMore(m, steps, Advance(1, 3, NO_IDS));
    steps := steps + [Advance(1, 3, NO_IDS)];
    InsertFirst(p, a, b);
    OneMore(m, steps, Advance(0, 2, NO_IDS));
    steps := steps + [Advance(0, 2, NO_IDS)];
    var a', b' := Holding(New(a.request, a.wager)), Holding(New(b.request, b.wager));
    InsertSecond(p, a', b);
    OneMore(m, steps, Advance(1, 3, NO_IDS));
    steps := steps + [Advance(1, 3, NO_IDS)];
    BothInserted(p, a', b');
  }

  ghost predicate HasCycle(m: Machine) {
    exists chain :: |chain| > 1 && Chain(m, chain) && chain[0] == chain[|chain| - 1]
  }

  /** No interleaving has a cycle of waiting transactions if and only if wallets are locked FOR NO KEY UPDATE. */
  lemma DeadlockFreeExactly(p: Policy, mode: LockMode)
    ensures (forall steps :: Legal(Boot(p, mode), steps) ==> !HasCycle(Run(Boot(p, mode), steps))) <==> mode.NoKeyUpdate?
  {
    if mode.NoKeyUpdate? {
      forall steps | Legal(Boot(p, mode), steps)
        ensures !HasCycle(Run(Boot(p, mode), steps))
      {
        InterleavingsRefineRuns(p, mode, steps);
        NoCycles(Run(Boot(p, mode), steps));
      }
    } else {
      var steps := ForUpdateDeadlocks(p);
      assert Chain(Run(Boot(p, mode), steps), [0, 1, 0]);
    }
  }

  lemma NoCycles(m: Machine)
    requires MachineInv(m) && m.mode.NoKeyUpdate?
    ensures !HasCycle(m)
  {
    forall chain | |chain| > 1 && Chain(m, chain)
      ensures chain[0] != chain[|chain| - 1]
    {
      NoCycle(m, chain);
    }
  }
}
