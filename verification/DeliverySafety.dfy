/** The delivery invariant holds in every run of consumers, redeliveries, crashes and other traffic. */
module DeliverySafety {
  import opened Basics
  import opened Wagers
  import opened Engine
  import R = EngineRuns
  import opened EngineSafety
  import opened Idempotency
  import opened Delivery

  lemma RetryKeepsInbox(db: Db, id: Uuid, found: Option<Wager>, later: Time, x: Context)
    requires id in db.wagers && db.wagers[id].retry.Some? && RetryOne(db, id, found, later, x).Ok?
    ensures RetryOne(db, id, found, later, x).value.inbox == db.inbox
  {
  }

  /** Only message handling writes inbox rows. */
  lemma OthersKeepInbox(s: R.World, a: R.Action)
    requires !a.Deliver?
    ensures R.Next(s, a).db.inbox == s.db.inbox
  {
    match a
    case Open(c, walletId, openingId, x) =>
      if CreateWallet(s.db, c, walletId, openingId, x).Ok? {
        CreateAdds(s.db, c, walletId, openingId, x);
      }
    case Submit(c, id, createdAt, found, x) => ProcessKeepsInbox(s.db, c, id, createdAt, found, x);
    case Retry(id, found, later, x) =>
      if id in s.db.wagers && s.db.wagers[id].retry.Some? && RetryOne(s.db, id, found, later, x).Ok? {
        RetryKeepsInbox(s.db, id, found, later, x);
      }
    case _ =>
  }

  lemma HandleInbox(db: Db, m: Message, id: Uuid, createdAt: Time, found: Option<Wager>, x: Context, at: Time)
    requires Handle(db, m, id, createdAt, found, x, at).Ok?
    ensures var d := Handle(db, m, id, createdAt, found, x, at).value;
            d.inbox == db.inbox || (d.inbox == db.inbox[m.id := InboxRow(m.hash, Some(at))])
  {
    if Register(db, m) == Ok(false) {
      ProcessKeepsInbox(db, m.command, id, createdAt, found, x.(metadata := Metadata(m.id, m.id)));
    }
  }

  /** Rows already in the inbox stay effective; a new row has to be shown effective. */
  lemma InboxStaysEffective(db: Db, d: Db, decoder: map<string, Message>)
    requires InboxEffective(db, decoder) && Extends(db, d)
    requires forall i :: i in d.inbox && i !in db.inbox ==>
               d.inbox[i].hash in decoder && decoder[d.inbox[i].hash].id == i && Effective(d, decoder[d.inbox[i].hash])
    ensures InboxEffective(d, decoder)
  {
    forall i | i in d.inbox && i in db.inbox
      ensures d.inbox[i].hash in decoder && decoder[d.inbox[i].hash].id == i && Effective(d, decoder[d.inbox[i].hash])
    {
      assert Effective(db, decoder[db.inbox[i].hash]);
      EffectivePersists(db, d, decoder[db.inbox[i].hash]);
    }
  }

  /** A change of the tables that only extends them, with an effective inbox, keeps the whole invariant. */
  lemma WorldStepKeepsInv(s: System, w: R.World)
    requires SystemInv(s) && WorldInv(w) && w.policy == s.world.policy && Extends(s.world.db, w.db) && InboxEffective(w.db, s.decoder)
    ensures SystemInv(s.(world := w))
  {
    var s' := s.(world := w);
    forall e | Took(s, e)
      ensures Took(s', e)
    {
      EffectivePersists(s.world.db, w.db, s.decoder[e.body]);
    }
    forall k | k in s'.consumers
      ensures ConsumerOk(s', s'.consumers[k])
    {
      assert ConsumerOk(s, s.consumers[k]);
    }
  }

  lemma EngineStep(s: System, a: R.Action)
    requires SystemInv(s) && Enabled(s, Engine(a))
    ensures SystemInv(Next(s, Engine(a)))
  {
    StepKeepsWorld(s.world, a);
    OthersKeepInbox(s.world, a);
    var w := R.Next(s.world, a);
    InboxStaysEffective(s.world.db, w.db, s.decoder);
    WorldStepKeepsInv(s, w);
  }

  lemma GotoKeepsInv(s: System, k: nat, pc: Pc)
    requires SystemInv(s) && ConsumerOk(s, pc)
    ensures SystemInv(Goto(s, k, pc))
  {
    var s' := Goto(s, k, pc);
    forall e
      ensures Took(s', e) == Took(s, e)
    {
    }
    forall i | i in s'.consumers
      ensures ConsumerOk(s', s'.consumers[i])
    {
      if i != k {
        assert ConsumerOk(s, s.consumers[i]);
      }
    }
  }

  lemma DeliveredInbox(s: System, m: Message, id: Uuid, createdAt: Time, found: Option<Wager>, x: Context, at: Time)
    requires SystemInv(s) && m.hash in s.decoder && s.decoder[m.hash] == m
    requires R.FreshCommand(s.world, m.command, id, createdAt, found, x) && Handle(s.world.db, m, id, createdAt, found, x, at).Ok?
    requires Extends(s.world.db, Handle(s.world.db, m, id, createdAt, found, x, at).value)
    ensures InboxEffective(Handle(s.world.db, m, id, createdAt, found, x, at).value, s.decoder)
    ensures Effective(Handle(s.world.db, m, id, createdAt, found, x, at).value, m)
  {
    HandledIsEffective(s.world, s.decoder, m, id, createdAt, found, x, at);
    HandleInbox(s.world.db, m, id, createdAt, found, x, at);
    InboxStaysEffective(s.world.db, Handle(s.world.db, m, id, createdAt, found, x, at).value, s.decoder);
  }

  lemma HandleStep(s: System, k: nat, id: Uuid, createdAt: Time, found: Option<Wager>, x: Context, at: Time)
    requires SystemInv(s) && Enabled(s, HandleOne(k, id, createdAt, found, x, at))
    ensures SystemInv(Next(s, HandleOne(k, id, createdAt, found, x, at)))
  {
    hide WorldInv, InboxEffective, NothingLost, ConsumerOk, R.FreshCommand, Extends, Handle;
    var e := PcOf(s, k).e;
    if !Readable(s, e) {
      GotoKeepsInv(s, k, Poison(e));
    } else {
      var m := s.decoder[e.body];
      var w := R.Next(s.world, R.Deliver(m, id, createdAt, found, x, at));
      var done := Handle(s.world.db, m, id, createdAt, found, x, at);
      StepKeepsWorld(s.world, R.Deliver(m, id, createdAt, found, x, at));
      if done.Ok? {
        DeliveredInbox(s, m, id, createdAt, found, x, at);
        WorldStepKeepsInv(s, w);
        GotoKeepsInv(s.(world := w), k, Handled(e));
      } else {
        GotoKeepsInv(s, k, Poison(e));
      }
    }
  }

  /** A change of the queues alone, which takes nothing out of the dead-letter queue, is harmless to the consumers. */
  lemma QueuesKeepConsumers(s: System, s': System)
    requires s'.world == s.world && s'.decoder == s.decoder && s'.consumers == s.consumers && s.dlq <= s'.dlq
    requires forall k :: k in s.consumers ==> ConsumerOk(s, s.consumers[k])
    ensures forall e :: Took(s', e) == Took(s, e)
    ensures forall k :: k in s'.consumers ==> ConsumerOk(s', s'.consumers[k])
  {
    hide Effective;
    forall k | k in s'.consumers
      ensures ConsumerOk(s', s'.consumers[k])
    {
      assert ConsumerOk(s, s.consumers[k]);
    }
  }

  lemma CopyStep(s: System, k: nat)
    requires SystemInv(s) && Enabled(s, Copy(k))
    ensures SystemInv(Next(s, Copy(k)))
  {
    hide WorldInv, InboxEffective, Took;
    var e := PcOf(s, k).e;
    var s' := s.(dlq := s.dlq + {e});
    QueuesKeepConsumers(s, s');
    GotoKeepsInv(s', k, Copied(e));
  }

  lemma DeleteStep(s: System, k: nat)
    requires SystemInv(s) && Enabled(s, Delete(k))
    ensures SystemInv(Next(s, Delete(k)))
  {
    hide WorldInv, InboxEffective, Took;
    var e := PcOf(s, k).e;
    assert ConsumerOk(s, s.consumers[k]);
    var s' := s.(queue := s.queue - {e});
    QueuesKeepConsumers(s, s');
    GotoKeepsInv(s', k, Idle);
  }

  lemma SendStep(s: System, e: Envelope)
    requires SystemInv(s)
    ensures SystemInv(Next(s, Send(e)))
  {
    hide WorldInv, InboxEffective, Took;
    var s' := Next(s, Send(e));
    QueuesKeepConsumers(s, s');
  }

  lemma StepKeepsInv(s: System, step: Step)
    requires SystemInv(s)
    ensures SystemInv(Next(s, step))
  {
    hide R.Enabled, R.Next, SystemInv;
    if Enabled(s, step) {
      match step
      case Engine(a) => EngineStep(s, a);
      case Send(e) => SendStep(s, e);
      case Receive(k, e) => GotoKeepsInv(s, k, Received(e));
      case HandleOne(k, id, createdAt, found, x, at) => HandleStep(s, k, id, createdAt, found, x, at);
      case Copy(k) => CopyStep(s, k);
      case Delete(k) => DeleteStep(s, k);
      case Crash(k) => GotoKeepsInv(s, k, Idle);
    }
  }

  function Run(s: System, steps: seq<Step>): System {
    if steps == [] then s else Next(Run(s, steps[..|steps| - 1]), steps[|steps| - 1])
  }

  function Start(p: Policy, decoder: map<string, Message>): System {
    System(Initial(p), decoder, {}, {}, {}, map[])
  }

  lemma {:induction false} RunKeepsInv(s: System, steps: seq<Step>)
    requires SystemInv(s)
    ensures SystemInv(Run(s, steps))
  {
    if steps != [] {
      RunKeepsInv(s, steps[..|steps| - 1]);
      StepKeepsInv(Run(s, steps[..|steps| - 1]), steps[|steps| - 1]);
    }
  }

  /**
   For every mix of HTTP calls, retries, deliveries, redeliveries and crashes: a message that
   is no longer in the source queue took effect or is in the dead-letter queue, every inbox row
   is completed, and no operation moves money twice.
   */
  lemma MessagesAreSafe(p: Policy, decoder: map<string, Message>, steps: seq<Step>, e: Envelope)
    requires DecoderOk(decoder)
    ensures var s := Run(Start(p, decoder), steps);
            && (e in s.sent && e !in s.queue ==> e in s.dlq || Took(s, e))
            && InboxOk(s.world.db)
            && (forall i, j :: SameOperation(s.world.db, i, j) ==> i == j)
  {
    var s := Run(Start(p, decoder), steps);
    InitialWorldInv(p);
    RunKeepsInv(Start(p, decoder), steps);
    forall i, j | SameOperation(s.world.db, i, j)
      ensures i == j
    {
      OneMovementPerOperation(s.world.db, i, j);
    }
  }

  /** Two ledger entries belong to provider transactions with a common idempotency key or external id. */
  predicate SameOperation(db: Db, i: int, j: int) {
    && 0 <= i < |db.ledger| && 0 <= j < |db.ledger|
    && db.ledger[i].transactionId in db.wagers && db.ledger[j].transactionId in db.wagers
    && var a, b := db.wagers[db.ledger[i].transactionId].wager.terms, db.wagers[db.ledger[j].transactionId].wager.terms;
       && a.kind.IsExternal() && b.kind.IsExternal()
       && (IdempotencyKey(a) == IdempotencyKey(b) || ExternalKey(a) == ExternalKey(b))
  }
}
