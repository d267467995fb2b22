/**
 Queue messages end to end: any number of consumers, redeliveries, crashes between any two
 steps, and HTTP calls and retries in between (internal/infrastructure/sqs/consumer.go,
 wager_handler.go). A message leaves the source queue only when its command is recorded and
 its inbox row completed, or a copy is in the dead-letter queue.
 */
module Delivery {
  import opened Basics
  import opened Wagers
  import opened Engine
  import opened EngineInvariant
  import R = EngineRuns
  import opened EngineSafety
  import opened Idempotency

  /** A message in the source queue; `id` is the transport's message id. */
  datatype Envelope = Envelope(id: string, body: string)

  /** What a consumer is doing with the message it received. */
  datatype Pc =
    | Idle
    | Received(e: Envelope)
    | Handled(e: Envelope)   // Handle returned without error
    | Poison(e: Envelope)   // Handle returned a permanent error
    | Copied(e: Envelope)    // the dead-letter queue accepted a copy

  /**
   `decoder` holds the bodies that parse and come from an allowed provider. SHA-256 is taken
   to be injective, so the hash of a decoded message is its body.
   */
  datatype System = System(
    world: R.World, decoder: map<string, Message>,
    sent: set<Envelope>, queue: set<Envelope>, dlq: set<Envelope>, consumers: map<nat, Pc>)

  datatype Step =
    | Engine(action: R.Action)                 // HTTP calls, retries, wallet creation, time
    | Send(e: Envelope)
    | Receive(k: nat, e: Envelope)
    | HandleOne(k: nat, id: Uuid, createdAt: Time, found: Option<Wager>, x: Context, at: Time)
    | Copy(k: nat)
    | Delete(k: nat)
    | Crash(k: nat)                            // also a transient error, reported before or after the commit

  function PcOf(s: System, k: nat): Pc { if k in s.consumers then s.consumers[k] else Idle }

  predicate Readable(s: System, e: Envelope) { !Blank(e.id) && e.body in s.decoder }

  predicate Enabled(s: System, step: Step) {
    match step
    case Engine(a) => !a.Deliver? && R.Enabled(s.world, a)
    case Send(_) => true
    case Receive(k, e) => PcOf(s, k).Idle? && e in s.queue
    case HandleOne(k, id, createdAt, found, x, at) =>
      && PcOf(s, k).Received?
      && (Readable(s, PcOf(s, k).e) ==>
            R.Enabled(s.world, R.Deliver(s.decoder[PcOf(s, k).e.body], id, createdAt, found, x, at)))
    case Copy(k) => PcOf(s, k).Poison?
    case Delete(k) => PcOf(s, k).Handled? || PcOf(s, k).Copied?
    case Crash(_) => true
  }

  function Goto(s: System, k: nat, pc: Pc): System { s.(consumers := s.consumers[k := pc]) }

  function Next(s: System, step: Step): System {
    if !Enabled(s, step) then s else
    match step
    case Engine(a) => s.(world := R.Next(s.world, a))
    case Send(e) => s.(sent := s.sent + {e}, queue := s.queue + {e})
    case Receive(k, e) => Goto(s, k, Received(e))
    case HandleOne(k, id, createdAt, found, x, at) =>
      var e := PcOf(s, k).e;
      if !Readable(s, e) then Goto(s, k, Poison(e)) else
        var m := s.decoder[e.body];
        Goto(s.(world := R.Next(s.world, R.Deliver(m, id, createdAt, found, x, at))), k,
             if Handle(s.world.db, m, id, createdAt, found, x, at).Ok? then Handled(e) else Poison(e))
    case Copy(k) => Goto(s.(dlq := s.dlq + {PcOf(s, k).e}), k, Copied(PcOf(s, k).e))
    case Delete(k) => Goto(s.(queue := s.queue - {PcOf(s, k).e}), k, Idle)
    case Crash(k) => Goto(s, k, Idle)
  }

  // ----- the invariant -----

  ghost predicate Recorded(db: Db, c: Command) {
    exists known :: Records(db, c, known)
  }

  /** The message is completed in the inbox and its command is recorded as a transaction. */
  ghost predicate Effective(db: Db, m: Message) {
    && m.id in db.inbox && db.inbox[m.id].hash == m.hash && db.inbox[m.id].completedAt.Some?
    && Recorded(db, m.command)
  }

  predicate DecoderOk(decoder: map<string, Message>) {
    forall b :: b in decoder ==> decoder[b].hash == b
  }

  /** Every inbox row belongs to a decoded message that took effect. */
  ghost predicate InboxEffective(db: Db, decoder: map<string, Message>) {
    forall i :: i in db.inbox ==>
      db.inbox[i].hash in decoder && decoder[db.inbox[i].hash].id == i && Effective(db, decoder[db.inbox[i].hash])
  }

  ghost predicate Took(s: System, e: Envelope) {
    Readable(s, e) && Effective(s.world.db, s.decoder[e.body])
  }

  ghost predicate ConsumerOk(s: System, pc: Pc) {
    && (pc.Handled? ==> Took(s, pc.e))
    && (pc.Copied? ==> pc.e in s.dlq)
  }

  /** No message is lost: it is still queued, or it took effect, or it was dead-lettered. */
  ghost predicate NothingLost(s: System) {
    forall e :: e in s.sent ==> e in s.queue || e in s.dlq || Took(s, e)
  }

  ghost predicate SystemInv(s: System) {
    && WorldInv(s.world) && DecoderOk(s.decoder) && s.queue <= s.sent
    && InboxEffective(s.world.db, s.decoder) && NothingLost(s)
    && forall k :: k in s.consumers ==> ConsumerOk(s, s.consumers[k])
  }

  // ----- what a successful Handle leaves -----

  lemma EffectivePersists(db: Db, d: Db, m: Message)
    requires Effective(db, m) && Extends(db, d)
    ensures Effective(d, m)
  {
    var known :| Records(db, m.command, known);
    RecordsPersist(db, d, m.command, known);
  }

  lemma HandledIsEffective(s: R.World, decoder: map<string, Message>, m: Message, id: Uuid, createdAt: Time,
                           found: Option<Wager>, x: Context, at: Time)
    requires WorldInv(s) && InboxEffective(s.db, decoder)
    requires m.hash in decoder && decoder[m.hash] == m
    requires R.FreshCommand(s, m.command, id, createdAt, found, x) && Handle(s.db, m, id, createdAt, found, x, at).Ok?
    ensures Effective(Handle(s.db, m, id, createdAt, found, x, at).value, m)
  {
    hide Process, Records, Complete, ExternalIndexOk, KeyIndexOk, RowsOk;
    if Register(s.db, m) == Ok(false) {
      var y := x.(metadata := Metadata(m.id, m.id));
      MetadataIsFree(s, m.command, id, createdAt, found, x, y.metadata);
      var done := Process(s.db, m.command, id, createdAt, found, y);
      AnsweredIsRecorded(s, m.command, id, createdAt, found, y);
      CompletedIsRecorded(done.value.db, m, at);
    }
  }

  lemma CompletedIsRecorded(db: Db, m: Message, at: Time)
    requires Recorded(db, m.command)
    ensures Effective(Complete(db, m, at), m)
  {
    var known :| Records(db, m.command, known);
    assert Records(Complete(db, m, at), m.command, known);
  }
}
