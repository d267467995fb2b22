/**
 One poll of the queue consumer, with its messages answered by the engine, is a run of the
 delivery system: what PollOnce does to the two queues is what those steps do, so everything
 proved about the delivery system holds of the messages of the poll.
 */
module ConsumerRuns {
  import opened Basics
  import opened Wagers
  import opened Engine
  import R = EngineRuns
  import C = Consumer
  import opened Delivery
  import opened DeliverySafety

  /** The handler may fail for want of the database, before its commit or when it reports it. */
  datatype Outage = Calm | BeforeCommit | AfterCommit

  /** What the environment supplies for the turn of one message; `traffic` is served in the meantime. */
  datatype Visit = Visit(
    traffic: seq<R.Action>, stopped: bool, outage: Outage,
    id: Uuid, createdAt: Time, found: Option<Wager>, x: Context, at: Time,
    copied: bool, deleted: bool)

  function EnvelopeOf(m: C.Incoming): Envelope { Envelope(m.id, m.body) }

  function Envelopes(ms: set<C.Incoming>): set<Envelope> { set m | m in ms :: EnvelopeOf(m) }

  function HandleStep(k: nat, v: Visit): Step { HandleOne(k, v.id, v.createdAt, v.found, v.x, v.at) }

  /** The consumer has the message in its hands, and the traffic so far has been served. */
  function Before(s: System, k: nat, m: C.Incoming, v: Visit): System {
    Goto(s.(world := R.Run(s.world, v.traffic)), k, Received(EnvelopeOf(m)))
  }

  /** What Handle returns for the message. */
  function AnswerTo(s: System, e: Envelope, v: Visit): C.Answer {
    if !v.outage.Calm? then C.Transient
    else if Readable(s, e) && Handle(s.world.db, s.decoder[e.body], v.id, v.createdAt, v.found, v.x, v.at).Ok? then C.Success
    else C.Permanent
  }

  function TurnOf(s: System, k: nat, m: C.Incoming, v: Visit): C.Turn {
    C.Turn(v.stopped, AnswerTo(Before(s, k, m, v), EnvelopeOf(m), v), v.copied, v.deleted)
  }

  /** The system after processMessage: handle, then delete, hand back, or copy and delete. */
  function AfterTurn(s: System, k: nat, m: C.Incoming, v: Visit): System {
    var before := Before(s, k, m, v);
    var handled := Next(before, HandleStep(k, v));
    match AnswerTo(before, EnvelopeOf(m), v)
    case Transient => Next(if v.outage.AfterCommit? then handled else before, Crash(k))
    case Success => Next(handled, if v.deleted then Delete(k) else Crash(k))
    case Permanent =>
      if !v.copied then Next(handled, Crash(k))
      else Next(Next(handled, Copy(k)), if v.deleted then Delete(k) else Crash(k))
  }

  /** The turns of a batch, each answered by the engine in the state the turns before it have left. */
  function Turns(s: System, k: nat, batch: seq<C.Incoming>, visits: seq<Visit>): (turns: seq<C.Turn>)
    requires |batch| <= |visits|
    ensures |turns| == |batch|
    decreases |batch|
  {
    if batch == [] then []
    else [TurnOf(s, k, batch[0], visits[0])] + Turns(AfterTurn(s, k, batch[0], visits[0]), k, batch[1..], visits[1..])
  }

  /** Traffic and identifiers of the first `n` turns are what the environment guarantees. */
  predicate Supplied(s: System, k: nat, batch: seq<C.Incoming>, visits: seq<Visit>, n: nat)
    requires n <= |batch| <= |visits|
    decreases n
  {
    n == 0 ||
    (&& R.Legal(s.world, visits[0].traffic) && (forall a :: a in visits[0].traffic ==> !a.Deliver?)
     && Enabled(Before(s, k, batch[0], visits[0]), HandleStep(k, visits[0]))
     && Supplied(AfterTurn(s, k, batch[0], visits[0]), k, batch[1..], visits[1..], n - 1))
  }

  // ----- legal runs of the delivery system -----

  predicate Legal(s: System, steps: seq<Step>) {
    steps == [] || (Legal(s, steps[..|steps| - 1]) && Enabled(Run(s, steps[..|steps| - 1]), steps[|steps| - 1]))
  }

  lemma OneMore(s: System, steps: seq<Step>, step: Step)
    requires Legal(s, steps) && Enabled(Run(s, steps), step)
    ensures Legal(s, steps + [step]) && Run(s, steps + [step]) == Next(Run(s, steps), step)
  {
    assert (steps + [step])[..|steps|] == steps;
  }

  lemma {:induction false} Joined(s: System, a: seq<Step>, b: seq<Step>)
    requires Legal(s, a) && Legal(Run(s, a), b)
    ensures Legal(s, a + b) && Run(s, a + b) == Run(Run(s, a), b)
  {
    if b == [] {
      assert a + b == a;
    } else {
      var init, last := b[..|b| - 1], b[|b| - 1];
      Joined(s, a, init);
      OneMore(s, a + init, last);
      assert a + b == (a + init) + [last];
    }
  }

  lemma {:induction false} TrafficIsRun(s: System, traffic: seq<R.Action>) returns (steps: seq<Step>)
    requires R.Legal(s.world, traffic) && forall a :: a in traffic ==> !a.Deliver?
    ensures Legal(s, steps) && Run(s, steps) == s.(world := R.Run(s.world, traffic))
  {
    steps := [];
    if traffic != [] {
      var init, last := traffic[..|traffic| - 1], traffic[|traffic| - 1];
      var early := TrafficIsRun(s, init);
      assert last in traffic;
      OneMore(s, early, Engine(last));
      steps := early + [Engine(last)];
    }
  }

  // ----- one turn -----

  lemma BeforeIsRun(s: System, k: nat, m: C.Incoming, v: Visit) returns (steps: seq<Step>)
    requires PcOf(s, k).Idle? && EnvelopeOf(m) in s.queue
    requires R.Legal(s.world, v.traffic) && forall a :: a in v.traffic ==> !a.Deliver?
    ensures Legal(s, steps) && Run(s, steps) == Before(s, k, m, v)
  {
    var early := TrafficIsRun(s, v.traffic);
    OneMore(s, early, Receive(k, EnvelopeOf(m)));
    steps := early + [Receive(k, EnvelopeOf(m))];
  }

  /** What handling leaves in the hands of the consumer; the queues are as they were. */
  lemma HandledPc(s: System, k: nat, e: Envelope, v: Visit)
    requires PcOf(s, k) == Received(e) && Enabled(s, HandleStep(k, v)) && v.outage.Calm?
    ensures var h := Next(s, HandleStep(k, v));
            && h.queue == s.queue && h.dlq == s.dlq && h.sent == s.sent
            && PcOf(h, k) == (if AnswerTo(s, e, v).Success? then Handled(e) else Poison(e))
  {
  }

  lemma TransientTurn(s: System, k: nat, m: C.Incoming, v: Visit, early: seq<Step>) returns (steps: seq<Step>)
    requires Legal(s, early) && Run(s, early) == Before(s, k, m, v) && !v.outage.Calm?
    requires Enabled(Before(s, k, m, v), HandleStep(k, v))
    ensures Legal(s, steps) && Run(s, steps) == AfterTurn(s, k, m, v)
  {
    steps := early;
    if v.outage.AfterCommit? {
      OneMore(s, steps, HandleStep(k, v));
      steps := steps + [HandleStep(k, v)];
    }
    OneMore(s, steps, Crash(k));
    steps := steps + [Crash(k)];
  }

  /** After handling: delete, hand back, or copy and then delete. */
  lemma EndOfTurn(s: System, k: nat, m: C.Incoming, v: Visit, early: seq<Step>) returns (steps: seq<Step>)
    requires v.outage.Calm? && Enabled(Before(s, k, m, v), HandleStep(k, v))
    requires Legal(s, early) && Run(s, early) == Next(Before(s, k, m, v), HandleStep(k, v))
    ensures Legal(s, steps) && Run(s, steps) == AfterTurn(s, k, m, v)
  {
    var before, e := Before(s, k, m, v), EnvelopeOf(m);
    HandledPc(before, k, e, v);
    steps := early;
    if AnswerTo(before, e, v).Permanent? && v.copied {
      OneMore(s, steps, Copy(k));
      steps := steps + [Copy(k)];
    }
    var last := if v.deleted && (AnswerTo(before, e, v).Success? || v.copied) then Delete(k) else Crash(k);
    OneMore(s, steps, last);
    steps := steps + [last];
  }

  lemma AnsweredTurn(s: System, k: nat, m: C.Incoming, v: Visit, early: seq<Step>) returns (steps: seq<Step>)
    requires Legal(s, early) && Run(s, early) == Before(s, k, m, v) && v.outage.Calm?
    requires Enabled(Before(s, k, m, v), HandleStep(k, v))
    ensures Legal(s, steps) && Run(s, steps) == AfterTurn(s, k, m, v)
  {
    OneMore(s, early, HandleStep(k, v));
    steps := EndOfTurn(s, k, m, v, early + [HandleStep(k, v)]);
  }

  /** The queues of `s'` are those of `s`, without the message or with its copy, and the consumer is idle. */
  predicate Leads(s: System, s': System, k: nat, e: Envelope, left: bool, copied: bool) {
    && PcOf(s', k).Idle?
    && s'.queue == (if left then s.queue - {e} else s.queue)
    && s'.dlq == (if copied then s.dlq + {e} else s.dlq)
  }

  lemma CrashEffect(s: System, k: nat, e: Envelope)
    ensures Leads(s, Next(s, Crash(k)), k, e, false, false)
  {
  }

  lemma DeleteEffect(s: System, k: nat, e: Envelope)
    requires PcOf(s, k) == Handled(e) || PcOf(s, k) == Copied(e)
    ensures Leads(s, Next(s, Delete(k)), k, e, true, false)
  {
  }

  lemma CopyEffect(s: System, k: nat, e: Envelope)
    requires PcOf(s, k) == Poison(e)
    ensures Next(s, Copy(k)) == Goto(s.(dlq := s.dlq + {e}), k, Copied(e))
  {
  }

  lemma HandleKeepsQueues(s: System, step: Step)
    requires step.HandleOne? && Enabled(s, step)
    ensures Next(s, step).queue == s.queue && Next(s, step).dlq == s.dlq
  {
  }

  lemma TransientEffect(s: System, k: nat, m: C.Incoming, v: Visit)
    requires Enabled(Before(s, k, m, v), HandleStep(k, v)) && !v.outage.Calm?
    ensures Leads(s, AfterTurn(s, k, m, v), k, EnvelopeOf(m), false, false)
  {
    var before := Before(s, k, m, v);
    HandleKeepsQueues(before, HandleStep(k, v));
    CrashEffect(if v.outage.AfterCommit? then Next(before, HandleStep(k, v)) else before, k, EnvelopeOf(m));
  }

  lemma AnsweredEffect(s: System, k: nat, m: C.Incoming, v: Visit)
    requires Enabled(Before(s, k, m, v), HandleStep(k, v)) && v.outage.Calm?
    ensures var t := TurnOf(s, k, m, v);
            Leads(s, AfterTurn(s, k, m, v), k, EnvelopeOf(m), C.Leaves(t), C.DeadLetters(t))
  {
    var before, e := Before(s, k, m, v), EnvelopeOf(m);
    var handled := Next(before, HandleStep(k, v));
    HandledPc(before, k, e, v);
    if AnswerTo(before, e, v).Success? {
      if v.deleted { DeleteEffect(handled, k, e); } else { CrashEffect(handled, k, e); }
    } else if !v.copied {
      CrashEffect(handled, k, e);
    } else {
      CopyEffect(handled, k, e);
      var copied := Next(handled, Copy(k));
      if v.deleted { DeleteEffect(copied, k, e); } else { CrashEffect(copied, k, e); }
    }
  }

  /** What a turn leaves: the queues as the consumer's own bookkeeping has them, and an idle consumer. */
  lemma TurnEffect(s: System, k: nat, m: C.Incoming, v: Visit)
    requires Enabled(Before(s, k, m, v), HandleStep(k, v))
    ensures var t := TurnOf(s, k, m, v);
            Leads(s, AfterTurn(s, k, m, v), k, EnvelopeOf(m), C.Leaves(t), C.DeadLetters(t))
  {
    if v.outage.Calm? {
      AnsweredEffect(s, k, m, v);
    } else {
      TransientEffect(s, k, m, v);
    }
  }

  lemma TurnIsRun(s: System, k: nat, m: C.Incoming, v: Visit) returns (steps: seq<Step>)
    requires PcOf(s, k).Idle? && EnvelopeOf(m) in s.queue
    requires R.Legal(s.world, v.traffic) && forall a :: a in v.traffic ==> !a.Deliver?
    requires Enabled(Before(s, k, m, v), HandleStep(k, v))
    ensures Legal(s, steps) && Run(s, steps) == AfterTurn(s, k, m, v)
  {
    var early := BeforeIsRun(s, k, m, v);
    if v.outage.Calm? {
      steps := AnsweredTurn(s, k, m, v, early);
    } else {
      steps := TransientTurn(s, k, m, v, early);
    }
  }

  // ----- the batch -----

  /** The batch is in the queue, each message once. */
  predicate Waiting(s: System, batch: seq<C.Incoming>) {
    && (forall i :: 0 <= i < |batch| ==> EnvelopeOf(batch[i]) in s.queue)
    && (forall i, j :: 0 <= i < j < |batch| ==> EnvelopeOf(batch[i]) != EnvelopeOf(batch[j]))
  }

  /** Taking the first message out of the sets of a poll. */
  lemma FirstTurn(batch: seq<C.Incoming>, turns: seq<C.Turn>, n: nat)
    requires 0 < n <= |batch| <= |turns|
    ensures Envelopes(C.Leaving(batch, turns, n)) ==
            (if C.Leaves(turns[0]) then {EnvelopeOf(batch[0])} else {}) + Envelopes(C.Leaving(batch[1..], turns[1..], n - 1))
    ensures Envelopes(C.Dead(batch, turns, n)) ==
            (if C.DeadLetters(turns[0]) then {EnvelopeOf(batch[0])} else {}) + Envelopes(C.Dead(batch[1..], turns[1..], n - 1))
  {
    ShiftLeaving(batch, turns, n);
    ShiftDead(batch, turns, n);
  }

  lemma ShiftLeaving(batch: seq<C.Incoming>, turns: seq<C.Turn>, n: nat)
    requires 0 < n <= |batch| <= |turns|
    ensures C.Leaving(batch, turns, n) == (if C.Leaves(turns[0]) then {batch[0]} else {}) + C.Leaving(batch[1..], turns[1..], n - 1)
  {
    forall m | m in C.Leaving(batch, turns, n)
      ensures m in (if C.Leaves(turns[0]) then {batch[0]} else {}) + C.Leaving(batch[1..], turns[1..], n - 1)
    {
      var i :| 0 <= i < n && C.Leaves(turns[i]) && batch[i] == m;
      if i > 0 {
        assert C.Leaves(turns[1..][i - 1]) && batch[1..][i - 1] == m;
      }
    }
    forall m | m in C.Leaving(batch[1..], turns[1..], n - 1)
      ensures m in C.Leaving(batch, turns, n)
    {
      var i :| 0 <= i < n - 1 && C.Leaves(turns[1..][i]) && batch[1..][i] == m;
      assert C.Leaves(turns[i + 1]) && batch[i + 1] == m;
    }
  }

  lemma ShiftDead(batch: seq<C.Incoming>, turns: seq<C.Turn>, n: nat)
    requires 0 < n <= |batch| <= |turns|
    ensures C.Dead(batch, turns, n) == (if C.DeadLetters(turns[0]) then {batch[0]} else {}) + C.Dead(batch[1..], turns[1..], n - 1)
  {
    forall m | m in C.Dead(batch, turns, n)
      ensures m in (if C.DeadLetters(turns[0]) then {batch[0]} else {}) + C.Dead(batch[1..], turns[1..], n - 1)
    {
      var i :| 0 <= i < n && C.DeadLetters(turns[i]) && batch[i] == m;
      if i > 0 {
        assert C.DeadLetters(turns[1..][i - 1]) && batch[1..][i - 1] == m;
      }
    }
    forall m | m in C.Dead(batch[1..], turns[1..], n - 1)
      ensures m in C.Dead(batch, turns, n)
    {
      var i :| 0 <= i < n - 1 && C.DeadLetters(turns[1..][i]) && batch[1..][i] == m;
      assert C.DeadLetters(turns[i + 1]) && batch[i + 1] == m;
    }
  }

  /** The report of a poll without its first turn. */
  lemma ReportsRest(turns: seq<C.Turn>, size: nat, n: nat, failed: bool)
    requires size <= |turns| && C.Reports(turns, size, n, failed) && n > 0 && !(failed && n == 1)
    ensures C.Leaves(turns[0]) && C.Reports(turns[1..], size - 1, n - 1, failed)
  {
  }

  lemma StillWaiting(s: System, k: nat, batch: seq<C.Incoming>, v: Visit)
    requires batch != [] && Waiting(s, batch) && Enabled(Before(s, k, batch[0], v), HandleStep(k, v))
    ensures Waiting(AfterTurn(s, k, batch[0], v), batch[1..])
  {
    TurnEffect(s, k, batch[0], v);
  }

  /** The first `n` turns lead from `s` to `s'` in both queues. */
  predicate Polled(s: System, s': System, batch: seq<C.Incoming>, turns: seq<C.Turn>, n: nat)
    requires n <= |batch| <= |turns|
  {
    && s'.queue == s.queue - Envelopes(C.Leaving(batch, turns, n))
    && s'.dlq == s.dlq + Envelopes(C.Dead(batch, turns, n))
  }

  lemma NoTurns(s: System, batch: seq<C.Incoming>, turns: seq<C.Turn>)
    requires |batch| <= |turns|
    ensures Polled(s, s, batch, turns, 0)
  {
    assert C.Leaving(batch, turns, 0) == {} && C.Dead(batch, turns, 0) == {};
  }

  /** The queues after the first turn and the rest. */
  lemma FirstAndRest(s: System, k: nat, batch: seq<C.Incoming>, v: Visit, turns: seq<C.Turn>, s'': System, n: nat)
    requires 0 < n <= |batch| <= |turns| && turns[0] == TurnOf(s, k, batch[0], v)
    requires Enabled(Before(s, k, batch[0], v), HandleStep(k, v))
    requires Polled(AfterTurn(s, k, batch[0], v), s'', batch[1..], turns[1..], n - 1)
    ensures Polled(s, s'', batch, turns, n)
  {
    TurnEffect(s, k, batch[0], v);
    FirstTurn(batch, turns, n);
  }

  /**
   A poll that reports n and failed is a legal run of the delivery system, which leaves in
   both queues exactly what Consumer.Client.PollOnce leaves in them.
   */
  lemma {:induction false} PollIsRun(s: System, k: nat, batch: seq<C.Incoming>, visits: seq<Visit>, n: nat, failed: bool)
    returns (steps: seq<Step>)
    requires PcOf(s, k).Idle? && Waiting(s, batch) && |batch| <= |visits|
    requires C.Reports(Turns(s, k, batch, visits), |batch|, n, failed) && Supplied(s, k, batch, visits, n)
    ensures Legal(s, steps) && Polled(s, Run(s, steps), batch, Turns(s, k, batch, visits), n)
    decreases n, 0
  {
    var turns := Turns(s, k, batch, visits);
    if n == 0 {
      steps := [];
      NoTurns(s, batch, turns);
    } else {
      TurnsRest(s, k, batch, visits);
      steps := TurnIsRun(s, k, batch[0], visits[0]);
      if failed && n == 1 {
        NoTurns(AfterTurn(s, k, batch[0], visits[0]), batch[1..], turns[1..]);
      } else {
        var rest := RestIsRun(s, k, batch, visits, n, failed);
        Joined(s, steps, rest);
        steps := steps + rest;
      }
      FirstAndRest(s, k, batch, visits[0], turns, Run(s, steps), n);
    }
  }

  lemma RestIsRun(s: System, k: nat, batch: seq<C.Incoming>, visits: seq<Visit>, n: nat, failed: bool)
    returns (steps: seq<Step>)
    requires 0 < n <= |batch| <= |visits| && !(failed && n == 1) && Waiting(s, batch)
    requires C.Reports(Turns(s, k, batch, visits), |batch|, n, failed) && Supplied(s, k, batch, visits, n)
    ensures var s' := AfterTurn(s, k, batch[0], visits[0]);
            Legal(s', steps) && Polled(s', Run(s', steps), batch[1..], Turns(s', k, batch[1..], visits[1..]), n - 1)
    decreases n - 1, 1
  {
    hide *;
    ReadyForRest(s, k, batch, visits, n, failed);
    steps := PollIsRun(AfterTurn(s, k, batch[0], visits[0]), k, batch[1..], visits[1..], n - 1, failed);
  }

  /** What the rest of the poll starts from. */
  lemma ReadyForRest(s: System, k: nat, batch: seq<C.Incoming>, visits: seq<Visit>, n: nat, failed: bool)
    requires 0 < n <= |batch| <= |visits| && !(failed && n == 1) && Waiting(s, batch)
    requires C.Reports(Turns(s, k, batch, visits), |batch|, n, failed) && Supplied(s, k, batch, visits, n)
    ensures var s' := AfterTurn(s, k, batch[0], visits[0]);
            && PcOf(s', k).Idle? && Waiting(s', batch[1..]) && Supplied(s', k, batch[1..], visits[1..], n - 1)
            && C.Reports(Turns(s', k, batch[1..], visits[1..]), |batch| - 1, n - 1, failed)
  {
    TurnsRest(s, k, batch, visits);
    ReportsRest(Turns(s, k, batch, visits), |batch|, n, failed);
    TurnEffect(s, k, batch[0], visits[0]);
    StillWaiting(s, k, batch, visits[0]);
  }

  lemma TurnsRest(s: System, k: nat, batch: seq<C.Incoming>, visits: seq<Visit>)
    requires 0 < |batch| <= |visits|
    ensures Turns(s, k, batch, visits)[0] == TurnOf(s, k, batch[0], visits[0])
    ensures Turns(s, k, batch, visits)[1..] == Turns(AfterTurn(s, k, batch[0], visits[0]), k, batch[1..], visits[1..])
  {
  }

  /**
   Whatever leaves the source queue in a poll took effect or has a copy in the dead-letter
   queue, and the system invariant still holds afterwards.
   */
  lemma PolledMessagesAreSafe(s: System, k: nat, batch: seq<C.Incoming>, visits: seq<Visit>, n: nat, failed: bool)
    returns (steps: seq<Step>)
    requires SystemInv(s) && PcOf(s, k).Idle? && Waiting(s, batch) && |batch| <= |visits|
    requires C.Reports(Turns(s, k, batch, visits), |batch|, n, failed) && Supplied(s, k, batch, visits, n)
    ensures Legal(s, steps) && SystemInv(Run(s, steps))
    ensures forall m :: m in C.Leaving(batch, Turns(s, k, batch, visits), n) ==>
              EnvelopeOf(m) in Run(s, steps).dlq || Took(Run(s, steps), EnvelopeOf(m))
  {
    steps := PollIsRun(s, k, batch, visits, n, failed);
    RunKeepsInv(s, steps);
    SentGrows(s, steps);
    forall m | m in C.Leaving(batch, Turns(s, k, batch, visits), n)
      ensures EnvelopeOf(m) in Run(s, steps).sent && EnvelopeOf(m) !in Run(s, steps).queue
    {
      var i :| 0 <= i < n && batch[i] == m;
      assert EnvelopeOf(m) in Envelopes(C.Leaving(batch, Turns(s, k, batch, visits), n));
    }
  }

  lemma {:induction false} SentGrows(s: System, steps: seq<Step>)
    ensures s.sent <= Run(s, steps).sent
  {
    if steps != [] {
      SentGrows(s, steps[..|steps| - 1]);
    }
  }
}
