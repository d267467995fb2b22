/** What every run of the outbox protocol guarantees. */
module OutboxSafety {
  import opened Basics
  import opened Outbox
  import Backoff

  /** A ticket stays good when rows it does not name change, the clock moves on, or a new row appears. */
  lemma TicketFrame(s: System, s': System, w: Worker, t: Ticket)
    requires TicketOk(s, w, t) && s.time <= s'.time && t.event in s'.rows && s'.rows[t.event] == s.rows[t.event]
    ensures TicketOk(s', w, t)
  {
  }

  /** The claimer's ticket is good; whoever held the event before has lost it after its lease. */
  lemma ClaimKeepsWorker(s: System, w: Worker, e: Uuid, v: Worker)
    requires WorkersOk(s) && Enabled(s, ClaimOne(w, e)) && v in s.workers
    ensures var s' := Next(s, ClaimOne(w, e)); WorkerOk(s', v, s'.workers[v])
  {
    assert WorkerOk(s, v, s.workers[v]) && WorkerOk(s, w, s.workers[w]);
    var s', t := Next(s, ClaimOne(w, e)), TicketOf(s.workers[v]);
    if v != w && t.Some? && t.value.event != e {
      TicketFrame(s, s', v, t.value);
    }
  }

  /** A write touches a row only for its holder, so the others' tickets are as good as before. */
  lemma WriteKeepsWorker(s: System, w: Worker, v: Worker)
    requires WorkersOk(s) && Enabled(s, Write(w)) && v in s.workers
    ensures var s' := Next(s, Write(w)); WorkerOk(s', v, s'.workers[v])
  {
    assert WorkerOk(s, v, s.workers[v]) && WorkerOk(s, w, s.workers[w]);
    var s', t := Next(s, Write(w)), TicketOf(s.workers[v]);
    if v != w && t.Some? && t.value.event != s.workers[w].ticket.event {
      TicketFrame(s, s', v, t.value);
    }
  }

  /** Every other step leaves the rows that tickets name alone. */
  lemma OtherKeepsWorker(s: System, step: Step, v: Worker)
    requires WorkersOk(s) && Enabled(s, step) && !step.ClaimOne? && !step.Write?
    requires v in Next(s, step).workers
    ensures var s' := Next(s, step); WorkerOk(s', v, s'.workers[v])
  {
    var s' := Next(s, step);
    if v in s.workers {
      assert WorkerOk(s, v, s.workers[v]);
      if TicketOf(s.workers[v]).Some? {
        TicketFrame(s, s', v, TicketOf(s.workers[v]).value);
      }
    }
  }

  lemma WorkersKept(s: System, step: Step)
    requires WorkersOk(s) && Enabled(s, step)
    ensures WorkersOk(Next(s, step))
  {
    forall v | v in Next(s, step).workers
      ensures WorkerOk(Next(s, step), v, Next(s, step).workers[v])
    {
      if step.ClaimOne? {
        ClaimKeepsWorker(s, step.w, step.event, v);
      } else if step.Write? {
        WriteKeepsWorker(s, step.w, v);
      } else {
        OtherKeepsWorker(s, step, v);
      }
    }
  }

  lemma RowsKept(s: System, step: Step)
    requires WorkersOk(s) && RowsOk(s) && Enabled(s, step)
    ensures RowsOk(Next(s, step))
  {
    if step.ClaimOne? || step.Write? {
      assert WorkerOk(s, step.w, s.workers[step.w]);
    }
  }

  lemma LogKept(s: System, step: Step)
    requires WorkersOk(s) && LogOk(s) && TicketsOk(s) && Enabled(s, step)
    ensures LogOk(Next(s, step))
  {
    if step.Publish? {
      assert WorkerOk(s, step.w, s.workers[step.w]);
    }
  }

  lemma TicketsKept(s: System, step: Step)
    requires WorkersOk(s) && LogOk(s) && TicketsOk(s) && Enabled(s, step)
    ensures TicketsOk(Next(s, step))
  {
    hide *;
    if step.Publish? {
      PublishKeepsTickets(s, step.w, step.delivered, step.ok);
    } else if step.ClaimOne? {
      ClaimKeepsTickets(s, step.w, step.event);
    } else {
      OtherKeepsTickets(s, step);
    }
  }

  /** A step that claims and publishes nothing gives nobody another ticket. */
  lemma OtherKeepsTicket(s: System, step: Step, w: Worker)
    requires Enabled(s, step) && !step.Publish? && !step.ClaimOne?
    requires w in Next(s, step).workers && TicketOf(Next(s, step).workers[w]).Some?
    ensures Next(s, step).log == s.log && w in s.workers
    ensures var pc, pc' := s.workers[w], Next(s, step).workers[w];
            && TicketOf(pc) == TicketOf(pc') && (pc'.Holding? ==> pc.Holding?)
            && (pc'.Sent? || pc'.Stamped? ==> pc.Sent? || pc.Stamped?)
  {
  }

  lemma OtherKeepsTickets(s: System, step: Step)
    requires TicketsOk(s) && Enabled(s, step) && !step.Publish? && !step.ClaimOne?
    ensures TicketsOk(Next(s, step))
  {
    var s' := Next(s, step);
    forall w | w in s'.workers && TicketOf(s'.workers[w]).Some?
      ensures s'.log == s.log && w in s.workers && TicketOf(s.workers[w]) == TicketOf(s'.workers[w])
      ensures s'.workers[w].Holding? ==> s.workers[w].Holding?
      ensures s'.workers[w].Sent? || s'.workers[w].Stamped? ==> s.workers[w].Sent? || s.workers[w].Stamped?
    {
      OtherKeepsTicket(s, step, w);
    }
    forall w, v | w in s'.workers && v in s'.workers && w != v
      ensures !SameTicket(s'.workers[w], s'.workers[v])
    {
      assert w in s.workers && v in s.workers ==> !SameTicket(s.workers[w], s.workers[v]);
    }
  }

  /** A claim gets a number that nobody has used or holds. */
  lemma ClaimKeepsTickets(s: System, w: Worker, e: Uuid)
    requires WorkersOk(s) && LogOk(s) && TicketsOk(s) && Enabled(s, ClaimOne(w, e))
    ensures TicketsOk(Next(s, ClaimOne(w, e)))
  {
    forall v | v in s.workers
      ensures TicketOf(s.workers[v]).Some? && TicketOf(s.workers[v]).value.event == e ==>
                TicketOf(s.workers[v]).value.number <= s.rows[e].attempts
    {
      assert WorkerOk(s, v, s.workers[v]);
    }
  }

  lemma PublishKeepsTickets(s: System, w: Worker, delivered: bool, ok: bool)
    requires TicketsOk(s) && Enabled(s, Publish(w, delivered, ok))
    ensures TicketsOk(Next(s, Publish(w, delivered, ok)))
  {
    PublishKeepsSenders(s, w, delivered, ok);
    PublishKeepsHolders(s, w, delivered, ok);
    var s' := Next(s, Publish(w, delivered, ok));
    assert forall v :: v in s.workers ==> TicketOf(s'.workers[v]) == TicketOf(s.workers[v]);
  }

  lemma PublishKeepsSenders(s: System, w: Worker, delivered: bool, ok: bool)
    requires SendersOk(s) && Enabled(s, Publish(w, delivered, ok))
    ensures SendersOk(Next(s, Publish(w, delivered, ok)))
  {
    var s' := Next(s, Publish(w, delivered, ok));
    var t := s.workers[w].ticket;
    forall v | v in s'.workers && (s'.workers[v].Sent? || s'.workers[v].Stamped?)
      ensures PublishedOk(s'.log, s'.workers[v].ticket.event, s'.workers[v].ticket.number)
    {
      if v == w {
        assert s'.log[|s.log|] == Publication(t.event, t.number, ok);
      } else {
        var u := s.workers[v].ticket;
        var i :| 0 <= i < |s.log| && s.log[i].event == u.event && s.log[i].number == u.number && s.log[i].ok;
        assert s'.log[i] == s.log[i];
      }
    }
  }

  lemma PublishKeepsHolders(s: System, w: Worker, delivered: bool, ok: bool)
    requires HoldersOk(s) && TicketsDistinct(s) && Enabled(s, Publish(w, delivered, ok))
    ensures HoldersOk(Next(s, Publish(w, delivered, ok)))
  {
    var s' := Next(s, Publish(w, delivered, ok));
    forall v | v in s'.workers && s'.workers[v].Holding?
      ensures !Published(s'.log, s'.workers[v].ticket.event, s'.workers[v].ticket.number)
    {
      assert v != w && !SameTicket(s.workers[v], s.workers[w]);
      assert !Published(s.log, s.workers[v].ticket.event, s.workers[v].ticket.number);
    }
  }

  lemma MarksKept(s: System, step: Step)
    requires TicketsOk(s) && MarksOk(s) && Enabled(s, step)
    ensures MarksOk(Next(s, step))
  {
    var s' := Next(s, step);
    forall e | e in s'.rows && s'.rows[e].publishedAt.Some?
      ensures exists i :: 0 <= i < |s'.log| && s'.log[i].event == e && s'.log[i].ok
    {
      if e in s.rows && s.rows[e].publishedAt.Some? {
        var i :| 0 <= i < |s.log| && s.log[i].event == e && s.log[i].ok;
        assert s'.log[i] == s.log[i];
      } else {
        assert PublishedOk(s.log, e, s.workers[step.w].ticket.number);
      }
    }
  }

  lemma StepKeepsInv(s: System, step: Step)
    requires Inv(s) && Enabled(s, step)
    ensures Inv(Next(s, step))
  {
    WorkersKept(s, step);
    RowsKept(s, step);
    LogKept(s, step);
    TicketsKept(s, step);
    MarksKept(s, step);
  }

  /** In every run, with any number of workers stopping anywhere, the invariant holds. */
  lemma {:induction false} RunKeepsInv(s: System, steps: seq<Step>)
    requires Inv(s) && Legal(s, steps)
    ensures Inv(Run(s, steps))
  {
    if steps != [] {
      RunKeepsInv(s, steps[..|steps| - 1]);
      StepKeepsInv(Run(s, steps[..|steps| - 1]), steps[|steps| - 1]);
    }
  }

  // ----- publications and attempts -----

  /** The attempt numbers under which the event was published. */
  function Numbers(log: seq<Publication>, e: Uuid): set<nat> {
    if log == [] then {} else
      var last := log[|log| - 1];
      Numbers(log[..|log| - 1], e) + if last.event == e then {last.number} else {}
  }

  lemma {:induction false} NumbersArePublished(log: seq<Publication>, e: Uuid, n: nat)
    requires n in Numbers(log, e)
    ensures exists i :: 0 <= i < |log| && log[i].event == e && log[i].number == n
  {
    var init, last := log[..|log| - 1], log[|log| - 1];
    if n in Numbers(init, e) {
      NumbersArePublished(init, e, n);
      var i :| 0 <= i < |init| && init[i].event == e && init[i].number == n;
      assert log[i] == init[i];
    }
  }

  function UpTo(n: nat): set<nat> { if n == 0 then {} else UpTo(n - 1) + {n} }

  lemma {:induction false} UpToSize(n: nat)
    ensures |UpTo(n)| == n && forall k :: k in UpTo(n) <==> 1 <= k <= n
  {
    if n > 0 {
      UpToSize(n - 1);
    }
  }

  lemma Subsets(a: set<nat>, b: set<nat>)
    requires a <= b
    ensures |a| <= |b|
  {
    assert b == a + (b - a);
  }

  lemma {:induction false} CountIsNumbers(log: seq<Publication>, e: Uuid)
    requires forall i, j :: 0 <= i < j < |log| ==> log[i].event != log[j].event || log[i].number != log[j].number
    ensures Count(log, e) == |Numbers(log, e)|
  {
    if log != [] {
      var init, last := log[..|log| - 1], log[|log| - 1];
      CountIsNumbers(init, e);
      if last.event == e && last.number in Numbers(init, e) {
        NumbersArePublished(init, e, last.number);
      }
    }
  }

  /** Publications of an event, successful or not, never exceed its attempts counter. */
  lemma PublicationsWithinAttempts(s: System, e: Uuid)
    requires LogOk(s)
    ensures Count(s.log, e) <= if e in s.rows then s.rows[e].attempts else 0
  {
    var n := if e in s.rows then s.rows[e].attempts else 0;
    CountIsNumbers(s.log, e);
    UpToSize(n);
    forall k | k in Numbers(s.log, e)
      ensures k in UpTo(n)
    {
      NumbersArePublished(s.log, e, k);
    }
    Subsets(Numbers(s.log, e), UpTo(n));
  }

  /**
   After another worker has claimed the event, an old worker's mark or reschedule changes no
   row; before that, its write takes effect.
   */
  lemma StaleWriteHasNoEffect(s: System, w: Worker)
    requires WorkersOk(s) && Enabled(s, Write(w))
    ensures var t := s.workers[w].ticket;
            && t.event in s.rows
            && (t.number < s.rows[t.event].attempts <==> Next(s, Write(w)).rows == s.rows)
            && (s.rows[t.event].attempts == t.number && s.workers[w].Stamped? ==>
                  Next(s, Write(w)).rows[t.event].publishedAt == Some(s.workers[w].at))
  {
    assert WorkerOk(s, w, s.workers[w]);
    var t, s' := s.workers[w].ticket, Next(s, Write(w));
    if t.number < s.rows[t.event].attempts {
      assert s'.rows == s.rows;
    } else {
      assert s'.rows[t.event].claim.None?;
    }
  }

  /** Whatever happened before, an unpublished event is claimable five minutes later at the latest. */
  lemma NothingIsStuck(s: System, e: Uuid, at: Time)
    requires RowsOk(s) && e in s.rows && s.rows[e].publishedAt.None? && at >= s.time + Backoff.OUTBOX_MAX_DELAY
    ensures Claimable(s.rows[e], at)
  {
  }

  // ----- at most once -----

  /** A successful publication is marked, or its publisher is about to mark it. */
  predicate Settled(s: System, p: Publication) {
    || (p.event in s.rows && s.rows[p.event].publishedAt.Some?)
    || (exists w :: w in s.workers && Owing(s.workers[w]) && s.workers[w].ticket.event == p.event && s.workers[w].ticket.number == p.number)
  }

  predicate Once(s: System) {
    && (forall i {:trigger s.log[i]} :: 0 <= i < |s.log| && s.log[i].ok ==> Settled(s, s.log[i]))
    && (forall i, j :: 0 <= i < j < |s.log| && s.log[i].ok && s.log[j].ok ==> s.log[i].event != s.log[j].event)
  }

  /** A worker within its lease holds the latest claim. */
  lemma InLeaseIsLatest(s: System, w: Worker)
    requires WorkersOk(s) && w in s.workers && TicketOf(s.workers[w]).Some? && s.time < TicketOf(s.workers[w]).value.until
    ensures var t := TicketOf(s.workers[w]).value;
            t.event in s.rows && t.number == s.rows[t.event].attempts && HeldBy(s.rows[t.event], w)
  {
    assert WorkerOk(s, w, s.workers[w]);
  }

  lemma FirstSuccess(s: System, w: Worker, i: nat)
    requires WorkersOk(s) && TicketsOk(s) && Once(s) && Prompt(s) && w in s.workers && s.workers[w].Holding?
    requires s.time < s.workers[w].ticket.until && i < |s.log| && s.log[i].ok
    ensures s.log[i].event != s.workers[w].ticket.event
  {
    var t := s.workers[w].ticket;
    InLeaseIsLatest(s, w);
    if s.log[i].event == t.event {
      var v :| v in s.workers && Owing(s.workers[v]) && s.workers[v].ticket.event == t.event && s.workers[v].ticket.number == s.log[i].number;
      InLeaseIsLatest(s, v);
      assert false;
    }
  }

  lemma SettledKept(s: System, step: Step, p: Publication)
    requires WorkersOk(s) && Prompt(s) && Enabled(s, step) && Settled(s, p)
    requires step.Stop? ==> !Owing(PcOf(s, step.w))
    ensures Settled(Next(s, step), p)
  {
    var s' := Next(s, step);
    if p.event in s.rows && s.rows[p.event].publishedAt.Some? {
      assert p.event in s'.rows && s'.rows[p.event].publishedAt.Some?;
    } else {
      var w :| w in s.workers && Owing(s.workers[w]) && s.workers[w].ticket.event == p.event && s.workers[w].ticket.number == p.number;
      if step.Write? && step.w == w {
        InLeaseIsLatest(s, w);
        assert s'.rows[p.event].publishedAt.Some?;
      } else {
        assert w in s'.workers && Owing(s'.workers[w]) && s'.workers[w].ticket == s.workers[w].ticket;
      }
    }
  }

  lemma OnceKept(s: System, step: Step)
    requires Inv(s) && Once(s) && Prompt(s) && Enabled(s, step) && Prompt(Next(s, step))
    requires step.Stop? ==> !Owing(PcOf(s, step.w))
    ensures Once(Next(s, step))
  {
    var s' := Next(s, step);
    forall i | 0 <= i < |s'.log| && s'.log[i].ok
      ensures Settled(s', s'.log[i])
    {
      if i < |s.log| {
        assert Settled(s, s.log[i]);
        SettledKept(s, step, s.log[i]);
      } else {
        assert Owing(s'.workers[step.w]) && s'.workers[step.w].ticket.event == s'.log[i].event;
      }
    }
    if step.Publish? && step.ok {
      assert Owing(s'.workers[step.w]);
      forall i | 0 <= i < |s.log| && s.log[i].ok
        ensures s.log[i].event != s.workers[step.w].ticket.event
      {
        FirstSuccess(s, step.w, i);
      }
    }
  }

  lemma {:induction false} OnceThroughout(s: System, steps: seq<Step>)
    requires Inv(s) && Once(s) && Legal(s, steps) && PromptRun(s, steps)
    ensures Once(Run(s, steps))
  {
    if steps != [] {
      var init := steps[..|steps| - 1];
      OnceThroughout(s, init);
      RunKeepsInv(s, init);
      OnceKept(Run(s, init), steps[|steps| - 1]);
    }
  }

  lemma {:induction false} OnceMeansAtMostOne(log: seq<Publication>, e: Uuid)
    requires forall i, j :: 0 <= i < j < |log| && log[i].ok && log[j].ok ==> log[i].event != log[j].event
    ensures CountOk(log, e) <= 1
    ensures CountOk(log, e) == 1 ==> exists i :: 0 <= i < |log| && log[i].event == e && log[i].ok
  {
    if log != [] {
      OnceMeansAtMostOne(log[..|log| - 1], e);
      if log[|log| - 1].event != e || !log[|log| - 1].ok {
        assert CountOk(log, e) == CountOk(log[..|log| - 1], e);
      }
    }
  }

  /** If every successful publisher marks within its lease, each event is successfully published at most once. */
  lemma AtMostOnceIfPrompt(steps: seq<Step>, e: Uuid)
    requires Legal(EMPTY, steps) && PromptRun(EMPTY, steps)
    ensures CountOk(Run(EMPTY, steps).log, e) <= 1
  {
    OnceThroughout(EMPTY, steps);
    OnceMeansAtMostOne(Run(EMPTY, steps).log, e);
  }

  /** Every run from an empty outbox: marks are backed by publications, attempts bound publications, nothing is stuck. */
  lemma DeliveryIsSafe(steps: seq<Step>, e: Uuid)
    requires Legal(EMPTY, steps) && e in Run(EMPTY, steps).rows
    ensures var s := Run(EMPTY, steps);
            && (s.rows[e].publishedAt.Some? ==> CountOk(s.log, e) >= 1)
            && CountOk(s.log, e) <= Count(s.log, e) <= s.rows[e].attempts
            && (s.rows[e].publishedAt.None? ==>
                  forall at :: at >= s.time + Backoff.OUTBOX_MAX_DELAY ==> Claimable(s.rows[e], at))
  {
    var s := Run(EMPTY, steps);
    RunKeepsInv(EMPTY, steps);
    PublicationsWithinAttempts(s, e);
    CountOkWithin(s.log, e);
    if s.rows[e].publishedAt.Some? {
      var i :| 0 <= i < |s.log| && s.log[i].event == e && s.log[i].ok;
      CountOkFinds(s.log, e, i);
    }
  }

  lemma {:induction false} CountOkWithin(log: seq<Publication>, e: Uuid)
    ensures CountOk(log, e) <= Count(log, e)
  {
    if log != [] { CountOkWithin(log[..|log| - 1], e); }
  }

  lemma {:induction false} CountOkFinds(log: seq<Publication>, e: Uuid, i: nat)
    requires i < |log| && log[i].event == e && log[i].ok
    ensures CountOk(log, e) >= 1
  {
    if i < |log| - 1 { CountOkFinds(log[..|log| - 1], e, i); }
  }

  lemma OneMore(s: System, steps: seq<Step>, step: Step)
    requires Legal(s, steps) && Enabled(Run(s, steps), step)
    ensures Legal(s, steps + [step]) && Run(s, steps + [step]) == Next(Run(s, steps), step)
  {
    assert (steps + [step])[..|steps|] == steps;
  }

  lemma FirstHalf() returns (steps: seq<Step>)
    ensures Legal(EMPTY, steps) && Run(EMPTY, steps) == FirstSent()
  {
    steps := [];
    OneMore(EMPTY, steps, Append(1, 0));
    steps := steps + [Append(1, 0)];
    assert Run(EMPTY, steps) == AfterAppend();
    OneMore(EMPTY, steps, ReadClock(1));
    steps := steps + [ReadClock(1)];
    OneMore(EMPTY, steps, ClaimOne(1, 1));
    steps := steps + [ClaimOne(1, 1)];
    assert Run(EMPTY, steps) == FirstClaim();
    OneMore(EMPTY, steps, Publish(1, true, true));
    steps := steps + [Publish(1, true, true)];
  }

  lemma SecondHalf() returns (steps: seq<Step>)
    ensures Legal(EMPTY, steps) && Run(EMPTY, steps) == SecondClaim()
  {
    steps := FirstHalf();
    OneMore(EMPTY, steps, Tick(LEASE));
    steps := steps + [Tick(LEASE)];
    OneMore(EMPTY, steps, ReadClock(2));
    steps := steps + [ReadClock(2)];
    OneMore(EMPTY, steps, ClaimOne(2, 1));
    steps := steps + [ClaimOne(2, 1)];
  }

  lemma TwoSuccesses(log: seq<Publication>)
    requires log == [Publication(1, 1, true), Publication(1, 2, true)]
    ensures CountOk(log, 1) == 2
  {
    assert log[..1] == [Publication(1, 1, true)] && log[..1][..0] == [];
    assert CountOk(log[..1], 1) == 1;
  }

  /** Without the promptness condition an event can be published twice: the first worker is slow to mark it. */
  lemma LateMarkPublishesTwice() returns (steps: seq<Step>)
    ensures Legal(EMPTY, steps) && CountOk(Run(EMPTY, steps).log, 1) == 2
  {
    steps := SecondHalf();
    OneMore(EMPTY, steps, Publish(2, true, true));
    steps := steps + [Publish(2, true, true)];
    TwoSuccesses(Run(EMPTY, steps).log);
  }

  function AfterAppend(): System { System(0, map[1 := Row(0, 0, 0, None, None)], map[], []) }

  function FirstClaim(): System {
    System(0, map[1 := Row(1, 0, 0, Some(Claim(1, LEASE)), None)], map[1 := Holding(Ticket(1, 1, LEASE))], [])
  }

  function FirstSent(): System {
    System(0, map[1 := Row(1, 0, 0, Some(Claim(1, LEASE)), None)], map[1 := Sent(Ticket(1, 1, LEASE))], [Publication(1, 1, true)])
  }

  function SecondClaim(): System {
    System(LEASE, map[1 := Row(2, 0, 0, Some(Claim(2, 2 * LEASE)), None)],
           map[1 := Sent(Ticket(1, 1, LEASE)), 2 := Holding(Ticket(1, 2, 2 * LEASE))], [Publication(1, 1, true)])
  }
}
