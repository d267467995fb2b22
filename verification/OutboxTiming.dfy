/**
 When an event of the outbox may be taken up (internal/application/outbox_dispatcher_service.go,
 internal/infrastructure/postgres/outbox_dispatcher_repository.go): never before its next
 attempt is due, never under another worker's lease, never again once it is published; and
 one pass of a worker, statement by statement, leaves exactly the row that DispatchNext leaves.
 */
module OutboxTiming {
  import opened Basics
  import opened Outbox
  import opened OutboxSafety
  import opened OutboxTable

  /** At this time nobody but the holder of its claim may touch the row. */
  predicate Rests(r: Row, time: Time) {
    r.publishedAt.Some? || time < r.nextAttemptAt || (r.claim.Some? && time < r.claim.value.until)
  }

  /** Whatever does not rest may be claimed. */
  lemma ClaimableExactly(r: Row, time: Time)
    ensures Claimable(r, time) <==> !Rests(r, time)
  {
  }

  predicate WrittenByHolder(r: Row, steps: seq<Step>) {
    r.claim.Some? && Write(r.claim.value.holder) in steps
  }

  /** One step leaves a resting row alone, unless its holder writes. */
  lemma StepSparesResting(s: System, step: Step, e: Uuid)
    requires WorkersOk(s) && Enabled(s, step) && e in s.rows && Rests(s.rows[e], s.time)
    requires s.rows[e].claim.Some? ==> step != Write(s.rows[e].claim.value.holder)
    ensures e in Next(s, step).rows && Next(s, step).rows[e] == s.rows[e] && s.time <= Next(s, step).time
  {
    if step.Write? {
      assert WorkerOk(s, step.w, s.workers[step.w]);
    }
  }

  /**
   As long as it rests, no run of any workers, with crashes anywhere, changes the row: it is not
   claimed, not marked and not rescheduled, except by the holder of its claim.
   */
  lemma {:induction false} RestsUntilDue(s: System, steps: seq<Step>, e: Uuid)
    requires Inv(s) && Legal(s, steps) && e in s.rows
    requires Rests(s.rows[e], Run(s, steps).time) && !WrittenByHolder(s.rows[e], steps)
    ensures e in Run(s, steps).rows && Run(s, steps).rows[e] == s.rows[e] && s.time <= Run(s, steps).time
  {
    if steps != [] {
      var init, last := steps[..|steps| - 1], steps[|steps| - 1];
      assert last in steps && forall w :: Write(w) in init ==> Write(w) in steps;
      RunKeepsInv(s, init);
      TimeAdvances(Run(s, init), last);
      RestsUntilDue(s, init, e);
      StepSparesResting(Run(s, init), last, e);
    }
  }

  lemma TimeAdvances(s: System, step: Step)
    requires Enabled(s, step)
    ensures s.time <= Next(s, step).time
  {
  }

  function Pass(w: Worker, e: Uuid, at: Time, delivered: bool, ok: bool, later: Time): seq<Step> {
    [ReadClock(w), Tick(at), ClaimOne(w, e), Publish(w, delivered, ok), Tick(later), Stamp(w), Write(w)]
  }

  lemma ThreeSteps(s: System, a: Step, b: Step, c: Step)
    requires Enabled(s, a) && Enabled(Next(s, a), b) && Enabled(Next(Next(s, a), b), c)
    ensures Legal(s, [a, b, c]) && Run(s, [a, b, c]) == Next(Next(Next(s, a), b), c)
  {
    hide Next, Enabled;
    assert [] + [a] == [a] && [a] + [b] == [a, b] && [a, b] + [c] == [a, b, c];
    OneMore(s, [], a);
    OneMore(s, [a], b);
    OneMore(s, [a, b], c);
  }

  lemma StartPass(s: System, w: Worker, e: Uuid, at: Time, delivered: bool, ok: bool, later: Time)
    requires PcOf(s, w).Idle? && e in s.rows && s.time <= at && Claimable(s.rows[e], at)
    ensures var steps := Pass(w, e, at, delivered, ok, later)[..3];
            var r, until := s.rows[e], s.time + LEASE;
            && Legal(s, steps)
            && Run(s, steps) == System(at, s.rows[e := r.(attempts := r.attempts + 1, claim := Some(Claim(w, until)))],
                                       s.workers[w := Holding(Ticket(e, r.attempts + 1, until))], s.log)
  {
    hide Run, Legal, Claimable;
    ThreeSteps(s, ReadClock(w), Tick(at), ClaimOne(w, e));
    assert Pass(w, e, at, delivered, ok, later)[..3] == [ReadClock(w), Tick(at), ClaimOne(w, e)];
    var aware := s.(workers := s.workers[w := Aware(s.time)]);
    assert Next(s, ReadClock(w)) == aware && Next(aware, Tick(at)) == aware.(time := at);
    assert aware.workers[w := Holding(Ticket(e, s.rows[e].attempts + 1, s.time + LEASE))] ==
           s.workers[w := Holding(Ticket(e, s.rows[e].attempts + 1, s.time + LEASE))];
  }

  lemma MiddleOfPass(s: System, w: Worker, e: Uuid, at: Time, delivered: bool, ok: bool, later: Time)
    requires PcOf(s, w).Idle? && e in s.rows && s.time <= at <= later && Claimable(s.rows[e], at) && (ok ==> delivered)
    ensures var steps := Pass(w, e, at, delivered, ok, later)[..5];
            var r, t := s.rows[e], Ticket(e, s.rows[e].attempts + 1, s.time + LEASE);
            && Legal(s, steps)
            && Run(s, steps) == System(later, s.rows[e := r.(attempts := t.number, claim := Some(Claim(w, t.until)))],
                                       s.workers[w := if ok then Sent(t) else Refused(t)],
                                       if delivered then s.log + [Publication(e, t.number, ok)] else s.log)
  {
    hide Legal, Claimable;
    var steps := Pass(w, e, at, delivered, ok, later);
    StartPass(s, w, e, at, delivered, ok, later);
    assert steps[..3] + [Publish(w, delivered, ok)] == steps[..4] && steps[..4] + [Tick(later)] == steps[..5];
    OneMore(s, steps[..3], Publish(w, delivered, ok));
    OneMore(s, steps[..4], Tick(later));
  }

  /** The last two statements of a pass, for the holder of the claim. */
  lemma EndOfPass(mid: System, w: Worker, t: Ticket, ok: bool)
    requires w in mid.workers && mid.workers[w] == (if ok then Sent(t) else Refused(t)) && t.event in mid.rows
    requires HeldBy(mid.rows[t.event], w) && mid.rows[t.event].attempts == t.number && t.number >= 1
    ensures Enabled(mid, Stamp(w)) && Enabled(Next(mid, Stamp(w)), Write(w))
    ensures var end, r := Next(Next(mid, Stamp(w)), Write(w)), mid.rows[t.event];
            && end.time == mid.time && end.log == mid.log && t.event in end.rows
            && end.rows == mid.rows[t.event := end.rows[t.event]]
            && PassedRow(r.(attempts := r.attempts - 1), end.rows[t.event], ok, mid.time)
  {
  }

  /** One pass of an idle worker that nobody disturbs: published and marked, or due again after its backoff. */
  lemma PassIsRun(s: System, w: Worker, e: Uuid, at: Time, delivered: bool, ok: bool, later: Time)
    requires PcOf(s, w).Idle? && e in s.rows && s.time <= at <= later && Claimable(s.rows[e], at) && (ok ==> delivered)
    ensures var steps := Pass(w, e, at, delivered, ok, later);
            var s' := Run(s, steps);
            && Legal(s, steps) && s'.time == later && e in s'.rows && s'.rows == s.rows[e := s'.rows[e]]
            && PassedRow(s.rows[e], s'.rows[e], ok, later)
            && s'.log == (if delivered then s.log + [Publication(e, s.rows[e].attempts + 1, ok)] else s.log)
  {
    hide Legal, Next, Enabled;
    var steps := Pass(w, e, at, delivered, ok, later);
    MiddleOfPass(s, w, e, at, delivered, ok, later);
    assert steps[..5] + [Stamp(w)] == steps[..6] && steps[..6] + [Write(w)] == steps;
    EndOfPass(Run(s, steps[..5]), w, Ticket(e, s.rows[e].attempts + 1, s.time + LEASE), ok);
    OneMore(s, steps[..5], Stamp(w));
    OneMore(s, steps[..6], Write(w));
  }
}
