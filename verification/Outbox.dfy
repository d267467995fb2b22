/**
 The outbox delivery protocol: workers claim an event under a lease, publish it, and mark
 it published or reschedule it (internal/application/outbox_dispatcher_service.go and
 internal/infrastructure/postgres/outbox_dispatcher_repository.go). Any number of workers
 run one statement at a time and may stop anywhere.
 */
module Outbox {
  import opened Basics
  import Backoff

  const LEASE: int := 30 * Backoff.SECOND

  type Worker = nat

  /** The delivery columns of an outbox event. */
  datatype Row = Row(
    attempts: nat, nextAttemptAt: Time, occurredAt: Time,
    claim: Option<Claim>, publishedAt: Option<Time>)

  /** claimed_by and claimed_until, which the schema keeps together */
  datatype Claim = Claim(holder: Worker, until: Time)

  // ----- one statement on one row -----

  /** The WHERE clause of ClaimPending. */
  predicate Claimable(r: Row, at: Time) {
    r.publishedAt.None? && r.nextAttemptAt <= at && (r.claim.Some? ==> r.claim.value.until <= at)
  }

  function Claimed(r: Row, worker: Worker, until: Time): Row {
    r.(attempts := r.attempts + 1, claim := Some(Claim(worker, until)))
  }

  /** The WHERE clause of MarkPublished and ScheduleRetry. */
  predicate HeldBy(r: Row, worker: Worker) {
    r.publishedAt.None? && r.claim.Some? && r.claim.value.holder == worker
  }

  function Marked(r: Row, worker: Worker, at: Time): Row {
    if HeldBy(r, worker) then r.(publishedAt := Some(at), claim := None) else r
  }

  function Rescheduled(r: Row, worker: Worker, next: Time): Row {
    if HeldBy(r, worker) then r.(nextAttemptAt := next, claim := None) else r
  }

  // ----- the protocol -----

  /** What a claim hands to its worker; `number` is the attempts counter it returned. */
  datatype Ticket = Ticket(event: Uuid, number: nat, until: Time)

  datatype Pc =
    | Idle
    | Aware(now: Time)                       // first clock reading
    | Holding(ticket: Ticket)                // claimed
    | Sent(ticket: Ticket)                   // Publish succeeded
    | Stamped(ticket: Ticket, at: Time)      // clock read after success
    | Refused(ticket: Ticket)                // Publish returned an error
    | Delaying(ticket: Ticket, next: Time)   // clock read after failure

  /** One message that reached the queue; `ok` when Publish also reported success. */
  datatype Publication = Publication(event: Uuid, number: nat, ok: bool)

  datatype System = System(time: Time, rows: map<Uuid, Row>, workers: map<Worker, Pc>, log: seq<Publication>)

  datatype Step =
    | Tick(to: Time)
    | Append(event: Uuid, occurredAt: Time)
    | ReadClock(w: Worker)
    | ClaimOne(w: Worker, event: Uuid)
    | Publish(w: Worker, delivered: bool, ok: bool)
    | Stamp(w: Worker)
    | Write(w: Worker)
    | Stop(w: Worker) // an error, a shutdown or a crash

  function PcOf(s: System, w: Worker): Pc { if w in s.workers then s.workers[w] else Idle }

  function TicketOf(pc: Pc): Option<Ticket> {
    match pc
    case Idle => None
    case Aware(_) => None
    case Holding(t) => Some(t)
    case Sent(t) => Some(t)
    case Stamped(t, _) => Some(t)
    case Refused(t) => Some(t)
    case Delaying(t, _) => Some(t)
  }

  predicate Enabled(s: System, step: Step) {
    match step
    case Tick(to) => s.time <= to
    case Append(e, at) => e !in s.rows && at <= s.time
    case ReadClock(w) => PcOf(s, w).Idle?
    case ClaimOne(w, e) => PcOf(s, w).Aware? && e in s.rows && Claimable(s.rows[e], s.time)
    case Publish(w, delivered, ok) => PcOf(s, w).Holding? && (ok ==> delivered)
    case Stamp(w) => PcOf(s, w).Sent? || PcOf(s, w).Refused?
    case Write(w) => PcOf(s, w).Stamped? || PcOf(s, w).Delaying?
    case Stop(_) => true
  }

  function Goto(s: System, w: Worker, pc: Pc): System { s.(workers := s.workers[w := pc]) }

  function Next(s: System, step: Step): System {
    if !Enabled(s, step) then s else
    match step
    case Tick(to) => s.(time := to)
    case Append(e, at) => s.(rows := s.rows[e := Row(0, s.time, at, None, None)])
    case ReadClock(w) => Goto(s, w, Aware(s.time))
    case ClaimOne(w, e) =>
      var until := PcOf(s, w).now + LEASE;
      Goto(s.(rows := s.rows[e := Claimed(s.rows[e], w, until)]), w, Holding(Ticket(e, s.rows[e].attempts + 1, until)))
    case Publish(w, delivered, ok) =>
      var t := PcOf(s, w).ticket;
      Goto(if delivered then s.(log := s.log + [Publication(t.event, t.number, ok)]) else s, w,
           if ok then Sent(t) else Refused(t))
    case Stamp(w) =>
      var t := PcOf(s, w).ticket;
      Goto(s, w, if PcOf(s, w).Sent? then Stamped(t, s.time)
                 else Delaying(t, s.time + Backoff.Delay(Backoff.OUTBOX_INITIAL_DELAY, Backoff.OUTBOX_MAX_DELAY, t.number)))
    case Write(w) =>
      var pc := PcOf(s, w);
      var e := pc.ticket.event;
      if e !in s.rows then Goto(s, w, Idle)
      else Goto(s.(rows := s.rows[e := if pc.Stamped? then Marked(s.rows[e], w, pc.at) else Rescheduled(s.rows[e], w, pc.next)]), w, Idle)
    case Stop(w) => Goto(s, w, Idle)
  }

  // ----- the invariant -----

  /** A worker with a ticket still owns the event, or the lease was over before the next claim. */
  predicate TicketOk(s: System, w: Worker, t: Ticket) {
    && t.event in s.rows && 1 <= t.number <= s.rows[t.event].attempts
    && if t.number == s.rows[t.event].attempts then HeldBy(s.rows[t.event], w) && s.rows[t.event].claim.value.until == t.until
       else t.until <= s.time && !HeldBy(s.rows[t.event], w)
  }

  predicate WorkerOk(s: System, w: Worker, pc: Pc) {
    && (TicketOf(pc).Some? ==> TicketOk(s, w, TicketOf(pc).value))
    && (pc.Aware? ==> pc.now <= s.time)
    && (pc.Delaying? ==> pc.next <= s.time + Backoff.OUTBOX_MAX_DELAY)
  }

  predicate WorkersOk(s: System) {
    forall w {:trigger WorkerOk(s, w, s.workers[w])} :: w in s.workers ==> WorkerOk(s, w, s.workers[w])
  }

  /** Becomes claimable within the cap of the backoff. */
  predicate NotStuck(r: Row, time: Time) {
    r.nextAttemptAt <= time + Backoff.OUTBOX_MAX_DELAY && (r.claim.Some? ==> r.claim.value.until <= time + LEASE)
  }

  predicate RowsOk(s: System) {
    forall e {:trigger s.rows[e]} :: e in s.rows ==> NotStuck(s.rows[e], s.time)
  }

  /** Attempt numbers are used once: in the log, or by one worker that has not published yet. */
  predicate Published(log: seq<Publication>, e: Uuid, n: nat) {
    exists i :: 0 <= i < |log| && log[i].event == e && log[i].number == n
  }

  predicate PublishedOk(log: seq<Publication>, e: Uuid, n: nat) {
    exists i :: 0 <= i < |log| && log[i].event == e && log[i].number == n && log[i].ok
  }

  predicate LogOk(s: System) {
    && (forall i :: 0 <= i < |s.log| ==>
          s.log[i].event in s.rows && 1 <= s.log[i].number <= s.rows[s.log[i].event].attempts)
    && (forall i, j :: 0 <= i < j < |s.log| ==> s.log[i].event != s.log[j].event || s.log[i].number != s.log[j].number)
  }

  /** Whoever has not published yet holds an unused attempt number. */
  predicate HoldersOk(s: System) {
    forall w :: w in s.workers && s.workers[w].Holding? ==>
      !Published(s.log, s.workers[w].ticket.event, s.workers[w].ticket.number)
  }

  /** Whoever is about to mark an event has published it. */
  predicate SendersOk(s: System) {
    forall w :: w in s.workers && (s.workers[w].Sent? || s.workers[w].Stamped?) ==>
      PublishedOk(s.log, s.workers[w].ticket.event, s.workers[w].ticket.number)
  }

  predicate SameTicket(a: Pc, b: Pc) {
    && TicketOf(a).Some? && TicketOf(b).Some?
    && TicketOf(a).value.event == TicketOf(b).value.event && TicketOf(a).value.number == TicketOf(b).value.number
  }

  /** No two workers have the same attempt of the same event. */
  predicate TicketsDistinct(s: System) {
    forall w, v :: w in s.workers && v in s.workers && w != v ==> !SameTicket(s.workers[w], s.workers[v])
  }

  predicate TicketsOk(s: System) { HoldersOk(s) && SendersOk(s) && TicketsDistinct(s) }

  /** An event marked published was really published. */
  predicate MarksOk(s: System) {
    forall e {:trigger s.rows[e]} :: e in s.rows && s.rows[e].publishedAt.Some? ==>
      exists i :: 0 <= i < |s.log| && s.log[i].event == e && s.log[i].ok
  }

  predicate Inv(s: System) {
    WorkersOk(s) && RowsOk(s) && LogOk(s) && TicketsOk(s) && MarksOk(s)
  }

  // ----- runs -----

  function Run(s: System, steps: seq<Step>): System {
    if steps == [] then s else Next(Run(s, steps[..|steps| - 1]), steps[|steps| - 1])
  }

  predicate Legal(s: System, steps: seq<Step>) {
    steps == [] ||
    (Legal(s, steps[..|steps| - 1]) && Enabled(Run(s, steps[..|steps| - 1]), steps[|steps| - 1]))
  }

  const EMPTY := System(0, map[], map[], [])

  /** A worker whose publication succeeded has not yet written that down. */
  predicate Owing(pc: Pc) { pc.Sent? || pc.Stamped? }

  /** Every successful publisher that has not marked its event yet is still within its lease. */
  predicate Prompt(s: System) {
    forall w :: w in s.workers && Owing(s.workers[w]) ==> s.time < s.workers[w].ticket.until
  }

  /** Every successful publisher marks its event within its lease. */
  predicate PromptRun(s: System, steps: seq<Step>) {
    && Prompt(Run(s, steps))
    && (steps != [] ==>
          var init, last := steps[..|steps| - 1], steps[|steps| - 1];
          PromptRun(s, init) && (last.Stop? ==> !Owing(PcOf(Run(s, init), last.w))))
  }

  function Count(log: seq<Publication>, e: Uuid): nat {
    if log == [] then 0 else Count(log[..|log| - 1], e) + (if log[|log| - 1].event == e then 1 else 0)
  }

  function CountOk(log: seq<Publication>, e: Uuid): nat {
    if log == [] then 0 else
      CountOk(log[..|log| - 1], e) + (if log[|log| - 1].event == e && log[|log| - 1].ok then 1 else 0)
  }
}
