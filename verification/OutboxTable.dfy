/**
 The outbox table as the repository changes it, and one pass of the dispatcher over it
 (internal/infrastructure/postgres/outbox_dispatcher_repository.go,
 internal/application/outbox_dispatcher_service.go). Clock readings and the publisher's
 answer are parameters.
 */
module OutboxTable {
  import opened Basics
  import opened Outbox
  import Backoff

  /** ORDER BY next_attempt_at, occurred_at */
  predicate NotAfter(a: Row, b: Row) {
    a.nextAttemptAt < b.nextAttemptAt || (a.nextAttemptAt == b.nextAttemptAt && a.occurredAt <= b.occurredAt)
  }

  /** `e` is claimable and no claimable event comes before it. */
  predicate FirstClaimable(rows: map<Uuid, Row>, e: Uuid, at: Time) {
    && e in rows && Claimable(rows[e], at)
    && forall d :: d in rows && Claimable(rows[d], at) ==>
         || rows[e].nextAttemptAt < rows[d].nextAttemptAt
         || (rows[e].nextAttemptAt == rows[d].nextAttemptAt && rows[e].occurredAt <= rows[d].occurredAt)
  }

  /** What one undisturbed pass leaves in the row, marked or due again after the backoff of its new attempt. */
  predicate PassedRow(r: Row, r': Row, ok: bool, later: Time) {
    && r'.attempts == r.attempts + 1 && r'.occurredAt == r.occurredAt && r'.claim.None?
    && r'.publishedAt == (if ok then Some(later) else r.publishedAt)
    && r'.nextAttemptAt == if ok then r.nextAttemptAt
       else later + Min(5 * Backoff.SECOND * Backoff.Pow2(r.attempts), 5 * Backoff.MINUTE)
  }

  class Table {
    var rows: map<Uuid, Row>

    /** Claims the first claimable event, or reports that there is none. */
    method ClaimPending(worker: Worker, until: Time, at: Time) returns (ticket: Option<Ticket>)
      modifies this
      ensures ticket.None? ==> rows == old(rows) && forall e :: e in rows ==> !Claimable(rows[e], at)
      ensures ticket.Some? ==>
                var t := ticket.value;
                && FirstClaimable(old(rows), t.event, at)
                && rows == old(rows)[t.event := old(rows)[t.event].(attempts := old(rows)[t.event].attempts + 1,
                                                                   claim := Some(Claim(worker, until)))]
                && t == Ticket(t.event, old(rows)[t.event].attempts + 1, until)
    {
      var todo := rows.Keys;
      var best: Option<Uuid> := None;
      while todo != {}
        invariant todo <= rows.Keys && rows == old(rows)
        invariant best.None? ==> forall e :: e in rows && e !in todo ==> !Claimable(rows[e], at)
        invariant best.Some? ==> best.value in rows && Claimable(rows[best.value], at)
        invariant best.Some? ==>
                    forall e :: e in rows && e !in todo && Claimable(rows[e], at) ==> NotAfter(rows[best.value], rows[e])
        decreases |todo|
      {
        var e :| e in todo;
        if Claimable(rows[e], at) && (best.None? || !NotAfter(rows[best.value], rows[e])) {
          best := Some(e);
        }
        todo := todo - {e};
      }
      if best.None? {
        return None;
      }
      rows := rows[best.value := Claimed(rows[best.value], worker, until)];
      return Some(Ticket(best.value, rows[best.value].attempts, until));
    }

    /** Succeeds exactly for the worker whose claim is on the row. */
    method MarkPublished(event: Uuid, worker: Worker, at: Time) returns (err: Check)
      modifies this
      ensures err.Pass? <==> event in old(rows) && old(rows)[event].publishedAt.None?
                             && old(rows)[event].claim.Some? && old(rows)[event].claim.value.holder == worker
      ensures err.Fail? ==> err == Fail(NotFound) && rows == old(rows)
      ensures err.Pass? ==>
                rows == old(rows)[event := old(rows)[event].(publishedAt := Some(at), claim := None)]
    {
      if event !in rows || !HeldBy(rows[event], worker) {
        return Fail(NotFound);
      }
      rows := rows[event := rows[event].(publishedAt := Some(at), claim := None)];
      return Pass;
    }

    method ScheduleRetry(event: Uuid, worker: Worker, next: Time) returns (err: Check)
      modifies this
      ensures err.Pass? <==> event in old(rows) && old(rows)[event].publishedAt.None?
                             && old(rows)[event].claim.Some? && old(rows)[event].claim.value.holder == worker
      ensures err.Fail? ==> err == Fail(NotFound) && rows == old(rows)
      ensures err.Pass? ==>
                rows == old(rows)[event := old(rows)[event].(nextAttemptAt := next, claim := None)]
    {
      if event !in rows || !HeldBy(rows[event], worker) {
        return Fail(NotFound);
      }
      rows := rows[event := rows[event].(nextAttemptAt := next, claim := None)];
      return Pass;
    }

    /** DispatchNext, when no other worker interferes: the first claimable event is published and marked, or rescheduled. */
    method DispatchNext(worker: Worker, now: Time, at: Time, ok: bool, later: Time) returns (event: Option<Uuid>)
      modifies this
      ensures event.None? ==> rows == old(rows) && forall e :: e in rows ==> !Claimable(rows[e], at)
      ensures event.Some? ==>
                && FirstClaimable(old(rows), event.value, at)
                && event.value in rows && rows == old(rows)[event.value := rows[event.value]]
                && PassedRow(old(rows)[event.value], rows[event.value], ok, later)
    {
      var ticket := ClaimPending(worker, now + LEASE, at);
      if ticket.None? {
        return None;
      }
      var e := ticket.value.event;
      if ok {
        var _ := MarkPublished(e, worker, later);
      } else {
        var delay := Backoff.OutboxRetryDelay(ticket.value.number);
        var _ := ScheduleRetry(e, worker, later + delay);
      }
      return Some(e);
    }
  }
}
