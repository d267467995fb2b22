/**
 One poll of the queue consumer (internal/infrastructure/sqs/consumer.go). The handler's
 answer and the success of each queue call are parameters; what the consumer does to the
 source queue, the dead-letter queue and the visibility of each message is the state.
 */
module Consumer {
  import opened Basics
  import Backoff

  /** A received message; `receives` is None when the receive count does not parse. */
  datatype Incoming = Incoming(id: string, body: string, receives: Option<int>)

  datatype Answer = Success | Transient | Permanent

  /** What the environment does while one message has its turn. */
  datatype Turn = Turn(stopped: bool, answer: Answer, copied: bool, deleted: bool)

  function ReceiveCount(m: Incoming): int {
    if m.receives.None? || m.receives.value < 1 then 1 else m.receives.value
  }

  /** The seconds until a message handed back is visible again, by how often it was received. */
  function VisibleAfter(receives: Option<int>): int {
    if receives.None? || receives.value < 2 then 5
    else match receives.value
      case 2 => 10
      case 3 => 20
      case 4 => 40
      case 5 => 80
      case 6 => 160
      case _ => 300
  }

  /** The delay starts at five seconds and doubles with every further receipt, up to five minutes. */
  lemma VisibilityDoubles(n: int)
    ensures VisibleAfter(None) == VisibleAfter(Some(if n < 2 then n else 1)) == 5
    ensures n >= 2 ==> VisibleAfter(Some(n)) == Min(2 * VisibleAfter(Some(n - 1)), 300)
  {
  }

  lemma {:induction false} DelayInSeconds(n: int)
    ensures Backoff.Delay(Backoff.SQS_BASE_DELAY, Backoff.SQS_MAX_DELAY, n) == VisibleAfter(Some(n)) * Backoff.SECOND
  {
    assert Backoff.Pow2(3) == 8 && Backoff.Pow2(6) == 64 by { assert Backoff.Pow2(4) == 16; }
    if n >= 8 {
      Backoff.DelayStaysCapped(Backoff.SQS_BASE_DELAY, Backoff.SQS_MAX_DELAY, 7, n);
    }
  }

  /** The turn ends with the message deleted from the source queue. */
  predicate Leaves(t: Turn) {
    t.deleted && (t.answer.Success? || (t.answer.Permanent? && t.copied))
  }

  predicate DeadLetters(t: Turn) { t.answer.Permanent? && t.copied }

  predicate Distinct(ms: seq<Incoming>) {
    forall i, j :: 0 <= i < j < |ms| ==> ms[i] != ms[j]
  }

  /** The messages among the first `n` whose turns satisfy the predicate. */
  function Leaving(batch: seq<Incoming>, turns: seq<Turn>, n: nat): set<Incoming>
    requires n <= |batch| <= |turns|
  {
    set i | 0 <= i < n && Leaves(turns[i]) :: batch[i]
  }

  function Dead(batch: seq<Incoming>, turns: seq<Turn>, n: nat): set<Incoming>
    requires n <= |batch| <= |turns|
  {
    set i | 0 <= i < n && DeadLetters(turns[i]) :: batch[i]
  }

  /** What a poll reports: the first n messages of the batch got a turn, and only the last of them may have failed. */
  predicate Reports(turns: seq<Turn>, size: nat, n: nat, failed: bool)
    requires size <= |turns|
  {
    && n <= size && (failed ==> n > 0)
    && (forall i :: 0 <= i < n ==> !turns[i].stopped && (Leaves(turns[i]) <==> !(failed && i == n - 1)))
    && (!failed && n < size ==> turns[n].stopped)
  }

  class Client {
    var queue: set<Incoming>          // not deleted
    var dlq: set<Incoming>
    var visibleIn: map<Incoming, int> // seconds, for the messages handed back
    const reachable: set<Incoming>    // those whose visibility the queue lets us change

    /** Every message it can reach becomes visible again after its delay; nothing else changes. */
    method Release(messages: seq<Incoming>, now: bool)
      requires Distinct(messages)
      modifies this`visibleIn
      ensures forall i :: 0 <= i < |messages| && messages[i] in reachable ==>
                messages[i] in visibleIn && visibleIn[messages[i]] == if now then 0 else VisibleAfter(messages[i].receives)
      ensures forall m :: m !in messages || m !in reachable ==>
                (m in visibleIn <==> m in old(visibleIn)) && (m in visibleIn ==> visibleIn[m] == old(visibleIn)[m])
    {
      for k := 0 to |messages|
        invariant forall i :: 0 <= i < k && messages[i] in reachable ==>
                    messages[i] in visibleIn && visibleIn[messages[i]] == if now then 0 else VisibleAfter(messages[i].receives)
        invariant forall m :: m !in messages || m !in reachable ==>
                    (m in visibleIn <==> m in old(visibleIn)) && (m in visibleIn ==> visibleIn[m] == old(visibleIn)[m])
      {
        if messages[k] in reachable {
          var seconds := 0;
          if !now {
            var delay := Backoff.SqsRetryDelay(ReceiveCount(messages[k]));
            DelayInSeconds(ReceiveCount(messages[k]));
            seconds := delay / Backoff.SECOND;
          }
          visibleIn := visibleIn[messages[k] := seconds];
        }
      }
    }

    /** The messages of the batch from index n on are handed back. */
    method ReleaseRest(batch: seq<Incoming>, n: nat, now: bool)
      requires Distinct(batch) && n <= |batch|
      modifies this`visibleIn
      ensures forall i :: n <= i < |batch| && batch[i] in reachable ==>
                batch[i] in visibleIn && visibleIn[batch[i]] == if now then 0 else VisibleAfter(batch[i].receives)
      ensures forall i :: 0 <= i < n ==>
                (batch[i] in visibleIn <==> batch[i] in old(visibleIn)) && (batch[i] in visibleIn ==> visibleIn[batch[i]] == old(visibleIn)[batch[i]])
    {
      var rest := batch[n..];
      Release(rest, now);
      assert forall i :: n <= i < |batch| ==> batch[i] == rest[i - n];
    }

    /** A permanently failed message is copied before it is deleted. */
    method MoveToDLQ(m: Incoming, turn: Turn) returns (ok: bool)
      modifies this`queue, this`dlq
      ensures ok == (turn.copied && turn.deleted)
      ensures dlq == if turn.copied then old(dlq) + {m} else old(dlq)
      ensures queue == if ok then old(queue) - {m} else old(queue)
    {
      if !turn.copied { return false; }
      dlq := dlq + {m};
      if !turn.deleted { return false; }
      queue := queue - {m};
      return true;
    }

    /** The message leaves the queue, or an error stops the batch; a transient failure hands it back with its delay. */
    method ProcessMessage(m: Incoming, turn: Turn) returns (ok: bool)
      modifies this
      ensures ok == Leaves(turn)
      ensures queue == if ok then old(queue) - {m} else old(queue)
      ensures dlq == if DeadLetters(turn) then old(dlq) + {m} else old(dlq)
      ensures if turn.answer.Transient? && m in reachable then m in visibleIn && visibleIn[m] == VisibleAfter(m.receives)
              else (m in visibleIn <==> m in old(visibleIn)) && (m in visibleIn ==> visibleIn[m] == old(visibleIn)[m])
      ensures forall n :: n != m ==>
                (n in visibleIn <==> n in old(visibleIn)) && (n in visibleIn ==> visibleIn[n] == old(visibleIn)[n])
    {
      match turn.answer
      case Success =>
        if turn.deleted { queue := queue - {m}; }
        return turn.deleted;
      case Transient =>
        assert [m][0] == m;
        Release([m], false);
        return false;
      case Permanent =>
        ok := MoveToDLQ(m, turn);
    }

    /**
     The messages that got a turn form a prefix of the batch. All of them left the queue,
     except the last one when the poll failed; the rest are untouched and handed back, at once
     when the consumer is stopping and after their delay when it failed.
     */
    method PollOnce(batch: seq<Incoming>, turns: seq<Turn>) returns (n: nat, failed: bool)
      requires Distinct(batch) && |batch| <= |turns|
      modifies this
      ensures Reports(turns, |batch|, n, failed)
      ensures queue == old(queue) - Leaving(batch, turns, n)
      ensures dlq == old(dlq) + Dead(batch, turns, n)
      ensures forall i :: n <= i < |batch| && batch[i] in reachable ==>
                batch[i] in visibleIn && visibleIn[batch[i]] == if failed then VisibleAfter(batch[i].receives) else 0
      ensures failed && turns[n - 1].answer.Transient? && batch[n - 1] in reachable ==>
                batch[n - 1] in visibleIn && visibleIn[batch[n - 1]] == VisibleAfter(batch[n - 1].receives)
    {
      hide VisibleAfter;
      n := 0;
      assert Leaving(batch, turns, 0) == {} && Dead(batch, turns, 0) == {};
      while n < |batch|
        invariant n <= |batch| && (forall i :: 0 <= i < n ==> !turns[i].stopped && Leaves(turns[i]))
        invariant queue == old(queue) - Leaving(batch, turns, n)
        invariant dlq == old(dlq) + Dead(batch, turns, n)
      {
        if turns[n].stopped {
          ReleaseRest(batch, n, true);
          return n, false;
        }
        var ok := ProcessMessage(batch[n], turns[n]);
        StepSets(batch, turns, n);
        n := n + 1;
        if !ok {
          ReleaseRest(batch, n, false);
          return n, true;
        }
      }
      return n, false;
    }
  }

  lemma StepSets(batch: seq<Incoming>, turns: seq<Turn>, n: nat)
    requires n < |batch| <= |turns|
    ensures Leaving(batch, turns, n + 1) == Leaving(batch, turns, n) + if Leaves(turns[n]) then {batch[n]} else {}
    ensures Dead(batch, turns, n + 1) == Dead(batch, turns, n) + if DeadLetters(turns[n]) then {batch[n]} else {}
  {
  }
}
