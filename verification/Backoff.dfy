/**
 The three exponential backoff loops of the repository (internal/application/wager_reference.go,
 outbox_dispatcher_service.go and internal/infrastructure/sqs/consumer.go). Durations are
 nanoseconds in a signed 64-bit integer, so doubling wraps around when it overflows.
 */
module Backoff {
  import opened Basics

  const INT64_LIMIT: int := 0x8000_0000_0000_0000
  const SECOND: int := 1_000_000_000
  const MINUTE: int := 60 * SECOND

  /** The 64-bit value of an integer. */
  function Wrap(x: int): int {
    var m := x % (2 * INT64_LIMIT);
    if m < INT64_LIMIT then m else m - 2 * INT64_LIMIT
  }

  function Pow2(k: nat): nat { if k == 0 then 1 else 2 * Pow2(k - 1) }

  /** The documented delay before attempt n: base * 2^(n-1), capped. */
  function Delay(base: int, cap: int, attempt: int): int {
    Min(base * Pow2(if attempt <= 1 then 0 else attempt - 1), cap)
  }

  /** What the loop leaves in its variable: up to `steps` doublings, none once the cap is reached. */
  function Doubled(delay: int, cap: int, steps: int): int
    decreases steps
  {
    if steps <= 0 || delay >= cap then delay else Doubled(Wrap(2 * delay), cap, steps - 1)
  }

  function LoopDelay(base: int, cap: int, attempt: int): int {
    Min(Doubled(base, cap, attempt - 1), cap)
  }

  predicate IsDuration(d: int) { 0 < d < INT64_LIMIT }

  /** The first doubling of base that is not below cap. */
  function Reach(base: int, cap: int): int
    requires base > 0
    decreases cap - base
  {
    if base >= cap then base else Reach(2 * base, cap)
  }

  /** ReferenceRetryPolicy.delay */
  method ReferenceDelay(base: int, cap: int, attempt: int) returns (delay: int)
    ensures delay == LoopDelay(base, cap, attempt)
    ensures IsDuration(base) && IsDuration(cap) && cap <= INT64_LIMIT / 2 ==> delay == Delay(base, cap, attempt)
  {
    delay := base;
    var i := 1;
    while i < attempt && delay < cap
      invariant i == 1 || 1 <= i <= attempt
      invariant Doubled(base, cap, attempt - 1) == Doubled(delay, cap, attempt - i)
      decreases attempt - i
    {
      delay := Wrap(2 * delay);
      i := i + 1;
    }
    delay := Min(delay, cap);
    if IsDuration(base) && IsDuration(cap) && cap <= INT64_LIMIT / 2 {
      SmallCapNeverOverflows(base, cap);
      LoopIsDelay(base, cap, attempt);
    }
  }

  const OUTBOX_INITIAL_DELAY := 5 * SECOND
  const OUTBOX_MAX_DELAY := 5 * MINUTE

  /** outboxRetryDelay: caps one doubling early, by comparing with half of the cap. */
  method OutboxRetryDelay(attempts: int) returns (delay: int)
    ensures delay == Delay(OUTBOX_INITIAL_DELAY, OUTBOX_MAX_DELAY, attempts)
  {
    if attempts <= 1 {
      assert Pow2(0) == 1;
      return OUTBOX_INITIAL_DELAY;
    }
    delay := OUTBOX_INITIAL_DELAY;
    var attempt := 1;
    while attempt < attempts
      invariant 1 <= attempt <= attempts
      invariant OUTBOX_INITIAL_DELAY <= delay == OUTBOX_INITIAL_DELAY * Pow2(attempt - 1) <= OUTBOX_MAX_DELAY
    {
      if delay >= OUTBOX_MAX_DELAY / 2 {
        DelayStaysCapped(OUTBOX_INITIAL_DELAY, OUTBOX_MAX_DELAY, attempt + 1, attempts);
        return OUTBOX_MAX_DELAY;
      }
      delay := Wrap(2 * delay);
      attempt := attempt + 1;
    }
  }

  const SQS_BASE_DELAY := 5 * SECOND
  const SQS_MAX_DELAY := 5 * MINUTE

  /** retryDelay of the SQS consumer, for a message received `receives` times. */
  method SqsRetryDelay(receives: int) returns (delay: int)
    ensures delay == Delay(SQS_BASE_DELAY, SQS_MAX_DELAY, receives)
  {
    delay := SQS_BASE_DELAY;
    var i := 1;
    while i < receives && delay < SQS_MAX_DELAY
      invariant i == 1 || 1 <= i <= receives
      invariant 0 < delay == SQS_BASE_DELAY * Pow2(i - 1) < 2 * SQS_MAX_DELAY
      decreases receives - i
    {
      delay := Wrap(2 * delay);
      i := i + 1;
    }
    if i < receives {
      DelayStaysCapped(SQS_BASE_DELAY, SQS_MAX_DELAY, i, receives);
    }
    delay := Min(delay, SQS_MAX_DELAY);
  }

  // ----- the loops against the formula -----

  lemma {:induction false} PowersGrow(j: nat, k: nat)
    requires j <= k
    ensures 1 <= Pow2(j) <= Pow2(k)
  {
    if j < k { PowersGrow(j, k - 1); } else if j > 0 { PowersGrow(j - 1, j - 1); }
  }

  /** Once the cap is reached it is kept for every later attempt. */
  lemma DelayStaysCapped(base: int, cap: int, m: int, n: int)
    requires base > 0 && 1 <= m <= n && base * Pow2(m - 1) >= cap
    ensures Delay(base, cap, n) == cap
  {
    PowersGrow(m - 1, n - 1);
    assert base * Pow2(n - 1) >= base * Pow2(m - 1);
  }

  lemma SmallCapNeverOverflows(base: int, cap: int)
    requires IsDuration(base) && IsDuration(cap) && cap <= INT64_LIMIT / 2
    ensures Reach(base, cap) < INT64_LIMIT
    decreases cap - base
  {
    if base < cap {
      SmallCapNeverOverflows(2 * base, cap);
    }
  }

  lemma {:induction false} LoopIsDelay(base: int, cap: int, attempt: int)
    requires IsDuration(base) && IsDuration(cap) && Reach(base, cap) < INT64_LIMIT
    ensures LoopDelay(base, cap, attempt) == Delay(base, cap, attempt)
    decreases cap - base
  {
    if attempt <= 1 {
      assert Pow2(0) == 1;
    } else if base >= cap {
      DelayStaysCapped(base, cap, 1, attempt);
    } else {
      ReachAbove(2 * base, cap);
      LoopIsDelay(2 * base, cap, attempt - 1);
      DelayDoubles(base, cap, attempt);
      assert Wrap(2 * base) == 2 * base;
    }
  }

  lemma DelayDoubles(base: int, cap: int, attempt: int)
    requires attempt > 1
    ensures Delay(base, cap, attempt) == Delay(2 * base, cap, attempt - 1)
  {
    assert base * Pow2(attempt - 1) == 2 * base * Pow2(attempt - 2);
  }

  lemma {:induction false} ReachAbove(base: int, cap: int)
    requires base > 0
    ensures Reach(base, cap) >= base && Reach(base, cap) >= cap
    decreases cap - base
  {
    if base < cap { ReachAbove(2 * base, cap); }
  }

  /**
   The loop computes the documented delay for every attempt exactly when the last doubling,
   the first one that is not below the cap, still fits in 64 bits.
   */
  lemma LoopIsDelayExactly(base: int, cap: int)
    requires IsDuration(base) && IsDuration(cap)
    ensures (forall attempt :: LoopDelay(base, cap, attempt) == Delay(base, cap, attempt)) <==>
            Reach(base, cap) < INT64_LIMIT
  {
    if Reach(base, cap) < INT64_LIMIT {
      forall attempt
        ensures LoopDelay(base, cap, attempt) == Delay(base, cap, attempt)
      {
        LoopIsDelay(base, cap, attempt);
      }
    } else {
      var attempt := OverflowingAttempt(base, cap);
      assert LoopDelay(base, cap, attempt) != Delay(base, cap, attempt);
    }
  }

  lemma {:induction false} OverflowingAttempt(base: int, cap: int) returns (attempt: int)
    requires IsDuration(base) && IsDuration(cap) && Reach(base, cap) >= INT64_LIMIT
    ensures attempt >= 2 && LoopDelay(base, cap, attempt) < 0 < Delay(base, cap, attempt)
    decreases cap - base
  {
    hide LoopDelay, Delay;
    if 2 * base >= INT64_LIMIT {
      attempt := 2;
      SecondDelayWraps(base, cap);
    } else {
      var later := OverflowingAttempt(2 * base, cap);
      attempt := later + 1;
      LoopDoubles(base, cap, later);
    }
    DelayIsPositive(base, cap, attempt);
  }

  lemma DelayIsPositive(base: int, cap: int, attempt: int)
    requires base > 0 && cap > 0
    ensures Delay(base, cap, attempt) > 0
  {
    var k := if attempt <= 1 then 0 else attempt - 1;
    PowersGrow(0, k);
    assert base * Pow2(k) >= base;
  }

  lemma SecondDelayWraps(base: int, cap: int)
    requires IsDuration(base) && base < cap && 2 * base >= INT64_LIMIT
    ensures LoopDelay(base, cap, 2) < 0
  {
    WrapsNegative(base);
    assert Doubled(base, cap, 1) == Doubled(Wrap(2 * base), cap, 0);
  }

  lemma LoopDoubles(base: int, cap: int, attempt: int)
    requires IsDuration(base) && base < cap && 2 * base < INT64_LIMIT && attempt >= 1
    ensures LoopDelay(base, cap, attempt + 1) == LoopDelay(2 * base, cap, attempt)
  {
    assert Wrap(2 * base) == 2 * base;
  }

  lemma WrapsNegative(x: int)
    requires INT64_LIMIT <= 2 * x < 2 * INT64_LIMIT
    ensures Wrap(2 * x) == 2 * x - 2 * INT64_LIMIT < 0
  {
  }

  /** A concrete policy whose second delay is negative: 2^62 ns doubled, below the largest cap. */
  lemma HugeCapOverflows()
    ensures var base, cap := INT64_LIMIT / 2, INT64_LIMIT - 1;
            IsDuration(base) && IsDuration(cap) && LoopDelay(base, cap, 2) == -INT64_LIMIT
  {
    var base, cap := INT64_LIMIT / 2, INT64_LIMIT - 1;
    assert Wrap(2 * base) == -INT64_LIMIT;
    assert Doubled(base, cap, 1) == Doubled(Wrap(2 * base), cap, 0);
  }
}
