/** One outbox row under the statements that change it, and the retry delay. */
module OutboxRows {
  import opened Basics

  datatype Lock = Lock(at: int, worker: Id)

  datatype Event = Event(
    attempts: nat, availableAt: int, createdAt: int, lock: Option<Lock>,
    processedAt: Option<int>, deadLetteredAt: Option<int>)

  predicate Processed(e: Event) { e.processedAt.Some? }

  predicate Dead(e: Event) { e.deadLetteredAt.Some? }

  predicate LockedBy(e: Event, worker: Id) { e.lock.Some? && e.lock.value.worker == worker }

  predicate Claimable(e: Event, now: int, ttl: int)
  {
    !Processed(e) && !Dead(e) && e.availableAt <= now && (e.lock.None? || e.lock.value.at < now - ttl)
  }

  function Claim(e: Event, worker: Id, now: int): Event
  {
    e.(attempts := e.attempts + 1, lock := Some(Lock(now, worker)))
  }

  // The three guarded updates; a row that does not match is left as it is (zero rows affected).

  predicate Updatable(e: Event, worker: Id) { LockedBy(e, worker) && !Processed(e) }

  function Complete(e: Event, worker: Id, now: int): Event
  {
    if Updatable(e, worker) then e.(processedAt := Some(now), lock := None) else e
  }

  function DeadLetter(e: Event, worker: Id, now: int): Event
  {
    if Updatable(e, worker) then e.(deadLetteredAt := Some(now), lock := None) else e
  }

  function Reschedule(e: Event, worker: Id, at: int): Event
  {
    if Updatable(e, worker) then e.(availableAt := at, lock := None) else e
  }

  /** Runner.fail: dead-letter on the last attempt recorded by the claim, otherwise retry later. */
  function Fail(e: Event, worker: Id, recordedAttempts: nat, maxAttempts: nat, now: int): Event
  {
    if recordedAttempts >= maxAttempts then DeadLetter(e, worker, now)
    else Reschedule(e, worker, now + RetryDelay(recordedAttempts))
  }

  /** Only the worker in the lock of an unprocessed row completes it. */
  lemma CompleteLeaves(e: Event, worker: Id, now: int)
    ensures var ours := e.lock.Some? && e.lock.value.worker == worker && e.processedAt.None?;
            && (ours ==> Complete(e, worker, now) == Event(e.attempts, e.availableAt, e.createdAt, None, Some(now),
                                                           e.deadLetteredAt))
            && (!ours ==> Complete(e, worker, now) == e)
  {
  }

  /**
   * Only that worker fails it: dead from the last attempt on, before it due again after the delay
   * of that attempt, and in both cases unlocked.
   */
  lemma FailLeaves(e: Event, worker: Id, attempts: nat, maxAttempts: nat, now: int)
    ensures var ours, failed := e.lock.Some? && e.lock.value.worker == worker && e.processedAt.None?,
                                Fail(e, worker, attempts, maxAttempts, now);
            && (!ours ==> failed == e)
            && (ours && attempts >= maxAttempts ==>
                  failed == Event(e.attempts, e.availableAt, e.createdAt, None, None, Some(now)))
            && (ours && attempts < maxAttempts && 1 <= attempts <= 34 ==>
                  failed == Event(e.attempts, now + IntendedDelay(attempts), e.createdAt, None, None, e.deadLetteredAt))
  {
    if 1 <= attempts <= 34 { DelayExactThrough34(attempts); }
  }

  // ------------------------------------------------------------ retry delay

  const SECOND: int := 1_000_000_000   // time.Second in nanoseconds
  const HOUR: int := 3600 * SECOND
  const TWO_TO_63: int := 0x8000_0000_0000_0000
  const TWO_TO_64: int := 0x1_0000_0000_0000_0000

  function Pow2(n: nat): nat { if n == 0 then 1 else 2 * Pow2(n - 1) }

  function Int64(x: int): int {
    var low := x % TWO_TO_64;
    if low < TWO_TO_63 then low else low - TWO_TO_64
  }

  /** time.Duration(math.Pow(2, attempts-1)); out of range, the conversion yields the least int64. */
  function PowerAsDuration(attempts: nat): int
  {
    if attempts == 0 then 0 else if Pow2(attempts - 1) < TWO_TO_63 then Pow2(attempts - 1) else -TWO_TO_63
  }

  /** The delay in nanoseconds, with the product wrapping as int64 does. */
  function RetryDelay(attempts: nat): int
  {
    Min(Int64(SECOND * PowerAsDuration(attempts)), HOUR)
  }

  /** The delay intended: doubling from one second, at most an hour. */
  function IntendedDelay(attempts: nat): int
    requires attempts >= 1
  {
    Min(Pow2(attempts - 1), 3600) * SECOND
  }

  lemma DelayDoubles(attempts: nat)
    requires attempts >= 1
    ensures IntendedDelay(1) == 1_000_000_000
    ensures IntendedDelay(attempts + 1) == Min(2 * IntendedDelay(attempts), 3600 * 1_000_000_000)
  {
  }

  lemma {:induction false} Pow2Monotone(a: nat, b: nat)
    requires a <= b
    ensures Pow2(a) <= Pow2(b)
    decreases b - a
  {
    if a == b {
    } else {
      Pow2Monotone(a, b - 1);
    }
  }

  lemma Pow2Of33()
    ensures Pow2(33) == 8589934592
  {
    assert Pow2(11) == 2048;
    assert Pow2(22) == 4194304 by { assert Pow2(16) == 65536; }
    assert Pow2(28) == 268435456;
  }

  lemma DelayExactThrough34(attempts: nat)
    requires 1 <= attempts <= 34
    ensures RetryDelay(attempts) == IntendedDelay(attempts)
    ensures SECOND * Pow2(attempts - 1) < TWO_TO_63
  {
    Pow2Monotone(attempts - 1, 33);
    Pow2Of33();
    assert 0 <= SECOND * Pow2(attempts - 1) < TWO_TO_63;
  }

  /** At 35 the product wraps to a negative delay: the event is due again at once. */
  lemma DelayWrapsAt35()
    ensures RetryDelay(35) < 0 < IntendedDelay(35)
  {
    Pow2Of33();
    assert Pow2(34) == 17179869184;
  }

  /** fail only retries below maxAttempts, so every retry is on time exactly for limits up to 35. */
  lemma RetriesOnTimeIff(maxAttempts: nat)
    ensures (forall a :: 1 <= a < maxAttempts ==> RetryDelay(a) == IntendedDelay(a)) <==> maxAttempts <= 35
  {
    if maxAttempts <= 35 {
      forall a | 1 <= a < maxAttempts ensures RetryDelay(a) == IntendedDelay(a) {
        DelayExactThrough34(a);
      }
    } else {
      DelayWrapsAt35();
    }
  }
}
