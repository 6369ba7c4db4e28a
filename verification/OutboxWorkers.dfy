/**
 * Any number of workers over one outbox event: claims under an expiring row lock, an advisory
 * lock around processing, a receipt checked before the handler and written with completion.
 * Each statement, each advisory-lock call and each handler entry and exit is one step. The
 * advisory lock lives on a connection of its own, which can die while the handler goes on.
 */
module OutboxWorkers {
  import opened Basics
  import opened OutboxRows

  datatype Phase =
    | Claimed                  // returned by ClaimOutboxEvents
    | Locked                   // holds the advisory lock
    | Checked(handled: bool)   // has read the receipt
    | Handling                 // inside the handler
    | Completing               // about to run the completion transaction
    | Failing                  // about to run fail
    | Unlocking                // processLocked has returned

  datatype Task = Task(attempts: nat, phase: Phase)

  datatype State = State(
    now: int, event: Event, receipt: bool, advisory: Option<Id>, tasks: map<Id, Task>, handlerCalls: nat)

  datatype Config = Config(ttl: nat, maxAttempts: nat)

  datatype Step =
    | Tick(elapsed: nat)
    | ClaimEvent(worker: Id)
    | TryAdvisoryLock(worker: Id)
    | MissingHandler(worker: Id)
    | ReadReceipt(worker: Id)
    | EnterHandler(worker: Id)
    | HandlerReturns(worker: Id, ok: bool)
    | CompleteTransaction(worker: Id)
    | FailUpdate(worker: Id)
    | Unlock(worker: Id)
    | DatabaseError(worker: Id)    // a statement fails, and processLocked returns its error
    | LoseConnection(worker: Id)   // the connection that holds the advisory lock dies, nothing else
    | Crash(worker: Id)            // the process dies

  predicate At(s: State, worker: Id, phase: Phase) { worker in s.tasks && s.tasks[worker].phase == phase }

  function Move(s: State, worker: Id, phase: Phase): State
    requires worker in s.tasks
  {
    s.(tasks := s.tasks[worker := s.tasks[worker].(phase := phase)])
  }

  function Drop(s: State, worker: Id): State
  {
    s.(tasks := s.tasks - {worker}, advisory := if s.advisory == Some(worker) then None else s.advisory)
  }

  function Apply(s: State, c: Config, step: Step): State
  {
    match step
    case Tick(elapsed) => s.(now := s.now + elapsed)
    case ClaimEvent(w) =>
      // RunOnce waits for its goroutines, so a worker claims again only without a task
      if w in s.tasks || !Claimable(s.event, s.now, c.ttl) then s
      else s.(event := Claim(s.event, w, s.now), tasks := s.tasks[w := Task(s.event.attempts + 1, Claimed)])
    case TryAdvisoryLock(w) =>
      if !At(s, w, Claimed) then s
      else if s.advisory.Some? then Drop(s, w)
      else Move(s, w, Locked).(advisory := Some(w))
    case MissingHandler(w) => if At(s, w, Locked) then Move(s, w, Failing) else s
    case ReadReceipt(w) => if At(s, w, Locked) then Move(s, w, Checked(s.receipt)) else s
    case EnterHandler(w) =>
      if At(s, w, Checked(false)) then Move(s, w, Handling).(handlerCalls := s.handlerCalls + 1)
      else if At(s, w, Checked(true)) then Move(s, w, Completing)
      else s
    case HandlerReturns(w, ok) =>
      if At(s, w, Handling) then Move(s, w, if ok then Completing else Failing) else s
    case CompleteTransaction(w) =>
      if !At(s, w, Completing) then s
      else if Updatable(s.event, w)
      then Move(s, w, Unlocking).(event := Complete(s.event, w, s.now), receipt := true)
      else Move(s, w, Unlocking)   // zero rows updated: rolled back with the receipt
    case FailUpdate(w) =>
      if !At(s, w, Failing) then s
      else Move(s, w, Unlocking).(event := Fail(s.event, w, s.tasks[w].attempts, c.maxAttempts, s.now))
    case Unlock(w) => if At(s, w, Unlocking) then Drop(s, w) else s
    case DatabaseError(w) =>
      if At(s, w, Locked) || At(s, w, Completing) || At(s, w, Failing) then Move(s, w, Unlocking) else s
    case LoseConnection(w) => if s.advisory == Some(w) then s.(advisory := None) else s
    case Crash(w) => Drop(s, w)
  }

  function Enqueued(availableAt: int): State
  {
    State(0, Event(0, availableAt, 0, None, None, None), false, None, map[], 0)
  }

  function Continue(s: State, c: Config, steps: seq<Step>): State
  {
    if steps == [] then s
    else Apply(Continue(s, c, steps[..|steps| - 1]), c, steps[|steps| - 1])
  }

  function Run(c: Config, availableAt: int, steps: seq<Step>): State
  {
    Continue(Enqueued(availableAt), c, steps)
  }

  /** The state after the first k steps. */
  function After(c: Config, availableAt: int, steps: seq<Step>, k: nat): State
    requires k <= |steps|
  {
    Run(c, availableAt, steps[..k])
  }

  lemma AfterStep(c: Config, availableAt: int, steps: seq<Step>, k: nat)
    requires k < |steps|
    ensures After(c, availableAt, steps, k + 1) == Apply(After(c, availableAt, steps, k), c, steps[k])
  {
    assert steps[..k + 1][..k] == steps[..k];
  }

  // ------------------------------------------- the guarded updates, by the row's fields

  /**
   * Exactly when a claim takes the row: the worker has no task, the row is unprocessed, not dead
   * and due, and it is unlocked or was locked longer ago than the TTL, by anyone.
   */
  lemma ClaimsIff(s: State, c: Config, v: Id)
    ensures var e, s' := s.event, Apply(s, c, ClaimEvent(v));
            && (s' != s <==>
                  v !in s.tasks && e.processedAt.None? && e.deadLetteredAt.None? && e.availableAt <= s.now
                  && (e.lock.Some? ==> s.now - e.lock.value.at > c.ttl))
            && (s' != s ==>
                  && s'.event == Event(e.attempts + 1, e.availableAt, e.createdAt, Some(Lock(s.now, v)), None, None)
                  && s'.tasks == s.tasks[v := Task(e.attempts + 1, Claimed)]
                  && s' == s.(event := s'.event, tasks := s'.tasks))
  {
    assert v !in s.tasks ==> s.tasks[v := Task(s.event.attempts + 1, Claimed)] != s.tasks;
  }

  /** A lock taken at t keeps every other claim out until t plus the TTL, and none after it. */
  lemma TakenOverIff(s: State, c: Config, v: Id, t: int)
    requires v !in s.tasks && s.event.lock.Some? && s.event.lock.value.at == t
    requires s.event.processedAt.None? && s.event.deadLetteredAt.None? && s.event.availableAt <= s.now
    ensures Apply(s, c, ClaimEvent(v)) != s <==> s.now - t > c.ttl
  {
    ClaimsIff(s, c, v);
  }

  /** What the transaction of a worker that is about to complete does: both writes or neither. */
  lemma CompletesIff(s: State, c: Config, w: Id)
    requires w in s.tasks && s.tasks[w].phase == Completing
    ensures var e, s' := s.event, Apply(s, c, CompleteTransaction(w));
            var ours := e.lock.Some? && e.lock.value.worker == w && e.processedAt.None?;
            && (ours ==>
                  s'.receipt && s'.event == Event(e.attempts, e.availableAt, e.createdAt, None, Some(s.now),
                                                  e.deadLetteredAt))
            && (!ours ==> s'.receipt == s.receipt && s'.event == e)
            && s' == s.(event := s'.event, receipt := s'.receipt,
                        tasks := s.tasks[w := Task(s.tasks[w].attempts, Unlocking)])
  {
    CompleteLeaves(s.event, w, s.now);
  }

  /** What a failing worker's update does, by the attempt its claim recorded. */
  lemma FailsIff(s: State, c: Config, w: Id)
    requires w in s.tasks && s.tasks[w].phase == Failing
    ensures var e, n, s' := s.event, s.tasks[w].attempts, Apply(s, c, FailUpdate(w));
            var ours := e.lock.Some? && e.lock.value.worker == w && e.processedAt.None?;
            && (!ours ==> s'.event == e)
            && (ours && n >= c.maxAttempts ==>
                  s'.event == Event(e.attempts, e.availableAt, e.createdAt, None, None, Some(s.now)))
            && (ours && n < c.maxAttempts && 1 <= n <= 34 ==>
                  s'.event == Event(e.attempts, s.now + IntendedDelay(n), e.createdAt, None, None, e.deadLetteredAt))
            && s' == s.(event := s'.event, tasks := s.tasks[w := Task(n, Unlocking)])
  {
    FailLeaves(s.event, w, s.tasks[w].attempts, c.maxAttempts, s.now);
  }

  // ------------------------------------------------------- what always holds

  /** The worker is between taking the advisory lock and giving it back. */
  predicate Inside(s: State, worker: Id) { worker in s.tasks && s.tasks[worker].phase != Claimed }

  predicate Terminal(s: State) { Processed(s.event) || Dead(s.event) }

  ghost predicate Inv(s: State)
  {
    && !(Processed(s.event) && Dead(s.event))
    && (Terminal(s) ==> s.event.lock.None?)
    && (s.receipt <==> Processed(s.event))
    && (s.advisory.Some? ==> Inside(s, s.advisory.value))
    && (forall w :: w in s.tasks && s.tasks[w].phase == Checked(true) ==> s.receipt)
    && (forall w :: w in s.tasks && LockedBy(s.event, w) ==> s.tasks[w].attempts == s.event.attempts)
  }

  lemma StepKeepsInv(s: State, c: Config, step: Step)
    requires Inv(s)
    ensures Inv(Apply(s, c, step))
  {
  }

  /**
   * For any workers, crashes, lock expiries, database errors and lost connections: processed and
   * dead-lettered exclude each other, and a receipt exists exactly when the event is processed.
   */
  lemma {:induction false} OutboxSafety(c: Config, availableAt: int, steps: seq<Step>)
    ensures var s := Run(c, availableAt, steps);
            && Inv(s)
            && !(Processed(s.event) && Dead(s.event))
            && (s.receipt <==> Processed(s.event))
  {
    if steps == [] {
    } else {
      OutboxSafety(c, availableAt, steps[..|steps| - 1]);
      StepKeepsInv(Run(c, availableAt, steps[..|steps| - 1]), c, steps[|steps| - 1]);
    }
  }

  /** Both terminal states are absorbing, with their time stamps and their attempts. */
  lemma TerminalIsAbsorbing(s: State, c: Config, step: Step)
    requires Inv(s) && Terminal(s)
    ensures Apply(s, c, step).event == s.event && Apply(s, c, step).receipt == s.receipt
  {
  }

  // ------------------------------------------------------- one worker at a time

  ghost predicate Exclusive(s: State)
  {
    forall v: Id, w: Id :: Inside(s, v) && Inside(s, w) ==> v == w
  }

  /** The advisory lock is granted while a worker whose lock connection died is still at work. */
  ghost predicate Intrudes(s: State, step: Step)
  {
    step.TryAdvisoryLock? && At(s, step.worker, Claimed) && s.advisory.None? && exists v: Id :: Inside(s, v)
  }

  /** What holds as long as workers exclude each other: nobody is in the handler once it has been done. */
  ghost predicate HandlerInv(s: State)
  {
    && Exclusive(s)
    && (forall w :: w in s.tasks && s.tasks[w].phase == Handling ==> !s.receipt)
    && (forall w :: w in s.tasks && s.tasks[w].phase == Checked(false) ==> !s.receipt)
  }

  lemma StepKeepsExclusive(s: State, c: Config, step: Step)
    requires Inv(s) && Exclusive(s) && !Intrudes(s, step)
    ensures Exclusive(Apply(s, c, step))
  {
    var s' := Apply(s, c, step);
    forall v: Id, w: Id | Inside(s', v) && Inside(s', w) ensures v == w {
      assert (Inside(s, v) || step == TryAdvisoryLock(v)) && (Inside(s, w) || step == TryAdvisoryLock(w));
    }
  }

  lemma StepExcludesIff(s: State, c: Config, step: Step)
    requires Inv(s) && HandlerInv(s)
    ensures HandlerInv(Apply(s, c, step)) <==> !Intrudes(s, step)
    ensures Exclusive(Apply(s, c, step)) <==> !Intrudes(s, step)
  {
    var s' := Apply(s, c, step);
    if Intrudes(s, step) {
      var v: Id :| Inside(s, v);
      assert Inside(s', v) && Inside(s', step.worker);
    } else {
      StepKeepsExclusive(s, c, step);
      assert step.CompleteTransaction? && At(s, step.worker, Completing) ==> Inside(s, step.worker);
      forall w | w in s'.tasks && s'.tasks[w].phase in {Handling, Checked(false)} ensures !s'.receipt {
        assert Inside(s, w);
      }
    }
  }

  /** The worker enters its handler at its next steps, if it has come that far and nothing stops it. */
  function Advanced(s: State, c: Config, w: Id): State
  {
    Apply(Apply(s, c, ReadReceipt(w)), c, EnterHandler(w))
  }

  /**
   * Exactly when an intruder v and an orphan w meet inside the handler as both go on: when the
   * orphan is in it, or has still to enter it without having seen a receipt.
   */
  lemma IntruderMeetsHandlerIff(s: State, c: Config, v: Id, w: Id)
    requires Inv(s) && At(s, v, Locked) && Inside(s, w) && v != w
    ensures var s' := Advanced(Advanced(s, c, w), c, v);
            At(s', v, Handling) && At(s', w, Handling) <==>
              !s.receipt && s.tasks[w].phase in {Locked, Checked(false), Handling}
  {
    var mid := Advanced(s, c, w);
    assert At(mid, v, Locked) && mid.receipt == s.receipt;
    assert At(mid, w, Handling) <==> s.tasks[w].phase in {Checked(false), Handling} || (At(s, w, Locked) && !s.receipt);
  }

  ghost predicate ExclusiveThrough(c: Config, availableAt: int, steps: seq<Step>, n: nat)
    requires n <= |steps|
  {
    forall k :: 0 <= k <= n ==> Exclusive(After(c, availableAt, steps, k))
  }

  ghost predicate NoIntrusion(c: Config, availableAt: int, steps: seq<Step>, n: nat)
    requires n <= |steps|
  {
    forall k :: 0 <= k < n ==> !Intrudes(After(c, availableAt, steps, k), steps[k])
  }

  /**
   * Throughout a run at most one worker is between lock and unlock, if and only if the lock is
   * never granted while a worker that lost its lock connection is still at work. Then at most one
   * worker is in the handler, and nobody is in it once the event is processed.
   */
  lemma {:induction false} ExclusionIff(c: Config, availableAt: int, steps: seq<Step>, n: nat)
    requires n <= |steps|
    ensures ExclusiveThrough(c, availableAt, steps, n) <==> NoIntrusion(c, availableAt, steps, n)
    ensures NoIntrusion(c, availableAt, steps, n) ==> HandlerInv(After(c, availableAt, steps, n))
  {
    if n == 0 {
      assert After(c, availableAt, steps, 0) == Enqueued(availableAt);
    } else {
      ExclusionIff(c, availableAt, steps, n - 1);
      AfterStep(c, availableAt, steps, n - 1);
      OutboxSafety(c, availableAt, steps[..n - 1]);
      if NoIntrusion(c, availableAt, steps, n - 1) {
        StepExcludesIff(After(c, availableAt, steps, n - 1), c, steps[n - 1]);
      }
    }
  }

  ghost predicate Connected(s: State)
  {
    forall w: Id :: Inside(s, w) ==> s.advisory == Some(w)
  }

  /** As long as no lock connection is lost, whoever is inside holds the lock. */
  lemma {:induction false} ConnectedMeansExclusive(c: Config, availableAt: int, steps: seq<Step>, n: nat)
    requires n <= |steps| && forall k :: 0 <= k < n ==> !steps[k].LoseConnection?
    ensures Connected(After(c, availableAt, steps, n))
  {
    if n == 0 {
      assert After(c, availableAt, steps, 0) == Enqueued(availableAt);
    } else {
      ConnectedMeansExclusive(c, availableAt, steps, n - 1);
      AfterStep(c, availableAt, steps, n - 1);
      StepKeepsConnected(After(c, availableAt, steps, n - 1), c, steps[n - 1]);
    }
  }

  lemma StepKeepsConnected(s: State, c: Config, step: Step)
    requires Connected(s) && !step.LoseConnection?
    ensures Connected(Apply(s, c, step))
  {
    forall w: Id | Inside(Apply(s, c, step), w) ensures Apply(s, c, step).advisory == Some(w) {
      assert Inside(s, w) || step == TryAdvisoryLock(w);
    }
  }

  /** Hence crashes, expiries and database errors alone never bring two workers together. */
  lemma ConnectedHandlersExclude(c: Config, availableAt: int, steps: seq<Step>)
    requires forall k :: 0 <= k < |steps| ==> !steps[k].LoseConnection?
    ensures var s := Run(c, availableAt, steps);
            && HandlerInv(s)
            && (forall v: Id, w: Id :: At(s, v, Handling) && At(s, w, Handling) ==> v == w)
            && (forall w: Id :: At(s, w, Handling) ==> !Processed(s.event))
  {
    forall k | 0 <= k < |steps| ensures !Intrudes(After(c, availableAt, steps, k), steps[k]) {
      ConnectedMeansExclusive(c, availableAt, steps, k);
    }
    ExclusionIff(c, availableAt, steps, |steps|);
    OutboxSafety(c, availableAt, steps);
    assert steps[..|steps|] == steps;
    var s := Run(c, availableAt, steps);
    forall v: Id, w: Id | At(s, v, Handling) && At(s, w, Handling) ensures v == w {
      assert Inside(s, v) && Inside(s, w);
    }
  }

  // ------------------------------------------------ the condition is needed

  /** One more step of a concrete run. */
  lemma Extend(c: Config, availableAt: int, steps: seq<Step>, step: Step) returns (longer: seq<Step>, s: State)
    ensures longer == steps + [step]
    ensures s == Apply(Run(c, availableAt, steps), c, step) == Run(c, availableAt, longer)
  {
    longer := steps + [step];
    assert longer[..|longer| - 1] == steps;
    s := Apply(Run(c, availableAt, steps), c, step);
  }

  lemma FirstIsHandling(c: Config) returns (steps: seq<Step>)
    ensures Run(c, 0, steps) ==
            State(0, Event(1, 0, 0, Some(Lock(0, 1)), None, None), false, Some(1), map[1 := Task(1, Handling)], 1)
  {
    var s;
    steps, s := Extend(c, 0, [], ClaimEvent(1));
    steps, s := Extend(c, 0, steps, TryAdvisoryLock(1));
    assert s.tasks == map[1 := Task(1, Locked)];
    steps, s := Extend(c, 0, steps, ReadReceipt(1));
    assert s.tasks == map[1 := Task(1, Checked(false))];
    steps, s := Extend(c, 0, steps, EnterHandler(1));
    assert s.tasks == map[1 := Task(1, Handling)];
  }

  /** Its lock connection dies, its claim expires, and another worker claims the event. */
  lemma SecondHasClaimed(c: Config) returns (steps: seq<Step>)
    requires c.ttl >= 1
    ensures Run(c, 0, steps) ==
            State(c.ttl + 1, Event(2, 0, 0, Some(Lock(c.ttl + 1, 2)), None, None), false, None,
                  map[1 := Task(1, Handling), 2 := Task(2, Claimed)], 1)
  {
    steps := FirstIsHandling(c);
    var s;
    steps, s := Extend(c, 0, steps, LoseConnection(1));
    steps, s := Extend(c, 0, steps, Tick(c.ttl + 1));
    steps, s := Extend(c, 0, steps, ClaimEvent(2));
    assert s.tasks == map[1 := Task(1, Handling), 2 := Task(2, Claimed)];
  }

  /** After a lost connection two workers can be in the handler .. */
  lemma TwoInHandler(c: Config) returns (steps: seq<Step>)
    requires c.ttl >= 1
    ensures Run(c, 0, steps) ==
            State(c.ttl + 1, Event(2, 0, 0, Some(Lock(c.ttl + 1, 2)), None, None), false, Some(2),
                  map[1 := Task(1, Handling), 2 := Task(2, Handling)], 2)
  {
    steps := SecondHasClaimed(c);
    var s;
    steps, s := Extend(c, 0, steps, TryAdvisoryLock(2));
    assert s.tasks == map[1 := Task(1, Handling), 2 := Task(2, Locked)];
    steps, s := Extend(c, 0, steps, ReadReceipt(2));
    assert s.tasks == map[1 := Task(1, Handling), 2 := Task(2, Checked(false))];
    steps, s := Extend(c, 0, steps, EnterHandler(2));
    assert s.tasks == map[1 := Task(1, Handling), 2 := Task(2, Handling)];
  }

  /** .. and one of them still is when the other has processed the event. */
  lemma HandlingAfterProcessed(c: Config) returns (steps: seq<Step>)
    requires c.ttl >= 1
    ensures var s := Run(c, 0, steps); At(s, 1, Handling) && Processed(s.event)
  {
    steps := TwoInHandler(c);
    var s;
    steps, s := Extend(c, 0, steps, HandlerReturns(2, true));
    steps, s := Extend(c, 0, steps, CompleteTransaction(2));
  }
}
