/**
 * How far an outbox event gets: which workers can still call its handler once its fate is
 * decided, how many attempts it can take, and when it comes to an end.
 */
module OutboxProgress {
  import opened Basics
  import opened OutboxRows
  import opened OutboxWorkers

  // --------------------------------------------- handler calls after the end

  /** The worker has yet to decide on calling the handler, and no receipt will stop it. */
  predicate MayEnter(s: State, worker: Id)
  {
    && worker in s.tasks
    && (s.tasks[worker].phase == Checked(false) || (!s.receipt && s.tasks[worker].phase in {Claimed, Locked}))
  }

  ghost predicate HandlerReachable(s: State, c: Config)
  {
    exists steps :: Continue(s, c, steps).handlerCalls > s.handlerCalls
  }

  lemma Snoc(s: State, c: Config, steps: seq<Step>, step: Step)
    ensures Continue(s, c, steps + [step]) == Apply(Continue(s, c, steps), c, step)
  {
    assert (steps + [step])[..|steps|] == steps;
  }

  /** Steps left to the worker that holds the advisory lock. */
  function Rank(s: State): nat
  {
    if s.advisory.None? || s.advisory.value !in s.tasks then 0
    else
      match s.tasks[s.advisory.value].phase
      case Claimed => 0
      case Locked => 5
      case Checked(_) => 4
      case Handling => 3
      case Completing => 2
      case Failing => 2
      case Unlocking => 1
  }

  /** What that worker does next; a handler it is in fails. */
  function OwnStep(s: State, u: Id): Step
    requires u in s.tasks
  {
    match s.tasks[u].phase
    case Locked => ReadReceipt(u)
    case Checked(_) => EnterHandler(u)
    case Handling => HandlerReturns(u, false)
    case Completing => CompleteTransaction(u)
    case Failing => FailUpdate(u)
    case _ => Unlock(u)
  }

  /** The lock is held by a worker that will not enter, and w waits with its claim. */
  predicate Finishing(s: State, w: Id)
  {
    At(s, w, Claimed) && s.advisory.Some? && !MayEnter(s, s.advisory.value)
  }

  lemma FinishingStep(s: State, c: Config, w: Id)
    requires Inv(s) && Terminal(s) && Finishing(s, w)
    ensures var s' := Apply(s, c, OwnStep(s, s.advisory.value));
            && s'.handlerCalls == s.handlerCalls && At(s', w, Claimed)
            && (s'.advisory.None? || (Finishing(s', w) && Rank(s') < Rank(s)))
  {
  }

  /** Another worker finishes and gives the lock back; the terminal event and w's task stay as they are. */
  lemma LetFinish(s: State, c: Config, steps: seq<Step>, w: Id) returns (longer: seq<Step>)
    requires var s' := Continue(s, c, steps); Inv(s') && Terminal(s') && Finishing(s', w)
    ensures var before, after := Continue(s, c, steps), Continue(s, c, longer);
            && Inv(after) && after.event == before.event && after.receipt == before.receipt
            && after.handlerCalls == before.handlerCalls && after.advisory.None? && At(after, w, Claimed)
    decreases Rank(Continue(s, c, steps))
  {
    var s' := Continue(s, c, steps);
    var step := OwnStep(s', s'.advisory.value);
    longer := steps + [step];
    Snoc(s, c, steps, step);
    FinishingStep(s', c, w);
    StepKeepsInv(s', c, step);
    TerminalIsAbsorbing(s', c, step);
    if Apply(s', c, step).advisory.None? {
    } else {
      longer := LetFinish(s, c, longer, w);
    }
  }

  /** With the lock free, or already inside, a worker that may enter gets there. */
  lemma Enters(s: State, c: Config, steps: seq<Step>, w: Id) returns (longer: seq<Step>)
    requires var s' := Continue(s, c, steps);
             MayEnter(s', w) && (At(s', w, Claimed) ==> s'.advisory.None?)
    ensures Continue(s, c, longer).handlerCalls == Continue(s, c, steps).handlerCalls + 1
  {
    var s' := Continue(s, c, steps);
    longer := steps;
    if At(s', w, Claimed) {
      Snoc(s, c, longer, TryAdvisoryLock(w));
      longer := longer + [TryAdvisoryLock(w)];
    }
    if !At(s', w, Checked(false)) {
      Snoc(s, c, longer, ReadReceipt(w));
      longer := longer + [ReadReceipt(w)];
    }
    Snoc(s, c, longer, EnterHandler(w));
    longer := longer + [EnterHandler(w)];
  }

  lemma MayEnterReaches(s: State, c: Config, w: Id)
    requires Inv(s) && Terminal(s) && MayEnter(s, w)
    ensures HandlerReachable(s, c)
  {
    assert Continue(s, c, []) == s;
    var steps := [];
    if At(s, w, Claimed) && s.advisory.Some? {
      if MayEnter(s, s.advisory.value) {
        steps := Enters(s, c, [], s.advisory.value);
      } else {
        steps := LetFinish(s, c, [], w);
        steps := Enters(s, c, steps, w);
      }
    } else {
      steps := Enters(s, c, [], w);
    }
    assert Continue(s, c, steps).handlerCalls > s.handlerCalls;
  }

  ghost predicate NobodyMayEnter(s: State)
  {
    forall w: Id :: !MayEnter(s, w)
  }

  lemma StepKeepsNobody(s: State, c: Config, step: Step)
    requires Inv(s) && Terminal(s) && NobodyMayEnter(s)
    ensures NobodyMayEnter(Apply(s, c, step)) && Apply(s, c, step).handlerCalls == s.handlerCalls
  {
    var s' := Apply(s, c, step);
    TerminalIsAbsorbing(s, c, step);
    forall w: Id ensures !MayEnter(s', w) {
      assert !MayEnter(s, w);
    }
    if step.EnterHandler? {
      assert !MayEnter(s, step.worker);
    }
  }

  lemma {:induction false} NobodyEverEnters(s: State, c: Config, steps: seq<Step>)
    requires Inv(s) && Terminal(s) && NobodyMayEnter(s)
    ensures var s' := Continue(s, c, steps);
            Inv(s') && Terminal(s') && NobodyMayEnter(s') && s'.handlerCalls == s.handlerCalls
  {
    if steps == [] {
    } else {
      var s' := Continue(s, c, steps[..|steps| - 1]);
      NobodyEverEnters(s, c, steps[..|steps| - 1]);
      StepKeepsInv(s', c, steps[|steps| - 1]);
      TerminalIsAbsorbing(s', c, steps[|steps| - 1]);
      StepKeepsNobody(s', c, steps[|steps| - 1]);
    }
  }

  /**
   * Once an event is processed or dead-lettered, its handler can be called again if and only if
   * some worker has read that there is no receipt, or, without a receipt, still has its claim.
   */
  lemma HandlerReachableIff(s: State, c: Config)
    requires Inv(s) && Terminal(s)
    ensures HandlerReachable(s, c) <==> exists w: Id :: MayEnter(s, w)
  {
    if w: Id :| MayEnter(s, w) {
      MayEnterReaches(s, c, w);
    }
    if HandlerReachable(s, c) && NobodyMayEnter(s) {
      var steps :| Continue(s, c, steps).handlerCalls > s.handlerCalls;
      NobodyEverEnters(s, c, steps);
    }
  }

  /** So a worker that has just dead-lettered an event leaves it alone exactly when no other worker has a task. */
  lemma DeadButHandledIff(s: State, c: Config, v: Id)
    requires Inv(s) && HandlerInv(s) && At(s, v, Unlocking) && Dead(s.event)
    ensures HandlerReachable(s, c) <==> exists w: Id :: w in s.tasks && w != v
  {
    HandlerReachableIff(s, c);
    forall w | w in s.tasks && w != v ensures MayEnter(s, w) {
      assert Inside(s, v);
      assert !Inside(s, w);
    }
  }

  /** And a processed event is never handled again unless a worker was orphaned between check and handler. */
  lemma ProcessedIsNeverHandledAgain(s: State, c: Config)
    requires Inv(s) && HandlerInv(s) && Processed(s.event)
    ensures !HandlerReachable(s, c)
  {
    HandlerReachableIff(s, c);
    forall w: Id ensures !MayEnter(s, w) {
      assert !At(s, w, Checked(false));
    }
  }

  // ---------------------------------------------------------------- attempts

  /** A live event that nobody has locked still has attempts left. */
  ghost predicate AttemptsInv(s: State, c: Config)
  {
    s.event.lock.None? && !Terminal(s) ==> s.event.attempts < c.maxAttempts
  }

  /** A claim takes over an expired lock at the last attempt; claims never look at the limit. */
  predicate Overruns(s: State, c: Config, step: Step)
  {
    && step.ClaimEvent? && step.worker !in s.tasks && Claimable(s.event, s.now, c.ttl)
    && s.event.lock.Some? && s.event.attempts == c.maxAttempts
  }

  lemma StepKeepsAttemptsInv(s: State, c: Config, step: Step)
    requires Inv(s) && AttemptsInv(s, c)
    ensures AttemptsInv(Apply(s, c, step), c)
    ensures s.event.attempts <= Apply(s, c, step).event.attempts
  {
  }

  lemma StepOverrunsIff(s: State, c: Config, step: Step)
    requires AttemptsInv(s, c) && s.event.attempts <= c.maxAttempts
    ensures Apply(s, c, step).event.attempts > c.maxAttempts <==> Overruns(s, c, step)
  {
  }

  lemma StepBoundedIff(s: State, c: Config, step: Step)
    requires Inv(s) && AttemptsInv(s, c)
    ensures var s' := Apply(s, c, step);
            && Inv(s') && AttemptsInv(s', c)
            && (s'.event.attempts <= c.maxAttempts <==> s.event.attempts <= c.maxAttempts && !Overruns(s, c, step))
  {
    StepKeepsInv(s, c, step);
    StepKeepsAttemptsInv(s, c, step);
    if s.event.attempts <= c.maxAttempts {
      StepOverrunsIff(s, c, step);
    }
  }

  predicate OverrunsAt(c: Config, availableAt: int, steps: seq<Step>, k: nat)
    requires k < |steps|
  {
    Overruns(After(c, availableAt, steps, k), c, steps[k])
  }

  ghost predicate NoOverrun(c: Config, availableAt: int, steps: seq<Step>, n: nat)
    requires n <= |steps|
  {
    forall k :: 0 <= k < n ==> !OverrunsAt(c, availableAt, steps, k)
  }

  lemma NoOverrunSnoc(c: Config, availableAt: int, steps: seq<Step>, n: nat)
    requires n < |steps|
    ensures NoOverrun(c, availableAt, steps, n + 1) <==>
              NoOverrun(c, availableAt, steps, n) && !Overruns(After(c, availableAt, steps, n), c, steps[n])
  {
    assert OverrunsAt(c, availableAt, steps, n) <==> Overruns(After(c, availableAt, steps, n), c, steps[n]);
  }

  /** An event is claimed at most MaxAttempts times if and only if no claim takes over an expired lock at the limit. */
  lemma {:induction false} AttemptsBoundedIff(c: Config, availableAt: int, steps: seq<Step>, n: nat)
    requires c.maxAttempts >= 1 && n <= |steps|
    ensures var s := After(c, availableAt, steps, n);
            && Inv(s) && AttemptsInv(s, c)
            && (s.event.attempts <= c.maxAttempts <==> NoOverrun(c, availableAt, steps, n))
  {
    if n == 0 {
      assert After(c, availableAt, steps, 0) == Enqueued(availableAt);
    } else {
      AttemptsBoundedIff(c, availableAt, steps, n - 1);
      AfterStep(c, availableAt, steps, n - 1);
      StepBoundedIff(After(c, availableAt, steps, n - 1), c, steps[n - 1]);
      NoOverrunSnoc(c, availableAt, steps, n - 1);
    }
  }

  // ---------------------------------------------- concrete runs past the limit

  /** The event changes hands n times because every claim outlives its lock; workers 1..n keep their tasks. */
  lemma {:induction false} TakeOvers(c: Config, n: nat) returns (steps: seq<Step>)
    requires c.ttl >= 1 && n >= 1
    ensures var s := Run(c, 0, steps);
            && s.event == Event(n, 0, 0, Some(Lock(s.now, n)), None, None) && s.now >= 0
            && s.advisory.None? && !s.receipt && s.handlerCalls == 0
            && (forall w :: w in s.tasks <==> 1 <= w <= n)
            && (forall w :: w in s.tasks ==> s.tasks[w] == Task(w, Claimed))
  {
    var s;
    if n == 1 {
      steps, s := Extend(c, 0, [], ClaimEvent(1));
    } else {
      steps := TakeOvers(c, n - 1);
      steps, s := Extend(c, 0, steps, Tick(c.ttl + 1));
      steps, s := Extend(c, 0, steps, ClaimEvent(n));
    }
  }

  /** Whatever the configuration, expiring locks alone can take an event past MaxAttempts. */
  lemma ExpiryExceedsMaxAttempts(c: Config) returns (steps: seq<Step>)
    requires c.ttl >= 1 && c.maxAttempts >= 1
    ensures var s := Run(c, 0, steps); s.event.attempts == c.maxAttempts + 1 && !Terminal(s)
  {
    steps := TakeOvers(c, c.maxAttempts + 1);
  }

  /** The last of the workers handles the event, fails, and dead-letters it. */
  lemma LastWorkerFails(c: Config) returns (steps: seq<Step>)
    requires c.ttl >= 1 && c.maxAttempts >= 1
    ensures var s := Run(c, 0, steps);
            Inv(s) && Dead(s.event) && At(s, c.maxAttempts + 1, Unlocking) && At(s, 1, Claimed)
  {
    var w := c.maxAttempts + 1;
    steps := TakeOvers(c, w);
    steps := StartsHandling(c, steps, w);
    steps := FailsForGood(c, steps, w);
    OutboxSafety(c, 0, steps);
  }

  lemma StartsHandling(c: Config, steps: seq<Step>, w: Id) returns (longer: seq<Step>)
    requires var s := Run(c, 0, steps);
             At(s, w, Claimed) && At(s, 1, Claimed) && w != 1 && s.advisory.None? && !s.receipt
    ensures var before, s := Run(c, 0, steps), Run(c, 0, longer);
            && At(s, w, Handling) && At(s, 1, Claimed) && s.event == before.event
            && s.tasks[w].attempts == before.tasks[w].attempts
  {
    var s;
    longer, s := Extend(c, 0, steps, TryAdvisoryLock(w));
    longer, s := Extend(c, 0, longer, ReadReceipt(w));
    assert At(s, w, Checked(false));
    longer, s := Extend(c, 0, longer, EnterHandler(w));
  }

  lemma FailsForGood(c: Config, steps: seq<Step>, w: Id) returns (longer: seq<Step>)
    requires var s := Run(c, 0, steps);
             At(s, w, Handling) && At(s, 1, Claimed) && w != 1 && s.tasks[w].attempts >= c.maxAttempts
             && Updatable(s.event, w)
    ensures var s := Run(c, 0, longer); Dead(s.event) && At(s, w, Unlocking) && At(s, 1, Claimed)
  {
    var s;
    longer, s := Extend(c, 0, steps, HandlerReturns(w, false));
    longer, s := Extend(c, 0, longer, FailUpdate(w));
  }

  /** A worker that stalls past its lock calls the handler of an event that is already dead-lettered. */
  lemma StaleWorkerHandlesDeadEvent(c: Config) returns (steps: seq<Step>)
    requires c.ttl >= 1 && c.maxAttempts >= 1
    ensures Dead(Run(c, 0, steps).event) && HandlerReachable(Run(c, 0, steps), c)
  {
    steps := LastWorkerFails(c);
    MayEnterReaches(Run(c, 0, steps), c, 1);
  }

  // ------------------------------------------------------------- termination

  /** Nothing is lost to time: no crash, no error, no lock taken over, no lock attempt turned away. */
  predicate Prompt(s: State, step: Step)
  {
    match step
    case Crash(_) => false
    case DatabaseError(_) => false
    case LoseConnection(_) => false
    case ClaimEvent(_) => s.event.lock.None?
    case TryAdvisoryLock(_) => s.advisory.None?
    case _ => true
  }

  ghost predicate PromptThrough(c: Config, availableAt: int, steps: seq<Step>, n: nat)
    requires n <= |steps|
  {
    forall k :: 0 <= k < n ==> Prompt(After(c, availableAt, steps, k), steps[k])
  }

  predicate Working(t: Task) { t.phase != Unlocking }

  predicate Started(t: Task) { t.phase in {Handling, Completing, Failing} }

  ghost predicate PromptInv(s: State, c: Config)
  {
    && s.event.attempts <= c.maxAttempts
    && (forall w :: w in s.tasks && Working(s.tasks[w]) ==> LockedBy(s.event, w))
    && (s.event.lock.Some? ==>
          s.event.lock.value.worker in s.tasks && Working(s.tasks[s.event.lock.value.worker]))
    && s.handlerCalls <= s.event.attempts
    && (forall w :: w in s.tasks && Working(s.tasks[w]) && !Started(s.tasks[w]) ==>
          s.handlerCalls < s.event.attempts)
  }

  lemma StepKeepsPromptInv(s: State, c: Config, step: Step)
    requires Inv(s) && AttemptsInv(s, c) && PromptInv(s, c) && Prompt(s, step)
    ensures PromptInv(Apply(s, c, step), c)
  {
  }

  /**
   * Outbox termination: when every claim is driven to its update in time, an event is claimed at
   * most MaxAttempts times, its handler is called at most MaxAttempts times, and once that many
   * claims have run their course the event is processed or dead-lettered.
   */
  lemma {:induction false} OutboxTerminates(c: Config, availableAt: int, steps: seq<Step>, n: nat)
    requires c.maxAttempts >= 1 && n <= |steps| && PromptThrough(c, availableAt, steps, n)
    ensures var s := After(c, availableAt, steps, n);
            && PromptInv(s, c)
            && s.handlerCalls <= s.event.attempts <= c.maxAttempts
            && (s.event.attempts == c.maxAttempts && (forall w :: w in s.tasks ==> !Working(s.tasks[w])) ==>
                  Terminal(s))
  {
    AttemptsBoundedIff(c, availableAt, steps, n);
    if n == 0 {
      assert After(c, availableAt, steps, 0) == Enqueued(availableAt);
    } else {
      OutboxTerminates(c, availableAt, steps, n - 1);
      AttemptsBoundedIff(c, availableAt, steps, n - 1);
      AfterStep(c, availableAt, steps, n - 1);
      StepKeepsPromptInv(After(c, availableAt, steps, n - 1), c, steps[n - 1]);
    }
  }

  /**
   * A failed event that is to be retried is claimed again exactly once its delay has passed,
   * whichever worker asks.
   */
  lemma RetryWaits(s: State, c: Config, w: Id, elapsed: nat, v: Id)
    requires At(s, w, Failing) && Updatable(s.event, w) && !Dead(s.event)
    requires 1 <= s.tasks[w].attempts <= 34 && s.tasks[w].attempts < c.maxAttempts
    requires v !in s.tasks
    ensures var waiting := Apply(Apply(s, c, FailUpdate(w)), c, Tick(elapsed));
            Apply(waiting, c, ClaimEvent(v)) != waiting <==> elapsed >= IntendedDelay(s.tasks[w].attempts)
  {
    DelayExactThrough34(s.tasks[w].attempts);
    var waiting := Apply(Apply(s, c, FailUpdate(w)), c, Tick(elapsed));
    assert v !in waiting.tasks;
  }
}
