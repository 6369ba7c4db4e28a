/**
 * What keeps a conversation from being deleted or re-modelled under a running generation. A
 * command holds its actor's lease from before its transaction until its settlement; in between
 * its goroutine changes the generation row and the conversation's state in separate statements,
 * while deletes, model changes and other commands come and go.
 */
module ActivityGuard {
  import opened Basics
  import opened Conversations
  import S = Streaming

  datatype Phase =
    | Reading      // lease held, transaction not run yet
    | Driving      // the generation row exists and is active
    | Finalized    // FinalizeGeneration has run, the conversation is not idle yet
    | Settling     // only the settlement is left

  datatype State = State(c: Conversation, lease: Option<Id>, drivers: map<Id, Phase>, modelAt: map<Id, Id>)

  datatype Step =
    | Begin(id: Id)                                              // reads the conversation, takes the lease
    | CommitAccept(id: Id, ids: Ids, content: string, key: string, model: Id)
    | CommitRetry(id: Id, ids: Ids, previous: Generation, key: string, model: Id)
    | MarkStreaming(id: Id)
    | SetStreaming(id: Id)
    | FinalizeRow(id: Id, status: S.GenerationStatus, retryable: bool, countsFit: bool)
    | SetIdle(id: Id)
    | SettleAndRelease(id: Id)
    | Delete
    | ChangeModel(model: Id)
    | LeaseExpires

  predicate At(s: State, id: Id, phase: Phase) { id in s.drivers && s.drivers[id] == phase }

  function Commit(s: State, id: Id, r: Result<Conversation, TxError>): State
  {
    match r
    case Err(_) => s.(drivers := s.drivers[id := Settling])
    case Ok(c) => s.(c := c, drivers := s.drivers[id := Driving], modelAt := s.modelAt[id := s.c.model])
  }

  function Apply(s: State, step: Step): State
  {
    match step
    case Begin(id) =>
      if id in s.drivers || s.c.deleted || s.lease.Some? then s
      else s.(lease := Some(id), drivers := s.drivers[id := Reading])
    case CommitAccept(id, ids, content, key, model) =>
      if !At(s, id, Reading) || ids.generation != id then s
      else Commit(s, id, AcceptTx(s.c, ids, content, key, model))
    case CommitRetry(id, ids, previous, key, model) =>
      if !At(s, id, Reading) || ids.generation != id then s
      else Commit(s, id, RetryTx(s.c, ids, previous, key, model))
    case MarkStreaming(id) =>
      if !At(s, id, Driving) then s else s.(c := s.c.(generations := MarkGeneration(s.c.generations, id)))
    case SetStreaming(id) =>
      if !At(s, id, Driving) then s else s.(c := SetState(s.c, S.StreamingState))
    case FinalizeRow(id, status, retryable, countsFit) =>
      if !At(s, id, Driving) || S.Active(status) then s
      else s.(c := (if countsFit
                   then s.c.(generations := FinalizeGeneration(s.c.generations, id, status, retryable))
                   else s.c),
              drivers := s.drivers[id := Finalized])
    case SetIdle(id) =>
      if !At(s, id, Finalized) then s else s.(c := SetState(s.c, S.Idle), drivers := s.drivers[id := Settling])
    case SettleAndRelease(id) =>
      if !At(s, id, Settling) then s
      else s.(lease := if s.lease == Some(id) then None else s.lease, drivers := s.drivers - {id})
    case Delete => s.(c := Conversations.Apply(s.c, SoftDelete))
    case ChangeModel(model) => s.(c := Conversations.Apply(s.c, UpdateModel(model)))
    case LeaseExpires => s.(lease := None)
  }

  function Run(model: Id, steps: seq<Step>): State
  {
    if steps == [] then State(Created(model), None, map[], map[])
    else Apply(Run(model, steps[..|steps| - 1]), steps[|steps| - 1])
  }

  /** An active generation implies a conversation that is neither idle nor deleted. */
  predicate Guarded(c: Conversation)
  {
    AnyActive(c.generations) ==> c.state != S.Idle && !c.deleted
  }

  /** The model the conversation had when the generation was accepted is the one it still has. */
  ghost predicate Protected(s: State)
  {
    && Guarded(s.c)
    && forall i :: 0 <= i < |s.c.generations| && Active(s.c.generations[i]) ==>
         s.c.generations[i].id in s.modelAt && s.c.model == s.modelAt[s.c.generations[i].id]
  }

  /**
   * The one statement that does harm: the idle write that ends a run, when a generation is active.
   * That is another command's, or the run's own if its final counts did not fit.
   */
  predicate Hides(s: State, step: Step)
  {
    step.SetIdle? && At(s, step.id, Finalized) && AnyActive(s.c.generations)
  }

  // ------------------------------------------------------------ single steps

  lemma CommitProtects(s: State, id: Id, g: Generation, r: Result<Conversation, TxError>)
    requires Protected(s)
    requires r.Ok? ==>
      && !s.c.deleted && !AnyActive(s.c.generations) && g.id == id && r.value.generations == s.c.generations + [g]
      && r.value.state == S.AcceptedState && !r.value.deleted && r.value.model == s.c.model
    ensures Protected(Commit(s, id, r))
  {
  }

  /** Marking and finalizing leave every row that is still active where it was. */
  lemma RowStepProtects(s: State, step: Step)
    requires Protected(s) && (step.MarkStreaming? || step.FinalizeRow?)
    ensures Protected(Apply(s, step))
  {
    var s' := Apply(s, step);
    assert |s'.c.generations| == |s.c.generations|;
    forall i | 0 <= i < |s'.c.generations| && Active(s'.c.generations[i])
      ensures s'.c.generations[i].id == s.c.generations[i].id && Active(s.c.generations[i])
    {
    }
  }

  /** Deletes and model changes need an idle conversation, so they meet no active generation. */
  lemma StateStepProtects(s: State, step: Step)
    requires Protected(s)
    requires !step.CommitAccept? && !step.CommitRetry? && !step.MarkStreaming? && !step.FinalizeRow?
    ensures Protected(Apply(s, step)) <==> !Hides(s, step)
  {
    assert Apply(s, step).c.generations == s.c.generations;
  }

  /** Whoever holds leases and whatever else is going on, a step breaks the guard exactly when it hides a generation. */
  lemma StepProtectsIff(s: State, step: Step)
    requires Protected(s)
    ensures Protected(Apply(s, step)) <==> !Hides(s, step)
  {
    match step
    case CommitAccept(id, ids, content, key, model) =>
      if At(s, id, Reading) && ids.generation == id {
        CommitProtects(s, id,
          Generation(id, key, ids.user, ids.assistant, None, model, ids.reservation, S.Accepted, false),
          AcceptTx(s.c, ids, content, key, model));
      }
    case CommitRetry(id, ids, previous, key, model) =>
      if At(s, id, Reading) && ids.generation == id {
        CommitProtects(s, id,
          Generation(id, key, previous.userMessage, ids.assistant, Some(previous.id), model,
                     ids.reservation, S.Accepted, false),
          RetryTx(s.c, ids, previous, key, model));
      }
    case MarkStreaming(_) => RowStepProtects(s, step);
    case FinalizeRow(_, _, _, _) => RowStepProtects(s, step);
    case _ => StateStepProtects(s, step);
  }

  // ------------------------------------------------------------- whole runs

  /** The state after the first k steps. */
  function After(model: Id, steps: seq<Step>, k: nat): State
    requires k <= |steps|
  {
    Run(model, steps[..k])
  }

  lemma AfterStep(model: Id, steps: seq<Step>, k: nat)
    requires k < |steps|
    ensures After(model, steps, k + 1) == Apply(After(model, steps, k), steps[k])
  {
    assert steps[..k + 1][..k] == steps[..k];
  }

  ghost predicate ProtectedThrough(model: Id, steps: seq<Step>, n: nat)
    requires n <= |steps|
  {
    forall k :: 0 <= k <= n ==> Protected(After(model, steps, k))
  }

  ghost predicate NothingHidden(model: Id, steps: seq<Step>, n: nat)
    requires n <= |steps|
  {
    forall k :: 0 <= k < n ==> !Hides(After(model, steps, k), steps[k])
  }

  /**
   * Activity guard, exactly: throughout a run every active generation has a conversation that is
   * neither idle nor deleted and still has the model it was accepted under, if and only if no idle
   * write finds a generation active. Leases may expire and counts may not fit.
   */
  lemma {:induction false} GuardHoldsIff(model: Id, steps: seq<Step>, n: nat)
    requires n <= |steps|
    ensures ProtectedThrough(model, steps, n) <==> NothingHidden(model, steps, n)
  {
    if n == 0 {
      assert After(model, steps, 0) == Run(model, []);
    } else {
      GuardHoldsIff(model, steps, n - 1);
      AfterStep(model, steps, n - 1);
      if Protected(After(model, steps, n - 1)) {
        StepProtectsIff(After(model, steps, n - 1), steps[n - 1]);
      }
    }
  }

  // ------------------------------------------- why leases are there: a corollary

  /** No lease is lost while its holder works, and final counts are storable. */
  predicate Orderly(step: Step)
  {
    !step.LeaseExpires? && (step.FinalizeRow? ==> step.countsFit)
  }

  /** The lease admits one driver, and an active generation is being driven. */
  ghost predicate OneDriver(s: State)
  {
    && (forall id :: id in s.drivers ==> s.lease == Some(id))
    && (forall i :: 0 <= i < |s.c.generations| && Active(s.c.generations[i]) ==>
          At(s, s.c.generations[i].id, Driving))
  }

  lemma OrderlyStepKeepsDriver(s: State, step: Step)
    requires OneDriver(s) && Orderly(step)
    ensures OneDriver(Apply(s, step)) && !Hides(s, step)
  {
    var s' := Apply(s, step);
    forall i | 0 <= i < |s'.c.generations| && Active(s'.c.generations[i])
      ensures At(s', s'.c.generations[i].id, Driving)
    {
      if i < |s.c.generations| {
        assert s'.c.generations[i].id == s.c.generations[i].id && Active(s.c.generations[i]);
        assert At(s, s.c.generations[i].id, Driving);
      }
    }
  }

  /** While leases outlive their commands and final counts fit, there is only ever one driver. */
  lemma {:induction false} OrderlyKeepsDriver(model: Id, steps: seq<Step>, n: nat)
    requires n <= |steps| && forall k :: 0 <= k < n ==> Orderly(steps[k])
    ensures OneDriver(After(model, steps, n))
  {
    if n == 0 {
      assert After(model, steps, 0) == Run(model, []);
    } else {
      OrderlyKeepsDriver(model, steps, n - 1);
      var s := After(model, steps, n - 1);
      AfterStep(model, steps, n - 1);
      assert OneDriver(s);
      OrderlyStepKeepsDriver(s, steps[n - 1]);
    }
  }

  /** Hence the guard holds throughout every such run. */
  lemma GuardHolds(model: Id, steps: seq<Step>)
    requires forall k :: 0 <= k < |steps| ==> Orderly(steps[k])
    ensures ProtectedThrough(model, steps, |steps|) && OneDriver(After(model, steps, |steps|))
  {
    forall k | 0 <= k < |steps| ensures !Hides(After(model, steps, k), steps[k]) {
      OrderlyKeepsDriver(model, steps, k);
      OrderlyStepKeepsDriver(After(model, steps, k), steps[k]);
    }
    OrderlyKeepsDriver(model, steps, |steps|);
    GuardHoldsIff(model, steps, |steps|);
  }

  // -------------------------------------------------- the condition is needed

  /** One more step of a concrete run. */
  lemma Extend(model: Id, steps: seq<Step>, step: Step) returns (longer: seq<Step>, s: State)
    ensures longer == steps + [step]
    ensures s == Apply(Run(model, steps), step) == Run(model, longer)
  {
    longer := steps + [step];
    assert longer[..|longer| - 1] == steps;
    s := Apply(Run(model, steps), step);
  }

  const FIRST_KEY: string := "the-first-command"
  const SECOND_KEY: string := "the-second-command"

  function IdsOf(id: Id): Ids { Ids(id, 10 * id, 10 * id + 1, id) }

  /** The conversation holds the first command's rows and nothing else. */
  ghost predicate OnlyFirst(c: Conversation)
  {
    && Conversations.Inv(c) && !c.deleted
    && |c.messages| == 2 && c.messages[0].id == 10 && c.messages[1].id == 11
    && |c.generations| == 1 && c.generations[0].id == 1 && c.generations[0].key == FIRST_KEY
  }

  lemma FirstAccepted(model: Id) returns (steps: seq<Step>)
    ensures var s := Run(model, steps);
            OnlyFirst(s.c) && AnyActive(s.c.generations) && s.drivers == map[1 := Driving]
  {
    AcceptSucceedsIff(Created(model), IdsOf(1), "hello", FIRST_KEY, model);
    AcceptKeepsInv(Created(model), IdsOf(1), "hello", FIRST_KEY, model);
    var s;
    steps, s := Extend(model, [], Begin(1));
    steps, s := Extend(model, steps, CommitAccept(1, IdsOf(1), "hello", FIRST_KEY, model));
    assert s.drivers == map[1 := Driving] && Active(s.c.generations[0]);
  }

  /** The first command has streamed and finalized its generation but not yet written `idle` when its lease expires. */
  lemma FinalizedAndExpired(model: Id) returns (steps: seq<Step>)
    ensures var s := Run(model, steps);
            OnlyFirst(s.c) && !AnyActive(s.c.generations) && s.lease.None? && s.drivers == map[1 := Finalized]
  {
    steps := FirstAccepted(model);
    var s;
    steps, s := Extend(model, steps, MarkStreaming(1));
    steps, s := Extend(model, steps, SetStreaming(1));
    assert OnlyFirst(s.c) && s.drivers == map[1 := Driving];
    steps, s := Extend(model, steps, FinalizeRow(1, S.Completed, false, true));
    assert s.drivers == map[1 := Finalized];
    steps, s := Extend(model, steps, LeaseExpires);
  }

  /** Another command's rows fit beside the finished first ones. */
  lemma SecondFits(c: Conversation, model: Id)
    requires OnlyFirst(c) && !AnyActive(c.generations)
    ensures var r := AcceptTx(c, IdsOf(2), "hello again", SECOND_KEY, model);
            r.Ok? && AnyActive(r.value.generations) && !r.value.deleted
  {
    assert FindKey(c.generations, SECOND_KEY).None?;
    AcceptSucceedsIff(c, IdsOf(2), "hello again", SECOND_KEY, model);
    var c' := AcceptTx(c, IdsOf(2), "hello again", SECOND_KEY, model).value;
    assert Active(c'.generations[1]);
  }

  /** A second command slips in after the expiry. */
  lemma SecondCommandAccepted(model: Id) returns (steps: seq<Step>)
    ensures var s := Run(model, steps); At(s, 1, Finalized) && AnyActive(s.c.generations) && !s.c.deleted
  {
    steps := FinalizedAndExpired(model);
    var s := Run(model, steps);
    SecondFits(s.c, model);
    steps, s := Extend(model, steps, Begin(2));
    assert At(s, 2, Reading) && At(s, 1, Finalized);
    steps, s := Extend(model, steps, CommitAccept(2, IdsOf(2), "hello again", SECOND_KEY, model));
  }

  /**
   * A run that breaks the guard: the first command's delayed idle write hides the second one, and
   * a delete succeeds under a running generation.
   */
  lemma ExpiryDeletesUnderGeneration(model: Id) returns (steps: seq<Step>)
    ensures var s := Run(model, steps); s.c.deleted && AnyActive(s.c.generations)
  {
    steps := SecondCommandAccepted(model);
    var s;
    steps, s := Extend(model, steps, SetIdle(1));
    assert s.c.state == S.Idle && AnyActive(s.c.generations);
    steps, s := Extend(model, steps, Delete);
  }
}
