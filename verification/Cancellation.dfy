/**
 * Cancelling a generation: cancel(id) against the stream's registration and deregistration, one
 * critical section of the mutex, or one call of a cancel function, per step.
 */
module Cancellation {
  import opened Basics

  datatype StreamPhase =
    | NotStarted
    | Registered(pending: bool)   // left the first critical section; `pending` is what it found
    | Running
    | Closing                     // the deferred function has cancelled the context
    | Deregistered

  datatype CallPhase = Requested | Found | Signalled | LeftPending

  /** All the service knows of one generation, and the cancel calls made for it. */
  datatype State = State(
    stream: StreamPhase, registered: bool, pendingCancel: bool, cancelled: bool,
    calls: map<Id, CallPhase>,
    seen: bool)   // history: some call took the mutex before deregistration

  /** A generation nobody has heard of yet. */
  const UNSEEN: State := State(NotStarted, false, false, false, map[], false)

  datatype Step =
    | Register
    | HonourPending
    | BeginClosing
    | Deregister
    | RequestCancel(call: Id)
    | TakeMutex(call: Id)
    | Signal(call: Id)

  function Apply(s: State, step: Step): State
  {
    match step
    case Register =>
      if s.stream != NotStarted then s
      else s.(stream := Registered(s.pendingCancel), registered := true, pendingCancel := false)
    case HonourPending =>
      if !s.stream.Registered? then s else s.(stream := Running, cancelled := s.cancelled || s.stream.pending)
    case BeginClosing => if s.stream != Running then s else s.(stream := Closing, cancelled := true)
    case Deregister => if s.stream != Closing then s else s.(stream := Deregistered, registered := false)
    case RequestCancel(k) => if k in s.calls then s else s.(calls := s.calls[k := Requested])
    case TakeMutex(k) =>
      if k !in s.calls || s.calls[k] != Requested then s
      else if s.registered then s.(calls := s.calls[k := Found], seen := true)
      else s.(calls := s.calls[k := LeftPending], pendingCancel := true, seen := s.seen || s.stream != Deregistered)
    case Signal(k) =>
      if k !in s.calls || s.calls[k] != Found then s
      else s.(calls := s.calls[k := Signalled], cancelled := true)
  }

  function Run(steps: seq<Step>): State
  {
    if steps == [] then UNSEEN
    else Apply(Run(steps[..|steps| - 1]), steps[|steps| - 1])
  }

  predicate InFlight(s: State, k: Id) { k in s.calls && s.calls[k] == Found }

  ghost predicate Inv(s: State)
  {
    && (s.registered <==> s.stream.Registered? || s.stream == Running || s.stream == Closing)
    // a request seen is waiting to be honoured, about to be signalled, or has cancelled the context
    && (s.seen ==>
          || (s.stream == NotStarted && s.pendingCancel)
          || (s.stream.Registered? && s.stream.pending)
          || (exists k :: InFlight(s, k))
          || s.cancelled)
    && (forall k :: k in s.calls && s.calls[k] == LeftPending && s.stream == NotStarted ==> s.pendingCancel)
    && (s.stream.Registered? && !s.stream.pending ==>
          !s.pendingCancel && forall k :: k in s.calls ==> s.calls[k] != LeftPending)
    && (forall k :: k in s.calls && s.calls[k] == Signalled ==> s.cancelled)
    && (s.stream == Closing || s.stream == Deregistered ==> s.cancelled)
    && (s.registered ==> !s.pendingCancel)
    && (s.stream == Running && (exists k :: k in s.calls && s.calls[k] == LeftPending) ==> s.cancelled)
  }

  lemma StepKeepsInv(s: State, step: Step)
    requires Inv(s)
    ensures Inv(Apply(s, step))
  {
    var s' := Apply(s, step);
    if s'.seen && !s'.cancelled && (exists k :: InFlight(s, k)) {
      var k :| InFlight(s, k);
      assert InFlight(s', k);
    }
    if step.TakeMutex? && step.call in s.calls && s.calls[step.call] == Requested && s.registered {
      assert InFlight(s', step.call);
    }
  }

  /**
   * No cancel is lost: in every interleaving, once the stream has read its pending flag and no
   * cancel call is between taking the mutex and calling what it found there, any cancel that took
   * the mutex before deregistration (before registration or after) has cancelled the context.
   */
  lemma {:induction false} NoCancelLost(steps: seq<Step>)
    ensures Inv(Run(steps))
    ensures var s := Run(steps);
            s.seen && s.stream != NotStarted && !s.stream.Registered? && (forall k :: !InFlight(s, k)) ==> s.cancelled
  {
    if steps == [] {
    } else {
      NoCancelLost(steps[..|steps| - 1]);
      StepKeepsInv(Run(steps[..|steps| - 1]), steps[|steps| - 1]);
    }
  }

  /** A cancel that found nothing registered is honoured as soon as the stream has started. */
  lemma EarlyCancelIsHonoured(steps: seq<Step>, k: Id)
    requires var s := Run(steps); k in s.calls && s.calls[k] == LeftPending && s.stream == Running
    ensures Run(steps).cancelled
  {
    NoCancelLost(steps);
  }

  /** A cancel that arrives after deregistration leaves its pending entry behind for good. */
  lemma {:induction false} LateCancelLeavesEntry(before: seq<Step>, after: seq<Step>)
    requires Run(before).stream == Deregistered && Run(before).pendingCancel
    ensures Run(before + after).stream == Deregistered && Run(before + after).pendingCancel
    decreases |after|
  {
    if after == [] {
      assert before + after == before;
    } else {
      LateCancelLeavesEntry(before, after[..|after| - 1]);
      assert (before + after)[..|before + after| - 1] == before + after[..|after| - 1];
    }
  }

  // ------------------------------------------------------------- the service

  /** Both critical sections of the stream, and a cancel call, as they run without interruption. */
  function Registering(s: State): State { Apply(Apply(s, Register), HonourPending) }

  function Closed(s: State): State { Apply(Apply(s, BeginClosing), Deregister) }

  function Cancelling(s: State, call: Id): State
  {
    Apply(Apply(Apply(s, RequestCancel(call)), TakeMutex(call)), Signal(call))
  }

  /** Nobody is inside a critical section, nor between one and the call that follows it. */
  ghost predicate AtRest(s: State)
  {
    Inv(s) && !s.stream.Registered? && forall k: Id :: !InFlight(s, k)
  }

  /** A stream that has registered is cancelled exactly if a cancel was pending. */
  lemma RegisteringRests(s: State)
    requires AtRest(s) && s.stream == NotStarted && !s.cancelled
    ensures var s' := Registering(s);
            && AtRest(s') && s'.stream == Running && s'.registered && !s'.pendingCancel
            && s'.cancelled == s.pendingCancel
  {
    StepKeepsInv(s, Register);
    StepKeepsInv(Apply(s, Register), HonourPending);
    forall k: Id ensures !InFlight(Registering(s), k) {
      assert !InFlight(s, k);
    }
  }

  lemma ClosedRests(s: State)
    requires AtRest(s) && s.stream == Running
    ensures var s' := Closed(s);
            && AtRest(s') && s'.stream == Deregistered && !s'.registered && s'.cancelled
            && s'.pendingCancel == s.pendingCancel
  {
    StepKeepsInv(s, BeginClosing);
    StepKeepsInv(Apply(s, BeginClosing), Deregister);
    forall k: Id ensures !InFlight(Closed(s), k) {
      assert !InFlight(s, k);
    }
  }

  /** A cancel reaches a registered stream's context, and leaves a pending entry otherwise. */
  lemma CancellingRests(s: State, call: Id)
    requires AtRest(s) && call !in s.calls
    ensures var s' := Cancelling(s, call);
            && AtRest(s') && s'.stream == s.stream && s'.registered == s.registered
            && s'.cancelled == (s.cancelled || s.registered)
            && s'.pendingCancel == (s.pendingCancel || !s.registered)
  {
    StepKeepsInv(s, RequestCancel(call));
    StepKeepsInv(Apply(s, RequestCancel(call)), TakeMutex(call));
    StepKeepsInv(Apply(Apply(s, RequestCancel(call)), TakeMutex(call)), Signal(call));
    forall k: Id ensures !InFlight(Cancelling(s, call), k) {
      assert !InFlight(s, k);
    }
  }

  lemma AddedValue(m: map<Id, Id>, k: Id, v: Id)
    requires k !in m
    ensures m[k := v].Values == m.Values + {v}
  {
    forall x | x in m.Values ensures x in m[k := v].Values {
      var j :| j in m && m[j] == x;
      assert m[k := v][j] == x;
    }
    assert m[k := v][k] == v;
  }

  class Cancellations {
    var cancellations: map<Id, Id>   // generation to the context its cancel function cancels
    var pendingCancel: set<Id>
    var cancelled: set<Id>           // contexts
    ghost var machines: map<Id, State>
    ghost var contexts: map<Id, Id>  // of every generation that was ever streamed

    /** What has happened to one generation. */
    ghost function View(id: Id): State
      reads this
    {
      if id in machines then machines[id] else UNSEEN
    }

    /** The two maps and the contexts say of a generation what its state machine says. */
    ghost predicate Agrees(id: Id)
      reads this
    {
      var s := View(id);
      && AtRest(s)
      && (id in cancellations <==> s.registered)
      && (id in pendingCancel <==> s.pendingCancel)
      && (id in contexts <==> s.stream != NotStarted)
      && (s.cancelled <==> id in contexts && contexts[id] in cancelled)
      && (id in cancellations ==> id in contexts && cancellations[id] == contexts[id])
    }

    ghost predicate Valid()
      reads this
    {
      && (forall id: Id :: Agrees(id))
      && (forall i, j :: i in contexts && j in contexts && i != j ==> contexts[i] != contexts[j])
      && cancelled <= contexts.Values
    }

    constructor ()
      ensures Valid() && machines == map[] && contexts == map[]
    {
      cancellations, pendingCancel, cancelled := map[], {}, {};
      machines, contexts := map[], map[];
      new;
      forall id: Id ensures Agrees(id) {
        assert forall k: Id :: !InFlight(UNSEEN, k);
      }
    }

    /** The head of stream: register, take over a pending cancel, honour it. */
    method Register(id: Id, context: Id)
      requires Valid() && View(id).stream == NotStarted && context !in contexts.Values
      modifies this
      ensures Valid() && contexts == old(contexts)[id := context]
      ensures machines == old(machines)[id := Registering(old(View(id)))]
      ensures context in cancelled <==> id in old(pendingCancel)
    {
      assert Agrees(id);
      RegisteringRests(View(id));
      var pending := id in pendingCancel;
      cancellations := cancellations[id := context];
      pendingCancel := pendingCancel - {id};
      if pending {
        cancelled := cancelled + {context};
      }
      machines, contexts := machines[id := Registering(View(id))], contexts[id := context];
      forall g: Id ensures Agrees(g) {
        assert old(Agrees(g));
        assert g in old(contexts) ==> old(contexts)[g] in old(contexts).Values;
      }
      AddedValue(old(contexts), id, context);
    }

    /** The deferred function of stream. */
    method Deregister(id: Id, context: Id)
      requires Valid() && View(id).stream == Running && id in contexts && contexts[id] == context
      modifies this
      ensures Valid() && contexts == old(contexts)
      ensures machines == old(machines)[id := Closed(old(View(id)))]
    {
      assert Agrees(id);
      ClosedRests(View(id));
      cancelled := cancelled + {context};
      cancellations := cancellations - {id};
      machines := machines[id := Closed(View(id))];
      forall g: Id ensures Agrees(g) {
        assert old(Agrees(g));
      }
    }

    /** A running stream is cancelled at once, one still to come when it registers. */
    method Cancel(id: Id, ghost call: Id)
      requires Valid() && call !in View(id).calls
      modifies this
      ensures Valid() && contexts == old(contexts)
      ensures machines == old(machines)[id := Cancelling(old(View(id)), call)]
      ensures View(id).stream == Running ==> id in contexts && contexts[id] in cancelled
      ensures View(id).stream == NotStarted ==> id in pendingCancel
    {
      assert Agrees(id);
      CancellingRests(View(id), call);
      if id in cancellations {
        assert contexts[id] in contexts.Values;
        cancelled := cancelled + {cancellations[id]};
      } else {
        pendingCancel := pendingCancel + {id};
      }
      machines := machines[id := Cancelling(View(id), call)];
      forall g: Id ensures Agrees(g) {
        assert old(Agrees(g));
      }
    }
  }
}
