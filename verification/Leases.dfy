/**
 * The per-actor generation lease in Redis (SET NX with a TTL, compare-and-delete) and the
 * protocol Reserve and Settle run over it, one Redis call or committed transaction per step.
 */
module Leases {
  import opened Basics

  datatype Lease = Lease(owner: Id, expiresAt: int)
  type LeaseStore = map<Id, Lease>

  predicate Live(store: LeaseStore, actor: Id, now: int) { actor in store && now < store[actor].expiresAt }

  /** None means the lease is held by someone else. */
  function AcquireLease(store: LeaseStore, actor: Id, owner: Id, now: int, ttl: int): Option<LeaseStore>
  {
    if Live(store, actor, now) then None else Some(store[actor := Lease(owner, now + ttl)])
  }

  function ReleaseLease(store: LeaseStore, actor: Id, owner: Id, now: int): LeaseStore
  {
    if Live(store, actor, now) && store[actor].owner == owner then store - {actor} else store
  }

  /** One Reserve call, named by its fresh owner token, and what became of it. */
  datatype Call = Call(actor: Id, acquiredAt: int, outstanding: bool, releasing: bool, released: bool)

  datatype State = State(now: int, store: LeaseStore, calls: map<Id, Call>)

  datatype Step =
    | Tick(elapsed: nat)
    | Acquire(owner: Id, actor: Id)
    | CommitReserve(owner: Id)   // the transaction of Reserve commits
    | AbortReserve(owner: Id)    // it fails, so the deferred release is due
    | SettleCommits(owner: Id)   // the transaction of Settle commits, release is due
    | SettleFails(owner: Id)     // it fails, and the release is due all the same
    | Release(owner: Id)

  function Apply(s: State, ttl: int, step: Step): State
  {
    match step
    case Tick(elapsed) => s.(now := s.now + elapsed)
    case Acquire(owner, actor) =>
      if owner in s.calls || AcquireLease(s.store, actor, owner, s.now, ttl).None? then s
      else s.(store := AcquireLease(s.store, actor, owner, s.now, ttl).value,
              calls := s.calls[owner := Call(actor, s.now, false, false, false)])
    case CommitReserve(o) =>
      if o !in s.calls || s.calls[o].outstanding || s.calls[o].releasing || s.calls[o].released then s
      else s.(calls := s.calls[o := s.calls[o].(outstanding := true)])
    case AbortReserve(o) =>
      if o !in s.calls || s.calls[o].outstanding || s.calls[o].releasing || s.calls[o].released then s
      else s.(calls := s.calls[o := s.calls[o].(releasing := true)])
    case SettleCommits(o) =>
      if o !in s.calls || !s.calls[o].outstanding then s
      else s.(calls := s.calls[o := s.calls[o].(outstanding := false, releasing := true)])
    case SettleFails(o) =>
      if o !in s.calls || !s.calls[o].outstanding then s
      else s.(calls := s.calls[o := s.calls[o].(releasing := true)])
    case Release(o) =>
      if o !in s.calls || !s.calls[o].releasing then s
      else s.(store := ReleaseLease(s.store, s.calls[o].actor, o, s.now),
              calls := s.calls[o := s.calls[o].(releasing := false, released := true)])
  }

  function Run(ttl: int, steps: seq<Step>): State
  {
    if steps == [] then State(0, map[], map[])
    else Apply(Run(ttl, steps[..|steps| - 1]), ttl, steps[|steps| - 1])
  }

  /** The call still counts on its lease: not given back and not yet expired. */
  predicate Holds(s: State, ttl: int, owner: Id)
  {
    owner in s.calls && !s.calls[owner].released && s.now < s.calls[owner].acquiredAt + ttl
  }

  ghost predicate Inv(s: State, ttl: int)
  {
    forall o :: o in s.calls && Holds(s, ttl, o) ==>
      s.calls[o].actor in s.store && s.store[s.calls[o].actor] == Lease(o, s.calls[o].acquiredAt + ttl)
  }

  lemma {:induction false} HoldersOwnTheStore(ttl: int, steps: seq<Step>)
    ensures Inv(Run(ttl, steps), ttl)
  {
    if steps == [] {
    } else {
      var s := Run(ttl, steps[..|steps| - 1]);
      HoldersOwnTheStore(ttl, steps[..|steps| - 1]);
      var s' := Apply(s, ttl, steps[|steps| - 1]);
      forall o | o in s'.calls && Holds(s', ttl, o)
        ensures s'.calls[o].actor in s'.store
        ensures s'.store[s'.calls[o].actor] == Lease(o, s'.calls[o].acquiredAt + ttl)
      {
        assert o in s.calls ==> Holds(s, ttl, o);
      }
    }
  }

  /** Two calls never hold an unexpired lease for one actor. */
  lemma LeaseExcludes(ttl: int, steps: seq<Step>, o1: Id, o2: Id)
    requires var s := Run(ttl, steps);
             Holds(s, ttl, o1) && Holds(s, ttl, o2) && s.calls[o1].actor == s.calls[o2].actor
    ensures o1 == o2
  {
    HoldersOwnTheStore(ttl, steps);
  }

  /** A late Settle or a failed Reserve releases nobody else's lease. */
  lemma LateReleaseIsHarmless(ttl: int, steps: seq<Step>, late: Id, holder: Id)
    requires Holds(Run(ttl, steps), ttl, holder) && late != holder
    ensures var s' := Apply(Run(ttl, steps), ttl, Release(late));
            && Holds(s', ttl, holder)
            && s'.calls[holder].actor in s'.store
            && s'.store[s'.calls[holder].actor].owner == holder
  {
    HoldersOwnTheStore(ttl, steps);
    HoldersOwnTheStore(ttl, steps + [Release(late)]);
    assert (steps + [Release(late)])[..|steps|] == steps;
  }

  // ---------------------------------------------- when a lease is granted

  /** Every live entry of the store is the lease of a call that still counts on it. */
  ghost predicate LiveEntriesAreHeld(s: State, ttl: int)
  {
    forall a :: Live(s.store, a, s.now) ==>
      var o := s.store[a].owner;
      Holds(s, ttl, o) && s.calls[o].actor == a && s.store[a].expiresAt == s.calls[o].acquiredAt + ttl
  }

  lemma {:induction false} LiveEntriesStayHeld(ttl: int, steps: seq<Step>)
    ensures LiveEntriesAreHeld(Run(ttl, steps), ttl)
  {
    if steps == [] {
    } else {
      var s, step := Run(ttl, steps[..|steps| - 1]), steps[|steps| - 1];
      LiveEntriesStayHeld(ttl, steps[..|steps| - 1]);
      StepKeepsHeld(s, ttl, step);
      assert Run(ttl, steps) == Apply(s, ttl, step);
    }
  }

  lemma StepKeepsHeld(s: State, ttl: int, step: Step)
    requires LiveEntriesAreHeld(s, ttl)
    ensures LiveEntriesAreHeld(Apply(s, ttl, step), ttl)
  {
    var s' := Apply(s, ttl, step);
    forall a | Live(s'.store, a, s'.now)
      ensures Holds(s', ttl, s'.store[a].owner) && s'.calls[s'.store[a].owner].actor == a
      ensures s'.store[a].expiresAt == s'.calls[s'.store[a].owner].acquiredAt + ttl
    {
      assert Live(s.store, a, s.now) || (step.Acquire? && step.actor == a);
    }
  }

  /** No call of the actor counts on a lease any more. */
  predicate Unheld(s: State, ttl: int, actor: Id)
  {
    forall p :: p in s.calls && s.calls[p].actor == actor ==> !Holds(s, ttl, p)
  }

  /**
   * Exactly when a new call gets the actor's lease, after any run: when every earlier call of the
   * actor has given its lease back or let it expire.
   */
  lemma LeaseGrantedIff(ttl: int, steps: seq<Step>, owner: Id, actor: Id)
    requires owner !in Run(ttl, steps).calls
    ensures owner in Apply(Run(ttl, steps), ttl, Acquire(owner, actor)).calls <==> Unheld(Run(ttl, steps), ttl, actor)
  {
    LiveEntriesStayHeld(ttl, steps);
    HoldersOwnTheStore(ttl, steps);
    var s := Run(ttl, steps);
    if Live(s.store, actor, s.now) {
      assert Holds(s, ttl, s.store[actor].owner);
    }
  }

  /**
   * Hence, with one reservation of the actor outstanding, a second one can be taken at this moment
   * exactly when the first has lost its lease, by expiry or by a release after a failed settlement,
   * and no other call of the actor holds one.
   */
  lemma SecondOutstandingIff(ttl: int, steps: seq<Step>, first: Id, second: Id)
    requires second !in Run(ttl, steps).calls
    requires first in Run(ttl, steps).calls && Run(ttl, steps).calls[first].outstanding
    ensures var s := Run(ttl, steps);
            var actor := s.calls[first].actor;
            var s' := Apply(Apply(s, ttl, Acquire(second, actor)), ttl, CommitReserve(second));
            && first in s'.calls && s'.calls[first].outstanding
            && ((second in s'.calls && s'.calls[second].outstanding) <==> Unheld(s, ttl, actor))
            && (Unheld(s, ttl, actor) ==>
                  s.calls[first].released || s.now >= s.calls[first].acquiredAt + ttl)
  {
    LeaseGrantedIff(ttl, steps, second, Run(ttl, steps).calls[first].actor);
  }

  /** The actor's outstanding reservations are all younger than the TTL. */
  predicate InTime(s: State, ttl: int)
  {
    forall o :: o in s.calls && s.calls[o].outstanding ==> s.now < s.calls[o].acquiredAt + ttl
  }

  /** Every settlement commits; with InTime at the end, this is "settled successfully within the TTL". */
  predicate SettlementsCommit(steps: seq<Step>)
  {
    forall k :: 0 <= k < |steps| ==> !steps[k].SettleFails?
  }

  /** An outstanding call has neither released its lease nor is about to. */
  ghost predicate Unreleased(s: State)
  {
    forall o :: o in s.calls && s.calls[o].outstanding ==> !s.calls[o].released && !s.calls[o].releasing
  }

  lemma StepKeepsUnreleased(s: State, ttl: int, step: Step)
    requires Unreleased(s) && !step.SettleFails?
    ensures Unreleased(Apply(s, ttl, step))
  {
    var s' := Apply(s, ttl, step);
    forall o | o in s'.calls && s'.calls[o].outstanding
      ensures !s'.calls[o].released && !s'.calls[o].releasing
    {
      assert o in s.calls;
    }
  }

  lemma {:induction false} OutstandingIsUnreleased(ttl: int, steps: seq<Step>)
    requires SettlementsCommit(steps)
    ensures Unreleased(Run(ttl, steps))
  {
    if steps == [] {
    } else {
      var before, step := steps[..|steps| - 1], steps[|steps| - 1];
      assert !step.SettleFails?;
      OutstandingIsUnreleased(ttl, before);
      StepKeepsUnreleased(Run(ttl, before), ttl, step);
      assert Run(ttl, steps) == Apply(Run(ttl, before), ttl, step);
    }
  }

  /** Then an actor has at most one outstanding reservation. */
  lemma OneOutstandingPerActor(ttl: int, steps: seq<Step>, o1: Id, o2: Id)
    requires SettlementsCommit(steps) && InTime(Run(ttl, steps), ttl)
    requires var s := Run(ttl, steps);
             && o1 in s.calls && o2 in s.calls
             && s.calls[o1].outstanding && s.calls[o2].outstanding
             && s.calls[o1].actor == s.calls[o2].actor
    ensures o1 == o2
  {
    OutstandingIsUnreleased(ttl, steps);
    LeaseExcludes(ttl, steps, o1, o2);
  }

  /**
   * The commit condition is needed: a Settle whose transaction fails still gives the lease back,
   * and the actor can take a second reservation well within the TTL.
   */
  lemma FailedSettleAdmitsSecond(ttl: int)
    requires ttl > 0
    ensures var steps := [Acquire(1, 9), CommitReserve(1), SettleFails(1), Release(1), Acquire(2, 9), CommitReserve(2)];
            var s := Run(ttl, steps);
            && InTime(s, ttl) && s.calls.Keys == {1, 2}
            && s.calls[1].outstanding && s.calls[2].outstanding
            && s.calls[1].actor == s.calls[2].actor
  {
    var a, b, c, d, e, f :=
      Acquire(1, 9), CommitReserve(1), SettleFails(1), Release(1), Acquire(2, 9), CommitReserve(2);
    assert [a, b, c, d, e, f][..5] == [a, b, c, d, e];
    assert [a, b, c, d, e][..4] == [a, b, c, d];
    assert [a, b, c, d][..3] == [a, b, c];
    assert [a, b, c][..2] == [a, b];
    assert [a, b][..1] == [a];
    assert [a][..0] == [];
    assert Run(ttl, []) == State(0, map[], map[]);
    var s1 := Run(ttl, [a]);
    assert s1 == Apply(Run(ttl, []), ttl, a);
    assert s1 == State(0, map[9 := Lease(1, ttl)], map[1 := Call(9, 0, false, false, false)]);
    var s2 := Run(ttl, [a, b]);
    assert s2 == s1.(calls := map[1 := Call(9, 0, true, false, false)]);
    var s3 := Run(ttl, [a, b, c]);
    assert s3 == s1.(calls := map[1 := Call(9, 0, true, true, false)]);
    var s4 := Run(ttl, [a, b, c, d]);
    assert s4 == State(0, map[], map[1 := Call(9, 0, true, false, true)]);
    var s5 := Run(ttl, [a, b, c, d, e]);
    assert s5.calls == map[1 := Call(9, 0, true, false, true), 2 := Call(9, 0, false, false, false)];
  }
}
