/** The provider gateway's circuit breaker and stream slots (resilient.go). */
module Resilience {
  import opened Basics

  datatype Options = Options(maxConcurrent: int, failureLimit: int, openDuration: int, preStreamRetry: int)

  /** NewResilient replaces options it cannot use by the defaults (times in seconds), and keeps the others. */
  function Normalized(o: Options): (n: Options)
    ensures Usable(n) && (Usable(o) ==> n == o)
  {
    Options(if o.maxConcurrent <= 0 then 8 else o.maxConcurrent,
            if o.failureLimit <= 0 then 5 else o.failureLimit,
            if o.openDuration <= 0 then 30 else o.openDuration,
            if o.preStreamRetry < 0 then 0 else o.preStreamRetry)
  }

  predicate Usable(o: Options)
  {
    o.maxConcurrent > 0 && o.failureLimit > 0 && o.openDuration > 0 && o.preStreamRetry >= 0
  }

  /** The outcome of a provider call, as far as Normalize distinguishes it. */
  datatype Outcome = Success | Failure(retryable: bool)

  // --------------------------------------------------------------- breaker

  /** Everything the breaker is told, in the order in which its mutex admits it. */
  datatype Observation = Observed(outcome: Outcome, at: int) | Probed(at: int)

  /**
   * What the breaker should remember: the times of the retryable failures since the last
   * success, or since the last probe that found the open period over.
   */
  function Streak(log: seq<Observation>, o: Options): seq<int>
  {
    if log == [] then []
    else
      var before := Streak(log[..|log| - 1], o);
      match log[|log| - 1]
      case Observed(Success, _) => []
      case Observed(Failure(retryable), at) => if retryable then before + [at] else before
      case Probed(at) => if Tripped(before, o) && at >= OpenUntil(before, o) then [] else before
  }

  predicate Tripped(streak: seq<int>, o: Options) { |streak| > 0 && |streak| >= o.failureLimit }

  function OpenUntil(streak: seq<int>, o: Options): int
    requires |streak| > 0
  {
    streak[|streak| - 1] + o.openDuration
  }

  /** Retryable failures logged since the last success. */
  function FailuresSinceSuccess(log: seq<Observation>): nat
  {
    if log == [] then 0
    else
      match log[|log| - 1]
      case Observed(Success, _) => 0
      case Observed(Failure(retryable), _) => FailuresSinceSuccess(log[..|log| - 1]) + if retryable then 1 else 0
      case Probed(_) => FailuresSinceSuccess(log[..|log| - 1])
  }

  /** The breaker is tripped only after failureLimit retryable failures without a success between. */
  lemma {:induction false} TrippedNeedsFailures(log: seq<Observation>, o: Options)
    requires Usable(o)
    ensures |Streak(log, o)| <= FailuresSinceSuccess(log)
    ensures Tripped(Streak(log, o), o) ==> FailuresSinceSuccess(log) >= o.failureLimit
  {
    if log == [] {
    } else {
      TrippedNeedsFailures(log[..|log| - 1], o);
    }
  }

  // ------------------------------------------------- the breaker, by its log

  predicate FailsAt(log: seq<Observation>, k: nat)
    requires k < |log|
  {
    log[k].Observed? && log[k].outcome == Failure(true)
  }

  /** The retryable failures at positions i to n - 1 of the log. */
  function FailuresIn(log: seq<Observation>, i: nat, n: nat): set<nat>
    requires n <= |log|
  {
    set k: nat | i <= k < n && FailsAt(log, k)
  }

  /** The last of these positions is m. */
  predicate Last(positions: set<nat>, m: nat)
  {
    m in positions && forall k :: k in positions ==> k <= m
  }

  /** The limit has been reached between i and n, and `now` is within the open period of the last failure. */
  ghost predicate Blocks(log: seq<Observation>, o: Options, i: nat, n: nat, now: int)
    requires n <= |log|
  {
    && |FailuresIn(log, i, n)| >= o.failureLimit
    && exists m: nat :: Last(FailuresIn(log, i, n), m) && now < log[m].at + o.openDuration
  }

  /** Entry k is a probe that finds the limit reached since i and the open period over. */
  ghost predicate Resets(log: seq<Observation>, o: Options, i: nat, k: nat)
    requires k < |log|
  {
    && log[k].Probed? && |FailuresIn(log, i, k)| >= o.failureLimit
    && exists m: nat :: Last(FailuresIn(log, i, k), m) && log[k].at >= log[m].at + o.openDuration
  }

  predicate Succeeds(log: seq<Observation>, k: nat)
    requires k < |log|
  {
    log[k].Observed? && log[k].outcome.Success?
  }

  /** Between i and n no call has succeeded and no probe has reset the breaker. */
  ghost predicate Quiet(log: seq<Observation>, o: Options, i: nat, n: nat)
    requires n <= |log|
  {
    i <= n && forall k :: i <= k < n ==> !Succeeds(log, k) && !Resets(log, o, i, k)
  }

  /** At i the breaker starts afresh: at the start, after a success, or after a probe that resets it. */
  ghost predicate Begins(log: seq<Observation>, o: Options, i: nat)
    requires i <= |log|
  {
    || i == 0
    || Succeeds(log, i - 1)
    || exists h: nat :: h < i && Begins(log, o, h) && Quiet(log, o, h, i - 1) && Resets(log, o, h, i - 1)
  }

  /** The breaker has run undisturbed from i to the end of the log. */
  ghost predicate Stretch(log: seq<Observation>, o: Options, i: nat)
  {
    i <= |log| && Begins(log, o, i) && Quiet(log, o, i, |log|)
  }

  /** The breaker is open for a call at `now`. */
  ghost predicate OpenAt(log: seq<Observation>, o: Options, now: int)
  {
    exists i: nat :: Stretch(log, o, i) && Blocks(log, o, i, |log|, now)
  }

  lemma AnotherFailure(log: seq<Observation>, i: nat, n: nat)
    requires i <= n < |log| && FailsAt(log, n)
    ensures FailuresIn(log, i, n + 1) == FailuresIn(log, i, n) + {n}
    ensures n !in FailuresIn(log, i, n)
  {
    assert FailuresIn(log, i, n + 1) == FailuresIn(log, i, n) + {n};
  }

  lemma NoFailure(log: seq<Observation>, i: nat, n: nat)
    requires i <= n < |log| && !FailsAt(log, n)
    ensures FailuresIn(log, i, n + 1) == FailuresIn(log, i, n)
  {
  }

  /** A time for each of these positions, and the time of the highest comes last. */
  ghost predicate Times(log: seq<Observation>, positions: set<nat>, streak: seq<int>)
  {
    && |streak| == |positions|
    && (streak != [] ==> exists m: nat :: Last(positions, m))
    && (forall m: nat :: Last(positions, m) ==> m < |log| && streak != [] && streak[|streak| - 1] == log[m].at)
  }

  lemma OneTimeMore(log: seq<Observation>, positions: set<nat>, streak: seq<int>, n: nat)
    requires Times(log, positions, streak) && n < |log| && forall k :: k in positions ==> k < n
    ensures Times(log, positions + {n}, streak + [log[n].at])
  {
    assert n !in positions;
    assert Last(positions + {n}, n);
  }

  /** The streak remembers the failures from i to n, and when the last of them was. */
  ghost predicate Remembers(log: seq<Observation>, o: Options, i: nat, n: nat)
    requires n <= |log|
  {
    Times(log, FailuresIn(log, i, n), Streak(log[..n], o))
  }

  /** Where the breaker starts afresh it remembers nothing. */
  lemma BeginsEmpty(log: seq<Observation>, o: Options, i: nat)
    requires Usable(o) && i <= |log| && Begins(log, o, i)
    ensures Streak(log[..i], o) == []
    decreases i, 1
  {
    if i == 0 {
    } else if Succeeds(log, i - 1) {
      assert log[..i][..i - 1] == log[..i - 1];
    } else {
      var h: nat :| h < i && Begins(log, o, h) && Quiet(log, o, h, i - 1) && Resets(log, o, h, i - 1);
      assert log[..i][..i - 1] == log[..i - 1];
      StretchIsRemembered(log, o, h, i - 1);
      ResetForgets(log, o, h, i - 1);
    }
  }

  /** When the last time decides, it does not matter whether by the streak or by the log. */
  lemma LastTimeDecides(log: seq<Observation>, positions: set<nat>, streak: seq<int>, o: Options)
    requires Usable(o) && Times(log, positions, streak) && Tripped(streak, o)
    ensures forall m: nat :: Last(positions, m) ==> m < |log| && OpenUntil(streak, o) == log[m].at + o.openDuration
    ensures exists m: nat :: Last(positions, m)
  {
  }

  lemma ResetForgets(log: seq<Observation>, o: Options, i: nat, k: nat)
    requires Usable(o) && k < |log| && Remembers(log, o, i, k) && Resets(log, o, i, k)
    ensures Streak(log[..k + 1], o) == []
  {
    LastTimeDecides(log, FailuresIn(log, i, k), Streak(log[..k], o), o);
    assert log[..k + 1][..k] == log[..k];
  }

  /** From there on it remembers exactly the failures since, as long as nothing disturbs it. */
  lemma StretchIsRemembered(log: seq<Observation>, o: Options, i: nat, n: nat)
    requires Usable(o) && i <= n <= |log| && Begins(log, o, i) && Quiet(log, o, i, n)
    ensures Remembers(log, o, i, n)
    decreases n, 2
  {
    if i == n {
      BeginsEmpty(log, o, i);
    } else {
      StretchIsRemembered(log, o, i, n - 1);
      RememberStep(log, o, i, n - 1);
    }
  }

  lemma RememberStep(log: seq<Observation>, o: Options, i: nat, k: nat)
    requires Usable(o) && i <= k < |log| && Remembers(log, o, i, k)
    requires !Succeeds(log, k) && !Resets(log, o, i, k)
    ensures Remembers(log, o, i, k + 1)
  {
    if FailsAt(log, k) {
      AnotherFailure(log, i, k);
      OneTimeMore(log, FailuresIn(log, i, k), Streak(log[..k], o), k);
      assert log[..k + 1][..k] == log[..k];
    } else {
      NoFailure(log, i, k);
      StaysAsItWas(log, o, i, k);
    }
  }

  /** An entry that neither fails nor disturbs changes nothing. */
  lemma StaysAsItWas(log: seq<Observation>, o: Options, i: nat, k: nat)
    requires Usable(o) && i <= k < |log| && Remembers(log, o, i, k)
    requires !Succeeds(log, k) && !Resets(log, o, i, k) && !FailsAt(log, k)
    ensures Streak(log[..k + 1], o) == Streak(log[..k], o)
  {
    var before := Streak(log[..k], o);
    assert log[..k + 1][..k] == log[..k];
    if log[k].Probed? && Tripped(before, o) {
      LastTimeDecides(log, FailuresIn(log, i, k), before, o);
    }
  }

  /** Up to any point, the breaker has run undisturbed from some place on. */
  lemma {:induction false} SomeStretch(log: seq<Observation>, o: Options, n: nat) returns (i: nat)
    requires n <= |log|
    ensures i <= n && Begins(log, o, i) && Quiet(log, o, i, n)
  {
    i := 0;
    if n == 0 {
    } else {
      i := SomeStretch(log, o, n - 1);
      if Succeeds(log, n - 1) || Resets(log, o, i, n - 1) {
        i := n;
      }
    }
  }

  /** In an undisturbed stretch, what the fields remember is what the log says. */
  lemma BlocksIsTripped(log: seq<Observation>, o: Options, i: nat, now: int)
    requires Usable(o) && Stretch(log, o, i)
    ensures Blocks(log, o, i, |log|, now) <==> Tripped(Streak(log, o), o) && now < OpenUntil(Streak(log, o), o)
  {
    assert log[..|log|] == log;
    StretchIsRemembered(log, o, i, |log|);
    if Tripped(Streak(log, o), o) {
      LastTimeDecides(log, FailuresIn(log, i, |log|), Streak(log, o), o);
    }
  }

  /** So the breaker is open exactly when its fields say so. */
  lemma OpenIsTripped(log: seq<Observation>, o: Options, now: int)
    requires Usable(o)
    ensures OpenAt(log, o, now) <==> Tripped(Streak(log, o), o) && now < OpenUntil(Streak(log, o), o)
  {
    var i := SomeStretch(log, o, |log|);
    BlocksIsTripped(log, o, i, now);
    if OpenAt(log, o, now) {
      var j: nat :| Stretch(log, o, j) && Blocks(log, o, j, |log|, now);
      BlocksIsTripped(log, o, j, now);
    }
  }

  /**
   * A breaker that has run undisturbed from i on is open exactly while at least FailureLimit
   * retryable failures have been seen since and the last of them is younger than the open period.
   */
  lemma OpenInStretch(log: seq<Observation>, o: Options, i: nat, now: int)
    requires Usable(o) && Stretch(log, o, i)
    ensures OpenAt(log, o, now) <==>
            |FailuresIn(log, i, |log|)| >= o.failureLimit
            && exists m: nat :: Last(FailuresIn(log, i, |log|), m) && now < log[m].at + o.openDuration
  {
    BlocksIsTripped(log, o, i, now);
    OpenIsTripped(log, o, now);
  }

  lemma RemembersNoMore(log: seq<Observation>, o: Options, k: nat)
    requires k < |log|
    ensures |Streak(log[..k + 1], o)| <= |Streak(log[..k], o)| + (if FailsAt(log, k) then 1 else 0)
  {
    assert log[..k + 1][..k] == log[..k];
  }

  /** What is remembered after b, where nothing was, is among the failures since b. */
  lemma {:induction false} RemembersSince(log: seq<Observation>, o: Options, b: nat, n: nat)
    requires b <= n <= |log| && Streak(log[..b], o) == []
    ensures |Streak(log[..n], o)| <= |FailuresIn(log, b, n)|
  {
    if n == b {
    } else {
      RemembersSince(log, o, b, n - 1);
      RemembersNoMore(log, o, n - 1);
      if FailsAt(log, n - 1) {
        AnotherFailure(log, b, n - 1);
      } else {
        NoFailure(log, b, n - 1);
      }
    }
  }

  /**
   * A call that succeeds and a probe that resets the breaker close it: from then on it is open only
   * after FailureLimit new retryable failures.
   */
  lemma ClosedUntilNewFailures(log: seq<Observation>, o: Options, i: nat, k: nat, now: int)
    requires Usable(o) && i <= k < |log| && Begins(log, o, i) && Quiet(log, o, i, k)
    requires Succeeds(log, k) || Resets(log, o, i, k)
    requires OpenAt(log, o, now)
    ensures |FailuresIn(log, k + 1, |log|)| >= o.failureLimit
  {
    assert Begins(log, o, k + 1);
    BeginsEmpty(log, o, k + 1);
    RemembersSince(log, o, k + 1, |log|);
    assert log[..|log|] == log;
    OpenIsTripped(log, o, now);
  }

  /** Attempt k decides a Stream call: every one before it was a retryable failure. */
  predicate Decides(k: int, answers: seq<Outcome>, o: Options)
  {
    && 0 <= k <= o.preStreamRetry && k < |answers|
    && (forall j :: 0 <= j < k ==> answers[j] == Failure(true))
    && (k < o.preStreamRetry ==> answers[k] != Failure(true))
  }

  class Resilient {
    const options: Options
    var inUse: nat                // occupancy of the slots channel
    var failures: nat
    var openUntil: Option<int>    // None is the zero time
    ghost var log: seq<Observation>

    ghost predicate Valid()
      reads this
    {
      && Usable(options)
      && inUse <= options.maxConcurrent
      && failures == |Streak(log, options)|
      && openUntil == if Tripped(Streak(log, options), options)
                         then Some(OpenUntil(Streak(log, options), options)) else None
    }

    constructor (options: Options)
      ensures Valid() && this.options == Normalized(options)
      ensures inUse == 0 && log == []
    {
      this.options := Normalized(options);
      inUse, failures, openUntil, log := 0, 0, None, [];
    }

    /** Open exactly while the limit of failures stands and the last of them is younger than the open period. */
    method IsOpen(now: int) returns (open: bool)
      requires Valid()
      modifies this`failures, this`openUntil, this`log
      ensures Valid() && log == old(log) + [Probed(now)]
      ensures open <==> OpenAt(old(log), options, now)
    {
      OpenIsTripped(log, options, now);
      log := log + [Probed(now)];
      assert log[..|log| - 1] == old(log);
      if openUntil.None? {
        return false;
      }
      if now < openUntil.value {
        return true;
      }
      openUntil := None;
      failures := 0;
      open := false;
    }

    method Observe(outcome: Outcome, now: int)
      requires Valid()
      modifies this`failures, this`openUntil, this`log
      ensures Valid() && log == old(log) + [Observed(outcome, now)]
    {
      log := log + [Observed(outcome, now)];
      assert log[..|log| - 1] == old(log);
      if outcome.Success? {
        failures := 0;
        openUntil := None;
        return;
      }
      if !outcome.retryable {
        return;
      }
      failures := failures + 1;
      if failures >= options.failureLimit {
        openUntil := Some(now + options.openDuration);
      }
    }

    /** The retry loop before streaming: stop at the first answer that is not a retryable failure. */
    method Attempt(answers: seq<Outcome>) returns (used: nat)
      requires Usable(options) && |answers| > options.preStreamRetry
      ensures Decides(used, answers, options)
    {
      used := 0;
      while used < options.preStreamRetry && answers[used] == Failure(true)
        invariant used <= options.preStreamRetry
        invariant forall k :: 0 <= k < used ==> answers[k] == Failure(true)
      {
        used := used + 1;
      }
    }

    /** The send on the slots channel, once it goes through. */
    method TakeSlot()
      requires Valid() && inUse < options.maxConcurrent
      modifies this`inUse
      ensures Valid() && inUse == old(inUse) + 1
    {
      inUse := inUse + 1;
    }

    /**
     * What Stream does once it holds a slot, however long it has waited for it: ask the provider
     * until it answers, report one outcome, and keep the slot only for a stream it returns.
     */
    method Connect(answers: seq<Outcome>, answeredAt: int) returns (stream: ResilientStream?)
      requires Valid() && inUse > 0 && |answers| > options.preStreamRetry
      modifies this
      ensures Valid() && inUse == old(inUse) - if stream == null then 1 else 0
      ensures stream != null ==> fresh(stream) && stream.gateway == this && !stream.released
      ensures exists k :: Decides(k, answers, options)
                && log == old(log) + [Observed(answers[k], answeredAt)]
                && (stream != null <==> answers[k].Success?)
    {
      var used := Attempt(answers);
      if answers[used].Failure? {
        inUse := inUse - 1;
        Observe(answers[used], answeredAt);
        stream := null;
      } else {
        Observe(Success, answeredAt);
        stream := new ResilientStream(this);
      }
      assert log == old(log) + [Observed(answers[used], answeredAt)];
    }

    /**
     * Stream without interruption: the probe of the breaker, the slot (unless the context ends
     * first), the connection. Other calls may run between the three, which is why each has a
     * contract of its own.
     */
    method Stream(now: int, slotFirst: bool, answers: seq<Outcome>, answeredAt: int)
      returns (stream: ResilientStream?)
      requires Valid() && |answers| > options.preStreamRetry
      requires slotFirst ==> inUse < options.maxConcurrent   // otherwise the channel send blocks
      modifies this
      ensures Valid()
      ensures inUse == old(inUse) + if stream != null then 1 else 0
      ensures stream != null ==> fresh(stream) && stream.gateway == this && !stream.released
      ensures if OpenAt(old(log), options, now) || !slotFirst
              then stream == null && log == old(log) + [Probed(now)]
              else (exists k :: Decides(k, answers, options)
                      && log == old(log) + [Probed(now), Observed(answers[k], answeredAt)]
                      && (stream != null <==> answers[k].Success?))
    {
      var open := IsOpen(now);
      if open || !slotFirst {
        return null;
      }
      TakeSlot();
      ghost var probed := log;
      stream := Connect(answers, answeredAt);
      ghost var k :| Decides(k, answers, options) && log == probed + [Observed(answers[k], answeredAt)]
                     && (stream != null <==> answers[k].Success?);
      assert log == old(log) + [Probed(now), Observed(answers[k], answeredAt)];
    }
  }

  /** Next's result: a chunk, the end of the stream, or an error. */
  datatype Received = Chunk | Eof | Broken(retryable: bool)

  class ResilientStream {
    const gateway: Resilient
    var released: bool     // the sync.Once has fired

    constructor (gateway: Resilient)
      ensures this.gateway == gateway && !released
    {
      this.gateway := gateway;
      released := false;
    }

    /** The slot goes back on the first call and never again. */
    method ReleaseOnce()
      requires gateway.Valid() && (!released ==> gateway.inUse > 0)
      modifies this, gateway`inUse
      ensures gateway.Valid() && released
      ensures gateway.inUse == old(gateway.inUse) - if old(released) then 0 else 1
    {
      if !released {
        released := true;
        gateway.inUse := gateway.inUse - 1;
      }
    }

    method Next(received: Received, now: int)
      requires gateway.Valid() && (!released ==> gateway.inUse > 0)
      modifies this, gateway
      ensures gateway.Valid()
      ensures released == (old(released) || !received.Chunk?)
      ensures gateway.inUse == old(gateway.inUse) - if !old(released) && released then 1 else 0
      ensures gateway.log == old(gateway.log)
                             + match received
                               case Chunk => []
                               case Eof => [Observed(Success, now)]
                               case Broken(retryable) => [Observed(Failure(retryable), now)]
    {
      if received.Eof? {
        gateway.Observe(Success, now);
      } else if received.Broken? {
        gateway.Observe(Failure(received.retryable), now);
      }
      if !received.Chunk? {
        ReleaseOnce();
      }
    }

    method Close()
      requires gateway.Valid() && (!released ==> gateway.inUse > 0)
      modifies this, gateway`inUse
      ensures gateway.Valid() && released
      ensures gateway.inUse == old(gateway.inUse) - if old(released) then 0 else 1
    {
      ReleaseOnce();
    }
  }

  // ----------------------------------------------------------------- slots

  /** A call to Stream, then the stream it returns. */
  datatype Phase = Waiting | Holding | Streaming(released: bool) | Left | Rejected

  datatype Slots = Slots(inUse: int, calls: map<Id, Phase>, releases: map<Id, nat>)

  datatype SlotStep =
    | Enter(id: Id)        // past the breaker, waiting for a slot
    | Take(id: Id)
    | GiveUp(id: Id)       // the context ends first
    | Refused(id: Id)      // the provider refuses: slot back
    | Connected(id: Id)
    | NextFails(id: Id)    // Next returns EOF or an error
    | CloseStream(id: Id)

  predicate In(s: Slots, id: Id, phase: Phase) { id in s.calls && s.calls[id] == phase }

  function Releases(s: Slots, id: Id): nat { if id in s.releases then s.releases[id] else 0 }

  function GiveBack(s: Slots, id: Id, phase: Phase): Slots
  {
    Slots(s.inUse - 1, s.calls[id := phase], s.releases[id := Releases(s, id) + 1])
  }

  function ApplySlots(s: Slots, maxConcurrent: int, step: SlotStep): Slots
  {
    match step
    case Enter(id) => if id in s.calls then s else s.(calls := s.calls[id := Waiting])
    case Take(id) =>
      if In(s, id, Waiting) && s.inUse < maxConcurrent
      then s.(inUse := s.inUse + 1, calls := s.calls[id := Holding]) else s
    case GiveUp(id) => if In(s, id, Waiting) then s.(calls := s.calls[id := Left]) else s
    case Refused(id) => if In(s, id, Holding) then GiveBack(s, id, Rejected) else s
    case Connected(id) => if In(s, id, Holding) then s.(calls := s.calls[id := Streaming(false)]) else s
    case NextFails(id) => if In(s, id, Streaming(false)) then GiveBack(s, id, Streaming(true)) else s
    case CloseStream(id) => if In(s, id, Streaming(false)) then GiveBack(s, id, Streaming(true)) else s
  }

  function RunSlots(maxConcurrent: int, steps: seq<SlotStep>): Slots
  {
    if steps == [] then Slots(0, map[], map[])
    else ApplySlots(RunSlots(maxConcurrent, steps[..|steps| - 1]), maxConcurrent, steps[|steps| - 1])
  }

  predicate Occupies(phase: Phase) { phase == Holding || phase == Streaming(false) }

  /** In-flight Stream calls and unreleased streams. */
  function Occupants(s: Slots): set<Id>
  {
    set id | id in s.calls && Occupies(s.calls[id])
  }

  predicate Bounded(s: Slots, maxConcurrent: int) { s.inUse == |Occupants(s)| <= maxConcurrent }

  predicate Returned(phase: Phase) { phase == Streaming(true) || phase == Rejected }

  ghost predicate ReturnedOnce(s: Slots)
  {
    forall id :: Releases(s, id) == if id in s.calls && Returned(s.calls[id]) then 1 else 0
  }

  lemma StepKeepsBound(s: Slots, maxConcurrent: int, step: SlotStep)
    requires Bounded(s, maxConcurrent)
    ensures Bounded(ApplySlots(s, maxConcurrent, step), maxConcurrent)
  {
    var s' := ApplySlots(s, maxConcurrent, step);
    if step.id in Occupants(s') && step.id !in Occupants(s) {
      assert Occupants(s') == Occupants(s) + {step.id};
    } else if step.id !in Occupants(s') && step.id in Occupants(s) {
      assert Occupants(s') == Occupants(s) - {step.id};
    } else {
      assert Occupants(s') == Occupants(s);
    }
  }

  lemma StepKeepsReturnedOnce(s: Slots, maxConcurrent: int, step: SlotStep)
    requires ReturnedOnce(s)
    ensures ReturnedOnce(ApplySlots(s, maxConcurrent, step))
  {
    var s' := ApplySlots(s, maxConcurrent, step);
    forall id ensures Releases(s', id) == if id in s'.calls && Returned(s'.calls[id]) then 1 else 0 {
      assert Releases(s, id) == if id in s.calls && Returned(s.calls[id]) then 1 else 0;
    }
  }

  /**
   * Slots over any interleaving of calls and streams: the held slots are exactly the in-flight
   * calls and the unreleased streams, never more than MaxConcurrent; a refused call and a finished
   * stream have given their slot back exactly once, whatever the order of Next errors and Close.
   */
  lemma {:induction false} SlotsNeverLeak(maxConcurrent: int, steps: seq<SlotStep>)
    requires maxConcurrent > 0
    ensures var s := RunSlots(maxConcurrent, steps);
            && s.inUse == |Occupants(s)| <= maxConcurrent
            && ReturnedOnce(s)
  {
    if steps == [] {
      assert Occupants(RunSlots(maxConcurrent, steps)) == {};
    } else {
      SlotsNeverLeak(maxConcurrent, steps[..|steps| - 1]);
      StepKeepsBound(RunSlots(maxConcurrent, steps[..|steps| - 1]), maxConcurrent, steps[|steps| - 1]);
      StepKeepsReturnedOnce(RunSlots(maxConcurrent, steps[..|steps| - 1]), maxConcurrent, steps[|steps| - 1]);
    }
  }
}
