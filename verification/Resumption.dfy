/**
 * Whole runs of a resume, and what the browser shows at their end: the whole answer exactly when no
 * live chunk overtook the replay.
 */
module Resumption {
  import opened Basics
  import opened ReplayWindow
  import opened Resume
  import opened Catchup
  import R = Reducer
  import T = Text

  // -------------------------------------------------------------- whole runs

  /** The state after the first k steps. */
  function After(after: int, steps: seq<Step>, k: nat): State
    requires k <= |steps|
  {
    Run(after, steps[..k])
  }

  lemma AfterStep(after: int, steps: seq<Step>, k: nat)
    requires k < |steps|
    ensures After(after, steps, k + 1) == Apply(After(after, steps, k), after, steps[k])
  {
    assert steps[..k + 1][..k] == steps[..k];
  }

  /** The server emits the answer in order throughout the run. */
  ghost predicate ServedThrough(after: int, chunk: Chunking, steps: seq<Step>)
  {
    forall k :: 0 <= k < |steps| ==> Serves(After(after, steps, k), chunk, steps[k])
  }

  ghost predicate OvertakenAt(after: int, chunk: Chunking, start: nat, steps: seq<Step>, k: nat)
    requires k < |steps|
  {
    Overtakes(After(after, steps, k), after, chunk, start, steps[k], Run(after, steps).published)
  }

  ghost predicate NoneOvertakes(after: int, chunk: Chunking, start: nat, steps: seq<Step>)
  {
    forall k :: 0 <= k < |steps| ==> !OvertakenAt(after, chunk, start, steps, k)
  }

  ghost predicate NoHole(s: State, chunk: Chunking, start: nat)
  {
    forall e: Event, b: nat :: !Hole(s, chunk, start, e, b)
  }

  lemma StartIsOk(after: int, chunk: Chunking)
    requires after >= 1
    ensures StepOk(Run(after, []), after, chunk)
  {
    RunKeepsInv(after, []);
  }

  lemma {:induction false} RunStaysOk(after: int, chunk: Chunking, steps: seq<Step>, n: nat)
    requires after >= 1 && n <= |steps| && ServedThrough(after, chunk, steps)
    ensures StepOk(After(after, steps, n), after, chunk)
  {
    if n == 0 {
      assert After(after, steps, 0) == Run(after, []);
      StartIsOk(after, chunk);
    } else {
      var s, step := After(after, steps, n - 1), steps[n - 1];
      RunStaysOk(after, chunk, steps, n - 1);
      AfterStep(after, steps, n - 1);
      RunKeepsInv(after, steps[..n]);
      StepKeepsOk(s, after, chunk, step);
    }
  }

  // -------------------------------------------------------- along one trace

  ghost predicate Follows(trace: seq<State>, after: int, chunk: Chunking, steps: seq<Step>, k: nat)
    requires |trace| == |steps| + 1 && k < |steps|
  {
    && trace[k + 1] == Apply(trace[k], after, steps[k])
    && StepOk(trace[k], after, chunk) && Serves(trace[k], chunk, steps[k])
  }

  /** The states of a run, one after another. */
  ghost predicate Traces(trace: seq<State>, after: int, chunk: Chunking, steps: seq<Step>)
  {
    && after >= 1 && |trace| == |steps| + 1 && trace[0].conn.phase == Offline
    && forall k :: 0 <= k < |steps| ==> Follows(trace, after, chunk, steps, k)
  }

  ghost predicate OvertakenIn(trace: seq<State>, after: int, chunk: Chunking, start: nat, steps: seq<Step>, k: nat)
    requires |trace| == |steps| + 1 && k < |steps|
  {
    Overtakes(trace[k], after, chunk, start, steps[k], trace[|steps|].published)
  }

  ghost predicate NoneOvertakesIn(trace: seq<State>, after: int, chunk: Chunking, start: nat, steps: seq<Step>)
    requires |trace| == |steps| + 1
  {
    forall k :: 0 <= k < |steps| ==> !OvertakenIn(trace, after, chunk, start, steps, k)
  }

  lemma Trace(after: int, chunk: Chunking, steps: seq<Step>) returns (trace: seq<State>)
    requires after >= 1 && ServedThrough(after, chunk, steps)
    ensures Traces(trace, after, chunk, steps)
    ensures forall k :: 0 <= k <= |steps| ==> trace[k] == After(after, steps, k)
    ensures trace[|steps|] == Run(after, steps)
  {
    trace := seq(|steps| + 1, k requires 0 <= k <= |steps| => After(after, steps, k));
    forall k | 0 <= k < |steps| ensures Follows(trace, after, chunk, steps, k) {
      RunFollows(trace, after, chunk, steps, k);
    }
    assert trace[0] == Run(after, []);
    assert steps[..|steps|] == steps;
  }

  lemma RunFollows(trace: seq<State>, after: int, chunk: Chunking, steps: seq<Step>, k: nat)
    requires after >= 1 && ServedThrough(after, chunk, steps) && k < |steps| && |trace| == |steps| + 1
    requires trace[k] == After(after, steps, k) && trace[k + 1] == After(after, steps, k + 1)
    ensures Follows(trace, after, chunk, steps, k)
  {
    AfterStep(after, steps, k);
    RunStaysOk(after, chunk, steps, k);
  }

  lemma SameOvertakings(trace: seq<State>, after: int, chunk: Chunking, start: nat, steps: seq<Step>)
    requires |trace| == |steps| + 1 && forall k :: 0 <= k <= |steps| ==> trace[k] == After(after, steps, k)
    ensures NoneOvertakesIn(trace, after, chunk, start, steps) <==> NoneOvertakes(after, chunk, start, steps)
  {
    assert steps[..|steps|] == steps;
    forall k | 0 <= k < |steps|
      ensures OvertakenIn(trace, after, chunk, start, steps, k) <==> OvertakenAt(after, chunk, start, steps, k)
    {
    }
  }

  lemma {:induction false} PublishedGrows(trace: seq<State>, after: int, chunk: Chunking, steps: seq<Step>,
                                          m: nat, n: nat)
    requires Traces(trace, after, chunk, steps) && m <= n <= |steps|
    ensures trace[m].published <= trace[n].published
  {
    if m == n {
    } else {
      PublishedGrows(trace, after, chunk, steps, m, n - 1);
      assert Follows(trace, after, chunk, steps, n - 1);
      StepPublishes(trace[n - 1], after, steps[n - 1]);
    }
  }

  lemma {:induction false} LostStays(trace: seq<State>, after: int, chunk: Chunking, start: nat, steps: seq<Step>,
                                     m: nat, n: nat, e: Event)
    requires Traces(trace, after, chunk, steps) && m <= n <= |steps|
    requires !Starting(trace[m].conn) && Lost(trace[m], chunk, start, trace[|steps|].published, e)
    ensures !Starting(trace[n].conn) && Lost(trace[n], chunk, start, trace[|steps|].published, e)
  {
    if m == n {
    } else {
      LostStays(trace, after, chunk, start, steps, m, n - 1, e);
      assert Follows(trace, after, chunk, steps, n - 1);
      PublishedGrows(trace, after, chunk, steps, n, |steps|);
      StepKeepsLost(trace[n - 1], after, chunk, start, steps[n - 1], trace[|steps|].published, e);
    }
  }

  lemma {:induction false} HoleStays(trace: seq<State>, after: int, chunk: Chunking, start: nat, steps: seq<Step>,
                                     m: nat, n: nat, e: Event, b: nat)
    requires Traces(trace, after, chunk, steps) && m <= n <= |steps|
    requires !Starting(trace[m].conn) && Hole(trace[m], chunk, start, e, b)
    ensures !Starting(trace[n].conn) && Hole(trace[n], chunk, start, e, b)
  {
    if m == n {
    } else {
      HoleStays(trace, after, chunk, start, steps, m, n - 1, e, b);
      assert Follows(trace, after, chunk, steps, n - 1);
      StepKeepsHole(trace[n - 1], after, chunk, start, steps[n - 1], e, b);
    }
  }

  lemma {:induction false} BehindStays(trace: seq<State>, after: int, chunk: Chunking, steps: seq<Step>,
                                       m: nat, n: nat, d: Event, e: Event)
    requires Traces(trace, after, chunk, steps) && m <= n <= |steps| && Behind(trace[m], chunk, d, e)
    ensures Behind(trace[n], chunk, d, e)
  {
    if m == n {
    } else {
      BehindStays(trace, after, chunk, steps, m, n - 1, d, e);
      assert Follows(trace, after, chunk, steps, n - 1);
      StepKeepsBehind(trace[n - 1], after, chunk, steps[n - 1], d, e);
    }
  }

  /** Without an overtaking, and with no hole left at the end, everything queued is counted or returns. */
  lemma {:induction false} OnTrackThroughout(trace: seq<State>, after: int, chunk: Chunking, start: nat,
                                             steps: seq<Step>, n: nat)
    requires Traces(trace, after, chunk, steps) && n <= |steps| && NoHole(trace[|steps|], chunk, start)
    requires NoneOvertakesIn(trace, after, chunk, start, steps)
    ensures trace[n].conn.phase == Replaying ==> OnTrack(trace[n], chunk, start, trace[|steps|].published)
  {
    if n == 0 {
    } else {
      OnTrackThroughout(trace, after, chunk, start, steps, n - 1);
      if trace[n].conn.phase == Replaying {
        var e, b := NextOnTrack(trace, after, chunk, start, steps, n - 1);
        if Hole(trace[n], chunk, start, e, b) {
          HoleStays(trace, after, chunk, start, steps, n, |steps|, e, b);
        }
      }
    }
  }

  lemma NextOnTrack(trace: seq<State>, after: int, chunk: Chunking, start: nat, steps: seq<Step>, k: nat)
    returns (e: Event, b: nat)
    requires Traces(trace, after, chunk, steps) && k < |steps| && trace[k + 1].conn.phase == Replaying
    requires trace[k].conn.phase == Replaying ==> OnTrack(trace[k], chunk, start, trace[|steps|].published)
    requires !OvertakenIn(trace, after, chunk, start, steps, k)
    ensures OnTrack(trace[k + 1], chunk, start, trace[|steps|].published) || Hole(trace[k + 1], chunk, start, e, b)
  {
    assert Follows(trace, after, chunk, steps, k);
    var final := trace[|steps|].published;
    if trace[k].conn.phase == Replaying {
      forall d, x | Behind(trace[k], chunk, d, x) ensures d !in final {
        BehindStays(trace, after, chunk, steps, k, |steps|, d, x);
      }
      e, b := StepKeepsOnTrack(trace[k], after, chunk, start, steps[k], final);
    } else {
      e, b := ReadWindowOnTrack(trace[k], after, chunk, start, final);
    }
  }

  // ---------------------------------------------------- when it catches up

  /** Every chunk the browser was sent has been counted. */
  ghost predicate CaughtUp(s: State, chunk: Chunking, start: nat)
  {
    forall e :: e in s.conn.sent ==> !Ahead(s, chunk, start, e)
  }

  predicate Drained(c: Conn) { c.phase == Replaying && c.todo == [] && c.inbox == [] && c.outgoing == [] }

  /** What overtakes is never counted. */
  lemma LostOnceOvertaken(trace: seq<State>, after: int, chunk: Chunking, start: nat, steps: seq<Step>, k: nat)
    returns (e: Event)
    requires Traces(trace, after, chunk, steps) && k < |steps|
    requires OvertakenIn(trace, after, chunk, start, steps, k)
    ensures Lost(trace[|steps|], chunk, start, trace[|steps|].published, e)
  {
    e := Queued(trace[k], steps[k]).value;
    assert Follows(trace, after, chunk, steps, k);
    OvertakingLoses(trace[k], after, chunk, start, steps[k], trace[|steps|].published);
    LostStays(trace, after, chunk, start, steps, k + 1, |steps|, e);
  }

  /** Nor is anything behind a hole. */
  lemma HoleStopsBrowser(s: State, chunk: Chunking, start: nat, e: Event, b: nat)
    requires Hole(s, chunk, start, e, b)
    ensures Ahead(s, chunk, start, e)
  {
    var all := Stream(s.conn) + s.conn.todo + s.conn.inbox;
    assert Carried(chunk, Stream(s.conn), b) ==> Carried(chunk, all, b) by {
      assert forall d :: d in Stream(s.conn) ==> d in all;
    }
    StuckWithout(chunk, start, Stream(s.conn), b);
  }

  lemma CatchesUp(trace: seq<State>, after: int, chunk: Chunking, start: nat, steps: seq<Step>)
    requires Traces(trace, after, chunk, steps) && Drained(trace[|steps|].conn)
    requires NoneOvertakesIn(trace, after, chunk, start, steps)
    requires NoHole(trace[|steps|], chunk, start)
    ensures CaughtUp(trace[|steps|], chunk, start)
  {
    var s := trace[|steps|];
    OnTrackThroughout(trace, after, chunk, start, steps, |steps|);
    forall e | e in s.conn.sent ensures !Ahead(s, chunk, start, e) {
      assert e in Stream(s.conn) && !Returns(s, s.published, e);
    }
  }

  lemma FallsBehind(trace: seq<State>, after: int, chunk: Chunking, start: nat, steps: seq<Step>)
    requires Traces(trace, after, chunk, steps) && Drained(trace[|steps|].conn)
    requires !NoneOvertakesIn(trace, after, chunk, start, steps) || !NoHole(trace[|steps|], chunk, start)
    ensures !CaughtUp(trace[|steps|], chunk, start)
  {
    var s := trace[|steps|];
    assert Stream(s.conn) == s.conn.sent;
    if !NoHole(s, chunk, start) {
      var e: Event, b: nat :| Hole(s, chunk, start, e, b);
      HoleStopsBrowser(s, chunk, start, e, b);
    } else {
      var k :| 0 <= k < |steps| && OvertakenIn(trace, after, chunk, start, steps, k);
      var e := LostOnceOvertaken(trace, after, chunk, start, steps, k);
      assert e in s.conn.sent;
    }
  }

  /**
   * Exactly when a resumed client catches up: after any interleaving, whatever emits have failed,
   * once the queues are drained, it has counted every chunk it was sent if and only if none of them
   * overtook an earlier one and none of them has a predecessor that was never sent. What was
   * published above `after` has all been sent, but NoEventLost alone does not give this.
   */
  lemma CaughtUpIff(after: int, chunk: Chunking, start: nat, steps: seq<Step>)
    requires after >= 1 && ServedThrough(after, chunk, steps)
    requires Drained(Run(after, steps).conn)
    ensures var s := Run(after, steps);
            CaughtUp(s, chunk, start) <==> NoneOvertakes(after, chunk, start, steps) && NoHole(s, chunk, start)
  {
    var trace := Trace(after, chunk, steps);
    SameOvertakings(trace, after, chunk, start, steps);
    if NoneOvertakesIn(trace, after, chunk, start, steps) && NoHole(trace[|steps|], chunk, start) {
      CatchesUp(trace, after, chunk, start, steps);
    } else {
      FallsBehind(trace, after, chunk, start, steps);
    }
  }

  /** A drained client that has resumed was sent every published chunk above the number it asked with. */
  lemma PublishedWasSent(after: int, chunk: Chunking, steps: seq<Step>, e: Event, k: nat)
    requires after >= 1 && Drained(Run(after, steps).conn)
    requires e in Run(after, steps).published && e.sequence > after && chunk(e.payload) == Some(k)
    ensures Carried(chunk, Run(after, steps).conn.sent, k)
  {
    NoEventLost(after, steps, e);
  }

  /**
   * So there are two ways to miss a chunk for good: its emit has failed, or the client has asked
   * past it, having seen a later number before.
   */
  lemma HoleCauses(after: int, chunk: Chunking, start: nat, steps: seq<Step>, e: Event, b: nat, d: Event)
    requires after >= 1 && Drained(Run(after, steps).conn) && Hole(Run(after, steps), chunk, start, e, b)
    requires chunk(d.payload) == Some(b)
    ensures d !in Run(after, steps).published || d.sequence <= after
  {
    var c := Run(after, steps).conn;
    assert Stream(c) + c.todo + c.inbox == c.sent;
    if d in Run(after, steps).published && d.sequence > after {
      PublishedWasSent(after, chunk, steps, d, b);
    }
  }

  lemma {:induction false} ArrivedStays(trace: seq<State>, after: int, chunk: Chunking, steps: seq<Step>,
                                        m: nat, n: nat, b: nat)
    requires Traces(trace, after, chunk, steps) && m <= n <= |steps| && Arrived(trace[m].conn, chunk, b)
    ensures Arrived(trace[n].conn, chunk, b)
  {
    if m == n {
    } else {
      ArrivedStays(trace, after, chunk, steps, m, n - 1, b);
      assert Follows(trace, after, chunk, steps, n - 1);
      StepKeepsArrived(trace[n - 1], after, chunk, steps[n - 1], b);
    }
  }

  lemma OvertakenHasArrived(trace: seq<State>, after: int, chunk: Chunking, start: nat, steps: seq<Step>, k: nat)
    requires Traces(trace, after, chunk, steps) && k < |steps|
    requires OvertakenIn(trace, after, chunk, start, steps, k)
    ensures Arrived(trace[|steps|].conn, chunk, start)
  {
    assert Follows(trace, after, chunk, steps, k);
    FirstHasArrived(trace[k], after, chunk, start, steps[k], trace[|steps|].published);
    ArrivedStays(trace, after, chunk, steps, k + 1, |steps|, start);
  }

  /** A client that is never sent the first chunk it needs loses nothing to overtaking. */
  lemma NothingToOvertake(after: int, chunk: Chunking, start: nat, steps: seq<Step>)
    requires after >= 1 && ServedThrough(after, chunk, steps) && Drained(Run(after, steps).conn)
    requires !Carried(chunk, Run(after, steps).conn.sent, start)
    ensures NoneOvertakes(after, chunk, start, steps)
  {
    var trace := Trace(after, chunk, steps);
    var c := trace[|steps|].conn;
    assert Stream(c) + c.todo + c.inbox == c.sent;
    forall k | 0 <= k < |steps| ensures !OvertakenIn(trace, after, chunk, start, steps, k) {
      if OvertakenIn(trace, after, chunk, start, steps, k) {
        OvertakenHasArrived(trace, after, chunk, start, steps, k);
      }
    }
    SameOvertakings(trace, after, chunk, start, steps);
  }

  // ------------------------------------------------------------- the browser

  /** The deltas among the events sent, as the browser handles them. */
  function Deliveries(events: seq<Event>, chunk: Chunking, generation: Id): seq<R.Delivery>
  {
    if events == [] then []
    else
      Deliveries(events[..|events| - 1], chunk, generation)
      + match chunk(events[|events| - 1].payload)
        case None => []
        case Some(i) => [R.Chunk(generation, i)]
  }

  lemma {:induction false} DeliveriesCount(events: seq<Event>, chunk: Chunking, generation: Id, start: nat, size: nat)
    requires forall payload, i :: chunk(payload) == Some(i) ==> i < size
    ensures R.Position(start, R.Indices(Deliveries(events, chunk, generation), generation))
            == Counted(chunk, start, events)
    ensures forall d :: d in Deliveries(events, chunk, generation) ==>
              d.Chunk? && d.generation == generation && d.index < size
  {
    if events == [] {
    } else {
      var front, last := events[..|events| - 1], chunk(events[|events| - 1].payload);
      DeliveriesCount(front, chunk, generation, start, size);
      var before := Deliveries(front, chunk, generation);
      if last.Some? {
        assert (before + [R.Chunk(generation, last.value)])[..|before|] == before;
        var indices := R.Indices(before, generation);
        assert (indices + [last.value])[..|indices|] == indices;
      } else {
        assert before + [] == before;
      }
    }
  }

  /** The whole answer is counted exactly when all of it was sent and every chunk sent is counted. */
  lemma WholeIffCaughtUp(s: State, chunk: Chunking, start: nat, size: nat)
    requires Drained(s.conn) && start <= size && forall payload, i :: chunk(payload) == Some(i) ==> i < size
    ensures start <= Counted(chunk, start, s.conn.sent)
    ensures Counted(chunk, start, s.conn.sent) >= size <==>
              CaughtUp(s, chunk, start) && forall k :: start <= k < size ==> Carried(chunk, s.conn.sent, k)
  {
    assert Stream(s.conn) == s.conn.sent;
    CountedFromStart(chunk, start, s.conn.sent);
    if Counted(chunk, start, s.conn.sent) >= size {
      forall k | start <= k < size ensures Carried(chunk, s.conn.sent, k) {
        if !Carried(chunk, s.conn.sent, k) {
          StuckWithout(chunk, start, s.conn.sent, k);
        }
      }
    }
    if CaughtUp(s, chunk, start) && start < size && Carried(chunk, s.conn.sent, size - 1) {
      var e :| e in s.conn.sent && chunk(e.payload) == Some(size - 1);
      assert !Ahead(s, chunk, start, e);
    }
  }

  /**
   * From the emitters to the browser, across a resume: a message that showed the first `start`
   * chunks of an answer shows a prefix of it once the queues are drained, and the whole of it if
   * and only if every other chunk was sent and none of them overtook an earlier one.
   */
  lemma ResumedBrowserIff(after: int, chunk: Chunking, start: nat, steps: seq<Step>, generation: Id,
                          answer: seq<string>, messages: seq<R.Message>, j: nat)
    requires after >= 1 && ServedThrough(after, chunk, steps) && Drained(Run(after, steps).conn)
    requires R.NonEmpty(answer) && forall payload, i :: chunk(payload) == Some(i) ==> i < |answer|
    requires j < |messages| && R.Shows(messages, j, messages[j].id, generation, answer, start)
    ensures var sent := Run(after, steps).conn.sent;
            var ds := Deliveries(sent, chunk, generation);
            && (forall k :: 0 <= k < |ds| ==> R.Genuine(map[generation := answer], ds[k]))
            && var shown := R.HandleAll(messages, map[generation := answer], ds);
               && j < |shown| && shown[j].content <= T.Concat(answer)
               && (shown[j].content == T.Concat(answer) <==>
                     NoneOvertakes(after, chunk, start, steps)
                     && forall k :: start <= k < |answer| ==> Carried(chunk, sent, k))
  {
    var s := Run(after, steps);
    var ds := Deliveries(s.conn.sent, chunk, generation);
    DeliveriesCount(s.conn.sent, chunk, generation, start, |answer|);
    R.ClientShowsPrefix(messages, map[generation := answer], ds, j, generation, start);
    var count := Counted(chunk, start, s.conn.sent);
    R.BoundaryIsPrefix(answer, count);
    CaughtUpIff(after, chunk, start, steps);
    WholeIffCaughtUp(s, chunk, start, |answer|);
    AllSentNoHole(s, chunk, start, |answer|);
    if count == |answer| {
      assert answer[..count] == answer;
    } else {
      R.ConcatProper(answer, count);
    }
  }

  lemma AllSentNoHole(s: State, chunk: Chunking, start: nat, size: nat)
    requires forall payload, i :: chunk(payload) == Some(i) ==> i < size
    ensures (forall k :: start <= k < size ==> Carried(chunk, s.conn.sent, k)) ==> NoHole(s, chunk, start)
  {
    var all := Stream(s.conn) + s.conn.todo + s.conn.inbox;
    forall k: nat | Carried(chunk, s.conn.sent, k) ensures Carried(chunk, all, k) {
      var e :| e in s.conn.sent && chunk(e.payload) == Some(k);
      assert e in all;
    }
  }
}
