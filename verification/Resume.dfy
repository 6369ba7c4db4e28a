/**
 * Joining replay with live events. Emitters number, append and publish their events in three
 * separate Redis calls and may overtake one another; a connection subscribes, then resumes by
 * reading the current sequence and the replay window in two more calls, while its loops move
 * events through a bounded queue. Emitters may also stop after any call.
 */
module Resume {
  import opened Basics
  import opened ReplayWindow

  const QUEUE_SIZE: nat := 64

  /** How far an Emit call has come with its event. */
  datatype Stage = Drawn | InWindow | Sent
  datatype Emission = Emission(event: Event, stage: Stage)

  datatype Phase =
    | Offline
    | Subscribed
    | ReadingWindow   // has read the current sequence
    | Replaying       // enqueueing the replayed events, then simply live
    | Resynced        // resync_required was sent instead
    | Closed

  datatype Conn = Conn(
    phase: Phase, current: int,
    todo: seq<Event>,       // replayed events not enqueued yet
    inbox: seq<Event>,      // delivered by Redis, not read by subscriptionLoop yet
    outgoing: seq<Event>,   // the bounded write queue
    sent: seq<Event>)       // written to the socket

  datatype State = State(
    counter: nat, window: seq<Event>, emissions: map<Id, Emission>, conn: Conn,
    published: set<Event>,   // history: everything published
    early: set<Event>)       // history: what was published before the subscription

  datatype Step =
    | NextSequence(emit: Id, payload: string)
    | AppendEvent(emit: Id)
    | Publish(emit: Id)
    | Subscribe
    | ReadCurrent
    | ReadWindow
    | EnqueueReplay
    | EnqueueLive
    | Write
    | Close

  predicate Listening(c: Conn) { c.phase != Offline && c.phase != Closed }

  function Apply(s: State, after: int, step: Step): State
  {
    var c := s.conn;
    match step
    case NextSequence(k, payload) =>
      if k in s.emissions then s
      else s.(counter := s.counter + 1, emissions := s.emissions[k := Emission(Event(s.counter + 1, payload), Drawn)])
    case AppendEvent(k) =>
      if k !in s.emissions || s.emissions[k].stage != Drawn then s
      else s.(window := AppendReplay(s.window, s.emissions[k].event),
              emissions := s.emissions[k := s.emissions[k].(stage := InWindow)])
    case Publish(k) =>
      if k !in s.emissions || s.emissions[k].stage != InWindow then s
      else s.(published := s.published + {s.emissions[k].event},
              emissions := s.emissions[k := s.emissions[k].(stage := Sent)],
              conn := if Listening(c) then c.(inbox := c.inbox + [s.emissions[k].event]) else c)
    case Subscribe =>
      if c.phase != Offline then s else s.(conn := c.(phase := Subscribed), early := s.published)
    case ReadCurrent =>
      if c.phase != Subscribed then s else s.(conn := c.(phase := ReadingWindow, current := s.counter))
    case ReadWindow =>
      if c.phase != ReadingWindow then s
      else
        var replay := Replay(c.current, s.window, after);
        if replay.resyncRequired then s.(conn := c.(phase := Resynced))
        else s.(conn := c.(phase := Replaying, todo := replay.events))
    case EnqueueReplay =>
      if c.phase != Replaying || c.todo == [] then s
      else if |c.outgoing| >= QUEUE_SIZE then s.(conn := c.(phase := Closed))
      else s.(conn := c.(todo := c.todo[1..], outgoing := c.outgoing + [c.todo[0]]))
    case EnqueueLive =>
      if !Listening(c) || c.inbox == [] then s
      else if |c.outgoing| >= QUEUE_SIZE then s.(conn := c.(phase := Closed))
      else s.(conn := c.(inbox := c.inbox[1..], outgoing := c.outgoing + [c.inbox[0]]))
    case Write =>
      if !Listening(c) || c.outgoing == [] then s
      else s.(conn := c.(outgoing := c.outgoing[1..], sent := c.sent + [c.outgoing[0]]))
    case Close => s.(conn := c.(phase := Closed))
  }

  function Run(after: int, steps: seq<Step>): State
  {
    if steps == [] then State(0, [], map[], Conn(Offline, 0, [], [], [], []), {}, {})
    else Apply(Run(after, steps[..|steps| - 1]), after, steps[|steps| - 1])
  }

  // ------------------------------------------------------------- invariants

  predicate Reached(c: Conn, e: Event) { e in c.todo || e in c.inbox || e in c.outgoing || e in c.sent }

  predicate Live(c: Conn, e: Event) { e in c.inbox || e in c.outgoing || e in c.sent }

  ghost predicate Appended(emissions: map<Id, Emission>, e: Event)
  {
    exists k :: k in emissions && emissions[k].event == e && emissions[k].stage != Drawn
  }

  ghost predicate EmissionsOk(s: State)
  {
    && (forall k :: k in s.emissions ==> 1 <= s.emissions[k].event.sequence <= s.counter)
    && (forall j, k :: j in s.emissions && k in s.emissions && j != k ==>
          s.emissions[j].event.sequence != s.emissions[k].event.sequence)
    && (forall e :: e in s.published ==> Appended(s.emissions, e))
  }

  ghost predicate WindowOk(s: State)
  {
    && Sorted(s.window) && |s.window| <= REPLAY_LIMIT
    && (forall e :: e in s.window ==> Appended(s.emissions, e))
    && (forall k :: k in s.emissions && s.emissions[k].stage != Drawn ==> Kept(s.window, s.emissions[k].event))
  }

  ghost predicate ConnOk(s: State, after: int)
  {
    && s.early <= s.published
    && (Listening(s.conn) ==> forall e :: e in s.published && e !in s.early ==> Live(s.conn, e))
    && (s.conn.phase == ReadingWindow ==> forall e :: e in s.early ==> e.sequence <= s.conn.current)
    && (s.conn.phase == Replaying ==> forall e :: e in s.early && e.sequence > after ==> Reached(s.conn, e))
  }

  ghost predicate Inv(s: State, after: int) { EmissionsOk(s) && WindowOk(s) && ConnOk(s, after) }

  /** An emission that moves on, or a new one, unappends nothing. */
  lemma AppendedStays(emissions: map<Id, Emission>, k: Id, x: Emission, e: Event)
    requires k in emissions ==> x.event == emissions[k].event && x.stage != Drawn
    requires Appended(emissions, e)
    ensures Appended(emissions[k := x], e)
  {
    var j :| j in emissions && emissions[j].event == e && emissions[j].stage != Drawn;
    assert emissions[k := x][j].event == e;
  }

  lemma DrawKeepsInv(s: State, after: int, k: Id, payload: string)
    requires Inv(s, after)
    ensures Inv(Apply(s, after, NextSequence(k, payload)), after)
  {
    if k !in s.emissions {
      forall e | Appended(s.emissions, e)
        ensures Appended(Apply(s, after, NextSequence(k, payload)).emissions, e)
      {
        AppendedStays(s.emissions, k, Emission(Event(s.counter + 1, payload), Drawn), e);
      }
    }
  }

  lemma AppendKeepsInv(s: State, after: int, k: Id)
    requires Inv(s, after)
    ensures Inv(Apply(s, after, AppendEvent(k)), after)
  {
    if k in s.emissions && s.emissions[k].stage == Drawn {
      var e := s.emissions[k].event;
      var s' := Apply(s, after, AppendEvent(k));
      forall i | 0 <= i < |s.window| ensures s.window[i].sequence != e.sequence {
        assert Appended(s.emissions, s.window[i]);
      }
      AppendKeeps(s.window, e, e);
      forall j | j in s'.emissions && s'.emissions[j].stage != Drawn
        ensures Kept(s'.window, s'.emissions[j].event)
      {
        AppendKeeps(s.window, e, s'.emissions[j].event);
      }
      assert s'.emissions[k].event == e;
      forall x | Appended(s.emissions, x) ensures Appended(s'.emissions, x) {
        AppendedStays(s.emissions, k, s'.emissions[k], x);
      }
    }
  }

  lemma PublishKeepsInv(s: State, after: int, k: Id)
    requires Inv(s, after)
    ensures Inv(Apply(s, after, Publish(k)), after)
  {
    if k in s.emissions && s.emissions[k].stage == InWindow {
      var s' := Apply(s, after, Publish(k));
      assert s'.emissions[k].event == s.emissions[k].event;
      forall x | Appended(s.emissions, x) ensures Appended(s'.emissions, x) {
        AppendedStays(s.emissions, k, s'.emissions[k], x);
      }
    }
  }

  /** The heart of the matter: an event already published is in the window read later, or its loss is noticed. */
  lemma ReadFindsOrResyncs(s: State, after: int, e: Event)
    requires WindowOk(s) && after >= 1
    requires Appended(s.emissions, e) && e.sequence > after
    requires s.conn.current > after
    ensures var replay := Replay(s.conn.current, s.window, after); replay.resyncRequired || e in replay.events
  {
    AboveIsFilter(s.window, after);
    assert Kept(s.window, e);
    if e !in s.window {
      assert s.window[0] in Above(s.window, after);
      var first := Above(s.window, after)[0];
      assert first in Above(s.window, after);
    }
  }

  predicate MovesEvents(step: Step) { step.EnqueueReplay? || step.EnqueueLive? || step.Write? }

  /** The loops only move events along. */
  lemma LoopsDropNothing(s: State, after: int, step: Step, e: Event)
    requires MovesEvents(step) && Listening(Apply(s, after, step).conn)
    ensures var c' := Apply(s, after, step).conn;
            && c'.phase == s.conn.phase && c'.current == s.conn.current
            && (Live(s.conn, e) ==> Live(c', e))
            && (Reached(s.conn, e) ==> Reached(c', e))
  {
    var c := s.conn;
    assert c.todo != [] ==> c.todo == [c.todo[0]] + c.todo[1..];
    assert c.inbox != [] ==> c.inbox == [c.inbox[0]] + c.inbox[1..];
    assert c.outgoing != [] ==> c.outgoing == [c.outgoing[0]] + c.outgoing[1..];
  }

  lemma LoopKeepsInv(s: State, after: int, step: Step)
    requires Inv(s, after) && MovesEvents(step)
    ensures Inv(Apply(s, after, step), after)
  {
    var s' := Apply(s, after, step);
    if Listening(s'.conn) {
      forall e ensures (Live(s.conn, e) ==> Live(s'.conn, e)) && (Reached(s.conn, e) ==> Reached(s'.conn, e)) {
        LoopsDropNothing(s, after, step, e);
      }
      LoopsDropNothing(s, after, step, Event(0, ""));
    }
  }

  lemma PhaseKeepsInv(s: State, after: int, step: Step)
    requires Inv(s, after) && after >= 1
    requires !MovesEvents(step) && !step.NextSequence? && !step.AppendEvent? && !step.Publish?
    ensures Inv(Apply(s, after, step), after)
  {
    var c, c' := s.conn, Apply(s, after, step).conn;
    if step.ReadWindow? && c.phase == ReadingWindow && c'.phase == Replaying {
      forall e | e in s.early && e.sequence > after ensures Reached(c', e) {
        ReadFindsOrResyncs(s, after, e);
      }
    }
  }

  lemma {:induction false} RunKeepsInv(after: int, steps: seq<Step>)
    requires after >= 1
    ensures Inv(Run(after, steps), after)
  {
    if steps == [] {
    } else {
      var s, step := Run(after, steps[..|steps| - 1]), steps[|steps| - 1];
      RunKeepsInv(after, steps[..|steps| - 1]);
      match step
      case NextSequence(k, payload) => DrawKeepsInv(s, after, k, payload);
      case AppendEvent(k) => AppendKeepsInv(s, after, k);
      case Publish(k) => PublishKeepsInv(s, after, k);
      case _ =>
        if MovesEvents(step) {
          LoopKeepsInv(s, after, step);
        } else {
          PhaseKeepsInv(s, after, step);
        }
    }
  }

  /**
   * No event is lost across a resume: in every interleaving, once a connection has resumed with
   * after >= 1, every published event numbered above `after` has reached it (by replay or live)
   * unless a resync was signalled or the connection closed. With its queues drained, it was sent.
   */
  lemma NoEventLost(after: int, steps: seq<Step>, e: Event)
    requires after >= 1
    requires var s := Run(after, steps); e in s.published && e.sequence > after
    ensures var c := Run(after, steps).conn;
            c.phase == Replaying ==>
              Reached(c, e) && (c.todo == [] && c.inbox == [] && c.outgoing == [] ==> e in c.sent)
  {
    RunKeepsInv(after, steps);
  }
}
