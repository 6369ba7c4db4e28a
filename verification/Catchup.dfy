/**
 * Which chunks of one answer a resumed browser counts. The server emits them one after another,
 * and goes on when an emit fails; the connection mixes replayed and live events. A step brings the
 * browser forward, or leaves it waiting, or makes it lose a chunk for good.
 */
module Catchup {
  import opened Basics
  import opened ReplayWindow
  import opened Resume
  import R = Reducer

  /** Which chunk of the answer an event with this payload carries, if any. */
  type Chunking = string -> Option<nat>

  /** How many chunks a browser has counted that started with `start` and was sent these events. */
  function Counted(chunk: Chunking, start: nat, events: seq<Event>): nat
  {
    if events == [] then start
    else
      var before := Counted(chunk, start, events[..|events| - 1]);
      match chunk(events[|events| - 1].payload)
      case None => before
      case Some(i) => R.Advance(before, i)
  }

  // ---------------------------------------------------------------- counting

  lemma CountedSnoc(chunk: Chunking, start: nat, events: seq<Event>, e: Event)
    ensures Counted(chunk, start, events + [e]) ==
            match chunk(e.payload)
            case None => Counted(chunk, start, events)
            case Some(i) => R.Advance(Counted(chunk, start, events), i)
  {
    assert (events + [e])[..|events|] == events;
  }

  /** Another chunk does not take the count past k. */
  lemma OtherChunkWaits(chunk: Chunking, start: nat, events: seq<Event>, x: Event, k: nat)
    requires Counted(chunk, start, events) <= k && chunk(x.payload) != Some(k)
    ensures Counted(chunk, start, events + [x]) <= k
  {
    CountedSnoc(chunk, start, events, x);
  }

  lemma {:induction false} CountedFromStart(chunk: Chunking, start: nat, events: seq<Event>)
    ensures start <= Counted(chunk, start, events)
  {
    if events == [] {
    } else {
      CountedFromStart(chunk, start, events[..|events| - 1]);
    }
  }

  predicate Carried(chunk: Chunking, events: seq<Event>, k: nat)
  {
    exists e :: e in events && chunk(e.payload) == Some(k)
  }

  /** Without the next chunk the count stands still. */
  lemma {:induction false} StuckWithout(chunk: Chunking, start: nat, events: seq<Event>, k: nat)
    requires start <= k && !Carried(chunk, events, k)
    ensures Counted(chunk, start, events) <= k
  {
    if events == [] {
    } else {
      assert forall e :: e in events[..|events| - 1] ==> e in events;
      StuckWithout(chunk, start, events[..|events| - 1], k);
      assert events[|events| - 1] in events;
    }
  }

  predicate InChunkOrder(chunk: Chunking, events: seq<Event>)
  {
    forall i, j :: 0 <= i < j < |events| && chunk(events[i].payload).Some? && chunk(events[j].payload).Some? ==>
      chunk(events[i].payload).value < chunk(events[j].payload).value
  }

  /** Events that carry all the missing chunks in order are all counted. */
  lemma {:induction false} OrderedChunksCount(chunk: Chunking, start: nat, events: seq<Event>, end: nat)
    requires InChunkOrder(chunk, events)
    requires forall k :: start <= k < end ==> Carried(chunk, events, k)
    ensures Counted(chunk, start, events) >= end
  {
    if end <= start {
      CountedFromStart(chunk, start, events);
    } else {
      assert Carried(chunk, events, end - 1);
      var n := |events| - 1;
      var front, last := events[..n], chunk(events[n].payload);
      var end' := if last == Some(end - 1) then end - 1 else end;
      forall k | start <= k < end' ensures Carried(chunk, front, k) {
        LastIsHighest(chunk, events, end - 1, k);
      }
      OrderedChunksCount(chunk, start, front, end');
    }
  }

  /** In chunk order, the last event carries the highest chunk there is, or none of interest. */
  lemma LastIsHighest(chunk: Chunking, events: seq<Event>, highest: nat, k: nat)
    requires InChunkOrder(chunk, events) && Carried(chunk, events, highest) && Carried(chunk, events, k)
    requires k <= highest && chunk(events[|events| - 1].payload) == Some(highest) ==> k < highest
    requires k <= highest
    ensures Carried(chunk, events[..|events| - 1], k)
  {
    var n := |events| - 1;
    var i :| 0 <= i <= n && chunk(events[i].payload) == Some(highest);
    var j :| 0 <= j <= n && chunk(events[j].payload) == Some(k);
    assert j < n;
    assert events[..n][j] == events[j];
  }

  // ------------------------------------------------------------- the server

  predicate Carries(chunk: Chunking, emissions: map<Id, Emission>, emit: Id, i: nat)
  {
    emit in emissions && chunk(emissions[emit].event.payload) == Some(i)
  }

  /** No emission carries a chunk above i. */
  ghost predicate NoneAbove(chunk: Chunking, emissions: map<Id, Emission>, i: nat)
  {
    forall k: Id, a: nat :: Carries(chunk, emissions, k, a) ==> a <= i
  }

  /**
   * The server emits the chunks of the answer one after another: once it has drawn a number for a
   * chunk it is done with the emits of the earlier ones, whether they succeeded, failed half-way or
   * drew no number at all.
   */
  ghost predicate Serves(s: State, chunk: Chunking, step: Step)
  {
    match step
    case NextSequence(k, payload) =>
      k !in s.emissions && chunk(payload).Some? ==>
        forall j: Id, a: nat :: Carries(chunk, s.emissions, j, a) ==> a < chunk(payload).value
    case AppendEvent(k) => forall i: nat :: Carries(chunk, s.emissions, k, i) ==> NoneAbove(chunk, s.emissions, i)
    case Publish(k) => forall i: nat :: Carries(chunk, s.emissions, k, i) ==> NoneAbove(chunk, s.emissions, i)
    case _ => true
  }

  /** No two emissions carry the same chunk. */
  ghost predicate OneEach(s: State, chunk: Chunking)
  {
    forall j: Id, k: Id, i: nat :: Carries(chunk, s.emissions, j, i) && Carries(chunk, s.emissions, k, i) ==> j == k
  }

  /** Earlier chunks have lower numbers. */
  ghost predicate InOrder(s: State, chunk: Chunking)
  {
    forall j: Id, k: Id, a: nat, b: nat ::
      (Carries(chunk, s.emissions, j, a) && Carries(chunk, s.emissions, k, b) && a < b) ==>
        s.emissions[j].event.sequence < s.emissions[k].event.sequence
  }

  ghost predicate Chunks(s: State, chunk: Chunking) { OneEach(s, chunk) && InOrder(s, chunk) }

  lemma StepKeepsChunks(s: State, after: int, chunk: Chunking, step: Step)
    requires EmissionsOk(s) && Chunks(s, chunk) && Serves(s, chunk, step)
    ensures Chunks(Apply(s, after, step), chunk)
  {
    var s' := Apply(s, after, step);
    forall k: Id, i: nat | Carries(chunk, s'.emissions, k, i)
      ensures k in s.emissions ==> Carries(chunk, s.emissions, k, i) && s'.emissions[k].event == s.emissions[k].event
      ensures k !in s.emissions ==> step.NextSequence? && k == step.emit && chunk(step.payload) == Some(i)
    {
    }
  }

  // -------------------------------------------------------------- the queues

  ghost predicate Emitted(s: State, e: Event)
  {
    exists k :: k in s.emissions && s.emissions[k].event == e
  }

  /** Everything the connection has queued for the browser so far. */
  function Stream(c: Conn): seq<Event> { c.sent + c.outgoing }

  /** Whether the event waits to be queued, as a replayed or as a live one. */
  predicate Waits(c: Conn, e: Event) { e in c.todo || e in c.inbox }

  /** The chunk is with the connection: queued for the browser, or waiting for it. */
  predicate Arrived(c: Conn, chunk: Chunking, b: nat) { Carried(chunk, Stream(c) + c.todo + c.inbox, b) }

  predicate Starting(c: Conn) { c.phase in {Offline, Subscribed, ReadingWindow} }

  /** An emission is finished exactly when its event is published. */
  ghost predicate SentIffPublished(s: State)
  {
    forall k :: k in s.emissions ==> (s.emissions[k].stage == Sent <==> s.emissions[k].event in s.published)
  }

  /** Every event about has been emitted; live ones, and so all before the replay, are published. */
  ghost predicate Known(s: State)
  {
    && SentIffPublished(s)
    && (forall e :: e in s.published || e in s.conn.todo || e in Stream(s.conn) ==> Emitted(s, e))
    && (forall e :: e in s.conn.inbox ==> e in s.published)
    && (Starting(s.conn) ==> s.conn.todo == [] && forall e :: e in Stream(s.conn) ==> e in s.published)
  }

  /** Each queue holds chunks in order, and before the replay so does everything that came live. */
  predicate Ordered(s: State, chunk: Chunking)
  {
    && InChunkOrder(chunk, s.conn.todo) && InChunkOrder(chunk, s.conn.inbox)
    && (Starting(s.conn) ==> InChunkOrder(chunk, Stream(s.conn) + s.conn.inbox))
  }

  ghost predicate StepOk(s: State, after: int, chunk: Chunking)
  {
    Inv(s, after) && Chunks(s, chunk) && Known(s) && Ordered(s, chunk)
  }

  /** The event that the step queues for the browser, if it queues one. */
  function Queued(s: State, step: Step): Option<Event>
  {
    if |s.conn.outgoing| >= QUEUE_SIZE then None
    else if step.EnqueueReplay? && s.conn.phase == Replaying && s.conn.todo != [] then Some(s.conn.todo[0])
    else if step.EnqueueLive? && Listening(s.conn) && s.conn.inbox != [] then Some(s.conn.inbox[0])
    else None
  }

  /** Writing changes nothing. */
  lemma WriteStream(s: State, after: int)
    ensures Stream(Apply(s, after, Write).conn) == Stream(s.conn)
  {
    var c := s.conn;
    if Listening(c) && c.outgoing != [] {
      assert c.outgoing == [c.outgoing[0]] + c.outgoing[1..];
    }
  }

  /** The stream a step leaves behind. */
  lemma StreamGrows(s: State, after: int, step: Step)
    ensures Stream(Apply(s, after, step).conn) ==
            if Queued(s, step).Some? then Stream(s.conn) + [Queued(s, step).value] else Stream(s.conn)
  {
    WriteStream(s, after);
    var c, c' := s.conn, Apply(s, after, step).conn;
    if Queued(s, step).Some? {
      assert c'.sent == c.sent && c'.outgoing == c.outgoing + [Queued(s, step).value];
    }
  }

  lemma EmittedStays(s: State, after: int, step: Step, e: Event)
    requires Emitted(s, e)
    ensures Emitted(Apply(s, after, step), e)
  {
    var s' := Apply(s, after, step);
    var k :| k in s.emissions && s.emissions[k].event == e;
    assert k in s'.emissions && s'.emissions[k].event == e;
  }

  lemma StepKeepsSentIffPublished(s: State, after: int, step: Step)
    requires EmissionsOk(s) && SentIffPublished(s) && forall e :: e in s.published ==> Emitted(s, e)
    ensures SentIffPublished(Apply(s, after, step))
  {
    match step
    case NextSequence(k, payload) =>
      forall e | e in s.published ensures e.sequence <= s.counter {
        assert Emitted(s, e);
      }
    case _ =>
  }

  /** What the window holds above `after` is what the replay returns. */
  lemma ReplayIsAbove(s: State, after: int)
    requires WindowOk(s)
    ensures ReplayAfter(s.window, after) == Above(s.window, after)
    ensures forall e :: e in ReplayAfter(s.window, after) <==> e in s.window && e.sequence > after
  {
    AboveIsFilter(s.window, after);
  }

  /** A step brings an event to the queues from another queue, from the window or by publishing it. */
  lemma StepMoves(s: State, after: int, step: Step, e: Event)
    requires WindowOk(s)
    requires var s' := Apply(s, after, step); e in s'.published || e in Stream(s'.conn) || Waits(s'.conn, e)
    ensures || e in s.published || e in Stream(s.conn) || Waits(s.conn, e)
            || (step.Publish? && step.emit in s.emissions && s.emissions[step.emit].event == e)
            || (step.ReadWindow? && e in s.window)
  {
    ReplayIsAbove(s, after);
  }

  lemma SeenIsEmitted(s: State, after: int, step: Step, e: Event)
    requires WindowOk(s) && Known(s)
    requires var s' := Apply(s, after, step); e in s'.published || e in s'.conn.todo || e in Stream(s'.conn)
    ensures Emitted(Apply(s, after, step), e)
  {
    StepMoves(s, after, step, e);
    assert e in s.window ==> Appended(s.emissions, e);
    assert Emitted(s, e);
    EmittedStays(s, after, step, e);
  }

  lemma InboxIsPublished(s: State, after: int, step: Step)
    requires Known(s)
    ensures var s' := Apply(s, after, step);
            && (forall e :: e in s'.conn.inbox ==> e in s'.published)
            && (Starting(s'.conn) ==> s'.conn.todo == [] && forall e :: e in Stream(s'.conn) ==> e in s'.published)
  {
    StreamGrows(s, after, step);
  }

  lemma StepKeepsKnown(s: State, after: int, step: Step)
    requires EmissionsOk(s) && WindowOk(s) && Known(s)
    ensures Known(Apply(s, after, step))
  {
    var s' := Apply(s, after, step);
    assert SentIffPublished(s') by { StepKeepsSentIffPublished(s, after, step); }
    forall e | e in s'.published || e in s'.conn.todo || e in Stream(s'.conn) ensures Emitted(s', e) {
      SeenIsEmitted(s, after, step, e);
    }
    InboxIsPublished(s, after, step);
  }

  /** A chunk that is only now published is none of the earlier ones. */
  lemma PublishedIsLatest(s: State, chunk: Chunking, k: Id, e: Event)
    requires Serves(s, chunk, Publish(k)) && k in s.emissions && Emitted(s, e)
    requires chunk(s.emissions[k].event.payload).Some? && chunk(e.payload).Some?
    ensures chunk(e.payload).value <= chunk(s.emissions[k].event.payload).value
  {
    var j :| j in s.emissions && s.emissions[j].event == e;
    assert Carries(chunk, s.emissions, j, chunk(e.payload).value);
    assert Carries(chunk, s.emissions, k, chunk(s.emissions[k].event.payload).value);
  }

  /** Two emitted events with the same chunk are the same event. */
  lemma SameChunkSameEvent(s: State, chunk: Chunking, d: Event, e: Event, i: nat)
    requires OneEach(s, chunk) && Emitted(s, d) && Emitted(s, e)
    requires chunk(d.payload) == Some(i) == chunk(e.payload)
    ensures d == e
  {
    var j :| j in s.emissions && s.emissions[j].event == d;
    var k :| k in s.emissions && s.emissions[k].event == e;
    assert Carries(chunk, s.emissions, j, i) && Carries(chunk, s.emissions, k, i);
  }

  /** The replay is sorted by number, hence by chunk. */
  lemma ReplayInChunkOrder(s: State, after: int, chunk: Chunking)
    requires WindowOk(s) && OneEach(s, chunk) && InOrder(s, chunk)
    ensures InChunkOrder(chunk, ReplayAfter(s.window, after))
  {
    var w := ReplayAfter(s.window, after);
    ReplayIsAbove(s, after);
    AboveIsFilter(s.window, after);
    forall i, j | 0 <= i < j < |w| && chunk(w[i].payload).Some? && chunk(w[j].payload).Some?
      ensures chunk(w[i].payload).value < chunk(w[j].payload).value
    {
      assert w[i] in s.window && w[j] in s.window;
      assert Appended(s.emissions, w[i]) && Appended(s.emissions, w[j]);
      var k, l :| k in s.emissions && l in s.emissions && s.emissions[k].event == w[i] && s.emissions[l].event == w[j];
      assert Carries(chunk, s.emissions, k, chunk(w[i].payload).value);
      assert Carries(chunk, s.emissions, l, chunk(w[j].payload).value);
    }
  }

  /** What is published comes after all the chunks already known, so it joins the line in order. */
  lemma PublishedComesLast(s: State, chunk: Chunking, k: Id, events: seq<Event>)
    requires Known(s) && OneEach(s, chunk) && Serves(s, chunk, Publish(k))
    requires k in s.emissions && s.emissions[k].stage == InWindow
    requires InChunkOrder(chunk, events) && forall e :: e in events ==> e in s.published
    ensures InChunkOrder(chunk, events + [s.emissions[k].event])
  {
    var d := s.emissions[k].event;
    forall i | 0 <= i < |events| && chunk(events[i].payload).Some? && chunk(d.payload).Some?
      ensures chunk(events[i].payload).value < chunk(d.payload).value
    {
      assert events[i] in s.published && d !in s.published && Emitted(s, d);
      PublishedIsLatest(s, chunk, k, events[i]);
      if chunk(events[i].payload) == chunk(d.payload) {
        SameChunkSameEvent(s, chunk, events[i], d, chunk(d.payload).value);
      }
    }
  }

  lemma PublishKeepsOrdered(s: State, after: int, chunk: Chunking, k: Id)
    requires StepOk(s, after, chunk) && Serves(s, chunk, Publish(k))
    ensures Ordered(Apply(s, after, Publish(k)), chunk)
  {
    var c, c' := s.conn, Apply(s, after, Publish(k)).conn;
    if k in s.emissions && s.emissions[k].stage == InWindow && Listening(c) {
      PublishedComesLast(s, chunk, k, c.inbox);
      if Starting(c) {
        PublishedComesLast(s, chunk, k, Stream(c) + c.inbox);
        assert Stream(c') + c'.inbox == Stream(c) + c.inbox + [s.emissions[k].event];
      }
    }
  }

  lemma EnqueueLiveKeepsOrdered(s: State, after: int, chunk: Chunking)
    requires Ordered(s, chunk)
    ensures Ordered(Apply(s, after, EnqueueLive), chunk)
  {
    var c, c' := s.conn, Apply(s, after, EnqueueLive).conn;
    if Queued(s, EnqueueLive).Some? {
      assert c.inbox == [c.inbox[0]] + c.inbox[1..];
      assert c'.sent == c.sent && c'.outgoing == c.outgoing + [c.inbox[0]];
      assert Stream(c') + c'.inbox == Stream(c) + c.inbox;
    }
  }

  lemma StepKeepsOrdered(s: State, after: int, chunk: Chunking, step: Step)
    requires StepOk(s, after, chunk) && Serves(s, chunk, step)
    ensures Ordered(Apply(s, after, step), chunk)
  {
    match step
    case Publish(k) => PublishKeepsOrdered(s, after, chunk, k);
    case ReadWindow => ReplayInChunkOrder(s, after, chunk);
    case EnqueueLive => EnqueueLiveKeepsOrdered(s, after, chunk);
    case Write => WriteStream(s, after);
    case _ =>
  }

  lemma StepKeepsOk(s: State, after: int, chunk: Chunking, step: Step)
    requires StepOk(s, after, chunk) && Serves(s, chunk, step)
    requires Inv(Apply(s, after, step), after)
    ensures StepOk(Apply(s, after, step), after, chunk)
  {
    StepKeepsChunks(s, after, chunk, step);
    StepKeepsKnown(s, after, step);
    StepKeepsOrdered(s, after, chunk, step);
  }

  lemma StepPublishes(s: State, after: int, step: Step)
    ensures s.published <= Apply(s, after, step).published
  {
  }

  // -------------------------------------------- overtaking, losses and holes

  /** The event will be queued again: it waits, or it is yet to be published. */
  predicate Returns(s: State, final: set<Event>, e: Event)
  {
    Waits(s.conn, e) || (e !in s.published && e in final)
  }

  /** The browser is behind the chunk that the event carries, or has just come up to it. */
  predicate Ahead(s: State, chunk: Chunking, start: nat, e: Event)
  {
    var i := chunk(e.payload);
    i.Some? && i.value >= start && Counted(chunk, start, Stream(s.conn)) <= i.value
  }

  /**
   * A chunk is queued for the last time while the browser still needs an earlier one, and that one
   * waits in a queue. `final` is what has been published at the end.
   */
  predicate Overtakes(s: State, after: int, chunk: Chunking, start: nat, step: Step, final: set<Event>)
  {
    var s' := Apply(s, after, step);
    && s.conn.phase == Replaying && Queued(s, step).Some?
    && Ahead(s', chunk, start, Queued(s, step).value) && !Returns(s', final, Queued(s, step).value)
    && Carried(chunk, s'.conn.todo + s'.conn.inbox, Counted(chunk, start, Stream(s.conn)))
  }

  /** The event was queued too early, and it will not be queued again. */
  predicate Lost(s: State, chunk: Chunking, start: nat, final: set<Event>, e: Event)
  {
    e in Stream(s.conn) && Ahead(s, chunk, start, e) && !Returns(s, final, e)
  }

  /** A chunk has been queued, and an earlier one is nowhere to be seen. */
  predicate Hole(s: State, chunk: Chunking, start: nat, e: Event, b: nat)
  {
    && e in Stream(s.conn) && chunk(e.payload).Some? && start <= b < chunk(e.payload).value
    && !Arrived(s.conn, chunk, b)
  }

  /** Everything queued so far has been counted or will return. */
  predicate OnTrack(s: State, chunk: Chunking, start: nat, final: set<Event>)
  {
    forall e :: e in Stream(s.conn) && Ahead(s, chunk, start, e) ==> Returns(s, final, e)
  }

  lemma OvertakingLoses(s: State, after: int, chunk: Chunking, start: nat, step: Step, final: set<Event>)
    requires Overtakes(s, after, chunk, start, step, final)
    ensures Lost(Apply(s, after, step), chunk, start, final, Queued(s, step).value)
    ensures !Starting(Apply(s, after, step).conn)
  {
    StreamGrows(s, after, step);
  }

  /** What is queued next is not the chunk that was lost. */
  lemma LostIsNotQueued(s: State, chunk: Chunking, start: nat, step: Step, final: set<Event>, e: Event)
    requires OneEach(s, chunk) && Known(s) && Lost(s, chunk, start, final, e) && Queued(s, step).Some?
    ensures chunk(Queued(s, step).value.payload) != chunk(e.payload)
  {
    var x := Queued(s, step).value;
    assert Waits(s.conn, x) && Emitted(s, x) && Emitted(s, e);
    if chunk(x.payload) == chunk(e.payload) {
      SameChunkSameEvent(s, chunk, x, e, chunk(e.payload).value);
    }
  }

  lemma LostDoesNotReturn(s: State, after: int, chunk: Chunking, start: nat, step: Step, final: set<Event>, e: Event)
    requires SentIffPublished(s) && !Returns(s, final, e) && !Starting(s.conn)
    requires Apply(s, after, step).published <= final
    ensures !Returns(Apply(s, after, step), final, e) && !Starting(Apply(s, after, step).conn)
  {
  }

  /** What is lost stays lost. */
  lemma StepKeepsLost(s: State, after: int, chunk: Chunking, start: nat, step: Step, final: set<Event>, e: Event)
    requires StepOk(s, after, chunk) && Lost(s, chunk, start, final, e)
    requires !Starting(s.conn) && Apply(s, after, step).published <= final
    ensures Lost(Apply(s, after, step), chunk, start, final, e) && !Starting(Apply(s, after, step).conn)
  {
    assert !Returns(Apply(s, after, step), final, e) by { LostDoesNotReturn(s, after, chunk, start, step, final, e); }
    StreamGrows(s, after, step);
    if Queued(s, step).Some? {
      LostIsNotQueued(s, chunk, start, step, final, e);
      OtherChunkWaits(chunk, start, Stream(s.conn), Queued(s, step).value, chunk(e.payload).value);
    }
  }

  /** A later chunk is out: the event of an earlier one that is not published will never be. */
  ghost predicate Behind(s: State, chunk: Chunking, d: Event, e: Event)
  {
    && Emitted(s, d) && d !in s.published && Emitted(s, e)
    && chunk(d.payload).Some? && chunk(e.payload).Some? && chunk(d.payload).value < chunk(e.payload).value
  }

  ghost predicate NoneLate(s: State, chunk: Chunking, final: set<Event>)
  {
    forall d, e :: Behind(s, chunk, d, e) ==> d !in final
  }

  lemma StepKeepsBehind(s: State, after: int, chunk: Chunking, step: Step, d: Event, e: Event)
    requires Behind(s, chunk, d, e) && Serves(s, chunk, step)
    ensures Behind(Apply(s, after, step), chunk, d, e)
  {
    EmittedStays(s, after, step, d);
    EmittedStays(s, after, step, e);
    if step.Publish? && step.emit in s.emissions && s.emissions[step.emit].event == d {
      PublishedIsLatest(s, chunk, step.emit, e);
    }
  }

  /** A hole is never filled once the window has been read. */
  lemma StepKeepsHole(s: State, after: int, chunk: Chunking, start: nat, step: Step, e: Event, b: nat)
    requires StepOk(s, after, chunk) && Serves(s, chunk, step)
    requires !Starting(s.conn) && Hole(s, chunk, start, e, b)
    ensures Hole(Apply(s, after, step), chunk, start, e, b) && !Starting(Apply(s, after, step).conn)
  {
    var c, c' := s.conn, Apply(s, after, step).conn;
    StreamGrows(s, after, step);
    assert Emitted(s, e);
    forall d | d in Stream(c') + c'.todo + c'.inbox ensures chunk(d.payload) != Some(b) {
      if d !in Stream(c) + c.todo + c.inbox {
        assert step.Publish? && step.emit in s.emissions && s.emissions[step.emit].event == d;
        if chunk(d.payload).Some? {
          PublishedIsLatest(s, chunk, step.emit, e);
        }
      }
    }
  }

  /** What has arrived for the browser stays with it. */
  lemma StepKeepsArrived(s: State, after: int, chunk: Chunking, step: Step, b: nat)
    requires Known(s) && Arrived(s.conn, chunk, b)
    ensures Arrived(Apply(s, after, step).conn, chunk, b)
  {
    var c, c' := s.conn, Apply(s, after, step).conn;
    var d :| d in Stream(c) + c.todo + c.inbox && chunk(d.payload) == Some(b);
    StreamGrows(s, after, step);
    assert d in Stream(c') + c'.todo + c'.inbox;
  }

  /** Whatever overtakes, the first chunk the browser needed is with the connection by then. */
  lemma FirstHasArrived(s: State, after: int, chunk: Chunking, start: nat, step: Step, final: set<Event>)
    requires Known(s) && Overtakes(s, after, chunk, start, step, final)
    ensures Arrived(Apply(s, after, step).conn, chunk, start)
  {
    var c, c' := s.conn, Apply(s, after, step).conn;
    if Carried(chunk, Stream(c), start) {
      assert Arrived(c, chunk, start) by {
        var d :| d in Stream(c) && chunk(d.payload) == Some(start);
        assert d in Stream(c) + c.todo + c.inbox;
      }
      StepKeepsArrived(s, after, chunk, step, start);
    } else {
      StuckWithout(chunk, start, Stream(c), start);
      CountedFromStart(chunk, start, Stream(c));
      var d :| d in c'.todo + c'.inbox && chunk(d.payload) == Some(start);
      assert d in Stream(c') + c'.todo + c'.inbox;
    }
  }

  // ---------------------------------------------------------------- on track

  /** A chunk that has been queued is not the one the browser needs, if that one is not waiting. */
  lemma QueuedIsNotNeeded(s: State, after: int, chunk: Chunking, start: nat, step: Step, final: set<Event>, d: Event)
    requires Known(s) && OnTrack(s, chunk, start, final) && Queued(s, step).Some?
    requires var s', b := Apply(s, after, step), Counted(chunk, start, Stream(s.conn));
             && !Carried(chunk, s'.conn.todo + s'.conn.inbox, b)
             && chunk(Queued(s, step).value.payload).Some? && b < chunk(Queued(s, step).value.payload).value
    requires NoneLate(s, chunk, final)
    requires d in Stream(s.conn)
    ensures chunk(d.payload) != Some(Counted(chunk, start, Stream(s.conn)))
  {
    var s', x := Apply(s, after, step), Queued(s, step).value;
    if d != x {
      CountedFromStart(chunk, start, Stream(s.conn));
      assert Emitted(s, d) && Emitted(s, x);
      assert Waits(s.conn, d) ==> d in s'.conn.todo + s'.conn.inbox;
      assert !Behind(s, chunk, d, x) || d !in final;
    }
  }

  /** If the chunk the browser needs is not waiting, it is nowhere. */
  lemma NeededIsUnseen(s: State, after: int, chunk: Chunking, start: nat, step: Step, final: set<Event>)
    requires Known(s) && OnTrack(s, chunk, start, final) && Queued(s, step).Some?
    requires var s', b := Apply(s, after, step), Counted(chunk, start, Stream(s.conn));
             && !Carried(chunk, s'.conn.todo + s'.conn.inbox, b)
             && chunk(Queued(s, step).value.payload).Some? && b < chunk(Queued(s, step).value.payload).value
    requires NoneLate(s, chunk, final)
    ensures var c := Apply(s, after, step).conn;
            !Carried(chunk, Stream(c) + c.todo + c.inbox, Counted(chunk, start, Stream(s.conn)))
  {
    var c, x, b := Apply(s, after, step).conn, Queued(s, step).value, Counted(chunk, start, Stream(s.conn));
    StreamGrows(s, after, step);
    forall d | d in Stream(s.conn) ensures chunk(d.payload) != Some(b) {
      QueuedIsNotNeeded(s, after, chunk, start, step, final, d);
    }
    assert forall d :: d in Stream(c) + c.todo + c.inbox <==> d in Stream(s.conn) || d == x || d in c.todo + c.inbox;
  }

  lemma AheadNeedsLess(s: State, after: int, chunk: Chunking, start: nat, step: Step)
    requires Queued(s, step).Some? && Ahead(Apply(s, after, step), chunk, start, Queued(s, step).value)
    ensures start <= Counted(chunk, start, Stream(s.conn)) < chunk(Queued(s, step).value.payload).value
    ensures Queued(s, step).value in Stream(Apply(s, after, step).conn)
  {
    StreamGrows(s, after, step);
    CountedFromStart(chunk, start, Stream(s.conn));
    CountedSnoc(chunk, start, Stream(s.conn), Queued(s, step).value);
  }

  /**
   * Where the browser has come to: the queued event is counted or returns, or it overtakes what the
   * browser needs first, or that is nowhere to be seen.
   */
  lemma QueuedKeepsOnTrack(s: State, after: int, chunk: Chunking, start: nat, step: Step, final: set<Event>)
    returns (b: nat)
    requires Known(s) && OnTrack(s, chunk, start, final)
    requires s.conn.phase == Replaying && Queued(s, step).Some?
    requires !Overtakes(s, after, chunk, start, step, final)
    requires NoneLate(s, chunk, final)
    ensures var x, s' := Queued(s, step).value, Apply(s, after, step);
            Ahead(s', chunk, start, x) ==> Returns(s', final, x) || Hole(s', chunk, start, x, b)
  {
    var x, s' := Queued(s, step).value, Apply(s, after, step);
    b := Counted(chunk, start, Stream(s.conn));
    if Ahead(s', chunk, start, x) && !Returns(s', final, x) {
      AheadNeedsLess(s, after, chunk, start, step);
      NeededIsUnseen(s, after, chunk, start, step, final);
    }
  }

  lemma StillReturns(s: State, after: int, chunk: Chunking, start: nat, step: Step, final: set<Event>, d: Event)
    requires OnTrack(s, chunk, start, final) && s.conn.phase == Replaying
    requires d in Stream(s.conn) && Queued(s, step) != Some(d) && Ahead(Apply(s, after, step), chunk, start, d)
    ensures Returns(Apply(s, after, step), final, d)
  {
    StreamGrows(s, after, step);
    if Queued(s, step).Some? {
      CountedSnoc(chunk, start, Stream(s.conn), Queued(s, step).value);
    }
    assert Ahead(s, chunk, start, d) && Returns(s, final, d);
  }

  lemma StepKeepsOnTrack(s: State, after: int, chunk: Chunking, start: nat, step: Step, final: set<Event>)
    returns (e: Event, b: nat)
    requires StepOk(s, after, chunk) && OnTrack(s, chunk, start, final)
    requires s.conn.phase == Replaying && Apply(s, after, step).conn.phase == Replaying
    requires !Overtakes(s, after, chunk, start, step, final)
    requires NoneLate(s, chunk, final)
    ensures OnTrack(Apply(s, after, step), chunk, start, final) || Hole(Apply(s, after, step), chunk, start, e, b)
  {
    var s' := Apply(s, after, step);
    StreamGrows(s, after, step);
    e, b := Event(0, ""), 0;
    if Queued(s, step).Some? {
      e := Queued(s, step).value;
      b := QueuedKeepsOnTrack(s, after, chunk, start, step, final);
    }
    if !Hole(s', chunk, start, e, b) {
      forall d | d in Stream(s'.conn) && Ahead(s', chunk, start, d) ensures Returns(s', final, d) {
        if Queued(s, step) != Some(d) {
          StillReturns(s, after, chunk, start, step, final, d);
        }
      }
    }
  }

  /** Every appended event the client misses is in the replay, unless a resync is called for. */
  lemma ReplayHas(s: State, after: int, e: Event)
    requires Inv(s, after) && after >= 1 && s.conn.current > after && e in s.published && e.sequence > after
    requires !Replay(s.conn.current, s.window, after).resyncRequired
    ensures e in ReplayAfter(s.window, after)
  {
    assert Appended(s.emissions, e);
    ReadFindsOrResyncs(s, after, e);
  }

  lemma LaterIsHigher(chunk: Chunking, before: seq<Event>, behind: seq<Event>, e: Event, d: Event)
    requires InChunkOrder(chunk, before + behind) && e in before && d in behind
    requires chunk(e.payload).Some? && chunk(d.payload).Some?
    ensures chunk(e.payload).value < chunk(d.payload).value
  {
    var i :| 0 <= i < |before| && before[i] == e;
    var j :| 0 <= j < |behind| && behind[j] == d;
    assert (before + behind)[i] == e && (before + behind)[|before| + j] == d;
  }

  /** An earlier chunk in the window has a lower number. */
  lemma EarlierIsLower(s: State, chunk: Chunking, d: Event, e: Event)
    requires WindowOk(s) && InOrder(s, chunk) && d in s.window && Emitted(s, e)
    requires chunk(d.payload).Some? && chunk(e.payload).Some? && chunk(d.payload).value < chunk(e.payload).value
    ensures d.sequence < e.sequence
  {
    assert Appended(s.emissions, d);
    var j, k :| j in s.emissions && s.emissions[j].event == d && k in s.emissions && s.emissions[k].event == e;
    assert Carries(chunk, s.emissions, j, chunk(d.payload).value);
    assert Carries(chunk, s.emissions, k, chunk(e.payload).value);
  }

  /**
   * What the replay leaves out, because it is not asked for or because later events have pushed it
   * out of the window, it leaves out with all the chunks before it.
   */
  lemma EarlierIsLeftOut(s: State, after: int, chunk: Chunking, d: Event, e: Event)
    requires WindowOk(s) && InOrder(s, chunk) && Appended(s.emissions, e) && e !in ReplayAfter(s.window, after)
    requires chunk(d.payload).Some? && chunk(e.payload).Some? && chunk(d.payload).value < chunk(e.payload).value
    ensures d !in ReplayAfter(s.window, after)
  {
    ReplayIsAbove(s, after);
    assert Emitted(s, e) && Kept(s.window, e);
    if d in s.window {
      EarlierIsLower(s, chunk, d, e);
    }
  }

  /** Some chunk before an uncounted live one is missing from all that came live, and so from the replay. */
  lemma MissingBelow(s: State, after: int, chunk: Chunking, start: nat, e: Event) returns (b: nat)
    requires StepOk(s, after, chunk) && s.conn.phase == ReadingWindow
    requires Apply(s, after, ReadWindow).conn.phase == Replaying
    requires e in Stream(s.conn) && Ahead(s, chunk, start, e) && e !in ReplayAfter(s.window, after)
    requires Appended(s.emissions, e)
    ensures Hole(Apply(s, after, ReadWindow), chunk, start, e, b)
  {
    var c, c' := s.conn, Apply(s, after, ReadWindow).conn;
    var k := chunk(e.payload).value;
    var line := Stream(c) + c.inbox;
    assert InChunkOrder(chunk, Stream(c)) by {
      assert forall i :: 0 <= i < |Stream(c)| ==> line[i] == Stream(c)[i];
    }
    if forall a :: start <= a < k + 1 ==> Carried(chunk, Stream(c), a) {
      OrderedChunksCount(chunk, start, Stream(c), k + 1);
    }
    b :| start <= b < k + 1 && !Carried(chunk, Stream(c), b);
    assert b < k;
    forall d | d in Stream(c') + c'.todo + c'.inbox ensures chunk(d.payload) != Some(b) {
      if chunk(d.payload) == Some(b) {
        assert d !in Stream(c);
        if d in c.inbox {
          LaterIsHigher(chunk, Stream(c), c.inbox, e, d);
        } else {
          EarlierIsLeftOut(s, after, chunk, d, e);
        }
      }
    }
  }

  /**
   * What came live before the window was read, and too early, is in the replay as well; or an
   * earlier chunk neither came live nor is in the replay.
   */
  lemma LiveIsReplayed(s: State, after: int, chunk: Chunking, start: nat, e: Event) returns (b: nat)
    requires StepOk(s, after, chunk) && after >= 1 && s.conn.phase == ReadingWindow
    requires Apply(s, after, ReadWindow).conn.phase == Replaying
    requires e in Stream(s.conn) && Ahead(s, chunk, start, e)
    ensures e in Apply(s, after, ReadWindow).conn.todo || Hole(Apply(s, after, ReadWindow), chunk, start, e, b)
  {
    b := start;
    assert Appended(s.emissions, e);
    if s.conn.current > after && e.sequence > after {
      ReplayHas(s, after, e);
    } else if e !in ReplayAfter(s.window, after) {
      b := MissingBelow(s, after, chunk, start, e);
    }
  }

  /** Reading the window puts the browser on track, or shows that it will never get a chunk. */
  lemma ReadWindowOnTrack(s: State, after: int, chunk: Chunking, start: nat, final: set<Event>)
    returns (e: Event, b: nat)
    requires StepOk(s, after, chunk) && after >= 1 && s.conn.phase == ReadingWindow
    requires Apply(s, after, ReadWindow).conn.phase == Replaying
    ensures OnTrack(Apply(s, after, ReadWindow), chunk, start, final)
            || Hole(Apply(s, after, ReadWindow), chunk, start, e, b)
  {
    var s' := Apply(s, after, ReadWindow);
    e, b := Event(0, ""), 0;
    if !OnTrack(s', chunk, start, final) {
      e :| e in Stream(s'.conn) && Ahead(s', chunk, start, e) && !Returns(s', final, e);
      b := LiveIsReplayed(s, after, chunk, start, e);
    }
  }
}
