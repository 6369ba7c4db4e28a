/**
 * Concrete runs of a resume: what makes a browser miss a chunk, and what makes up for a failed emit.
 * Every client here has counted the first chunk of an answer.
 */
module ResumedRuns {
  import opened Basics
  import opened ReplayWindow
  import opened Resume
  import opened Catchup
  import opened Resumption

  /** Payloads of length n carry chunk n - 1. */
  function ByLength(payload: string): Option<nat> { if payload == "" then None else Some(|payload| - 1) }

  ghost predicate Published(s: State, k: nat) { exists e :: e in s.published && ByLength(e.payload) == Some(k) }

  /** A run with the states it goes through. */
  datatype History = History(states: seq<State>, steps: seq<Step>)

  ghost predicate Link(after: int, h: History, k: nat)
    requires k < |h.steps| && |h.states| == |h.steps| + 1
  {
    h.states[k + 1] == Apply(h.states[k], after, h.steps[k]) && Serves(h.states[k], ByLength, h.steps[k])
  }

  ghost predicate Real(after: int, h: History)
  {
    && |h.states| == |h.steps| + 1 && h.states[0] == Run(after, [])
    && forall k :: 0 <= k < |h.steps| ==> Link(after, h, k)
  }

  function Now(h: History): State
    requires |h.states| == |h.steps| + 1
  {
    h.states[|h.steps|]
  }

  lemma Begin(after: int) returns (h: History)
    ensures Real(after, h) && Now(h) == State(0, [], map[], Conn(Offline, 0, [], [], [], []), {}, {})
  {
    h := History([Run(after, [])], []);
  }

  /** One more step. */
  lemma Then(after: int, h: History, step: Step) returns (h': History)
    requires Real(after, h) && Serves(Now(h), ByLength, step)
    ensures Real(after, h') && Now(h') == Apply(Now(h), after, step)
  {
    h' := History(h.states + [Apply(Now(h), after, step)], h.steps + [step]);
    forall k | 0 <= k < |h'.steps| ensures Link(after, h', k) {
      assert k < |h.steps| ==> Link(after, h, k);
    }
  }

  lemma {:induction false} StatesOfRun(after: int, h: History, k: nat)
    requires Real(after, h) && k <= |h.steps|
    ensures After(after, h.steps, k) == h.states[k]
  {
    if k == 0 {
      assert h.steps[..0] == [];
    } else {
      StatesOfRun(after, h, k - 1);
      AfterStep(after, h.steps, k - 1);
      assert Link(after, h, k - 1);
    }
  }

  /** It is a run in which the server keeps its order. */
  lemma RealIsRun(after: int, h: History)
    requires Real(after, h)
    ensures ServedThrough(after, ByLength, h.steps) && Run(after, h.steps) == Now(h)
  {
    forall k | 0 <= k < |h.steps| ensures Serves(After(after, h.steps, k), ByLength, h.steps[k]) {
      StatesOfRun(after, h, k);
      assert Link(after, h, k);
    }
    StatesOfRun(after, h, |h.steps|);
    assert h.steps[..|h.steps|] == h.steps;
  }

  /** The payload carries no chunk, or a later one than all before it. */
  predicate Next(s: State, payload: string)
  {
    payload != "" ==>
      forall k :: k in s.emissions ==> |s.emissions[k].event.payload| < |payload|
  }

  /** The state after an Emit call that came as far as this. */
  function Emitted(s: State, k: Id, payload: string, stage: Stage): State
  {
    var e := Event(s.counter + 1, payload);
    var appended := if stage == Drawn then s.window else AppendReplay(s.window, e);
    s.(counter := s.counter + 1, window := appended, emissions := s.emissions[k := Emission(e, stage)],
       published := if stage == Sent then s.published + {e} else s.published,
       conn := if stage == Sent && Listening(s.conn) then s.conn.(inbox := s.conn.inbox + [e]) else s.conn)
  }

  /** An Emit call, with no other step in between; it may stop half-way. */
  lemma ThenEmits(after: int, h: History, k: Id, payload: string, stage: Stage) returns (h': History)
    requires Real(after, h) && k !in Now(h).emissions && Next(Now(h), payload)
    ensures Real(after, h') && Now(h') == Emitted(Now(h), k, payload, stage)
  {
    var s := Now(h);
    var e := Event(s.counter + 1, payload);
    h' := Then(after, h, NextSequence(k, payload));
    assert Now(h').emissions == s.emissions[k := Emission(e, Drawn)];
    if stage != Drawn {
      h' := Then(after, h', AppendEvent(k));
      assert Now(h').emissions == s.emissions[k := Emission(e, InWindow)];
      if stage == Sent {
        h' := Then(after, h', Publish(k));
        assert Now(h').emissions == s.emissions[k := Emission(e, Sent)];
      }
    }
  }

  lemma ThenReads(after: int, h: History, replay: seq<Event>) returns (h': History)
    requires Real(after, h) && Now(h).conn.phase == Subscribed
    requires Replay(Now(h).counter, Now(h).window, after) == ReplayResult(replay, false)
    ensures Real(after, h')
    ensures Now(h') == Now(h).(conn := Now(h).conn.(phase := Replaying, current := Now(h).counter, todo := replay))
  {
    h' := Then(after, h, ReadCurrent);
    assert Now(h') == Now(h).(conn := Now(h).conn.(phase := ReadingWindow, current := Now(h).counter));
    h' := Then(after, h', ReadWindow);
  }

  lemma ThenSubscribes(after: int, h: History, ready: Id) returns (h': History)
    requires Real(after, h) && Now(h).conn == Conn(Offline, 0, [], [], [], []) && ready !in Now(h).emissions
    ensures Real(after, h')
    ensures var greeted := Emitted(Now(h), ready, "", Sent);
            Now(h') == greeted.(early := Now(h).published,
                         conn := Conn(Subscribed, 0, [], [Event(greeted.counter, "")], [], []))
  {
    h' := Then(after, h, Subscribe);
    assert Now(h') == Now(h).(early := Now(h).published, conn := Conn(Subscribed, 0, [], [], [], []));
    h' := ThenEmits(after, h', ready, "", Sent);
  }

  /** The client has subscribed, been greeted, and read the window. */
  lemma ThenConnects(after: int, h: History, ready: Id, replay: seq<Event>) returns (h': History)
    requires Real(after, h) && Now(h).conn == Conn(Offline, 0, [], [], [], []) && ready !in Now(h).emissions
    requires var greeted := Emitted(Now(h), ready, "", Sent);
             Replay(greeted.counter, greeted.window, after) == ReplayResult(replay, false)
    ensures Real(after, h')
    ensures var greeted := Emitted(Now(h), ready, "", Sent);
            Now(h') == greeted.(early := Now(h).published,
                         conn := Conn(Replaying, greeted.counter, replay, [Event(greeted.counter, "")], [], []))
  {
    h' := ThenSubscribes(after, h, ready);
    h' := ThenReads(after, h', replay);
  }

  // --------------------------------------------------- a live one overtakes

  const FIRST: Event := Event(1, "a")
  const SECOND: Event := Event(2, "aa")
  const GREETING: Event := Event(3, "")
  const THIRD: Event := Event(4, "aaa")

  lemma OnePublished(after: int) returns (h: History)
    ensures Real(after, h) && Now(h).conn == Conn(Offline, 0, [], [], [], []) && Now(h).counter == 1
    ensures Now(h).published == {FIRST} && Now(h).window == [FIRST]
    ensures Now(h).emissions == map[1 := Emission(FIRST, Sent)]
  {
    h := Begin(after);
    h := ThenEmits(after, h, 1, "a", Sent);
    assert AppendReplay([], FIRST) == [FIRST];
  }

  lemma TwoPublished() returns (h: History)
    ensures Real(1, h) && Now(h).conn == Conn(Offline, 0, [], [], [], []) && Now(h).counter == 2
    ensures Now(h).published == {FIRST, SECOND} && Now(h).window == [FIRST, SECOND]
    ensures Now(h).emissions == map[1 := Emission(FIRST, Sent), 2 := Emission(SECOND, Sent)]
  {
    h := OnePublished(1);
    h := ThenEmits(1, h, 2, "aa", Sent);
    assert AppendReplay([FIRST], SECOND) == [FIRST, SECOND];
  }

  /** The client has the first chunk; the second is in the window when it connects. */
  lemma SecondReplayed() returns (h: History)
    ensures Real(1, h) && Now(h).conn == Conn(Replaying, 3, [SECOND, GREETING], [GREETING], [], [])
    ensures Now(h).published == {FIRST, SECOND, GREETING} && Now(h).counter == 3
    ensures 4 !in Now(h).emissions && Next(Now(h), "aaa")
  {
    h := TwoPublished();
    assert AppendReplay([FIRST, SECOND], GREETING) == [FIRST, SECOND, GREETING];
    assert Above([FIRST, SECOND, GREETING], 1) == [SECOND, GREETING] by {
      assert [FIRST, SECOND, GREETING][1..] == [SECOND, GREETING];
    }
    h := ThenConnects(1, h, 3, [SECOND, GREETING]);
  }

  /** It has the greeting queued, and the third chunk waits live beside the replayed second. */
  lemma ThirdArrives() returns (h: History)
    ensures Real(1, h) && Now(h).published == {FIRST, SECOND, GREETING, THIRD}
    ensures Now(h).conn == Conn(Replaying, 3, [SECOND, GREETING], [THIRD], [GREETING], [])
  {
    h := SecondReplayed();
    h := ThenEmits(1, h, 4, "aaa", Sent);
    assert Now(h).conn.inbox == [GREETING, THIRD];
    h := Then(1, h, EnqueueLive);
  }

  lemma DrainOvertaken(h: History) returns (h': History)
    requires Real(1, h) && Now(h).conn == Conn(Replaying, 3, [SECOND, GREETING], [THIRD], [GREETING], [])
    ensures Real(1, h') && Now(h').published == Now(h).published
    ensures Now(h').conn == Conn(Replaying, 3, [], [], [], [GREETING, THIRD, SECOND, GREETING])
  {
    h' := Then(1, h, EnqueueLive);
    assert Now(h').conn == Conn(Replaying, 3, [SECOND, GREETING], [], [GREETING, THIRD], []);
    h' := Then(1, h', EnqueueReplay);
    assert Now(h').conn == Conn(Replaying, 3, [GREETING], [], [GREETING, THIRD, SECOND], []);
    h' := Then(1, h', EnqueueReplay);
    assert Now(h').conn == Conn(Replaying, 3, [], [], [GREETING, THIRD, SECOND, GREETING], []);
    h' := AllWritten(h');
  }

  /** The four events in the queue are written. */
  lemma AllWritten(h: History) returns (h': History)
    requires Real(1, h) && Listening(Now(h).conn) && |Now(h).conn.outgoing| == 4
    ensures Real(1, h') && Now(h') == Now(h).(conn := Now(h).conn.(outgoing := [], sent := Stream(Now(h).conn)))
  {
    var c := Now(h).conn;
    h' := Then(1, h, Write);
    h' := Then(1, h', Write);
    assert Now(h').conn == c.(outgoing := c.outgoing[2..], sent := c.sent + c.outgoing[..2]);
    h' := Then(1, h', Write);
    h' := Then(1, h', Write);
    assert Now(h').conn == c.(outgoing := [], sent := c.sent + c.outgoing);
  }

  lemma CountedThere()
    ensures Counted(ByLength, 1, [GREETING, THIRD, SECOND, GREETING]) == 2
  {
    CountedSnoc(ByLength, 1, [], GREETING);
    CountedSnoc(ByLength, 1, [GREETING], THIRD);
    CountedSnoc(ByLength, 1, [GREETING, THIRD], SECOND);
    CountedSnoc(ByLength, 1, [GREETING, THIRD, SECOND], GREETING);
    assert [] + [GREETING] == [GREETING] && [GREETING] + [THIRD] == [GREETING, THIRD];
    assert [GREETING, THIRD] + [SECOND] == [GREETING, THIRD, SECOND];
    assert [GREETING, THIRD, SECOND] + [GREETING] == [GREETING, THIRD, SECOND, GREETING];
  }

  lemma OvertakenThere(s: State)
    requires s.conn == Conn(Replaying, 3, [], [], [], [GREETING, THIRD, SECOND, GREETING])
    ensures !CaughtUp(s, ByLength, 1) && NoHole(s, ByLength, 1)
  {
    var sent := [GREETING, THIRD, SECOND, GREETING];
    assert Stream(s.conn) == sent && Stream(s.conn) + s.conn.todo + s.conn.inbox == sent;
    assert Ahead(s, ByLength, 1, THIRD) by { CountedThere(); }
    assert THIRD in s.conn.sent;
    forall e: Event, b: nat ensures !Hole(s, ByLength, 1, e, b) {
      assert SECOND in sent && ByLength(SECOND.payload) == Some(1);
      assert e in sent ==> |e.payload| <= 3;
    }
  }

  /**
   * The third chunk is queued before the replayed second one. All are sent, no resync is signalled
   * and the queues are empty, yet the browser never gets the third. Nothing is missing; a step of
   * the run overtakes.
   */
  lemma LiveOvertakesReplay() returns (steps: seq<Step>, k: nat)
    ensures ServedThrough(1, ByLength, steps) && k < |steps| && OvertakenAt(1, ByLength, 1, steps, k)
    ensures var s := Run(1, steps);
            && Drained(s.conn) && s.conn.sent == [GREETING, THIRD, SECOND, GREETING]
            && s.published == {FIRST, SECOND, GREETING, THIRD}
            && NoHole(s, ByLength, 1) && !CaughtUp(s, ByLength, 1)
  {
    var h := ThirdArrives();
    h := DrainOvertaken(h);
    RealIsRun(1, h);
    steps := h.steps;
    OvertakenThere(Now(h));
    k := SomeOvertakes(steps);
  }

  lemma SomeOvertakes(steps: seq<Step>) returns (k: nat)
    requires ServedThrough(1, ByLength, steps) && Drained(Run(1, steps).conn)
    requires NoHole(Run(1, steps), ByLength, 1) && !CaughtUp(Run(1, steps), ByLength, 1)
    ensures k < |steps| && OvertakenAt(1, ByLength, 1, steps, k)
  {
    CaughtUpIff(1, ByLength, 1, steps);
    k :| 0 <= k < |steps| && OvertakenAt(1, ByLength, 1, steps, k);
  }

  // ------------------------------------------------------ an emit that fails

  const HELLO: Event := Event(2, "")
  const LATE: Event := Event(4, "aaa")

  /** The client has the first chunk and is greeted. */
  lemma Greeted() returns (h: History)
    ensures Real(1, h) && Now(h).conn == Conn(Replaying, 2, [HELLO], [HELLO], [], []) && Now(h).counter == 2
    ensures Now(h).published == {FIRST, HELLO}
    ensures Now(h).emissions == map[1 := Emission(FIRST, Sent), 2 := Emission(HELLO, Sent)]
  {
    h := OnePublished(1);
    assert AppendReplay([FIRST], HELLO) == [FIRST, HELLO];
    assert Above([FIRST, HELLO], 1) == [HELLO] by { assert [FIRST, HELLO][1..] == [HELLO]; }
    h := ThenConnects(1, h, 2, [HELLO]);
  }

  /** The server draws a number for the second chunk, fails to append it, and emits the third. */
  lemma SecondFails(h: History) returns (h': History)
    requires Real(1, h) && Now(h).conn == Conn(Replaying, 2, [HELLO], [HELLO], [], []) && Now(h).counter == 2
    requires Now(h).emissions == map[1 := Emission(FIRST, Sent), 2 := Emission(HELLO, Sent)]
    ensures Real(1, h') && Now(h').published == Now(h).published + {LATE}
    ensures Now(h').conn == Conn(Replaying, 2, [HELLO], [HELLO, LATE], [], [])
  {
    h' := ThenEmits(1, h, 3, "aa", Drawn);
    assert Now(h').emissions == Now(h).emissions[3 := Emission(Event(3, "aa"), Drawn)];
    h' := ThenEmits(1, h', 4, "aaa", Sent);
  }

  /** Greeted by replay and live, and with a late chunk to come, the client is sent all three. */
  lemma DrainStranded(after: int, h: History, g: Event, late: Event) returns (h': History)
    requires Real(after, h) && Now(h).conn == Conn(Replaying, g.sequence, [g], [g, late], [], [])
    ensures Real(after, h') && Now(h').published == Now(h).published && Now(h').emissions == Now(h).emissions
    ensures Now(h').conn == Conn(Replaying, g.sequence, [], [], [], [g, g, late])
  {
    h' := Then(after, h, EnqueueReplay);
    h' := Then(after, h', EnqueueLive);
    assert Now(h').conn == Conn(Replaying, g.sequence, [], [late], [g, g], []);
    h' := Then(after, h', EnqueueLive);
    assert Now(h').conn == Conn(Replaying, g.sequence, [], [], [g, g, late], []);
    h' := Then(after, h', Write);
    assert Now(h').conn == Conn(Replaying, g.sequence, [], [], [g, late], [g]);
    h' := Then(after, h', Write);
    assert Now(h').conn == Conn(Replaying, g.sequence, [], [], [late], [g, g]);
    h' := Then(after, h', Write);
  }

  /**
   * The emit of the second chunk fails once it has its number, and the server goes on. The client
   * is sent all that is published and nothing overtakes, but it never gets past the first chunk.
   */
  lemma FailedEmitStrands() returns (steps: seq<Step>)
    ensures ServedThrough(1, ByLength, steps) && NoneOvertakes(1, ByLength, 1, steps)
    ensures var s := Run(1, steps);
            && Drained(s.conn) && s.conn.sent == [HELLO, HELLO, LATE] && s.published == {FIRST, HELLO, LATE}
            && Hole(s, ByLength, 1, LATE, 1) && !CaughtUp(s, ByLength, 1)
  {
    var h := Greeted();
    h := SecondFails(h);
    h := DrainStranded(1, h, HELLO, LATE);
    RealIsRun(1, h);
    steps := h.steps;
    StrandedThere(Now(h), HELLO, LATE);
    NothingToOvertake(1, ByLength, 1, steps);
  }

  lemma StrandedThere(s: State, g: Event, late: Event)
    requires s.conn == Conn(Replaying, g.sequence, [], [], [], [g, g, late]) && g.payload == "" && late.payload == "aaa"
    ensures Hole(s, ByLength, 1, late, 1) && !CaughtUp(s, ByLength, 1) && !Carried(ByLength, s.conn.sent, 1)
  {
    assert Stream(s.conn) + s.conn.todo + s.conn.inbox == [g, g, late] == s.conn.sent;
    HoleStopsBrowser(s, ByLength, 1, late, 1);
  }

  const THIRD_NUMBERED: Event := Event(3, "aaa")
  const WELCOME: Event := Event(4, "")

  /** The second chunk is in the window but was never published; the third was. */
  lemma SecondUnpublished() returns (h: History)
    ensures Real(1, h) && Now(h).published == {FIRST, THIRD_NUMBERED} && Now(h).counter == 3
    ensures Now(h).window == [FIRST, SECOND, THIRD_NUMBERED]
    ensures Now(h).conn == Conn(Offline, 0, [], [], [], []) && 4 !in Now(h).emissions
  {
    h := OnePublished(1);
    h := ThenEmits(1, h, 2, "aa", InWindow);
    assert Now(h).window == AppendReplay([FIRST], SECOND) == [FIRST, SECOND];
    assert Now(h).emissions == map[1 := Emission(FIRST, Sent), 2 := Emission(SECOND, InWindow)];
    h := ThenEmits(1, h, 3, "aaa", Sent);
    assert AppendReplay([FIRST, SECOND], THIRD_NUMBERED) == [FIRST, SECOND, THIRD_NUMBERED];
  }

  lemma BothReplayed() returns (h: History)
    ensures Real(1, h) && Now(h).published == {FIRST, THIRD_NUMBERED, WELCOME}
    ensures Now(h).conn == Conn(Replaying, 4, [SECOND, THIRD_NUMBERED, WELCOME], [WELCOME], [], [])
  {
    h := SecondUnpublished();
    var all := [FIRST, SECOND, THIRD_NUMBERED, WELCOME];
    assert AppendReplay([FIRST, SECOND, THIRD_NUMBERED], WELCOME) == all;
    assert Above(all, 1) == [SECOND, THIRD_NUMBERED, WELCOME] by {
      assert all[1..] == [SECOND, THIRD_NUMBERED, WELCOME];
    }
    h := ThenConnects(1, h, 4, [SECOND, THIRD_NUMBERED, WELCOME]);
  }

  /**
   * A failed emit need not strand the client: if the second chunk was appended but not published,
   * the replay brings it in time, and the client catches up although a published chunk has a
   * predecessor that was never published.
   */
  lemma ReplayMakesUp() returns (steps: seq<Step>)
    ensures ServedThrough(1, ByLength, steps)
    ensures var s := Run(1, steps);
            && Drained(s.conn) && s.conn.sent == [SECOND, THIRD_NUMBERED, WELCOME, WELCOME]
            && !Published(s, 1) && Published(s, 2) && CaughtUp(s, ByLength, 1)
  {
    var h := BothReplayed();
    h := DrainReplayed(h);
    RealIsRun(1, h);
    steps := h.steps;
    MadeUpThere(Now(h));
    assert ByLength(THIRD_NUMBERED.payload) == Some(2);
  }

  lemma AllCountedThere()
    ensures Counted(ByLength, 1, [SECOND, THIRD_NUMBERED, WELCOME, WELCOME]) == 3
  {
    CountedSnoc(ByLength, 1, [], SECOND);
    CountedSnoc(ByLength, 1, [SECOND], THIRD_NUMBERED);
    CountedSnoc(ByLength, 1, [SECOND, THIRD_NUMBERED], WELCOME);
    CountedSnoc(ByLength, 1, [SECOND, THIRD_NUMBERED, WELCOME], WELCOME);
    assert [] + [SECOND] == [SECOND] && [SECOND] + [THIRD_NUMBERED] == [SECOND, THIRD_NUMBERED];
    assert [SECOND, THIRD_NUMBERED] + [WELCOME] == [SECOND, THIRD_NUMBERED, WELCOME];
    assert [SECOND, THIRD_NUMBERED, WELCOME] + [WELCOME] == [SECOND, THIRD_NUMBERED, WELCOME, WELCOME];
  }

  lemma MadeUpThere(s: State)
    requires s.conn == Conn(Replaying, 4, [], [], [], [SECOND, THIRD_NUMBERED, WELCOME, WELCOME])
    ensures CaughtUp(s, ByLength, 1)
  {
    assert Stream(s.conn) == [SECOND, THIRD_NUMBERED, WELCOME, WELCOME];
    AllCountedThere();
    forall e | e in s.conn.sent ensures !Ahead(s, ByLength, 1, e) {
      assert |e.payload| <= 3;
    }
  }

  lemma DrainReplayed(h: History) returns (h': History)
    requires Real(1, h) && Now(h).conn == Conn(Replaying, 4, [SECOND, THIRD_NUMBERED, WELCOME], [WELCOME], [], [])
    ensures Real(1, h') && Now(h').published == Now(h).published
    ensures Now(h').conn == Conn(Replaying, 4, [], [], [], [SECOND, THIRD_NUMBERED, WELCOME, WELCOME])
  {
    h' := Then(1, h, EnqueueReplay);
    h' := Then(1, h', EnqueueReplay);
    assert Now(h').conn == Conn(Replaying, 4, [WELCOME], [WELCOME], [SECOND, THIRD_NUMBERED], []);
    h' := Then(1, h', EnqueueReplay);
    h' := Then(1, h', EnqueueLive);
    assert Now(h').conn == Conn(Replaying, 4, [], [], [SECOND, THIRD_NUMBERED, WELCOME, WELCOME], []);
    h' := AllWritten(h');
  }

  // ---------------------------------------------- a client that asks past a gap

  const BEAT: Event := Event(3, "")     // heartbeat.ping
  const RETURN: Event := Event(4, "")   // the greeting of the next connection
  const LAST: Event := Event(5, "aaa")

  /** The second chunk has its number when a heartbeat draws the next one and is published first. */
  lemma BeatBetween() returns (h: History)
    ensures Real(3, h) && Now(h).counter == 3 && Now(h).published == {FIRST, BEAT}
    ensures Now(h).window == [FIRST, BEAT] && Now(h).conn == Conn(Offline, 0, [], [], [], [])
    ensures Now(h).emissions ==
            map[1 := Emission(FIRST, Sent), 2 := Emission(SECOND, Drawn), 3 := Emission(BEAT, Sent)]
  {
    h := OnePublished(3);
    h := ThenEmits(3, h, 2, "aa", Drawn);
    assert Now(h).emissions == map[1 := Emission(FIRST, Sent), 2 := Emission(SECOND, Drawn)];
    h := ThenEmits(3, h, 3, "", Sent);
    assert AppendReplay([FIRST], BEAT) == [FIRST, BEAT];
  }

  /** Then the second chunk is appended and published as well; the client has seen number 3 and is gone. */
  lemma SecondFollows() returns (h: History)
    ensures Real(3, h) && Now(h).counter == 3 && Now(h).published == {FIRST, BEAT, SECOND}
    ensures Now(h).window == [FIRST, SECOND, BEAT] && Now(h).conn == Conn(Offline, 0, [], [], [], [])
    ensures Now(h).emissions ==
            map[1 := Emission(FIRST, Sent), 2 := Emission(SECOND, Sent), 3 := Emission(BEAT, Sent)]
  {
    h := BeatBetween();
    h := Then(3, h, AppendEvent(2));
    assert Now(h).emissions ==
           map[1 := Emission(FIRST, Sent), 2 := Emission(SECOND, InWindow), 3 := Emission(BEAT, Sent)];
    assert [FIRST, BEAT][..1] == [FIRST] && Insert([FIRST], SECOND) == [FIRST, SECOND];
    assert AppendReplay([FIRST, BEAT], SECOND) == [FIRST, SECOND, BEAT];
    h := Then(3, h, Publish(2));
  }

  /** It returns and asks for what is above 3. */
  lemma AskedAboveThree() returns (h: History)
    ensures Real(3, h) && Now(h).conn == Conn(Replaying, 4, [RETURN], [RETURN], [], []) && Now(h).counter == 4
    ensures Now(h).published == {FIRST, BEAT, SECOND, RETURN}
    ensures Now(h).emissions == map[1 := Emission(FIRST, Sent), 2 := Emission(SECOND, Sent),
                                    3 := Emission(BEAT, Sent), 4 := Emission(RETURN, Sent)]
  {
    h := SecondFollows();
    var all := [FIRST, SECOND, BEAT, RETURN];
    assert AppendReplay([FIRST, SECOND, BEAT], RETURN) == all;
    OnlyReturnAboveThree();
    h := ThenConnects(3, h, 4, [RETURN]);
  }

  lemma OnlyReturnAboveThree()
    ensures Above([FIRST, SECOND, BEAT, RETURN], 3) == [RETURN]
  {
    assert [FIRST, SECOND, BEAT, RETURN][1..] == [SECOND, BEAT, RETURN];
    assert [SECOND, BEAT, RETURN][1..] == [BEAT, RETURN];
    assert [BEAT, RETURN][1..] == [RETURN];
    assert Above([RETURN], 3) == [RETURN];
    assert Above([BEAT, RETURN], 3) == [RETURN];
    assert Above([SECOND, BEAT, RETURN], 3) == [RETURN];
  }

  /**
   * Every emit succeeds, nothing overtakes and no resync is signalled, and yet the client never gets
   * the second chunk: it has asked past it, because it has received a later number before.
   */
  lemma AskedPastGap() returns (steps: seq<Step>)
    ensures ServedThrough(3, ByLength, steps) && NoneOvertakes(3, ByLength, 1, steps)
    ensures var s := Run(3, steps);
            && Drained(s.conn) && s.conn.sent == [RETURN, RETURN, LAST]
            && (forall k :: k in s.emissions ==> s.emissions[k].stage == Sent) && SECOND in s.published
            && Hole(s, ByLength, 1, LAST, 1) && !CaughtUp(s, ByLength, 1)
  {
    var h := AskedAboveThree();
    h := ThenEmits(3, h, 5, "aaa", Sent);
    h := DrainStranded(3, h, RETURN, LAST);
    RealIsRun(3, h);
    steps := h.steps;
    StrandedThere(Now(h), RETURN, LAST);
    NothingToOvertake(3, ByLength, 1, steps);
  }
}
