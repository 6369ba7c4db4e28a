/** The numbered event log of one actor and its bounded replay window in Redis. */
module ReplayWindow {
  import opened Basics

  const REPLAY_LIMIT: nat := 256

  datatype Event = Event(sequence: int, payload: string)

  /** A sorted set ordered by score: the event's sequence number. */
  predicate Sorted(w: seq<Event>)
  {
    forall i, j :: 0 <= i < j < |w| ==> w[i].sequence < w[j].sequence
  }

  /** ZADD */
  function Insert(w: seq<Event>, e: Event): seq<Event>
  {
    if w == [] || w[|w| - 1].sequence < e.sequence then w + [e]
    else Insert(w[..|w| - 1], e) + [w[|w| - 1]]
  }

  /** ZADD, then ZREMRANGEBYRANK 0 -(limit+1): only the highest scores stay. */
  function AppendReplay(w: seq<Event>, e: Event): seq<Event>
  {
    var all := Insert(w, e);
    if |all| > REPLAY_LIMIT then all[|all| - REPLAY_LIMIT..] else all
  }

  /** ZRANGEBYSCORE after+1 +inf */
  function Above(w: seq<Event>, after: int): seq<Event>
  {
    if w == [] then []
    else if w[0].sequence > after then w
    else Above(w[1..], after)
  }

  function ReplayAfter(w: seq<Event>, after: int): seq<Event>
  {
    var found := Above(w, after);
    if |found| > REPLAY_LIMIT then found[..REPLAY_LIMIT] else found
  }

  datatype ReplayResult = ReplayResult(events: seq<Event>, resyncRequired: bool)

  /** Broker.Replay on the two values it reads. */
  function Replay(current: int, w: seq<Event>, after: int): ReplayResult
  {
    var events := ReplayAfter(w, after);
    if after <= 0 || current <= after then ReplayResult(events, false)
    else if |events| == 0 then ReplayResult(events, true)
    else ReplayResult(events, events[0].sequence > after + 1)
  }

  // ------------------------------------------------------------- the window

  lemma {:induction false} InsertFacts(w: seq<Event>, e: Event)
    requires Sorted(w) && forall k :: 0 <= k < |w| ==> w[k].sequence != e.sequence
    ensures Sorted(Insert(w, e)) && |Insert(w, e)| == |w| + 1
    ensures forall x :: x in Insert(w, e) <==> x in w || x == e
  {
    if w == [] || w[|w| - 1].sequence <= e.sequence {
    } else {
      var front, last := w[..|w| - 1], w[|w| - 1];
      InsertFacts(front, e);
      assert w == front + [last];
      forall k | 0 <= k < |w| ensures Insert(front, e)[k].sequence < last.sequence {
        assert Insert(front, e)[k] in Insert(front, e);
      }
    }
  }

  /** The event is still in the window, or the window is full of later events. */
  predicate Kept(w: seq<Event>, e: Event)
  {
    e in w || (|w| == REPLAY_LIMIT && forall k :: 0 <= k < |w| ==> w[k].sequence > e.sequence)
  }

  /** Inserted into a window of later events, only the lowest score can be an earlier one. */
  lemma AllLater(w: seq<Event>, e: Event, x: Event)
    requires Sorted(w) && forall k :: 0 <= k < |w| ==> w[k].sequence != e.sequence
    requires forall k :: 0 <= k < |w| ==> w[k].sequence > x.sequence
    ensures forall k :: 1 <= k < |Insert(w, e)| ==> Insert(w, e)[k].sequence > x.sequence
  {
    InsertFacts(w, e);
    var all := Insert(w, e);
    forall k | 1 <= k < |all| ensures all[k].sequence > x.sequence {
      assert all[k] in all && all[0] in all && all[0].sequence < all[k].sequence;
      assert all[k] in w || all[0] in w;
    }
  }

  lemma AppendKeeps(w: seq<Event>, e: Event, x: Event)
    requires Sorted(w) && |w| <= REPLAY_LIMIT && (forall k :: 0 <= k < |w| ==> w[k].sequence != e.sequence)
    requires Kept(w, x) || x == e
    ensures var w' := AppendReplay(w, e);
            && Sorted(w') && |w'| <= REPLAY_LIMIT && |w'| <= |w| + 1 && Kept(w', x)
            && forall y :: y in w' ==> y in w || y == e
  {
    InsertFacts(w, e);
    var all := Insert(w, e);
    if x !in all {
      AllLater(w, e, x);
    }
    TrimKeeps(all, x);
  }

  /** Trimming a window that is one too long drops its lowest score only. */
  lemma TrimKeeps(all: seq<Event>, x: Event)
    requires Sorted(all) && |all| <= REPLAY_LIMIT + 1
    requires x in all || (|all| == REPLAY_LIMIT + 1 && forall k :: 1 <= k < |all| ==> all[k].sequence > x.sequence)
    ensures Kept(if |all| > REPLAY_LIMIT then all[|all| - REPLAY_LIMIT..] else all, x)
  {
    if |all| > REPLAY_LIMIT {
      assert all == [all[0]] + all[1..];
    }
  }

  lemma {:induction false} AboveIsFilter(w: seq<Event>, after: int)
    requires Sorted(w)
    ensures Sorted(Above(w, after)) && |Above(w, after)| <= |w|
    ensures forall x :: x in Above(w, after) <==> x in w && x.sequence > after
  {
    if w == [] || w[0].sequence > after {
    } else {
      AboveIsFilter(w[1..], after);
      assert w == [w[0]] + w[1..];
    }
  }

  // -------------------------------------------------- replay without emitters

  /** Events 1, 2, .. in order of their numbers. */
  predicate Numbered(log: seq<Event>)
  {
    forall i :: 0 <= i < |log| ==> log[i].sequence == i + 1
  }

  function TrimmedTo(log: seq<Event>): nat
  {
    if |log| > REPLAY_LIMIT then |log| - REPLAY_LIMIT else 0
  }

  /** The window agrees with the unbounded log: it holds log events, and drops none but the oldest. */
  ghost predicate Reflects(w: seq<Event>, log: seq<Event>)
  {
    && Sorted(w) && |w| <= REPLAY_LIMIT && |w| <= |log|
    && (forall k :: 0 <= k < |w| ==> w[k] in log)
    && (forall i :: 0 <= i < |log| ==> Kept(w, log[i]))
  }

  /** Emitting the next event keeps window and log in agreement. */
  lemma EmitReflects(w: seq<Event>, log: seq<Event>, e: Event)
    requires Numbered(log) && Reflects(w, log) && e.sequence == |log| + 1
    ensures Numbered(log + [e]) && Reflects(AppendReplay(w, e), log + [e])
  {
    var w' := AppendReplay(w, e);
    forall k | 0 <= k < |w| ensures w[k].sequence != e.sequence {
      assert w[k] in log;
    }
    AppendKeeps(w, e, e);
    forall i | 0 <= i < |log| ensures Kept(w', log[i]) {
      AppendKeeps(w, e, log[i]);
    }
    forall k | 0 <= k < |w'| ensures w'[k] in log + [e] {
      assert w'[k] in w';
    }
  }

  /** However the events were appended, once all of them are, the window is the end of the log. */
  lemma WindowIsSuffix(w: seq<Event>, log: seq<Event>)
    requires Numbered(log) && Reflects(w, log)
    ensures w == log[TrimmedTo(log)..]
  {
    if log != [] {
      WindowMeetsEnd(w, log);
      WindowStartsAtTrim(w, log);
      forall i | 0 <= i < |w| ensures w[i] == log[TrimmedTo(log) + i] {
        Contiguous(w, log, i);
      }
    }
  }

  lemma WindowStartsAtTrim(w: seq<Event>, log: seq<Event>)
    requires Numbered(log) && Reflects(w, log) && w != []
    requires |w| == |log| - w[0].sequence + 1
    ensures TrimmedTo(log) == w[0].sequence - 1
  {
    assert Kept(w, log[0]);
    assert w[0] in log;
    if log[0] in w {
      assert w[0].sequence <= log[0].sequence;
    }
  }

  /** The window holds the last event, and with its first event everything after it. */
  lemma WindowMeetsEnd(w: seq<Event>, log: seq<Event>)
    requires Numbered(log) && Reflects(w, log) && log != []
    ensures w != []
    ensures forall k :: 0 <= k < |w| ==> 1 <= w[k].sequence <= |log| && w[k] == log[w[k].sequence - 1]
    ensures forall n :: w[0].sequence - 1 <= n < |log| ==> log[n] in w
    ensures |w| == |log| - w[0].sequence + 1
  {
    assert Kept(w, log[|log| - 1]);
    forall k | 0 <= k < |w| ensures 1 <= w[k].sequence <= |log| && w[k] == log[w[k].sequence - 1] {
      assert w[k] in log;
    }
    forall n | w[0].sequence - 1 <= n < |log| ensures log[n] in w {
      assert Kept(w, log[n]);
    }
    var j :| 0 <= j < |w| && w[j] == log[|log| - 1];
    assert j == |w| - 1;
    Contiguous(w, log, j);
  }

  lemma {:induction false} Contiguous(w: seq<Event>, log: seq<Event>, i: nat)
    requires Numbered(log) && Sorted(w) && i < |w|
    requires forall k :: 0 <= k < |w| ==> 1 <= w[k].sequence <= |log| && w[k] == log[w[k].sequence - 1]
    requires forall n :: w[0].sequence - 1 <= n < |log| ==> log[n] in w
    ensures w[i].sequence == w[0].sequence + i
  {
    if i == 0 {
    } else {
      Contiguous(w, log, i - 1);
      assert w[i - 1].sequence < w[i].sequence <= |log|;
      var next := log[w[0].sequence + i - 1];
      assert next in w;
      var j :| 0 <= j < |w| && w[j] == next;
      assert j >= i;
    }
  }

  lemma {:induction false} AboveOfSuffix(log: seq<Event>, from: nat, after: nat)
    requires Numbered(log) && from <= |log|
    ensures Above(log[from..], after) == log[Min(Max(from, after), |log|)..]
    decreases |log| - from
  {
    if from >= |log| || from >= after {
    } else {
      assert log[from..][1..] == log[from + 1..];
      AboveOfSuffix(log, from + 1, after);
    }
  }

  /**
   * Replay with no emit in flight, for a client that has seen `after` >= 1: the result is exactly
   * the missing end of the log, and a resync is raised exactly when part of it was trimmed.
   */
  lemma QuiescentReplay(w: seq<Event>, log: seq<Event>, after: nat)
    requires Numbered(log) && Reflects(w, log) && after >= 1
    ensures var r := Replay(|log|, w, after);
            && r.events == log[Min(Max(TrimmedTo(log), after), |log|)..]
            && (r.resyncRequired <==> after < TrimmedTo(log))
            && (!r.resyncRequired && after <= |log| ==> r.events == log[after..])
  {
    WindowIsSuffix(w, log);
    AboveOfSuffix(log, TrimmedTo(log), after);
  }

  /** A client that says 0 is never told to resync, and silently misses events exactly when some were trimmed. */
  lemma ZeroNeverResyncs(w: seq<Event>, log: seq<Event>)
    requires Numbered(log) && Reflects(w, log)
    ensures var r := Replay(|log|, w, 0);
            !r.resyncRequired && (r.events == log <==> |log| <= REPLAY_LIMIT)
  {
    WindowIsSuffix(w, log);
    AboveOfSuffix(log, TrimmedTo(log), 0);
  }

  /** What a client that asks with this number misses, as far as the last 256 events reach. */
  function Missing(log: seq<Event>, after: nat): seq<Event>
  {
    log[Min(Max(|log| - 256, after), |log|)..]
  }

  lemma FoundIsMissing(w: seq<Event>, log: seq<Event>, after: nat)
    requires Numbered(log) && Reflects(w, log)
    ensures ReplayAfter(w, after) == Missing(log, after)
  {
    WindowIsSuffix(w, log);
    AboveOfSuffix(log, TrimmedTo(log), after);
    assert Above(w, after) == Missing(log, after);
  }

  /** The first missing event tells whether one before it is gone. */
  lemma GoneIff(log: seq<Event>, after: nat)
    requires Numbered(log)
    ensures Missing(log, after) == [] <==> |log| <= after
    ensures after < |log| ==> (Missing(log, after)[0].sequence > after + 1 <==> after < |log| - 256)
  {
  }

  /** Both together: the missing end, and a resync exactly for a positive number with an event after it gone. */
  lemma ReplayIsMissing(w: seq<Event>, log: seq<Event>, after: nat)
    requires Numbered(log) && Reflects(w, log)
    ensures Replay(|log|, w, after) == ReplayResult(Missing(log, after), 1 <= after < |log| - 256)
  {
    FoundIsMissing(w, log, after);
    GoneIff(log, after);
  }
}
