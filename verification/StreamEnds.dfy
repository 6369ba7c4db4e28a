/**
 * How a run ends, told from the provider's script alone: where the loop stops, what stops it, and
 * what the rows, the events and the settlement are then.
 */
module StreamEnds {
  import opened Basics
  import opened Text
  import opened Streaming
  import R = Reducer

  // ------------------------------------------------- reading the script

  /** All the text of these items. */
  function Said(items: seq<Item>): string
  {
    if items == [] then "" else Said(items[..|items| - 1]) + items[|items| - 1].text
  }

  /** Their texts, one by one, without the empty ones. */
  function Texts(items: seq<Item>): seq<string>
  {
    if items == [] then []
    else if items[|items| - 1].text == "" then Texts(items[..|items| - 1])
    else Texts(items[..|items| - 1]) + [items[|items| - 1].text]
  }

  /** The token counts of the last item that reported any, zeros if none did. */
  function LastUsage(items: seq<Item>): Usage
  {
    if items == [] then Usage(0, 0, 0)
    else if items[|items| - 1].usage.Some? then items[|items| - 1].usage.value
    else LastUsage(items[..|items| - 1])
  }

  /** The finish reason of the last item that gave one, Stop if none did. */
  function LastReason(items: seq<Item>): FinishReason
  {
    if items == [] then Stop
    else if items[|items| - 1].finish.Some? then items[|items| - 1].finish.value
    else LastReason(items[..|items| - 1])
  }

  /** What item j reported and no later item did is what was reported last. */
  lemma {:induction false} LastIsLast(items: seq<Item>, j: nat)
    requires j < |items|
    ensures items[j].usage.Some? && (forall i :: j < i < |items| ==> items[i].usage.None?) ==>
              LastUsage(items) == items[j].usage.value
    ensures items[j].finish.Some? && (forall i :: j < i < |items| ==> items[i].finish.None?) ==>
              LastReason(items) == items[j].finish.value
  {
    if j == |items| - 1 {
    } else {
      LastIsLast(items[..|items| - 1], j);
    }
  }

  /** Without a report there are no counts, and the reason is a stop. */
  lemma {:induction false} NothingReported(items: seq<Item>)
    ensures (forall i :: 0 <= i < |items| ==> items[i].usage.None?) ==> LastUsage(items) == Usage(0, 0, 0)
    ensures (forall i :: 0 <= i < |items| ==> items[i].finish.None?) ==> LastReason(items) == Stop
  {
    if items == [] {
    } else {
      NothingReported(items[..|items| - 1]);
    }
  }

  /** The texts together are all that was said. */
  lemma {:induction false} TextsAreSaid(items: seq<Item>)
    ensures R.NonEmpty(Texts(items)) && Concat(Texts(items)) == Said(items)
  {
    if items == [] {
    } else {
      var front, text := items[..|items| - 1], items[|items| - 1].text;
      TextsAreSaid(front);
      if text == "" {
        assert Said(front) + text == Said(front);
      } else {
        ConcatAppend(Texts(front), text);
      }
    }
  }

  /** Item k has no text, or the answer up to it is allowed, short enough and written. */
  predicate Taken(script: seq<Item>, w: World, k: nat)
    requires k < |script|
  {
    var text := Said(script[..k + 1]);
    script[k].text == "" || (w.safety(text).Allowed? && |text| <= MESSAGE_LIMIT && w.write(text).None?)
  }

  /** Item k is the first whose text is not taken or after which the stream does not go on. */
  predicate StopsAt(script: seq<Item>, w: World, k: nat)
  {
    && k < |script|
    && (forall i :: 0 <= i < k ==> Taken(script, w, i) && script[i].next.More?)
    && !(Taken(script, w, k) && script[k].next.More?)
  }

  /** The items whose text is part of the answer when the loop stops at item k. */
  function Kept(script: seq<Item>, w: World, k: nat): seq<Item>
    requires k < |script|
  {
    if Taken(script, w, k) then script[..k + 1] else script[..k]
  }

  /** Every loop stops at exactly one item. */
  lemma EveryLoopStops(script: seq<Item>, w: World)
    requires Ends(script)
    ensures exists k: nat :: StopsAt(script, w, k)
    ensures forall j: nat, k: nat :: StopsAt(script, w, j) && StopsAt(script, w, k) ==> j == k
  {
    var k := 0;
    while k < |script| - 1 && Taken(script, w, k) && script[k].next.More?
      invariant 0 <= k < |script|
      invariant forall i :: 0 <= i < k ==> Taken(script, w, i) && script[i].next.More?
    {
      k := k + 1;
    }
    assert StopsAt(script, w, k);
  }

  // --------------------------------------------------- the loop, item by item

  lemma SaidSnoc(script: seq<Item>, i: nat)
    requires i < |script|
    ensures Said(script[..i + 1]) == Said(script[..i]) + script[i].text
  {
    assert script[..i + 1][..i] == script[..i];
  }

  /** One item more: its text, its counts and its reason. */
  lemma OneMore(script: seq<Item>, i: nat)
    requires i < |script|
    ensures Texts(script[..i + 1]) == Texts(script[..i]) + AsChunk(script[i].text)
    ensures LastUsage(script[..i + 1]) ==
            if script[i].usage.Some? then script[i].usage.value else LastUsage(script[..i])
    ensures LastReason(script[..i + 1]) ==
            if script[i].finish.Some? then script[i].finish.value else LastReason(script[..i])
  {
    assert script[..i + 1][..i] == script[..i];
  }

  lemma TakenPasses(script: seq<Item>, w: World, k: nat)
    requires k < |script|
    ensures Taken(script, w, k) <==> Passes(script[k], w, Said(script[..k]))
  {
    SaidSnoc(script, k);
  }

  /** The loop after i items: it holds what they said and reported. */
  ghost predicate Reaches(script: seq<Item>, w: World, i: nat)
  {
    && Ends(script) && i < |script|
    && Ahead(script, w, i, Texts(script[..i]), Said(script[..i]), LastUsage(script[..i]), LastReason(script[..i]))
  }

  lemma LoopGoesOn(script: seq<Item>, w: World, i: nat)
    requires Reaches(script, w, i) && Taken(script, w, i) && script[i].next.More?
    ensures Reaches(script, w, i + 1)
  {
    AheadStep(script, w, i, Texts(script[..i]), Said(script[..i]), LastUsage(script[..i]), LastReason(script[..i]));
    TakenPasses(script, w, i);
    SaidSnoc(script, i);
    OneMore(script, i);
  }

  /** The loop goes through every item before the one it stops at. */
  lemma {:induction false} LoopReaches(script: seq<Item>, w: World, i: nat, k: nat)
    requires Ends(script) && StopsAt(script, w, k) && i <= k
    ensures Reaches(script, w, i)
  {
    if i == 0 {
      assert script[0..] == script;
    } else {
      LoopReaches(script, w, i - 1, k);
      LoopGoesOn(script, w, i - 1);
    }
  }

  /** The loop is over at item k, with the answer, the counts and the reason read until then. */
  lemma LoopLeaves(script: seq<Item>, w: World, k: nat)
    requires Ends(script) && StopsAt(script, w, k)
    ensures RunChunks(Open(script), w) == Texts(Kept(script, w, k))
    ensures Taken(script, w, k) ==>
      && script[k].next != More
      && RunEnd(Open(script), w) ==
         Ending(script[k].next, Said(script[..k + 1]), LastUsage(script[..k + 1]), LastReason(script[..k + 1]))
    ensures !Taken(script, w, k) ==>
      && !Passes(script[k], w, Said(script[..k]))
      && RunEnd(Open(script), w) == Failure(script[k], w, Said(script[..k]), LastUsage(script[..k + 1]))
  {
    LoopReaches(script, w, k, k);
    AheadStep(script, w, k, Texts(script[..k]), Said(script[..k]), LastUsage(script[..k]), LastReason(script[..k]));
    TakenPasses(script, w, k);
    SaidSnoc(script, k);
    OneMore(script, k);
  }

  /** What stopped the loop at item k: the end of the stream, a cancellation, a blocked text, or a problem. */
  lemma LoopEnds(script: seq<Item>, w: World, k: nat)
    requires Ends(script) && StopsAt(script, w, k)
    ensures var end, taken, next := RunEnd(Open(script), w), Taken(script, w, k), script[k].next;
            var text := Said(script[..k + 1]);
            && end.content == Said(Kept(script, w, k))
            && end.usage == LastUsage(script[..k + 1])
            && (end.Finished? <==> taken && next.Eof?)
            && (end.Finished? ==> end.reason == LastReason(script[..k + 1]))
            && (end.Stopped? <==> taken && next.Canceled?)
            && (end.Refused? <==> !taken && w.safety(text).Blocked?)
            && (taken && next.Broke? ==> end.Broken? && end.problem == next.problem)
            && (!taken && w.safety(text).Unavailable? ==> end.Broken? && end.problem == w.safety(text).problem)
            && (!taken && w.safety(text).Allowed? ==>
                  end.Broken?
                  && (|text| > MESSAGE_LIMIT ==> end.problem.retryable)
                  && (|text| <= MESSAGE_LIMIT ==> w.write(text).Some? && end.problem == w.write(text).value))
  {
    LoopLeaves(script, w, k);
    SaidSnoc(script, k);
  }

  // ------------------------------------------------------------ what is left

  /** The deltas of these chunks, each at the byte length of those before it. */
  ghost predicate Announced(events: seq<Event>, id: Id, chunks: seq<string>)
  {
    && |events| == |chunks|
    && forall j :: 0 <= j < |chunks| ==>
         events[j] == ChatDelta(R.DeltaPayload(id, ByteLength(Concat(chunks[..j])), chunks[j]))
  }

  /**
   * What a run is charged by: the provider's counts, with an estimate for an input count of 0, and
   * for an output count of 0 when there is an answer or the stream ended normally.
   */
  function Counts(reported: Usage, prompt: seq<string>, content: string, finished: bool): Usage
  {
    Usage(if reported.input != 0 then reported.input else EstimateAll(prompt),
          if reported.output != 0 || (content == "" && !finished) then reported.output else EstimateTokens(content),
          reported.cached)
  }

  /** The rows of an ended run, by how it ended. */
  lemma RunConcludes(rows: Rows, id: Id, reserved: int, prompt: seq<string>, o: Opening, w: World)
    requires Fresh(rows) && OpeningOk(o)
    ensures var done, end := RunRows(rows, id, reserved, prompt, o, w), RunEnd(o, w);
            var u := FinalUsage(end, prompt);
            && done.message == Message(end.content, FinalMessageStatus(end))
            && (!rows.conversation.deleted ==> done.conversation == Conversation(Idle, false))
            && (CountsFit(u) ==> done.generation ==
                                 Generation(FinalStatus(end), end.Broken? && end.problem.retryable,
                                            Some(FinalReason(end)), Narrow(u), ByteLength(end.content)))
  {
    var end, chunks := RunEnd(o, w), RunChunks(o, w);
    assert end.content == Concat(chunks) && |end.content| <= MESSAGE_LIMIT by { RunStores(o, w); }
    StoredOffsetExact(end.content);
    var mid := if o.NotMarked? then rows else Midway(rows, id, chunks);
    assert Active(mid.generation.status) && mid.message == Message(end.content, R.Pending);
    assert RunRows(rows, id, reserved, prompt, o, w) == Conclude(mid, end, FinalUsage(end, prompt), reserved);
  }

  /**
   * How a run ends. Let the loop stop at item k. The answer is what was said up to it, with item k
   * exactly when its text was taken. The run is complete exactly when item k was taken and is the
   * normal end of the stream, cancelled exactly when it was taken and the provider was cancelled,
   * and failed otherwise.
   */
  lemma HowRunEnds(rows: Rows, id: Id, reserved: int, prompt: seq<string>, script: seq<Item>, w: World, k: nat)
    requires Fresh(rows) && Ends(script) && StopsAt(script, w, k)
    ensures var done := RunRows(rows, id, reserved, prompt, Open(script), w);
            var taken, next, content := Taken(script, w, k), script[k].next, Said(Kept(script, w, k));
            && done.message.content == content
            && (done.message.status.Complete? <==> taken && next.Eof?)
            && (done.message.status.Cancelled? <==> taken && next.Canceled?)
            && (done.message.status.Failed? <==> !taken || next.Broke?)
            && (!rows.conversation.deleted ==> done.conversation == Conversation(Idle, false))
  {
    LoopEnds(script, w, k);
    RunConcludes(rows, id, reserved, prompt, Open(script), w);
  }

  lemma DeltasAnnounced(id: Id, chunks: seq<string>)
    ensures Announced(DeltaEvents(id, chunks), id, chunks)
  {
  }

  lemma RunEvents(rows: Rows, id: Id, reserved: int, prompt: seq<string>, script: seq<Item>, w: World, k: nat)
    requires Ends(script) && StopsAt(script, w, k)
    ensures RunRows(rows, id, reserved, prompt, Open(script), w).events ==
            rows.events + [ChatStarted] + DeltaEvents(id, Texts(Kept(script, w, k)))
            + [FinalEvent(RunEnd(Open(script), w))]
  {
    LoopLeaves(script, w, k);
  }

  /** What a run announces: its start, a delta for each text it kept, and one terminal event. */
  lemma WhatRunAnnounces(rows: Rows, id: Id, reserved: int, prompt: seq<string>, script: seq<Item>, w: World, k: nat)
    returns (deltas: seq<Event>, last: Event)
    requires Fresh(rows) && Ends(script) && StopsAt(script, w, k)
    ensures RunRows(rows, id, reserved, prompt, Open(script), w).events ==
            rows.events + [ChatStarted] + deltas + [last]
    ensures Announced(deltas, id, Texts(Kept(script, w, k)))
    ensures last.ChatCompleted? <==> Taken(script, w, k) && script[k].next.Eof?
    ensures last.ChatCancelled? <==> Taken(script, w, k) && script[k].next.Canceled?
    ensures last.ChatFailed? <==> !Taken(script, w, k) || script[k].next.Broke?
    ensures last.ChatCancelled? || last.ChatFailed? ==> (last.partialRetained <==> Said(Kept(script, w, k)) != "")
  {
    deltas, last := DeltaEvents(id, Texts(Kept(script, w, k))), FinalEvent(RunEnd(Open(script), w));
    RunEvents(rows, id, reserved, prompt, script, w, k);
    DeltasAnnounced(id, Texts(Kept(script, w, k)));
    LoopEnds(script, w, k);
  }

  /** The counts a run is charged by. */
  lemma LoopCounts(prompt: seq<string>, script: seq<Item>, w: World, k: nat)
    requires Ends(script) && StopsAt(script, w, k)
    ensures FinalUsage(RunEnd(Open(script), w), prompt) ==
            Counts(LastUsage(script[..k + 1]), prompt, Said(Kept(script, w, k)),
                   Taken(script, w, k) && script[k].next.Eof?)
  {
    LoopEnds(script, w, k);
  }

  /** One settlement is made, of the narrowed output count or of the whole reservation if that is less. */
  lemma WhatRunSettles(rows: Rows, id: Id, reserved: int, prompt: seq<string>, script: seq<Item>, w: World, k: nat)
    requires Fresh(rows) && Ends(script) && StopsAt(script, w, k)
    ensures var u := Counts(LastUsage(script[..k + 1]), prompt, Said(Kept(script, w, k)),
                            Taken(script, w, k) && script[k].next.Eof?);
            RunRows(rows, id, reserved, prompt, Open(script), w).settlements ==
            rows.settlements + [if Int32(u.output) < reserved then Int32(u.output) else reserved]
  {
    LoopCounts(prompt, script, w, k);
  }

  /** If one of the narrowed counts is negative, the generation stays at its last checkpoint. */
  lemma WhatRunStrands(rows: Rows, id: Id, reserved: int, prompt: seq<string>, script: seq<Item>, w: World, k: nat)
    requires Fresh(rows) && Ends(script) && StopsAt(script, w, k)
    ensures var content := Said(Kept(script, w, k));
            var u := Counts(LastUsage(script[..k + 1]), prompt, content, Taken(script, w, k) && script[k].next.Eof?);
            Int32(u.input) < 0 || Int32(u.output) < 0 || Int32(u.cached) < 0 ==>
              RunRows(rows, id, reserved, prompt, Open(script), w).generation ==
              Generation(GenerationStatus.Streaming, false, None,
                         Usage(0, if content == "" then 0 else Int32(EstimateTokens(content)), 0), ByteLength(content))
  {
    LoopCounts(prompt, script, w, k);
    LoopLeaves(script, w, k);
    var kept := Kept(script, w, k);
    TextsAreSaid(kept);
    assert |Said(kept)| <= MESSAGE_LIMIT by { RunStores(Open(script), w); }
    StoredOffsetExact(Said(kept));
    var end, mid := RunEnd(Open(script), w), Midway(rows, id, Texts(kept));
    assert RunRows(rows, id, reserved, prompt, Open(script), w) ==
           Conclude(mid, end, FinalUsage(end, prompt), reserved);
  }

  /**
   * What is recorded of a run whose narrowed counts are not negative: the generation ends like the
   * message, with the counts, the length of the answer, and a reason: the last one the provider
   * gave if the run completed, and Safety exactly for a blocked text.
   */
  lemma WhatRunRecords(rows: Rows, id: Id, reserved: int, prompt: seq<string>, script: seq<Item>, w: World, k: nat)
    requires Fresh(rows) && Ends(script) && StopsAt(script, w, k)
    ensures var taken, next, content := Taken(script, w, k), script[k].next, Said(Kept(script, w, k));
            var u := Counts(LastUsage(script[..k + 1]), prompt, content, taken && next.Eof?);
            var g := RunRows(rows, id, reserved, prompt, Open(script), w).generation;
            Int32(u.input) >= 0 && Int32(u.output) >= 0 && Int32(u.cached) >= 0 ==>
              && (g.status.Completed? <==> taken && next.Eof?)
              && (g.status.Cancelled? <==> taken && next.Canceled?)
              && (g.status.Failed? <==> !taken || next.Broke?)
              && g.reason == Some(if !taken && w.safety(Said(script[..k + 1])).Blocked? then Safety
                                  else if !taken || next.Broke? then Error
                                  else if next.Canceled? then CancelledByUser
                                  else LastReason(script[..k + 1]))
              && g.usage == Usage(Int32(u.input), Int32(u.output), Int32(u.cached))
              && g.streamOffset == ByteLength(content)
  {
    LoopEnds(script, w, k);
    LoopCounts(prompt, script, w, k);
    RunConcludes(rows, id, reserved, prompt, Open(script), w);
  }

  /**
   * Why a run failed, for its event and for its generation: it can be retried exactly as the
   * problem of the check, of the write or of the provider says, and always after a text too long
   * to be stored; a blocked text is never retried.
   */
  lemma WhenRunCanBeRetried(rows: Rows, id: Id, reserved: int, prompt: seq<string>, script: seq<Item>, w: World, k: nat)
    requires Fresh(rows) && Ends(script) && StopsAt(script, w, k)
    requires !Taken(script, w, k) || script[k].next.Broke?
    ensures var done := RunRows(rows, id, reserved, prompt, Open(script), w);
            var text, last := Said(script[..k + 1]), done.events[|done.events| - 1];
            && last.ChatFailed?
            && (Taken(script, w, k) ==> last.retryable == script[k].next.problem.retryable)
            && (!Taken(script, w, k) ==>
                  && (w.safety(text).Unavailable? ==> last.retryable == w.safety(text).problem.retryable)
                  && (w.safety(text).Blocked? ==> !last.retryable)
                  && (w.safety(text).Allowed? && |text| > MESSAGE_LIMIT ==> last.retryable)
                  && (w.safety(text).Allowed? && |text| <= MESSAGE_LIMIT ==>
                        w.write(text).Some? && last.retryable == w.write(text).value.retryable))
            && (done.generation.status.Failed? ==> done.generation.retryable == last.retryable)
  {
    LoopEnds(script, w, k);
    RunConcludes(rows, id, reserved, prompt, Open(script), w);
  }

  /** A run that is never marked as streaming, or never reaches its provider, fails with that problem. */
  lemma HowUnopenedRunEnds(rows: Rows, id: Id, reserved: int, prompt: seq<string>, o: Opening, w: World)
    requires Fresh(rows) && !o.Open?
    ensures var done := RunRows(rows, id, reserved, prompt, o, w);
            var input := Int32(EstimateAll(prompt));
            && done.message == Message("", R.Failed)
            && done.events == rows.events + (if o.NotMarked? then [] else [ChatStarted])
                              + [ChatFailed(o.problem.retryable, false)]
            && done.settlements == rows.settlements + [if 0 < reserved then 0 else reserved]
            && done.generation == (if input >= 0 then Generation(Failed, o.problem.retryable, Some(Error),
                                                                 Usage(input, 0, 0), 0)
                                   else if o.NotMarked? then rows.generation
                                   else Generation(GenerationStatus.Streaming, false, None, Usage(0, 0, 0), 0))
  {
    RunOutcome(rows, id, reserved, prompt, o, w);
    assert rows.events + [ChatStarted] + DeltaEvents(id, []) == rows.events + [ChatStarted];
  }
}
