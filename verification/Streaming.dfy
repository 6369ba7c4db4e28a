/**
 * One generation from acceptance to settlement: stream, finish, fail and blockSafety, over the
 * rows they change. The provider is an arbitrary finite script of chunks; safety checks and row
 * writes answer as they please.
 */
module Streaming {
  import opened Basics
  import opened Text
  import R = Reducer
  import Q = QuotaLedger
  import QS = QuotaService
  import L = Leases

  // ------------------------------------------------------------------ rows

  datatype GenerationStatus = Accepted | Streaming | Completed | Cancelled | Failed

  datatype FinishReason = Stop | Length | CancelledByUser | Safety | Error

  datatype Usage = Usage(input: int, output: int, cached: int)

  datatype Generation = Generation(
    status: GenerationStatus, retryable: bool, reason: Option<FinishReason>, usage: Usage, streamOffset: int)

  datatype Message = Message(content: string, status: R.MessageStatus)

  datatype GenerationState = Idle | AcceptedState | StreamingState

  datatype Conversation = Conversation(state: GenerationState, deleted: bool)

  const MESSAGE_LIMIT: nat := 200000   // CHECK (length(content) <= 200000)

  predicate Active(status: GenerationStatus) { status == Accepted || status == Streaming }

  /** CHECK (.. >= 0) on the token columns, after narrowing to int32. */
  predicate CountsFit(u: Usage) { Int32(u.input) >= 0 && Int32(u.output) >= 0 && Int32(u.cached) >= 0 }

  function Narrow(u: Usage): Usage { Usage(Int32(u.input), Int32(u.output), Int32(u.cached)) }

  function FinalizeGeneration(g: Generation, status: GenerationStatus, retryable: bool, reason: FinishReason,
                              u: Usage, content: string): Generation
  {
    if Active(g.status) && CountsFit(u)
    then Generation(status, retryable, Some(reason), Narrow(u), Int32(ByteLength(content)))
    else g
  }

  function FinalizeMessage(m: Message, status: R.MessageStatus): Message
  {
    if m.status.Pending? then m.(status := status) else m
  }

  function SetGenerationState(c: Conversation, state: GenerationState): Conversation
  {
    if c.deleted then c else c.(state := state)
  }

  // ----------------------------------------------------------- environment

  datatype Problem = Problem(retryable: bool)

  datatype Next = More | Eof | Canceled | Broke(problem: Problem)

  datatype Item = Item(text: string, usage: Option<Usage>, finish: Option<FinishReason>, next: Next)

  datatype Verdict = Allowed | Blocked | Unavailable(problem: Problem)

  /** What answers the output check and the message update for a given text. */
  datatype World = World(safety: string -> Verdict, write: string -> Option<Problem>)

  /** Every provider stream comes to an end. */
  predicate Ends(script: seq<Item>) { script != [] && script[|script| - 1].next != More }

  // -------------------------------------------------- the loop, as a function

  datatype End =
    | Finished(content: string, usage: Usage, reason: FinishReason)
    | Stopped(content: string, usage: Usage)
    | Broken(content: string, usage: Usage, problem: Problem)
    | Refused(content: string, usage: Usage)

  /** The item's text is accepted, or there is none. */
  predicate Passes(item: Item, w: World, content: string)
  {
    item.text != "" ==> w.safety(content + item.text).Allowed? && WriteError(w, content + item.text).None?
  }

  /** How the loop ends at a text that is not accepted or cannot be written. */
  function Failure(item: Item, w: World, content: string, usage: Usage): End
    requires !Passes(item, w, content)
  {
    var text := content + item.text;
    match w.safety(text)
    case Unavailable(problem) => Broken(content, usage, problem)
    case Blocked => Refused(content, usage)
    case Allowed => Broken(content, usage, WriteError(w, text).value)
  }

  function Ending(next: Next, content: string, usage: Usage, reason: FinishReason): End
    requires next != More
  {
    match next
    case Eof => Finished(content, usage, reason)
    case Canceled => Stopped(content, usage)
    case Broke(problem) => Broken(content, usage, problem)
  }

  function Consume(script: seq<Item>, w: World, content: string, usage: Usage, reason: FinishReason): End
    requires Ends(script)
  {
    var item := script[0];
    var u := if item.usage.Some? then item.usage.value else usage;
    var f := if item.finish.Some? then item.finish.value else reason;
    var text := content + item.text;
    if !Passes(item, w, content) then Failure(item, w, content, u)
    else
      match item.next
      case More => Consume(script[1..], w, text, u, f)
      case _ => Ending(item.next, text, u, f)
  }

  function WriteError(w: World, text: string): Option<Problem>
  {
    if |text| > MESSAGE_LIMIT then Some(Problem(true)) else w.write(text)
  }

  function AsChunk(text: string): seq<string> { if text == "" then [] else [text] }

  /** The chunks that reach the stored message and the subscribers. */
  function Written(script: seq<Item>, w: World, content: string): seq<string>
    requires Ends(script)
  {
    var item := script[0];
    var text := content + item.text;
    if !Passes(item, w, content) then []
    else if item.next == More then AsChunk(item.text) + Written(script[1..], w, text)
    else AsChunk(item.text)
  }

  /** The provider's whole answer: its non-empty texts up to the end of the stream. */
  function Answer(script: seq<Item>): seq<string>
    requires Ends(script)
  {
    if script[0].next == More then AsChunk(script[0].text) + Answer(script[1..]) else AsChunk(script[0].text)
  }

  lemma {:induction false} ConcatFront(chunk: string, chunks: seq<string>)
    ensures Concat([chunk] + chunks) == chunk + Concat(chunks)
  {
    if chunks == [] {
      assert [chunk] + chunks == [chunk];
      assert [chunk][..0] == [];
    } else {
      assert ([chunk] + chunks)[..|chunks|] == [chunk] + chunks[..|chunks| - 1];
      ConcatFront(chunk, chunks[..|chunks| - 1]);
    }
  }

  lemma Associative(a: seq<string>, b: seq<string>, c: seq<string>)
    ensures a + (b + c) == (a + b) + c
  {
  }

  /** One item of the loop, seen from both definitions. */
  lemma WrittenStep(script: seq<Item>, w: World, content: string, chunks: seq<string>)
    requires Ends(script)
    ensures var item := script[0];
            chunks + Written(script, w, content) ==
              if !Passes(item, w, content) then chunks
              else if item.next == More
              then (chunks + AsChunk(item.text)) + Written(script[1..], w, content + item.text)
              else chunks + AsChunk(item.text)
  {
    var item := script[0];
    if !Passes(item, w, content) {
      assert chunks + [] == chunks;
    } else if item.next == More {
      Associative(chunks, AsChunk(item.text), Written(script[1..], w, content + item.text));
    }
  }

  /** What is known of the chunks stored after `content`. */
  ghost predicate Stored(chunks: seq<string>, w: World, content: string, end: string)
  {
    && R.NonEmpty(chunks)
    && end == content + Concat(chunks)
    && (forall k :: 0 < k <= |chunks| ==> w.safety(content + Concat(chunks[..k])).Allowed?)
  }

  lemma StoredFront(text: string, rest: seq<string>, w: World, content: string, end: string)
    requires text != "" && w.safety(content + text).Allowed? && Stored(rest, w, content + text, end)
    ensures Stored([text] + rest, w, content, end)
  {
    var chunks := [text] + rest;
    ConcatFront(text, rest);
    assert content + (text + Concat(rest)) == content + text + Concat(rest);
    forall k | 0 < k <= |chunks| ensures w.safety(content + Concat(chunks[..k])).Allowed? {
      assert chunks[..k] == [text] + rest[..k - 1];
      ConcatFront(text, rest[..k - 1]);
      assert content + (text + Concat(rest[..k - 1])) == content + text + Concat(rest[..k - 1]);
      if k == 1 { assert content + text + Concat(rest[..0]) == content + text; }
    }
  }

  /** What ends up stored is exactly the written chunks, and every stored prefix passed the output check. */
  lemma {:induction false} WrittenIsStored(script: seq<Item>, w: World, content: string, usage: Usage,
                                           reason: FinishReason)
    requires Ends(script) && |content| <= MESSAGE_LIMIT
    ensures var end := Consume(script, w, content, usage, reason);
            Stored(Written(script, w, content), w, content, end.content) && |end.content| <= MESSAGE_LIMIT
    decreases |script|
  {
    var item := script[0];
    var text := content + item.text;
    if !Passes(item, w, content) {
      assert content + Concat([]) == content;
    } else {
      var u := if item.usage.Some? then item.usage.value else usage;
      var f := if item.finish.Some? then item.finish.value else reason;
      var rest := if item.next == More then Written(script[1..], w, text) else [];
      var end := Consume(script, w, content, usage, reason);
      assert item.text == "" ==> text == content;
      if item.next == More {
        WrittenIsStored(script[1..], w, text, u, f);
      } else {
        assert text + Concat([]) == text;
      }
      assert Stored(rest, w, text, end.content);
      assert Written(script, w, content) == AsChunk(item.text) + rest;
      if item.text != "" {
        StoredFront(item.text, rest, w, content, end.content);
      } else {
        assert AsChunk(item.text) + rest == rest;
      }
    }
  }

  /** A finished stream stored the provider's whole answer. */
  lemma {:induction false} FinishedMeansWhole(script: seq<Item>, w: World, content: string, usage: Usage,
                                              reason: FinishReason)
    requires Ends(script) && Consume(script, w, content, usage, reason).Finished?
    ensures Written(script, w, content) == Answer(script)
    decreases |script|
  {
    var item := script[0];
    if item.next != More {
    } else {
      FinishedMeansWhole(script[1..], w, content + item.text,
        if item.usage.Some? then item.usage.value else usage, if item.finish.Some? then item.finish.value else reason);
    }
  }

  // ------------------------------------------------------------ conclusion

  function EstimateAll(prompt: seq<string>): nat
  {
    if prompt == [] then 0 else EstimateAll(prompt[..|prompt| - 1]) + EstimateTokens(prompt[|prompt| - 1])
  }

  /** A prompt is estimated message by message. */
  lemma {:induction false} EstimatesAdd(a: seq<string>, b: seq<string>)
    ensures EstimateAll(a + b) == EstimateAll(a) + EstimateAll(b)
    ensures |a| == 1 ==> EstimateAll(a) == EstimateTokens(a[0])
  {
    if b == [] {
      assert a + b == a;
    } else {
      assert (a + b)[..|a + b| - 1] == a + b[..|b| - 1];
      EstimatesAdd(a, b[..|b| - 1]);
    }
    assert |a| == 1 ==> a[..0] == [];
  }

  /** Provider counts with the gaps estimated. A finished answer counts at least one output token. */
  function FinalUsage(end: End, prompt: seq<string>): Usage
  {
    var u := end.usage;
    var output :=
      if u.output == 0 && (end.content != "" || end.Finished?) then EstimateTokens(end.content) else u.output;
    var input := if u.input == 0 then EstimateAll(prompt) else u.input;
    Usage(input, output, u.cached)
  }

  function FinalStatus(end: End): GenerationStatus
  {
    match end
    case Finished(_, _, _) => Completed
    case Stopped(_, _) => Cancelled
    case _ => Failed
  }

  function FinalMessageStatus(end: End): R.MessageStatus
  {
    match end
    case Finished(_, _, _) => R.Complete
    case Stopped(_, _) => R.Cancelled
    case _ => R.Failed
  }

  function FinalReason(end: End): FinishReason
  {
    match end
    case Finished(_, _, reason) => reason
    case Stopped(_, _) => CancelledByUser
    case Broken(_, _, _) => Error
    case Refused(_, _) => Safety
  }

  datatype Event =
    | ChatStarted
    | ChatDelta(delta: R.DeltaPayload)
    | ChatCompleted
    | ChatCancelled(partialRetained: bool)
    | ChatFailed(retryable: bool, partialRetained: bool)

  function FinalEvent(end: End): Event
  {
    match end
    case Finished(_, _, _) => ChatCompleted
    case Stopped(content, _) => ChatCancelled(content != "")
    case Broken(content, _, problem) => ChatFailed(problem.retryable, content != "")
    case Refused(content, _) => ChatFailed(false, content != "")
  }

  function DeltaEvents(generation: Id, chunks: seq<string>): seq<Event>
  {
    seq(|chunks|, k requires 0 <= k < |chunks| => ChatDelta(R.DeltaPayload(generation, Offset(chunks, k), chunks[k])))
  }

  /** The amount handed to Settle. */
  function SettledAmount(u: Usage, reserved: int): int { Min(Int32(u.output), reserved) }

  /** Everything a generation's goroutine writes besides the quota tables. */
  datatype Rows = Rows(
    generation: Generation, message: Message, conversation: Conversation, events: seq<Event>, settlements: seq<int>)

  /** finish, fail and blockSafety on the rows. */
  function Conclude(rows: Rows, end: End, u: Usage, reserved: int): Rows
  {
    var retryable := end.Broken? && end.problem.retryable;
    Rows(FinalizeGeneration(rows.generation, FinalStatus(end), retryable, FinalReason(end), u, end.content),
         FinalizeMessage(rows.message, FinalMessageStatus(end)),
         SetGenerationState(rows.conversation, Idle),
         rows.events + [FinalEvent(end)],
         rows.settlements + [SettledAmount(u, reserved)])
  }

  function MarkGenerationStreaming(g: Generation): Generation
  {
    if g.status.Accepted? then g.(status := Streaming) else g
  }

  function CheckpointGeneration(g: Generation, content: string): Generation
  {
    if g.status.Streaming? && g.streamOffset <= Int32(ByteLength(content))
    then g.(streamOffset := Int32(ByteLength(content)), usage := g.usage.(output := Int32(EstimateTokens(content))))
    else g
  }

  /** The rows while streaming, once these chunks have been written. */
  function Midway(rows: Rows, id: Id, chunks: seq<string>): Rows
  {
    var g := MarkGenerationStreaming(rows.generation);
    Rows(if chunks == [] then g else CheckpointGeneration(g, Concat(chunks)),
         rows.message.(content := Concat(chunks)),
         SetGenerationState(rows.conversation, StreamingState),
         rows.events + [ChatStarted] + DeltaEvents(id, chunks),
         rows.settlements)
  }

  /**
   * A live reservation is settled by that amount exactly when the narrowed output count is not
   * negative; then the amount lies between 0 and what was reserved.
   */
  lemma SettlesIff(l: Q.Ledger, r: Q.Reservation, u: Usage, i: nat)
    requires Q.Conserved(l) && Q.Find(l.reservations, r.id) == Some(i)
    requires l.reservations[i].status.Reserved?
    requires l.reservations[i].actor == r.actor && l.reservations[i].reserved == r.reserved
    ensures var amount := SettledAmount(u, r.reserved);
            && (Q.Settle(l, r, amount).Ok? <==> Int32(u.output) >= 0)
            && (Int32(u.output) >= 0 ==>
                  0 <= amount <= r.reserved
                  && Q.Conserved(Q.Settle(l, r, amount).value)
                  && Q.Settle(l, r, amount).value.reservations[i].actual == Some(amount))
  {
    assert Q.RowOk(l, l.reservations[i]);
    if Int32(u.output) >= 0 { Q.SettleConserves(l, r, SettledAmount(u, r.reserved)); }
  }

  /** Provider counts below 2^31 always fit. */
  lemma OrdinaryCountsFit(u: Usage)
    requires 0 <= u.input < TWO_TO_31 && 0 <= u.output < TWO_TO_31 && 0 <= u.cached < TWO_TO_31
    ensures CountsFit(u) && Narrow(u) == u
  {
  }

  lemma {:induction false} ByteLengthBound(s: string)
    ensures ByteLength(s) <= 4 * |s|
  {
    if s == [] {
    } else {
      ByteLengthBound(s[..|s| - 1]);
    }
  }

  /** A stored message is short enough for its byte length to be recorded exactly. */
  lemma StoredOffsetExact(content: string)
    requires |content| <= MESSAGE_LIMIT
    ensures Int32(ByteLength(content)) == ByteLength(content)
  {
    ByteLengthBound(content);
  }

  /**
   * What is counted: the provider's own counts where it gave any, an estimate where it did not,
   * and never nothing for an answer that has text or finished.
   */
  lemma FinalUsageFacts(end: End, prompt: seq<string>)
    ensures var u := FinalUsage(end, prompt);
            && (end.usage.output != 0 ==> u.output == end.usage.output)
            && (end.usage.input != 0 ==> u.input == end.usage.input)
            && u.cached == end.usage.cached
            && (u.output == 0 <==> end.usage.output == 0 && end.content == "" && !end.Finished?)
            && (u.input == 0 <==> end.usage.input == 0 && prompt == [])
  {
    if prompt != [] {
      assert EstimateAll(prompt) >= 1;
    }
  }

  /** Generation, message and announced event tell the same story; only a broken run can be retried. */
  lemma EndsAgree(rows: Rows, end: End, u: Usage, reserved: int)
    requires Active(rows.generation.status) && rows.message.status.Pending? && CountsFit(u)
    ensures var done := Conclude(rows, end, u, reserved);
            var event := done.events[|rows.events|];
            && |done.events| == |rows.events| + 1
            && (done.generation.status.Completed? <==> done.message.status.Complete?)
            && (done.generation.status.Completed? <==> event.ChatCompleted?)
            && (done.generation.status.Cancelled? <==> done.message.status.Cancelled?)
            && (done.generation.status.Cancelled? <==> event.ChatCancelled?)
            && (done.generation.status.Failed? <==> done.message.status.Failed?)
            && (done.generation.status.Failed? <==> event.ChatFailed?)
            && (event.ChatFailed? ==> event.retryable == done.generation.retryable)
            && (done.generation.retryable ==> done.generation.status.Failed? && done.generation.reason == Some(Error))
            && (event.ChatCancelled? || event.ChatFailed? ==> (event.partialRetained <==> end.content != ""))
  {
  }

  /** What is left of the script from item i on gives what the whole of it gives. */
  ghost predicate Ahead(script: seq<Item>, w: World, i: nat, chunks: seq<string>,
                        content: string, usage: Usage, reason: FinishReason)
    requires Ends(script) && i < |script|
  {
    && Consume(script, w, "", Usage(0, 0, 0), Stop) == Consume(script[i..], w, content, usage, reason)
    && Written(script, w, "") == chunks + Written(script[i..], w, content)
  }

  /** How one item of the loop moves on, or ends it. */
  lemma AheadStep(script: seq<Item>, w: World, i: nat, chunks: seq<string>,
                  content: string, usage: Usage, reason: FinishReason)
    requires Ends(script) && i < |script| && Ahead(script, w, i, chunks, content, usage, reason)
    ensures var item := script[i];
            var u := if item.usage.Some? then item.usage.value else usage;
            var f := if item.finish.Some? then item.finish.value else reason;
            var text, longer := content + item.text, chunks + AsChunk(item.text);
            if !Passes(item, w, content) then
              && Consume(script, w, "", Usage(0, 0, 0), Stop) == Failure(item, w, content, u)
              && Written(script, w, "") == chunks
            else if item.next.More? then i + 1 < |script| && Ahead(script, w, i + 1, longer, text, u, f)
            else
              && Written(script, w, "") == longer
              && Consume(script, w, "", Usage(0, 0, 0), Stop) == Ending(item.next, text, u, f)
  {
    WrittenStep(script[i..], w, content, chunks);
    assert script[i..][1..] == script[i + 1..];
  }

  lemma ChunkTaken(chunks: seq<string>, content: string, text: string)
    requires content == Concat(chunks)
    ensures Concat(chunks + AsChunk(text)) == content + text
  {
    if text == "" {
      assert chunks + AsChunk(text) == chunks;
    } else {
      ConcatAppend(chunks, text);
    }
  }

  /** How far the run got before the provider's stream, if it got there at all. */
  datatype Opening = NotMarked(problem: Problem) | NotConnected(problem: Problem) | Open(script: seq<Item>)

  predicate OpeningOk(o: Opening) { o.Open? ==> Ends(o.script) }

  function RunEnd(o: Opening, w: World): End
    requires OpeningOk(o)
  {
    match o
    case Open(script) => Consume(script, w, "", Usage(0, 0, 0), Stop)
    case NotMarked(p) => Broken("", Usage(0, 0, 0), p)
    case NotConnected(p) => Broken("", Usage(0, 0, 0), p)
  }

  function RunChunks(o: Opening, w: World): seq<string>
    requires OpeningOk(o)
  {
    if o.Open? then Written(o.script, w, "") else []
  }

  /** The whole goroutine on the rows. */
  function RunRows(rows: Rows, id: Id, reserved: int, prompt: seq<string>, o: Opening, w: World): Rows
    requires OpeningOk(o)
  {
    var end := RunEnd(o, w);
    Conclude(if o.NotMarked? then rows else Midway(rows, id, RunChunks(o, w)), end, FinalUsage(end, prompt), reserved)
  }

  /** The rows as accept leaves them. */
  predicate Fresh(rows: Rows)
  {
    rows.generation == Generation(Accepted, false, None, Usage(0, 0, 0), 0) && rows.message == Message("", R.Pending)
  }

  /** What a run stored: the chunks it announced, every prefix of them checked, all of them if it finished. */
  lemma RunStores(o: Opening, w: World)
    requires OpeningOk(o)
    ensures var end, chunks := RunEnd(o, w), RunChunks(o, w);
            && end.content == Concat(chunks) && |end.content| <= MESSAGE_LIMIT
            && R.NonEmpty(chunks)
            && (forall k :: 0 < k <= |chunks| ==> w.safety(Concat(chunks[..k])).Allowed?)
            && (end.Finished? ==> o.Open? && chunks == Answer(o.script))
  {
    if o.Open? {
      var chunks := RunChunks(o, w);
      WrittenIsStored(o.script, w, "", Usage(0, 0, 0), Stop);
      assert "" + Concat(chunks) == Concat(chunks);
      forall k | 0 < k <= |chunks| ensures w.safety(Concat(chunks[..k])).Allowed? {
        assert "" + Concat(chunks[..k]) == Concat(chunks[..k]);
      }
      if RunEnd(o, w).Finished? { FinishedMeansWhole(o.script, w, "", Usage(0, 0, 0), Stop); }
    }
  }

  lemma ConcludeCloses(mid: Rows, end: End, u: Usage, reserved: int)
    requires Active(mid.generation.status) && mid.message == Message(end.content, R.Pending)
    requires |end.content| <= MESSAGE_LIMIT
    ensures var done := Conclude(mid, end, u, reserved);
            && done.message == Message(end.content, FinalMessageStatus(end)) && FinalMessageStatus(end) != R.Pending
            && (!done.conversation.deleted ==> done.conversation.state == Idle)
            && (!Active(done.generation.status) <==> CountsFit(u))
            && (CountsFit(u) ==> done.generation.status == FinalStatus(end)
                                 && done.generation.usage == Narrow(u)
                                 && done.generation.streamOffset == ByteLength(end.content))
  {
    StoredOffsetExact(end.content);
  }

  /**
   * When a run returns, whatever the provider, the safety check and the row writes did: the stored
   * content is the chunks its deltas announced, each at its byte offset and each prefix checked;
   * one terminal event and one settlement were made; message, generation and conversation agree,
   * and the generation is terminal, with the stored length, exactly when its counts fit.
   */
  lemma RunOutcome(rows: Rows, id: Id, reserved: int, prompt: seq<string>, o: Opening, w: World)
    requires Fresh(rows) && OpeningOk(o)
    ensures var done := RunRows(rows, id, reserved, prompt, o, w);
            var end, chunks := RunEnd(o, w), RunChunks(o, w);
            var u := FinalUsage(end, prompt);
            && done.message == Message(Concat(chunks), FinalMessageStatus(end)) && FinalMessageStatus(end) != R.Pending
            && R.NonEmpty(chunks)
            && (forall k :: 0 < k <= |chunks| ==> w.safety(Concat(chunks[..k])).Allowed?)
            && (end.Finished? ==> o.Open? && chunks == Answer(o.script))
            && done.events == (if o.NotMarked? then rows.events
                               else rows.events + [ChatStarted] + DeltaEvents(id, chunks))
                              + [FinalEvent(end)]
            && done.settlements == rows.settlements + [SettledAmount(u, reserved)]
            && (!done.conversation.deleted ==> done.conversation.state == Idle)
            && (!Active(done.generation.status) <==> CountsFit(u))
            && (CountsFit(u) ==> done.generation.status == FinalStatus(end)
                                 && done.generation.usage == Narrow(u)
                                 && done.generation.streamOffset == ByteLength(done.message.content))
  {
    RunStores(o, w);
    var end := RunEnd(o, w);
    var mid := if o.NotMarked? then rows else Midway(rows, id, RunChunks(o, w));
    ConcludeCloses(mid, end, FinalUsage(end, prompt), reserved);
  }

  /** One chunk, then the end of the stream with an output count that does not fit an int32. */
  const OVERLONG: seq<Item> := [Item("hi", Some(Usage(1, TWO_TO_31, 0)), Some(Stop), Eof)]

  /**
   * A run that strands its rows: the message is complete and the conversation idle, the generation
   * is still active, and its settlement is refused, so the reservation stays as it was.
   */
  lemma OverlongCountStrands(rows: Rows, id: Id, prompt: seq<string>, l: Q.Ledger, r: Q.Reservation)
    requires Fresh(rows) && !rows.conversation.deleted && r.reserved > 0
    ensures var done := RunRows(rows, id, r.reserved, prompt, Open(OVERLONG), World(_ => Allowed, _ => None));
            && done.message == Message("hi", R.Complete) && done.conversation.state == Idle
            && done.generation.status == Streaming
            && done.settlements == rows.settlements + [-TWO_TO_31]
            && Q.Settle(l, r, -TWO_TO_31) == Err(Q.Invalid) && Q.AfterSettle(l, r, -TWO_TO_31) == l
  {
    var w := World(_ => Allowed, _ => None);
    var o := Open(OVERLONG);
    assert "" + "hi" == "hi";
    assert RunEnd(o, w) == Finished("hi", Usage(1, TWO_TO_31, 0), Stop);
    assert RunChunks(o, w) == ["hi"];
    assert ["hi"][..0] == [] && Concat(["hi"]) == "" + "hi";
    assert Int32(TWO_TO_31) == -TWO_TO_31;
  }

  /** The deltas of a run are the ones the browser's reducer is proved against. */
  lemma DeltasAreGenuine(id: Id, chunks: seq<string>)
    ensures |DeltaEvents(id, chunks)| == |chunks|
    ensures forall k :: 0 <= k < |chunks| ==> DeltaEvents(id, chunks)[k] == ChatDelta(R.Deltas(id, chunks)[k])
  {
  }

  // --------------------------------------------------------------- the run

  class Run {
    const id: Id
    const reservation: Q.Reservation
    const prompt: seq<string>
    const quota: QS.Service
    var generation: Generation
    var message: Message
    var conversation: Conversation
    var events: seq<Event>
    var settlements: seq<int>   // every amount passed to Settle

    constructor (id: Id, reservation: Q.Reservation, prompt: seq<string>, quota: QS.Service)
      ensures this.id == id && this.reservation == reservation && this.prompt == prompt && this.quota == quota
      ensures Fresh(View()) && conversation == Conversation(AcceptedState, false) && events == [] && settlements == []
    {
      this.id, this.reservation, this.prompt, this.quota := id, reservation, prompt, quota;
      generation := Generation(Accepted, false, None, Usage(0, 0, 0), 0);
      message := Message("", R.Pending);
      conversation := Conversation(AcceptedState, false);
      events, settlements := [], [];
    }

    ghost function View(): Rows reads this { Rows(generation, message, conversation, events, settlements) }

    /** The loop that fills in missing input counts. */
    method FillInput(usage: Usage) returns (filled: Usage)
      ensures filled == usage.(input := if usage.input == 0 then EstimateAll(prompt) else usage.input)
    {
      filled := usage;
      if usage.input == 0 {
        for i := 0 to |prompt|
          invariant filled == usage.(input := EstimateAll(prompt[..i]))
        {
          assert prompt[..i + 1][..i] == prompt[..i];
          filled := filled.(input := filled.input + EstimateTokens(prompt[i]));
        }
        assert prompt[..|prompt|] == prompt;
      }
    }

    /** The statements finish, fail and blockSafety have in common. */
    method Close(end: End, u: Usage, retryable: bool, now: int)
      requires retryable == (end.Broken? && end.problem.retryable)
      modifies this, quota
      ensures View() == Conclude(old(View()), end, u, reservation.reserved)
      ensures quota.View() == Q.AfterSettle(old(quota.View()), reservation, SettledAmount(u, reservation.reserved))
      ensures quota.leases == L.ReleaseLease(old(quota.leases), reservation.actor.id, reservation.owner, now)
    {
      generation := FinalizeGeneration(generation, FinalStatus(end), retryable, FinalReason(end), u, end.content);
      message := FinalizeMessage(message, FinalMessageStatus(end));
      conversation := SetGenerationState(conversation, Idle);
      var actual := SettledAmount(u, reservation.reserved);
      var _ := quota.Settle(reservation, actual, now);
      settlements := settlements + [actual];
      events := events + [FinalEvent(end)];
    }

    method Finish(end: End, now: int)
      requires end.Stopped? || (end.Finished? && (end.usage.output != 0 || end.content != ""))
      modifies this, quota
      ensures View() == Conclude(old(View()), end, FinalUsage(end, prompt), reservation.reserved)
      ensures quota.View() ==
              Q.AfterSettle(old(quota.View()), reservation,
                            SettledAmount(FinalUsage(end, prompt), reservation.reserved))
      ensures quota.leases == L.ReleaseLease(old(quota.leases), reservation.actor.id, reservation.owner, now)
    {
      var u := end.usage;
      if u.output == 0 && end.content != "" {
        u := u.(output := EstimateTokens(end.content));
      }
      u := FillInput(u);
      Close(end, u, false, now);
    }

    method BlockSafety(content: string, usage: Usage, now: int)
      modifies this, quota
      ensures var end := Refused(content, usage);
              && View() == Conclude(old(View()), end, FinalUsage(end, prompt), reservation.reserved)
              && quota.View() ==
                 Q.AfterSettle(old(quota.View()), reservation,
                               SettledAmount(FinalUsage(end, prompt), reservation.reserved))
      ensures quota.leases == L.ReleaseLease(old(quota.leases), reservation.actor.id, reservation.owner, now)
    {
      var u := usage;
      if u.output == 0 && content != "" {
        u := u.(output := EstimateTokens(content));
      }
      u := FillInput(u);
      Close(Refused(content, usage), u, false, now);
    }

    /** fail goes by the stored message, not by the caller's buffer. */
    method Fail(problem: Problem, usage: Usage, now: int)
      modifies this, quota
      ensures var end := Broken(old(message.content), usage, problem);
              && View() == Conclude(old(View()), end, FinalUsage(end, prompt), reservation.reserved)
              && quota.View() ==
                 Q.AfterSettle(old(quota.View()), reservation,
                               SettledAmount(FinalUsage(end, prompt), reservation.reserved))
      ensures quota.leases == L.ReleaseLease(old(quota.leases), reservation.actor.id, reservation.owner, now)
    {
      var stored := message.content;
      var u := usage;
      if u.output == 0 && stored != "" {
        u := u.(output := EstimateTokens(stored));
      }
      u := FillInput(u);
      Close(Broken(stored, usage, problem), u, problem.retryable, now);
    }

    method Begin()
      requires Fresh(View())
      modifies this
      ensures View() == Midway(old(View()), id, [])
    {
      generation := MarkGenerationStreaming(generation);
      conversation := SetGenerationState(conversation, StreamingState);
      events := events + [ChatStarted];
      assert events + DeltaEvents(id, []) == events;
    }

    /** Store one checked chunk, checkpoint it and announce it at the offset before it. */
    method WriteChunk(ghost rows: Rows, ghost chunks: seq<string>, content: string, text: string)
      requires Fresh(rows) && View() == Midway(rows, id, chunks) && content == Concat(chunks)
      requires text != "" && |content + text| <= MESSAGE_LIMIT
      modifies this
      ensures View() == Midway(rows, id, chunks + [text])
    {
      MidwayStep(rows, id, chunks, text);
      var offset := ByteLength(content);
      message := message.(content := message.content + text);
      generation := CheckpointGeneration(generation, content + text);
      events := events + [ChatDelta(R.DeltaPayload(id, offset, text))];
    }

    /** The text of one item: checked, stored and announced, or the loop is over. */
    method Take(item: Item, w: World, ghost rows: Rows, ghost chunks: seq<string>, content: string, usage: Usage)
      returns (stop: Option<End>)
      requires Fresh(rows) && View() == Midway(rows, id, chunks) && content == Concat(chunks)
      modifies this
      ensures stop.None? <==> Passes(item, w, content)
      ensures stop.None? ==> View() == Midway(rows, id, chunks + AsChunk(item.text))
      ensures stop.Some? ==> View() == old(View()) && stop.value == Failure(item, w, content, usage)
    {
      if item.text == "" {
        assert chunks + AsChunk(item.text) == chunks;
        return None;
      }
      var text := content + item.text;
      var verdict := w.safety(text);
      if verdict.Unavailable? {
        return Some(Broken(content, usage, verdict.problem));
      }
      if verdict.Blocked? {
        return Some(Refused(content, usage));
      }
      var error := WriteError(w, text);
      if error.Some? {
        return Some(Broken(content, usage, error.value));
      }
      WriteChunk(rows, chunks, content, item.text);
      stop := None;
    }

    /**
     * The streaming loop: the buffer, the stored message and the announced deltas agree at every
     * step. It returns what it leaves for finish, fail or blockSafety to conclude.
     */
    method Pump(script: seq<Item>, w: World, ghost rows: Rows) returns (end: End)
      requires Ends(script) && Fresh(rows) && View() == Midway(rows, id, [])
      modifies this
      ensures end == Consume(script, w, "", Usage(0, 0, 0), Stop)
      ensures View() == Midway(rows, id, Written(script, w, ""))
    {
      var content, usage, reason := "", Usage(0, 0, 0), Stop;
      ghost var chunks: seq<string> := [];
      var i := 0;
      while true
        invariant 0 <= i < |script|
        invariant View() == Midway(rows, id, chunks) && content == Concat(chunks)
        invariant Ahead(script, w, i, chunks, content, usage, reason)
        decreases |script| - i
      {
        var item := script[i];
        AheadStep(script, w, i, chunks, content, usage, reason);
        if item.usage.Some? {
          usage := item.usage.value;
        }
        if item.finish.Some? {
          reason := item.finish.value;
        }
        var stop := Take(item, w, rows, chunks, content, usage);
        if stop.Some? {
          return stop.value;
        }
        ChunkTaken(chunks, content, item.text);
        chunks := chunks + AsChunk(item.text);
        content := content + item.text;
        match item.next {
          case More => i := i + 1;
          case Eof => return Finished(content, usage, reason);
          case Canceled => return Stopped(content, usage);
          case Broke(problem) => return Broken(content, usage, problem);
        }
      }
    }

    /** stream: exactly one of finish, fail and blockSafety concludes the run. */
    method Stream(opening: Opening, w: World, now: int)
      requires OpeningOk(opening) && Fresh(View())
      modifies this, quota
      ensures View() == RunRows(old(View()), id, reservation.reserved, prompt, opening, w)
      ensures quota.View() ==
              Q.AfterSettle(old(quota.View()), reservation,
                            SettledAmount(FinalUsage(RunEnd(opening, w), prompt), reservation.reserved))
      ensures quota.leases == L.ReleaseLease(old(quota.leases), reservation.actor.id, reservation.owner, now)
    {
      ghost var rows := View();
      if opening.NotMarked? {
        Fail(opening.problem, Usage(0, 0, 0), now);
        return;
      }
      Begin();
      if opening.NotConnected? {
        Fail(opening.problem, Usage(0, 0, 0), now);
        return;
      }
      RunStores(opening, w);
      var end := Pump(opening.script, w, rows);
      match end {
        case Finished(content, usage, reason) =>
          var counted := if usage.output == 0 then usage.(output := EstimateTokens(content)) else usage;
          Finish(Finished(content, counted, reason), now);
        case Stopped(_, _) => Finish(end, now);
        case Broken(_, usage, problem) => Fail(problem, usage, now);
        case Refused(content, usage) => BlockSafety(content, usage, now);
      }
    }
  }

  /** Writing one more chunk takes the midway rows to the next midway rows. */
  lemma MidwayStep(rows: Rows, id: Id, chunks: seq<string>, chunk: string)
    requires Fresh(rows) && chunk != "" && |Concat(chunks) + chunk| <= MESSAGE_LIMIT
    ensures var mid, next := Midway(rows, id, chunks), Midway(rows, id, chunks + [chunk]);
            && next.message.content == mid.message.content + chunk == Concat(chunks + [chunk])
            && next.generation == CheckpointGeneration(mid.generation, Concat(chunks) + chunk)
            && next.events == mid.events + [ChatDelta(R.DeltaPayload(id, ByteLength(Concat(chunks)), chunk))]
  {
    ConcatAppend(chunks, chunk);
    CheckpointTwice(MarkGenerationStreaming(rows.generation), Concat(chunks), chunk);
    DeltaEventsSnoc(id, chunks, chunk);
    var event := ChatDelta(R.DeltaPayload(id, ByteLength(Concat(chunks)), chunk));
    assert rows.events + [ChatStarted] + (DeltaEvents(id, chunks) + [event]) ==
           rows.events + [ChatStarted] + DeltaEvents(id, chunks) + [event];
  }

  /** A later checkpoint replaces an earlier one. */
  lemma CheckpointTwice(g: Generation, content: string, chunk: string)
    requires |content + chunk| <= MESSAGE_LIMIT
    ensures Int32(ByteLength(content + chunk)) >= 0
    ensures g.streamOffset == 0 ==>
      CheckpointGeneration(CheckpointGeneration(g, content), content + chunk)
      == CheckpointGeneration(g, content + chunk)
  {
    ByteLengthAdds(content, chunk);
    StoredOffsetExact(content);
    StoredOffsetExact(content + chunk);
  }

  lemma DeltaEventsSnoc(id: Id, chunks: seq<string>, chunk: string)
    ensures DeltaEvents(id, chunks + [chunk]) ==
            DeltaEvents(id, chunks) + [ChatDelta(R.DeltaPayload(id, ByteLength(Concat(chunks)), chunk))]
  {
    var longer := chunks + [chunk];
    assert longer[..|chunks|] == chunks;
    forall k | 0 <= k < |chunks| ensures DeltaEvents(id, longer)[k] == DeltaEvents(id, chunks)[k] {
      assert longer[..k] == chunks[..k];
    }
  }
}
