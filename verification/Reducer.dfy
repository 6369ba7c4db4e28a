/** The browser's message list under streaming events (streaming-reducer.ts). */
module Reducer {
  import opened Basics
  import opened Text

  datatype MessageStatus = Pending | Complete | Cancelled | Failed

  datatype Message = Message(
    id: Id, conversationId: Id, content: string, status: MessageStatus, sequence: nat, generationId: Option<Id>)

  datatype StartedPayload = StartedPayload(assistantMessageId: Id, generationId: Id, conversationId: Id)
  datatype DeltaPayload = DeltaPayload(generationId: Id, offset: nat, text: string)

  function StartAssistant(messages: seq<Message>, p: StartedPayload): seq<Message>
  {
    if exists i :: 0 <= i < |messages| && messages[i].id == p.assistantMessageId then messages
    else messages + [Message(p.assistantMessageId, p.conversationId, "", Pending, |messages| + 1, Some(p.generationId))]
  }

  function AppendOne(m: Message, p: DeltaPayload): Message
  {
    if m.generationId != Some(p.generationId) || p.offset != ByteLength(m.content) then m
    else m.(content := m.content + p.text)
  }

  function AppendDelta(messages: seq<Message>, p: DeltaPayload): seq<Message>
  {
    seq(|messages|, i requires 0 <= i < |messages| => AppendOne(messages[i], p))
  }

  function FinishAssistant(messages: seq<Message>, generation: Id, status: MessageStatus): seq<Message>
  {
    seq(|messages|, i requires 0 <= i < |messages| =>
      if messages[i].generationId == Some(generation) then messages[i].(status := status) else messages[i])
  }

  // ------------------------------------------------------- what the server sends

  /** The deltas of an answer streamed in these chunks. */
  function Deltas(generation: Id, chunks: seq<string>): seq<DeltaPayload>
  {
    seq(|chunks|, k requires 0 <= k < |chunks| => DeltaPayload(generation, Offset(chunks, k), chunks[k]))
  }

  /** The server's answers: generation to non-empty chunks. */
  type Answers = map<Id, seq<string>>

  predicate NonEmpty(chunks: seq<string>) { forall j :: 0 <= j < |chunks| ==> chunks[j] != "" }

  /** One event as the network happens to deliver it: dropped, repeated and reordered at will. */
  datatype Delivery =
    | Started(payload: StartedPayload)
    | Chunk(generation: Id, index: nat)
    | Finished(generation: Id, status: MessageStatus)

  predicate Genuine(answers: Answers, d: Delivery)
  {
    d.Chunk? ==> d.generation in answers && d.index < |answers[d.generation]|
  }

  function Handle(messages: seq<Message>, answers: Answers, d: Delivery): seq<Message>
    requires Genuine(answers, d)
  {
    match d
    case Started(p) => StartAssistant(messages, p)
    case Chunk(g, i) => AppendDelta(messages, Deltas(g, answers[g])[i])
    case Finished(g, status) => FinishAssistant(messages, g, status)
  }

  function HandleAll(messages: seq<Message>, answers: Answers, ds: seq<Delivery>): seq<Message>
    requires forall k :: 0 <= k < |ds| ==> Genuine(answers, ds[k])
  {
    if ds == [] then messages
    else Handle(HandleAll(messages, answers, ds[..|ds| - 1]), answers, ds[|ds| - 1])
  }

  // ------------------------------------------------------------ chunk counting

  /** Abstractly the client counts chunks: the next one advances it, every other one is ignored. */
  function Advance(position: nat, index: nat): nat { if index == position then position + 1 else position }

  function Position(start: nat, indices: seq<nat>): nat
  {
    if indices == [] then start
    else Advance(Position(start, indices[..|indices| - 1]), indices[|indices| - 1])
  }

  /** The chunk numbers of one generation in order of delivery. */
  function Indices(ds: seq<Delivery>, generation: Id): seq<nat>
  {
    if ds == [] then []
    else
      Indices(ds[..|ds| - 1], generation)
      + match ds[|ds| - 1]
        case Chunk(g, i) => if g == generation then [i] else []
        case _ => []
  }

  lemma AppendAdvances(m: Message, generation: Id, chunks: seq<string>, position: nat, index: nat)
    requires NonEmpty(chunks) && position <= |chunks| && index < |chunks|
    requires m.generationId == Some(generation) && m.content == Concat(chunks[..position])
    ensures Advance(position, index) <= |chunks|
    ensures AppendOne(m, Deltas(generation, chunks)[index]).content == Concat(chunks[..Advance(position, index)])
  {
    if index < position {
      OffsetsIncrease(chunks, index, position);
    } else if index > position {
      OffsetsIncrease(chunks, position, index);
    } else {
      assert chunks[..position + 1][..position] == chunks[..position];
    }
  }

  /** Message j shows the first `position` chunks of its generation. */
  predicate Shows(messages: seq<Message>, j: nat, id: Id, generation: Id, chunks: seq<string>, position: nat)
  {
    && j < |messages| && messages[j].id == id && messages[j].generationId == Some(generation)
    && position <= |chunks| && messages[j].content == Concat(chunks[..position])
  }

  lemma OneDelivery(messages: seq<Message>, answers: Answers, ds: seq<Delivery>, j: nat, id: Id, generation: Id,
                    start: nat)
    requires ds != [] && Genuine(answers, ds[|ds| - 1])
    requires generation in answers && NonEmpty(answers[generation])
    requires Shows(messages, j, id, generation, answers[generation],
                   Position(start, Indices(ds[..|ds| - 1], generation)))
    ensures var position := Position(start, Indices(ds, generation));
            && position >= Position(start, Indices(ds[..|ds| - 1], generation))
            && Shows(Handle(messages, answers, ds[|ds| - 1]), j, id, generation, answers[generation], position)
  {
    var indices, d := Indices(ds[..|ds| - 1], generation), ds[|ds| - 1];
    if d.Chunk? && d.generation == generation {
      AppendAdvances(messages[j], generation, answers[generation], Position(start, indices), d.index);
      assert (indices + [d.index])[..|indices|] == indices;
    } else {
      assert indices + [] == indices;
    }
  }

  /**
   * Client text is always a prefix of the server's, at a chunk boundary: under any deliveries for
   * any generations, message j shows exactly the chunks its generation has counted so far.
   */
  lemma {:induction false} ClientShowsPrefix(messages: seq<Message>, answers: Answers, ds: seq<Delivery>,
                                             j: nat, generation: Id, start: nat)
    requires forall k :: 0 <= k < |ds| ==> Genuine(answers, ds[k])
    requires generation in answers && NonEmpty(answers[generation])
    requires j < |messages| && Shows(messages, j, messages[j].id, generation, answers[generation], start)
    ensures var position := Position(start, Indices(ds, generation));
            && start <= position
            && Shows(HandleAll(messages, answers, ds), j, messages[j].id, generation, answers[generation], position)
  {
    if ds == [] {
    } else {
      var before := ds[..|ds| - 1];
      ClientShowsPrefix(messages, answers, before, j, generation, start);
      OneDelivery(HandleAll(messages, answers, before), answers, ds, j, messages[j].id, generation, start);
    }
  }

  /** At most the chunk boundary reached is a textual prefix of the whole answer. */
  lemma {:induction false} BoundaryIsPrefix(chunks: seq<string>, k: nat)
    requires k <= |chunks|
    ensures Concat(chunks[..k]) <= Concat(chunks)
    decreases |chunks|
  {
    if k == |chunks| {
      assert chunks[..k] == chunks;
    } else {
      var n := |chunks| - 1;
      assert chunks[..n][..k] == chunks[..k];
      BoundaryIsPrefix(chunks[..n], k);
      assert Concat(chunks) == Concat(chunks[..n]) + chunks[n];
    }
  }

  // ---------------------------------------------------------- full delivery

  predicate Subsequence(a: seq<nat>, b: seq<nat>)
  {
    a == []
    || (b != [] && a[|a| - 1] == b[|b| - 1] && Subsequence(a[..|a| - 1], b[..|b| - 1]))
    || (b != [] && Subsequence(a, b[..|b| - 1]))
  }

  function UpTo(n: nat): seq<nat> { if n == 0 then [] else UpTo(n - 1) + [n - 1] }

  /** The client has counted n chunks exactly when 0, 1, .., n-1 were delivered in this order, with anything between. */
  lemma {:induction false} PositionIsSubsequence(indices: seq<nat>, n: nat)
    ensures Position(0, indices) >= n <==> Subsequence(UpTo(n), indices)
  {
    if indices == [] || n == 0 {
    } else {
      var front := indices[..|indices| - 1];
      PositionIsSubsequence(front, n);
      PositionIsSubsequence(front, n - 1);
      assert UpTo(n)[..n - 1] == UpTo(n - 1) by { UpToLength(n - 1); }
      UpToLength(n);
    }
  }

  lemma {:induction false} UpToLength(n: nat)
    ensures |UpTo(n)| == n
  {
    if n == 0 {
    } else {
      UpToLength(n - 1);
    }
  }

  lemma ConcatProper(chunks: seq<string>, k: nat)
    requires NonEmpty(chunks) && k < |chunks|
    ensures Concat(chunks[..k]) != Concat(chunks)
  {
    assert chunks[..|chunks|] == chunks;
    OffsetsIncrease(chunks, k, |chunks|);
  }

  /**
   * A message started empty ends with the full answer exactly when its chunks were delivered in
   * order, whatever repeats, stragglers and other generations came in between.
   */
  lemma FullAnswerIff(messages: seq<Message>, answers: Answers, ds: seq<Delivery>, j: nat, generation: Id)
    requires forall k :: 0 <= k < |ds| ==> Genuine(answers, ds[k])
    requires generation in answers && NonEmpty(answers[generation])
    requires j < |messages| && messages[j].generationId == Some(generation) && messages[j].content == ""
    ensures var after := HandleAll(messages, answers, ds);
            && j < |after| && after[j].content <= Concat(answers[generation])
            && (after[j].content == Concat(answers[generation])
                <==> Subsequence(UpTo(|answers[generation]|), Indices(ds, generation)))
  {
    var chunks := answers[generation];
    var position := Position(0, Indices(ds, generation));
    ClientShowsPrefix(messages, answers, ds, j, generation, 0);
    BoundaryIsPrefix(chunks, position);
    PositionIsSubsequence(Indices(ds, generation), |chunks|);
    if position < |chunks| {
      ConcatProper(chunks, position);
    } else {
      assert chunks[..position] == chunks;
    }
  }

  /** Starting twice changes nothing, and a started message is empty and pending. */
  lemma StartIsIdempotent(messages: seq<Message>, p: StartedPayload)
    ensures StartAssistant(StartAssistant(messages, p), p) == StartAssistant(messages, p)
    ensures messages <= StartAssistant(messages, p)
  {
    var once := StartAssistant(messages, p);
    if once != messages {
      assert once[|messages|].id == p.assistantMessageId;
    }
  }

  /**
   * From nothing: a message that chat.started creates ends, after any deliveries, with a prefix of
   * its answer, and with the whole of it exactly when the chunks arrived in order.
   */
  lemma StartedMessageFollowsAnswer(messages: seq<Message>, p: StartedPayload, answers: Answers, ds: seq<Delivery>)
    requires forall i :: 0 <= i < |messages| ==> messages[i].id != p.assistantMessageId
    requires p.generationId in answers && NonEmpty(answers[p.generationId])
    requires forall k :: 0 <= k < |ds| ==> Genuine(answers, ds[k])
    ensures var answer := answers[p.generationId];
            var after, j := HandleAll(StartAssistant(messages, p), answers, ds), |messages|;
            && j < |after| && after[j].id == p.assistantMessageId && after[j].content <= Concat(answer)
            && (after[j].content == Concat(answer) <==> Subsequence(UpTo(|answer|), Indices(ds, p.generationId)))
            && after[j].status == LastStatus(ds, p.generationId, Pending)
  {
    var started := StartAssistant(messages, p);
    assert answers[p.generationId][..0] == [];
    ClientShowsPrefix(started, answers, ds, |messages|, p.generationId, 0);
    FullAnswerIff(started, answers, ds, |messages|, p.generationId);
    StatusFollowsLastFinish(started, answers, ds, |messages|, p.generationId);
  }

  /** The status of the last terminal event delivered for the generation. */
  function LastStatus(ds: seq<Delivery>, generation: Id, initial: MessageStatus): MessageStatus
  {
    if ds == [] then initial
    else
      match ds[|ds| - 1]
      case Finished(g, status) => if g == generation then status else LastStatus(ds[..|ds| - 1], generation, initial)
      case _ => LastStatus(ds[..|ds| - 1], generation, initial)
  }

  lemma {:induction false} StatusFollowsLastFinish(messages: seq<Message>, answers: Answers, ds: seq<Delivery>,
                                                   j: nat, generation: Id)
    requires forall k :: 0 <= k < |ds| ==> Genuine(answers, ds[k])
    requires j < |messages| && messages[j].generationId == Some(generation)
    ensures var after := HandleAll(messages, answers, ds);
            && j < |after| && after[j].generationId == Some(generation)
            && after[j].status == LastStatus(ds, generation, messages[j].status)
  {
    if ds == [] {
    } else {
      assert Genuine(answers, ds[|ds| - 1]);
      StatusFollowsLastFinish(messages, answers, ds[..|ds| - 1], j, generation);
    }
  }

  predicate Mentions(d: Delivery, generation: Id) { !d.Started? && d.generation == generation }

  /** A message whose generation no event names stays exactly as it was. */
  lemma {:induction false} BystandersUnchanged(messages: seq<Message>, answers: Answers, ds: seq<Delivery>, j: nat)
    requires forall k :: 0 <= k < |ds| ==> Genuine(answers, ds[k])
    requires j < |messages|
    requires messages[j].generationId.Some? ==>
               forall k :: 0 <= k < |ds| ==> !Mentions(ds[k], messages[j].generationId.value)
    ensures j < |HandleAll(messages, answers, ds)| && HandleAll(messages, answers, ds)[j] == messages[j]
  {
    if ds == [] {
    } else {
      var d := ds[|ds| - 1];
      assert Genuine(answers, d);
      assert messages[j].generationId.Some? ==> !Mentions(d, messages[j].generationId.value);
      BystandersUnchanged(messages, answers, ds[..|ds| - 1], j);
    }
  }
}
