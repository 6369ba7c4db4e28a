/** The rows of one conversation and the transactions of accept and Retry over them. */
module Conversations {
  import opened Basics
  import S = Streaming
  import R = Reducer
  import T = Text

  datatype Role = UserRole | AssistantRole

  datatype Message = Message(id: Id, role: Role, content: string, status: R.MessageStatus, sequence: int)

  datatype Generation = Generation(
    id: Id, key: string, userMessage: Id, assistantMessage: Id, parent: Option<Id>, model: Id,
    reservation: Id, status: S.GenerationStatus, retryable: bool)

  datatype Conversation = Conversation(
    state: S.GenerationState, deleted: bool, model: Id, messages: seq<Message>, generations: seq<Generation>)

  datatype TxError = NoRows | Conflict | Database

  predicate Active(g: Generation) { S.Active(g.status) }

  // ------------------------------------------------------------ statements

  /** COALESCE(MAX(sequence), 0) + 1 */
  function NextMessageSequence(messages: seq<Message>): int { Highest(messages) + 1 }

  function Highest(messages: seq<Message>): int
  {
    if messages == [] then 0 else Max(Highest(messages[..|messages| - 1]), messages[|messages| - 1].sequence)
  }

  predicate HasMessage(messages: seq<Message>, id: Id, sequence: int)
  {
    exists i :: 0 <= i < |messages| && (messages[i].id == id || messages[i].sequence == sequence)
  }

  /** The CHECK on the content, the primary key and UNIQUE (conversation_id, sequence). */
  function CreateMessage(messages: seq<Message>, m: Message): Result<seq<Message>, TxError>
  {
    if |m.content| > S.MESSAGE_LIMIT || HasMessage(messages, m.id, m.sequence) then Err(Database)
    else Ok(messages + [m])
  }

  function FindKey(generations: seq<Generation>, key: string): (i: Option<nat>)
    ensures i.Some? ==> i.value < |generations| && generations[i.value].key == key
    ensures i.None? ==> forall k :: 0 <= k < |generations| ==> generations[k].key != key
  {
    IndexOf(generations, (row: Generation) => row.key == key)
  }

  predicate AnyActive(generations: seq<Generation>)
  {
    exists i :: 0 <= i < |generations| && Active(generations[i])
  }

  const KEY_MIN: nat := 16
  const KEY_MAX: nat := 128

  /** CHECK (length(idempotency_key) BETWEEN 16 AND 128), which counts characters. */
  predicate KeyFits(key: string) { KEY_MIN <= |key| <= KEY_MAX }

  /**
   * The CHECKs come first. ON CONFLICT (conversation_id, idempotency_key) DO UPDATE .. WHERE false
   * returns no row; the primary key and the one-active-generation index raise an error.
   */
  function CreateGeneration(generations: seq<Generation>, g: Generation): Result<seq<Generation>, TxError>
  {
    if !KeyFits(g.key) || g.userMessage == g.assistantMessage then Err(Database)
    else if FindKey(generations, g.key).Some? then Err(NoRows)
    else if (exists i :: 0 <= i < |generations| && generations[i].id == g.id) || AnyActive(generations)
        then Err(Database)
    else Ok(generations + [g])
  }

  function SetState(c: Conversation, state: S.GenerationState): Conversation
  {
    if c.deleted then c else c.(state := state)
  }

  function MarkGeneration(generations: seq<Generation>, id: Id): seq<Generation>
  {
    seq(|generations|, i requires 0 <= i < |generations| =>
      if generations[i].id == id && generations[i].status.Accepted?
      then generations[i].(status := S.GenerationStatus.Streaming)
      else generations[i])
  }

  function FinalizeGeneration(generations: seq<Generation>, id: Id, status: S.GenerationStatus,
                              retryable: bool): seq<Generation>
  {
    seq(|generations|, i requires 0 <= i < |generations| =>
      if generations[i].id == id && Active(generations[i])
      then generations[i].(status := status, retryable := retryable)
      else generations[i])
  }

  function FinalizeMessage(messages: seq<Message>, id: Id, status: R.MessageStatus): seq<Message>
  {
    seq(|messages|, i requires 0 <= i < |messages| =>
      if messages[i].id == id && messages[i].status.Pending? then messages[i].(status := status) else messages[i])
  }

  function AppendAssistantMessage(messages: seq<Message>, id: Id, delta: string): seq<Message>
  {
    seq(|messages|, i requires 0 <= i < |messages| =>
      if messages[i].id == id && messages[i].role.AssistantRole? && messages[i].status.Pending?
      then messages[i].(content := messages[i].content + delta)
      else messages[i])
  }

  // ---------------------------------------------------------- transactions

  datatype Ids = Ids(generation: Id, user: Id, assistant: Id, reservation: Id)

  /** The end both transactions share: the generation row and the conversation state. */
  function Register(c: Conversation, messages: seq<Message>, g: Generation): Result<Conversation, TxError>
  {
    match CreateGeneration(c.generations, g)
    case Err(e) => Err(e)
    case Ok(generations) =>
      if c.deleted then Err(Conflict)
      else Ok(c.(state := S.AcceptedState, messages := messages, generations := generations))
  }

  function AcceptTx(c: Conversation, ids: Ids, content: string, key: string, model: Id): Result<Conversation, TxError>
  {
    var sequence := NextMessageSequence(c.messages);
    match CreateMessage(c.messages, Message(ids.user, UserRole, content, R.Complete, sequence))
    case Err(e) => Err(e)
    case Ok(m1) =>
      match CreateMessage(m1, Message(ids.assistant, AssistantRole, "", R.Pending, sequence + 1))
      case Err(e) => Err(e)
      case Ok(m2) =>
        Register(c, m2, Generation(ids.generation, key, ids.user, ids.assistant, None, model,
                                   ids.reservation, S.Accepted, false))
  }

  function RetryTx(c: Conversation, ids: Ids, previous: Generation, key: string, model: Id)
    : Result<Conversation, TxError>
  {
    var sequence := NextMessageSequence(c.messages);
    match CreateMessage(c.messages, Message(ids.assistant, AssistantRole, "", R.Pending, sequence))
    case Err(e) => Err(e)
    case Ok(m1) =>
      Register(c, m1, Generation(ids.generation, key, previous.userMessage, ids.assistant, Some(previous.id), model,
                                 ids.reservation, S.Accepted, false))
  }

  predicate Retryable(g: Generation) { g.status.Cancelled? || (g.status.Failed? && g.retryable) }

  // ------------------------------------------------------------- invariant

  ghost predicate Inv(c: Conversation)
  {
    && (forall i :: 0 <= i < |c.messages| ==> c.messages[i].sequence == i + 1)
    && (forall i, j :: 0 <= i < j < |c.generations| ==>
          c.generations[i].key != c.generations[j].key && c.generations[i].id != c.generations[j].id)
    && (forall i :: 0 <= i < |c.generations| ==> KeyFits(c.generations[i].key))
    && (forall i, j :: 0 <= i < j < |c.generations| ==>
          !(Active(c.generations[i]) && Active(c.generations[j])))
  }

  lemma {:induction false} HighestIsLength(messages: seq<Message>)
    requires forall i :: 0 <= i < |messages| ==> messages[i].sequence == i + 1
    ensures Highest(messages) == |messages|
  {
    if messages == [] {
    } else {
      HighestIsLength(messages[..|messages| - 1]);
    }
  }

  lemma AcceptKeepsInv(c: Conversation, ids: Ids, content: string, key: string, model: Id)
    requires Inv(c) && AcceptTx(c, ids, content, key, model).Ok?
    ensures Inv(AcceptTx(c, ids, content, key, model).value)
  {
    HighestIsLength(c.messages);
  }

  lemma RetryKeepsInv(c: Conversation, ids: Ids, previous: Generation, key: string, model: Id)
    requires Inv(c) && RetryTx(c, ids, previous, key, model).Ok?
    ensures Inv(RetryTx(c, ids, previous, key, model).value)
  {
    HighestIsLength(c.messages);
  }

  predicate KeyUsed(c: Conversation, key: string)
  {
    exists i :: 0 <= i < |c.generations| && c.generations[i].key == key
  }

  /** No generation is accepted or streaming. */
  predicate NothingRuns(c: Conversation)
  {
    forall i :: 0 <= i < |c.generations| ==>
      !c.generations[i].status.Accepted? && !c.generations[i].status.Streaming?
  }

  /**
   * Exactly when accept's transaction succeeds on a well-formed conversation with fresh ids, and
   * what it leaves: the user's message and a pending answer, numbered next, and one accepted
   * generation that joins them, with no parent, the given model and the drawn reservation.
   */
  lemma AcceptSucceedsIff(c: Conversation, ids: Ids, content: string, key: string, model: Id)
    requires Inv(c) && ids.user != ids.assistant
    requires forall i :: 0 <= i < |c.messages| ==> c.messages[i].id != ids.user && c.messages[i].id != ids.assistant
    requires forall i :: 0 <= i < |c.generations| ==> c.generations[i].id != ids.generation
    ensures var r := AcceptTx(c, ids, content, key, model);
            && (r.Ok? <==> |content| <= 200000 && 16 <= |key| <= 128 && !KeyUsed(c, key)
                           && NothingRuns(c) && !c.deleted)
            && (r == Err(NoRows) <==> |content| <= 200000 && KeyUsed(c, key))
            && (r.Ok? ==>
                  r.value == Conversation(
                    S.AcceptedState, false, c.model,
                    c.messages + [Message(ids.user, UserRole, content, R.Complete, |c.messages| + 1),
                                  Message(ids.assistant, AssistantRole, "", R.Pending, |c.messages| + 2)],
                    c.generations + [Generation(ids.generation, key, ids.user, ids.assistant, None, model,
                                                ids.reservation, S.Accepted, false)]))
  {
    HighestIsLength(c.messages);
    var sequence := NextMessageSequence(c.messages);
    assert KeyUsed(c, key) ==> KeyFits(key);
    assert !HasMessage(c.messages, ids.user, sequence);
    var m1 := c.messages + [Message(ids.user, UserRole, content, R.Complete, sequence)];
    assert !HasMessage(m1, ids.assistant, sequence + 1);
  }

  /**
   * The same for Retry, which adds only a pending answer, and a generation to the same question,
   * below the one it retries.
   */
  lemma RetrySucceedsIff(c: Conversation, ids: Ids, previous: Generation, key: string, model: Id)
    requires Inv(c) && previous.userMessage != ids.assistant
    requires forall i :: 0 <= i < |c.messages| ==> c.messages[i].id != ids.assistant
    requires forall i :: 0 <= i < |c.generations| ==> c.generations[i].id != ids.generation
    ensures var r := RetryTx(c, ids, previous, key, model);
            && (r.Ok? <==> 16 <= |key| <= 128 && !KeyUsed(c, key) && NothingRuns(c) && !c.deleted)
            && (r == Err(NoRows) <==> KeyUsed(c, key))
            && (r.Ok? ==>
                  r.value == Conversation(
                    S.AcceptedState, false, c.model,
                    c.messages + [Message(ids.assistant, AssistantRole, "", R.Pending, |c.messages| + 1)],
                    c.generations + [Generation(ids.generation, key, previous.userMessage, ids.assistant,
                                                Some(previous.id), model, ids.reservation, S.Accepted, false)]))
  {
    HighestIsLength(c.messages);
    assert KeyUsed(c, key) ==> KeyFits(key);
    assert !HasMessage(c.messages, ids.assistant, NextMessageSequence(c.messages));
  }

  // ------------------------------------------------------------------ runs

  datatype Step =
    | Generate(ids: Ids, content: string, key: string, model: Id)
    | Retry(ids: Ids, previous: Generation, key: string, model: Id)
    | Mark(generation: Id)
    | Finalize(generation: Id, status: S.GenerationStatus, retryable: bool)
    | CloseMessage(message: Id, outcome: R.MessageStatus)
    | SetGenerationState(state: S.GenerationState)
    | SoftDelete
    | UpdateModel(model: Id)

  function OrKeep(c: Conversation, r: Result<Conversation, TxError>): Conversation
  {
    match r case Ok(c') => c' case Err(_) => c
  }

  function Apply(c: Conversation, step: Step): Conversation
  {
    match step
    case Generate(ids, content, key, model) => OrKeep(c, AcceptTx(c, ids, content, key, model))
    case Retry(ids, previous, key, model) =>
      if Retryable(previous) then OrKeep(c, RetryTx(c, ids, previous, key, model)) else c
    case Mark(g) => c.(generations := MarkGeneration(c.generations, g))
    case Finalize(g, status, retryable) =>
      if S.Active(status) then c else c.(generations := FinalizeGeneration(c.generations, g, status, retryable))
    case CloseMessage(m, outcome) => c.(messages := FinalizeMessage(c.messages, m, outcome))
    case SetGenerationState(state) => SetState(c, state)
    case SoftDelete => if c.deleted || c.state != S.Idle then c else c.(deleted := true)
    case UpdateModel(model) => if c.deleted || c.state != S.Idle then c else c.(model := model)
  }

  function Created(model: Id): Conversation { Conversation(S.Idle, false, model, [], []) }

  function Run(model: Id, steps: seq<Step>): Conversation
  {
    if steps == [] then Created(model) else Apply(Run(model, steps[..|steps| - 1]), steps[|steps| - 1])
  }

  /** Updates that leave ids, keys and numbers alone and activate nothing. */
  lemma UpdateKeepsInv(c: Conversation, c': Conversation)
    requires Inv(c) && |c'.messages| == |c.messages| && |c'.generations| == |c.generations|
    requires forall i :: 0 <= i < |c.messages| ==> c'.messages[i].sequence == c.messages[i].sequence
    requires forall i :: 0 <= i < |c.generations| ==>
      && c'.generations[i].id == c.generations[i].id && c'.generations[i].key == c.generations[i].key
      && (Active(c'.generations[i]) ==> Active(c.generations[i]))
    ensures Inv(c')
  {
  }

  lemma StepKeepsInv(c: Conversation, step: Step)
    requires Inv(c)
    ensures Inv(Apply(c, step))
  {
    match step
    case Generate(ids, content, key, model) =>
      if AcceptTx(c, ids, content, key, model).Ok? { AcceptKeepsInv(c, ids, content, key, model); }
    case Retry(ids, previous, key, model) =>
      if RetryTx(c, ids, previous, key, model).Ok? { RetryKeepsInv(c, ids, previous, key, model); }
    case _ => UpdateKeepsInv(c, Apply(c, step));
  }

  /**
   * Idempotency and numbering: over any serial history of commands, with any repeated keys, there
   * is at most one generation per key and at most one active generation, and the messages are
   * numbered exactly 1..n.
   */
  lemma {:induction false} HistoryKeepsInv(model: Id, steps: seq<Step>)
    ensures Inv(Run(model, steps))
  {
    if steps == [] {
    } else {
      HistoryKeepsInv(model, steps[..|steps| - 1]);
      StepKeepsInv(Run(model, steps[..|steps| - 1]), steps[|steps| - 1]);
    }
  }

  /** One generation, before and after a while. */
  predicate SameRow(g: Generation, g': Generation) { g' == g.(status := g'.status, retryable := g'.retryable) }

  /** What never changes about the rows, and what no longer changes once it is final. */
  ghost predicate Advances(c: Conversation, c': Conversation)
  {
    && |c.messages| <= |c'.messages| && |c.generations| <= |c'.generations|
    && (forall i :: 0 <= i < |c.messages| ==>
          c'.messages[i] == c.messages[i].(status := c'.messages[i].status)
          && (!c.messages[i].status.Pending? ==> c'.messages[i] == c.messages[i]))
    && (forall i :: 0 <= i < |c.generations| ==>
          SameRow(c.generations[i], c'.generations[i])
          && (!Active(c.generations[i]) ==> c'.generations[i] == c.generations[i]))
    && (c.deleted ==> c'.deleted && |c'.messages| == |c.messages| && |c'.generations| == |c.generations|)
  }

  /** Messages and generations keep their identity, and final ones do not change any more. */
  lemma StepAdvances(c: Conversation, step: Step)
    ensures Advances(c, Apply(c, step))
  {
  }

  lemma AdvancesTransitive(a: Conversation, b: Conversation, c: Conversation)
    requires Advances(a, b) && Advances(b, c)
    ensures Advances(a, c)
  {
    forall i | 0 <= i < |a.generations|
      ensures SameRow(a.generations[i], c.generations[i])
    {
      assert SameRow(a.generations[i], b.generations[i]);
    }
    forall i | 0 <= i < |a.messages| ensures c.messages[i] == a.messages[i].(status := c.messages[i].status) {
      assert b.messages[i] == a.messages[i].(status := b.messages[i].status);
    }
  }

  lemma {:induction false} RunAdvances(model: Id, before: seq<Step>, after: seq<Step>)
    ensures Advances(Run(model, before), Run(model, before + after))
    decreases |after|
  {
    if after == [] {
      assert before + after == before;
    } else {
      var shorter := after[..|after| - 1];
      RunAdvances(model, before, shorter);
      assert (before + after)[..|before + after| - 1] == before + shorter;
      StepAdvances(Run(model, before + shorter), after[|after| - 1]);
      AdvancesTransitive(Run(model, before), Run(model, before + shorter), Run(model, before + after));
    }
  }

  lemma KeyStaysUsed(c: Conversation, step: Step, key: string)
    requires KeyUsed(c, key)
    ensures KeyUsed(Apply(c, step), key)
  {
    var i :| 0 <= i < |c.generations| && c.generations[i].key == key;
    var c' := Apply(c, step);
    assert i < |c'.generations| && c'.generations[i].key == key;
  }

  lemma UsedKeyIsIgnored(c: Conversation, again: Step)
    requires (again.Generate? || again.Retry?) && KeyUsed(c, again.key)
    ensures Apply(c, again) == c
  {
  }

  lemma {:induction false} KeyStaysUsedInRun(model: Id, before: seq<Step>, after: seq<Step>, key: string)
    requires KeyUsed(Run(model, before), key)
    ensures KeyUsed(Run(model, before + after), key)
    decreases |after|
  {
    if after == [] {
      assert before + after == before;
    } else {
      var shorter := after[..|after| - 1];
      KeyStaysUsedInRun(model, before, shorter, key);
      assert (before + after)[..|before + after| - 1] == before + shorter;
      KeyStaysUsed(Run(model, before + shorter), after[|after| - 1], key);
    }
  }

  /** A key once used stays used, and every later command with it changes nothing. */
  lemma DuplicatesChangeNothing(model: Id, before: seq<Step>, after: seq<Step>, again: Step)
    requires (again.Generate? || again.Retry?) && KeyUsed(Run(model, before), again.key)
    ensures KeyUsed(Run(model, before + after), again.key)
    ensures Apply(Run(model, before + after), again) == Run(model, before + after)
  {
    KeyStaysUsedInRun(model, before, after, again.key);
    UsedKeyIsIgnored(Run(model, before + after), again);
  }

  // -------------------------------------------------- one run over the tables

  /** The statements of a whole run of stream, on the rows of the conversation. */
  function AfterRun(c: Conversation, generation: Id, message: Id, prompt: seq<string>, o: S.Opening,
                    w: S.World): Conversation
    requires S.OpeningOk(o)
  {
    var end := S.RunEnd(o, w);
    var u := S.FinalUsage(end, prompt);
    var marked :=
      if o.NotMarked? then c
      else SetState(c.(generations := MarkGeneration(c.generations, generation)), S.StreamingState);
    var stored := AppendAssistantMessage(marked.messages, message, T.Concat(S.RunChunks(o, w)));
    var generations :=
      if S.CountsFit(u)
      then FinalizeGeneration(marked.generations, generation, S.FinalStatus(end), end.Broken? && end.problem.retryable)
      else marked.generations;
    SetState(marked.(generations := generations,
                     messages := FinalizeMessage(stored, message, S.FinalMessageStatus(end))),
             S.Idle)
  }

  /** The rows of a run, written back to where the tables have them. */
  function Recorded(c: Conversation, generation: Id, message: Id, rows: S.Rows): Conversation
  {
    c.(state := if c.deleted then c.state else rows.conversation.state,
       generations := seq(|c.generations|, i requires 0 <= i < |c.generations| =>
         if c.generations[i].id != generation then c.generations[i]
         else c.generations[i].(status := rows.generation.status, retryable := rows.generation.retryable)),
       messages := seq(|c.messages|, i requires 0 <= i < |c.messages| =>
         if c.messages[i].id != message then c.messages[i]
         else c.messages[i].(content := rows.message.content, status := rows.message.status)))
  }

  /** The rows that accept has left for a run. */
  predicate AwaitsRun(c: Conversation, generation: Id, message: Id)
  {
    && !c.deleted
    && (forall i :: 0 <= i < |c.generations| && c.generations[i].id == generation ==>
          c.generations[i].status == S.Accepted && !c.generations[i].retryable)
    && (forall i :: 0 <= i < |c.messages| && c.messages[i].id == message ==>
          c.messages[i].role.AssistantRole? && c.messages[i].content == "" && c.messages[i].status == R.Pending)
  }

  /** The run seen on single rows and the run seen on the tables are the same. */
  lemma RecordedIsStatements(c: Conversation, generation: Id, message: Id, rows: S.Rows, reserved: int,
                             prompt: seq<string>, o: S.Opening, w: S.World)
    requires S.OpeningOk(o) && S.Fresh(rows) && !rows.conversation.deleted && AwaitsRun(c, generation, message)
    ensures Recorded(c, generation, message, S.RunRows(rows, generation, reserved, prompt, o, w))
            == AfterRun(c, generation, message, prompt, o, w)
  {
    var recorded := Recorded(c, generation, message, S.RunRows(rows, generation, reserved, prompt, o, w));
    var after := AfterRun(c, generation, message, prompt, o, w);
    S.RunOutcome(rows, generation, reserved, prompt, o, w);
    S.RunStores(o, w);
    forall i | 0 <= i < |c.messages| ensures recorded.messages[i] == after.messages[i] {
      assert "" + T.Concat(S.RunChunks(o, w)) == T.Concat(S.RunChunks(o, w));
    }
    assert recorded.messages == after.messages;
    forall i | 0 <= i < |c.generations| ensures recorded.generations[i] == after.generations[i] {
    }
    assert recorded.generations == after.generations;
  }

  /** What the statements of a run touch, row by row. */
  lemma AfterRunChanges(c: Conversation, generation: Id, message: Id, prompt: seq<string>, o: S.Opening, w: S.World)
    requires S.OpeningOk(o) && AwaitsRun(c, generation, message)
    ensures var c' := AfterRun(c, generation, message, prompt, o, w);
            && c'.state == S.Idle && |c'.generations| == |c.generations| && |c'.messages| == |c.messages|
            && (forall i :: 0 <= i < |c.messages| ==> c'.messages[i].sequence == c.messages[i].sequence)
            && (forall i :: 0 <= i < |c.generations| ==>
                  c'.generations[i].id == c.generations[i].id && c'.generations[i].key == c.generations[i].key)
            && (forall i :: 0 <= i < |c.generations| && c.generations[i].id != generation ==>
                  c'.generations[i] == c.generations[i])
            && (forall i :: 0 <= i < |c.generations| && c.generations[i].id == generation ==>
                  (Active(c'.generations[i]) <==> !S.CountsFit(S.FinalUsage(S.RunEnd(o, w), prompt))))
  {
  }

  /**
   * A run ends the generation it was started for, if its counts fit: nothing is active any more,
   * the conversation is idle, and numbering and keys are as they were.
   */
  lemma RunEndsGeneration(c: Conversation, generation: Id, message: Id, prompt: seq<string>, o: S.Opening, w: S.World)
    requires S.OpeningOk(o) && Inv(c) && AwaitsRun(c, generation, message)
    requires exists i :: 0 <= i < |c.generations| && c.generations[i].id == generation
    ensures var c' := AfterRun(c, generation, message, prompt, o, w);
            && Inv(c') && c'.state == S.Idle
            && (AnyActive(c'.generations) <==> !S.CountsFit(S.FinalUsage(S.RunEnd(o, w), prompt)))
  {
    AfterRunChanges(c, generation, message, prompt, o, w);
    var c' := AfterRun(c, generation, message, prompt, o, w);
    var k :| 0 <= k < |c.generations| && c.generations[k].id == generation;
    OnlyOneActive(c, c', k);
  }

  lemma OnlyOneActive(c: Conversation, c': Conversation, k: nat)
    requires Inv(c) && k < |c.generations| && Active(c.generations[k])
    requires |c'.generations| == |c.generations| && |c'.messages| == |c.messages|
    requires forall i :: 0 <= i < |c.messages| ==> c'.messages[i].sequence == c.messages[i].sequence
    requires forall i :: 0 <= i < |c.generations| ==>
      c'.generations[i].id == c.generations[i].id && c'.generations[i].key == c.generations[i].key
    requires forall i :: 0 <= i < |c.generations| && i != k ==> c'.generations[i] == c.generations[i]
    ensures Inv(c') && (AnyActive(c'.generations) <==> Active(c'.generations[k]))
  {
    forall i | 0 <= i < |c.generations| && i != k ensures !Active(c'.generations[i]) {
    }
  }
}
