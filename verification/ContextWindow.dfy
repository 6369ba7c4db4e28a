/** Packing a prompt into the model's window, and the incremental summaries of what falls out. */
module ContextWindow {
  import opened Basics
  import opened Text

  datatype Role = System | User | Assistant

  datatype Record = Record(role: Role, content: string, sequence: int)

  /** Estimated tokens of the records from `start` on. */
  function SuffixCost(records: seq<Record>, start: nat): nat
    requires start <= |records|
    decreases |records| - start
  {
    if start == |records| then 0 else EstimateTokens(records[start].content) + SuffixCost(records, start + 1)
  }

  predicate Fits(records: seq<Record>, start: nat, fixed: int, budget: int)
    requires start <= |records|
  {
    fixed + SuffixCost(records, start) <= budget
  }

  lemma {:induction false} SuffixCostDecreases(records: seq<Record>, i: nat, j: nat)
    requires i <= j <= |records|
    ensures SuffixCost(records, i) >= SuffixCost(records, j) + (j - i)
    decreases j - i
  {
    if i == j {
    } else {
      SuffixCostDecreases(records, i + 1, j);
    }
  }

  /** Costs add up: what is appended costs what it costs by itself, and one message costs its estimate. */
  lemma {:induction false} CostsAdd(a: seq<Record>, b: seq<Record>, i: nat)
    requires i <= |a|
    ensures SuffixCost(a + b, i) == SuffixCost(a, i) + SuffixCost(b, 0)
    ensures |b| == 1 ==> SuffixCost(b, 0) == EstimateTokens(b[0].content)
    decreases |a| - i
  {
    if i == |a| {
      CostsShift(a, b, 0);
    } else {
      CostsAdd(a, b, i + 1);
    }
  }

  lemma {:induction false} CostsShift(a: seq<Record>, b: seq<Record>, i: nat)
    requires i <= |b|
    ensures SuffixCost(a + b, |a| + i) == SuffixCost(b, i)
    decreases |b| - i
  {
    if i == |b| {
    } else {
      CostsShift(a, b, i + 1);
    }
  }

  /** `start` begins the longest suffix that fits: a suffix fits precisely when it starts there or later. */
  predicate LongestFit(records: seq<Record>, fixed: int, budget: int, start: nat)
  {
    start <= |records| && forall i :: 0 <= i < |records| ==> (Fits(records, i, fixed, budget) <==> i >= start)
  }

  /**
   * The packing loop keeps exactly the longest suffix of the messages that fits the budget beside
   * the fixed cost.
   */
  method Pack(records: seq<Record>, fixed: int, budget: int) returns (start: nat)
    ensures LongestFit(records, fixed, budget, start)
  {
    start := |records|;
    var used := fixed;
    while start > 0
      invariant 0 <= start <= |records|
      invariant used == fixed + SuffixCost(records, start)
      invariant start < |records| ==> used <= budget
    {
      var cost := EstimateTokens(records[start - 1].content);
      if used + cost > budget {
        break;
      }
      used := used + cost;
      start := start - 1;
    }
    forall i | 0 <= i < |records| ensures Fits(records, i, fixed, budget) <==> i >= start {
      if i >= start {
        SuffixCostDecreases(records, start, i);
      } else {
        SuffixCostDecreases(records, i, start - 1);
      }
    }
  }

  // -------------------------------------------------------------- summaries

  datatype Summary = Summary(version: int, from: int, through: int, content: string, inputTokens: int)

  /** GetLatestSummary: the row with the highest version. */
  function Latest(summaries: seq<Summary>): Option<Summary>
  {
    if summaries == [] then None
    else
      var before, last := Latest(summaries[..|summaries| - 1]), summaries[|summaries| - 1];
      if before.Some? && before.value.version >= last.version then before else Some(last)
  }

  predicate InPlace(summaries: seq<Summary>, i: nat)
    requires i < |summaries|
  {
    && summaries[i].version == i + 1
    && summaries[i].from == (if i == 0 then 1 else summaries[i - 1].through + 1)
    && summaries[i].from <= summaries[i].through
  }

  /** Versions count from 1, and each range starts where the previous one ended. */
  predicate Tiled(summaries: seq<Summary>)
  {
    forall i :: 0 <= i < |summaries| ==> InPlace(summaries, i)
  }

  function Through(summaries: seq<Summary>): int
  {
    if Latest(summaries).None? then 0 else Latest(summaries).value.through
  }

  lemma FrontIsTiled(summaries: seq<Summary>)
    requires Tiled(summaries) && summaries != []
    ensures Tiled(summaries[..|summaries| - 1])
  {
    var front := summaries[..|summaries| - 1];
    forall i | 0 <= i < |front| ensures InPlace(front, i) {
      assert InPlace(summaries, i);
    }
  }

  lemma {:induction false} LatestIsLast(summaries: seq<Summary>)
    requires Tiled(summaries)
    ensures Latest(summaries) == if summaries == [] then None else Some(summaries[|summaries| - 1])
  {
    if summaries == [] {
    } else {
      FrontIsTiled(summaries);
      LatestIsLast(summaries[..|summaries| - 1]);
      if |summaries| > 1 {
        assert InPlace(summaries, |summaries| - 2);
      }
      assert InPlace(summaries, |summaries| - 1);
    }
  }

  lemma {:induction false} ThroughGrows(summaries: seq<Summary>, i: nat, j: nat)
    requires Tiled(summaries) && i <= j < |summaries|
    ensures summaries[i].through <= summaries[j].through
    ensures i < j ==> summaries[i].through < summaries[j].from
    decreases j - i
  {
    assert InPlace(summaries, j);
    if i == j {
    } else {
      ThroughGrows(summaries, i, j - 1);
    }
  }

  lemma ThroughIsHighest(summaries: seq<Summary>)
    requires Tiled(summaries)
    ensures Through(summaries) >= 0
    ensures forall i :: 0 <= i < |summaries| ==> summaries[i].through <= Through(summaries)
  {
    LatestIsLast(summaries);
    forall i | 0 <= i < |summaries| ensures summaries[i].through <= Through(summaries) {
      ThroughGrows(summaries, i, |summaries| - 1);
    }
    if summaries != [] {
      assert InPlace(summaries, 0);
    }
  }

  /** The ranges tile 1..latest without gap or overlap: every message number lies in exactly one. */
  lemma {:induction false} TiledCoversOnce(summaries: seq<Summary>, n: int) returns (i: nat)
    requires Tiled(summaries) && 1 <= n <= Through(summaries)
    ensures i < |summaries| && summaries[i].from <= n <= summaries[i].through
    ensures forall j :: 0 <= j < |summaries| && summaries[j].from <= n <= summaries[j].through ==> j == i
    decreases |summaries|
  {
    LatestIsLast(summaries);
    var last := |summaries| - 1;
    if n >= summaries[last].from {
      i := last;
      forall j | 0 <= j < last ensures summaries[j].through < n {
        ThroughGrows(summaries, j, last);
      }
    } else {
      var front := summaries[..last];
      assert InPlace(summaries, last);
      FrontIsTiled(summaries);
      LatestIsLast(front);
      i := TiledCoversOnce(front, n);
    }
  }

  /** The covered messages that no summary includes yet. */
  function Transcript(covered: seq<Record>, from: int): seq<Record>
  {
    if covered == [] then []
    else
      Transcript(covered[..|covered| - 1], from)
      + if covered[|covered| - 1].sequence < from then [] else [covered[|covered| - 1]]
  }

  lemma {:induction false} TranscriptIsRange(covered: seq<Record>, from: int, m: Record)
    ensures m in Transcript(covered, from) <==> m in covered && m.sequence >= from
  {
    if covered == [] {
    } else {
      TranscriptIsRange(covered[..|covered| - 1], from, m);
      assert covered == covered[..|covered| - 1] + [covered[|covered| - 1]];
    }
  }

  /** In a conversation in order, that is its end: every message from that number on, once and in order. */
  lemma {:induction false} TranscriptIsSuffix(covered: seq<Record>, from: int, j: nat)
    requires j <= |covered|
    requires forall i :: 0 <= i < j ==> covered[i].sequence < from
    requires forall i :: j <= i < |covered| ==> covered[i].sequence >= from
    ensures Transcript(covered, from) == covered[j..]
  {
    if covered == [] {
    } else {
      var n := |covered| - 1;
      if j <= n {
        TranscriptIsSuffix(covered[..n], from, j);
        assert covered[j..] == covered[..n][j..] + [covered[n]];
      } else {
        TranscriptIsSuffix(covered[..n], from, n);
      }
    }
  }

  /** What the summarizing model answered: its trimmed text, and its input count where it gave one. */
  datatype Reply = Reply(content: string, reported: int)

  const SUMMARY_LIMIT: nat := 200000

  function RoleName(role: Role): string
  {
    match role case System => "system" case User => "user" case Assistant => "assistant"
  }

  /** The text the summarizing model is shown, a line for each message. */
  function Rendered(transcript: seq<Record>): string
  {
    if transcript == [] then ""
    else
      var last := transcript[|transcript| - 1];
      Rendered(transcript[..|transcript| - 1]) + RoleName(last.role) + ": " + last.content + "\n"
  }

  /** Each message adds one line at the end. */
  lemma RenderedLine(transcript: seq<Record>, m: Record)
    ensures Rendered([]) == ""
    ensures Rendered(transcript + [m]) == Rendered(transcript) + (RoleName(m.role) + ": " + m.content + "\n")
  {
    assert (transcript + [m])[..|transcript|] == transcript;
  }

  function InputTokens(reply: Reply, transcript: seq<Record>): int
  {
    if reply.reported > 0 then reply.reported else EstimateTokens(Rendered(transcript))
  }

  /** The CHECKs of conversation_summaries. */
  predicate RowFits(s: Summary)
  {
    1 <= |s.content| <= SUMMARY_LIMIT && 1 <= s.from <= s.through && 1 <= s.version && 0 <= s.inputTokens
  }

  predicate SameRange(a: Summary, b: Summary) { a.from == b.from && a.through == b.through }

  /**
   * INSERT .. ON CONFLICT (conversation_id, version) keeps the old content. A row that fails a
   * CHECK or repeats a range is an error, which the callers ignore.
   */
  function CreateSummary(summaries: seq<Summary>, s: Summary): seq<Summary>
  {
    if !RowFits(s) then summaries
    else if exists i :: 0 <= i < |summaries| && (summaries[i].version == s.version || SameRange(summaries[i], s))
        then summaries
    else summaries + [s]
  }

  /** ensureSummary's effect; `reply` is the summarizing model's, if it gave one. */
  function Extended(summaries: seq<Summary>, covered: seq<Record>, reply: Option<Reply>): seq<Summary>
  {
    if covered == [] then summaries
    else
      var through := covered[|covered| - 1].sequence;
      var latest := Latest(summaries);
      if latest.Some? && latest.value.through >= through then summaries
      else if reply.None? || reply.value.content == "" then summaries
      else
        var from := if latest.Some? then latest.value.through + 1 else 1;
        CreateSummary(summaries,
          Summary(if latest.Some? then latest.value.version + 1 else 1, from, through, reply.value.content,
                  Int32(InputTokens(reply.value, Transcript(covered, from)))))
  }

  /** The table takes the reply: neither empty nor too long, and its count not negative as an int32. */
  predicate Kept(summaries: seq<Summary>, covered: seq<Record>, reply: Option<Reply>)
  {
    && reply.Some? && 1 <= |reply.value.content| <= SUMMARY_LIMIT
    && Int32(InputTokens(reply.value, Transcript(covered, Through(summaries) + 1))) >= 0
  }

  /** The next version and range are new to the table, so a row that fits continues the tiling. */
  lemma NextStaysTiled(summaries: seq<Summary>, next: Summary)
    requires Tiled(summaries) && next.version == |summaries| + 1 && next.from == Through(summaries) + 1
    requires RowFits(next)
    ensures CreateSummary(summaries, next) == summaries + [next]
    ensures Tiled(summaries + [next])
  {
    LatestIsLast(summaries);
    ThroughIsHighest(summaries);
    forall i | 0 <= i < |summaries| ensures summaries[i].version != next.version && !SameRange(summaries[i], next) {
      assert InPlace(summaries, i);
    }
    forall i | 0 <= i <= |summaries| ensures InPlace(summaries + [next], i) {
      assert i < |summaries| ==> InPlace(summaries, i);
    }
  }

  lemma LatestCounts(summaries: seq<Summary>)
    requires Tiled(summaries)
    ensures Latest(summaries).None? ==> summaries == []
    ensures Latest(summaries).Some? ==> Latest(summaries).value.version == |summaries|
    ensures Through(summaries) >= 0
  {
    LatestIsLast(summaries);
    ThroughIsHighest(summaries);
    assert summaries != [] ==> InPlace(summaries, |summaries| - 1);
  }

  /** The row ensureSummary inserts: it counts on from the latest version and the last message covered. */
  function Next(summaries: seq<Summary>, covered: seq<Record>, reply: Reply): Summary
    requires covered != []
  {
    var from := Through(summaries) + 1;
    Summary(|summaries| + 1, from, covered[|covered| - 1].sequence, reply.content,
            Int32(InputTokens(reply, Transcript(covered, from))))
  }

  /** It is stored exactly when the table takes the reply and there is something new to cover. */
  lemma ExtendedIsNext(summaries: seq<Summary>, covered: seq<Record>, reply: Option<Reply>)
    requires Tiled(summaries) && covered != [] && covered[|covered| - 1].sequence >= 1
    ensures Extended(summaries, covered, reply)
            == if Through(summaries) < covered[|covered| - 1].sequence && Kept(summaries, covered, reply)
               then summaries + [Next(summaries, covered, reply.value)]
               else summaries
  {
    LatestCounts(summaries);
    if Through(summaries) < covered[|covered| - 1].sequence && reply.Some? && reply.value.content != "" {
      var next := Next(summaries, covered, reply.value);
      assert Extended(summaries, covered, reply) == CreateSummary(summaries, next);
      assert RowFits(next) <==> Kept(summaries, covered, reply);
      if RowFits(next) {
        NextStaysTiled(summaries, next);
      }
    }
  }

  /** Item j is the first that comes after this message number. */
  predicate FirstAfter(covered: seq<Record>, number: int, j: nat)
  {
    && j <= |covered|
    && (forall i :: 0 <= i < j ==> covered[i].sequence <= number)
    && (forall i :: j <= i < |covered| ==> covered[i].sequence > number)
  }

  /** What a stored row would hold, by the messages from j on, and whether the table takes it. */
  lemma NextRow(summaries: seq<Summary>, covered: seq<Record>, reply: Reply, j: nat)
    requires covered != [] && FirstAfter(covered, Through(summaries), j)
    ensures var tokens := if reply.reported > 0 then reply.reported else EstimateTokens(Rendered(covered[j..]));
            && Next(summaries, covered, reply) ==
               Summary(|summaries| + 1, Through(summaries) + 1, covered[|covered| - 1].sequence, reply.content,
                       Int32(tokens))
            && (Kept(summaries, covered, Some(reply)) <==> 1 <= |reply.content| <= 200000 && Int32(tokens) >= 0)
  {
    TranscriptIsSuffix(covered, Through(summaries) + 1, j);
  }

  /**
   * Which row a call stores, and when. Let j be the first covered message after the latest summary.
   * A row is stored exactly when there is such a message and the model has answered with a text of
   * 1 to 200000 characters and a count that is not negative as an int32: the model's own count if
   * it is positive, else the estimate of what it was shown. The row has the next version, ranges
   * from after the latest summary to the last covered message, and holds the answer.
   */
  lemma StoredSummary(summaries: seq<Summary>, covered: seq<Record>, reply: Reply, j: nat)
    requires Tiled(summaries) && covered != [] && covered[|covered| - 1].sequence >= 1
    requires FirstAfter(covered, if summaries == [] then 0 else summaries[|summaries| - 1].through, j)
    ensures var latest := if summaries == [] then 0 else summaries[|summaries| - 1].through;
            var tokens := if reply.reported > 0 then reply.reported else EstimateTokens(Rendered(covered[j..]));
            Extended(summaries, covered, Some(reply)) ==
            if j < |covered| && 1 <= |reply.content| <= 200000 && Int32(tokens) >= 0
            then summaries + [Summary(|summaries| + 1, latest + 1, covered[|covered| - 1].sequence,
                                      reply.content, Int32(tokens))]
            else summaries
    ensures Extended(summaries, covered, None) == summaries
  {
    LatestIsLast(summaries);
    NextRow(summaries, covered, reply, j);
    ExtendedIsNext(summaries, covered, Some(reply));
  }

  /** One call keeps the tiling, and reaches the last covered message exactly when it is there or the reply is kept. */
  lemma ExtendedStaysTiled(summaries: seq<Summary>, covered: seq<Record>, reply: Option<Reply>)
    requires Tiled(summaries) && (covered != [] ==> covered[|covered| - 1].sequence >= 1)
    ensures Tiled(Extended(summaries, covered, reply))
    ensures Through(summaries) <= Through(Extended(summaries, covered, reply))
    ensures covered != [] ==>
              (Through(Extended(summaries, covered, reply)) >= covered[|covered| - 1].sequence <==>
                 Through(summaries) >= covered[|covered| - 1].sequence || Kept(summaries, covered, reply))
  {
    LatestIsLast(summaries);
    if covered != [] {
      ExtendedIsNext(summaries, covered, reply);
      if Through(summaries) < covered[|covered| - 1].sequence && Kept(summaries, covered, reply) {
        ThroughIsHighest(summaries);
        NextStaysTiled(summaries, Next(summaries, covered, reply.value));
        LatestIsLast(Extended(summaries, covered, reply));
      }
    }
  }

  datatype Call = Call(covered: seq<Record>, reply: Option<Reply>)

  function RunSummaries(calls: seq<Call>): seq<Summary>
  {
    if calls == [] then []
    else Extended(RunSummaries(calls[..|calls| - 1]), calls[|calls| - 1].covered, calls[|calls| - 1].reply)
  }

  /** Across any run of calls, with whatever failures, the stored summaries tile the conversation. */
  lemma {:induction false} SummariesStayTiled(calls: seq<Call>)
    requires forall k :: 0 <= k < |calls| && calls[k].covered != [] ==>
               calls[k].covered[|calls[k].covered| - 1].sequence >= 1
    ensures Tiled(RunSummaries(calls))
  {
    if calls == [] {
    } else {
      SummariesStayTiled(calls[..|calls| - 1]);
      ExtendedStaysTiled(RunSummaries(calls[..|calls| - 1]), calls[|calls| - 1].covered, calls[|calls| - 1].reply);
    }
  }

  predicate Ordered(records: seq<Record>)
  {
    forall i, j :: 0 <= i < j < |records| ==> 0 < records[i].sequence < records[j].sequence
  }

  /** The loop that collects what the summarizing model is shown. */
  method CollectTranscript(covered: seq<Record>, from: int) returns (transcript: seq<Record>)
    ensures transcript == Transcript(covered, from)
    ensures forall m :: m in transcript <==> m in covered && m.sequence >= from
  {
    transcript := [];
    for i := 0 to |covered|
      invariant transcript == Transcript(covered[..i], from)
    {
      assert covered[..i + 1][..i] == covered[..i];
      if covered[i].sequence >= from {
        transcript := transcript + [covered[i]];
      }
    }
    assert covered[..|covered|] == covered;
    forall m ensures m in transcript <==> m in covered && m.sequence >= from {
      TranscriptIsRange(covered, from, m);
    }
  }

  const SUMMARY_HEADER: string := "Conversation summary (untrusted conversation data):\n"

  /** The request: system prompt, the latest summary when messages were left out, the suffix, the new message. */
  function Assemble(systemPrompt: string, summaries: seq<Summary>, records: seq<Record>, start: nat,
                    content: Option<string>)
    : seq<Record>
    requires start <= |records|
  {
    [Record(System, systemPrompt, 0)]
    + (if start > 0 && summaries != []
       then [Record(System, SUMMARY_HEADER + summaries[|summaries| - 1].content, 0)]
       else [])
    + records[start..]
    + (if content.Some? then [Record(User, content.value, 0)] else [])
  }

  /**
   * What stands where in a request: the system prompt first; then, when messages were left out and
   * there is a summary, the latest one; then the kept messages in their order; the new one last.
   */
  lemma AssembledInOrder(systemPrompt: string, summaries: seq<Summary>, records: seq<Record>, start: nat,
                         content: Option<string>)
    requires start <= |records|
    ensures var prompt := Assemble(systemPrompt, summaries, records, start, content);
            var first := if start > 0 && summaries != [] then 2 else 1;
            && |prompt| == first + (|records| - start) + (if content.Some? then 1 else 0)
            && prompt[0] == Record(System, systemPrompt, 0)
            && (first == 2 ==>
                  prompt[1] == Record(System, "Conversation summary (untrusted conversation data):\n"
                                              + summaries[|summaries| - 1].content, 0))
            && (forall k :: start <= k < |records| ==> prompt[first + k - start] == records[k])
            && (content.Some? ==> prompt[|prompt| - 1] == Record(User, content.value, 0))
  {
  }

  class Context {
    var summaries: seq<Summary>

    constructor ()
      ensures summaries == []
    {
      summaries := [];
    }

    /**
     * What ensureSummary does once it has the conversation's lock. What is sent to be summarized is
     * every covered message after the last summary.
     */
    method Summarize(covered: seq<Record>, available: bool, reply: Option<Reply>) returns (asked: seq<Record>)
      requires covered != [] && covered[|covered| - 1].sequence >= 1
      modifies this
      ensures summaries == Extended(old(summaries), covered, if available then reply else None)
      ensures asked != [] <==> available && covered[|covered| - 1].sequence > Through(old(summaries))
      ensures asked != [] ==> forall m :: m in asked <==> m in covered && m.sequence > Through(old(summaries))
    {
      var through := covered[|covered| - 1].sequence;
      var version, from := 1, 1;
      var latest := Latest(summaries);
      if latest.Some? {
        if latest.value.through >= through {
          return [];
        }
        version, from := latest.value.version + 1, latest.value.through + 1;
      }
      var transcript := CollectTranscript(covered, from);
      assert covered[|covered| - 1] in transcript;
      if !available {
        return [];
      }
      asked := transcript;
      if reply.None? || reply.value.content == "" {
        return;
      }
      var inputTokens := InputTokens(reply.value, transcript);
      summaries := CreateSummary(summaries,
        Summary(version, from, through, reply.value.content, Int32(inputTokens)));
    }

    /** ensureSummary under the conversation's try-lock: it reaches the last covered message if the reply is kept. */
    method EnsureSummary(covered: seq<Record>, lockFree: bool, available: bool, reply: Option<Reply>)
      returns (asked: seq<Record>)
      requires Tiled(summaries) && (covered != [] ==> covered[|covered| - 1].sequence >= 1)
      modifies this
      ensures Tiled(summaries)
      ensures summaries == if lockFree then Extended(old(summaries), covered, if available then reply else None)
                           else old(summaries)
      ensures asked != [] <==> lockFree && available && covered != []
                               && covered[|covered| - 1].sequence > Through(old(summaries))
      ensures asked != [] ==> forall m :: m in asked <==> m in covered && m.sequence > Through(old(summaries))
      ensures lockFree && available && covered != [] ==>
                (Through(summaries) >= covered[|covered| - 1].sequence <==>
                   Through(old(summaries)) >= covered[|covered| - 1].sequence || Kept(old(summaries), covered, reply))
    {
      ExtendedStaysTiled(summaries, covered, if available then reply else None);
      if |covered| == 0 || !lockFree {
        return [];
      }
      asked := Summarize(covered, available, reply);
    }

    /**
     * buildContext (with the new message) and buildStoredContext (without one). A summary that
     * is kept reaches at least to the last message left out.
     */
    method BuildContext(records: seq<Record>, systemPrompt: string, content: Option<string>, budget: int,
                        lockFree: bool, available: bool, reply: Option<Reply>)
      returns (prompt: seq<Record>, ghost start: nat)
      requires Tiled(summaries) && Ordered(records) && (records != [] ==> records[0].sequence > 0)
      modifies this
      ensures Tiled(summaries)
      ensures LongestFit(records, EstimateTokens(systemPrompt)
                                  + (if content.Some? then EstimateTokens(content.value) else 0), budget, start)
      ensures prompt == Assemble(systemPrompt, summaries, records, start, content)
      ensures summaries == if start > 0 && lockFree
                           then Extended(old(summaries), records[..start], if available then reply else None)
                           else old(summaries)
      ensures start > 0 && lockFree && available && Kept(old(summaries), records[..start], reply) ==>
                Through(summaries) >= records[start - 1].sequence
    {
      var fixed := EstimateTokens(systemPrompt);
      if content.Some? {
        fixed := fixed + EstimateTokens(content.value);
      }
      var first := Pack(records, fixed, budget);
      start := first;
      prompt := [Record(System, systemPrompt, 0)];
      if first > 0 {
        var covered := records[..first];
        assert first > 1 ==> records[0].sequence < records[first - 1].sequence;
        var _ := EnsureSummary(covered, lockFree, available, reply);
        LatestIsLast(summaries);
        var latest := Latest(summaries);
        if latest.Some? {
          prompt := prompt + [Record(System, SUMMARY_HEADER + latest.value.content, 0)];
        }
      }
      prompt := prompt + records[first..];
      if content.Some? {
        prompt := prompt + [Record(User, content.value, 0)];
      }
    }
  }
}
