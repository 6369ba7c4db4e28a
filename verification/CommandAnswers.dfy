/**
 * What a command is answered, read off the command, the conversation it reads and the one its
 * transaction finds: which check refuses it, when it is a duplicate, when the quota refuses it,
 * and what an accepted command leaves in the tables.
 */
module CommandAnswers {
  import opened Basics
  import opened Lifecycle
  import C = Conversations
  import L = Leases
  import Q = QuotaLedger
  import QR = QuotaRuns
  import QS = QuotaService
  import R = Reducer
  import S = Streaming
  import T = Text

  /** The length of a key in bytes lies between 16 and 128. */
  predicate KeyIsWellFormed(key: string) { 16 <= T.ByteLength(key) <= 128 }

  /** The payload parses and its trimmed content has 1 to 32000 characters. */
  predicate PayloadIsWellFormed(content: string, x: Circumstances) { x.validCommand && 0 < |content| <= 32000 }

  /** The newest generation was cancelled, or failed in a way that can be retried. */
  predicate NewestCanBeRetried(c: C.Conversation)
  {
    && c.generations != []
    && var newest := c.generations[|c.generations| - 1];
       newest.status.Cancelled? || (newest.status.Failed? && newest.retryable)
  }

  // ------------------------------------------------------------- the checks

  /**
   * Which check answers a generate command, in the order the checks are made, and that none of
   * them changes anything. A command that passes them all is answered by what follows.
   */
  lemma GenerateAnswers(s: State, content: string, actor: Q.Actor, key: string, x: Circumstances)
    ensures var (s', answer) := Outcome(s, Generate(content), actor, key, x);
            var c := s.conversation;
            var reachesSafety := KeyIsWellFormed(key) && x.available && PayloadIsWellFormed(content, x);
            var loads := reachesSafety && x.safety.Allowed?;
            && (answer == Refused(InvalidCommand) <==>
                  !KeyIsWellFormed(key) || (x.available && !PayloadIsWellFormed(content, x)))
            && (answer == Refused(SafetyUnavailable) <==> reachesSafety && x.safety.Unavailable?)
            && (answer == Refused(SafetyBlocked) <==> reachesSafety && x.safety.Blocked?)
            && (answer == Refused(NotFound) <==> loads && c.deleted)
            && (answer == Refused(Unavailable) <==>
                  (KeyIsWellFormed(key) && !x.available)
                  || (loads && !c.deleted && !C.KeyUsed(c, key) && !x.providerKnown))
            && (loads && !c.deleted && C.KeyUsed(c, key) ==> answer == Duplicate)
            && answer != Refused(NotRetryable)
            && (!loads || c.deleted || C.KeyUsed(c, key) || !x.providerKnown ==> s' == s)
  {
  }

  /** The same for Retry, which reads no payload and needs a newest generation that can be retried. */
  lemma RetryAnswers(s: State, actor: Q.Actor, key: string, x: Circumstances)
    ensures var (s', answer) := Outcome(s, Retry, actor, key, x);
            var c := s.conversation;
            var loads := KeyIsWellFormed(key) && x.available;
            var unused := loads && !c.deleted && !C.KeyUsed(c, key);
            && (answer == Refused(InvalidCommand) <==> !KeyIsWellFormed(key))
            && (answer == Refused(NotFound) <==> loads && c.deleted)
            && (answer == Refused(NotRetryable) <==> unused && !NewestCanBeRetried(c))
            && (answer == Refused(Unavailable) <==>
                  (KeyIsWellFormed(key) && !x.available) || (unused && NewestCanBeRetried(c) && !x.providerKnown))
            && (loads && !c.deleted && C.KeyUsed(c, key) ==> answer == Duplicate)
            && answer != Refused(SafetyUnavailable) && answer != Refused(SafetyBlocked)
            && (!unused || !NewestCanBeRetried(c) || !x.providerKnown ==> s' == s)
  {
  }

  /** What a command must meet to get as far as its reservation. */
  predicate MeetsChecks(command: Command, c: C.Conversation, key: string, x: Circumstances)
  {
    && KeyIsWellFormed(key) && x.available && !c.deleted && !C.KeyUsed(c, key) && x.providerKnown
    && (command.Generate? ==> PayloadIsWellFormed(command.content, x) && x.safety.Allowed?)
    && (command.Retry? ==> NewestCanBeRetried(c))
  }

  /** A command that meets every check reserves, and the quota refuses it exactly when that fails. */
  lemma QuotaAnswers(s: State, command: Command, actor: Q.Actor, key: string, x: Circumstances, e: Q.Error)
    ensures var (s', answer) := Outcome(s, command, actor, key, x);
            && (answer == Refused(QuotaRefused(e)) <==>
                  MeetsChecks(command, s.conversation, key, x) && Reserving(s, actor, x).1 == Err(e))
            && (answer == Refused(QuotaRefused(e)) ==> s' == Reserving(s, actor, x).0)
  {
  }

  /** A reservation is a quote for the model's limit, reserved; each on the day its own clock reads. */
  lemma ReservingAnswers(s: State, actor: Q.Actor, x: Circumstances, quoteDay: int)
    requires 86400 * quoteDay <= x.quotedAt < 86400 * (quoteDay + 1)
    ensures var (s', r) := Reserving(s, actor, x);
            var quote := QR.MaxOutputTokens(s.ledger, x.policy, actor, x.modelLimit, quoteDay);
            && s'.conversation == s.conversation && s'.settlements == s.settlements
            && (quote.Err? ==> s' == s && r == Err(quote.error))
            && (quote.Ok? ==> (s'.ledger, s'.leases, r) ==
                              QS.ReserveOutcome(s.ledger, s.leases, x.policy, actor, quote.value, x.now, x.withinRate,
                                                x.ids.reservation, x.owner))
  {
    assert QS.UtcDay(x.quotedAt) == quoteDay;
  }

  /**
   * Which runs are started, and what they settle: an accepted retry's in any case, an accepted
   * generate command's once it is acknowledged. A run that starts settles once, by the amount it
   * computed, and gives the lease back; a command whose run does not start leaves both as they are.
   */
  lemma RunsStarted(s: State, command: Command, actor: Q.Actor, key: string, x: Circumstances, a: Aftermath)
    requires S.OpeningOk(a.opening)
    ensures var (s', answer) := Outcome(s, command, actor, key, x);
            var (ended, told) := Lifetime(s, command, actor, key, x, a);
            && told == answer
            && (!answer.Accepted? || (command.Generate? && !a.acknowledged) ==> ended == s')
            && (answer.Accepted? && (command.Retry? || a.acknowledged) ==>
                  var r := answer.reservation;
                  var rows := S.RunRows(NEW_ROWS, x.ids.generation, r.reserved, a.prompt, a.opening, a.world);
                  && S.Fresh(NEW_ROWS) && |rows.settlements| == 1
                  && ended.settlements == s'.settlements + rows.settlements
                  && ended.ledger == Q.AfterSettle(s'.ledger, r, rows.settlements[0])
                  && ended.leases == L.ReleaseLease(s'.leases, r.actor.id, r.owner, a.end))
  {
  }

  // -------------------------------------------------------- the transaction

  /** The key has characters enough and is unused, nothing runs and the conversation is not deleted. */
  predicate Commits(c: C.Conversation, key: string)
  {
    |key| >= 16 && !C.KeyUsed(c, key) && C.NothingRuns(c) && !c.deleted
  }

  /**
   * What a command with a reservation is answered: an internal error if its context cannot be
   * built or its ids cannot be drawn, a duplicate if its key is used by the time of the
   * transaction, accepted if nothing else is in its way, and an internal error otherwise.
   */
  lemma ReservedAnswers(s: State, command: Command, actor: Q.Actor, key: string, x: Circumstances)
    requires C.Inv(x.found) && FreshIds(command, s.conversation, x)
    requires MeetsChecks(command, s.conversation, key, x) && Reserving(s, actor, x).1.Ok?
    ensures var (s', answer) := Outcome(s, command, actor, key, x);
            var ready, r := x.contextBuilt && x.idsDrawn, Reserving(s, actor, x).1.value;
            && (answer == Accepted(r) <==> ready && Commits(x.found, key))
            && (answer == Duplicate <==> ready && C.KeyUsed(x.found, key))
            && (answer == Refused(Internal) <==> !ready || (!C.KeyUsed(x.found, key) && !Commits(x.found, key)))
            && (answer != Accepted(r) ==> s' == Settled(Reserving(s, actor, x).0, r, 0, x.now)
                                               .(conversation := if ready then x.found else s.conversation))
  {
    assert Gate(command, s.conversation, key, x).None?;
    TransactionAnswers(command, s.conversation, key, x);
    assert C.AnyActive(x.found.generations) <==> !C.NothingRuns(x.found);
  }

  /**
   * What an accepted generate command leaves: the question and a pending answer at the end of the
   * conversation, and a generation that joins them, for the model the command read.
   */
  lemma AcceptedGenerateLeaves(s: State, content: string, actor: Q.Actor, key: string, x: Circumstances)
    requires C.Inv(x.found) && FreshIds(Generate(content), s.conversation, x)
    requires Outcome(s, Generate(content), actor, key, x).1.Accepted?
    ensures var c, n := x.found, |x.found.messages|;
            Outcome(s, Generate(content), actor, key, x).0.conversation ==
            C.Conversation(S.AcceptedState, false, c.model,
              c.messages + [C.Message(x.ids.user, C.UserRole, content, R.Complete, n + 1),
                            C.Message(x.ids.assistant, C.AssistantRole, "", R.Pending, n + 2)],
              c.generations + [C.Generation(x.ids.generation, key, x.ids.user, x.ids.assistant, None,
                                            s.conversation.model, x.ids.reservation, S.Accepted, false)])
  {
    C.AcceptSucceedsIff(x.found, x.ids, content, key, s.conversation.model);
  }

  /**
   * What an accepted retry leaves: a pending answer, and a generation to the question and with the
   * model of the newest generation it read, as that one's child.
   */
  lemma AcceptedRetryLeaves(s: State, actor: Q.Actor, key: string, x: Circumstances)
    requires C.Inv(x.found) && FreshIds(Retry, s.conversation, x)
    requires Outcome(s, Retry, actor, key, x).1.Accepted?
    ensures NewestCanBeRetried(s.conversation)
    ensures var c, newest := x.found, s.conversation.generations[|s.conversation.generations| - 1];
            Outcome(s, Retry, actor, key, x).0.conversation ==
            C.Conversation(S.AcceptedState, false, c.model,
              c.messages + [C.Message(x.ids.assistant, C.AssistantRole, "", R.Pending, |c.messages| + 1)],
              c.generations + [C.Generation(x.ids.generation, key, newest.userMessage, x.ids.assistant,
                                            Some(newest.id), newest.model, x.ids.reservation, S.Accepted, false)])
  {
    RetryAnswers(s, actor, key, x);
    var newest := s.conversation.generations[|s.conversation.generations| - 1];
    C.RetrySucceedsIff(x.found, x.ids, newest, key, newest.model);
  }
}
