/**
 * A command from its arrival to the settlement of its reservation: accept, Retry and the run they
 * start. What the checks answer, whether the context can be built and ids drawn, and what other
 * requests have made of the conversation by the time the transaction runs are all left open.
 */
module Lifecycle {
  import opened Basics
  import Q = QuotaLedger
  import QR = QuotaRuns
  import QS = QuotaService
  import L = Leases
  import C = Conversations
  import S = Streaming
  import R = Reducer
  import T = Text

  datatype Refusal =
    | InvalidCommand | Unavailable | SafetyUnavailable | SafetyBlocked | NotFound | NotRetryable
    | QuotaRefused(error: Q.Error) | Internal

  datatype Answer = Accepted(reservation: Q.Reservation) | Duplicate | Refused(why: Refusal)

  /** Everything a command meets on its way that this model does not decide. */
  datatype Circumstances = Circumstances(
    available: bool, validCommand: bool, safety: S.Verdict, providerKnown: bool, withinRate: bool,
    policy: Q.Policy, modelLimit: int, quotedAt: int, now: int, owner: Id, ids: C.Ids,
    contextBuilt: bool, idsDrawn: bool,
    found: C.Conversation)   // the conversation as the transaction finds it

  datatype State = State(ledger: Q.Ledger, leases: L.LeaseStore, conversation: C.Conversation, settlements: seq<int>)

  /** The most characters of a command's trimmed content. */
  const CONTENT_MAX: nat := 32000

  // -------------------------------------------------------------- outcomes

  /** MaxOutputTokens, then Reserve; midnight may fall in between. */
  function Reserving(s: State, actor: Q.Actor, x: Circumstances): (State, Result<Q.Reservation, Q.Error>)
  {
    match QR.MaxOutputTokens(s.ledger, x.policy, actor, x.modelLimit, QS.UtcDay(x.quotedAt))
    case Err(e) => (s, Err(e))
    case Ok(tokens) =>
      var (ledger, leases, r) := QS.ReserveOutcome(s.ledger, s.leases, x.policy, actor, tokens, x.now,
                                                   x.withinRate, x.ids.reservation, x.owner);
      (s.(ledger := ledger, leases := leases), r)
  }

  /** Settle the reservation with an amount, ignoring its error, and give the lease back. */
  function Settled(s: State, r: Q.Reservation, actual: int, now: int): State
  {
    s.(ledger := Q.AfterSettle(s.ledger, r, actual),
       leases := L.ReleaseLease(s.leases, r.actor.id, r.owner, now),
       settlements := s.settlements + [actual])
  }

  /** From the reservation on: every failing exit settles zero. */
  function Committing(s: State, r: Q.Reservation, x: Circumstances, tx: Result<C.Conversation, C.TxError>)
    : (State, Answer)
  {
    if !x.contextBuilt || !x.idsDrawn then (Settled(s, r, 0, x.now), Refused(Internal))
    else
      var met := s.(conversation := x.found);
      match tx
      case Ok(c) => (met.(conversation := c), Accepted(r))
      case Err(NoRows) => (Settled(met, r, 0, x.now), Duplicate)
      case Err(_) => (Settled(met, r, 0, x.now), Refused(Internal))
  }

  /** The length of a key in bytes, as the envelope of a command and Retry check it. */
  predicate KeyPasses(key: string) { C.KEY_MIN <= T.ByteLength(key) <= C.KEY_MAX }

  predicate ContentPasses(content: string) { 0 < |content| <= CONTENT_MAX }

  /**
   * The checks on a generate command before it reserves, in order: its envelope, then accept's.
   * None lets the command through. Its content is the trimmed text.
   */
  function AcceptGate(c: C.Conversation, content: string, key: string, x: Circumstances): Option<Answer>
  {
    if !KeyPasses(key) then Some(Refused(InvalidCommand))
    else if !x.available then Some(Refused(Unavailable))
    else if !x.validCommand || !ContentPasses(content) then Some(Refused(InvalidCommand))
    else if x.safety.Unavailable? then Some(Refused(SafetyUnavailable))
    else if x.safety.Blocked? then Some(Refused(SafetyBlocked))
    else if c.deleted then Some(Refused(NotFound))
    else if C.FindKey(c.generations, key).Some? then Some(Duplicate)
    else if !x.providerKnown then Some(Refused(Unavailable))
    else None
  }

  function Latest(c: C.Conversation): Option<C.Generation>
  {
    if c.generations == [] then None else Some(c.generations[|c.generations| - 1])
  }

  function RetryGate(c: C.Conversation, key: string, x: Circumstances): Option<Answer>
  {
    if !KeyPasses(key) then Some(Refused(InvalidCommand))
    else if !x.available then Some(Refused(Unavailable))
    else if c.deleted then Some(Refused(NotFound))
    else if C.FindKey(c.generations, key).Some? then Some(Duplicate)
    else if Latest(c).None? || !C.Retryable(Latest(c).value) then Some(Refused(NotRetryable))
    else if !x.providerKnown then Some(Refused(Unavailable))
    else None
  }

  datatype Command = Generate(content: string) | Retry

  function Gate(command: Command, c: C.Conversation, key: string, x: Circumstances): Option<Answer>
  {
    if command.Generate? then AcceptGate(c, command.content, key, x) else RetryGate(c, key, x)
  }

  /** The transaction; the model and the generation retried are those read before it. */
  function Tx(command: Command, read: C.Conversation, key: string, x: Circumstances): Result<C.Conversation, C.TxError>
  {
    match command
    case Generate(content) => C.AcceptTx(x.found, x.ids, content, key, read.model)
    case Retry =>
      if Latest(read).None? then Err(C.Conflict)
      else C.RetryTx(x.found, x.ids, Latest(read).value, key, Latest(read).value.model)
  }

  function Outcome(s: State, command: Command, actor: Q.Actor, key: string, x: Circumstances): (State, Answer)
  {
    match Gate(command, s.conversation, key, x)
    case Some(answer) => (s, answer)
    case None =>
      var (reserved, r) := Reserving(s, actor, x);
      match r
      case Err(e) => (reserved, Refused(QuotaRefused(e)))
      case Ok(reservation) => Committing(reserved, reservation, x, Tx(command, s.conversation, key, x))
  }

  // ------------------------------------------------------------ properties

  ghost predicate SameBalances(a: Q.Ledger, b: Q.Ledger)
  {
    && Q.Outstanding(a.reservations) == Q.Outstanding(b.reservations)
    && forall k: Q.Bucket :: Q.Tokens(a, k) == Q.Tokens(b, k)
  }

  predicate OwnerIsFresh(leases: L.LeaseStore, owner: Id)
  {
    forall a :: a in leases ==> leases[a].owner != owner
  }

  /** A granted reservation is the ReserveTx of the ledger, for a positive amount, under its own lease. */
  lemma ReservingGrants(s: State, actor: Q.Actor, x: Circumstances)
    requires OwnerIsFresh(s.leases, x.owner)
    ensures var (s', r) := Reserving(s, actor, x);
            && s'.conversation == s.conversation && s'.settlements == s.settlements
            && (r.Err? ==> s'.ledger == s.ledger && OwnerIsFresh(s'.leases, x.owner))
            && (r.Ok? ==>
                  && r.value == Q.Reservation(x.ids.reservation, actor, x.owner, QS.UtcDay(x.now), r.value.reserved)
                  && 0 < r.value.reserved <= x.modelLimit && !actor.kind.Unknown?
                  && Q.ReserveTx(s.ledger, x.policy, x.ids.reservation, actor, r.value.reserved,
                                 QS.UtcDay(x.now), x.now) == Ok(s'.ledger)
                  && L.Live(s'.leases, actor.id, x.now) && s'.leases[actor.id].owner == x.owner
                  && forall a :: a in s'.leases && a != actor.id ==> s'.leases[a].owner != x.owner)
  {
  }

  /** What settling a granted reservation does to every counter and to the lease. */
  lemma SettlingCloses(s: State, actor: Q.Actor, x: Circumstances, actual: int, b: Q.Bucket)
    requires Q.Conserved(s.ledger) && OwnerIsFresh(s.leases, x.owner)
    requires Reserving(s, actor, x).1.Ok? && 0 <= actual <= Reserving(s, actor, x).1.value.reserved
    ensures var (held, r) := Reserving(s, actor, x);
            var done := Settled(held, r.value, actual, x.now);
            var day := QS.UtcDay(x.now);
            && Q.Conserved(done.ledger)
            && Q.Outstanding(done.ledger.reservations) == Q.Outstanding(s.ledger.reservations)
            && Q.Tokens(done.ledger, b) == Q.Tokens(s.ledger, b)
               + (if b == Q.ActorBucket(actor, day) || b == Q.Daily(Q.GlobalKey(day)) then actual else 0)
            && OwnerIsFresh(done.leases, x.owner)
  {
    ReservingGrants(s, actor, x);
    var r := Reserving(s, actor, x).1.value;
    Q.ReserveThenSettle(s.ledger, x.policy, r.id, actor, r.reserved, r.day, x.now, x.owner, actual);
  }

  /** Settled with zero, a granted reservation leaves no trace in any token counter. */
  lemma AbandoningCloses(s: State, actor: Q.Actor, x: Circumstances)
    requires Q.Conserved(s.ledger) && OwnerIsFresh(s.leases, x.owner) && Reserving(s, actor, x).1.Ok?
    ensures var (held, r) := Reserving(s, actor, x);
            var done := Settled(held, r.value, 0, x.now);
            Q.Conserved(done.ledger) && SameBalances(s.ledger, done.ledger) && OwnerIsFresh(done.leases, x.owner)
  {
    ReservingGrants(s, actor, x);
    var done := Settled(Reserving(s, actor, x).0, Reserving(s, actor, x).1.value, 0, x.now);
    forall b: Q.Bucket ensures Q.Tokens(done.ledger, b) == Q.Tokens(s.ledger, b) {
      SettlingCloses(s, actor, x, 0, b);
    }
    SettlingCloses(s, actor, x, 0, Q.Daily(Q.GlobalKey(0)));
  }

  lemma CommittingHoldsOrCloses(s: State, actor: Q.Actor, x: Circumstances, tx: Result<C.Conversation, C.TxError>)
    requires Q.Conserved(s.ledger) && OwnerIsFresh(s.leases, x.owner) && Reserving(s, actor, x).1.Ok?
    ensures var (held, r) := Reserving(s, actor, x);
            var (s', answer) := Committing(held, r.value, x, tx);
            && Q.Conserved(s'.ledger)
            && (answer.Accepted? <==> x.contextBuilt && x.idsDrawn && tx.Ok?)
            && (answer.Accepted? ==>
                  && answer.reservation == r.value && s' == held.(conversation := tx.value)
                  && Q.Outstanding(s'.ledger.reservations) == Q.Outstanding(s.ledger.reservations) + 1)
            && (!answer.Accepted? ==>
                  && SameBalances(s.ledger, s'.ledger)
                  && OwnerIsFresh(s'.leases, x.owner)
                  && s'.settlements == s.settlements + [0]
                  && (s'.conversation == s.conversation || s'.conversation == x.found))
  {
    AbandoningCloses(s, actor, x);
    HoldingConserves(s, actor, x);
  }

  lemma HoldingConserves(s: State, actor: Q.Actor, x: Circumstances)
    requires Q.Conserved(s.ledger) && OwnerIsFresh(s.leases, x.owner) && Reserving(s, actor, x).1.Ok?
    ensures var held := Reserving(s, actor, x).0;
            && Q.Conserved(held.ledger) && held.settlements == s.settlements && held.conversation == s.conversation
            && Q.Outstanding(held.ledger.reservations) == Q.Outstanding(s.ledger.reservations) + 1
  {
    ReservingGrants(s, actor, x);
    var r := Reserving(s, actor, x).1.value;
    Q.ReserveThenSettle(s.ledger, x.policy, r.id, actor, r.reserved, r.day, x.now, x.owner, 0);
    Q.ReserveConserves(s.ledger, x.policy, r.id, actor, r.reserved, r.day, x.now);
  }

  /**
   * accept and Retry hold a reservation exactly when they accept: then one more is outstanding,
   * nothing has been settled and the lease is held. Every other exit has settled zero, or never
   * reserved, and leaves every token counter and every other reservation as it found them.
   */
  lemma AcceptedOrUntouched(s: State, command: Command, actor: Q.Actor, key: string, x: Circumstances)
    requires Q.Conserved(s.ledger) && OwnerIsFresh(s.leases, x.owner)
    ensures var (s', answer) := Outcome(s, command, actor, key, x);
            && Q.Conserved(s'.ledger)
            && (answer.Accepted? ==>
                  && Reserving(s, actor, x).1 == Ok(answer.reservation)
                  && s'.ledger == Reserving(s, actor, x).0.ledger
                  && Q.Outstanding(s'.ledger.reservations) == Q.Outstanding(s.ledger.reservations) + 1
                  && L.Live(s'.leases, actor.id, x.now) && s'.leases[actor.id].owner == x.owner
                  && s'.settlements == s.settlements
                  && Tx(command, s.conversation, key, x) == Ok(s'.conversation))
            && (!answer.Accepted? ==>
                  && SameBalances(s.ledger, s'.ledger)
                  && OwnerIsFresh(s'.leases, x.owner)
                  && (s'.settlements == s.settlements || s'.settlements == s.settlements + [0])
                  && (s'.conversation == s.conversation || s'.conversation == x.found))
  {
    if Gate(command, s.conversation, key, x).None? {
      ReservingGrants(s, actor, x);
      var (held, r) := Reserving(s, actor, x);
      if r.Ok? {
        CommittingHoldsOrCloses(s, actor, x, Tx(command, s.conversation, key, x));
      }
    }
  }

  /** What a transaction that commits has found, and what it leaves for the run. */
  lemma CommittedHasPassed(command: Command, read: C.Conversation, key: string, x: Circumstances)
    requires Tx(command, read, key, x).Ok?
    ensures C.KeyFits(key) && !x.found.deleted && !C.KeyUsed(x.found, key) && !C.AnyActive(x.found.generations)
    ensures var c := Tx(command, read, key, x).value;
            && C.KeyUsed(c, key) && C.AnyActive(c.generations) && c.state == S.AcceptedState
            && C.AwaitsRun(c, x.ids.generation, x.ids.assistant)
            && c.generations != [] && c.generations[|c.generations| - 1].id == x.ids.generation
  {
    var c := Tx(command, read, key, x).value;
    var n := |c.generations| - 1;
    assert c.generations[n].key == key && C.Active(c.generations[n]);
  }

  lemma ReservedHasPassed(s: State, actor: Q.Actor, x: Circumstances)
    requires Reserving(s, actor, x).1.Ok?
    ensures x.withinRate && !L.Live(s.leases, actor.id, x.now)
    ensures Reserving(s, actor, x).0.conversation == s.conversation
  {
  }

  lemma GateHasPassed(command: Command, c: C.Conversation, key: string, x: Circumstances)
    requires Gate(command, c, key, x).None?
    ensures x.available && x.providerKnown && KeyPasses(key) && !c.deleted && !C.KeyUsed(c, key)
    ensures command.Generate? ==> x.validCommand && ContentPasses(command.content) && x.safety.Allowed?
    ensures command.Retry? ==> Latest(c).Some? && C.Retryable(Latest(c).value)
  {
  }

  lemma AcceptedMeans(s: State, command: Command, actor: Q.Actor, key: string, x: Circumstances)
    requires Outcome(s, command, actor, key, x).1.Accepted?
    ensures Gate(command, s.conversation, key, x).None? && Reserving(s, actor, x).1.Ok? && x.contextBuilt && x.idsDrawn
    ensures Tx(command, s.conversation, key, x) == Ok(Outcome(s, command, actor, key, x).0.conversation)
  {
  }

  /** What every accepted command has passed, on the conversation it read and the one it met. */
  lemma AcceptedHasPassed(s: State, command: Command, actor: Q.Actor, key: string, x: Circumstances)
    requires Outcome(s, command, actor, key, x).1.Accepted?
    ensures x.available && x.providerKnown && x.withinRate && x.contextBuilt && x.idsDrawn
    ensures KeyPasses(key) && C.KeyFits(key)
    ensures command.Generate? ==> x.validCommand && ContentPasses(command.content) && x.safety.Allowed?
    ensures command.Retry? ==>
              && Latest(s.conversation).Some? && C.Retryable(Latest(s.conversation).value)
    ensures !s.conversation.deleted && !C.KeyUsed(s.conversation, key)
    ensures !x.found.deleted && !C.KeyUsed(x.found, key) && !C.AnyActive(x.found.generations)
    ensures !L.Live(s.leases, actor.id, x.now)
    ensures var c := Outcome(s, command, actor, key, x).0.conversation;
            && Tx(command, s.conversation, key, x) == Ok(c)
            && C.KeyUsed(c, key) && C.AnyActive(c.generations) && c.state == S.AcceptedState
  {
    AcceptedMeans(s, command, actor, key, x);
    GateHasPassed(command, s.conversation, key, x);
    ReservedHasPassed(s, actor, x);
    CommittedHasPassed(command, s.conversation, key, x);
  }

  /** The ids drawn for a command are new to the conversation it has read and to the one it meets. */
  predicate FreshIds(command: Command, read: C.Conversation, x: Circumstances)
  {
    && (command.Retry? && Latest(read).Some? ==> Latest(read).value.userMessage != x.ids.assistant)
    && (forall i :: 0 <= i < |x.found.messages| ==> x.found.messages[i].id != x.ids.assistant)
    && (forall i :: 0 <= i < |x.found.generations| ==> x.found.generations[i].id != x.ids.generation)
    && (command.Generate? ==>
          x.ids.user != x.ids.assistant
          && forall i :: 0 <= i < |x.found.messages| ==> x.found.messages[i].id != x.ids.user)
  }

  lemma {:induction false} CharactersAtMostBytes(s: string)
    ensures |s| <= T.ByteLength(s)
  {
    if s == "" {
    } else {
      CharactersAtMostBytes(s[..|s| - 1]);
    }
  }

  /**
   * The gates count bytes and the table counts characters, so the table refuses a key the gates
   * have let through exactly when it has less than 16 characters. Such a command can never be
   * accepted: whatever it meets, it settles zero and leaves every row and token as it found them.
   */
  lemma WideKeyIsRefused(s: State, command: Command, actor: Q.Actor, key: string, x: Circumstances)
    requires Q.Conserved(s.ledger) && OwnerIsFresh(s.leases, x.owner) && KeyPasses(key)
    ensures !C.KeyFits(key) <==> |key| < C.KEY_MIN
    ensures var (s', answer) := Outcome(s, command, actor, key, x);
            && (!C.KeyFits(key) ==> !answer.Accepted? && SameBalances(s.ledger, s'.ledger))
            && (!C.KeyFits(key) && Gate(command, s.conversation, key, x).None? && Reserving(s, actor, x).1.Ok?
                && x.contextBuilt && x.idsDrawn ==>
                  answer == Refused(Internal) && s'.conversation == x.found && s'.settlements == s.settlements + [0])
  {
    CharactersAtMostBytes(key);
    if !C.KeyFits(key) {
      AcceptedOrUntouched(s, command, actor, key, x);
      TableRefuses(command, s.conversation, key, x);
      ReservingGrants(s, actor, x);
    }
  }

  lemma TableRefuses(command: Command, read: C.Conversation, key: string, x: Circumstances)
    requires !C.KeyFits(key)
    ensures Tx(command, read, key, x).Err? && !Tx(command, read, key, x).error.NoRows?
  {
  }

  /** There are such keys: eight characters of two bytes each. */
  lemma EightWideCharacters() returns (key: string)
    ensures |key| == 8 && KeyPasses(key) && !C.KeyFits(key)
  {
    key := seq(8, _ => '\U{e9}');
    AllWide(key);
  }

  lemma {:induction false} AllWide(s: string)
    requires forall i :: 0 <= i < |s| ==> T.Utf8Width(s[i]) == 2
    ensures T.ByteLength(s) == 2 * |s|
  {
    if s == "" {
    } else {
      AllWide(s[..|s| - 1]);
    }
  }

  /**
   * A command whose key the transaction finds used, even when the earlier check did not see it,
   * is a duplicate: no message, no generation, no token. It is accepted exactly when the key has
   * characters enough for the table and is unused, nothing is active and the conversation is not
   * deleted by then.
   */
  lemma LateDuplicate(s: State, command: Command, actor: Q.Actor, key: string, x: Circumstances)
    requires Q.Conserved(s.ledger) && OwnerIsFresh(s.leases, x.owner)
    requires C.Inv(x.found) && FreshIds(command, s.conversation, x)
    requires Gate(command, s.conversation, key, x).None? && Reserving(s, actor, x).1.Ok? && x.contextBuilt && x.idsDrawn
    ensures var (s', answer) := Outcome(s, command, actor, key, x);
            && (answer == Duplicate <==> C.FindKey(x.found.generations, key).Some?)
            && (answer.Accepted? <==>
                  |key| >= C.KEY_MIN && C.FindKey(x.found.generations, key).None?
                  && !C.AnyActive(x.found.generations) && !x.found.deleted)
            && (answer == Duplicate ==> s'.conversation == x.found && SameBalances(s.ledger, s'.ledger))
  {
    TransactionAnswers(command, s.conversation, key, x);
    AcceptedOrUntouched(s, command, actor, key, x);
  }

  /** What the transaction of a command that has passed its checks answers. */
  lemma TransactionAnswers(command: Command, read: C.Conversation, key: string, x: Circumstances)
    requires C.Inv(x.found) && FreshIds(command, read, x) && Gate(command, read, key, x).None?
    ensures var tx := Tx(command, read, key, x);
            && (tx == Err(C.NoRows) <==> C.KeyUsed(x.found, key))
            && (tx.Ok? <==> |key| >= C.KEY_MIN && !C.KeyUsed(x.found, key) && !C.AnyActive(x.found.generations)
                            && !x.found.deleted)
  {
    CharactersAtMostBytes(key);
    match command {
      case Generate(content) => C.AcceptSucceedsIff(x.found, x.ids, content, key, read.model);
      case Retry =>
        var previous := Latest(read).value;
        C.RetrySucceedsIff(x.found, x.ids, previous, key, previous.model);
    }
  }

  // --------------------------------------------------------- the whole life

  /** What the run of an accepted command meets. */
  datatype Aftermath = Aftermath(acknowledged: bool, prompt: seq<string>, opening: S.Opening, world: S.World, end: int)

  function FinalOutput(a: Aftermath): int
    requires S.OpeningOk(a.opening)
  {
    S.FinalUsage(S.RunEnd(a.opening, a.world), a.prompt).output
  }

  /** A generate command's run starts once its acknowledgement is out, a retry's in any case. */
  predicate Starts(command: Command, a: Aftermath) { command.Retry? || a.acknowledged }

  function Lifetime(s: State, command: Command, actor: Q.Actor, key: string, x: Circumstances,
                    a: Aftermath): (State, Answer)
    requires S.OpeningOk(a.opening)
  {
    var (s', answer) := Outcome(s, command, actor, key, x);
    if answer.Accepted? && Starts(command, a)
    then (AfterRun(s', answer.reservation, x.ids, a), answer)
    else (s', answer)
  }

  /** The rows accept and Retry create for a run. */
  const NEW_ROWS: S.Rows :=
    S.Rows(S.Generation(S.Accepted, false, None, S.Usage(0, 0, 0), 0), S.Message("", R.Pending),
           S.Conversation(S.AcceptedState, false), [], [])

  /** The run of a reservation: settled once, and its rows as the run leaves them. */
  function AfterRun(s: State, r: Q.Reservation, ids: C.Ids, a: Aftermath): State
    requires S.OpeningOk(a.opening)
  {
    var rows := S.RunRows(NEW_ROWS, ids.generation, r.reserved, a.prompt, a.opening, a.world);
    Settled(s, r, Min(Int32(FinalOutput(a)), r.reserved), a.end)
      .(conversation := C.Recorded(s.conversation, ids.generation, ids.assistant, rows))
  }

  /**
   * What a command starts, its run ends: afterwards the tables are as the statements of the run
   * leave them, the conversation is idle with its numbering and keys intact, and nothing is
   * active, if and only if the counts fit.
   */
  lemma RunEndsWhatItStarted(s: State, command: Command, actor: Q.Actor, key: string, x: Circumstances, a: Aftermath)
    requires S.OpeningOk(a.opening) && Starts(command, a) && C.Inv(x.found)
    requires Outcome(s, command, actor, key, x).1.Accepted?
    ensures var started := Outcome(s, command, actor, key, x).0.conversation;
            var ended := Lifetime(s, command, actor, key, x, a).0.conversation;
            && ended == C.AfterRun(started, x.ids.generation, x.ids.assistant, a.prompt, a.opening, a.world)
            && C.Inv(ended) && ended.state == S.Idle && C.KeyUsed(ended, key)
            && (C.AnyActive(ended.generations) <==> !S.CountsFit(S.FinalUsage(S.RunEnd(a.opening, a.world), a.prompt)))
  {
    var (s', answer) := Outcome(s, command, actor, key, x);
    var started := s'.conversation;
    AcceptedHasPassed(s, command, actor, key, x);
    CommittedHasPassed(command, s.conversation, key, x);
    CommittedKeepsInv(command, s.conversation, key, x);
    C.RecordedIsStatements(started, x.ids.generation, x.ids.assistant, NEW_ROWS, answer.reservation.reserved,
                           a.prompt, a.opening, a.world);
    C.RunEndsGeneration(started, x.ids.generation, x.ids.assistant, a.prompt, a.opening, a.world);
    C.AfterRunChanges(started, x.ids.generation, x.ids.assistant, a.prompt, a.opening, a.world);
    var i :| 0 <= i < |started.generations| && started.generations[i].key == key;
    var ended := C.AfterRun(started, x.ids.generation, x.ids.assistant, a.prompt, a.opening, a.world);
    assert ended.generations[i].key == key;
  }

  lemma CommittedKeepsInv(command: Command, read: C.Conversation, key: string, x: Circumstances)
    requires Tx(command, read, key, x).Ok? && C.Inv(x.found)
    ensures C.Inv(Tx(command, read, key, x).value)
  {
    match command
    case Generate(content) => C.AcceptKeepsInv(x.found, x.ids, content, key, read.model);
    case Retry => C.RetryKeepsInv(x.found, x.ids, Latest(read).value, key, Latest(read).value.model);
  }

  /**
   * Every reservation is settled exactly once. An accepted command whose run starts costs the
   * actor and the day it was reserved on exactly what its run counted, capped by the reservation,
   * provided the narrowed count is not negative; no other counter moves and nothing stays
   * outstanding. A generate command that is not acknowledged leaves its reservation outstanding.
   */
  lemma SettledExactlyOnce(s: State, command: Command, actor: Q.Actor, key: string, x: Circumstances, a: Aftermath)
    requires Q.Conserved(s.ledger) && OwnerIsFresh(s.leases, x.owner) && S.OpeningOk(a.opening)
    ensures var (s', answer) := Lifetime(s, command, actor, key, x, a);
            var before, after := Q.Outstanding(s.ledger.reservations), Q.Outstanding(s'.ledger.reservations);
            && Q.Conserved(s'.ledger)
            && (!answer.Accepted? ==> SameBalances(s.ledger, s'.ledger))
            && (answer.Accepted? && !Starts(command, a) ==> after == before + 1 && s'.settlements == s.settlements)
            && (answer.Accepted? && Starts(command, a) ==>
                  && |s'.settlements| == |s.settlements| + 1
                  && (after == before <==> Int32(FinalOutput(a)) >= 0)
                  && (Int32(FinalOutput(a)) >= 0 ==>
                        CostsExactly(s, s', actor, QS.UtcDay(x.now), s'.settlements[|s.settlements|])
                        && 0 <= s'.settlements[|s.settlements|] <= answer.reservation.reserved))
  {
    AcceptedOrUntouched(s, command, actor, key, x);
    var (s', answer) := Outcome(s, command, actor, key, x);
    if answer.Accepted? && Starts(command, a) && Int32(FinalOutput(a)) >= 0 {
      ReservingGrants(s, actor, x);
      var actual := Min(Int32(FinalOutput(a)), answer.reservation.reserved);
      forall b: Q.Bucket
        ensures var hit := b == Q.ActorBucket(actor, QS.UtcDay(x.now)) || b == Q.Daily(Q.GlobalKey(QS.UtcDay(x.now)));
                Q.Tokens(Q.AfterSettle(s'.ledger, answer.reservation, actual), b)
                == Q.Tokens(s.ledger, b) + (if hit then actual else 0)
      {
        SettlingCloses(s, actor, x, actual, b);
      }
      SettlingCloses(s, actor, x, actual, Q.Daily(Q.GlobalKey(0)));
    }
  }

  // ------------------------------------------------- many commands at a time

  function Ask(actor: Q.Actor, x: Circumstances, call: Id): QR.Step
  {
    QR.AskQuote(call, actor, x.modelLimit, QS.UtcDay(x.quotedAt), x.policy)
  }

  function Reserve(x: Circumstances, call: Id): QR.Step
  {
    QR.ReserveQuote(call, x.ids.reservation, QS.UtcDay(x.now), x.now, x.policy)
  }

  /** The quota calls a command makes, as steps that other commands' calls can fall between. */
  function Calls(s: State, command: Command, actor: Q.Actor, key: string, x: Circumstances, call: Id): seq<QR.Step>
  {
    if Gate(command, s.conversation, key, x).Some? || Reserving(s, actor, x).1.Err? then []
    else
      var r := Reserving(s, actor, x).1.value;
      [Ask(actor, x, call), Reserve(x, call)]
      + if Outcome(s, command, actor, key, x).1.Accepted? then [] else [QR.SettleReservation(r, 0)]
  }

  /** MaxOutputTokens and Reserve, as the two calls they are. */
  lemma ReservingIsCalls(s: State, actor: Q.Actor, x: Circumstances, quotes: map<Id, QR.Quote>, call: Id)
    requires Reserving(s, actor, x).1.Ok?
    ensures QR.Apply(QR.Apply(QR.System(s.ledger, quotes), Ask(actor, x, call)), Reserve(x, call)).ledger
            == Reserving(s, actor, x).0.ledger
  {
  }

  lemma CommittingIsCall(held: State, r: Q.Reservation, x: Circumstances, tx: Result<C.Conversation, C.TxError>,
                         quotes: map<Id, QR.Quote>)
    ensures var (s', answer) := Committing(held, r, x, tx);
            s'.ledger == if answer.Accepted? then held.ledger
                         else QR.Apply(QR.System(held.ledger, quotes), QR.SettleReservation(r, 0)).ledger
  {
  }

  /** What a command does to the ledger is what its quota calls do. */
  lemma OutcomeIsCalls(s: State, command: Command, actor: Q.Actor, key: string, x: Circumstances,
                       quotes: map<Id, QR.Quote>, call: Id)
    requires OwnerIsFresh(s.leases, x.owner)
    ensures QR.Continue(QR.System(s.ledger, quotes), Calls(s, command, actor, key, x, call)).ledger
            == Outcome(s, command, actor, key, x).0.ledger
  {
    ReservingGrants(s, actor, x);
    if Gate(command, s.conversation, key, x).None? && Reserving(s, actor, x).1.Ok? {
      var (held, r) := Reserving(s, actor, x);
      ReservedIsCalls(s, actor, x, quotes, call, held, r.value, Tx(command, s.conversation, key, x));
    }
  }

  lemma ReservedIsCalls(s: State, actor: Q.Actor, x: Circumstances, quotes: map<Id, QR.Quote>, call: Id,
                        held: State, r: Q.Reservation, tx: Result<C.Conversation, C.TxError>)
    requires Reserving(s, actor, x) == (held, Ok(r))
    ensures var (s', answer) := Committing(held, r, x, tx);
            var calls := [Ask(actor, x, call), Reserve(x, call)]
                         + if answer.Accepted? then [] else [QR.SettleReservation(r, 0)];
            QR.Continue(QR.System(s.ledger, quotes), calls).ledger == s'.ledger
  {
    var before, ask, reserve := QR.System(s.ledger, quotes), Ask(actor, x, call), Reserve(x, call);
    var reserved := QR.Apply(QR.Apply(before, ask), reserve);
    ReservingIsCalls(s, actor, x, quotes, call);
    QR.ContinueTwo(before, ask, reserve);
    QR.ContinueThree(before, ask, reserve, QR.SettleReservation(r, 0));
    assert [ask, reserve] + [] == [ask, reserve];
    CommittingIsCall(held, r, x, tx, reserved.quotes);
  }

  /** A command's calls spare every reservation but its own. */
  lemma CallsSpareOthers(s: State, command: Command, actor: Q.Actor, key: string, x: Circumstances, call: Id, other: Id)
    requires OwnerIsFresh(s.leases, x.owner) && other != x.ids.reservation
    ensures forall k :: 0 <= k < |Calls(s, command, actor, key, x, call)| ==>
              QR.Spares(Calls(s, command, actor, key, x, call)[k], other)
  {
    if Gate(command, s.conversation, key, x).None? && Reserving(s, actor, x).1.Ok? {
      var r := Reserving(s, actor, x).1.value;
      assert r.id == x.ids.reservation by { ReservingGrants(s, actor, x); }
      var calls := Calls(s, command, actor, key, x, call);
      assert calls == [Ask(actor, x, call), Reserve(x, call)]
             || calls == [Ask(actor, x, call), Reserve(x, call)] + [QR.SettleReservation(r, 0)];
    }
  }

  /**
   * Settled exactly once, amid other commands: between the acceptance of a command and the end of
   * its run any number of other quota calls go through, and more after it. The settlement succeeds
   * if and only if the narrowed count is not negative; it then moves exactly the command's two
   * counters, from where they are by now, and nothing that follows settles the reservation again.
   */
  lemma SettledOnceAmidTraffic(s: State, command: Command, actor: Q.Actor, key: string, x: Circumstances, a: Aftermath,
                               quotes: map<Id, QR.Quote>, between: seq<QR.Step>, later: seq<QR.Step>, b: Q.Bucket)
    requires Q.Conserved(s.ledger) && OwnerIsFresh(s.leases, x.owner) && S.OpeningOk(a.opening)
    requires Outcome(s, command, actor, key, x).1.Accepted? && forall c :: c in quotes ==> QR.Sound(quotes[c])
    requires forall k :: 0 <= k < |between| ==> QR.Spares(between[k], x.ids.reservation)
    ensures var (s', answer) := Outcome(s, command, actor, key, x);
            var r := answer.reservation;
            var amount := Min(Int32(FinalOutput(a)), r.reserved);
            var hit := b == Q.ActorBucket(actor, QS.UtcDay(x.now)) || b == Q.Daily(Q.GlobalKey(QS.UtcDay(x.now)));
            var l := QR.Continue(QR.System(s'.ledger, quotes), between).ledger;
            && (Q.Settle(l, r, amount).Ok? <==> Int32(FinalOutput(a)) >= 0)
            && (Int32(FinalOutput(a)) >= 0 ==>
                  && Q.Tokens(Q.AfterSettle(l, r, amount), b)
                     == Q.Tokens(l, b) - (if hit then r.reserved - amount else 0)
                  && var end := QR.Continue(QR.System(Q.AfterSettle(l, r, amount), quotes), later).ledger;
                     forall again :: 0 <= again <= r.reserved ==> Q.Settle(end, r, again) == Ok(end))
  {
    var (s', answer) := Outcome(s, command, actor, key, x);
    var r := answer.reservation;
    AcceptedIsHeld(s, command, actor, key, x);
    if Int32(FinalOutput(a)) >= 0 {
      SettlesOnceAt(QR.System(s'.ledger, quotes), |s.ledger.reservations|, r, between, later,
                    Min(Int32(FinalOutput(a)), r.reserved), b);
    }
  }

  /** An accepted command holds the newest row of the table. */
  lemma AcceptedIsHeld(s: State, command: Command, actor: Q.Actor, key: string, x: Circumstances)
    requires Q.Conserved(s.ledger) && OwnerIsFresh(s.leases, x.owner)
    requires Outcome(s, command, actor, key, x).1.Accepted?
    ensures var (s', answer) := Outcome(s, command, actor, key, x);
            var i, r := |s.ledger.reservations|, answer.reservation;
            && Q.Conserved(s'.ledger) && r.reserved > 0 && r.id == x.ids.reservation
            && i < |s'.ledger.reservations| && QR.HeldBy(s'.ledger.reservations[i], r)
            && s'.ledger.reservations[i].actor == actor && s'.ledger.reservations[i].day == QS.UtcDay(x.now)
  {
    var (s', answer) := Outcome(s, command, actor, key, x);
    assert Q.Conserved(s'.ledger) && Reserving(s, actor, x).1 == Ok(answer.reservation)
           && s'.ledger == Reserving(s, actor, x).0.ledger by {
      AcceptedOrUntouched(s, command, actor, key, x);
    }
    ReservedIsHeld(s, actor, x);
  }

  lemma ReservedIsHeld(s: State, actor: Q.Actor, x: Circumstances)
    requires OwnerIsFresh(s.leases, x.owner) && Reserving(s, actor, x).1.Ok?
    ensures var (s', r) := Reserving(s, actor, x);
            && r.value.reserved > 0 && r.value.id == x.ids.reservation
            && s'.ledger.reservations ==
               s.ledger.reservations
               + [Q.ReservationRow(x.ids.reservation, actor, QS.UtcDay(x.now), r.value.reserved, None, Q.Reserved)]
            && QR.HeldBy(s'.ledger.reservations[|s.ledger.reservations|], r.value)
  {
    ReservingGrants(s, actor, x);
    var r := Reserving(s, actor, x).1.value;
    Q.ReserveCharges(s.ledger, x.policy, x.ids.reservation, actor, r.reserved, QS.UtcDay(x.now), x.now,
                     Q.Daily(Q.GlobalKey(0)));
  }

  /** The same for any reservation that is held, as row i of the table. */
  lemma SettlesOnceAt(held: QR.System, i: nat, r: Q.Reservation, between: seq<QR.Step>, later: seq<QR.Step>,
                      amount: int, b: Q.Bucket)
    requires QR.LedgerInv(held) && i < |held.ledger.reservations| && QR.HeldBy(held.ledger.reservations[i], r)
    requires 0 <= amount <= r.reserved && forall k :: 0 <= k < |between| ==> QR.Spares(between[k], r.id)
    ensures var l := QR.Continue(held, between).ledger;
            var settled := Q.Settle(l, r, amount);
            && settled.Ok?
            && Q.Tokens(settled.value, b) == Q.Tokens(l, b)
               - (if Q.Charges(held.ledger.reservations[i], b) then r.reserved - amount else 0)
            && var end := QR.Continue(QR.System(settled.value, held.quotes), later).ledger;
               forall again :: 0 <= again <= r.reserved ==> Q.Settle(end, r, again) == Ok(end)
  {
    QR.SettlesAmidTraffic(held, between, i, r, amount, b);
    QR.ReservationSurvives(held, between, i);
    QR.ContinueConserves(held, between);
    var l := QR.Continue(held, between).ledger;
    var settled := Q.Settle(l, r, amount).value;
    assert Q.Find(l.reservations, r.id) == Some(i);
    Q.SettleRecords(l, r, amount, i);
    forall again | 0 <= again <= r.reserved
      ensures var end := QR.Continue(QR.System(settled, held.quotes), later).ledger; Q.Settle(end, r, again) == Ok(end)
    {
      QR.SettledForGood(QR.System(settled, held.quotes), later, i, r, again);
    }
  }

  /** Exactly the actor's and the service's counters of that day move, by that amount. */
  ghost predicate CostsExactly(s: State, s': State, actor: Q.Actor, day: int, actual: int)
  {
    forall b: Q.Bucket ::
      var hit := b == Q.ActorBucket(actor, day) || b == Q.Daily(Q.GlobalKey(day));
      Q.Tokens(s'.ledger, b) == Q.Tokens(s.ledger, b) + (if hit then actual else 0)
  }

  /**
   * From the provider to the browser: however the deltas of a run are dropped, repeated and
   * reordered, the browser shows a prefix of the message the run stored, and the whole of it
   * exactly when they arrived in order. If the run finished, that is the provider's whole answer.
   */
  lemma BrowserFollowsRun(rows: S.Rows, id: Id, reserved: int, prompt: seq<string>, o: S.Opening, w: S.World,
                          messages: seq<R.Message>, ds: seq<R.Delivery>, j: nat)
    requires S.Fresh(rows) && S.OpeningOk(o)
    requires j < |messages| && messages[j].generationId == Some(id) && messages[j].content == ""
    requires forall k :: 0 <= k < |ds| ==> R.Genuine(map[id := S.RunChunks(o, w)], ds[k])
    ensures var stored := S.RunRows(rows, id, reserved, prompt, o, w).message.content;
            var shown := R.HandleAll(messages, map[id := S.RunChunks(o, w)], ds);
            && j < |shown| && shown[j].content <= stored
            && (shown[j].content == stored <==> R.Subsequence(R.UpTo(|S.RunChunks(o, w)|), R.Indices(ds, id)))
            && (S.RunEnd(o, w).Finished? ==> o.Open? && stored == T.Concat(S.Answer(o.script)))
  {
    S.RunOutcome(rows, id, reserved, prompt, o, w);
    R.FullAnswerIff(messages, map[id := S.RunChunks(o, w)], ds, j, id);
  }

  // ----------------------------------------------------------- the service

  class ChatService {
    const quota: QS.Service
    var conversation: C.Conversation
    var settlements: seq<int>   // every amount passed to Settle

    constructor (quota: QS.Service, model: Id)
      ensures this.quota == quota && conversation == C.Created(model) && settlements == []
    {
      this.quota := quota;
      conversation := C.Created(model);
      settlements := [];
    }

    ghost function View(): State reads this, quota { State(quota.View(), quota.leases, conversation, settlements) }

    method ReserveOutput(actor: Q.Actor, x: Circumstances) returns (r: Result<Q.Reservation, Q.Error>)
      modifies quota
      ensures (View(), r) == Reserving(old(View()), actor, x)
    {
      var tokens := quota.MaxOutputTokens(x.policy, actor, x.modelLimit, x.quotedAt);
      if tokens.Err? {
        return Err(tokens.error);
      }
      r := quota.Reserve(x.policy, actor, tokens.value, x.now, x.withinRate, x.ids.reservation, x.owner);
    }

    method Abandon(reservation: Q.Reservation, now: int)
      modifies this`settlements, quota
      ensures View() == Settled(old(View()), reservation, 0, now)
    {
      settlements := settlements + [0];
      var _ := quota.Settle(reservation, 0, now);
    }

    /** What the transaction answered, and its failing exits. */
    method Commit(r: Q.Reservation, x: Circumstances, tx: Result<C.Conversation, C.TxError>) returns (answer: Answer)
      requires x.contextBuilt && x.idsDrawn
      modifies this, quota
      ensures (View(), answer) == Committing(old(View()), r, x, tx)
    {
      conversation := x.found;
      if tx.Ok? {
        conversation := tx.value;
        return Accepted(r);
      }
      Abandon(r, x.now);
      answer := if tx.error.NoRows? then Duplicate else Refused(Internal);
    }

    method Accept(actor: Q.Actor, content: string, key: string, x: Circumstances) returns (answer: Answer)
      modifies this, quota
      ensures (View(), answer) == Outcome(old(View()), Generate(content), actor, key, x)
    {
      if !KeyPasses(key) {
        return Refused(InvalidCommand);
      }
      if !x.available {
        return Refused(Unavailable);
      }
      if !x.validCommand || !ContentPasses(content) {
        return Refused(InvalidCommand);
      }
      if x.safety.Unavailable? {
        return Refused(SafetyUnavailable);
      }
      if x.safety.Blocked? {
        return Refused(SafetyBlocked);
      }
      if conversation.deleted {
        return Refused(NotFound);
      }
      if C.FindKey(conversation.generations, key).Some? {
        return Duplicate;
      }
      if !x.providerKnown {
        return Refused(Unavailable);
      }
      answer := ReserveAndCommit(actor, x, C.AcceptTx(x.found, x.ids, content, key, conversation.model));
    }

    method Retry(actor: Q.Actor, key: string, x: Circumstances) returns (answer: Answer)
      modifies this, quota
      ensures (View(), answer) == Outcome(old(View()), Command.Retry, actor, key, x)
    {
      if !KeyPasses(key) {
        return Refused(InvalidCommand);
      }
      if !x.available {
        return Refused(Unavailable);
      }
      if conversation.deleted {
        return Refused(NotFound);
      }
      if C.FindKey(conversation.generations, key).Some? {
        return Duplicate;
      }
      var previous := Latest(conversation);
      if previous.None? || !C.Retryable(previous.value) {
        return Refused(NotRetryable);
      }
      if !x.providerKnown {
        return Refused(Unavailable);
      }
      answer := ReserveAndCommit(actor, x, C.RetryTx(x.found, x.ids, previous.value, key, previous.value.model));
    }

    /** The common tail of accept and Retry. */
    method ReserveAndCommit(actor: Q.Actor, x: Circumstances, tx: Result<C.Conversation, C.TxError>)
      returns (answer: Answer)
      modifies this, quota
      ensures var (held, r) := Reserving(old(View()), actor, x);
              (View(), answer) == if r.Err? then (held, Refused(QuotaRefused(r.error)))
                                  else Committing(held, r.value, x, tx)
    {
      var r := ReserveOutput(actor, x);
      if r.Err? {
        return Refused(QuotaRefused(r.error));
      }
      if !x.contextBuilt || !x.idsDrawn {
        Abandon(r.value, x.now);
        return Refused(Internal);
      }
      answer := Commit(r.value, x, tx);
    }

    /** A command and the run it starts. */
    method Live(command: Command, actor: Q.Actor, key: string, x: Circumstances, a: Aftermath) returns (answer: Answer)
      requires S.OpeningOk(a.opening)
      modifies this, quota
      ensures (View(), answer) == Lifetime(old(View()), command, actor, key, x, a)
    {
      if command.Generate? {
        answer := Accept(actor, command.content, key, x);
      } else {
        answer := Retry(actor, key, x);
      }
      if answer.Accepted? && Starts(command, a) {
        Start(answer.reservation, x.ids, a);
      }
    }

    /** The goroutine of one accepted generation, on the rows the transaction created for it. */
    method Start(reservation: Q.Reservation, ids: C.Ids, a: Aftermath)
      requires S.OpeningOk(a.opening)
      modifies this, quota
      ensures View() == AfterRun(old(View()), reservation, ids, a)
    {
      var run := new S.Run(ids.generation, reservation, a.prompt, quota);
      S.RunOutcome(run.View(), ids.generation, reservation.reserved, a.prompt, a.opening, a.world);
      run.Stream(a.opening, a.world, a.end);
      settlements := settlements + run.settlements;
      conversation := C.Recorded(conversation, ids.generation, ids.assistant,
        S.Rows(run.generation, run.message, run.conversation, run.events, run.settlements));
    }
  }
}
