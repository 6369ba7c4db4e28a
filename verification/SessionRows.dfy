/** Session and refresh-token rows, and the transactions of the session service over them. */
module SessionRows {
  import opened Basics

  datatype Session = Session(
    user: Id, family: Id, version: int, expiresAt: int, revokedAt: Option<int>, reuseDetectedAt: Option<int>)

  /** Tokens are stored by hash; the table lists them in insertion order. */
  datatype Token = Token(hash: Id, session: Id, expiresAt: int, usedAt: Option<int>)

  datatype Db = Db(sessions: map<Id, Session>, tokens: seq<Token>)

  datatype Error = InvalidRefresh | RefreshReuse | SessionRevoked | Database

  /** What the signer puts into an access token. */
  datatype Claims = Claims(user: Id, session: Id, version: int)

  function FindToken(tokens: seq<Token>, hash: Id): (i: Option<nat>)
    ensures i.Some? ==> i.value < |tokens| && tokens[i.value].hash == hash
    ensures i.None? ==> forall k :: 0 <= k < |tokens| ==> tokens[k].hash != hash
  {
    IndexOf(tokens, (row: Token) => row.hash == hash)
  }

  function Revoked(s: Session, now: int): Session
  {
    s.(revokedAt := if s.revokedAt.Some? then s.revokedAt else Some(now), version := s.version + 1)
  }

  function RevokedForReuse(s: Session, now: int): Session
  {
    Revoked(s, now).(reuseDetectedAt := if s.reuseDetectedAt.Some? then s.reuseDetectedAt else Some(now))
  }

  function RevokeSessionFamily(sessions: map<Id, Session>, family: Id, now: int): map<Id, Session>
  {
    map id | id in sessions ::
      if sessions[id].family == family then RevokedForReuse(sessions[id], now) else sessions[id]
  }

  /** Create: the new session fixes the expiry that every token of the family will carry. */
  function CreateTx(db: Db, id: Id, user: Id, family: Id, hash: Id, now: int, ttl: int): Result<Db, Error>
  {
    if id in db.sessions || FindToken(db.tokens, hash).Some? then Err(Database)
    else
      Ok(Db(db.sessions[id := Session(user, family, 1, now + ttl, None, None)],
            db.tokens + [Token(hash, id, now + ttl, None)]))
  }

  /** Token i is spent and its successor appended. */
  function Rotated(tokens: seq<Token>, i: nat, next: Id, expiresAt: int, now: int): seq<Token>
    requires i < |tokens|
  {
    tokens[i := tokens[i].(usedAt := Some(now))] + [Token(next, tokens[i].session, expiresAt, None)]
  }

  /**
   * Rotate. A semantic error is reported after the transaction commits, so the revocation on
   * reuse stays although the caller gets an error.
   */
  function RotateTx(db: Db, hash: Id, next: Id, now: int): (Db, Result<Claims, Error>)
  {
    match FindToken(db.tokens, hash)
    case None => (db, Err(InvalidRefresh))
    case Some(i) =>
      var token := db.tokens[i];
      if token.session !in db.sessions then (db, Err(InvalidRefresh))
      else
        var session := db.sessions[token.session];
        if token.usedAt.Some? then
          (db.(sessions := RevokeSessionFamily(db.sessions, session.family, now)), Err(RefreshReuse))
        else if session.revokedAt.Some? || token.expiresAt <= now || session.expiresAt <= now then
          (db, Err(InvalidRefresh))
        else if FindToken(db.tokens, next).Some? then (db, Err(Database))
        else
          (db.(tokens := Rotated(db.tokens, i, next, session.expiresAt, now)),
           Ok(Claims(session.user, token.session, session.version)))
  }

  function RevokeTx(db: Db, user: Id, id: Id, now: int): Db
  {
    if id !in db.sessions || db.sessions[id].user != user then db
    else db.(sessions := db.sessions[id := Revoked(db.sessions[id], now)])
  }

  /** ValidateAccessSession, after the signature and the claim syntax have been checked. */
  predicate Validates(db: Db, claims: Claims, now: int)
  {
    && claims.session in db.sessions
    && var s := db.sessions[claims.session];
       s.user == claims.user && s.revokedAt.None? && s.expiresAt > now && s.version == claims.version
  }

  // ------------------------------------------------------------------ runs

  datatype Step =
    | Create(id: Id, user: Id, family: Id, hash: Id, at: int, ttl: int)
    | Rotate(hash: Id, next: Id, at: int)
    | Revoke(user: Id, id: Id, at: int)

  predicate FamilyInUse(db: Db, family: Id)
  {
    exists id :: id in db.sessions && db.sessions[id].family == family
  }

  function Apply(db: Db, step: Step): Db
  {
    match step
    case Create(id, user, family, hash, at, ttl) =>
      if FamilyInUse(db, family) then db   // family ids come fresh from the id source
      else (match CreateTx(db, id, user, family, hash, at, ttl) case Ok(d) => d case Err(_) => db)
    case Rotate(hash, next, at) => RotateTx(db, hash, next, at).0
    case Revoke(user, id, at) => RevokeTx(db, user, id, at)
  }

  function Run(db: Db, steps: seq<Step>): Db
  {
    if steps == [] then db else Apply(Run(db, steps[..|steps| - 1]), steps[|steps| - 1])
  }

  // ---------------------------------------------------------------- chains

  /** The refresh tokens of one session, oldest first. */
  function Chain(tokens: seq<Token>, session: Id): seq<Token>
  {
    if tokens == [] then []
    else Chain(tokens[..|tokens| - 1], session)
         + if tokens[|tokens| - 1].session == session then [tokens[|tokens| - 1]] else []
  }

  /** Linear: every token but the newest has been used, and the newest has not. */
  predicate Linear(chain: seq<Token>)
  {
    && chain != []
    && (forall k :: 0 <= k < |chain| - 1 ==> chain[k].usedAt.Some?)
    && chain[|chain| - 1].usedAt.None?
  }

  predicate Distinct(tokens: seq<Token>)
  {
    forall i, j :: 0 <= i < j < |tokens| ==> tokens[i].hash != tokens[j].hash
  }

  /** The token belongs to a session and carries that session's expiry. */
  predicate Belongs(t: Token, sessions: map<Id, Session>)
  {
    t.session in sessions && t.expiresAt == sessions[t.session].expiresAt
  }

  ghost predicate ChainsLinear(db: Db)
  {
    forall id :: id in db.sessions ==> Linear(Chain(db.tokens, id))
  }

  ghost predicate Inv(db: Db)
  {
    && Distinct(db.tokens)
    && (forall i :: 0 <= i < |db.tokens| ==> Belongs(db.tokens[i], db.sessions))
    && ChainsLinear(db)
  }

  /** Token i of the table is token k of its session's chain, and updating one updates the other. */
  lemma {:induction false} ChainUpdate(tokens: seq<Token>, i: nat, t: Token) returns (k: nat)
    requires i < |tokens| && t.session == tokens[i].session
    ensures k < |Chain(tokens, t.session)| && Chain(tokens, t.session)[k] == tokens[i]
    ensures Chain(tokens[i := t], t.session) == Chain(tokens, t.session)[k := t]
  {
    var n := |tokens| - 1;
    if i == n {
      k := |Chain(tokens[..n], t.session)|;
      assert tokens[i := t][..n] == tokens[..n];
    } else {
      k := ChainUpdate(tokens[..n], i, t);
      assert tokens[i := t][..n] == tokens[..n][i := t];
    }
  }

  lemma {:induction false} OtherChain(tokens: seq<Token>, i: nat, t: Token, session: Id)
    requires i < |tokens| && tokens[i].session != session && t.session != session
    ensures Chain(tokens[i := t], session) == Chain(tokens, session)
  {
    var n := |tokens| - 1;
    if i == n {
      assert tokens[i := t][..n] == tokens[..n];
    } else {
      assert tokens[i := t][..n] == tokens[..n][i := t];
      OtherChain(tokens[..n], i, t, session);
    }
  }

  lemma ChainAppend(tokens: seq<Token>, t: Token, session: Id)
    ensures Chain(tokens + [t], session) == Chain(tokens, session) + if t.session == session then [t] else []
  {
    assert (tokens + [t])[..|tokens|] == tokens;
  }

  lemma {:induction false} EmptyChain(tokens: seq<Token>, session: Id)
    requires forall i :: 0 <= i < |tokens| ==> tokens[i].session != session
    ensures Chain(tokens, session) == []
  {
    if tokens == [] {
    } else {
      EmptyChain(tokens[..|tokens| - 1], session);
    }
  }

  /** The unused token of a session is the newest of its chain. */
  lemma NewestIsSpent(db: Db, i: nat, spent: Token)
    requires ChainsLinear(db) && i < |db.tokens| && db.tokens[i].usedAt.None?
    requires db.tokens[i].session in db.sessions && spent.session == db.tokens[i].session
    ensures var chain := Chain(db.tokens, spent.session);
            && chain != [] && chain[|chain| - 1] == db.tokens[i]
            && Chain(db.tokens[i := spent], spent.session) == chain[..|chain| - 1] + [spent]
  {
    var k := ChainUpdate(db.tokens, i, spent);
    var chain := Chain(db.tokens, spent.session);
    assert Linear(chain);
    assert k == |chain| - 1;
    assert chain[k := spent] == chain[..k] + [spent];
  }

  /** Spending the unused token of a session extends its chain by one, and no other chain changes. */
  lemma RotatedChains(db: Db, i: nat, next: Id, expiresAt: int, now: int, id: Id)
    requires ChainsLinear(db) && i < |db.tokens| && db.tokens[i].usedAt.None? && db.tokens[i].session in db.sessions
    ensures var before, after := Chain(db.tokens, id), Chain(Rotated(db.tokens, i, next, expiresAt, now), id);
            if id == db.tokens[i].session
            then before != [] && before[|before| - 1] == db.tokens[i]
                 && after == before[..|before| - 1] + [db.tokens[i].(usedAt := Some(now))]
                                           + [Token(next, id, expiresAt, None)]
            else after == before
  {
    var spent := db.tokens[i].(usedAt := Some(now));
    ChainAppend(db.tokens[i := spent], Token(next, spent.session, expiresAt, None), id);
    if id == spent.session {
      NewestIsSpent(db, i, spent);
    } else {
      OtherChain(db.tokens, i, spent, id);
    }
  }

  /**
   * A successful rotation spends the newest token of its session and adds exactly one successor
   * with the session's unchanged expiry; every other chain is untouched.
   */
  lemma RotateExtendsChain(db: Db, hash: Id, next: Id, now: int)
    requires Inv(db) && RotateTx(db, hash, next, now).1.Ok?
    ensures var (db', r) := RotateTx(db, hash, next, now);
            var id := r.value.session;
            && id in db.sessions && db'.sessions == db.sessions
            && var chain := Chain(db.tokens, id);
               var newest := chain[|chain| - 1];
               && newest.hash == hash
               && Chain(db'.tokens, id) == chain[..|chain| - 1] + [newest.(usedAt := Some(now))]
                                           + [Token(next, id, db.sessions[id].expiresAt, None)]
               && forall other :: other != id ==> Chain(db'.tokens, other) == Chain(db.tokens, other)
  {
    var i := FindToken(db.tokens, hash).value;
    var id := db.tokens[i].session;
    RotatedChains(db, i, next, db.sessions[id].expiresAt, now, id);
    forall other | other != id ensures Chain(RotateTx(db, hash, next, now).0.tokens, other) == Chain(db.tokens, other) {
      RotatedChains(db, i, next, db.sessions[id].expiresAt, now, other);
    }
  }

  lemma AppendedStaysDistinct(tokens: seq<Token>, t: Token)
    requires Distinct(tokens) && forall k :: 0 <= k < |tokens| ==> tokens[k].hash != t.hash
    ensures Distinct(tokens + [t])
  {
  }

  /** A token of a session that is new to the table is a chain of its own. */
  lemma CreatedChains(db: Db, t: Token, s: Session)
    requires ChainsLinear(db) && t.usedAt.None?
    requires forall i :: 0 <= i < |db.tokens| ==> db.tokens[i].session != t.session
    ensures ChainsLinear(Db(db.sessions[t.session := s], db.tokens + [t]))
  {
    forall id | id in db.sessions[t.session := s] ensures Linear(Chain(db.tokens + [t], id)) {
      ChainAppend(db.tokens, t, id);
      if id == t.session {
        EmptyChain(db.tokens, id);
      } else {
        assert Linear(Chain(db.tokens, id));
      }
    }
  }

  /** A session with a new id and its token leave every token with its session. */
  lemma CreatedBelongs(db: Db, t: Token, s: Session)
    requires forall i :: 0 <= i < |db.tokens| ==> Belongs(db.tokens[i], db.sessions)
    requires t.session !in db.sessions && t.expiresAt == s.expiresAt
    ensures forall i :: 0 <= i < |db.tokens| ==> db.tokens[i].session != t.session
    ensures var tokens := db.tokens + [t];
            forall i :: 0 <= i < |tokens| ==> Belongs(tokens[i], db.sessions[t.session := s])
  {
    forall i | 0 <= i < |db.tokens|
      ensures db.tokens[i].session != t.session && Belongs(db.tokens[i], db.sessions[t.session := s])
    {
      assert Belongs(db.tokens[i], db.sessions);
    }
  }

  lemma CreateKeepsInv(db: Db, id: Id, user: Id, family: Id, hash: Id, now: int, ttl: int)
    requires Inv(db) && CreateTx(db, id, user, family, hash, now, ttl).Ok?
    ensures Inv(CreateTx(db, id, user, family, hash, now, ttl).value)
  {
    var t := Token(hash, id, now + ttl, None);
    var s := Session(user, family, 1, now + ttl, None, None);
    assert CreateTx(db, id, user, family, hash, now, ttl).value == Db(db.sessions[t.session := s], db.tokens + [t]);
    AppendedStaysDistinct(db.tokens, t);
    CreatedBelongs(db, t, s);
    CreatedChains(db, t, s);
  }

  lemma RotatedBelongs(db: Db, i: nat, next: Id, now: int)
    requires Distinct(db.tokens) && i < |db.tokens| && db.tokens[i].session in db.sessions
    requires forall k :: 0 <= k < |db.tokens| ==> Belongs(db.tokens[k], db.sessions) && db.tokens[k].hash != next
    ensures var tokens := Rotated(db.tokens, i, next, db.sessions[db.tokens[i].session].expiresAt, now);
            Distinct(tokens) && forall j :: 0 <= j < |tokens| ==> Belongs(tokens[j], db.sessions)
  {
    var tokens := Rotated(db.tokens, i, next, db.sessions[db.tokens[i].session].expiresAt, now);
    forall j | 0 <= j < |tokens|
      ensures Belongs(tokens[j], db.sessions)
      ensures tokens[j].hash == if j < |db.tokens| then db.tokens[j].hash else next
    {
      assert j < |db.tokens| ==> Belongs(db.tokens[j], db.sessions);
    }
  }

  lemma RotatedKeepsInv(db: Db, i: nat, next: Id, now: int)
    requires Inv(db) && i < |db.tokens| && db.tokens[i].usedAt.None?
    requires forall k :: 0 <= k < |db.tokens| ==> db.tokens[k].hash != next
    requires db.tokens[i].session in db.sessions
    ensures Inv(db.(tokens := Rotated(db.tokens, i, next, db.sessions[db.tokens[i].session].expiresAt, now)))
  {
    var expiresAt := db.sessions[db.tokens[i].session].expiresAt;
    var tokens := Rotated(db.tokens, i, next, expiresAt, now);
    forall id | id in db.sessions ensures Linear(Chain(tokens, id)) {
      RotatedChains(db, i, next, expiresAt, now, id);
      assert Linear(Chain(db.tokens, id));
    }
    RotatedBelongs(db, i, next, now);
  }

  lemma RotateKeepsInv(db: Db, hash: Id, next: Id, now: int)
    requires Inv(db) && RotateTx(db, hash, next, now).1.Ok?
    ensures Inv(RotateTx(db, hash, next, now).0)
  {
    RotatedKeepsInv(db, FindToken(db.tokens, hash).value, next, now);
  }

  lemma StepKeepsInv(db: Db, step: Step)
    requires Inv(db)
    ensures Inv(Apply(db, step))
  {
    match step
    case Create(id, user, family, hash, at, ttl) =>
      if !FamilyInUse(db, family) && CreateTx(db, id, user, family, hash, at, ttl).Ok? {
        CreateKeepsInv(db, id, user, family, hash, at, ttl);
      }
    case Rotate(hash, next, at) =>
      if RotateTx(db, hash, next, at).1.Ok? {
        RotateKeepsInv(db, hash, next, at);
      }
    case Revoke(_, _, _) =>
  }

  /**
   * In every run each session has exactly one unused refresh token, the newest of a linear chain
   * of used ones, and all of them carry the session's own expiry.
   */
  lemma {:induction false} SessionsStayLinear(db: Db, steps: seq<Step>)
    requires Inv(db)
    ensures Inv(Run(db, steps))
  {
    if steps == [] {
    } else {
      SessionsStayLinear(db, steps[..|steps| - 1]);
      StepKeepsInv(Run(db, steps[..|steps| - 1]), steps[|steps| - 1]);
    }
  }

  // -------------------------------------------------------- fork detection

  /** What never changes about a row, and the ways in which rows only ever move. */
  ghost predicate Later(db: Db, db': Db)
  {
    && (forall id :: id in db.sessions ==>
          && id in db'.sessions
          && db'.sessions[id].user == db.sessions[id].user
          && db'.sessions[id].family == db.sessions[id].family
          && db'.sessions[id].expiresAt == db.sessions[id].expiresAt
          && (db.sessions[id].revokedAt.Some? ==> db'.sessions[id].revokedAt == db.sessions[id].revokedAt))
    && (forall id :: id in db'.sessions && id !in db.sessions ==> !FamilyInUse(db, db'.sessions[id].family))
    && |db.tokens| <= |db'.tokens|
    && (forall i :: 0 <= i < |db.tokens| ==>
          && db'.tokens[i].hash == db.tokens[i].hash
          && db'.tokens[i].session == db.tokens[i].session
          && (db.tokens[i].usedAt.Some? ==> db'.tokens[i].usedAt.Some?))
  }

  lemma StepIsLater(db: Db, step: Step)
    ensures Later(db, Apply(db, step))
  {
  }

  lemma LaterTransitive(a: Db, b: Db, c: Db)
    requires Later(a, b) && Later(b, c)
    ensures Later(a, c)
  {
    forall id | id in c.sessions && id !in a.sessions ensures !FamilyInUse(a, c.sessions[id].family) {
      if FamilyInUse(a, c.sessions[id].family) {
        var x :| x in a.sessions && a.sessions[x].family == c.sessions[id].family;
        assert b.sessions[x].family == c.sessions[id].family;
        assert FamilyInUse(b, c.sessions[id].family);
      }
    }
  }

  lemma {:induction false} RunIsLater(db: Db, steps: seq<Step>)
    ensures Later(db, Run(db, steps))
  {
    if steps == [] {
    } else {
      RunIsLater(db, steps[..|steps| - 1]);
      StepIsLater(Run(db, steps[..|steps| - 1]), steps[|steps| - 1]);
      LaterTransitive(db, Run(db, steps[..|steps| - 1]), Run(db, steps));
    }
  }

  ghost predicate FamilyRevoked(db: Db, family: Id)
  {
    FamilyInUse(db, family) && forall id :: id in db.sessions && db.sessions[id].family == family ==>
      db.sessions[id].revokedAt.Some?
  }

  /** A revoked family stays dead: no token of it rotates and no access token of it validates. */
  lemma RevokedFamilyStaysDead(db: Db, family: Id, later: seq<Step>, hash: Id, next: Id, claims: Claims, now: int)
    requires FamilyRevoked(db, family)
    ensures var end := Run(db, later);
            && FamilyRevoked(end, family)
            && (RotateTx(end, hash, next, now).1.Ok? ==>
                  end.sessions[end.tokens[FindToken(end.tokens, hash).value].session].family != family)
            && (Validates(end, claims, now) ==> end.sessions[claims.session].family != family)
  {
    RunIsLater(db, later);
    var x :| x in db.sessions && db.sessions[x].family == family;
    assert Run(db, later).sessions[x].family == family;
  }

  lemma FoundWhereItIs(tokens: seq<Token>, i: nat)
    requires Distinct(tokens) && i < |tokens|
    ensures FindToken(tokens, tokens[i].hash) == Some(i)
  {
  }

  /** A used token keeps its place in the table and stays used, whatever follows. */
  lemma UsedStaysUsed(db: Db, later: seq<Step>, i: nat)
    requires Inv(db) && i < |db.tokens| && db.tokens[i].usedAt.Some?
    ensures var end := Run(db, later);
            && FindToken(end.tokens, db.tokens[i].hash) == Some(i)
            && end.tokens[i].usedAt.Some? && end.tokens[i].session == db.tokens[i].session
  {
    var end := Run(db, later);
    RunIsLater(db, later);
    assert end.tokens[i].hash == db.tokens[i].hash;
    assert Distinct(end.tokens) by { SessionsStayLinear(db, later); }
    FoundWhereItIs(end.tokens, i);
  }

  /** Presenting a used token is answered by the revocation of its whole family. */
  lemma ReuseRevokesFamily(db: Db, hash: Id, next: Id, now: int, i: nat)
    requires FindToken(db.tokens, hash) == Some(i) && db.tokens[i].usedAt.Some? && db.tokens[i].session in db.sessions
    ensures var (after, answer) := RotateTx(db, hash, next, now);
            answer == Err(RefreshReuse) && FamilyRevoked(after, db.sessions[db.tokens[i].session].family)
  {
    var after := RotateTx(db, hash, next, now).0;
    assert after.sessions[db.tokens[i].session].family == db.sessions[db.tokens[i].session].family;
  }

  /** What a successful rotation was given: an unused token, which it spends. */
  lemma RotatedWasFound(db: Db, hash: Id, next: Id, now: int) returns (i: nat)
    requires RotateTx(db, hash, next, now).1.Ok?
    ensures i < |db.tokens| && db.tokens[i].hash == hash && db.tokens[i].session in db.sessions
    ensures var (db', r) := RotateTx(db, hash, next, now);
            && r.value.session == db.tokens[i].session && db'.sessions == db.sessions
            && i < |db'.tokens| && db'.tokens[i] == db.tokens[i].(usedAt := Some(now))
  {
    i := FindToken(db.tokens, hash).value;
  }

  /**
   * Rotation detects a fork. Once a token has been rotated, whoever presents it again (after any
   * other activity) is told of the reuse, and from then on, whatever follows, no token of the
   * family rotates and no access token of it validates.
   */
  lemma ForkKillsFamily(db: Db, hash: Id, next: Id, t1: int, between: seq<Step>, next2: Id, t2: int,
                        later: seq<Step>, anyHash: Id, anyNext: Id, anyClaims: Claims, t3: int)
    requires Inv(db) && RotateTx(db, hash, next, t1).1.Ok?
    ensures var family := db.sessions[RotateTx(db, hash, next, t1).1.value.session].family;
            var forked := Run(RotateTx(db, hash, next, t1).0, between);
            var (after, answer) := RotateTx(forked, hash, next2, t2);
            var end := Run(after, later);
            && answer == Err(RefreshReuse)
            && FamilyRevoked(after, family)
            && (RotateTx(end, anyHash, anyNext, t3).1.Ok? ==>
                  end.sessions[end.tokens[FindToken(end.tokens, anyHash).value].session].family != family)
            && (Validates(end, anyClaims, t3) ==> end.sessions[anyClaims.session].family != family)
  {
    var i := RotatedWasFound(db, hash, next, t1);
    var db1 := RotateTx(db, hash, next, t1).0;
    var family := db.sessions[db.tokens[i].session].family;
    RotateKeepsInv(db, hash, next, t1);
    UsedStaysUsed(db1, between, i);
    RunIsLater(db1, between);
    var forked := Run(db1, between);
    ReuseRevokesFamily(forked, hash, next2, t2, i);
    RevokedFamilyStaysDead(RotateTx(forked, hash, next2, t2).0, family, later, anyHash, anyNext, anyClaims, t3);
  }

  // ------------------------------------------------- expiry and revocation

  /** A session that is revoked, or past the expiry it was created with. */
  predicate Over(s: Session, now: int) { s.revokedAt.Some? || s.expiresAt <= now }

  /**
   * No activity revives a session or extends it: once it is revoked, or its fixed expiry has
   * passed, none of its refresh tokens rotates and none of its access tokens validates.
   */
  lemma {:induction false} OverStaysOver(db: Db, id: Id, later: seq<Step>, hash: Id, next: Id, claims: Claims, now: int)
    requires Inv(db) && id in db.sessions && Over(db.sessions[id], now)
    ensures var end := Run(db, later);
            && id in end.sessions && Over(end.sessions[id], now)
            && end.sessions[id].expiresAt == db.sessions[id].expiresAt
            && (RotateTx(end, hash, next, now).1.Ok? ==> RotateTx(end, hash, next, now).1.value.session != id)
            && (Validates(end, claims, now) ==> claims.session != id)
  {
    RunIsLater(db, later);
  }

  /** Revoke ends the caller's own session for good, and nobody else's. */
  lemma RevokeEndsSession(db: Db, user: Id, id: Id, now: int)
    requires Inv(db) && id in db.sessions
    ensures var db' := RevokeTx(db, user, id, now);
            && (db'.sessions[id].revokedAt.Some? <==> db.sessions[id].revokedAt.Some? || db.sessions[id].user == user)
            && (forall other :: other in db.sessions && other != id ==> db'.sessions[other] == db.sessions[other])
            && db'.tokens == db.tokens
  {
  }

  /** A live session can always go on: its newest token rotates, for claims that validate. */
  lemma NewestRotates(db: Db, id: Id, next: Id, now: int)
    requires Inv(db) && id in db.sessions && !Over(db.sessions[id], now)
    requires FindToken(db.tokens, next).None?
    ensures var chain := Chain(db.tokens, id);
            && chain != []
            && var (db', r) := RotateTx(db, chain[|chain| - 1].hash, next, now);
               && r == Ok(Claims(db.sessions[id].user, id, db.sessions[id].version))
               && Validates(db', r.value, now)
               && Chain(db'.tokens, id)[|Chain(db'.tokens, id)| - 1].hash == next
  {
    var chain := Chain(db.tokens, id);
    assert Linear(chain);
    var newest := chain[|chain| - 1];
    var i := ChainMember(db.tokens, id, |chain| - 1);
    assert Belongs(db.tokens[i], db.sessions);
    assert FindToken(db.tokens, newest.hash) == Some(i);
    RotateExtendsChain(db, newest.hash, next, now);
  }

  lemma {:induction false} ChainMember(tokens: seq<Token>, id: Id, k: nat) returns (i: nat)
    requires k < |Chain(tokens, id)|
    ensures i < |tokens| && tokens[i] == Chain(tokens, id)[k] && tokens[i].session == id
  {
    var n := |tokens| - 1;
    if k < |Chain(tokens[..n], id)| {
      i := ChainMember(tokens[..n], id, k);
    } else {
      i := n;
    }
  }

  lemma FindsCreated(tokens: seq<Token>, t: Token, other: Id)
    requires FindToken(tokens, t.hash).None? && FindToken(tokens, other).None? && other != t.hash
    ensures FindToken(tokens + [t], t.hash) == Some(|tokens|) && FindToken(tokens + [t], other).None?
  {
    assert (tokens + [t])[|tokens|] == t;
    assert forall i :: 0 <= i < |tokens| ==> (tokens + [t])[i] == tokens[i];
  }

  /** What Create hands out works at once and until the expiry it fixes, if nothing else happens. */
  lemma CreatedWorks(db: Db, id: Id, user: Id, family: Id, hash: Id, next: Id, now: int, ttl: int, t: int)
    requires CreateTx(db, id, user, family, hash, now, ttl).Ok?
    requires next != hash && FindToken(db.tokens, next).None?
    ensures var db' := CreateTx(db, id, user, family, hash, now, ttl).value;
            && (Validates(db', Claims(user, id, 1), t) <==> t < now + ttl)
            && (RotateTx(db', hash, next, t).1.Ok? <==> t < now + ttl)
  {
    var db' := CreateTx(db, id, user, family, hash, now, ttl).value;
    FindsCreated(db.tokens, Token(hash, id, now + ttl, None), next);
    assert db'.tokens[|db.tokens|] == Token(hash, id, now + ttl, None);
  }
}
