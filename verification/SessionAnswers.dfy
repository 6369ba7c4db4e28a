/**
 * What the session service answers and writes, read off the rows: which presented token is
 * unknown, reused, dead or good, which sessions a reuse or a revocation changes, and which access
 * claims pass.
 */
module SessionAnswers {
  import opened Basics
  import opened SessionRows

  predicate HashIsNew(tokens: seq<Token>, hash: Id) { forall k :: 0 <= k < |tokens| ==> tokens[k].hash != hash }

  /** A session once it is revoked, for reuse or not: the first times stay, and the version moves on. */
  function Ended(s: Session, now: int, reuse: bool): Session
  {
    Session(s.user, s.family, s.version + 1, s.expiresAt,
            Some(if s.revokedAt.Some? then s.revokedAt.value else now),
            if reuse && s.reuseDetectedAt.None? then Some(now) else s.reuseDetectedAt)
  }

  /** Exactly the sessions of this family have been ended for reuse. */
  ghost predicate FamilyEnded(before: map<Id, Session>, after: map<Id, Session>, family: Id, now: int)
  {
    && after.Keys == before.Keys
    && (forall id :: id in before && before[id].family == family ==> after[id] == Ended(before[id], now, true))
    && (forall id :: id in before && before[id].family != family ==> after[id] == before[id])
  }

  /** A token nobody has been given is refused, and nothing changes. */
  lemma UnknownTokenIsRefused(db: Db, hash: Id, next: Id, now: int)
    requires HashIsNew(db.tokens, hash)
    ensures RotateTx(db, hash, next, now) == (db, Err(InvalidRefresh))
  {
  }

  /**
   * What a rotation answers for the token in row i. A used one is a reuse, whatever the state of
   * its session; an unused one is refused if its session is revoked or either of them has expired;
   * otherwise it rotates, unless the successor's hash is taken.
   */
  lemma RotateAnswers(db: Db, hash: Id, next: Id, now: int, i: nat)
    requires Distinct(db.tokens) && i < |db.tokens| && db.tokens[i].hash == hash && db.tokens[i].session in db.sessions
    ensures var (_, r) := RotateTx(db, hash, next, now);
            var t := db.tokens[i];
            var s := db.sessions[t.session];
            var good := t.usedAt.None? && s.revokedAt.None? && now < t.expiresAt && now < s.expiresAt;
            && (r == Err(RefreshReuse) <==> t.usedAt.Some?)
            && (r == Err(InvalidRefresh) <==> t.usedAt.None? && !good)
            && (r == Err(Database) <==> good && !HashIsNew(db.tokens, next))
            && (r.Ok? <==> good && HashIsNew(db.tokens, next))
            && (r.Ok? ==> r.value == Claims(s.user, t.session, s.version))
  {
    assert FindToken(db.tokens, hash) == Some(i);
  }

  /** What it writes: on a reuse the whole family, on success the two token rows, and otherwise nothing. */
  lemma RotateWrites(db: Db, hash: Id, next: Id, now: int, i: nat)
    requires Distinct(db.tokens) && i < |db.tokens| && db.tokens[i].hash == hash && db.tokens[i].session in db.sessions
    ensures var (after, r) := RotateTx(db, hash, next, now);
            var t := db.tokens[i];
            var s := db.sessions[t.session];
            && (r.Err? ==> after.tokens == db.tokens)
            && (r == Err(RefreshReuse) ==> FamilyEnded(db.sessions, after.sessions, s.family, now))
            && (r != Err(RefreshReuse) ==> after.sessions == db.sessions)
            && (r.Ok? ==> after.tokens == db.tokens[i := Token(hash, t.session, t.expiresAt, Some(now))]
                                          + [Token(next, t.session, s.expiresAt, None)])
  {
    assert FindToken(db.tokens, hash) == Some(i);
  }

  /** A new session starts at version 1 with one token; both carry the same expiry. */
  lemma CreateWrites(db: Db, id: Id, user: Id, family: Id, hash: Id, now: int, ttl: int)
    ensures var r := CreateTx(db, id, user, family, hash, now, ttl);
            && (r.Ok? <==> id !in db.sessions && HashIsNew(db.tokens, hash))
            && (r.Err? ==> r == Err(Database))
            && (r.Ok? ==>
                  r.value == Db(db.sessions[id := Session(user, family, 1, now + ttl, None, None)],
                                db.tokens + [Token(hash, id, now + ttl, None)]))
  {
  }

  /** A revocation ends the caller's own session and no other. */
  lemma RevokeWrites(db: Db, user: Id, id: Id, now: int)
    ensures RevokeTx(db, user, id, now) ==
            if id in db.sessions && db.sessions[id].user == user
            then Db(db.sessions[id := Ended(db.sessions[id], now, false)], db.tokens) else db
  {
  }

  /**
   * Access claims pass exactly while their session is the user's, live, and at the version they
   * carry; so every revocation ends the claims signed before it.
   */
  lemma ClaimsPassIff(db: Db, claims: Claims, now: int)
    ensures Validates(db, claims, now) <==>
            claims.session in db.sessions
            && var s := db.sessions[claims.session];
               s.user == claims.user && s.version == claims.version && s.revokedAt.None? && now < s.expiresAt
    ensures Validates(db, claims, now) ==>
              !Validates(RevokeTx(db, claims.user, claims.session, now), claims, now)
  {
  }
}
