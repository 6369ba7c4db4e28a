/** The session service over its two tables. */
module SessionService {
  import opened Basics
  import opened SessionRows

  datatype Credentials = Credentials(access: Claims, refresh: Id)

  class Service {
    const refreshTTL: int
    var sessions: map<Id, Session>
    var tokens: seq<Token>

    ghost function View(): Db reads this { Db(sessions, tokens) }

    constructor (refreshTTL: int)
      ensures this.refreshTTL == refreshTTL && View() == Db(map[], [])
      ensures Inv(View())
    {
      this.refreshTTL := refreshTTL;
      sessions, tokens := map[], [];
    }

    /** Inserts both rows or neither. */
    method Create(user: Id, id: Id, family: Id, refresh: Id, now: int) returns (r: Result<Credentials, Error>)
      modifies this
      ensures match CreateTx(old(View()), id, user, family, refresh, now, refreshTTL)
              case Ok(db) => View() == db && r == Ok(Credentials(Claims(user, id, 1), refresh))
              case Err(e) => View() == old(View()) && r == Err(e)
      ensures old(Inv(View())) ==> Inv(View())
    {
      if old(Inv(View())) && CreateTx(View(), id, user, family, refresh, now, refreshTTL).Ok? {
        CreateKeepsInv(View(), id, user, family, refresh, now, refreshTTL);
      }
      if id in sessions {
        return Err(Database);
      }
      var saved := sessions;
      sessions := sessions[id := Session(user, family, 1, now + refreshTTL, None, None)];
      if FindToken(tokens, refresh).Some? {
        sessions := saved;
        return Err(Database);
      }
      tokens := tokens + [Token(refresh, id, now + refreshTTL, None)];
      r := Ok(Credentials(Claims(user, id, sessions[id].version), refresh));
    }

    method Rotate(raw: Id, next: Id, now: int) returns (r: Result<Credentials, Error>)
      modifies this
      ensures raw == NIL ==> View() == old(View()) && r == Err(InvalidRefresh)
      ensures raw != NIL ==> View() == RotateTx(old(View()), raw, next, now).0
      ensures raw != NIL ==>
        match RotateTx(old(View()), raw, next, now).1
        case Ok(claims) => r == Ok(Credentials(claims, next))
        case Err(e) => r == Err(e)
      ensures old(Inv(View())) ==> Inv(View())
    {
      if old(Inv(View())) {
        StepKeepsInv(View(), SessionRows.Rotate(raw, next, now));
      }
      if raw == NIL {
        return Err(InvalidRefresh);
      }
      var found := FindToken(tokens, raw);
      if found.None? || tokens[found.value].session !in sessions {
        return Err(InvalidRefresh);
      }
      var locked := tokens[found.value];
      var session := sessions[locked.session];
      if locked.usedAt.Some? {
        sessions := map id | id in sessions ::
          if sessions[id].family == session.family then RevokedForReuse(sessions[id], now) else sessions[id];
        return Err(RefreshReuse);
      }
      if session.revokedAt.Some? || locked.expiresAt <= now || session.expiresAt <= now {
        return Err(InvalidRefresh);
      }
      var saved := tokens;
      tokens := tokens[found.value := locked.(usedAt := Some(now))];
      if FindToken(saved, next).Some? {
        tokens := saved;
        return Err(Database);
      }
      tokens := tokens + [Token(next, locked.session, session.expiresAt, None)];
      r := Ok(Credentials(Claims(session.user, locked.session, session.version), next));
    }

    method Revoke(user: Id, id: Id, now: int) returns (revoked: bool)
      modifies this`sessions
      ensures View() == RevokeTx(old(View()), user, id, now)
      ensures revoked <==> id in old(sessions) && old(sessions)[id].user == user
    {
      revoked := id in sessions && sessions[id].user == user;
      if revoked {
        sessions := sessions[id := Revoked(sessions[id], now)];
      }
    }

    method ValidateAccessSession(claims: Claims, now: int) returns (r: Result<(Id, Id), Error>)
      ensures r == if Validates(View(), claims, now) then Ok((claims.user, claims.session)) else Err(SessionRevoked)
    {
      if claims.session !in sessions {
        return Err(SessionRevoked);
      }
      var s := sessions[claims.session];
      if s.user != claims.user || s.revokedAt.Some? || s.expiresAt <= now || s.version != claims.version {
        return Err(SessionRevoked);
      }
      r := Ok((claims.user, claims.session));
    }
  }
}
