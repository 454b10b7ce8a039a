/** The login session store: tokens mapped to sessions that expire 24 hours after creation. */
module Auth {
  import opened Wrappers
  import opened Tokens

  const SessionLifetime: int := 24 * 60 * 60

  datatype Session = Session(token: string, user: string, createdAt: int, expiresAt: int)

  /** A session is expired once the time is strictly after its expiry. */
  predicate Expired(s: Session, now: int) {
    now > s.expiresAt
  }

  /** The token names a session that has not expired. */
  predicate Live(sessions: map<string, Session>, token: string, now: int) {
    token in sessions && !Expired(sessions[token], now)
  }

  /** The outcome of the authentication middleware: a redirect to the login page, or the wrapped handler
      called with the session's user. */
  datatype AuthOutcome = Redirect(status: int, location: string) | Next(user: string)

  const StatusSeeOther: int := 303

  class AuthManager {
    var sessions: map<string, Session>

    /** Every session is stored under its own token. */
    ghost predicate Valid()
      reads this
    {
      forall t :: t in sessions ==> sessions[t].token == t
    }

    /** NewAuthManager: no sessions. */
    constructor ()
      ensures Valid() && sessions == map[]
    {
      sessions := map[];
    }

    /** CreateSession: a fresh token whose session expires a day from now; a failing random source stores nothing. */
    method CreateSession(user: string, random: Result<Bytes32>, now: int) returns (r: Result<string>)
      requires Valid()
      modifies this
      ensures Valid()
      ensures random.Err? ==> r.Err? && sessions == old(sessions)
      ensures random.Ok? ==> r == Ok(Token(random.value))
      ensures r.Ok? ==> sessions == old(sessions)[r.value := Session(r.value, user, now, now + SessionLifetime)]
      ensures r.Ok? ==> Live(sessions, r.value, now)
    {
      r := GenerateToken(random);
      if r.Err? {
        return;
      }
      sessions := sessions[r.value := Session(r.value, user, now, now + SessionLifetime)];
    }

    /** ValidateSession: an unknown token is refused and changes nothing; an expired one is refused and
        deleted; a live one gives its session. */
    method ValidateSession(token: string, now: int) returns (s: Option<Session>)
      requires Valid()
      modifies this
      ensures Valid()
      ensures s.Some? <==> Live(old(sessions), token, now)
      ensures s.Some? ==> s.value == old(sessions)[token] && s.value.token == token
      ensures token !in old(sessions) || s.Some? ==> sessions == old(sessions)
      ensures token in old(sessions) && s.None? ==> sessions == old(sessions) - {token}
    {
      if token !in sessions {
        return None;
      }
      var session := sessions[token];
      if Expired(session, now) {
        sessions := sessions - {token};
        return None;
      }
      s := Some(session);
    }

    /** DeleteSession: removes exactly that token, present or not. */
    method DeleteSession(token: string)
      requires Valid()
      modifies this
      ensures Valid()
      ensures sessions == old(sessions) - {token}
    {
      sessions := sessions - {token};
    }

    /** cleanupExpired, one tick: every expired session is removed and every other one kept unchanged. */
    method CleanupExpired(now: int)
      requires Valid()
      modifies this
      ensures Valid()
      ensures forall t :: t in sessions <==> t in old(sessions) && !Expired(old(sessions)[t], now)
      ensures forall t :: t in sessions ==> sessions[t] == old(sessions)[t]
      ensures forall t :: Live(sessions, t, now) <==> Live(old(sessions), t, now)
    {
      var pending := sessions.Keys;
      while pending != {}
        invariant Valid() && pending <= old(sessions).Keys
        invariant forall t :: t in sessions <==> t in old(sessions) && (t in pending || !Expired(old(sessions)[t], now))
        invariant forall t :: t in sessions ==> sessions[t] == old(sessions)[t]
        decreases |pending|
      {
        var t :| t in pending;
        if Expired(sessions[t], now) {
          sessions := sessions - {t};
        }
        pending := pending - {t};
      }
    }

    /** AuthMiddleware: a missing cookie or a refused session redirects to the login page; a live
        session calls the handler with its user. Only an expired session named by the cookie is
        deleted; every other session map is left as it was. */
    method AuthMiddleware(cookie: Option<string>, userQuery: string, now: int) returns (d: AuthOutcome)
      requires Valid()
      modifies this
      ensures Valid()
      ensures d.Redirect? ==> d == Redirect(StatusSeeOther, "/login?user=" + userQuery)
      ensures d.Next? <==> cookie.Some? && Live(old(sessions), cookie.value, now)
      ensures d.Next? ==> d.user == old(sessions)[cookie.value].user
      ensures cookie.None? ==> sessions == old(sessions)
      ensures cookie.Some? && (cookie.value !in old(sessions) || d.Next?) ==> sessions == old(sessions)
      ensures cookie.Some? && cookie.value in old(sessions) && d.Redirect? ==> sessions == old(sessions) - {cookie.value}
    {
      if cookie.None? {
        return Redirect(StatusSeeOther, "/login?user=" + userQuery);
      }
      var session := ValidateSession(cookie.value, now);
      if session.None? {
        return Redirect(StatusSeeOther, "/login?user=" + userQuery);
      }
      d := Next(session.value.user);
    }
  }

  /** A session created at time now stays live up to and including now + 24h, and expires right after. */
  lemma LiveForADay(sessions: map<string, Session>, token: string, user: string, created: int, later: int)
    requires sessions == map[token := Session(token, user, created, created + SessionLifetime)]
    ensures Live(sessions, token, later) <==> later <= created + 86400
  {
  }
}
