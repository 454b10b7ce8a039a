/** CSRF protection: issued tokens with their expiry, and the filter that checks state-changing requests. */
module Csrf {
  import opened Wrappers
  import opened Tokens

  const TokenLifetime: int := 24 * 60 * 60
  const StatusForbidden: int := 403

  /** The parts of a request the filter reads: its method, the X-CSRF-Token header, the csrf_token
      form value ("" when absent, as for Go's Header.Get and FormValue) and the csrf_token cookie. */
  datatype Request = Request(httpMethod: string, header: string, formValue: string, cookie: Option<string>)

  /** The filter either refuses the request or hands it on to the wrapped handler. */
  datatype Outcome = Forbidden(status: int, message: string) | Next

  /** Only these methods change state and are checked. */
  predicate StateChanging(httpMethod: string) {
    httpMethod == "POST" || httpMethod == "PUT" || httpMethod == "DELETE" || httpMethod == "PATCH"
  }

  /** The token a request presents: the header, else the form value, else the cookie; None when all three
      are absent. */
  function PresentedToken(req: Request): (t: Option<string>)
    ensures req.header != "" ==> t == Some(req.header)
    ensures req.header == "" && req.formValue != "" ==> t == Some(req.formValue)
    ensures req.header == "" && req.formValue == "" ==> t == (if req.cookie.Some? then Some(req.cookie.value) else None)
    ensures t.None? <==> req.header == "" && req.formValue == "" && req.cookie.None?
  {
    if req.header != "" then Some(req.header)
    else if req.formValue != "" then Some(req.formValue)
    else if req.cookie.Some? then Some(req.cookie.value)
    else None
  }

  /** A token is accepted while the time is not after its expiry. */
  predicate Accepted(tokens: map<string, int>, token: string, now: int) {
    token in tokens && !(now > tokens[token])
  }

  /** The reuse test of GetToken: stored and the time strictly before its expiry. */
  predicate Reusable(tokens: map<string, int>, cookie: Option<string>, now: int) {
    cookie.Some? && cookie.value in tokens && now < tokens[cookie.value]
  }

  /** A token that GetToken reuses is one that ValidateToken accepts. */
  lemma ReusableIsAccepted(tokens: map<string, int>, cookie: Option<string>, now: int)
    requires Reusable(tokens, cookie, now)
    ensures Accepted(tokens, cookie.value, now)
  {
  }

  /** At the very instant of expiry the two tests disagree: the token still validates, yet GetToken
      no longer reuses it and issues a fresh one. */
  lemma ExpiryInstant(tokens: map<string, int>, token: string, now: int)
    requires token in tokens && tokens[token] == now
    ensures Accepted(tokens, token, now) && !Reusable(tokens, Some(token), now)
  {
  }

  class CsrfProtection {
    var tokens: map<string, int>

    /** NewCSRFProtection: no tokens. */
    constructor ()
      ensures tokens == map[]
    {
      tokens := map[];
    }

    /** ValidateToken: the token is stored and the time is not after its expiry. */
    function ValidateToken(token: string, now: int): (ok: bool)
      reads this
      ensures ok <==> Accepted(tokens, token, now)
      ensures ok ==> token in tokens && now <= tokens[token]
    {
      token in tokens && !(now > tokens[token])
    }

    /** GetToken: the cookie's token when it is stored and not yet at its expiry; otherwise a fresh
        token valid for 24 hours, and nothing stored when the random source fails. */
    method GetToken(cookie: Option<string>, random: Result<Bytes32>, now: int) returns (r: Result<string>)
      modifies this
      ensures Reusable(old(tokens), cookie, now) ==> r == Ok(cookie.value) && tokens == old(tokens)
      ensures !Reusable(old(tokens), cookie, now) && random.Err? ==> r.Err? && tokens == old(tokens)
      ensures !Reusable(old(tokens), cookie, now) && random.Ok? ==>
        r == Ok(Token(random.value)) && tokens == old(tokens)[r.value := now + TokenLifetime]
      ensures r.Ok? ==> ValidateToken(r.value, now)
    {
      if cookie.Some? {
        if cookie.value in tokens && now < tokens[cookie.value] {
          return Ok(cookie.value);
        }
      }
      r := GenerateToken(random);
      if r.Err? {
        return;
      }
      tokens := tokens[r.value := now + TokenLifetime];
    }

    /** cleanupTokens, one tick: exactly the tokens whose expiry is before now are removed. */
    method CleanupTokens(now: int)
      modifies this
      ensures forall t :: t in tokens <==> t in old(tokens) && !(now > old(tokens)[t])
      ensures forall t :: t in tokens ==> tokens[t] == old(tokens)[t]
      ensures forall t :: ValidateToken(t, now) <==> Accepted(old(tokens), t, now)
    {
      var pending := tokens.Keys;
      while pending != {}
        invariant pending <= old(tokens).Keys
        invariant forall t :: t in tokens <==> t in old(tokens) && (t in pending || !(now > old(tokens)[t]))
        invariant forall t :: t in tokens ==> tokens[t] == old(tokens)[t]
        decreases |pending|
      {
        var t :| t in pending;
        if now > tokens[t] {
          tokens := tokens - {t};
        }
        pending := pending - {t};
      }
    }

    /** Protect: requests that do not change state pass; the others need a presented token that validates. */
    function Protect(req: Request, now: int): (d: Outcome)
      reads this
      ensures !StateChanging(req.httpMethod) ==> d == Next
      ensures StateChanging(req.httpMethod) && PresentedToken(req).None? ==> d == Forbidden(StatusForbidden, "CSRF token missing")
      ensures StateChanging(req.httpMethod) && PresentedToken(req).Some? && !ValidateToken(PresentedToken(req).value, now) ==>
        d == Forbidden(StatusForbidden, "Invalid CSRF token")
      ensures d == Next <==> !StateChanging(req.httpMethod) || (PresentedToken(req).Some? && ValidateToken(PresentedToken(req).value, now))
    {
      if !StateChanging(req.httpMethod) then Next
      else
        var token := PresentedToken(req);
        if token.None? then Forbidden(StatusForbidden, "CSRF token missing")
        else if !ValidateToken(token.value, now) then Forbidden(StatusForbidden, "Invalid CSRF token")
        else Next
    }
  }

  /** A non-empty header decides a checked request alone: the form value and the cookie are not looked at. */
  lemma HeaderTakesPrecedence(c: CsrfProtection, req: Request, formValue: string, cookie: Option<string>, now: int)
    requires StateChanging(req.httpMethod) && req.header != ""
    ensures c.Protect(req, now) == c.Protect(Request(req.httpMethod, req.header, formValue, cookie), now)
  {
  }
}
