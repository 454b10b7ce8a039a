/** The per-address token-bucket rate limiter: each visitor may make `rate` requests per window. */
module RateLimit {

  const StaleAfter: int := 10 * 60
  const StatusTooManyRequests: int := 429
  const LimitMessage: string := "Rate limit exceeded. Please try again later."

  datatype Outcome = TooMany(status: int, message: string) | Next

  /** A bucket's state after one allow call, and whether the call was granted. */
  datatype Step = Step(tokens: int, lastRefill: int, granted: bool)

  function Min(a: int, b: int): int {
    if a <= b then a else b
  }

  /** The tokens a bucket holds: never more than rate, and never negative unless rate itself is. */
  predicate InBounds(tokens: int, rate: int) {
    Min(rate, 0) <= tokens <= rate
  }

  /** allow: a full window after the last refill the bucket is refilled to rate; then a token is taken
      if there is one. */
  function AllowStep(tokens: int, lastRefill: int, now: int, rate: int, window: int): (s: Step)
    ensures now - lastRefill >= window ==> s.lastRefill == now
    ensures now - lastRefill < window ==> s.lastRefill == lastRefill
    ensures s.granted <==> (if now - lastRefill >= window then rate else tokens) > 0
    ensures s.tokens == (if now - lastRefill >= window then rate else tokens) - (if s.granted then 1 else 0)
  {
    var (t, last) := if now - lastRefill >= window then (rate, now) else (tokens, lastRefill);
    if t > 0 then Step(t - 1, last, true) else Step(t, last, false)
  }

  /** Every allow call keeps the bucket in bounds. */
  lemma AllowStepInBounds(tokens: int, lastRefill: int, now: int, rate: int, window: int)
    requires InBounds(tokens, rate)
    ensures InBounds(AllowStep(tokens, lastRefill, now, rate, window).tokens, rate)
  {
  }

  /** A refused call changes nothing unless it refilled the bucket. */
  lemma RefusalChangesNothing(tokens: int, lastRefill: int, now: int, rate: int, window: int)
    requires now - lastRefill < window && !AllowStep(tokens, lastRefill, now, rate, window).granted
    ensures AllowStep(tokens, lastRefill, now, rate, window) == Step(tokens, lastRefill, false)
  {
  }

  /** The number of calls granted when allow is called at each of the times in order. */
  function Granted(tokens: int, lastRefill: int, times: seq<int>, rate: int, window: int): nat
    decreases |times|
  {
    if |times| == 0 then 0
    else
      var s := AllowStep(tokens, lastRefill, times[0], rate, window);
      (if s.granted then 1 else 0) + Granted(s.tokens, s.lastRefill, times[1..], rate, window)
  }

  /** Calls that all fall before the next refill are granted while tokens last and refused afterwards:
      exactly min(tokens, number of calls) of them succeed, so never more than rate. */
  lemma {:induction false} GrantedBetweenRefills(tokens: int, lastRefill: int, times: seq<int>, rate: int, window: int)
    requires InBounds(tokens, rate)
    requires forall i :: 0 <= i < |times| ==> times[i] - lastRefill < window
    ensures Granted(tokens, lastRefill, times, rate, window) == Min(if tokens < 0 then 0 else tokens, |times|)
    ensures Granted(tokens, lastRefill, times, rate, window) <= if rate < 0 then 0 else rate
    decreases |times|
  {
    if |times| > 0 {
      var s := AllowStep(tokens, lastRefill, times[0], rate, window);
      assert s.lastRefill == lastRefill;
      assert forall i :: 0 <= i < |times[1..]| ==> times[1..][i] - lastRefill < window by {
        forall i | 0 <= i < |times[1..]| ensures times[1..][i] - lastRefill < window {
          assert times[1..][i] == times[i + 1];
        }
      }
      GrantedBetweenRefills(s.tokens, s.lastRefill, times[1..], rate, window);
    }
  }

  /** One visitor's bucket, updated in place by allow. */
  class Visitor {
    var tokens: int
    var lastRefill: int

    constructor (rate: int, now: int)
      ensures tokens == rate && lastRefill == now
    {
      tokens := rate;
      lastRefill := now;
    }

    /** allow: the bucket takes the step AllowStep describes and reports whether the call was granted. */
    method Allow(rate: int, window: int, now: int) returns (granted: bool)
      modifies this
      ensures Step(tokens, lastRefill, granted) == AllowStep(old(tokens), old(lastRefill), now, rate, window)
      ensures old(InBounds(tokens, rate)) ==> InBounds(tokens, rate)
    {
      var elapsed := now - lastRefill;
      if elapsed >= window {
        tokens := rate;
        lastRefill := now;
      }
      if tokens > 0 {
        tokens := tokens - 1;
        return true;
      }
      granted := false;
    }
  }

  class RateLimiter {
    const rate: int
    const window: int
    var visitors: map<string, Visitor>

    /** Every bucket is in bounds, and no two addresses share one. */
    ghost predicate Valid()
      reads this, visitors.Values
    {
      (forall ip :: ip in visitors ==> InBounds(visitors[ip].tokens, rate)) &&
      (forall ip, jp :: ip in visitors && jp in visitors && ip != jp ==> visitors[ip] != visitors[jp])
    }

    /** NewRateLimiter: no visitors yet. */
    constructor (rate: int, window: int)
      ensures Valid() && this.rate == rate && this.window == window && visitors == map[]
    {
      this.rate := rate;
      this.window := window;
      visitors := map[];
    }

    /** getVisitor: the address's bucket; an unseen address gets a new full bucket refilled now. */
    method GetVisitor(ip: string, now: int) returns (v: Visitor)
      requires Valid()
      modifies this
      ensures Valid()
      ensures ip in old(visitors) ==> v == old(visitors)[ip] && visitors == old(visitors)
      ensures ip !in old(visitors) ==> fresh(v) && v.tokens == rate && v.lastRefill == now && visitors == old(visitors)[ip := v]
      ensures v == visitors[ip]
    {
      if ip in visitors {
        return visitors[ip];
      }
      v := new Visitor(rate, now);
      visitors := visitors[ip := v];
    }

    /** cleanupVisitors, one tick: exactly the visitors not refilled for more than ten minutes are removed. */
    method CleanupVisitors(now: int)
      requires Valid()
      modifies this
      ensures Valid()
      ensures forall ip :: ip in visitors <==> ip in old(visitors) && !(now - old(visitors)[ip].lastRefill > StaleAfter)
      ensures forall ip :: ip in visitors ==> visitors[ip] == old(visitors)[ip]
    {
      var pending := visitors.Keys;
      while pending != {}
        invariant Valid() && pending <= old(visitors).Keys
        invariant forall ip :: ip in visitors <==> ip in old(visitors) && (ip in pending || !(now - old(visitors)[ip].lastRefill > StaleAfter))
        invariant forall ip :: ip in visitors ==> visitors[ip] == old(visitors)[ip]
        decreases |pending|
      {
        var ip :| ip in pending;
        if now - visitors[ip].lastRefill > StaleAfter {
          visitors := visitors - {ip};
        }
        pending := pending - {ip};
      }
    }

    /** Limit: the address's bucket (a new full one for an unseen address) takes one allow step, and
        the request goes on exactly when that step grants it; otherwise 429. Only that address's
        bucket changes. */
    method Limit(ip: string, now: int) returns (d: Outcome)
      requires Valid()
      modifies this, visitors.Values
      ensures Valid()
      ensures d.TooMany? ==> d == TooMany(StatusTooManyRequests, LimitMessage)
      ensures ip in old(visitors) ==>
        visitors == old(visitors) &&
        d.Next? == AllowStep(old(visitors[ip].tokens), old(visitors[ip].lastRefill), now, rate, window).granted
      ensures ip !in old(visitors) ==> d.Next? == AllowStep(rate, now, now, rate, window).granted
      ensures ip in visitors && visitors.Keys == old(visitors).Keys + {ip}
      ensures ip in old(visitors) ==>
        Step(visitors[ip].tokens, visitors[ip].lastRefill, d.Next?) ==
        AllowStep(old(visitors[ip].tokens), old(visitors[ip].lastRefill), now, rate, window)
      ensures ip !in old(visitors) ==>
        Step(visitors[ip].tokens, visitors[ip].lastRefill, d.Next?) == AllowStep(rate, now, now, rate, window)
      ensures forall jp :: jp in old(visitors) && jp != ip ==>
        jp in visitors && visitors[jp] == old(visitors[jp]) && visitors[jp].tokens == old(visitors[jp].tokens) &&
        visitors[jp].lastRefill == old(visitors[jp].lastRefill)
    {
      var v := GetVisitor(ip, now);
      var granted := v.Allow(rate, window, now);
      if !granted {
        return TooMany(StatusTooManyRequests, LimitMessage);
      }
      d := Next;
    }
  }
}
