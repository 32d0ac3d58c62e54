/**
  The Flask service: one shared `RateLimiter` object, the greeting route that
  consults it, and the admin route that reads or replaces its limit.

  Routing, `request.remote_addr` and JSON encoding are framework I/O: the
  client address and the posted limit arrive here as plain arguments, and a
  response is a status code with the one JSON field the handler writes.
 */
module FlaskApp {
  import opened LimiterSpec

  /** The limit `RateLimiter` uses when none is given, and the one the service starts with. */
  const DefaultLimit: int := 10

  /** A per-address request counter shared by every request the process serves. */
  class RateLimiter {
    var limit: int
    var counts: Counts

    constructor (limit: int := DefaultLimit)
      ensures this.limit == limit && counts == map[]
    {
      this.limit := limit;
      counts := map[];
    }

    /** Every stored count is within the limit (0 when the limit is negative). */
    ghost predicate Within()
      reads this
    {
      AllWithin(counts, Max(limit, 0))
    }

    /**
      Records one request from `ip`. An unseen address is entered with count
      0; the request is accepted exactly when the address's count is below the
      limit, and only then is the count incremented. The limit and every other
      address's count are left alone.
     */
    method Allow(ip: Ip) returns (ok: bool)
      modifies this
      ensures ok <==> old(CountOf(counts, ip)) < old(limit)
      ensures limit == old(limit)
      ensures counts == Step(old(limit), old(counts), ip).counts
      ensures old(Within()) ==> Within()
    {
      if ip !in counts {
        counts := counts[ip := 0];
      }
      if counts[ip] < limit {
        counts := counts[ip := counts[ip] + 1];
        ok := true;
      } else {
        ok := false;
      }
      assert forall k :: CountOf(counts, k) <= Max(CountOf(old(counts), k), limit);
    }
  }

  /** The shared limiter the service builds at start-up. */
  method CreateLimiter() returns (limiter: RateLimiter)
    ensures fresh(limiter)
    ensures limiter.limit == DefaultLimit && limiter.counts == map[]
  {
    limiter := new RateLimiter();
  }

  /** The single JSON field a handler answers with. */
  datatype Body =
    | Message(text: string)  // {"message": text}
    | Error(text: string)    // {"error": text}
    | Limit(value: int)      // {"limit": value}

  datatype Response = Response(status: int, body: Body)

  /** The answer of the greeting route for a decision of the limiter. */
  function IndexResponse(allowed: bool): (r: Response)
    ensures r.status == 429 <==> !allowed
    ensures r.status == 200 <==> allowed
    ensures allowed ==> r.body.Message?
    ensures !allowed ==> r.body.Error?
  {
    if allowed then Response(200, Message("Hello, world!"))
    else Response(429, Error("Too many requests"))
  }

  /** The greeting route: asks the limiter about the caller's address and answers 429 on a refusal, 200 otherwise. */
  method Index(limiter: RateLimiter, ip: Ip) returns (resp: Response)
    modifies limiter
    ensures resp.status == 429 <==> old(CountOf(limiter.counts, ip)) >= old(limiter.limit)
    ensures resp.status == 200 <==> old(CountOf(limiter.counts, ip)) < old(limiter.limit)
    ensures limiter.limit == old(limiter.limit)
    ensures limiter.counts == Step(old(limiter.limit), old(limiter.counts), ip).counts
  {
    var ok := limiter.Allow(ip);
    resp := IndexResponse(ok);
  }

  /** The two requests the admin route serves; `Post(None)` is a JSON body without a "limit" field. */
  datatype Option<T> = None | Some(value: T)
  datatype AdminRequest = Get | Post(limit: Option<int>)

  /** What a handler does: answer, or raise because a JSON field it indexes is missing. */
  datatype Handled = Answered(resp: Response) | KeyError(key: string)

  /** The limit as the admin route's GET reports it. */
  method GetLimit(limiter: RateLimiter) returns (n: int)
    ensures n == limiter.limit
  {
    n := limiter.limit;
  }

  /**
    The admin route. GET reports the current limit and changes nothing. POST
    replaces the limit with the posted value, whatever it is (zero and
    negative values included), and leaves every count alone; a body without a
    "limit" field raises before anything changes.
   */
  method RateLimitRoute(limiter: RateLimiter, req: AdminRequest) returns (h: Handled)
    modifies limiter
    ensures limiter.counts == old(limiter.counts)
    ensures req.Get? ==> limiter.limit == old(limiter.limit) && h == Answered(Response(200, Limit(old(limiter.limit))))
    ensures req.Post? && req.limit.Some? ==>
      limiter.limit == req.limit.value && h == Answered(Response(200, Message("Rate limit successfully updated!")))
    ensures req.Post? && req.limit.None? ==> limiter.limit == old(limiter.limit) && h == KeyError("limit")
  {
    match req
    case Get =>
      var n := GetLimit(limiter);
      h := Answered(Response(200, Limit(n)));
    case Post(posted) =>
      match posted
      case None =>
        h := KeyError("limit");
      case Some(n) =>
        limiter.limit := n;
        h := Answered(Response(200, Message("Rate limit successfully updated!")));
  }

  /** A POST of a new limit followed by a GET reports exactly the posted value, and the counts are untouched. */
  method SetThenGet(limiter: RateLimiter, n: int) returns (reported: Handled)
    modifies limiter
    ensures reported == Answered(Response(200, Limit(n)))
    ensures limiter.limit == n && limiter.counts == old(limiter.counts)
  {
    var _ := RateLimitRoute(limiter, Post(Some(n)));
    reported := RateLimitRoute(limiter, Get);
  }
}
