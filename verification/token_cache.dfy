/** The bearer-token cache of the rate client (`UPSClient.refreshToken`),
    as a pure transition from the cached token, the current time and what
    the carrier's token endpoint answers. */
module TokenCache {
  import opened Wrappers
  import opened UpsTypes

  /** What the token endpoint did with one client-credentials grant. */
  datatype TokenReply =
      /** A 2xx answer; its body becomes the cached token. */
    | Granted(body: AuthToken)
      /** An error that carries a response (non-2xx); its body is logged. */
    | Refused(errorBody: string)
      /** A transport error with no response at all. */
    | NoResponse

  /** The state after one refreshToken call: the cached token, whether a
      grant was sent to the token endpoint, and the exception it threw. */
  datatype Refresh = Refresh(cache: Option<AuthToken>, requested: bool, failure: Option<Fault>)

  /** The local validity check: a cached token whose expiry instant lies
      strictly after `now`. */
  predicate IsFresh(cache: Option<AuthToken>, now: int) {
    cache.Some? && cache.value.ExpiresAt() > now
  }

  /** One call of refreshToken at time `now` (epoch milliseconds). The reply
      is consumed only when a grant is actually sent. */
  function RefreshToken(cache: Option<AuthToken>, now: int, reply: TokenReply): (r: Refresh)
    // a grant is sent exactly when no token is cached or its expiry is at or before now
    ensures r.requested <==> (cache == None || cache.value.issuedAt + cache.value.expiresIn * 1000 <= now)
    // a fresh token short-circuits: nothing changes and nothing is thrown
    ensures !r.requested ==> r.cache == cache && r.failure == None
    // the cache is either kept or replaced wholesale by a granted body
    ensures r.cache == cache || (r.requested && reply.Granted? && r.cache == Some(reply.body))
    ensures r.requested && reply.Granted? ==> r.cache == Some(reply.body) && r.failure == None
    // a refused grant is swallowed: the old token, possibly none, stays
    ensures reply.Refused? ==> r.cache == cache && r.failure == None
    // only a grant that got no response at all escapes, leaving the cache as it was
    ensures r.failure != None <==> r.requested && reply == NoResponse
    ensures r.failure != None ==> r.failure == Some(RefreshEscaped) && r.cache == cache
  {
    if IsFresh(cache, now) then
      Refresh(cache, false, None)
    else
      match reply
      case Granted(body) => Refresh(Some(body), true, None)
      case Refused(_) => Refresh(cache, true, None)
      case NoResponse => Refresh(cache, true, Some(RefreshEscaped))
  }

  /** Back-to-back refreshes at the same instant: once a grant has returned
      a token that is fresh at `now`, the second call sends nothing, whatever
      its endpoint would have answered. */
  lemma RefreshIsIdempotent(cache: Option<AuthToken>, now: int, first: TokenReply, second: TokenReply)
    requires first.Granted? && first.body.ExpiresAt() > now
    ensures var r1 := RefreshToken(cache, now, first);
            var r2 := RefreshToken(r1.cache, now, second);
            !r2.requested && r2.cache == r1.cache && r1.cache.Some?
  {
  }
}
