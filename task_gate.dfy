/**
 * The task-service request gate (task-service/src/middlewares/auth.js): it
 * verifies the signature, then asks the auth service for the user and
 * admits the request whether or not that call succeeds.
 */
module TaskGate {
  import opened Json
  import opened Http
  import RedisStore
  import AuthGate

  /**
   * The verdict on a request carrying `header`. `me` is the body of the
   * auth service's answer to the user lookup, or None when that call fails.
   */
  function Authenticate(header: Option<string>, verify: string -> Verified, me: Option<Obj>): (r: GateResult)
    ensures !HasBearer(header) ==> r == Reject(401, "No token provided")
    ensures HasBearer(header) && !verify(BearerToken(header.value)).Decoded? ==> r == Reject(401, "Invalid token")
    ensures r.Admit? <==> HasBearer(header) && verify(BearerToken(header.value)).Decoded?
    ensures r.Admit? ==>
      var p := verify(BearerToken(header.value)).payload;
      && r.user.Keys == p.Keys + (if me.Some? then me.value.Keys else {})
      && (forall k | k in r.user :: r.user[k] == if me.Some? && k in me.value then me.value[k] else p[k])
  {
    if !HasBearer(header) then Reject(401, "No token provided")
    else
      match verify(BearerToken(header.value))
      case Decoded(decoded) =>
        if me.Some? then Admit(decoded + me.value) else Admit(decoded)
      case _ => Reject(401, "Invalid token")
  }

  /**
   * The task service never looks at the session store: a correctly signed
   * token that the auth service has revoked is refused there and admitted here.
   */
  lemma RevokedTokenAdmitted(tok: string, verify: string -> Verified, d: RedisStore.Db, now: int, reachable: bool, me: Option<Obj>)
    requires ' ' !in tok && verify(tok).Decoded?
    requires RedisStore.Blacklisted(d, tok, now)
    ensures AuthGate.Authenticate(Some(BEARER + tok), verify, d, now, reachable) == Reject(401, "Token is invalid or expired")
    ensures Authenticate(Some(BEARER + tok), verify, me).Admit?
  {
    BearerTokenRoundTrip(tok);
  }

  /** An expired token and a badly signed one get the same answer here, unlike at the auth service. */
  lemma VerifyFailuresCollapse(tok: string, verify1: string -> Verified, verify2: string -> Verified,
                               me: Option<Obj>, d: RedisStore.Db, now: int, reachable: bool)
    requires ' ' !in tok
    requires verify1(tok) == TokenExpiredError && verify2(tok) == JsonWebTokenError
    ensures Authenticate(Some(BEARER + tok), verify1, me) == Authenticate(Some(BEARER + tok), verify2, me)
    ensures AuthGate.Authenticate(Some(BEARER + tok), verify1, d, now, reachable)
         != AuthGate.Authenticate(Some(BEARER + tok), verify2, d, now, reachable)
  {
    BearerTokenRoundTrip(tok);
  }
}
