/**
 * The auth-service request gate (auth-service/src/middlewares/auth.js):
 * header check, signature verification, then the session store's verdict.
 */
module AuthGate {
  import opened Json
  import opened Http
  import opened RedisStore

  /** `decoded.id` as it ends up in the template key user:tokens:${id}; an absent id reads "undefined". */
  function PayloadUserId(p: Obj): UserId
  {
    if "id" in p then p["id"] else "undefined"
  }

  /**
   * The middleware's verdict on a request carrying `header`, given the
   * verifier and the store's state (`reachable` false makes validateToken
   * answer false).
   */
  function Authenticate(header: Option<string>, verify: string -> Verified, d: Db, now: int, reachable: bool): (r: GateResult)
    ensures !HasBearer(header) ==> r == Reject(401, "No token provided")
    ensures r.Admit? <==>
      && HasBearer(header)
      && verify(BearerToken(header.value)).Decoded?
      && reachable
      && TokenActive(d, PayloadUserId(verify(BearerToken(header.value)).payload), BearerToken(header.value), now)
    ensures r.Admit? ==> r.user == verify(BearerToken(header.value)).payload
    ensures HasBearer(header) && verify(BearerToken(header.value)) == JsonWebTokenError ==> r == Reject(401, "Invalid token")
    ensures HasBearer(header) && verify(BearerToken(header.value)) == TokenExpiredError ==> r == Reject(401, "Token expired")
    ensures HasBearer(header) && verify(BearerToken(header.value)) == OtherVerifyError ==> r == Reject(500, "Authentication error")
    ensures HasBearer(header) && verify(BearerToken(header.value)).Decoded? && !r.Admit? ==> r == Reject(401, "Token is invalid or expired")
  {
    if !HasBearer(header) then Reject(401, "No token provided")
    else
      var token := BearerToken(header.value);
      match verify(token)
      case JsonWebTokenError => Reject(401, "Invalid token")
      case TokenExpiredError => Reject(401, "Token expired")
      case OtherVerifyError => Reject(500, "Authentication error")
      case Decoded(decoded) =>
        var isTokenValid := reachable && TokenActive(d, PayloadUserId(decoded), token, now);
        if !isTokenValid then Reject(401, "Token is invalid or expired") else Admit(decoded)
  }

  /**
   * The store is consulted only after the header check and a successful
   * verification: before that, the verdict is the same whatever the store holds.
   */
  lemma StoreNotConsultedBeforeVerify(header: Option<string>, verify: string -> Verified,
                                      d1: Db, now1: int, reachable1: bool, d2: Db, now2: int, reachable2: bool)
    requires !HasBearer(header) || !verify(BearerToken(header.value)).Decoded?
    ensures Authenticate(header, verify, d1, now1, reachable1) == Authenticate(header, verify, d2, now2, reachable2)
  {
  }

  /** A blacklisted token is refused whatever its user's token set holds. */
  lemma BlacklistWins(tok: string, verify: string -> Verified, d: Db, now: int, reachable: bool)
    requires ' ' !in tok && Blacklisted(d, tok, now)
    ensures !Authenticate(Some(BEARER + tok), verify, d, now, reachable).Admit?
  {
    BearerTokenRoundTrip(tok);
  }

  /** After invalidateSession the revoked token is refused by the gate, whatever its payload says. */
  lemma RevokedTokenRefused(d: Db, uid: UserId, tok: string, revokedAt: int, verify: string -> Verified, now: int, reachable: bool)
    requires ' ' !in tok && revokedAt <= now < ExpiryAfter(revokedAt, TOKEN_BLACKLIST_TTL)
    ensures !Authenticate(Some(BEARER + tok), verify, AfterInvalidateSession(d, uid, tok, revokedAt), now, reachable).Admit?
  {
    BearerTokenRoundTrip(tok);
  }
}
