/**
 * What the two request gates (auth-service/src/middlewares/auth.js and
 * task-service/src/middlewares/auth.js) have in common: the bearer-token
 * header format, the abstract JWT verifier and the gate's verdict.
 */
module Http {
  import opened Json
  import opened JsString

  /**
   * The outcome of `jwt.verify(token, secret)`, which is not modelled: the
   * decoded payload, or the error it throws, told apart by `err.name`.
   * `OtherVerifyError` covers any other name (`NotBeforeError`, for one).
   */
  datatype Verified = Decoded(payload: Obj) | JsonWebTokenError | TokenExpiredError | OtherVerifyError

  /** `next()` with `req.user` set, or `res.status(status).json({ message })`. */
  datatype GateResult = Admit(user: Obj) | Reject(status: int, message: string)

  const BEARER: string := "Bearer "

  predicate HasBearer(header: Option<string>)
  {
    header.Some? && StartsWith(header.value, BEARER)
  }

  /**
   * `authHeader.split(' ')[1]` for a header that starts with "Bearer ": the
   * longest space-free text after the prefix.
   */
  function BearerToken(header: string): (tok: string)
    requires StartsWith(header, BEARER)
    ensures ' ' !in tok
    ensures StartsWith(header[|BEARER|..], tok)
    ensures |BEARER| + |tok| == |header| || header[|BEARER| + |tok|] == ' '
  {
    assert header == "Bearer" + [' '] + header[|BEARER|..];
    SplitAfterHead("Bearer", header[|BEARER|..], ' ');
    SplitHead(header[|BEARER|..], ' ');
    Split(header, ' ')[1]
  }

  /** A space-free token sent as "Bearer <token>" is read back unchanged. */
  lemma BearerTokenRoundTrip(tok: string)
    requires ' ' !in tok
    ensures StartsWith(BEARER + tok, BEARER)
    ensures BearerToken(BEARER + tok) == tok
  {
    var h := BEARER + tok;
    assert h[..|BEARER|] == BEARER;
    assert h[|BEARER|..] == tok;
    var r := BearerToken(h);
    assert tok[..|r|] == r;
  }
}
