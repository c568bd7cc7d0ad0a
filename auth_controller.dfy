/**
 * The auth-service controller (auth-service/src/controllers/authController.js):
 * token claims, the register and login flows with the session they write,
 * and the input checks of updateProfile and uploadAvatar.
 */
module AuthController {
  import opened Json
  import opened JsString
  import opened Http
  import opened RedisStore
  import AuthGate

  /**
   * A user document as the controller reads it. `password` is what the User
   * model stores (its hashing hook is not part of this model).
   */
  datatype User = User(id: UserId, email: string, name: string, password: string, avatar: Option<string>)

  /** What the controller sends back. */
  datatype Response =
    | Failure(status: int, message: string)
    | ServerError(status: int, message: string, error: string)
    | Issued(status: int, token: Token, user: Obj)

  /** signToken's payload: the id, email and name, nothing else. */
  function TokenClaims(u: User): (c: Obj)
    ensures c.Keys == {"id", "email", "name"}
    ensures AuthGate.PayloadUserId(c) == u.id
    ensures Field(c, "email") == Some(u.email) && Field(c, "name") == Some(u.name)
  {
    map["id" := u.id, "email" := u.email, "name" := u.name]
  }

  /** The `user` object of a success response; an undefined avatar is dropped by JSON serialisation. */
  function PublicUser(u: User): (o: Obj)
    ensures "password" !in o
    ensures o.Keys == {"id", "email", "name"} + (if u.avatar.Some? then {"avatar"} else {})
    ensures Field(o, "id") == Some(u.id) && Field(o, "avatar") == u.avatar
    ensures Field(o, "email") == Some(u.email) && Field(o, "name") == Some(u.name)
  {
    var base := map["id" := u.id, "email" := u.email, "name" := u.name];
    if u.avatar.Some? then base["avatar" := u.avatar.value] else base
  }

  // ---------------------------------------------------------------------
  // Input checks
  // ---------------------------------------------------------------------

  /** register's checks before anything is created; None means it goes ahead. `users` is keyed by email. */
  function RegisterCheck(users: map<string, User>, email: Option<string>, password: Option<string>, name: Option<string>): (r: Option<Response>)
    ensures r == Some(Failure(400, "All fields are required")) <==> !Truthy(email) || !Truthy(password) || !Truthy(name)
    ensures r == Some(Failure(409, "Email already registered")) <==> Truthy(email) && Truthy(password) && Truthy(name) && email.value in users
    ensures r.None? <==> Truthy(email) && Truthy(password) && Truthy(name) && email.value !in users
  {
    if !Truthy(email) || !Truthy(password) || !Truthy(name) then Some(Failure(400, "All fields are required"))
    else if email.value in users then Some(Failure(409, "Email already registered"))
    else None
  }

  /**
   * login's checks: the user whose credentials match, or the response.
   * An unknown email and a wrong password get the same answer.
   */
  function CheckCredentials(users: map<string, User>, email: Option<string>, password: Option<string>,
                            comparePassword: (User, string) -> bool): (r: Result<User, Response>)
    ensures r.Ok? <==> Truthy(email) && Truthy(password) && email.value in users && comparePassword(users[email.value], password.value)
    ensures r.Ok? ==> r.value == users[email.value]
    ensures !Truthy(email) || !Truthy(password) ==> r == Err(Failure(400, "Email and password are required"))
    ensures Truthy(email) && Truthy(password) && !r.Ok? ==> r == Err(Failure(401, "Invalid credentials"))
  {
    if !Truthy(email) || !Truthy(password) then Err(Failure(400, "Email and password are required"))
    else if email.value !in users then Err(Failure(401, "Invalid credentials"))
    else if !comparePassword(users[email.value], password.value) then Err(Failure(401, "Invalid credentials"))
    else Ok(users[email.value])
  }

  /** updateProfile's check; None means the update goes ahead. */
  function UpdateProfileCheck(name: Option<string>): (r: Option<Response>)
    ensures r.Some? <==> !Truthy(name)
    ensures r.Some? ==> r.value == Failure(400, "Name is required")
  {
    if !Truthy(name) then Some(Failure(400, "Name is required")) else None
  }

  /**
   * The file uploadAvatar deletes before storing a new one:
   * `user.avatar.split('/').pop()`, only when an avatar is set.
   */
  function OldAvatarFilename(avatar: Option<string>): (r: Option<string>)
    ensures r.Some? <==> Truthy(avatar)
    ensures r.Some? ==> var a := avatar.value; var f := r.value;
      && '/' !in f
      && |f| <= |a| && a[|a| - |f|..] == f
      && (|f| == |a| || a[|a| - |f| - 1] == '/')
  {
    if !Truthy(avatar) then None
    else
      var fields := Split(avatar.value, '/');
      SplitLast(avatar.value, '/');
      Some(fields[|fields| - 1])
  }

  // ---------------------------------------------------------------------
  // The session the controller writes
  // ---------------------------------------------------------------------

  /**
   * `redis.set('session:' + id, token, 'EX', 86400)`: the raw token under the
   * session key; the token set, the profile cache and the blacklist are untouched.
   */
  function AfterIssueSession(d: Db, uid: UserId, tok: Token, now: int): (r: Db)
    ensures forall t | t < ExpiryAfter(now, SESSION_TTL) :: SessionAt(r, uid, t) == Some(RawToken(tok))
    ensures forall u | u != uid :: (u in r.sessions <==> u in d.sessions) && (u in r.sessions ==> r.sessions[u] == d.sessions[u])
    ensures r.tokenSets == d.tokenSets && r.profiles == d.profiles && r.blacklist == d.blacklist
  {
    d.(sessions := d.sessions[uid := Entry(RawToken(tok), ExpiryAfter(now, SESSION_TTL))])
  }

  /**
   * A freshly issued token is refused by the auth-service gate: it verifies
   * to a payload carrying the user's id (jwt.sign adds `iat` and `exp` to the
   * claims, which changes nothing here), but the controller never adds it to
   * user:tokens:{id}.
   */
  lemma IssuedTokenRefusedByGate(d: Db, u: User, tok: Token, verify: string -> Verified, now: int, t: int, reachable: bool)
    requires ' ' !in tok
    requires verify(tok).Decoded? && AuthGate.PayloadUserId(verify(tok).payload) == u.id
    requires tok !in LiveTokens(d, u.id, t)
    ensures AuthGate.Authenticate(Some(BEARER + tok), verify, AfterIssueSession(d, u.id, tok, now), t, reachable)
            == Reject(401, "Token is invalid or expired")
  {
    BearerTokenRoundTrip(tok);
  }

  /** getSession cannot read the session the controller writes: it is not JSON. */
  lemma IssuedSessionUnreadable(d: Db, uid: UserId, tok: Token, now: int, t: int)
    requires t < ExpiryAfter(now, SESSION_TTL)
    ensures SessionAt(AfterIssueSession(d, uid, tok, now), uid, t).Some?
    ensures ParseSession(SessionAt(AfterIssueSession(d, uid, tok, now), uid, t)) == None
  {
  }

  /** While that session lives, the sweep meets a value it cannot parse and stops with 0. */
  lemma IssuedSessionStallsSweep(d: Db, uid: UserId, tok: Token, now: int, t: int)
    requires t < ExpiryAfter(now, SESSION_TTL)
    ensures !AllSessionsParse(AfterIssueSession(d, uid, tok, now), t)
  {
    var r := AfterIssueSession(d, uid, tok, now);
    assert uid in LiveSessionKeys(r, t);
  }

  /** The user collection and the two flows that write to it and to the store. */
  class AuthController {
    /** The users collection, keyed by email (the lookup `findOne({ email })`). */
    var users: map<string, User>

    constructor(users0: map<string, User>)
      ensures users == users0
    {
      users := users0;
    }

    /**
     * register. `newId` is the id the database assigns, `hash` the stored form
     * of the password, `sign` the JWT signer; `storeError` is the message of
     * the error the session write throws, after the user was created, or None
     * when the store answers.
     */
    method Register(store: RedisService, email: Option<string>, password: Option<string>, name: Option<string>,
                    newId: UserId, hash: string -> string, sign: Obj -> Token, now: int, storeError: Option<string>)
      returns (resp: Response)
      modifies this, store
      ensures RegisterCheck(old(users), email, password, name).Some? ==>
        && resp == RegisterCheck(old(users), email, password, name).value
        && users == old(users) && store.Snapshot() == old(store.Snapshot())
      ensures RegisterCheck(old(users), email, password, name).None? ==>
        var u := User(newId, email.value, name.value, hash(password.value), None);
        && users == old(users)[email.value := u]
        && (storeError.None? ==> resp == Issued(201, sign(TokenClaims(u)), PublicUser(u))
                                 && store.Snapshot() == AfterIssueSession(old(store.Snapshot()), newId, sign(TokenClaims(u)), now))
        && (storeError.Some? ==> resp == ServerError(500, "Registration failed", storeError.value) && store.Snapshot() == old(store.Snapshot()))
    {
      var check := RegisterCheck(users, email, password, name);
      if check.Some? {
        return check.value;
      }
      var user := User(newId, email.value, name.value, hash(password.value), None);
      users := users[email.value := user];
      var token := sign(TokenClaims(user));
      if storeError.Some? {
        return ServerError(500, "Registration failed", storeError.value);
      }
      store.sessions := store.sessions[newId := Entry(RawToken(token), ExpiryAfter(now, SESSION_TTL))];
      resp := Issued(201, token, PublicUser(user));
    }

    /** login: check the credentials, sign a token, write the raw session; `storeError` as for register. */
    method Login(store: RedisService, email: Option<string>, password: Option<string>,
                 comparePassword: (User, string) -> bool, sign: Obj -> Token, now: int, storeError: Option<string>)
      returns (resp: Response)
      modifies store
      ensures CheckCredentials(users, email, password, comparePassword).Err? ==>
        resp == CheckCredentials(users, email, password, comparePassword).error && store.Snapshot() == old(store.Snapshot())
      ensures CheckCredentials(users, email, password, comparePassword).Ok? ==>
        var u := CheckCredentials(users, email, password, comparePassword).value;
        && (storeError.None? ==> resp == Issued(200, sign(TokenClaims(u)), PublicUser(u))
                                 && store.Snapshot() == AfterIssueSession(old(store.Snapshot()), u.id, sign(TokenClaims(u)), now))
        && (storeError.Some? ==> resp == ServerError(500, "Login failed", storeError.value) && store.Snapshot() == old(store.Snapshot()))
    {
      var check := CheckCredentials(users, email, password, comparePassword);
      if check.Err? {
        return check.error;
      }
      var user := check.value;
      var token := sign(TokenClaims(user));
      if storeError.Some? {
        return ServerError(500, "Login failed", storeError.value);
      }
      store.sessions := store.sessions[user.id := Entry(RawToken(token), ExpiryAfter(now, SESSION_TTL))];
      resp := Issued(200, token, PublicUser(user));
    }
  }
}
