/**
 * The auth-service session store (auth-service/src/services/redisService.js).
 *
 * Redis is modelled as four maps, one per key prefix, each entry carrying an
 * absolute expiry time in milliseconds:
 *   session:{id}       -> a session record (or, when written by the auth
 *                         controller, the raw token string)
 *   user:tokens:{id}   -> the set of active tokens
 *   user:profile:{id}  -> a cached profile object
 *   blacklist:{token}  -> '1' (only the expiry matters)
 * The four prefixes are pairwise non-prefixes of each other, so their key
 * spaces are disjoint and four separate maps hold exactly what one Redis
 * keyspace would. A key is absent once `now >= expiresAt`; an expired entry
 * may linger in a map but no read sees it.
 */
module RedisStore {
  import opened Json

  type UserId = string
  type Token = string

  /** TTLs in seconds. */
  const SESSION_TTL: nat := 24 * 60 * 60
  const USER_PROFILE_TTL: nat := 30 * 60
  const TOKEN_BLACKLIST_TTL: nat := 24 * 60 * 60

  /** The absolute expiry (ms) of a key given a TTL of `ttl` seconds at time `now` (ms). */
  function ExpiryAfter(now: int, ttl: nat): int
  {
    now + ttl * 1000
  }

  datatype Entry<V> = Entry(val: V, expiresAt: int)

  /** The JSON object storeSession writes under session:{id}. */
  datatype SessionRecord = SessionRecord(token: Token, userId: UserId, createdAt: int, expiresAt: int)

  /**
   * What session:{id} holds: a serialised record, or a bare token string as
   * the auth controller writes it. `JSON.parse` rejects the latter (a JWT is
   * three base64url segments joined by dots, never a JSON text).
   */
  datatype SessionValue = SessionJson(rec: SessionRecord) | RawToken(raw: Token)

  /** The Redis keyspace the service uses. */
  datatype Db = Db(
    sessions: map<UserId, Entry<SessionValue>>,
    tokenSets: map<UserId, Entry<set<Token>>>,
    profiles: map<UserId, Entry<Obj>>,
    blacklist: map<Token, int>)

  const EmptyDb: Db := Db(map[], map[], map[], map[])

  // ---------------------------------------------------------------------
  // Reads (GET, SMEMBERS, EXISTS) as the store answers them at time `now`
  // ---------------------------------------------------------------------

  function SessionAt(d: Db, uid: UserId, now: int): Option<SessionValue>
  {
    if uid in d.sessions && now < d.sessions[uid].expiresAt then Some(d.sessions[uid].val) else None
  }

  function LiveTokens(d: Db, uid: UserId, now: int): set<Token>
  {
    if uid in d.tokenSets && now < d.tokenSets[uid].expiresAt then d.tokenSets[uid].val else {}
  }

  function ProfileAt(d: Db, uid: UserId, now: int): Option<Obj>
  {
    if uid in d.profiles && now < d.profiles[uid].expiresAt then Some(d.profiles[uid].val) else None
  }

  predicate Blacklisted(d: Db, tok: Token, now: int)
  {
    tok in d.blacklist && now < d.blacklist[tok]
  }

  /** validateToken's rule when the store answers: the blacklist is consulted first and wins. */
  predicate TokenActive(d: Db, uid: UserId, tok: Token, now: int)
  {
    !Blacklisted(d, tok, now) && tok in LiveTokens(d, uid, now)
  }

  // ---------------------------------------------------------------------
  // The effect of each pipeline, applied as one atomic step
  // ---------------------------------------------------------------------

  /** SREM user:tokens:{uid} tok; Redis drops a set that becomes empty. */
  function RemoveToken(sets: map<UserId, Entry<set<Token>>>, uid: UserId, tok: Token, now: int): map<UserId, Entry<set<Token>>>
  {
    if uid in sets && now < sets[uid].expiresAt then
      var rest := sets[uid].val - {tok};
      if rest == {} then sets - {uid} else sets[uid := Entry(rest, sets[uid].expiresAt)]
    else sets
  }

  /** SETEX blacklist:{t} for every t in `toks`. */
  function BlacklistAll(bl: map<Token, int>, toks: set<Token>, expiry: int): (r: map<Token, int>)
    ensures r.Keys == bl.Keys + toks
    ensures forall t | t in toks :: r[t] == expiry
    ensures forall t | t in bl && t !in toks :: r[t] == bl[t]
  {
    map t | t in bl.Keys + toks :: if t in toks then expiry else bl[t]
  }

  /** storeSession's pipeline: SETEX session, SADD + EXPIRE token set, SETEX profile when given. */
  function AfterStoreSession(d: Db, uid: UserId, tok: Token, userData: Option<Obj>, now: int): (r: Db)
    ensures SessionAt(r, uid, now) == Some(SessionJson(SessionRecord(tok, uid, now, ExpiryAfter(now, SESSION_TTL))))
    ensures r.sessions[uid].expiresAt == ExpiryAfter(now, SESSION_TTL)
    ensures forall t | now <= t < ExpiryAfter(now, SESSION_TTL) :: LiveTokens(r, uid, t) == LiveTokens(d, uid, now) + {tok}
    ensures forall t | t >= ExpiryAfter(now, SESSION_TTL) :: LiveTokens(r, uid, t) == {}
    ensures userData.Some? ==> forall t | now <= t < ExpiryAfter(now, USER_PROFILE_TTL) :: ProfileAt(r, uid, t) == userData
    ensures userData.None? ==> r.profiles == d.profiles
    ensures r.blacklist == d.blacklist
    ensures r.sessions - {uid} == d.sessions - {uid}
    ensures r.tokenSets - {uid} == d.tokenSets - {uid}
    ensures r.profiles - {uid} == d.profiles - {uid}
  {
    var expiry := ExpiryAfter(now, SESSION_TTL);
    Db(d.sessions[uid := Entry(SessionJson(SessionRecord(tok, uid, now, expiry)), expiry)],
       d.tokenSets[uid := Entry(LiveTokens(d, uid, now) + {tok}, expiry)],
       if userData.Some? then d.profiles[uid := Entry(userData.value, ExpiryAfter(now, USER_PROFILE_TTL))] else d.profiles,
       d.blacklist)
  }

  /**
   * invalidateSession's pipeline: DEL session, SREM token, SETEX blacklist, DEL profile.
   * The revoked token is refused for every user during the blacklist TTL, and
   * for `uid` forever after; every other token keeps its status.
   */
  function AfterInvalidateSession(d: Db, uid: UserId, tok: Token, now: int): (r: Db)
    ensures uid !in r.sessions && uid !in r.profiles
    ensures r.blacklist == d.blacklist[tok := ExpiryAfter(now, TOKEN_BLACKLIST_TTL)]
    ensures forall t | t >= now :: LiveTokens(r, uid, t) == LiveTokens(d, uid, t) - {tok}
    ensures forall t | t >= now :: !TokenActive(r, uid, tok, t)
    ensures forall u, t | now <= t < ExpiryAfter(now, TOKEN_BLACKLIST_TTL) :: !TokenActive(r, u, tok, t)
    ensures forall u, x, t | t >= now && x != tok :: TokenActive(r, u, x, t) == TokenActive(d, u, x, t)
    ensures r.sessions == d.sessions - {uid} && r.profiles == d.profiles - {uid}
    ensures r.tokenSets - {uid} == d.tokenSets - {uid}
  {
    Db(d.sessions - {uid},
       RemoveToken(d.tokenSets, uid, tok, now),
       d.profiles - {uid},
       d.blacklist[tok := ExpiryAfter(now, TOKEN_BLACKLIST_TTL)])
  }

  /**
   * invalidateAllSessions: SMEMBERS, then one pipeline that blacklists every
   * member read and deletes the session, token-set and profile keys.
   */
  function AfterInvalidateAll(d: Db, uid: UserId, now: int): (r: Db)
    ensures uid !in r.sessions && uid !in r.tokenSets && uid !in r.profiles
    ensures r.blacklist == BlacklistAll(d.blacklist, LiveTokens(d, uid, now), ExpiryAfter(now, TOKEN_BLACKLIST_TTL))
    ensures forall x, t :: !TokenActive(r, uid, x, t)
    ensures forall x, u, t | x in LiveTokens(d, uid, now) && now <= t < ExpiryAfter(now, TOKEN_BLACKLIST_TTL) :: !TokenActive(r, u, x, t)
    ensures r.sessions == d.sessions - {uid} && r.tokenSets == d.tokenSets - {uid} && r.profiles == d.profiles - {uid}
  {
    Db(d.sessions - {uid}, d.tokenSets - {uid}, d.profiles - {uid},
       BlacklistAll(d.blacklist, LiveTokens(d, uid, now), ExpiryAfter(now, TOKEN_BLACKLIST_TTL)))
  }

  /** The six fields cacheUserProfile keeps. */
  const SAFE_FIELDS: set<string> := {"id", "name", "email", "avatar", "createdAt", "updatedAt"}

  /**
   * The object cacheUserProfile serialises: `id` is `_id` when that is
   * truthy, else `id`; name, email, avatar, createdAt and updatedAt are
   * copied; everything else (the password hash first of all) is dropped.
   */
  function SafeProfile(p: Obj): (r: Obj)
    ensures r.Keys <= SAFE_FIELDS && "password" !in r
    ensures forall k | k in SAFE_FIELDS && k != "id" :: Field(r, k) == Field(p, k)
    ensures Truthy(Field(p, "_id")) ==> Field(r, "id") == Field(p, "_id")
    ensures !Truthy(Field(p, "_id")) ==> Field(r, "id") == Field(p, "id")
  {
    var id := if Truthy(Field(p, "_id")) then Field(p, "_id") else Field(p, "id");
    var copied := map k | k in p.Keys * (SAFE_FIELDS - {"id"}) :: p[k];
    if id.Some? then copied["id" := id.value] else copied
  }

  function AfterCacheProfile(d: Db, uid: UserId, p: Obj, now: int): Db
  {
    d.(profiles := d.profiles[uid := Entry(SafeProfile(p), ExpiryAfter(now, USER_PROFILE_TTL))])
  }

  /** invalidateUserProfileCache: DEL user:profile:{uid}; no later read hits. */
  function AfterDropProfile(d: Db, uid: UserId): (r: Db)
    ensures forall t :: ProfileAt(r, uid, t) == None
    ensures r.sessions == d.sessions && r.tokenSets == d.tokenSets && r.blacklist == d.blacklist
    ensures r.profiles == d.profiles - {uid}
  {
    d.(profiles := d.profiles - {uid})
  }

  /** getSession's reading of session:{id}: JSON.parse of a raw token throws, which is caught as null. */
  function ParseSession(v: Option<SessionValue>): (r: Option<SessionRecord>)
    ensures r.Some? <==> v.Some? && v.value.SessionJson?
    ensures r.Some? ==> r.value == v.value.rec
  {
    match v
    case Some(SessionJson(rec)) => Some(rec)
    case _ => None
  }

  // ---------------------------------------------------------------------
  // Statistics and the expired-session sweep
  // ---------------------------------------------------------------------

  datatype SessionStats = SessionStats(activeSessions: nat, cachedProfiles: nat, blacklistedTokens: nat)

  /** KEYS session:* */
  function LiveSessionKeys(d: Db, now: int): set<UserId>
  {
    set u | u in d.sessions && now < d.sessions[u].expiresAt
  }

  /** KEYS user:profile:* */
  function LiveProfileKeys(d: Db, now: int): set<UserId>
  {
    set u | u in d.profiles && now < d.profiles[u].expiresAt
  }

  /** KEYS blacklist:* */
  function LiveBlacklistKeys(d: Db, now: int): set<Token>
  {
    set t | t in d.blacklist && now < d.blacklist[t]
  }

  function Stats(d: Db, now: int): SessionStats
  {
    SessionStats(|LiveSessionKeys(d, now)|, |LiveProfileKeys(d, now)|, |LiveBlacklistKeys(d, now)|)
  }

  predicate StaleRecord(v: SessionValue, now: int)
  {
    v.SessionJson? && v.rec.expiresAt < now
  }

  /** The live session keys whose record says it has expired: what the sweep deletes. */
  function StaleSessionKeys(d: Db, now: int): set<UserId>
  {
    set u | u in LiveSessionKeys(d, now) && StaleRecord(d.sessions[u].val, now)
  }

  /** The sweep visits every live key: all parse and the store fails on none of them. */
  predicate SweepCompletes(d: Db, now: int, storeFails: set<UserId>)
  {
    AllSessionsParse(d, now) && storeFails !! LiveSessionKeys(d, now)
  }

  /** The keys among `ks` whose record says it has expired. */
  function StaleAmong(d: Db, ks: set<UserId>, now: int): set<UserId>
    requires ks <= d.sessions.Keys
  {
    set u | u in ks && StaleRecord(d.sessions[u].val, now)
  }

  /** Visiting one more key adds it to the stale keys exactly when its record is stale. */
  lemma StaleAmongStep(d: Db, ks: set<UserId>, k: UserId, now: int)
    requires ks <= d.sessions.Keys && k in d.sessions && k !in ks
    ensures StaleAmong(d, ks + {k}, now) == StaleAmong(d, ks, now) + (if StaleRecord(d.sessions[k].val, now) then {k} else {})
    ensures k !in StaleAmong(d, ks, now)
  {
  }

  /** Every key among `ks` holds JSON. */
  predicate ParsedAll(d: Db, ks: set<UserId>)
  {
    forall u | u in ks && u in d.sessions :: d.sessions[u].val.SessionJson?
  }

  /** Among the live keys, the stale ones are those the sweep deletes. */
  lemma StaleAmongLive(d: Db, ks: set<UserId>, now: int)
    requires ks <= LiveSessionKeys(d, now)
    ensures StaleAmong(d, ks, now) <= StaleSessionKeys(d, now)
    ensures ks == LiveSessionKeys(d, now) ==> StaleAmong(d, ks, now) == StaleSessionKeys(d, now)
    ensures ks == LiveSessionKeys(d, now) ==> (ParsedAll(d, ks) <==> AllSessionsParse(d, now))
  {
  }

  /** One key visited by the sweep: the stale ones seen so far grow by it exactly when it is stale. */
  lemma SweepStep(d: Db, visited: set<UserId>, remaining: map<UserId, Entry<SessionValue>>, k: UserId, now: int)
    requires visited <= LiveSessionKeys(d, now) && k in LiveSessionKeys(d, now) && k !in visited
    requires remaining == d.sessions - StaleAmong(d, visited, now)
    ensures k in remaining && remaining[k] == d.sessions[k]
    ensures remaining[k].val.RawToken? ==> !AllSessionsParse(d, now)
    ensures remaining[k].val.SessionJson? && ParsedAll(d, visited) ==> ParsedAll(d, visited + {k})
    ensures StaleRecord(remaining[k].val, now) ==>
      remaining - {k} == d.sessions - StaleAmong(d, visited + {k}, now)
      && |StaleAmong(d, visited + {k}, now)| == |StaleAmong(d, visited, now)| + 1
    ensures !StaleRecord(remaining[k].val, now) ==>
      remaining == d.sessions - StaleAmong(d, visited + {k}, now)
      && |StaleAmong(d, visited + {k}, now)| == |StaleAmong(d, visited, now)|
  {
    StaleAmongStep(d, visited, k, now);
    MinusOneMore(d.sessions, StaleAmong(d, visited, now), k);
  }

  lemma MinusOneMore<K, V>(m: map<K, V>, del: set<K>, k: K)
    ensures (m - del) - {k} == m - (del + {k})
  {
  }

  /** Removing keys the map holds takes away exactly those keys. */
  lemma RemovedKeys<K, V>(m: map<K, V>, del: set<K>)
    requires del <= m.Keys
    ensures m.Keys - (m - del).Keys == del
  {
  }

  /** Every live session key parses as JSON; otherwise the sweep stops at the first raw token. */
  predicate AllSessionsParse(d: Db, now: int)
  {
    forall u | u in LiveSessionKeys(d, now) :: d.sessions[u].val.SessionJson?
  }

  /** Every stored record's expiresAt equals the Redis expiry of its key, as storeSession writes them. */
  predicate RecordsMatchTtl(d: Db)
  {
    forall u | u in d.sessions && d.sessions[u].val.SessionJson? :: d.sessions[u].val.rec.expiresAt == d.sessions[u].expiresAt
  }

  /** Blacklisting one more token is one more SETEX on top of the others. */
  lemma BlacklistAllStep(bl: map<Token, int>, done: set<Token>, t: Token, expiry: int)
    ensures BlacklistAll(bl, done + {t}, expiry) == BlacklistAll(bl, done, expiry)[t := expiry]
  {
    var a := BlacklistAll(bl, done + {t}, expiry);
    var b := BlacklistAll(bl, done, expiry)[t := expiry];
    assert a.Keys == b.Keys;
    forall k | k in a ensures a[k] == b[k] {}
  }

  lemma BlacklistNone(bl: map<Token, int>, expiry: int)
    ensures BlacklistAll(bl, {}, expiry) == bl
  {
  }

  /** The forEach of invalidateAllSessions: one SETEX blacklist:{t} queued per token read. */
  method QueueBlacklist(bl: map<Token, int>, tokens: set<Token>, expiry: int) returns (queued: map<Token, int>)
    ensures queued == BlacklistAll(bl, tokens, expiry)
  {
    BlacklistNone(bl, expiry);
    queued := bl;
    var rest := tokens;
    ghost var done: set<Token> := {};
    while rest != {}
      invariant done + rest == tokens && done !! rest
      invariant queued == BlacklistAll(bl, done, expiry)
    {
      var t :| t in rest;
      BlacklistAllStep(bl, done, t, expiry);
      queued := queued[t := expiry];
      rest := rest - {t};
      done := done + {t};
    }
    assert done == tokens;
  }

  // ---------------------------------------------------------------------
  // The loop of cleanupExpiredSessions, on values
  // ---------------------------------------------------------------------

  /** The sweep has visited `visited`, deleting the stale ones among them, each of which held JSON. */
  predicate Swept(d: Db, now: int, visited: set<UserId>, remaining: map<UserId, Entry<SessionValue>>, cleaned: nat)
  {
    visited <= LiveSessionKeys(d, now)
    && remaining == d.sessions - StaleAmong(d, visited, now)
    && cleaned == |StaleAmong(d, visited, now)|
    && ParsedAll(d, visited)
  }

  /** What a sweep that stops after visiting `visited` has done; all of it when it visited every live key. */
  lemma SweptSoFar(d: Db, now: int, visited: set<UserId>, remaining: map<UserId, Entry<SessionValue>>, cleaned: nat)
    requires Swept(d, now, visited, remaining, cleaned)
    ensures StaleAmong(d, visited, now) <= StaleSessionKeys(d, now)
    ensures remaining == d.sessions - StaleAmong(d, visited, now) && cleaned == |StaleAmong(d, visited, now)|
    ensures visited == LiveSessionKeys(d, now) ==>
      StaleAmong(d, visited, now) == StaleSessionKeys(d, now) && AllSessionsParse(d, now)
  {
    StaleAmongLive(d, visited, now);
  }

  /**
   * One turn of the sweep on key `k`: GET it, parse it, and DEL it when its
   * record has expiresAt < now. A value that is not JSON makes it answer
   * `parsed == false`, with nothing changed.
   */
  method VisitKey(d: Db, now: int, ghost visited: set<UserId>, remaining: map<UserId, Entry<SessionValue>>, cleaned: nat, k: UserId)
    returns (remaining': map<UserId, Entry<SessionValue>>, cleaned': nat, parsed: bool)
    requires Swept(d, now, visited, remaining, cleaned)
    requires k in LiveSessionKeys(d, now) && k !in visited
    ensures parsed ==> Swept(d, now, visited + {k}, remaining', cleaned')
    ensures !parsed ==> !AllSessionsParse(d, now) && remaining' == remaining && cleaned' == cleaned
  {
    SweepStep(d, visited, remaining, k, now);
    remaining', cleaned' := remaining, cleaned;
    match remaining[k].val
    case RawToken(_) =>
      parsed := false;
    case SessionJson(record) =>
      parsed := true;
      if record.expiresAt < now {
        remaining' := remaining - {k};
        cleaned' := cleaned + 1;
      }
  }

  /**
   * The loop of cleanupExpiredSessions on the sessions of `d`: it visits the
   * live session keys in whatever order KEYS returns them, deletes each whose
   * record has expiresAt < now, and stops at the first value that is not JSON
   * or at the first key in `storeFails`, whose GET or DEL the store fails. It
   * answers the sessions left, the number deleted, whether it stopped early,
   * and (for the proof) the keys deleted.
   */
  method SweepSessions(d: Db, now: int, storeFails: set<UserId>)
    returns (remaining: map<UserId, Entry<SessionValue>>, cleaned: nat, aborted: bool, ghost deleted: set<UserId>)
    ensures deleted <= StaleSessionKeys(d, now)
    ensures remaining == d.sessions - deleted && cleaned == |deleted|
    ensures aborted <==> !SweepCompletes(d, now, storeFails)
    ensures !aborted ==> deleted == StaleSessionKeys(d, now)
  {
    var keys := LiveSessionKeys(d, now);
    var rest := keys;
    remaining, cleaned, aborted := d.sessions, 0, false;
    ghost var visited: set<UserId> := {};
    while rest != {}
      invariant rest !! visited && rest + visited == keys
      invariant Swept(d, now, visited, remaining, cleaned)
      invariant visited !! storeFails
    {
      var k :| k in rest;
      var parsed := false;
      if k !in storeFails {
        remaining, cleaned, parsed := VisitKey(d, now, visited, remaining, cleaned, k);
      }
      if !parsed {
        deleted := StaleAmong(d, visited, now);
        SweptSoFar(d, now, visited, remaining, cleaned);
        aborted := true;
        return;
      }
      assert (rest - {k}) + (visited + {k}) == keys;
      rest := rest - {k};
      visited := visited + {k};
    }
    deleted := StaleAmong(d, visited, now);
    SweptSoFar(d, now, visited, remaining, cleaned);
  }

  // ---------------------------------------------------------------------
  // The service: each method is one async method of RedisService
  // ---------------------------------------------------------------------

  class RedisService {
    var sessions: map<UserId, Entry<SessionValue>>
    var tokenSets: map<UserId, Entry<set<Token>>>
    var profiles: map<UserId, Entry<Obj>>
    var blacklist: map<Token, int>

    function Snapshot(): Db
      reads this
    {
      Db(sessions, tokenSets, profiles, blacklist)
    }

    constructor()
      ensures Snapshot() == EmptyDb
    {
      sessions, tokenSets, profiles, blacklist := map[], map[], map[], map[];
    }

    /** storeSession; `now` stands for both Date.now() reads; `reachable` false makes the pipeline fail. */
    method StoreSession(uid: UserId, tok: Token, userData: Option<Obj>, now: int, reachable: bool) returns (ok: bool)
      modifies this
      ensures ok == reachable
      ensures reachable ==> Snapshot() == AfterStoreSession(old(Snapshot()), uid, tok, userData, now)
      ensures !reachable ==> Snapshot() == old(Snapshot())
    {
      if !reachable {
        return false;
      }
      var expiry := ExpiryAfter(now, SESSION_TTL);
      var sessionData := SessionRecord(tok, uid, now, expiry);
      var active := if uid in tokenSets && now < tokenSets[uid].expiresAt then tokenSets[uid].val else {};
      sessions := sessions[uid := Entry(SessionJson(sessionData), expiry)];
      tokenSets := tokenSets[uid := Entry(active + {tok}, expiry)];
      if userData.Some? {
        profiles := profiles[uid := Entry(userData.value, ExpiryAfter(now, USER_PROFILE_TTL))];
      }
      ok := true;
    }

    /** getSession: null when absent, when the store fails, or when the value is not JSON. */
    method GetSession(uid: UserId, now: int, reachable: bool) returns (r: Option<SessionRecord>)
      ensures !reachable ==> r == None
      ensures reachable ==> r == ParseSession(SessionAt(Snapshot(), uid, now))
    {
      if !reachable {
        return None;
      }
      if uid in sessions && now < sessions[uid].expiresAt {
        match sessions[uid].val
        case SessionJson(rec) => r := Some(rec);
        case RawToken(_) => r := None;
      } else {
        r := None;
      }
    }

    /** validateToken: a blacklisted token is refused before the token set is read; store errors refuse. */
    method ValidateToken(uid: UserId, tok: Token, now: int, reachable: bool) returns (valid: bool)
      ensures Blacklisted(Snapshot(), tok, now) ==> !valid
      ensures !Blacklisted(Snapshot(), tok, now) ==> (valid <==> reachable && tok in LiveTokens(Snapshot(), uid, now))
    {
      if !reachable {
        return false;
      }
      if tok in blacklist && now < blacklist[tok] {
        return false;
      }
      valid := uid in tokenSets && now < tokenSets[uid].expiresAt && tok in tokenSets[uid].val;
    }

    /** invalidateSession */
    method InvalidateSession(uid: UserId, tok: Token, now: int, reachable: bool) returns (ok: bool)
      modifies this
      ensures ok == reachable
      ensures reachable ==> Snapshot() == AfterInvalidateSession(old(Snapshot()), uid, tok, now)
      ensures !reachable ==> Snapshot() == old(Snapshot())
    {
      if !reachable {
        return false;
      }
      sessions := sessions - {uid};
      tokenSets := RemoveToken(tokenSets, uid, tok, now);
      blacklist := blacklist[tok := ExpiryAfter(now, TOKEN_BLACKLIST_TTL)];
      profiles := profiles - {uid};
      ok := true;
    }

    /** invalidateAllSessions: the forEach over the members read queues one SETEX per token. */
    method InvalidateAllSessions(uid: UserId, now: int, reachable: bool) returns (ok: bool)
      modifies this
      ensures ok == reachable
      ensures reachable ==> Snapshot() == AfterInvalidateAll(old(Snapshot()), uid, now)
      ensures !reachable ==> Snapshot() == old(Snapshot())
    {
      if !reachable {
        return false;
      }
      var tokens := if uid in tokenSets && now < tokenSets[uid].expiresAt then tokenSets[uid].val else {};
      assert tokens == LiveTokens(Snapshot(), uid, now);
      var queued := QueueBlacklist(blacklist, tokens, ExpiryAfter(now, TOKEN_BLACKLIST_TTL));
      blacklist := queued;
      sessions := sessions - {uid};
      tokenSets := tokenSets - {uid};
      profiles := profiles - {uid};
      ok := true;
    }

    /** cacheUserProfile */
    method CacheUserProfile(uid: UserId, profileData: Obj, now: int, reachable: bool) returns (ok: bool)
      modifies this
      ensures ok == reachable
      ensures reachable ==> Snapshot() == AfterCacheProfile(old(Snapshot()), uid, profileData, now)
      ensures !reachable ==> Snapshot() == old(Snapshot())
    {
      if !reachable {
        return false;
      }
      profiles := profiles[uid := Entry(SafeProfile(profileData), ExpiryAfter(now, USER_PROFILE_TTL))];
      ok := true;
    }

    /** getCachedUserProfile: the stored object, or null when absent or on a store error. */
    method GetCachedUserProfile(uid: UserId, now: int, reachable: bool) returns (r: Option<Obj>)
      ensures !reachable ==> r == None
      ensures reachable ==> r == ProfileAt(Snapshot(), uid, now)
    {
      if reachable && uid in profiles && now < profiles[uid].expiresAt {
        r := Some(profiles[uid].val);
      } else {
        r := None;
      }
    }

    /** invalidateUserProfileCache */
    method InvalidateUserProfileCache(uid: UserId, reachable: bool) returns (ok: bool)
      modifies this
      ensures ok == reachable
      ensures reachable ==> Snapshot() == AfterDropProfile(old(Snapshot()), uid)
      ensures !reachable ==> Snapshot() == old(Snapshot())
    {
      if !reachable {
        return false;
      }
      profiles := profiles - {uid};
      ok := true;
    }

    /** getSessionStats: the number of live keys under each prefix, all zero on a store error. */
    method GetSessionStats(now: int, reachable: bool) returns (s: SessionStats)
      ensures !reachable ==> s == SessionStats(0, 0, 0)
      ensures reachable ==> s == Stats(Snapshot(), now)
    {
      if !reachable {
        return SessionStats(0, 0, 0);
      }
      var sessionKeys := set u | u in sessions && now < sessions[u].expiresAt;
      var profileKeys := set u | u in profiles && now < profiles[u].expiresAt;
      var blacklistKeys := set t | t in blacklist && now < blacklist[t];
      s := SessionStats(|sessionKeys|, |profileKeys|, |blacklistKeys|);
    }

    /**
     * cleanupExpiredSessions: visits the live session keys in whatever order
     * KEYS returns them and deletes each whose record has expiresAt < now.
     * A value that is not JSON, or a store error on a GET or DEL, aborts the
     * loop and 0 is returned, but the deletions already made stay made.
     * `storeFails` holds the keys whose GET or DEL the store fails.
     */
    method CleanupExpiredSessions(now: int, reachable: bool, storeFails: set<UserId>) returns (cleaned: nat)
      modifies this
      ensures tokenSets == old(tokenSets) && profiles == old(profiles) && blacklist == old(blacklist)
      ensures old(sessions).Keys - sessions.Keys <= StaleSessionKeys(old(Snapshot()), now)
      ensures sessions == old(sessions) - (old(sessions).Keys - sessions.Keys)
      ensures !reachable ==> cleaned == 0 && sessions == old(sessions)
      ensures reachable && SweepCompletes(old(Snapshot()), now, storeFails) ==>
        sessions == old(sessions) - StaleSessionKeys(old(Snapshot()), now)
        && cleaned == |StaleSessionKeys(old(Snapshot()), now)|
      ensures !SweepCompletes(old(Snapshot()), now, storeFails) ==> cleaned == 0
    {
      if !reachable {
        return 0;
      }
      var remaining, swept, aborted, deleted := SweepSessions(Snapshot(), now, storeFails);
      RemovedKeys(sessions, deleted);
      sessions := remaining;
      cleaned := if aborted then 0 else swept;
    }
  }

  // ---------------------------------------------------------------------
  // Properties relating several operations
  // ---------------------------------------------------------------------

  /** A stored token validates for its user for the whole session TTL, unless it was already blacklisted. */
  lemma StoredTokenValidates(d: Db, uid: UserId, tok: Token, userData: Option<Obj>, now: int, t: int)
    requires now <= t < ExpiryAfter(now, SESSION_TTL)
    ensures TokenActive(AfterStoreSession(d, uid, tok, userData, now), uid, tok, t) <==> !Blacklisted(d, tok, t)
  {
  }

  /**
   * Revoking the same token twice leaves the state of revoking it once,
   * except that the blacklist entry's TTL restarts at the second call.
   */
  lemma InvalidateSessionIdempotent(d: Db, uid: UserId, tok: Token, now: int, later: int)
    requires now <= later
    ensures var once := AfterInvalidateSession(d, uid, tok, now);
      AfterInvalidateSession(once, uid, tok, later)
        == once.(blacklist := once.blacklist[tok := ExpiryAfter(later, TOKEN_BLACKLIST_TTL)])
  {
    var once := AfterInvalidateSession(d, uid, tok, now);
    var sets := once.tokenSets;
    if uid in sets && later < sets[uid].expiresAt {
      assert uid in d.tokenSets && now < d.tokenSets[uid].expiresAt;
      assert sets[uid].val == d.tokenSets[uid].val - {tok};
      assert sets[uid].val - {tok} == sets[uid].val;
    }
    assert RemoveToken(sets, uid, tok, later) == sets;
  }

  /** After cacheUserProfile the cache answers the sanitised object until the profile TTL runs out. */
  lemma CachedProfileReadBack(d: Db, uid: UserId, p: Obj, now: int, t: int)
    requires now <= t
    ensures t < ExpiryAfter(now, USER_PROFILE_TTL) ==> ProfileAt(AfterCacheProfile(d, uid, p, now), uid, t) == Some(SafeProfile(p))
    ensures t >= ExpiryAfter(now, USER_PROFILE_TTL) ==> ProfileAt(AfterCacheProfile(d, uid, p, now), uid, t) == None
    ensures forall u | u != uid :: ProfileAt(AfterCacheProfile(d, uid, p, now), u, t) == ProfileAt(d, u, t)
  {
  }

  /** Whatever the cache answers after cacheUserProfile has no field outside the six kept ones. */
  lemma CachedProfileHasNoPassword(d: Db, uid: UserId, p: Obj, now: int, t: int)
    requires ProfileAt(AfterCacheProfile(d, uid, p, now), uid, t).Some?
    ensures ProfileAt(AfterCacheProfile(d, uid, p, now), uid, t).value.Keys <= SAFE_FIELDS
  {
  }

  /** Both revocations empty the profile cache for the user. */
  lemma RevocationDropsProfile(d: Db, uid: UserId, tok: Token, now: int, t: int)
    ensures ProfileAt(AfterInvalidateSession(d, uid, tok, now), uid, t) == None
    ensures ProfileAt(AfterInvalidateAll(d, uid, now), uid, t) == None
  {
  }

  /** storeSession stores userData as given: a password field in it is cached as well. */
  lemma StoreSessionCachesUnsanitised(d: Db, uid: UserId, tok: Token, p: Obj, now: int)
    requires "password" in p
    ensures var r := ProfileAt(AfterStoreSession(d, uid, tok, Some(p), now), uid, now);
      r.Some? && "password" in r.value
  {
  }

  /** The counters after invalidateSession: one fewer session and cached profile if the user had them, the token blacklisted. */
  lemma StatsAfterInvalidateSession(d: Db, uid: UserId, tok: Token, now: int)
    ensures var before := Stats(d, now);
      var after := Stats(AfterInvalidateSession(d, uid, tok, now), now);
      && after.activeSessions == before.activeSessions - (if uid in LiveSessionKeys(d, now) then 1 else 0)
      && after.cachedProfiles == before.cachedProfiles - (if uid in LiveProfileKeys(d, now) then 1 else 0)
      && after.blacklistedTokens == before.blacklistedTokens + (if Blacklisted(d, tok, now) then 0 else 1)
  {
    var r := AfterInvalidateSession(d, uid, tok, now);
    LiveKeysAfterInvalidateSession(d, uid, tok, now);
    RemoveOneSize(LiveSessionKeys(d, now), uid);
    RemoveOneSize(LiveProfileKeys(d, now), uid);
    AddOneSize(LiveBlacklistKeys(d, now), tok);
  }

  lemma LiveKeysAfterInvalidateSession(d: Db, uid: UserId, tok: Token, now: int)
    ensures var r := AfterInvalidateSession(d, uid, tok, now);
      && LiveSessionKeys(r, now) == LiveSessionKeys(d, now) - {uid}
      && LiveProfileKeys(r, now) == LiveProfileKeys(d, now) - {uid}
      && LiveBlacklistKeys(r, now) == LiveBlacklistKeys(d, now) + {tok}
      && (tok in LiveBlacklistKeys(d, now) <==> Blacklisted(d, tok, now))
  {
  }

  lemma RemoveOneSize<T>(a: set<T>, x: T)
    ensures |a - {x}| == |a| - (if x in a then 1 else 0)
  {
    if x in a { assert a == (a - {x}) + {x}; }
    else { assert a - {x} == a; }
  }

  lemma AddOneSize<T>(a: set<T>, x: T)
    ensures |a + {x}| == |a| + (if x in a then 0 else 1)
  {
    if x in a { assert a + {x} == a; }
  }

  /** storeSession writes records whose expiresAt is their key's expiry, so the sweep never finds one to delete. */
  lemma StoreSessionKeepsTtlAgreement(d: Db, uid: UserId, tok: Token, userData: Option<Obj>, now: int)
    requires RecordsMatchTtl(d)
    ensures RecordsMatchTtl(AfterStoreSession(d, uid, tok, userData, now))
  {
  }

  /** While records and key expiries agree, no live record has expired: the sweep deletes nothing. */
  lemma SweepIdleWhenTtlAgrees(d: Db, now: int)
    requires RecordsMatchTtl(d)
    ensures StaleSessionKeys(d, now) == {}
  {
  }
}
