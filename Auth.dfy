/**
 * The behaviour of `login` and `refresh` as functions of the two stores the
 * service works on: the user repository and the Redis cache.  The class in
 * AuthService.dfy is proved to follow these functions; the lemmas here state
 * what the two operations promise.
 */
module Auth {
  import opened Wrappers
  import opened Domain

  /** Default nickname prefix (the `basicName` field). */
  const BasicName: string := "닉네임"

  /** Cache key prefix of live refresh tokens (the `refreshPrefix` field). */
  const RefreshPrefix: string := "refresh:"

  /** The value `cacheRefreshToken` stores under a refresh key. */
  const LiveMarker: string := "true"

  /** The message of the exception `refresh` throws for a token that is not live. */
  const InvalidRefreshToken: string := "Invalid refresh token"

  /** The collaborators and configuration of one service instance. */
  datatype Env = Env(
    keycloakClient: KeycloakClient,
    keycloakJwtUtil: KeycloakJwtUtil,
    jwtUtil: JwtUtil,
    baseImageUrl: string)

  /** The stores: the user repository keyed by userId, and the Redis cache. */
  datatype State = State(users: map<string, User>, cache: map<string, string>)

  /** `redisService.get(key)`: the cached value, or nothing. */
  function Get(cache: map<string, string>, key: string): (r: Option<string>)
    ensures r.Some? <==> key in cache
    ensures r.Some? ==> r.value == cache[key]
  {
    if key in cache then Some(cache[key]) else None
  }

  /** The cache key under which a refresh token is recorded as live. */
  function RefreshKey(token: string): (key: string)
    ensures |key| == |RefreshPrefix| + |token|
    ensures key[..|RefreshPrefix|] == RefreshPrefix && key[|RefreshPrefix|..] == token
  {
    RefreshPrefix + token
  }

  /** Distinct tokens have distinct refresh keys, so marking one never touches another's entry. */
  lemma RefreshKeyInjective(t1: string, t2: string)
    ensures RefreshKey(t1) == RefreshKey(t2) <==> t1 == t2
  {
  }

  /** Whether `refresh` accepts the token as live: its key is present in the cache. */
  function IsLive(cache: map<string, string>, token: string): (live: bool)
    ensures live <==> RefreshPrefix + token in cache
  {
    Get(cache, RefreshKey(token)).Some?
  }

  /** The profile created on a first login. */
  function DefaultProfile(userId: string, baseImageUrl: string): User
  {
    User(userId, BasicName + userId, baseImageUrl)
  }

  /** The user store after the create-if-absent step of `login`. */
  function Provision(users: map<string, User>, userId: string, baseImageUrl: string): (r: map<string, User>)
    ensures r.Keys == users.Keys + {userId}
    ensures forall k :: k in users ==> r[k] == users[k]
    ensures userId !in users ==> r[userId] == DefaultProfile(userId, baseImageUrl)
  {
    if userId in users then users else users[userId := DefaultProfile(userId, baseImageUrl)]
  }

  /** The cache after `cacheRefreshToken(token)`. */
  function MarkLive(cache: map<string, string>, token: string): (r: map<string, string>)
    ensures r.Keys == cache.Keys + {RefreshKey(token)}
    ensures r[RefreshKey(token)] == LiveMarker
    ensures forall k :: k in cache && k != RefreshKey(token) ==> r[k] == cache[k]
  {
    cache[RefreshKey(token) := LiveMarker]
  }

  /** Identity resolution: exchange the code at Keycloak, then read the userId from the Keycloak token. */
  function ResolveUserId(env: Env, code: string): Result<string, string>
  {
    match env.keycloakClient.getKeycloakToken(code)
    case Failure(e) => Failure(e)
    case Success(keycloakToken) =>
      match env.keycloakJwtUtil.getUserInfo(keycloakToken)
      case Failure(e) => Failure(e)
      case Success(userInfo) => Success(userInfo.userId)
  }

  /** `login(code)`: the response and the stores afterwards. */
  function Login(env: Env, s: State, code: string, now: int): (Result<TokenResponse, AuthError>, State)
  {
    match ResolveUserId(env, code)
    case Failure(e) => (Failure(Propagated(e)), s)
    case Success(userId) =>
      var accessToken := env.jwtUtil.createAccessToken(userId, now);
      var refreshToken := env.jwtUtil.createRefreshToken(userId, now);
      (Success(TokenResponse(accessToken, refreshToken)),
       State(Provision(s.users, userId, env.baseImageUrl), MarkLive(s.cache, refreshToken)))
  }

  /** `refresh(token)`: the liveness check first, then the token is parsed. It changes no store. */
  function Refresh(env: Env, cache: map<string, string>, token: string, now: int): Result<RefreshResponse, AuthError>
  {
    if Get(cache, RefreshKey(token)).None? then
      Failure(MissingData(InvalidRefreshToken))
    else
      match env.jwtUtil.getUserId(token, now)
      case Failure(e) => Failure(Propagated(e))
      case Success(userId) => Success(RefreshResponse(env.jwtUtil.createAccessToken(userId, now)))
  }

  // ---------------------------------------------------------------- login

  /** A failed identity resolution is propagated, and neither store changes. */
  lemma LoginFailureChangesNothing(env: Env, s: State, code: string, now: int)
    requires ResolveUserId(env, code).Failure?
    ensures Login(env, s, code, now) == (Failure(Propagated(ResolveUserId(env, code).error)), s)
  {
  }

  /** A first login stores exactly one new profile, with the default nickname and image; nothing else in the user store changes. */
  lemma LoginProvisionsNewUser(env: Env, s: State, code: string, now: int, userId: string)
    requires ResolveUserId(env, code) == Success(userId)
    requires userId !in s.users
    ensures var users' := Login(env, s, code, now).1.users;
      && users'.Keys == s.users.Keys + {userId}
      && users'[userId] == User(userId, "닉네임" + userId, env.baseImageUrl)
      && forall k :: k in s.users ==> users'[k] == s.users[k]
  {
  }

  /** A later login leaves the user store exactly as it was: an existing profile is never overwritten. */
  lemma LoginKeepsExistingUser(env: Env, s: State, code: string, now: int, userId: string)
    requires ResolveUserId(env, code) == Success(userId)
    requires userId in s.users
    ensures Login(env, s, code, now).1.users == s.users
  {
  }

  /**
   * Two logins for the same identity (two codes that resolve to the same
   * userId) leave one profile for that user, the one the first login left.
   */
  lemma LoginTwiceKeepsFirstProfile(env: Env, s: State, c1: string, c2: string, now1: int, now2: int, userId: string)
    requires ResolveUserId(env, c1) == Success(userId)
    requires ResolveUserId(env, c2) == Success(userId)
    ensures var s1 := Login(env, s, c1, now1).1;
      var s2 := Login(env, s1, c2, now2).1;
      && s2.users == s1.users
      && s2.users.Keys == s.users.Keys + {userId}
      && s2.users[userId] == (if userId in s.users then s.users[userId] else DefaultProfile(userId, env.baseImageUrl))
  {
  }

  /** A successful login returns the access and refresh tokens created for the resolved userId at that instant. */
  lemma LoginIssuesTokensForResolvedUser(env: Env, s: State, code: string, now: int, userId: string)
    requires ResolveUserId(env, code) == Success(userId)
    ensures Login(env, s, code, now).0 ==
      Success(TokenResponse(env.jwtUtil.createAccessToken(userId, now), env.jwtUtil.createRefreshToken(userId, now)))
  {
  }

  /** A successful login records its refresh token under "refresh:" + token with value "true", and no other cache entry changes. */
  lemma LoginMarksRefreshLive(env: Env, s: State, code: string, now: int)
    requires Login(env, s, code, now).0.Success?
    ensures var (r, s') := Login(env, s, code, now);
      var key := "refresh:" + r.value.refreshToken;
      && s'.cache.Keys == s.cache.Keys + {key}
      && s'.cache[key] == "true"
      && forall k :: k in s.cache && k != key ==> s'.cache[k] == s.cache[k]
  {
  }

  // -------------------------------------------------------------- refresh

  /** `refresh` fails with CMissingDataException("Invalid refresh token") exactly when the token's key is absent from the cache. */
  lemma RefreshMissingIffNotLive(env: Env, cache: map<string, string>, token: string, now: int)
    ensures Refresh(env, cache, token, now) == Failure(MissingData(InvalidRefreshToken))
        <==> RefreshKey(token) !in cache
  {
  }

  /**
   * The liveness check comes first: for an unregistered token the outcome is
   * the same whatever the JWT utility would make of it, malformed or not.
   */
  lemma RefreshChecksLivenessFirst(env: Env, jwtUtil: JwtUtil, cache: map<string, string>, token: string, now: int)
    requires RefreshKey(token) !in cache
    ensures Refresh(env, cache, token, now) == Refresh(env.(jwtUtil := jwtUtil), cache, token, now)
    ensures Refresh(env, cache, token, now).Failure? && Refresh(env, cache, token, now).error.MissingData?
  {
  }

  /** For a live token, `refresh` returns a fresh access token for the userId the token carries, or propagates the parse failure. */
  lemma RefreshOfLiveToken(env: Env, cache: map<string, string>, token: string, now: int)
    requires RefreshKey(token) in cache
    ensures match env.jwtUtil.getUserId(token, now)
      case Success(userId) => Refresh(env, cache, token, now) == Success(RefreshResponse(env.jwtUtil.createAccessToken(userId, now)))
      case Failure(e) => Refresh(env, cache, token, now) == Failure(Propagated(e))
  {
  }

  // ------------------------------------------------------------ round trip

  /**
   * The key `cacheRefreshToken` writes is the key `refresh` reads, so right
   * after a login the refresh token it returned passes the liveness check.
   */
  lemma LoginThenRefreshIsLive(env: Env, s: State, code: string, now: int, later: int)
    requires Login(env, s, code, now).0.Success?
    ensures var (r, s') := Login(env, s, code, now);
      && IsLive(s'.cache, r.value.refreshToken)
      && Refresh(env, s'.cache, r.value.refreshToken, later) != Failure(MissingData(InvalidRefreshToken))
  {
  }

  /**
   * When the JWT utility reads back the userId it put into the refresh
   * token, refreshing right after login yields an access token for the same
   * user that logged in.
   */
  lemma LoginThenRefreshSameUser(env: Env, s: State, code: string, now: int, later: int, userId: string)
    requires ResolveUserId(env, code) == Success(userId)
    requires env.jwtUtil.getUserId(env.jwtUtil.createRefreshToken(userId, now), later) == Success(userId)
    ensures var (r, s') := Login(env, s, code, now);
      Refresh(env, s'.cache, r.value.refreshToken, later) ==
        Success(RefreshResponse(env.jwtUtil.createAccessToken(userId, later)))
  {
  }
}
