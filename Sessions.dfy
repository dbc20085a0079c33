/**
 * Sequences of calls to the service, one after another, each with its own
 * clock reading.  The lemmas state what holds after any such sequence: a
 * profile exists exactly for the users present at the start or provisioned
 * by some login, no profile is ever overwritten, refresh calls never change
 * a store, and a refresh token stays usable for every later refresh.
 */
module Sessions {
  import opened Wrappers
  import opened Domain
  import opened Auth

  datatype Request = LoginRequest(code: string, now: int) | RefreshRequest(refreshToken: string, now: int)

  datatype Response =
    | LoginResponse(login: Result<TokenResponse, AuthError>)
    | RefreshResult(refresh: Result<RefreshResponse, AuthError>)

  /** One call of the service. */
  function Serve(env: Env, s: State, req: Request): (Response, State)
  {
    match req
    case LoginRequest(code, now) =>
      var (r, s') := Login(env, s, code, now);
      (LoginResponse(r), s')
    case RefreshRequest(token, now) =>
      (RefreshResult(Refresh(env, s.cache, token, now)), s)
  }

  /** The calls `reqs` in order, from stores `s`: one response per call, and the final stores. */
  function Run(env: Env, s: State, reqs: seq<Request>): (out: (seq<Response>, State))
    ensures |out.0| == |reqs|
    ensures forall k :: k in s.users ==> k in out.1.users
    ensures s.cache.Keys <= out.1.cache.Keys
    decreases |reqs|
  {
    if reqs == [] then ([], s)
    else
      var (r, s1) := Serve(env, s, reqs[0]);
      var (rs, s2) := Run(env, s1, reqs[1..]);
      ([r] + rs, s2)
  }

  /** The login calls of `reqs`, in order. */
  function Logins(reqs: seq<Request>): (r: seq<Request>)
    ensures forall i :: 0 <= i < |r| ==> r[i].LoginRequest?
    ensures |r| <= |reqs|
  {
    if reqs == [] then []
    else if reqs[0].LoginRequest? then [reqs[0]] + Logins(reqs[1..])
    else Logins(reqs[1..])
  }

  /** The request is a login whose code resolves to `userId`. */
  predicate LogsIn(env: Env, req: Request, userId: string)
  {
    req.LoginRequest? && ResolveUserId(env, req.code) == Success(userId)
  }

  /** The response is a successful login that handed out refresh token `token`. */
  predicate Issued(resp: Response, token: string)
  {
    resp.LoginResponse? && resp.login.Success? && resp.login.value.refreshToken == token
  }

  /** A profile present at the start is still there, unchanged, after any sequence of calls. */
  lemma {:induction false} RunKeepsProfiles(env: Env, s: State, reqs: seq<Request>, userId: string)
    requires userId in s.users
    ensures userId in Run(env, s, reqs).1.users
    ensures Run(env, s, reqs).1.users[userId] == s.users[userId]
    decreases |reqs|
  {
    if reqs != [] {
      var s1 := Serve(env, s, reqs[0]).1;
      assert s1.users[userId] == s.users[userId];
      RunKeepsProfiles(env, s1, reqs[1..], userId);
    }
  }

  /** Every login in the sequence leaves a profile for the user it resolved. */
  lemma {:induction false} RunProvisionsEveryLogin(env: Env, s: State, reqs: seq<Request>, i: nat, userId: string)
    requires i < |reqs| && LogsIn(env, reqs[i], userId)
    ensures userId in Run(env, s, reqs).1.users
    decreases |reqs|
  {
    var s1 := Serve(env, s, reqs[0]).1;
    if i > 0 {
      RunProvisionsEveryLogin(env, s1, reqs[1..], i - 1, userId);
    }
  }

  /**
   * A profile that was not there at the start was created by a login of
   * that user in the sequence, and carries the default nickname and image.
   */
  lemma {:induction false} RunProfileOrigin(env: Env, s: State, reqs: seq<Request>, userId: string)
    requires userId in Run(env, s, reqs).1.users && userId !in s.users
    ensures Run(env, s, reqs).1.users[userId] == DefaultProfile(userId, env.baseImageUrl)
    ensures exists i :: 0 <= i < |reqs| && LogsIn(env, reqs[i], userId)
    decreases |reqs|
  {
    if reqs == [] {
      assert false;
    } else {
      var s1 := Serve(env, s, reqs[0]).1;
      if userId in s1.users {
        assert LogsIn(env, reqs[0], userId);
        RunKeepsProfiles(env, s1, reqs[1..], userId);
      } else {
        RunProfileOrigin(env, s1, reqs[1..], userId);
        var i :| 0 <= i < |reqs[1..]| && LogsIn(env, reqs[1..][i], userId);
        assert LogsIn(env, reqs[i + 1], userId);
      }
    }
  }

  /** Refresh calls change no store: the final stores are those of the login calls alone. */
  lemma {:induction false} RunIgnoresRefreshes(env: Env, s: State, reqs: seq<Request>)
    ensures Run(env, s, reqs).1 == Run(env, s, Logins(reqs)).1
    decreases |reqs|
  {
    if reqs != [] {
      var s1 := Serve(env, s, reqs[0]).1;
      RunIgnoresRefreshes(env, s1, reqs[1..]);
      if reqs[0].LoginRequest? {
        var ls := Logins(reqs);
        assert ls[0] == reqs[0] && ls[1..] == Logins(reqs[1..]);
      }
    }
  }

  /** A token whose key is in the cache is accepted by the liveness check of every refresh in the sequence. */
  lemma {:induction false} LiveTokenStaysAccepted(env: Env, s: State, reqs: seq<Request>, j: nat)
    requires j < |reqs| && reqs[j].RefreshRequest?
    requires RefreshKey(reqs[j].refreshToken) in s.cache
    ensures Run(env, s, reqs).0[j] != RefreshResult(Failure(MissingData(InvalidRefreshToken)))
    decreases |reqs|
  {
    var s1 := Serve(env, s, reqs[0]).1;
    if j == 0 {
      RefreshMissingIffNotLive(env, s.cache, reqs[0].refreshToken, reqs[0].now);
    } else {
      LiveTokenStaysAccepted(env, s1, reqs[1..], j - 1);
    }
  }

  /**
   * Refresh does not rotate: the refresh token handed out by the login at
   * position i passes the liveness check of every refresh at a later
   * position j that presents it.
   */
  lemma {:induction false} IssuedTokenStaysLive(env: Env, s: State, reqs: seq<Request>, i: nat, j: nat)
    requires i < j < |reqs| && reqs[j].RefreshRequest?
    requires Issued(Run(env, s, reqs).0[i], reqs[j].refreshToken)
    ensures Run(env, s, reqs).0[j] != RefreshResult(Failure(MissingData(InvalidRefreshToken)))
    decreases |reqs|
  {
    var (r, s1) := Serve(env, s, reqs[0]);
    if i == 0 {
      LiveTokenStaysAccepted(env, s1, reqs[1..], j - 1);
    } else {
      IssuedTokenStaysLive(env, s1, reqs[1..], i - 1, j - 1);
    }
  }
}
