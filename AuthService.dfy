/**
 * The service object itself.  Its two stores are fields that `login`
 * updates in place: `users` stands for the UserRepository table and `cache`
 * for the Redis keyspace reached through RedisService.
 */
module AuthService {
  import opened Wrappers
  import opened Domain
  import Auth

  class AuthService {
    const keycloakClient: KeycloakClient
    const keycloakJwtUtil: KeycloakJwtUtil
    const jwtUtil: JwtUtil
    /** The `aws.basic` setting: image URL given to new profiles. */
    const baseImageUrl: string

    /** UserRepository: profiles by userId. */
    var users: map<string, User>
    /** RedisService: the cache, key to value. */
    var cache: map<string, string>

    /** The collaborators and configuration, as the specification functions take them. */
    function Env(): Auth.Env
    {
      Auth.Env(keycloakClient, keycloakJwtUtil, jwtUtil, baseImageUrl)
    }

    /** Both stores as one value. */
    function State(): Auth.State
      reads this
    {
      Auth.State(users, cache)
    }

    constructor (keycloakClient: KeycloakClient, keycloakJwtUtil: KeycloakJwtUtil, jwtUtil: JwtUtil,
                 baseImageUrl: string, users: map<string, User>, cache: map<string, string>)
      ensures Env() == Auth.Env(keycloakClient, keycloakJwtUtil, jwtUtil, baseImageUrl)
      ensures State() == Auth.State(users, cache)
    {
      this.keycloakClient := keycloakClient;
      this.keycloakJwtUtil := keycloakJwtUtil;
      this.jwtUtil := jwtUtil;
      this.baseImageUrl := baseImageUrl;
      this.users := users;
      this.cache := cache;
    }

    /**
     * `login(request)`: resolve the identity, create the profile if none
     * exists, issue both tokens and record the refresh token as live.
     */
    method Login(code: string, now: int) returns (r: Result<TokenResponse, AuthError>)
      modifies this
      ensures (r, State()) == Auth.Login(Env(), old(State()), code, now)
    {
      var keycloakToken := keycloakClient.getKeycloakToken(code);
      if keycloakToken.Failure? {
        return Failure(Propagated(keycloakToken.error));
      }
      var userInfo := keycloakJwtUtil.getUserInfo(keycloakToken.value);
      if userInfo.Failure? {
        return Failure(Propagated(userInfo.error));
      }
      var userId := userInfo.value.userId;

      if userId !in users {
        var profile := User(userId, Auth.BasicName + userId, baseImageUrl);
        users := users[userId := profile];
      }

      var accessToken := jwtUtil.createAccessToken(userId, now);
      var refreshToken := jwtUtil.createRefreshToken(userId, now);

      CacheRefreshToken(refreshToken);

      return Success(TokenResponse(accessToken, refreshToken));
    }

    /**
     * `refresh(refreshToken)`: reject a token whose key is not in the cache,
     * otherwise issue a new access token for the userId it carries.  It has
     * no modifies clause: neither store can change.
     */
    method Refresh(refreshToken: string, now: int) returns (r: Result<RefreshResponse, AuthError>)
      ensures r == Auth.Refresh(Env(), cache, refreshToken, now)
      ensures r == Failure(MissingData(Auth.InvalidRefreshToken)) <==> !Auth.IsLive(cache, refreshToken)
    {
      var cachedRefreshToken := Auth.RefreshPrefix + refreshToken;
      if Auth.Get(cache, cachedRefreshToken).None? {
        return Failure(MissingData("Invalid refresh token"));
      }

      var userId := jwtUtil.getUserId(refreshToken, now);
      if userId.Failure? {
        return Failure(Propagated(userId.error));
      }
      var accessToken := jwtUtil.createAccessToken(userId.value, now);

      return Success(RefreshResponse(accessToken));
    }

    /** `cacheRefreshToken(refreshToken)`: it spells its own prefix, which must agree with `refreshPrefix`. */
    method CacheRefreshToken(refreshToken: string)
      modifies this`cache
      ensures cache == Auth.MarkLive(old(cache), refreshToken)
    {
      var refreshPrefix := "refresh:";

      cache := cache[refreshPrefix + refreshToken := "true"];
    }
  }

  /**
   * A caller's view: a successful login followed by a refresh of the
   * returned token passes the liveness check and leaves both stores as the
   * login left them.
   */
  method LoginThenRefresh(service: AuthService, code: string, now: int, later: int)
    returns (login: Result<TokenResponse, AuthError>, refresh: Option<Result<RefreshResponse, AuthError>>)
    modifies service
    ensures login == Auth.Login(service.Env(), old(service.State()), code, now).0
    ensures refresh.Some? <==> login.Success?
    ensures refresh.Some? ==> refresh.value != Failure(MissingData(Auth.InvalidRefreshToken))
    ensures service.State() == Auth.Login(service.Env(), old(service.State()), code, now).1
  {
    login := service.Login(code, now);
    if login.Success? {
      Auth.LoginThenRefreshIsLive(service.Env(), old(service.State()), code, now, later);
      var r := service.Refresh(login.value.refreshToken, later);
      refresh := Some(r);
    } else {
      refresh := None;
    }
  }
}
