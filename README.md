# Authentication service of rebook-user-service, in Dafny

This project models `AuthService`, the authentication core of the rebook user
service. The service has two public operations:

- `login(code)` exchanges a Keycloak authorization code for a Keycloak token
  and reads the user's identity from it. For a userId not seen before it
  creates a profile with the nickname `"닉네임" + userId` and the configured
  default image (`aws.basic`). It then issues an access token and a refresh
  token for that userId. Finally it records the refresh token as live by
  storing `"refresh:" + token -> "true"` in Redis.
- `refresh(token)` throws `CMissingDataException("Invalid refresh token")`
  unless the key `"refresh:" + token` is in Redis. Otherwise it reads the
  userId from the token and issues a new access token. It changes nothing.

Layout:

- `Wrappers.dfy`: `Option` and `Result`.
- `Domain.dfy`: the entities (`User`, `UserInfo`, the two responses), the
  error outcome `AuthError`, and the collaborators (`KeycloakClient`,
  `KeycloakJwtUtil`, `JwtUtil`) as records of functions.
- `Auth.dfy`: `login` and `refresh` as functions of the two stores, and the
  lemmas stating what one call promises.
- `AuthService.dfy`: the class. Its fields `users` (UserRepository) and
  `cache` (Redis) are updated in place by `Login`. Each method is proved to
  follow the corresponding function of `Auth`.
- `Sessions.dfy`: any sequence of calls, and the lemmas about what holds
  after it.

Exceptions are `Result.Failure` values. `MissingData(message)` is the
service's own `CMissingDataException`. `Propagated(cause)` is an exception
thrown by a collaborator and passed through unchanged. The collaborators read
a clock when they sign or check tokens; the model passes that clock reading
as an explicit `now` argument, one per call.

## Model

| member | source | states |
|---|---|---|
| `Auth.Get` | src/main/java/com/example/rebookuserservice/service/AuthService.java:67 | the Redis lookup yields a value exactly when the key is present, and that value is the stored one |
| `Auth.RefreshKey` | src/main/java/com/example/rebookuserservice/service/AuthService.java:65 | the cache key of a token is the prefix `refresh:` followed by the whole token |
| `Auth.RefreshKeyInjective` | src/main/java/com/example/rebookuserservice/service/AuthService.java:84-88 | two tokens share a cache key exactly when they are the same token, so marking one never touches another's entry |
| `Auth.IsLive` | src/main/java/com/example/rebookuserservice/service/AuthService.java:65-67 | a token is live exactly when `"refresh:"` followed by the token is a key of the cache |
| `Auth.DefaultProfile` | src/main/java/com/example/rebookuserservice/service/AuthService.java:49-51 | the profile created on a first login: the userId, `"닉네임" + userId`, and the `aws.basic` image; it has no `ensures` of its own, and `Auth.Provision` and `Auth.LoginProvisionsNewUser` state what it is used for |
| `Auth.ResolveUserId` | src/main/java/com/example/rebookuserservice/service/AuthService.java:41-46 | identity resolution: the code exchange (lines 77-82), then the userId read from the Keycloak token, stopping at the first failure; it has no `ensures` of its own, and `Auth.LoginFailureChangesNothing` states its error path |
| `Auth.Login` | src/main/java/com/example/rebookuserservice/service/AuthService.java:36-62 | `login` as a function of the two stores; it has no `ensures` of its own, and its promises are the `Auth.Login*` lemmas and the `Sessions` lemmas |
| `Auth.Refresh` | src/main/java/com/example/rebookuserservice/service/AuthService.java:64-75 | `refresh` as a function of the cache; it has no `ensures` of its own, and its promises are the `Auth.Refresh*` lemmas, `Auth.LoginThenRefreshIsLive` and `Auth.LoginThenRefreshSameUser` |
| `Auth.Provision` | src/main/java/com/example/rebookuserservice/service/AuthService.java:48-54 | create-if-absent: the store gains only the resolved userId; every existing profile keeps its value; a new profile gets the default nickname and image |
| `Auth.MarkLive` | src/main/java/com/example/rebookuserservice/service/AuthService.java:84-88 | the cache gains only the token's key, which maps to `"true"`; every other entry keeps its value |
| `Auth.LoginFailureChangesNothing` | src/main/java/com/example/rebookuserservice/service/AuthService.java:41-46 | when the code exchange or the user-info lookup fails, login propagates that failure and neither store changes |
| `Auth.LoginProvisionsNewUser` | src/main/java/com/example/rebookuserservice/service/AuthService.java:48-52 | a first login adds exactly one profile, `"닉네임" + userId` with the `aws.basic` image; no other profile changes |
| `Auth.LoginKeepsExistingUser` | src/main/java/com/example/rebookuserservice/service/AuthService.java:48-54 | a login for a stored userId leaves the user store exactly as it was; a nickname is never overwritten |
| `Auth.LoginTwiceKeepsFirstProfile` | src/main/java/com/example/rebookuserservice/service/AuthService.java:48-54 | two logins whose codes resolve to the same userId leave one profile for the user, the one the first login left |
| `Auth.LoginIssuesTokensForResolvedUser` | src/main/java/com/example/rebookuserservice/service/AuthService.java:56-61 | a successful login returns the access and refresh tokens created for the resolved userId |
| `Auth.LoginMarksRefreshLive` | src/main/java/com/example/rebookuserservice/service/AuthService.java:57-59 | after login, `"refresh:" + refreshToken` maps to `"true"` and every other cache key keeps its value |
| `Auth.RefreshMissingIffNotLive` | src/main/java/com/example/rebookuserservice/service/AuthService.java:65-69 | refresh fails with `CMissingDataException("Invalid refresh token")` if and only if the token's key is absent from the cache |
| `Auth.RefreshChecksLivenessFirst` | src/main/java/com/example/rebookuserservice/service/AuthService.java:65-71 | for an unregistered token the outcome does not depend on the JWT utility at all: missing data wins over a malformed token |
| `Auth.RefreshOfLiveToken` | src/main/java/com/example/rebookuserservice/service/AuthService.java:71-74 | for a live token, refresh returns a new access token for the userId the token carries, or propagates the parse failure |
| `Auth.LoginThenRefreshIsLive` | src/main/java/com/example/rebookuserservice/service/AuthService.java:85-87 | the prefix `cacheRefreshToken` writes agrees with the `refreshPrefix` refresh reads, so right after login, refresh of the returned token passes the liveness check |
| `Auth.LoginThenRefreshSameUser` | src/main/java/com/example/rebookuserservice/service/AuthService.java:57-72 | if the JWT utility reads back the userId it signed, refresh right after login yields an access token for the user who logged in |
| `AuthService.AuthService.constructor` | src/main/java/com/example/rebookuserservice/service/AuthService.java:24-34 | the service holds the given collaborators, image URL and stores |
| `AuthService.AuthService.Login` | src/main/java/com/example/rebookuserservice/service/AuthService.java:36-62 | the response and both stores afterwards are those of the login function, from the stores before the call; the code exchange of `getKeycloakToken` (lines 77-82) is the abstract client call |
| `AuthService.AuthService.Refresh` | src/main/java/com/example/rebookuserservice/service/AuthService.java:64-75 | the response is that of the refresh function; it fails with missing data exactly when the token is not live; it has no modifies clause, so no store changes |
| `AuthService.AuthService.CacheRefreshToken` | src/main/java/com/example/rebookuserservice/service/AuthService.java:84-89 | the cache becomes the old cache with the token marked live, though the method spells its own prefix literal |
| `AuthService.LoginThenRefresh` | src/main/java/com/example/rebookuserservice/service/AuthService.java:59-72 | a caller of the two methods sees a successful login's refresh token pass the refresh check, and the stores stay as login left them |
| `Sessions.Run` | src/main/java/com/example/rebookuserservice/service/AuthService.java:36-75 | any sequence of calls gives one response per call, deletes no profile and removes no cache key |
| `Sessions.RunKeepsProfiles` | src/main/java/com/example/rebookuserservice/service/AuthService.java:48-54 | a profile present at the start is unchanged after any sequence of calls |
| `Sessions.RunProvisionsEveryLogin` | src/main/java/com/example/rebookuserservice/service/AuthService.java:48-52 | after any sequence, every user that logged in has a profile |
| `Sessions.RunProfileOrigin` | src/main/java/com/example/rebookuserservice/service/AuthService.java:48-52 | a profile not present at the start was created by some login of that user, with the default nickname and image |
| `Sessions.RunIgnoresRefreshes` | src/main/java/com/example/rebookuserservice/service/AuthService.java:64-75 | refresh calls change no store: the final stores equal those from the login calls alone |
| `Sessions.LiveTokenStaysAccepted` | src/main/java/com/example/rebookuserservice/service/AuthService.java:65-69 | a token whose key is in the cache passes the liveness check of every later refresh |
| `Sessions.IssuedTokenStaysLive` | src/main/java/com/example/rebookuserservice/service/AuthService.java:59-69 | refresh does not rotate: a refresh token returned by a login passes the liveness check of every later refresh presenting it |

## Left out

- `Auth.Get`: `RedisService` is not part of this model. The check `redisService.get(key).isEmpty()` is read as "the key is absent" (an empty `Optional`); if `get` returned a bare `String`, an absent key would throw a `NullPointerException` rather than `CMissingDataException`, and the error path of `refresh` would differ.
- The code exchange is a fixed function of the code: it never uses a code up, so the model lets one authorization code succeed any number of times, where Keycloak accepts it only once.
- Every `JwtUtil` call of one request reads the same clock value `now`: both tokens of a login are created at one instant, and refresh parses and signs at one instant, where the source makes separate calls between which the clock can advance.
- Token creation (`createAccessToken`, `createRefreshToken`) is assumed never to fail: both are total functions in the model.
- `getKeycloakToken` (lines 77-82) and `KeycloakJwtUtil.getUserInfo` (line 44) make network calls and parse Keycloak tokens; both are functions supplied from outside: the first returns the Keycloak access token, the second the `UserInfo`, and either may fail instead.
- `JwtUtil` signing and verification are not shown; its three operations are functions supplied from outside, and the clock they read is the `now` argument.
- `Users(UserInfo)` is not shown; a profile holds only userId, nickname and image URL. Any other attribute it copies from `UserInfo`, and the entity's timestamps, are not modelled.
- Store failures: the user repository and Redis are maps whose reads and writes always succeed, so a failing `save` or `set` is not modelled.
- `@Transactional` and concurrent first logins for one userId: the model runs calls one at a time.
- Redis TTL and eviction: no expiry appears in this code, so live entries never disappear in the model.
- Logging (`log.info`) has no effect on the result and is left out.
- Java `null` (a null code, or a null `UserInfo`) is not modelled.
- `RebookUserServiceApplication.java`, `UserBookId.java` and `PasswordUpdateRequest.java` hold no logic and are not part of this model.
