/**
 * The entities the authentication service handles and the collaborators it
 * calls, described only at their interfaces.  Keycloak's HTTP client, the
 * Keycloak token parser and the JWT utility are not part of this model: each
 * is a record of total functions supplied from outside.
 */
module Domain {
  import opened Wrappers

  /** A stored user profile (the `Users` entity), keyed by `userId`. */
  datatype User = User(userId: string, nickname: string, profileImage: string)

  /** The verified identity read from a Keycloak token (`UserInfo`). */
  datatype UserInfo = UserInfo(userId: string)

  /** What `login` returns. */
  datatype TokenResponse = TokenResponse(accessToken: string, refreshToken: string)

  /** What `refresh` returns. */
  datatype RefreshResponse = RefreshResponse(accessToken: string)

  /**
   * How a call of the service ends when it does not return normally:
   * `MissingData` is the `CMissingDataException` the service throws itself;
   * `Propagated` is an exception thrown by a collaborator, passed on unchanged.
   */
  datatype AuthError = MissingData(message: string) | Propagated(cause: string)

  /** `KeycloakClient.getKeycloakToken(new KeycloakRequest(code)).getAccessToken()`. */
  datatype KeycloakClient = KeycloakClient(getKeycloakToken: string -> Result<string, string>)

  /** `KeycloakJwtUtil.getUserInfo(keycloakToken)`. */
  datatype KeycloakJwtUtil = KeycloakJwtUtil(getUserInfo: string -> Result<UserInfo, string>)

  /**
   * `JwtUtil`: signs and parses the service's own tokens.  The clock these
   * operations read (issued-at, expiry) is the explicit `now` argument.
   */
  datatype JwtUtil = JwtUtil(
    createAccessToken: (string, int) -> string,
    createRefreshToken: (string, int) -> string,
    getUserId: (string, int) -> Result<string, string>)
}
