/** Values shared by every part of the adapter model. */
module Common {

  /** A Java reference that may be null. */
  datatype Option<+T> = None | Some(value: T)

  /** A value, or the exception that replaced it. */
  datatype Result<+T, +E> = Success(value: T) | Failure(error: E)

  /**
   * The repository holds the adapter twice: the later io.github.hacks1ash
   * package and the earlier com.odradek package. Where the two copies
   * behave differently, the model takes the package as a value.
   */
  datatype Package = IoGithub | ComOdradek

  /** The keycloak.* configuration the core reads (KeycloakProperties). */
  datatype KeycloakProperties = KeycloakProperties(serverUrl: string, realm: string, clientId: string)
}

/** Token representations exchanged between the decoder, the converter and the user model. */
module Tokens {
  import opened Common

  /** A value of the otherClaims map: JSON null, or a value given by its toString() form. */
  datatype ClaimValue = Null | Value(text: string)

  /** AccessToken.Access: the roles granted for one client. */
  datatype Access = Access(roles: set<string>)

  /** The parts of Keycloak's AccessToken the adapter reads. */
  datatype AccessToken = AccessToken(
    subject: Option<string>,
    resourceAccess: map<string, Access>,
    otherClaims: map<string, ClaimValue>)

  /** The JWS header of a compact token; alg is the name of the Algorithm enum constant. */
  datatype JwsHeader = JwsHeader(alg: Option<string>, typ: Option<string>, kid: Option<string>, cty: Option<string>)

  /** The parts of Keycloak's JsonWebToken the decoder reads; iat and exp are boxed Longs. */
  datatype JsonWebToken = JsonWebToken(subject: Option<string>, iat: Option<int>, exp: Option<int>)

  /** Spring's Jwt: the token string, two instants in epoch seconds, the header and claim maps. */
  datatype Jwt = Jwt(
    tokenValue: string,
    issuedAt: int,
    expiresAt: int,
    headers: map<string, string>,
    claims: map<string, string>)
}
