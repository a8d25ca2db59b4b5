/**
 * KeycloakJWTDecoder: the JwtDecoder of the adapter. Parsing, the claim
 * checks and the signature check are Keycloak's TokenVerifier and stay
 * outside this model; what the model keeps is the orchestration around them:
 * which kid the locator is asked for, which checks and which key the verifier
 * is given, that a Jwt is built only from what verify() returned, the shape
 * of that Jwt, and how a VerificationException is reported (the
 * "invalid_token" error of section 3.1 of RFC 6750).
 */
module JwtDecoder {
  import opened Common
  import opened Tokens
  import opened Jwks
  import UrlHelper
  import KeyLocator

  /** TokenUtil.TOKEN_TYPE_BEARER */
  const TOKEN_TYPE_BEARER: string := "Bearer"
  /** OAuth2ErrorCodes.INVALID_TOKEN */
  const INVALID_TOKEN: string := "invalid_token"
  /** The error URI both copies attach. */
  const RFC6750_ERROR_URI: string := "https://tools.ietf.org/html/rfc6750#section-3.1"

  /** The TokenVerifier checks the decoder registers. */
  datatype Check =
    | SubjectExists            // SUBJECT_EXISTS_CHECK
    | TokenType(types: seq<string>)
    | IsActive                 // IS_ACTIVE
    | RealmUrl(url: string)    // RealmUrlCheck

  /** Keycloak's TokenVerifier, outside this model: parsing the header, and verify() with the checks and key it was given. */
  datatype TokenVerifier = TokenVerifier(
    header: string -> Result<JwsHeader, string>,
    verify: (string, seq<Check>, Option<PublicKey>) -> Result<JsonWebToken, string>)

  /** Spring's OAuth2Error. */
  datatype OAuth2Error = OAuth2Error(errorCode: string, description: string, uri: string)

  /**
   * What decode throws: a JwtValidationException, or an exception that
   * escapes its handler: one from the locator's fetch, a NullPointerException,
   * a DateTimeException of Instant.ofEpochSecond, or an
   * IllegalArgumentException of the Jwt constructor's assertions.
   */
  datatype DecodeError =
    | JwtValidation(message: string, errors: seq<OAuth2Error>)
    | KeyLookupThrew
    | NullPointer
    | DateTimeOutOfRange
    | IllegalArgument

  /** The realm URL the issuer is checked against: normalised in io.github, concatenated in com.odradek. */
  function ExpectedRealmUrl(pkg: Package, properties: KeycloakProperties): (url: string)
    ensures pkg == IoGithub ==> url == UrlHelper.RealmUrl(properties.serverUrl, properties.realm)
    ensures pkg == ComOdradek ==>
      url == properties.serverUrl + "/" + UrlHelper.REALMS_SEGMENT + properties.realm
    ensures properties.serverUrl <= url
  {
    match pkg
    case IoGithub => UrlHelper.RealmUrl(properties.serverUrl, properties.realm)
    case ComOdradek => UrlHelper.ConcatRealmUrl(properties.serverUrl, properties.realm)
  }

  /** The checks withChecks registers: subject exists, token type Bearer, active, issuer is the realm URL. */
  function Checks(pkg: Package, properties: KeycloakProperties): (checks: seq<Check>)
    ensures |checks| == 4
    ensures checks[0] == SubjectExists && checks[1] == TokenType([TOKEN_TYPE_BEARER]) && checks[2] == IsActive
    ensures checks[3] == RealmUrl(ExpectedRealmUrl(pkg, properties))
  {
    [SubjectExists, TokenType([TOKEN_TYPE_BEARER]), IsActive, RealmUrl(ExpectedRealmUrl(pkg, properties))]
  }

  /**
   * The two copies register the same checks unless the stripped server URL
   * ends in "/": then com.odradek expects an issuer with "//realms/".
   */
  lemma ChecksDifferOnTrailingSlash(properties: KeycloakProperties)
    ensures Checks(IoGithub, properties) == Checks(ComOdradek, properties)
        <==> !UrlHelper.StrippedEndsWithSlash(properties.serverUrl)
  {
  }

  /** createOAuth2Error: an invalid_token error with the reason as description and the RFC 6750 URI. */
  function InvalidTokenError(reason: string): (e: OAuth2Error)
    ensures e.errorCode == INVALID_TOKEN && e.description == reason && e.uri == RFC6750_ERROR_URI
  {
    OAuth2Error(INVALID_TOKEN, reason, RFC6750_ERROR_URI)
  }

  /** The catch block: a VerificationException becomes a JwtValidationException with one invalid_token error. */
  function ValidationFailure(message: string): (e: DecodeError)
    ensures e.JwtValidation? && e.message == message
    ensures |e.errors| == 1 && e.errors[0] == InvalidTokenError(message)
  {
    JwtValidation(message, [InvalidTokenError(message)])
  }

  /** The header map: alg, typ and kid (Map.of rejects a null), plus cty when it is non-null. */
  function HeaderMap(header: JwsHeader): (r: Option<map<string, string>>)
    ensures r.Some? <==> header.alg.Some? && header.typ.Some? && header.kid.Some?
    ensures r.Some? ==> r.value.Keys == {"alg", "typ", "kid"} + (if header.cty.Some? then {"cty"} else {})
    ensures r.Some? ==> (
      && r.value["alg"] == header.alg.value
      && r.value["typ"] == header.typ.value
      && r.value["kid"] == header.kid.value)
    ensures r.Some? && header.cty.Some? ==> r.value["cty"] == header.cty.value
  {
    if header.alg.None? || header.typ.None? || header.kid.None? then None
    else
      var headers := map["alg" := header.alg.value, "typ" := header.typ.value, "kid" := header.kid.value];
      if header.cty.Some? then Some(headers["cty" := header.cty.value]) else Some(headers)
  }

  /** Instant.MIN and Instant.MAX, in epoch seconds: the range Instant.ofEpochSecond accepts. */
  const INSTANT_MIN_SECOND: int := -31557014167219200
  const INSTANT_MAX_SECOND: int := 31556889864403199

  predicate InstantInRange(seconds: int)
  {
    INSTANT_MIN_SECOND <= seconds <= INSTANT_MAX_SECOND
  }

  /** StringUtils.hasText, which the Jwt constructor asserts of the token value. */
  predicate HasText(s: string)
  {
    exists i | 0 <= i < |s| :: !UrlHelper.IsWhitespace(s[i])
  }

  /**
   * The Jwt built after verify(): the unchanged token string, iat and exp as
   * epoch seconds, the header map, and the single claim "sub". In source
   * order: a null among them throws NullPointerException (Map.of, or
   * unboxing iat/exp), a second count outside Instant's range throws
   * DateTimeException, and the Jwt constructor rejects a token without text
   * and an expiry that is not after the issue time.
   */
  function ToJwt(token: string, header: JwsHeader, verified: JsonWebToken): (r: Result<Jwt, DecodeError>)
    ensures r.Success? <==> (
      && HeaderMap(header).Some? && verified.subject.Some? && verified.iat.Some? && verified.exp.Some?
      && InstantInRange(verified.iat.value) && InstantInRange(verified.exp.value)
      && HasText(token) && verified.iat.value < verified.exp.value)
    ensures r.Success? ==> (
      && r.value.tokenValue == token
      && r.value.headers == HeaderMap(header).value
      && r.value.claims == map["sub" := verified.subject.value]
      && r.value.issuedAt == verified.iat.value
      && r.value.expiresAt == verified.exp.value)
    // what every Jwt guarantees
    ensures r.Success? ==> (
      && HasText(r.value.tokenValue) && r.value.issuedAt < r.value.expiresAt
      && r.value.headers != map[] && r.value.claims != map[])
    ensures r.Failure? ==> r.error in {NullPointer, DateTimeOutOfRange, IllegalArgument}
    // which exception, in source order: the header map, sub, iat, then exp
    ensures HeaderMap(header).None? ==> r == Failure(NullPointer)
    ensures HeaderMap(header).Some? && (verified.subject.None? || verified.iat.None?) ==> r == Failure(NullPointer)
    ensures HeaderMap(header).Some? && verified.subject.Some? && verified.iat.Some? && !InstantInRange(verified.iat.value) ==>
      r == Failure(DateTimeOutOfRange)
    ensures HeaderMap(header).Some? && verified.subject.Some? && verified.iat.Some? && InstantInRange(verified.iat.value) ==>
      && (verified.exp.None? ==> r == Failure(NullPointer))
      && (verified.exp.Some? && !InstantInRange(verified.exp.value) ==> r == Failure(DateTimeOutOfRange))
    // the constructor's assertions are reached only with every value present and in range
    ensures r == Failure(IllegalArgument) ==> (
      && HeaderMap(header).Some? && verified.subject.Some? && verified.iat.Some? && verified.exp.Some?
      && InstantInRange(verified.iat.value) && InstantInRange(verified.exp.value))
  {
    match HeaderMap(header)
    case None => Failure(NullPointer)
    case Some(headers) =>
      if verified.subject.None? || verified.iat.None? then Failure(NullPointer)
      else if !InstantInRange(verified.iat.value) then Failure(DateTimeOutOfRange)
      else if verified.exp.None? then Failure(NullPointer)
      else if !InstantInRange(verified.exp.value) then Failure(DateTimeOutOfRange)
      else if !HasText(token) || verified.exp.value <= verified.iat.value then Failure(IllegalArgument)
      else
        var claims := map["sub" := verified.subject.value];
        assert "alg" in headers && "sub" in claims;
        Success(Jwt(token, verified.iat.value, verified.exp.value, headers, claims))
  }

  /** Every Jwt decode builds exposes the header's kid and the verified subject. */
  lemma ToJwtCarriesKidAndSubject(token: string, header: JwsHeader, verified: JsonWebToken)
    requires ToJwt(token, header, verified).Success?
    ensures header.kid.Some? && ToJwt(token, header, verified).value.headers["kid"] == header.kid.value
    ensures verified.subject.Some? && ToJwt(token, header, verified).value.claims["sub"] == verified.subject.value
    ensures |ToJwt(token, header, verified).value.claims| == 1
  {
  }

  class KeycloakJWTDecoder {
    const locator: KeyLocator.RemotePublicKeyLocator
    const properties: KeycloakProperties

    constructor (locator: KeyLocator.RemotePublicKeyLocator, properties: KeycloakProperties)
      ensures this.locator == locator && this.properties == properties
    {
      this.locator := locator;
      this.properties := properties;
    }

    /**
     * decode. The locator's two clock readings and its HTTP GET are passed
     * through; key is the key handed to the verifier.
     */
    method Decode(token: string, verifier: TokenVerifier, now0: KeyLocator.Int32, now1: KeyLocator.Int32, fetch: KeyLocator.Fetch)
      returns (r: Result<Jwt, DecodeError>, ghost key: Option<PublicKey>)
      requires KeyLocator.WellFormedFetch(fetch(locator.Url()), locator.parser)
      modifies locator
      // a header that does not parse: no lookup at all
      ensures verifier.header(token).Failure? ==>
        r == Failure(ValidationFailure(verifier.header(token).error)) && unchanged(locator)
      // otherwise the locator is asked for the header's kid, and does what getPublicKey does
      ensures verifier.header(token).Success? ==>
        locator.LookedUp(verifier.header(token).value.kid, now0, now1, fetch,
          if r == Failure(KeyLookupThrew) then KeyLocator.Thrown else KeyLocator.Returned(key))
      // the result is what verify() with the fixed checks and the key returned allows
      ensures verifier.header(token).Success? && r != Failure(KeyLookupThrew) ==>
        match verifier.verify(token, Checks(locator.pkg, properties), key)
        case Failure(message) => r == Failure(ValidationFailure(message))
        case Success(verified) => r == ToJwt(token, verifier.header(token).value, verified)
      // no Jwt without a successful verify()
      ensures r.Success? ==> (
        && verifier.header(token).Success?
        && verifier.verify(token, Checks(locator.pkg, properties), key).Success?)
      // the exceptions of building the Jwt come only after a successful verify()
      ensures r.Failure? && r.error in {NullPointer, DateTimeOutOfRange, IllegalArgument} ==>
        verifier.header(token).Success? && verifier.verify(token, Checks(locator.pkg, properties), key).Success?
    {
      key := None;
      var parsed := verifier.header(token);
      if parsed.Failure? {
        return Failure(ValidationFailure(parsed.error)), key;
      }
      var header := parsed.value;
      var lookup := locator.GetPublicKey(header.kid, now0, now1, fetch);
      if lookup.Thrown? {
        return Failure(KeyLookupThrew), key;
      }
      var publicKey := lookup.key;
      key := publicKey;
      var checks := Checks(locator.pkg, properties);
      var verified := verifier.verify(token, checks, publicKey);
      if verified.Failure? {
        return Failure(ValidationFailure(verified.error)), key;
      }
      r := ToJwt(token, header, verified.value);
    }
  }
}
