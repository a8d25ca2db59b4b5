/**
 * JwtAuthConverter: from a decoded Jwt to the authentication the request
 * carries. The token string is parsed again (TokenVerifier.create(...).getToken(),
 * no signature or claim check: the parser is the only collaborator), the roles
 * granted for the configured client become "ROLE_" authorities, and the
 * subject becomes the principal name.
 */
module AuthConverter {
  import opened Common
  import opened Tokens

  const ROLE_PREFIX: string := "ROLE_"

  /** The parse step, outside this model: the user token, or a VerificationException's message. */
  type TokenParser = string -> Result<AccessToken, string>

  /** KeycloakAuthentication / OdradekAuthenticationToken: the Jwt, the authorities, the principal name and the user. */
  datatype Authentication = Authentication(
    jwt: Jwt,
    authorities: set<string>,
    principalName: Option<string>,
    user: AccessToken)

  /** What each copy throws when parsing fails. */
  datatype ConvertError =
    | IllegalArgument(message: string)        // io.github: new IllegalArgumentException(e.getMessage())
    | RuntimeWrapping(causeMessage: string)   // com.odradek: new RuntimeException(e)

  /** resourceAccess.get(clientId).getRoles(), or the empty set when the client has no entry. */
  function RolesFor(token: AccessToken, clientId: string): (roles: set<string>)
    ensures clientId in token.resourceAccess ==> roles == token.resourceAccess[clientId].roles
    ensures clientId !in token.resourceAccess ==> roles == {}
  {
    var access := if clientId in token.resourceAccess then Some(token.resourceAccess[clientId]) else None;
    if access.None? then {} else access.value.roles
  }

  /** The stream map/collect: one SimpleGrantedAuthority "ROLE_" + role per role, as a set. */
  function Authorities(roles: set<string>): (authorities: set<string>)
    ensures forall role :: role in roles <==> ROLE_PREFIX + role in authorities
    ensures forall a | a in authorities :: |a| >= |ROLE_PREFIX| && a[..|ROLE_PREFIX|] == ROLE_PREFIX
  {
    var authorities := set role | role in roles :: ROLE_PREFIX + role;
    assert forall role :: ROLE_PREFIX + role in authorities ==> role in roles by {
      forall role | ROLE_PREFIX + role in authorities ensures role in roles {
        var r :| r in roles && ROLE_PREFIX + r == ROLE_PREFIX + role;
        PrefixInjective(r, role);
      }
    }
    authorities
  }

  /** Prefixing is injective. */
  lemma PrefixInjective(a: string, b: string)
    requires ROLE_PREFIX + a == ROLE_PREFIX + b
    ensures a == b
  {
    assert a == (ROLE_PREFIX + a)[|ROLE_PREFIX|..];
    assert b == (ROLE_PREFIX + b)[|ROLE_PREFIX|..];
  }

  /** No two roles collapse into one authority: there are as many authorities as roles. */
  lemma {:induction false} AuthoritiesCount(roles: set<string>)
    ensures |Authorities(roles)| == |roles|
    decreases |roles|
  {
    if roles != {} {
      var role :| role in roles;
      var rest := roles - {role};
      AuthoritiesCount(rest);
      assert Authorities(roles) == Authorities(rest) + {ROLE_PREFIX + role};
      assert ROLE_PREFIX + role !in Authorities(rest);
    } else {
      assert Authorities(roles) == {};
    }
  }

  /** {"admin", "viewer"} granted to the client projects to {"ROLE_admin", "ROLE_viewer"}. */
  lemma AdminViewerExample()
    ensures Authorities({"admin", "viewer"}) == {"ROLE_admin", "ROLE_viewer"}
  {
    var a := Authorities({"admin", "viewer"});
    assert ROLE_PREFIX + "admin" == "ROLE_admin";
    assert ROLE_PREFIX + "viewer" == "ROLE_viewer";
    forall x | x in a ensures x == "ROLE_admin" || x == "ROLE_viewer" {
      var role :| role in {"admin", "viewer"} && x == ROLE_PREFIX + role;
    }
  }

  /** The successful part of convert, shared by both copies. */
  function Project(source: Jwt, token: AccessToken, clientId: string): (auth: Authentication)
    ensures auth.jwt == source && auth.user == token
    ensures auth.principalName == token.subject
    ensures forall role :: role in RolesFor(token, clientId) <==> ROLE_PREFIX + role in auth.authorities
    ensures |auth.authorities| == |RolesFor(token, clientId)|
  {
    var roles := RolesFor(token, clientId);
    AuthoritiesCount(roles);
    Authentication(source, Authorities(roles), token.subject, token)
  }

  /** io.github.hacks1ash JwtAuthConverter.convert. */
  function ConvertIoGithub(source: Jwt, clientId: string, parse: TokenParser): (r: Result<Authentication, ConvertError>)
    ensures parse(source.tokenValue).Failure? ==> r == Failure(IllegalArgument(parse(source.tokenValue).error))
    ensures parse(source.tokenValue).Success? ==> (
      && r.Success? && r.value.jwt == source
      && r.value.user == parse(source.tokenValue).value
      && r.value.principalName == parse(source.tokenValue).value.subject
      && r.value.authorities == Authorities(RolesFor(parse(source.tokenValue).value, clientId)))
  {
    match parse(source.tokenValue)
    case Success(token) => Success(Project(source, token, clientId))
    case Failure(message) => Failure(IllegalArgument(message))
  }

  /** com.odradek JwtAuthConverter.convert: the same projection, the parse failure wrapped in a RuntimeException. */
  function ConvertOdradek(source: Jwt, clientId: string, parse: TokenParser): (r: Result<Authentication, ConvertError>)
    ensures parse(source.tokenValue).Failure? ==> r == Failure(RuntimeWrapping(parse(source.tokenValue).error))
    ensures parse(source.tokenValue).Success? ==> (
      && r.Success? && r.value.jwt == source
      && r.value.user == parse(source.tokenValue).value
      && r.value.principalName == parse(source.tokenValue).value.subject
      && r.value.authorities == Authorities(RolesFor(parse(source.tokenValue).value, clientId)))
  {
    match parse(source.tokenValue)
    case Success(token) => Success(Project(source, token, clientId))
    case Failure(message) => Failure(RuntimeWrapping(message))
  }

  /** The two copies succeed on the same tokens with the same authentication; only the exception differs. */
  lemma ConvertersAgree(source: Jwt, clientId: string, parse: TokenParser)
    ensures ConvertIoGithub(source, clientId, parse).Success? <==> ConvertOdradek(source, clientId, parse).Success?
    ensures ConvertIoGithub(source, clientId, parse).Success? ==>
      ConvertIoGithub(source, clientId, parse) == ConvertOdradek(source, clientId, parse)
  {
  }

  /** A token without an entry for the client is accepted with no authorities. */
  lemma NoEntryNoAuthorities(source: Jwt, token: AccessToken, clientId: string)
    requires clientId !in token.resourceAccess
    ensures Project(source, token, clientId).authorities == {}
  {
  }
}
