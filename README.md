# Keycloak Spring Boot adapter: token path model

This project models, in Dafny, the part of the Keycloak Spring Boot adapter
that turns a bearer token into an authenticated principal. The repository
ships the adapter twice, as the `io.github.hacks1ash` package and as the
`com.odradek` package. Where the two copies are the same code, one Dafny
member models both. Where they differ, the member takes a `Package` value
(`IoGithub` or `ComOdradek`) and both behaviours are stated.

- **JWKSUtils** (`jwks.dfy`) picks the entries of a JSON Web Key Set whose
  `use` is the requested one (section 4.2 of RFC 7517) and whose key type the
  parser supports.
  - `getKeyWrappersForUse` wraps every such entry, in key-set order.
  - `getKeyForUse` returns the first such entry.
  - `getKeyUse` maps `"sig"`/`"enc"` to a `KeyUse`.
  - The kid-to-key map the locator builds from the wrappers is defined here as well.
- **KeycloakUrlHelper** (`url_helper.dfy`) builds the realm URL and the
  certificate-endpoint URL. The trailing-slash test looks at
  `serverUrl.strip()`, with Java's whitespace set written out. The
  concatenation uses the unstripped `serverUrl`. The inline concatenation the
  `com.odradek` decoder and locator use instead is modelled next to it.
- **RemotePublicKeyLocator** (`key_locator.dfy`) is a class.
  - It holds the kid-to-key cache and `lastRequestTime`.
  - `getPublicKey` has a fast path, a rate-limited refresh and a re-lookup.
  - `reset` and `sendRequest` follow the source: replace the cache on a
    fetched key set, keep it on a failed fetch.
  - Only RestClientException is caught. A body without a `keys` list, key
    material JWKParser cannot decode, and (in `com.odradek`) a response
    without body make an exception escape before `lastRequestTime` is set.
  - Clock readings, `lastRequestTime` and the two constants are Java `int`s,
    and the two sums `lastRequestTime + ttl` and
    `lastRequestTime + MIN_TIME_BETWEEN_REQUESTS` wrap around as in Java.
  - A ghost `fetchLog` records the clock reading of every fetch. It is used to
    state the rate limit across calls.
- **KeycloakJWTDecoder** (`jwt_decoder.dfy`) is a class.
  - `decode` asks the locator for the header's kid.
  - It hands the verifier four fixed checks and the key: subject exists,
    type "Bearer", active, and issuer equal to the realm URL.
  - It builds the Spring `Jwt` only from what `verify()` returned, with the
    null, range and constructor checks that building it makes.
  - It reports a verification failure as the `invalid_token` error of
    section 3.1 of RFC 6750.
- **JwtAuthConverter** (`auth_converter.dfy`) re-parses the token.
  - The roles the token grants for the configured client become `ROLE_`
    authorities, and the subject becomes the principal name.
  - A parse error becomes IllegalArgumentException in `io.github`. In
    `com.odradek` it is wrapped in a RuntimeException.
- **AbstractKeycloakUser / OdradekUser** (`users.dfy`) tell service-account
  tokens by their `clientId` claim. OdradekUser is a class with two settable
  fields.

Keycloak's parsing and signature checking (TokenVerifier, JWKParser) are
outside the model. So are the HTTP client and the clock. Each enters as a
parameter:
- a `TokenVerifier` or `TokenParser` value;
- a `KeyParser` with `isKeyTypeSupported` and `toPublicKey`;
- `fetch: string -> FetchOutcome`, the GET of a URL;
- the clock readings `now0`, `now1` and `now`, each a Java `int`.

`common.dfy` holds the shared value types: Option, Result, the properties,
and the token representations.

## Model

| member | source | states |
|---|---|---|
| Jwks.KeyUseOf | src/main/java/io/github/hacks1ash/keycloak/adapter/utils/JWKSUtils.java:77-83 | "sig" gives SIG and "enc" gives ENC, each if and only if; every other string gives null |
| Jwks.KeyUseOfUseString | src/main/java/io/github/hacks1ash/keycloak/adapter/utils/JWKSUtils.java:40-48 | a wrapped entry's use, equal to requestedUse.asString(), maps back to the KeyUse of the requested use, never to null |
| Jwks.WrappersForUse | src/main/java/io/github/hacks1ash/keycloak/adapter/utils/JWKSUtils.java:34-54 | when the loop completes, at most one wrapper per entry of the key set |
| Jwks.WrappersForUseThrows | src/main/java/io/github/hacks1ash/keycloak/adapter/utils/JWKSUtils.java:36-51 | the loop throws if and only if some qualifying entry has key material toPublicKey cannot decode |
| Jwks.WrappersForUseSound | src/main/java/io/github/hacks1ash/keycloak/adapter/utils/JWKSUtils.java:38-50 | when the loop completes, each wrapper wraps an entry whose use is the requested one, whose key type is supported and whose key parsed, and carries the requested KeyUse |
| Jwks.WrappersForUseComplete | src/main/java/io/github/hacks1ash/keycloak/adapter/utils/JWKSUtils.java:36-51 | when the loop completes, every qualifying entry has a parsed key and appears, wrapped, in the result |
| Jwks.WrappersForUseAppend | src/main/java/io/github/hacks1ash/keycloak/adapter/utils/JWKSUtils.java:34-53 | the result keeps key-set order: the result for a concatenation is the concatenation of the results, and an exception in either part is an exception of the whole |
| Jwks.SkippedEntry | src/main/java/io/github/hacks1ash/keycloak/adapter/utils/JWKSUtils.java:38-41 | an entry without use, or with a different use, contributes nothing |
| Jwks.GetKeyWrappersForUse | src/main/java/io/github/hacks1ash/keycloak/adapter/utils/JWKSUtils.java:34-54 | the loop returns exactly the wrapper list above, with the algorithm set only when non-null, or leaves with the exception of toPublicKey exactly when that list is undefined |
| Jwks.FirstForUse | src/main/java/io/github/hacks1ash/keycloak/adapter/utils/JWKSUtils.java:63-75 | null exactly when no entry qualifies; otherwise a qualifying entry with no qualifying entry before it |
| Jwks.GetKeyForUse | src/main/java/io/github/hacks1ash/keycloak/adapter/utils/JWKSUtils.java:63-75 | the search loop with early return yields the first qualifying entry, or null |
| Jwks.KeyForUseHeadsWrappers | src/main/java/io/github/hacks1ash/keycloak/adapter/utils/JWKSUtils.java:34-75 | getKeyForUse finds nothing exactly when getKeyWrappersForUse returns the empty list; when both succeed, the first wrapper wraps the entry getKeyForUse returns |
| Jwks.ToKeyMap | src/main/java/io/github/hacks1ash/keycloak/adapter/utils/RemotePublicKeyLocator.java:123-127 | for distinct non-null kids, the map's keys are exactly the wrappers' kids, and each kid maps to its wrapper's public key |
| Jwks.SigKeys | src/main/java/io/github/hacks1ash/keycloak/adapter/utils/RemotePublicKeyLocator.java:123-127 | for a key set whose signature wrappers parse and have distinct non-null kids: every kid in the map belongs to a qualifying "sig" entry; every qualifying "sig" entry is in the map with its parsed key |
| Jwks.EncKeysExcluded | src/main/java/io/github/hacks1ash/keycloak/adapter/utils/RemotePublicKeyLocator.java:124 | a kid used only by "enc" entries is not in the signature key map |
| UrlHelper.StripTrailingSpec | src/main/java/io/github/hacks1ash/keycloak/adapter/utils/KeycloakUrlHelper.java:17 | a prefix of the input that does not end in whitespace, with only whitespace dropped after it |
| UrlHelper.StripLeadingSpec | src/main/java/io/github/hacks1ash/keycloak/adapter/utils/KeycloakUrlHelper.java:17 | a suffix of the input that does not start with whitespace, with only whitespace dropped before it |
| UrlHelper.StripKeepsLastNonWhitespace | src/main/java/io/github/hacks1ash/keycloak/adapter/utils/KeycloakUrlHelper.java:17 | stripping a string that ends in a non-whitespace character keeps that character last |
| UrlHelper.RealmUrl | src/main/java/io/github/hacks1ash/keycloak/adapter/utils/KeycloakUrlHelper.java:16-19 | the realm URL starts with the server URL and ends with "realms/" + realm |
| UrlHelper.CertificateUrl | src/main/java/io/github/hacks1ash/keycloak/adapter/utils/KeycloakUrlHelper.java:28-30 | the certificate URL is the realm URL followed by "/protocol/openid-connect/certs" |
| UrlHelper.RealmUrlSingleSlash | src/main/java/io/github/hacks1ash/keycloak/adapter/utils/KeycloakUrlHelper.java:16-19 | for a server URL without trailing whitespace, exactly one "/" separates the server URL, less its trailing "/", from "realms/" |
| UrlHelper.AppendedSlashStripped | src/main/java/io/github/hacks1ash/keycloak/adapter/utils/KeycloakUrlHelper.java:17 | a server URL with one "/" appended always passes the trailing-slash test |
| UrlHelper.RealmUrlAddSlash | src/main/java/io/github/hacks1ash/keycloak/adapter/utils/KeycloakUrlHelper.java:16-19 | appending a "/" to a server URL whose stripped form lacks one leaves the realm URL unchanged |
| UrlHelper.TrailingWhitespaceKept | src/main/java/io/github/hacks1ash/keycloak/adapter/utils/KeycloakUrlHelper.java:17 | the slash test strips but the concatenation does not: "h/ " gives "h/ realms/r" |
| UrlHelper.ConcatAgreesUnlessSlash | src/main/java/com/odradek/keycloak/adapter/KeycloakJWTDecoder.java:56 | the inline com.odradek realm URL equals getRealmUrl exactly when the stripped server URL does not end in "/" |
| UrlHelper.ConcatDoubleSlash | src/main/java/com/odradek/keycloak/adapter/KeycloakJWTDecoder.java:56 | for any server URL ending in "/", such as "https://kc/", the inline realm URL has "//realms/" where getRealmUrl has "/realms/", so the two differ |
| KeyLocator.CertificateUrlFor | src/main/java/com/odradek/keycloak/adapter/utils/RemotePublicKeyLocator.java:83 | the fetched URL is getCertificateUrl of the server URL and realm in io.github, and the inline realm URL plus the certificate path in com.odradek; both start with the server URL |
| KeyLocator.AddInt32 | src/main/java/io/github/hacks1ash/keycloak/adapter/utils/RemotePublicKeyLocator.java:68 | Java int addition: the exact sum when it fits in 32 bits, otherwise the sum less or plus 2^32 |
| KeyLocator.Refreshed | src/main/java/io/github/hacks1ash/keycloak/adapter/utils/RemotePublicKeyLocator.java:110-142 | a key set whose signature wrappers parse replaces the cache by its signature keys, clearing first; a failed fetch, a missing body, a missing keys list or a key that does not parse keeps the cache |
| KeyLocator.ThrowKeepsCache | src/main/java/io/github/hacks1ash/keycloak/adapter/utils/RemotePublicKeyLocator.java:118-140 | a sendRequest that throws leaves the cache as it was, because every exception comes before clear |
| KeyLocator.NoStaleEntries | src/main/java/io/github/hacks1ash/keycloak/adapter/utils/RemotePublicKeyLocator.java:137-138 | after a successful fetch, a kid the new key set lacks is gone from the cache |
| KeyLocator.RemotePublicKeyLocator.constructor | src/main/java/io/github/hacks1ash/keycloak/adapter/utils/RemotePublicKeyLocator.java:33-46 | empty cache, lastRequestTime 0, no fetch yet |
| KeyLocator.RemotePublicKeyLocator.LookupCachedKey | src/main/java/io/github/hacks1ash/keycloak/adapter/utils/RemotePublicKeyLocator.java:94-100 | a key is found if and only if lastRequestTime + ttl, a wrapping int sum, exceeds currentTime, and the kid is non-null and cached; without overflow this is the plain sum; the key found is the cached one |
| KeyLocator.CacheStaleAfterWrap | src/main/java/io/github/hacks1ash/keycloak/adapter/utils/RemotePublicKeyLocator.java:95 | once lastRequestTime + 86400 overflows int, no lookup at a non-negative time hits the cache |
| KeyLocator.RemotePublicKeyLocator.SendRequest | src/main/java/io/github/hacks1ash/keycloak/adapter/utils/RemotePublicKeyLocator.java:102-143 | the cache becomes the refreshed map; an exception escapes exactly for a missing keys list, a key toPublicKey cannot decode, or a com.odradek response without body |
| KeyLocator.RemotePublicKeyLocator.GetPublicKey | src/main/java/io/github/hacks1ash/keycloak/adapter/utils/RemotePublicKeyLocator.java:56-80 | a cache hit at the first reading returns it and changes nothing; a miss fetches only if the second reading exceeds lastRequestTime + 10 in int arithmetic, stamps lastRequestTime only when the fetch completes, and looks up again; an exception escapes only from a fetch that throws; inside the window nothing changes |
| KeyLocator.RemotePublicKeyLocator.Reset | src/main/java/io/github/hacks1ash/keycloak/adapter/utils/RemotePublicKeyLocator.java:86-92 | always fetches; the cache is refreshed, and lastRequestTime becomes the later clock reading unless the fetch threw |
| KeyLocator.TwoLookups | src/main/java/io/github/hacks1ash/keycloak/adapter/utils/RemotePublicKeyLocator.java:66-70 | if two lookups both fetch and the first completes, the second fetch's clock reading exceeds the first's + 10 in int arithmetic, and in exact arithmetic when that sum does not overflow |
| KeyLocator.ThrowingFetchDefeatsRateLimit | src/main/java/io/github/hacks1ash/keycloak/adapter/utils/RemotePublicKeyLocator.java:66-72 | in either copy, a fetch that throws leaves lastRequestTime and the cache as they were, so two misses at the same instant fetch twice |
| KeyLocator.WrapDefeatsRateLimit | src/main/java/io/github/hacks1ash/keycloak/adapter/utils/RemotePublicKeyLocator.java:68 | after a fetch at 2147483640, lastRequestTime + 10 wraps to a negative int, and a miss 5 seconds later fetches again |
| Users.IsServiceAccountOf | src/main/java/io/github/hacks1ash/keycloak/adapter/model/AbstractKeycloakUser.java:17-19 | a service account is one whose otherClaims contain "clientId" |
| Users.ServiceAccountIdOf | src/main/java/io/github/hacks1ash/keycloak/adapter/model/AbstractKeycloakUser.java:27-30 | an id exactly when "clientId" is present and non-null; the id is that claim's value |
| Users.ServiceAccountIdImpliesServiceAccount | src/main/java/io/github/hacks1ash/keycloak/adapter/model/AbstractKeycloakUser.java:17-30 | a token with a service-account id is a service-account token |
| Users.NullClientIdClaim | src/main/java/io/github/hacks1ash/keycloak/adapter/model/AbstractKeycloakUser.java:17-30 | a present but null "clientId" is a service account without an id |
| Users.OdradekUser.constructor | src/main/java/com/odradek/keycloak/adapter/OdradekUser.java:10-16 | the token and the two company fields as given |
| Users.OdradekUser.SetCompanyId | src/main/java/com/odradek/keycloak/adapter/OdradekUser.java:9-13 | stores the company id and touches no other field |
| Users.OdradekUser.SetCompanyName | src/main/java/com/odradek/keycloak/adapter/OdradekUser.java:9-16 | stores the company name and touches no other field |
| Users.OdradekUser.IsServiceAccount | src/main/java/com/odradek/keycloak/adapter/OdradekUser.java:18-20 | the same answer as AbstractKeycloakUser.isServiceAccount on the user's token |
| Users.OdradekUser.ServiceAccountId | src/main/java/com/odradek/keycloak/adapter/OdradekUser.java:22-26 | agrees with AbstractKeycloakUser's getServiceAccountId, and implies isServiceAccount |
| AuthConverter.RolesFor | src/main/java/io/github/hacks1ash/keycloak/adapter/JwtAuthConverter.java:53-56 | the client's roles when the token has an entry for the client, otherwise none |
| AuthConverter.Authorities | src/main/java/io/github/hacks1ash/keycloak/adapter/JwtAuthConverter.java:57-60 | "ROLE_" + role is an authority if and only if role is a role; every authority carries the prefix |
| AuthConverter.AuthoritiesCount | src/main/java/io/github/hacks1ash/keycloak/adapter/JwtAuthConverter.java:57-60 | no two roles collapse: as many authorities as roles |
| AuthConverter.AdminViewerExample | src/main/java/io/github/hacks1ash/keycloak/adapter/JwtAuthConverter.java:57-60 | roles {admin, viewer} give exactly {ROLE_admin, ROLE_viewer} |
| AuthConverter.Project | src/main/java/io/github/hacks1ash/keycloak/adapter/JwtAuthConverter.java:49-61 | the authentication keeps the Jwt and the user, names the subject, and its authorities correspond one to one with the client's roles |
| AuthConverter.ConvertIoGithub | src/main/java/io/github/hacks1ash/keycloak/adapter/JwtAuthConverter.java:46-65 | a parse failure throws IllegalArgumentException with its message; otherwise the projection of the parsed token |
| AuthConverter.ConvertOdradek | src/main/java/com/odradek/keycloak/adapter/JwtAuthConverter.java:31-49 | a parse failure is wrapped in a RuntimeException; otherwise the projection of the parsed token |
| AuthConverter.ConvertersAgree | src/main/java/com/odradek/keycloak/adapter/JwtAuthConverter.java:31-49 | both copies succeed on the same tokens, with the same authentication |
| AuthConverter.NoEntryNoAuthorities | src/main/java/io/github/hacks1ash/keycloak/adapter/JwtAuthConverter.java:56 | a token without an entry for the client is accepted with no authorities |
| JwtDecoder.Checks | src/main/java/io/github/hacks1ash/keycloak/adapter/KeycloakJWTDecoder.java:61-67 | four checks in order: subject exists, type Bearer, active, and the realm check against the expected realm URL of the package |
| JwtDecoder.ExpectedRealmUrl | src/main/java/io/github/hacks1ash/keycloak/adapter/KeycloakJWTDecoder.java:65-67 | getRealmUrl of the server URL and realm in io.github; the inline serverUrl + "/realms/" + realm in com.odradek; both start with the server URL |
| JwtDecoder.ChecksDifferOnTrailingSlash | src/main/java/com/odradek/keycloak/adapter/KeycloakJWTDecoder.java:52-57 | the two copies register the same checks exactly when the stripped server URL does not end in "/" |
| JwtDecoder.InvalidTokenError | src/main/java/io/github/hacks1ash/keycloak/adapter/utils/OAuthUtils.java:9-13 | error code invalid_token, the reason as description, the RFC 6750 section 3.1 URI |
| JwtDecoder.ValidationFailure | src/main/java/io/github/hacks1ash/keycloak/adapter/KeycloakJWTDecoder.java:91-94 | a JwtValidationException with the verifier's message and exactly one invalid_token error for it |
| JwtDecoder.HeaderMap | src/main/java/io/github/hacks1ash/keycloak/adapter/KeycloakJWTDecoder.java:73-82 | defined exactly when alg, typ and kid are non-null; keys alg, typ, kid, plus cty exactly when present; each with its header value |
| JwtDecoder.ToJwt | src/main/java/io/github/hacks1ash/keycloak/adapter/KeycloakJWTDecoder.java:71-90 | a Jwt exactly when the header map exists, sub, iat and exp are non-null, iat and exp lie in Instant's range, the token has text and exp is after iat; otherwise, in source order, NullPointerException for a missing header map, sub or iat, DateTimeException for iat out of range, NullPointerException for a missing exp, DateTimeException for exp out of range, and only then the constructor's IllegalArgumentException; the Jwt keeps the token string, iat and exp, the header map, and the single claim sub |
| JwtDecoder.ToJwtCarriesKidAndSubject | src/main/java/io/github/hacks1ash/keycloak/adapter/KeycloakJWTDecoder.java:73-90 | every Jwt built carries the header's kid and the verified subject, and exactly one claim |
| JwtDecoder.KeycloakJWTDecoder.constructor | src/main/java/io/github/hacks1ash/keycloak/adapter/KeycloakJWTDecoder.java:41-45 | keeps the locator and the properties |
| JwtDecoder.KeycloakJWTDecoder.Decode | src/main/java/io/github/hacks1ash/keycloak/adapter/KeycloakJWTDecoder.java:55-95 | an unparsable header fails with invalid_token and no lookup; otherwise the locator does what getPublicKey does for the header's kid, an exception of its fetch escapes, and the key it returns is verified with the fixed checks; failure is reported as invalid_token, success builds the Jwt; no Jwt, and no exception of building one, without a successful verify |

The `com.odradek` copies of JWKSUtils (`getKeyWrappersForUse`, `getKeyForUse`, `getKeyUse`) and KeycloakUrlHelper are the same code as the `io.github` copies cited above. The members above, from `KeyUseOf` to `CertificateUrl`, model them too. The same holds for the shared parts of both locators and both decoders. There, the `Package` value selects the certificate URL, the null-body behaviour and the issuer URL.

## Findings

| source | as written | input that shows it | evidently intended | confidence | as-written member | corrected member |
|---|---|---|---|---|---|---|
| src/main/java/com/odradek/keycloak/adapter/KeycloakJWTDecoder.java:56 | the expected issuer is `serverUrl + "/realms/" + realm`, with no check for a trailing "/" | serverUrl "https://kc/", realm "r": the expected issuer is "https://kc//realms/r", which no issuer matches, so every token fails the realm check | one "/" before "realms/", as the `io.github` copy does through getRealmUrl | medium, not executed | UrlHelper.ConcatDoubleSlash | UrlHelper.RealmUrlSingleSlash |

`UrlHelper.ConcatAgreesUnlessSlash` and `JwtDecoder.ChecksDifferOnTrailingSlash` state the general form: the two copies diverge exactly when the stripped server URL ends in "/". The `io.github` decoder, modelled by `JwtDecoder.Checks` with `IoGithub`, uses the corrected realm URL. The `com.odradek` decoder and locator keep the as-written concatenation, because that is the code.

## Left out

- Concurrency is not modelled.
  - The lock around the refresh and `reset` is modelled as atomicity of each method body.
  - The unlocked fast path and the `volatile` read are a separate step only in that the fast path takes its own clock reading (`now0`).
- Logging, the HTTP client, the JSON binding and the system clock are not modelled. The first three are I/O. The fetch outcome and the clock readings are parameters instead.
- Keycloak's TokenVerifier, JWKParser and key-type support are not modelled: they are foreign code. They are function-typed parameters. `toPublicKey` either returns a key or throws; `JWKParser.create` is taken not to throw.
- Jwks.SigKeys: only key sets whose parsed signature wrappers have distinct, non-null kids are modelled (the `WellFormedFetch` precondition of the locator).
  - With duplicate kids, `Collectors.toMap` throws IllegalStateException.
  - With a null kid, `ConcurrentHashMap.putAll` throws NullPointerException.
  - Neither exception is caught, and the model does not follow them.
- The `com.odradek` JWKSUtils in this repository declares no `getKeysForUse`, although its locator calls it. The model takes it to be the signature-key map that the `io.github` locator builds.
  - On a null key set it is taken to throw NullPointerException, as a method that reads the set's keys would.
  - `SendRequestThrows` for `com.odradek` rests on that reading.
- A null `Access.getRoles()` is not modelled: the model's `Access` always carries a set. In the source, a null roles set would make the stream call throw.
- JwtDecoder.ToJwt: Spring Security's `Jwt` and `AbstractOAuth2Token` constructors are not part of this model's sources. ToJwt follows their assertions: the token has text, `expiresAt` is after `issuedAt`, and the header and claim maps are non-empty (always true here).
- Algorithm enum parsing (`getAlgorithm().name()`) is not modelled; the algorithm name is a header string. A malformed `alg` fails in the header parse.
- UrlHelper.Strip: strings are sequences of Unicode code points, not of UTF-16 units. Java's whitespace set has no supplementary code points, so stripping agrees with `String.strip`.
- The TokenTypeCheck is built from a list in `io.github` and from a single string in `com.odradek`. Both are modelled as the one-element list ["Bearer"].
- The Lombok getters of OdradekUser and of KeycloakProperties are plain field reads.
- AuthConverter.ConvertOdradek: the RuntimeException is modelled by the cause's message only, not by the wrapping exception's own message text.
- JwtDecoder.KeycloakJWTDecoder.Decode: every exception that escapes the locator is one outcome, `KeyLookupThrew`; the model does not say which exception class it is.
- KeyLocator.RemotePublicKeyLocator.SendRequest: a null element inside the `keys` list is not modelled; the JSON binding is taken to give JWK values only.
- Configuration and wiring are not part of this model: the auto-configuration, the web security configuration, the customizers, the entry point and the security context helpers.
