/**
 * KeycloakUrlHelper: the realm URL and the certificate-endpoint URL of a
 * Keycloak server. The io.github.hacks1ash and com.odradek copies are the
 * same code. The trailing-slash test looks at serverUrl.strip(), but the
 * unstripped serverUrl is what gets concatenated.
 */
module UrlHelper {

  /**
   * Character.isWhitespace, which String.strip uses: the ASCII controls
   * U+0009..U+000D and U+001C..U+001F, and the Unicode space, line and
   * paragraph separators other than the non-breaking ones (U+00A0, U+2007, U+202F).
   */
  predicate IsWhitespace(c: char)
  {
    || c == ' '
    || '\t' <= c <= '\r'
    || '\U{1C}' <= c <= '\U{1F}'
    || c == '\U{1680}'
    || '\U{2000}' <= c <= '\U{2006}'
    || '\U{2008}' <= c <= '\U{200A}'
    || c == '\U{2028}'
    || c == '\U{2029}'
    || c == '\U{205F}'
    || c == '\U{3000}'
  }

  /** String.stripTrailing: drop whitespace from the end. */
  function StripTrailing(s: string): string
  {
    if s == [] || !IsWhitespace(s[|s| - 1]) then s
    else StripTrailing(s[..|s| - 1])
  }

  /** stripTrailing keeps the longest prefix that does not end in whitespace. */
  lemma {:induction false} StripTrailingSpec(s: string)
    ensures StripTrailing(s) <= s
    ensures StripTrailing(s) == [] || !IsWhitespace(StripTrailing(s)[|StripTrailing(s)| - 1])
    ensures forall k | |StripTrailing(s)| <= k < |s| :: IsWhitespace(s[k])
  {
    if s != [] && IsWhitespace(s[|s| - 1]) {
      StripTrailingSpec(s[..|s| - 1]);
    }
  }

  /** String.stripLeading: drop whitespace from the start. */
  function StripLeading(s: string): string
  {
    if s == [] || !IsWhitespace(s[0]) then s
    else StripLeading(s[1..])
  }

  /** stripLeading keeps the longest suffix that does not start with whitespace. */
  lemma {:induction false} StripLeadingSpec(s: string)
    ensures |StripLeading(s)| <= |s| && StripLeading(s) == s[|s| - |StripLeading(s)|..]
    ensures StripLeading(s) == [] || !IsWhitespace(StripLeading(s)[0])
    ensures forall k | 0 <= k < |s| - |StripLeading(s)| :: IsWhitespace(s[k])
  {
    if s != [] && IsWhitespace(s[0]) {
      StripLeadingSpec(s[1..]);
      var r := StripLeading(s[1..]);
      assert forall k | 1 <= k < |s| - |r| :: s[k] == s[1..][k - 1];
    }
  }

  /** String.strip: whitespace removed at both ends. */
  function Strip(s: string): string
  {
    StripTrailing(StripLeading(s))
  }

  /** String.endsWith("/"). */
  predicate EndsWithSlash(s: string)
  {
    |s| > 0 && s[|s| - 1] == '/'
  }

  const REALMS_SEGMENT: string := "realms/"
  const CERTS_PATH: string := "/protocol/openid-connect/certs"

  /** The test getRealmUrl makes: serverUrl.strip().endsWith("/"). */
  predicate StrippedEndsWithSlash(serverUrl: string)
  {
    EndsWithSlash(Strip(serverUrl))
  }

  /** getRealmUrl: serverUrl, a single "/" unless the stripped serverUrl already ends in one, "realms/", the realm. */
  function RealmUrl(serverUrl: string, realm: string): (r: string)
    ensures serverUrl <= r
    ensures |r| >= |REALMS_SEGMENT + realm| && r[|r| - |REALMS_SEGMENT + realm|..] == REALMS_SEGMENT + realm
  {
    if StrippedEndsWithSlash(serverUrl) then
      var r := serverUrl + REALMS_SEGMENT + realm;
      assert r == serverUrl + (REALMS_SEGMENT + realm);
      r
    else
      var r := serverUrl + "/" + REALMS_SEGMENT + realm;
      assert r == (serverUrl + "/") + (REALMS_SEGMENT + realm);
      r
  }

  /** getCertificateUrl: the realm URL followed by the OpenID Connect certificate path. */
  function CertificateUrl(serverUrl: string, realm: string): (r: string)
    ensures serverUrl <= r
    ensures |r| == |RealmUrl(serverUrl, realm)| + |CERTS_PATH|
    ensures RealmUrl(serverUrl, realm) <= r && r[|RealmUrl(serverUrl, realm)|..] == CERTS_PATH
  {
    RealmUrl(serverUrl, realm) + "/protocol/openid-connect/certs"
  }

  /** The realm URL as com.odradek's decoder and locator write it inline: no slash normalisation. */
  function ConcatRealmUrl(serverUrl: string, realm: string): string
  {
    serverUrl + "/" + REALMS_SEGMENT + realm
  }

  /** A string that ends in a non-whitespace character keeps that character as the last one of its stripped form. */
  lemma StripKeepsLastNonWhitespace(s: string)
    requires s != [] && !IsWhitespace(s[|s| - 1])
    ensures Strip(s) != [] && Strip(s)[|Strip(s)| - 1] == s[|s| - 1]
  {
    var l := StripLeading(s);
    StripLeadingSpec(s);
    assert l != [];
    assert l[|l| - 1] == s[|s| - 1];
    assert StripTrailing(l) == l;
  }

  /**
   * For a server URL without trailing whitespace, getRealmUrl puts exactly one
   * "/" between the server URL (less one trailing "/") and "realms/".
   */
  lemma RealmUrlSingleSlash(serverUrl: string, realm: string)
    requires serverUrl != [] && !IsWhitespace(serverUrl[|serverUrl| - 1])
    ensures EndsWithSlash(serverUrl) ==>
      RealmUrl(serverUrl, realm) == serverUrl[..|serverUrl| - 1] + "/" + REALMS_SEGMENT + realm
    ensures !EndsWithSlash(serverUrl) ==>
      RealmUrl(serverUrl, realm) == serverUrl + "/" + REALMS_SEGMENT + realm
  {
    StripKeepsLastNonWhitespace(serverUrl);
    assert StrippedEndsWithSlash(serverUrl) == EndsWithSlash(serverUrl);
    if EndsWithSlash(serverUrl) {
      var p := serverUrl[..|serverUrl| - 1];
      assert serverUrl == p + "/";
    }
  }

  /** A server URL with one "/" appended passes the trailing-slash test. */
  lemma AppendedSlashStripped(serverUrl: string)
    ensures StrippedEndsWithSlash(serverUrl + "/")
  {
    var t := serverUrl + "/";
    assert t[|t| - 1] == '/';
    StripKeepsLastNonWhitespace(t);
  }

  /** Appending one "/" to a server URL whose stripped form lacks one does not change the realm URL. */
  lemma RealmUrlAddSlash(serverUrl: string, realm: string)
    requires !StrippedEndsWithSlash(serverUrl)
    ensures RealmUrl(serverUrl + "/", realm) == RealmUrl(serverUrl, realm)
  {
    AppendedSlashStripped(serverUrl);
  }

  /** Whitespace after the slash survives: "h/ " gives "h/ realms/r", not "h/realms/r". */
  lemma TrailingWhitespaceKept()
    ensures RealmUrl("h/ ", "r") == "h/ realms/r"
  {
  }

  /** The inline com.odradek concatenation agrees with getRealmUrl exactly when the stripped server URL has no trailing "/". */
  lemma ConcatAgreesUnlessSlash(serverUrl: string, realm: string)
    ensures ConcatRealmUrl(serverUrl, realm) == RealmUrl(serverUrl, realm) <==> !StrippedEndsWithSlash(serverUrl)
  {
  }

  /**
   * With a trailing "/" (for example "https://kc/"), the inline concatenation
   * expects ".../" + "/realms/..." while getRealmUrl gives one "/".
   */
  lemma ConcatDoubleSlash(host: string, realm: string)
    ensures ConcatRealmUrl(host + "/", realm) == host + "//" + REALMS_SEGMENT + realm
    ensures RealmUrl(host + "/", realm) == host + "/" + REALMS_SEGMENT + realm
    ensures ConcatRealmUrl(host + "/", realm) != RealmUrl(host + "/", realm)
  {
    AppendedSlashStripped(host);
    assert host + "/" + "/" == host + "//";
    assert |ConcatRealmUrl(host + "/", realm)| == |RealmUrl(host + "/", realm)| + 1;
  }
}
