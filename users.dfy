/**
 * The user models: AbstractKeycloakUser (io.github.hacks1ash) and
 * OdradekUser (com.odradek). Both read the "clientId" entry of the token's
 * otherClaims to tell service-account tokens from user tokens.
 */
module Users {
  import opened Common
  import opened Tokens

  /** The claim that marks a token issued to a service account. */
  const CLIENT_ID_CLAIM: string := "clientId"

  /** AbstractKeycloakUser.isServiceAccount: otherClaims.containsKey("clientId"). */
  function IsServiceAccountOf(user: AccessToken): (r: bool)
    ensures r <==> CLIENT_ID_CLAIM in user.otherClaims
  {
    CLIENT_ID_CLAIM in user.otherClaims
  }

  /** AbstractKeycloakUser.getServiceAccountId: the string form of a non-null "clientId" value, else null. */
  function ServiceAccountIdOf(user: AccessToken): (r: Option<string>)
    ensures r.Some? <==> CLIENT_ID_CLAIM in user.otherClaims && user.otherClaims[CLIENT_ID_CLAIM] != Null
    ensures r.Some? ==> user.otherClaims[CLIENT_ID_CLAIM] == Value(r.value)
  {
    var serviceAccountId := if CLIENT_ID_CLAIM in user.otherClaims then user.otherClaims[CLIENT_ID_CLAIM] else Null;
    if serviceAccountId != Null then Some(serviceAccountId.text) else None
  }

  /** A service-account id is only ever found on a service-account token. */
  lemma ServiceAccountIdImpliesServiceAccount(user: AccessToken)
    ensures ServiceAccountIdOf(user).Some? ==> IsServiceAccountOf(user)
  {
  }

  /** A "clientId" claim that is present but null: a service account without an id. */
  lemma NullClientIdClaim(user: AccessToken)
    requires CLIENT_ID_CLAIM in user.otherClaims && user.otherClaims[CLIENT_ID_CLAIM] == Null
    ensures IsServiceAccountOf(user) && ServiceAccountIdOf(user) == None
  {
  }

  /**
   * OdradekUser: an AccessToken with two extra JSON properties, companyId and
   * companyName, that Lombok gives a getter and a setter each. The getters are
   * plain reads of the fields.
   */
  class OdradekUser {
    var token: AccessToken
    var companyId: Option<string>
    var companyName: Option<string>

    constructor (token: AccessToken, companyId: Option<string>, companyName: Option<string>)
      ensures this.token == token && this.companyId == companyId && this.companyName == companyName
    {
      this.token := token;
      this.companyId := companyId;
      this.companyName := companyName;
    }

    /** setCompanyId: stores the value; nothing else changes. */
    method SetCompanyId(companyId: Option<string>)
      modifies this`companyId
      ensures this.companyId == companyId
    {
      this.companyId := companyId;
    }

    /** setCompanyName: stores the value; nothing else changes. */
    method SetCompanyName(companyName: Option<string>)
      modifies this`companyName
      ensures this.companyName == companyName
    {
      this.companyName := companyName;
    }

    /** OdradekUser.isServiceAccount, the same test as AbstractKeycloakUser's. */
    function IsServiceAccount(): (r: bool)
      reads this
      ensures r == IsServiceAccountOf(token)
    {
      CLIENT_ID_CLAIM in token.otherClaims
    }

    /** OdradekUser.getServiceAccountId: null for an absent or null value, otherwise its string form. */
    function ServiceAccountId(): (r: Option<string>)
      reads this
      ensures r == ServiceAccountIdOf(token)
      ensures r.Some? ==> IsServiceAccount()
    {
      var serviceAccountId := if CLIENT_ID_CLAIM in token.otherClaims then token.otherClaims[CLIENT_ID_CLAIM] else Null;
      if serviceAccountId == Null then None
      else Some(serviceAccountId.text)
    }
  }
}
