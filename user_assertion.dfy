/**
  ADAL::UserAssertion: an assertion a user already holds, with its type, used
  in the on-behalf-of flow (the JWT-bearer authorization grant of section 2.1
  of RFC 7523).  Construction stores both values as given and never fails;
  `request_params` builds a four-entry hash from them.
 */
module UserAssertions {
  import opened Wrappers
  import opened RubyValues

  /**
    `TokenRequest::GrantType::JWT_BEARER`, the default assertion type.
    lib/adal/token_request.rb is not part of this model; the value is the
    grant-type URI that section 2.1 of RFC 7523 registers.
   */
  const JWT_BEARER: Value := Str("urn:ietf:params:oauth:grant-type:jwt-bearer")

  /** The symbol keys of the hash `request_params` returns. */
  const GRANT_TYPE: Value := Sym("grant_type")
  const ASSERTION: Value := Sym("assertion")
  const REQUESTED_TOKEN_USE: Value := Sym("requested_token_use")
  const SCOPE: Value := Sym("scope")

  /** The fixed values of `requested_token_use` and `scope`. */
  const ON_BEHALF_OF: Value := Sym("on_behalf_of")
  const OPENID: Value := Sym("openid")

  datatype UserAssertion = UserAssertion(assertion: Value, assertionType: Value)
  {
    /** The parameters this assertion contributes to an access token request. */
    function RequestParams(): (p: map<Value, Value>)
      ensures p.Keys == {GRANT_TYPE, ASSERTION, REQUESTED_TOKEN_USE, SCOPE}
      ensures p[GRANT_TYPE] == assertionType && p[ASSERTION] == assertion
      ensures p[REQUESTED_TOKEN_USE] == ON_BEHALF_OF && p[SCOPE] == OPENID
    {
      map[GRANT_TYPE := assertionType,
          ASSERTION := assertion,
          REQUESTED_TOKEN_USE := ON_BEHALF_OF,
          SCOPE := OPENID]
    }
  }

  /** `UserAssertion.new`: stores both arguments unchecked; the type defaults to JWT_BEARER. */
  function New(assertion: Value, assertionType: Value := JWT_BEARER): (u: UserAssertion)
    ensures u.assertion == assertion && u.assertionType == assertionType
  {
    UserAssertion(assertion, assertionType)
  }

  /** Leaving out the type gives a JWT-bearer assertion. */
  lemma DefaultTypeIsJwtBearer(assertion: Value)
    ensures New(assertion).assertionType == JWT_BEARER
    ensures New(assertion).RequestParams()[GRANT_TYPE] == Str("urn:ietf:params:oauth:grant-type:jwt-bearer")
  {
  }

  /** The user assertion a parameter hash was built from, if it has the shape `request_params` gives. */
  function FromRequestParams(p: map<Value, Value>): Option<UserAssertion> {
    if && p.Keys == {GRANT_TYPE, ASSERTION, REQUESTED_TOKEN_USE, SCOPE}
       && p[REQUESTED_TOKEN_USE] == ON_BEHALF_OF
       && p[SCOPE] == OPENID
    then Some(UserAssertion(p[ASSERTION], p[GRANT_TYPE]))
    else None
  }

  /** The parameter hash keeps both fields: they can be read back from it. */
  lemma RequestParamsRoundTrip(u: UserAssertion)
    ensures FromRequestParams(u.RequestParams()) == Some(u)
  {
  }

  /** Every hash of that shape is the parameter hash of exactly the assertion read back from it. */
  lemma RequestParamsShape(p: map<Value, Value>)
    requires FromRequestParams(p).Some?
    ensures FromRequestParams(p).value.RequestParams() == p
  {
  }
}
