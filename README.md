# Assertion credentials of the ADAL Ruby library, in Dafny

This project models the two assertion credentials that the Azure Active Directory
Authentication Library for Ruby (ADAL) presents in OAuth token requests. It proves
properties of the model.

- `ADAL::ClientAssertionCertificate` is a confidential client's credential. It holds an
  X.509 certificate and a private key, both taken from a PKCS#12 bundle.
  Construction runs four checks in a fixed order, and the first one that fails raises:
  1. the bundle must be PKCS#12;
  2. the certificate must be X.509;
  3. the private key must be RSA;
  4. the public key must have at least `MIN_KEY_SIZE_BITS` bits.

  `request_params` asks a JWT factory for a self-signed assertion. The assertion is
  bound to the client id and the authority's token endpoint. The result is wrapped in a
  `ClientAssertion`.
- `ADAL::UserAssertion` is an immutable value used in the on-behalf-of flow. That flow
  uses the JWT-bearer authorization grant of section 2.1 of RFC 7523. It stores an
  assertion and its type, and the type defaults to `JWT_BEARER`. Its `request_params`
  returns a fixed four-entry hash.

Files:

- `wrappers.dfy`: the `Option`, `Result` and `Outcome` types. A `Failure` or `Fail`
  stands for a raised exception.
- `ruby_values.dfy`: the Ruby values that callers pass in (strings, symbols, integers,
  `nil`, other objects) and `to_s` on them. `Integer#to_s` is written out as decimal
  rendering, and it is proved to round-trip.
- `openssl.dfy`: what the credential sees of OpenSSL's objects. That is the class of
  each object and the byte length of an RSA modulus.
- `client_assertion_certificate.dfy`: the certificate credential. It is a class with
  `const` fields, because no field is written after construction. The checks are pure
  functions. `New` is the whole of `initialize`: it returns either the object or the
  error.
- `user_assertion.dfy`: the user assertion, as a datatype.

Points worth knowing about the code:

- **Key-size threshold.** 2048 bits is the usual RSA minimum; the code says
  `MIN_KEY_SIZE_BITS = 2014`, and the model uses 2014. A key size is always the modulus
  byte count times 8, so 2014 behaves exactly like 2016: the rule in effect is "a modulus
  of at least 252 bytes" (`SizeErrorIffBelowThreshold`). That rule accepts 2016- to
  2040-bit keys, which a 2048-bit policy would refuse (`ThresholdAdmitsKeysBelow2048Bits`).
- **Errors.** All four checks raise `ArgumentError`, and only the message tells them
  apart. The model keeps one `Error` value per check, each
  with the code's exact message (`MessagesDistinguishErrors`).
- **Certificate with a non-RSA public key.** An X.509 certificate whose public key is not
  RSA, paired with an RSA private key, reaches `certificate.public_key.n`. That call
  raises `NoMethodError` rather than an `ArgumentError`. The model keeps this as
  `ModulusUndefined` (`ModulusCheckAfterKey`).
- **Client id.** The code applies only `to_s`, so a `nil` client id is stored as `""`
  and construction still succeeds.
- **Key pairing.** Nothing checks that the private key belongs to the certificate. The
  size check reads only the certificate's public key, so a small RSA private key bundled
  with a large certificate passes.
- **Valid credentials only.** The constructor that stores the fields can build an object
  that fails validation, as Ruby's `initialize` does before it raises at line 50. Only
  `New` hands objects out, and it hands out valid ones only; `RequestParams` requires
  `Valid()`.

## Model

| member | source | states |
|---|---|---|
| RubyValues.NatToDecimal | lib/adal/client_assertion_certificate.rb:79-80 | the integer interpolated into a message renders as a non-empty string of decimal digits, with no leading zero unless the number is 0 |
| RubyValues.DecimalRoundTrip | lib/adal/client_assertion_certificate.rb:79-80 | reading the rendered digits back gives the original number, so no two numbers share a rendering |
| RubyValues.IntegerToSRoundTrip | lib/adal/client_assertion_certificate.rb:48 | `Integer#to_s` on a client id starts with a minus sign exactly when the integer is negative, and the text gives the integer back |
| ClientAssertionCertificates.SizeMessageNamesThreshold | lib/adal/client_assertion_certificate.rb:78-80 | the size error's message is "certificate must contain a public key of at least 2014 bits." |
| ClientAssertionCertificates.MessagesDistinguishErrors | lib/adal/client_assertion_certificate.rb:43-80 | the four `ArgumentError`s carry pairwise different messages |
| ClientAssertionCertificates.PublicKeySizeBits | lib/adal/client_assertion_certificate.rb:65-67 | the size is defined exactly when the certificate's key has a modulus; it is then a multiple of 8 whose eighth is the modulus byte count; otherwise the modulus call raises |
| ClientAssertionCertificates.ValidateCertificateAndKey | lib/adal/client_assertion_certificate.rb:73-82 | validation passes iff the certificate is X.509 with an RSA public key of at least 252 bytes and the private key is RSA; only an X.509 certificate gets past the certificate error; the non-ArgumentError arises only with an RSA private key |
| ClientAssertionCertificates.InitializeOutcome | lib/adal/client_assertion_certificate.rb:42-51 | construction succeeds iff the bundle is PKCS#12 and its certificate and key meet the policy; the format error comes exactly for a bundle that is not PKCS#12, before anything else is inspected |
| ClientAssertionCertificates.CertificateCheckFirst | lib/adal/client_assertion_certificate.rb:74-75 | a certificate that is not X.509 gives the certificate error whatever the key is |
| ClientAssertionCertificates.KeyCheckBeforeSize | lib/adal/client_assertion_certificate.rb:76-77 | with an X.509 certificate, a key that is not RSA gives the private-key error whatever the certificate's public key is, so the size is never examined |
| ClientAssertionCertificates.ModulusCheckAfterKey | lib/adal/client_assertion_certificate.rb:65-78 | with an X.509 certificate whose public key is not RSA and an RSA private key, validation raises the `NoMethodError` of reading the modulus |
| ClientAssertionCertificates.SizeErrorIffBelowThreshold | lib/adal/client_assertion_certificate.rb:78-80 | with an X.509 certificate holding an RSA key and an RSA private key, the size error comes iff bytes × 8 < 2014, and validation passes iff the modulus has at least 252 bytes |
| ClientAssertionCertificates.EveryErrorReachable | lib/adal/client_assertion_certificate.rb:42-82 | each of the five errors, and success, is the outcome of some bundle |
| ClientAssertionCertificates.ThresholdAdmitsKeysBelow2048Bits | lib/adal/client_assertion_certificate.rb:28 | some accepted bundle has a 2016-bit key, below the usual 2048-bit minimum |
| ClientAssertionCertificates.ClientAssertionCertificate.constructor | lib/adal/client_assertion_certificate.rb:46-49 | once the format guard has passed, the fields hold the authority, the bundle's certificate and key, and the string form of the client id |
| ClientAssertionCertificates.ClientAssertionCertificate.New | lib/adal/client_assertion_certificate.rb:42-51 | `new` fails iff `InitializeOutcome` fails, with the same error; on success it returns a fresh, valid object whose fields are the authority, `to_s` of the client id, and the bundle's certificate and key |
| ClientAssertionCertificates.ClientAssertionCertificate.RequestParams | lib/adal/client_assertion_certificate.rb:54-59 | for a validated credential, the JWT is requested for the stored client id and the authority's token endpoint and is signed with the stored certificate and key; the client assertion carries the same client id |
| ClientAssertionCertificates.RequestParamsDetermineCredential | lib/adal/client_assertion_certificate.rb:54-59 | for two validated credentials, the recorded factory and `ClientAssertion` arguments are equal iff the credentials agree on the client id, the token endpoint, the certificate and the key |
| UserAssertions.New | lib/adal/user_assertion.rb:35-39 | the constructor stores the assertion and its type verbatim, never fails, and by default uses JWT_BEARER |
| UserAssertions.DefaultTypeIsJwtBearer | lib/adal/user_assertion.rb:35-36 | leaving out the type gives `JWT_BEARER`, which then becomes the `grant_type` parameter |
| UserAssertions.UserAssertion.RequestParams | lib/adal/user_assertion.rb:45-50 | the hash has exactly the keys `grant_type`, `assertion`, `requested_token_use` and `scope`; `grant_type` is the stored type, `assertion` the stored assertion, `requested_token_use` is `:on_behalf_of` and `scope` is `:openid` |
| UserAssertions.RequestParamsRoundTrip | lib/adal/user_assertion.rb:46-47 | both stored fields can be read back from the hash |
| UserAssertions.RequestParamsShape | lib/adal/user_assertion.rb:45-50 | every hash with these four keys and the two fixed values is the hash of exactly the assertion read back from it |

## Left out

- OpenSSL itself is left out: PKCS#12 parsing, the X.509 structure, RSA key material and `BN#num_bytes`. These are foreign library calls. The model sees only each object's class and the modulus byte count.
- `SelfSignedJwtFactory` (JWT claims, header, thumbprint, signature, the random `jti` and the clock) and `ClientAssertion#request_params` are not part of this model. `RequestParams` returns a term that records what is passed to them.
- The fact that each call signs a fresh JWT is not modelled, because freshness depends on the clock and a random source. In the model, equal credentials give equal records of the call arguments, not equal JWTs.
- ClientAssertionCertificate.RequestParams: is total, so a signing exception raised by `create_and_sign_jwt` (line 57) does not occur in the model; signing is not part of this model.
- The `RequestParameters` mixin and `TokenRequest::GrantType` (lib/adal/token_request.rb) are not part of this model. `JWT_BEARER` takes the grant-type URI from section 2.1 of RFC 7523.
- How the authority resolves its token endpoint, and the HTTP submission of the token request, are I/O. The endpoint is a field of `Authority`.
- Ruby object identity and privacy are not modelled. The model exposes `authority` and `privateKey` as `const` fields, while Ruby keeps them as private instance variables.
- `to_s` on an arbitrary object is taken as a given string (`Object(toS)`), because user code decides it.
- Exceptions raised by `to_s` itself, and `is_a?` on subclasses, are not modelled.
