/**
  ADAL::ClientAssertionCertificate: a client credential made of an X.509
  certificate and its private key, taken from a PKCS#12 bundle.  Construction
  checks the bundle format, then the certificate's class, then the key's class,
  then the public key's size; the first failing check raises.  A constructed
  credential never changes, and each request for parameters asks a JWT factory
  for a fresh self-signed assertion bound to the client id and the token endpoint.
 */
module ClientAssertionCertificates {
  import opened Wrappers
  import opened RubyValues
  import opened OpenSsl

  /**
    The smallest public key, in bits, a credential may hold, with the value
    the source gives it.  2014 is most likely a typo for 2048: because a key
    size is always a whole number of bytes times 8, 2014 behaves exactly like
    2016 (a 252-byte modulus), and it admits 2016- to 2040-bit keys that a
    2048-bit policy would refuse (see ThresholdAdmitsKeysBelow2048Bits).
   */
  const MIN_KEY_SIZE_BITS: nat := 2014

  /** The fewest modulus bytes a key needs to pass the size check. */
  const MIN_MODULUS_BYTES: nat := 252

  /** The authority the credential is presented to; only its token endpoint is used. */
  datatype Authority = Authority(tokenEndpoint: string)

  /** The exceptions construction can raise. */
  datatype Error =
    | OnlyPkcs12Supported
    | CertificateNotX509
    | PrivateKeyNotRsa
    | PublicKeyTooSmall
      /** `NoMethodError`: an X.509 certificate whose public key has no modulus `n`. */
    | ModulusUndefined
  {
    /** Every check of the source raises `ArgumentError`; only the missing modulus raises something else. */
    predicate IsArgumentError() {
      !ModulusUndefined?
    }

    /** The message of an `ArgumentError`. */
    function Message(): string
      requires IsArgumentError()
    {
      match this
      case OnlyPkcs12Supported => "Only PKCS12 file format is supported."
      case CertificateNotX509 => "certificate must be an OpenSSL::X509::Certificate."
      case PrivateKeyNotRsa => "private_key must be an OpenSSL::PKey::RSA."
      case PublicKeyTooSmall =>
        "certificate must contain a public key of at least " + IntegerToS(MIN_KEY_SIZE_BITS) + " bits."
    }
  }

  /** The size message names the threshold the code actually enforces. */
  lemma SizeMessageNamesThreshold()
    ensures PublicKeyTooSmall.Message() == "certificate must contain a public key of at least 2014 bits."
  {
  }

  /** Any two errors of the source carry different messages. */
  lemma MessagesDistinguishErrors(e1: Error, e2: Error)
    requires e1.IsArgumentError() && e2.IsArgumentError()
    requires e1 != e2
    ensures e1.Message() != e2.Message()
  {
  }

  /** The size in bits of the certificate's public key: its modulus byte count times 8. */
  function PublicKeySizeBits(certificate: Certificate): (r: Result<nat, Error>)
    requires certificate.X509Certificate?
    ensures r.Success? <==> certificate.publicKey.RsaPublicKey?
    ensures r.Success? ==> r.value % 8 == 0 && r.value / 8 == certificate.publicKey.modulusBytes
    ensures r.Failure? ==> r.error == ModulusUndefined
  {
    match certificate.publicKey
    case RsaPublicKey(modulusBytes) => Success(modulusBytes * 8)
    case OtherPublicKey => Failure(ModulusUndefined)
  }

  /** The policy in the terms of the objects themselves: an X.509 certificate with an RSA key of at least 252 bytes, and an RSA private key. */
  predicate MeetsPolicy(certificate: Certificate, privateKey: PrivateKey) {
    && certificate.X509Certificate?
    && privateKey.RsaPrivateKey?
    && certificate.publicKey.RsaPublicKey?
    && certificate.publicKey.modulusBytes >= MIN_MODULUS_BYTES
  }

  /** The certificate and key checks, in the source's order: class of the certificate, class of the key, key size. */
  function ValidateCertificateAndKey(certificate: Certificate, privateKey: PrivateKey): (r: Outcome<Error>)
    ensures r.Pass? <==> MeetsPolicy(certificate, privateKey)
    ensures r.Fail? && r.error != CertificateNotX509 ==> certificate.X509Certificate?
    ensures r.Fail? && !r.error.IsArgumentError() ==> privateKey.RsaPrivateKey?
  {
    if !certificate.X509Certificate? then
      Fail(CertificateNotX509)
    else if !privateKey.RsaPrivateKey? then
      Fail(PrivateKeyNotRsa)
    else
      match PublicKeySizeBits(certificate)
      case Failure(e) => Fail(e)
      case Success(bits) => if bits < MIN_KEY_SIZE_BITS then Fail(PublicKeyTooSmall) else Pass
  }

  /** The outcome of `initialize`: the format guard, then the certificate and key checks. */
  function InitializeOutcome(bundle: Bundle): (r: Outcome<Error>)
    ensures r.Pass? <==> bundle.Pkcs12? && MeetsPolicy(bundle.certificate, bundle.key)
    ensures !bundle.Pkcs12? ==> r == Fail(OnlyPkcs12Supported)
    ensures r == Fail(OnlyPkcs12Supported) ==> !bundle.Pkcs12?
  {
    if !bundle.Pkcs12? then Fail(OnlyPkcs12Supported)
    else ValidateCertificateAndKey(bundle.certificate, bundle.key)
  }

  /** A certificate that is not X.509 decides the error, whatever the key. */
  lemma CertificateCheckFirst(certificate: Certificate, key1: PrivateKey, key2: PrivateKey)
    requires !certificate.X509Certificate?
    ensures ValidateCertificateAndKey(certificate, key1) == Fail(CertificateNotX509)
    ensures ValidateCertificateAndKey(certificate, key1) == ValidateCertificateAndKey(certificate, key2)
  {
  }

  /** With an X.509 certificate, a non-RSA key decides the error and the public key is never looked at. */
  lemma KeyCheckBeforeSize(cert1: Certificate, cert2: Certificate, privateKey: PrivateKey)
    requires cert1.X509Certificate? && cert2.X509Certificate?
    requires !privateKey.RsaPrivateKey?
    ensures ValidateCertificateAndKey(cert1, privateKey) == Fail(PrivateKeyNotRsa)
    ensures ValidateCertificateAndKey(cert1, privateKey) == ValidateCertificateAndKey(cert2, privateKey)
  {
  }

  /** With an X.509 certificate whose public key is not RSA and an RSA private key, reading the modulus raises. */
  lemma ModulusCheckAfterKey(privateKey: PrivateKey)
    requires privateKey.RsaPrivateKey?
    ensures ValidateCertificateAndKey(X509Certificate(OtherPublicKey), privateKey) == Fail(ModulusUndefined)
  {
  }

  /** With an X.509 certificate holding an RSA key and an RSA private key, the size error comes exactly below the threshold. */
  lemma SizeErrorIffBelowThreshold(modulusBytes: nat)
    ensures var r := ValidateCertificateAndKey(X509Certificate(RsaPublicKey(modulusBytes)), RsaPrivateKey);
      && (r == Fail(PublicKeyTooSmall) <==> modulusBytes * 8 < MIN_KEY_SIZE_BITS)
      && (r == Pass <==> modulusBytes >= MIN_MODULUS_BYTES)
  {
  }

  /** Every error construction can raise is raised by some bundle. */
  lemma EveryErrorReachable()
    ensures exists b :: InitializeOutcome(b) == Fail(OnlyPkcs12Supported)
    ensures exists b :: InitializeOutcome(b) == Fail(CertificateNotX509)
    ensures exists b :: InitializeOutcome(b) == Fail(PrivateKeyNotRsa)
    ensures exists b :: InitializeOutcome(b) == Fail(PublicKeyTooSmall)
    ensures exists b :: InitializeOutcome(b) == Fail(ModulusUndefined)
    ensures exists b :: InitializeOutcome(b) == Pass
  {
    var rsa := X509Certificate(RsaPublicKey(MIN_MODULUS_BYTES));
    assert InitializeOutcome(OtherFormat) == Fail(OnlyPkcs12Supported);
    assert InitializeOutcome(Pkcs12(NotX509Certificate, RsaPrivateKey)) == Fail(CertificateNotX509);
    assert InitializeOutcome(Pkcs12(rsa, OtherPrivateKey)) == Fail(PrivateKeyNotRsa);
    assert InitializeOutcome(Pkcs12(X509Certificate(RsaPublicKey(0)), RsaPrivateKey)) == Fail(PublicKeyTooSmall);
    assert InitializeOutcome(Pkcs12(X509Certificate(OtherPublicKey), RsaPrivateKey)) == Fail(ModulusUndefined);
    assert InitializeOutcome(Pkcs12(rsa, RsaPrivateKey)) == Pass;
  }

  /** The threshold as written accepts a 2016-bit key, which a 2048-bit policy would refuse. */
  lemma ThresholdAdmitsKeysBelow2048Bits()
    ensures exists b :: InitializeOutcome(b).Pass?
                        && PublicKeySizeBits(b.certificate) == Success(2016)
  {
    var b := Pkcs12(X509Certificate(RsaPublicKey(MIN_MODULUS_BYTES)), RsaPrivateKey);
    assert InitializeOutcome(b).Pass? && PublicKeySizeBits(b.certificate) == Success(2016);
  }

  /** Records the arguments of the JWT `SelfSignedJwtFactory.new(clientId, tokenEndpoint).create_and_sign_jwt(certificate, privateKey)` returns. */
  datatype SelfSignedJwt = SelfSignedJwt(
    clientId: string,
    tokenEndpoint: string,
    certificate: Certificate,
    privateKey: PrivateKey)

  /** Records the arguments of the hash `ClientAssertion.new(clientId, assertion).request_params` returns. */
  datatype ClientAssertionParams = ClientAssertionParams(clientId: string, assertion: SelfSignedJwt)

  class ClientAssertionCertificate {
    const authority: Authority
    const certificate: Certificate
    const clientId: string
    const privateKey: PrivateKey

    /** The field assignments of `initialize`, reached only once the format guard has let the bundle through. */
    constructor (authority: Authority, clientId: Value, bundle: Bundle)
      requires bundle.Pkcs12?
      ensures this.authority == authority
      ensures certificate == bundle.certificate && privateKey == bundle.key
      ensures this.clientId == ToS(clientId)
    {
      this.authority := authority;
      certificate := bundle.certificate;
      this.clientId := ToS(clientId);
      privateKey := bundle.key;
    }

    /** The certificate and key passed validation. */
    predicate Valid() {
      ValidateCertificateAndKey(certificate, privateKey).Pass?
    }

    /**
      `ClientAssertionCertificate.new`: rejects anything but a PKCS#12 bundle
      before touching it, stores the fields, validates them, and hands the
      object out only if validation passed.
     */
    static method New(authority: Authority, clientId: Value, bundle: Bundle)
      returns (r: Result<ClientAssertionCertificate, Error>)
      ensures r.Failure? <==> InitializeOutcome(bundle).Fail?
      ensures r.Failure? ==> r.error == InitializeOutcome(bundle).error
      ensures r.Success? ==> && fresh(r.value) && r.value.Valid()
                             && r.value.authority == authority
                             && r.value.clientId == ToS(clientId)
                             && r.value.certificate == bundle.certificate
                             && r.value.privateKey == bundle.key
    {
      if !bundle.Pkcs12? {
        return Failure(OnlyPkcs12Supported);
      }
      var c := new ClientAssertionCertificate(authority, clientId, bundle);
      var check := ValidateCertificateAndKey(c.certificate, c.privateKey);
      if check.Fail? {
        return Failure(check.error);
      }
      return Success(c);
    }

    /**
      `request_params`: the JWT is made for the stored client id and the
      authority's token endpoint and signed with the stored certificate and
      key; the client assertion carries the same client id.
     */
    function RequestParams(): (r: ClientAssertionParams)
      requires Valid()
      ensures r.clientId == clientId && r.assertion.clientId == clientId
      ensures r.assertion.tokenEndpoint == authority.tokenEndpoint
      ensures r.assertion.certificate == certificate && r.assertion.privateKey == privateKey
    {
      var jwt := SelfSignedJwt(clientId, authority.tokenEndpoint, certificate, privateKey);
      ClientAssertionParams(clientId, jwt)
    }
  }

  /**
    The arguments recorded for the JWT factory and `ClientAssertion` are equal
    exactly when the two credentials agree on the client id, the endpoint, the
    certificate and the key.  (The JWTs the factory would sign from equal
    arguments still differ, by their `jti` and timestamps.)
   */
  lemma RequestParamsDetermineCredential(c1: ClientAssertionCertificate, c2: ClientAssertionCertificate)
    requires c1.Valid() && c2.Valid()
    ensures c1.RequestParams() == c2.RequestParams() <==>
      && c1.clientId == c2.clientId
      && c1.authority.tokenEndpoint == c2.authority.tokenEndpoint
      && c1.certificate == c2.certificate
      && c1.privateKey == c2.privateKey
  {
  }
}
