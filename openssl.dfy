/**
  What the certificate credential inspects of the objects OpenSSL hands it.
  Parsing, key material and the certificate's structure stay inside OpenSSL;
  only the class of each object and the byte length of an RSA modulus are seen.
 */
module OpenSsl {

  /** The public key of a certificate. Only an RSA key has a modulus `n`. */
  datatype PublicKey =
    | RsaPublicKey(modulusBytes: nat)
    | OtherPublicKey

  /** An `OpenSSL::X509::Certificate`, or any other object (`nil` included). */
  datatype Certificate =
    | X509Certificate(publicKey: PublicKey)
    | NotX509Certificate

  /** An `OpenSSL::PKey::RSA`, or any other object (`nil` included). */
  datatype PrivateKey =
    | RsaPrivateKey
    | OtherPrivateKey

  /** An `OpenSSL::PKCS12` with what its `certificate` and `key` readers return, or any other object. */
  datatype Bundle =
    | Pkcs12(certificate: Certificate, key: PrivateKey)
    | OtherFormat
}
