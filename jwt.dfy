/**
 * The data types of the golang-jwt library (v3) that the engine handles:
 * signing methods and their `alg` names (section 3.1 of RFC 7518), keys,
 * the standard claims (section 4.1 of RFC 7519), claim maps, headers and
 * parsed tokens.
 */
module Jwt {
  import opened Prelude

  datatype Hash = SHA256 | SHA384 | SHA512

  /**
   * The signing methods golang-jwt registers, by the Go type that
   * implements each: `*SigningMethodHMAC`, `*SigningMethodRSA`,
   * `*SigningMethodRSAPSS`, `*SigningMethodECDSA`, `*SigningMethodEd25519`
   * and the unsigned method "none".
   */
  datatype SigningMethod =
    | HMAC(hash: Hash)
    | RSA(hash: Hash)
    | RSAPSS(hash: Hash)
    | ECDSA(hash: Hash)
    | EdDSA
    | NoSigning

  const HS256: SigningMethod := HMAC(SHA256)
  const RS256: SigningMethod := RSA(SHA256)

  function HashBits(h: Hash): (r: GoString)
    ensures |r| == 3
  {
    match h
    case SHA256 => Ascii("256")
    case SHA384 => Ascii("384")
    case SHA512 => Ascii("512")
  }

  /** `m.Alg()`: the `alg` header value of the method. */
  function Alg(m: SigningMethod): GoString
  {
    match m
    case HMAC(h) => Ascii("HS") + HashBits(h)
    case RSA(h) => Ascii("RS") + HashBits(h)
    case RSAPSS(h) => Ascii("PS") + HashBits(h)
    case ECDSA(h) => Ascii("ES") + HashBits(h)
    case EdDSA => Ascii("EdDSA")
    case NoSigning => Ascii("none")
  }

  /**
   * Among the registered methods, an `alg` name starts with "RS" exactly
   * for the RSA PKCS#1 v1.5 methods and with "HS" exactly for the HMAC
   * methods; in particular the RSA-PSS names ("PS...") start with neither.
   */
  lemma AlgPrefixFamily(m: SigningMethod)
    ensures HasPrefix(Alg(m), Ascii("RS")) <==> m.RSA?
    ensures HasPrefix(Alg(m), Ascii("HS")) <==> m.HMAC?
  {
    var rs, hs := Ascii("RS"), Ascii("HS");
    assert rs == [82, 83] && hs == [72, 83];
    match m
    case HMAC(h) =>
      assert Alg(m)[..2] == hs;
    case RSA(h) =>
      assert Alg(m)[..2] == rs;
    case RSAPSS(h) =>
      assert Alg(m)[0] == 80;
    case ECDSA(h) =>
      assert Alg(m)[0] == 69;
    case EdDSA =>
      assert Alg(m)[0] == 69;
    case NoSigning =>
      assert Alg(m)[0] == 110;
  }

  /** golang-jwt's `StandardClaims`; times are Unix seconds. */
  datatype StandardClaims = StandardClaims(
    audience: GoString,
    expiresAt: int,
    id: GoString,
    issuedAt: int,
    issuer: GoString,
    notBefore: int,
    subject: GoString)

  /** `jwt.StandardClaims{}`. */
  const ZeroStandardClaims: StandardClaims := StandardClaims([], 0, [], 0, [], 0, [])

  /** A value in a decoded claim map (`map[string]interface{}`). */
  datatype ClaimValue = IntClaim(i: int) | StringClaim(s: GoString) | OtherClaim

  /** golang-jwt's `MapClaims`. */
  type MapClaims = map<GoString, ClaimValue>

  /** A JOSE header: `typ`, `alg` and, when present, `kid` (section 4.1.4 of RFC 7515). */
  datatype Header = Header(typ: GoString, alg: GoString, kid: Option<GoString>)

  /** Opaque key material that only the cryptographic library interprets. */
  datatype RsaPrivateKey = RsaPrivateKey(material: Bytes)
  datatype RsaPublicKey = RsaPublicKey(material: Bytes)

  /** What `x509.ParsePKIXPublicKey` can return. */
  datatype PublicKey = RsaPublic(rsa: RsaPublicKey) | EcdsaPublic(material: Bytes) | Ed25519Public(material: Bytes)

  /** The `interface{}` key handed to a signer or verifier; `NilKey` is Go's nil. */
  datatype Key = NilKey | SecretKey(secret: Bytes) | PrivateRsa(priv: RsaPrivateKey) | PublicRsa(pub: RsaPublicKey)

  /** A PEM block from `pem.Decode`. */
  datatype PemBlock = PemBlock(kind: GoString, bytes: Bytes)

  /** A parsed `*jwt.Token`; `valid` is its `Valid` field. */
  datatype Token = Token(raw: GoString, header: Header, signingMethod: SigningMethod, claims: MapClaims, valid: bool)
}
