/**
 * The third-party code the engine calls, as uninterpreted functions: the
 * signers and verifiers of golang-jwt (HMAC and RSA, sections 3.2 and 3.3
 * of RFC 7518), its token splitter and claims check, PEM and PKIX
 * decoding, and name-based SHA-1 UUIDs (section 4.3 of RFC 4122).
 *
 * `Parse` models the control flow of golang-jwt's `jwt.Parse`, which the
 * verifiers call with a key callback: split and decode the token, ask the
 * callback for the verification key (a callback error makes the token
 * unverifiable), check the claims and the signature, and mark the token
 * valid only when no check failed.
 */
module External {
  import opened Prelude
  import opened Jwt
  import opened Claims

  /** The claims a token is signed over. */
  datatype Payload = AccessPayload(access: JWTAccessClaims) | IdPayload(id: IdFields) | MapPayload(claims: MapClaims)

  /** A `*jwt.Token` that is about to be signed. */
  datatype Unsigned = Unsigned(signingMethod: SigningMethod, header: Header, payload: Payload)

  datatype Library = Library(
    /** `(*jwt.Token).SignedString(key)` */
    signedString: (Unsigned, Key) -> Result<GoString>,
    /** the splitting and decoding step of `jwt.Parse` (`ParseUnverified`) */
    parseUnverified: GoString -> Unverified,
    /** `token.Method.Verify` of the token's signing input and signature */
    verifySignature: (Token, Key) -> bool,
    /** the flags `MapClaims.Valid` reports at the given instant */
    claimsErrors: (MapClaims, Instant) -> set<ValidationFlag>,
    /** `jwt.ParseRSAPrivateKeyFromPEM` */
    parseRsaPrivateKeyFromPem: Bytes -> Result<RsaPrivateKey>,
    /** `pem.Decode`, first block only */
    pemDecode: Bytes -> Option<PemBlock>,
    /** `x509.ParsePKIXPublicKey` */
    parsePkixPublicKey: Bytes -> Result<PublicKey>,
    /** `uuid.NewSHA1(space, data).String()` */
    newSha1Uuid: (Bytes, Bytes) -> GoString)

  /**
   * The outcome of golang-jwt's `ParseUnverified`: a string that does not
   * split into three segments gives no token; one that splits but whose
   * header or claims do not decode, or whose `alg` is missing or unknown,
   * gives the partly filled token together with its error.
   */
  datatype Unverified = Decoded(token: Token) | PartlyDecoded(token: Token, error: Error) | Malformed(error: Error)

  /** `jwt.NewWithClaims(method, claims)`: header `typ` "JWT", the method's `alg`, no `kid`. */
  function NewWithClaims(m: SigningMethod, payload: Payload): (u: Unsigned)
    ensures u.signingMethod == m && u.payload == payload
    ensures u.header.typ == Ascii("JWT") && u.header.alg == Alg(m) && u.header.kid.None?
  {
    Unsigned(m, Header(Ascii("JWT"), Alg(m), None), payload)
  }

  /** The outcome of `jwt.Parse`: a token (possibly invalid), an error, or both. */
  datatype ParseResult = ParseResult(token: Option<Token>, err: Option<Error>)

  /**
   * `jwt.Parse(tokenString, keyFunc)`. A parse without error always comes
   * with a valid token whose key came from the callback and whose
   * signature verified under it; a token that comes with an error is never
   * marked valid; a callback error always comes back as an `Unverifiable`
   * validation error wrapping it; the partly decoded token of a failed
   * `ParseUnverified` is passed on with its error.
   */
  function Parse(lib: Library, tokenString: GoString, keyFunc: Token -> Result<Key>, now: Instant): (r: ParseResult)
    ensures r.err.None? ==>
              && lib.parseUnverified(tokenString).Decoded?
              && var t := lib.parseUnverified(tokenString).token;
              && keyFunc(t).Ok?
              && lib.verifySignature(t, keyFunc(t).value)
              && r.token == Some(t.(valid := true))
    ensures r.err.Some? && r.token.Some? ==> !r.token.value.valid
    ensures lib.parseUnverified(tokenString).Decoded? && keyFunc(lib.parseUnverified(tokenString).token).Err? ==>
              r.err == Some(Validation({Unverifiable}, Some(keyFunc(lib.parseUnverified(tokenString).token).error)))
    ensures lib.parseUnverified(tokenString).PartlyDecoded? ==>
              r.err == Some(lib.parseUnverified(tokenString).error)
              && r.token == Some(lib.parseUnverified(tokenString).token.(valid := false))
    ensures r.token.Some? <==> !lib.parseUnverified(tokenString).Malformed?
  {
    match lib.parseUnverified(tokenString)
    case Malformed(e) => ParseResult(None, Some(e))
    case PartlyDecoded(t, e) => ParseResult(Some(t.(valid := false)), Some(e))
    case Decoded(t) =>
      match keyFunc(t)
      case Err(e) => ParseResult(Some(t.(valid := false)), Some(Validation({Unverifiable}, Some(e))))
      case Ok(key) =>
        var flags := lib.claimsErrors(t.claims, now)
                     + (if lib.verifySignature(t, key) then {} else {SignatureInvalid});
        if flags == {} then ParseResult(Some(t.(valid := true)), None)
        else ParseResult(Some(t.(valid := false)), Some(Validation(flags, None)))
  }
}
