/**
 * verifier/: parsing and verifying tokens under one algorithm family.
 * Each parser hands golang-jwt a key callback that refuses every token
 * whose signing method is not of its family (HMAC for the HS parser,
 * RSA PKCS#1 v1.5 for the RS parser), which is the guard against
 * algorithm confusion, section 3.1 of RFC 8725.
 */
module Verifier {
  import opened Prelude
  import opened Jwt
  import opened External
  import Manager

  /** The key callback of `ParseHSToken`. */
  function HSKey(signingKey: GoString, t: Token): (r: Result<Key>)
    ensures r.Ok? <==> t.signingMethod.HMAC?
    ensures r.Ok? ==> r.value == SecretKey(signingKey)
    ensures r.Err? ==> r.error == UnexpectedSigningMethod(t.header.alg)
  {
    if t.signingMethod.HMAC? then Ok(SecretKey(signingKey))
    else Err(UnexpectedSigningMethod(t.header.alg))
  }

  /** `ParseHSToken`: the library's token and error, unfiltered. */
  function ParseHSToken(lib: Library, tokenString: GoString, signingKey: GoString, now: Instant): ParseResult
  {
    Parse(lib, tokenString, t => HSKey(signingKey, t), now)
  }

  /**
   * A token the HS parser accepts is an HMAC token whose signature
   * verifies under the bytes of `signingKey`; a token of any other method
   * is always refused, as unverifiable, whatever its signature.
   */
  lemma HSParseGuard(lib: Library, tokenString: GoString, signingKey: GoString, now: Instant)
    ensures var r := ParseHSToken(lib, tokenString, signingKey, now);
            r.err.None? ==>
              && lib.parseUnverified(tokenString).Decoded?
              && var t := lib.parseUnverified(tokenString).token;
              && t.signingMethod.HMAC?
              && lib.verifySignature(t, SecretKey(signingKey))
              && r.token == Some(t.(valid := true))
    ensures var r := ParseHSToken(lib, tokenString, signingKey, now);
            lib.parseUnverified(tokenString).Decoded? && !lib.parseUnverified(tokenString).token.signingMethod.HMAC? ==>
              r.err == Some(Validation({Unverifiable}, Some(UnexpectedSigningMethod(lib.parseUnverified(tokenString).token.header.alg))))
  {
  }

  /**
   * `VerifyHSToken`: the claims of a valid token, "error parsing token"
   * around a parse error, else "invalid token or claim"; never claims and
   * an error together.
   */
  function VerifyHSToken(lib: Library, tokenString: GoString, signingKey: GoString, now: Instant): (r: Result<MapClaims>)
    ensures var p := ParseHSToken(lib, tokenString, signingKey, now);
            && (p.err.Some? ==> r == Err(ErrorParsingToken(p.err.value)))
            && (r.Ok? <==> p.err.None? && p.token.Some? && p.token.value.valid)
            && (r.Ok? ==> r.value == p.token.value.claims)
            && (r.Err? && p.err.None? ==> r.error == InvalidTokenOrClaim)
    ensures r.Ok? ==>
              && lib.parseUnverified(tokenString).Decoded?
              && var t := lib.parseUnverified(tokenString).token;
              && t.signingMethod.HMAC?
              && lib.verifySignature(t, SecretKey(signingKey))
              && r.value == t.claims
  {
    HSParseGuard(lib, tokenString, signingKey, now);
    ClaimsOfValid(ParseHSToken(lib, tokenString, signingKey, now))
  }

  /** The last step both verifiers share: the claims of a token that parsed and is valid. */
  function ClaimsOfValid(p: ParseResult): (r: Result<MapClaims>)
    ensures p.err.Some? ==> r == Err(ErrorParsingToken(p.err.value))
    ensures r.Ok? <==> p.err.None? && p.token.Some? && p.token.value.valid
  {
    match p.err
    case Some(e) => Err(ErrorParsingToken(e))
    case None =>
      match p.token
      case Some(t) => if t.valid then Ok(t.claims) else Err(InvalidTokenOrClaim)
      case None => Err(InvalidTokenOrClaim)
  }

  /** The PEM block type of a PKIX public key. */
  function PublicKeyBlockType(): GoString
  {
    Ascii("PUBLIC KEY")
  }

  /**
   * `LoadRSAPublicKeyFromFile`: read the file, take its first PEM block,
   * which must be of type exactly "PUBLIC KEY", parse it as PKIX and
   * require an RSA key; each failed step has its own error.
   */
  function LoadRSAPublicKeyFromFile(lib: Library, fs: Manager.FileSystem, filePath: GoString): (r: Result<RsaPublicKey>)
    ensures filePath !in fs ==> r == Err(FailedToReadFile(FileNotFound(filePath)))
    ensures r.Ok? <==>
              && filePath in fs
              && lib.pemDecode(fs[filePath]).Some?
              && lib.pemDecode(fs[filePath]).value.kind == PublicKeyBlockType()
              && lib.parsePkixPublicKey(lib.pemDecode(fs[filePath]).value.bytes).Ok?
              && lib.parsePkixPublicKey(lib.pemDecode(fs[filePath]).value.bytes).value.RsaPublic?
    ensures r.Ok? ==> lib.parsePkixPublicKey(lib.pemDecode(fs[filePath]).value.bytes).value == RsaPublic(r.value)
    ensures filePath in fs && (lib.pemDecode(fs[filePath]).None? || lib.pemDecode(fs[filePath]).value.kind != PublicKeyBlockType())
            ==> r == Err(FailedToParsePemBlock)
    ensures filePath in fs && lib.pemDecode(fs[filePath]).Some? && lib.pemDecode(fs[filePath]).value.kind == PublicKeyBlockType()
            ==> var k := lib.parsePkixPublicKey(lib.pemDecode(fs[filePath]).value.bytes);
                && (k.Err? ==> r == Err(FailedToParsePublicKey(k.error)))
                && (k.Ok? && !k.value.RsaPublic? ==> r == Err(NotAnRsaPublicKey))
  {
    match Manager.ReadFile(fs, filePath)
    case Err(e) => Err(FailedToReadFile(e))
    case Ok(contents) =>
      match lib.pemDecode(contents)
      case None => Err(FailedToParsePemBlock)
      case Some(block) =>
        if block.kind != PublicKeyBlockType() then Err(FailedToParsePemBlock)
        else
          match lib.parsePkixPublicKey(block.bytes)
          case Err(e) => Err(FailedToParsePublicKey(e))
          case Ok(RsaPublic(k)) => Ok(k)
          case Ok(_) => Err(NotAnRsaPublicKey)
  }

  /** The key callback of `ParseRSToken`. */
  function RSKey(signingKey: RsaPublicKey, t: Token): (r: Result<Key>)
    ensures r.Ok? <==> t.signingMethod.RSA?
    ensures r.Ok? ==> r.value == PublicRsa(signingKey)
    ensures r.Err? ==> r.error == UnexpectedSigningMethod(t.header.alg)
  {
    if t.signingMethod.RSA? then Ok(PublicRsa(signingKey))
    else Err(UnexpectedSigningMethod(t.header.alg))
  }

  /** `ParseRSToken`: the library's token and error, unfiltered. */
  function ParseRSToken(lib: Library, tokenString: GoString, signingKey: RsaPublicKey, now: Instant): ParseResult
  {
    Parse(lib, tokenString, t => RSKey(signingKey, t), now)
  }

  /**
   * A token the RS parser accepts is an RSA PKCS#1 v1.5 token whose
   * signature verifies under the given public key; HMAC tokens (and
   * RSA-PSS, ECDSA, EdDSA and unsigned ones) are always refused, so an
   * RSA public key can never be used as an HMAC secret.
   */
  lemma RSParseGuard(lib: Library, tokenString: GoString, signingKey: RsaPublicKey, now: Instant)
    ensures var r := ParseRSToken(lib, tokenString, signingKey, now);
            r.err.None? ==>
              && lib.parseUnverified(tokenString).Decoded?
              && var t := lib.parseUnverified(tokenString).token;
              && t.signingMethod.RSA?
              && lib.verifySignature(t, PublicRsa(signingKey))
              && r.token == Some(t.(valid := true))
    ensures var r := ParseRSToken(lib, tokenString, signingKey, now);
            lib.parseUnverified(tokenString).Decoded? && !lib.parseUnverified(tokenString).token.signingMethod.RSA? ==>
              r.err == Some(Validation({Unverifiable}, Some(UnexpectedSigningMethod(lib.parseUnverified(tokenString).token.header.alg))))
  {
  }

  /**
   * `VerifyRSToken`: a key-loading error is returned as it is, before the
   * token is looked at; then as `VerifyHSToken`.
   */
  function VerifyRSToken(lib: Library, fs: Manager.FileSystem, tokenString: GoString, filePath: GoString, now: Instant): (r: Result<MapClaims>)
    ensures var k := LoadRSAPublicKeyFromFile(lib, fs, filePath);
            && (k.Err? ==> r == Err(k.error))
            && (k.Ok? ==> r == ClaimsOfValid(ParseRSToken(lib, tokenString, k.value, now)))
    ensures r.Ok? ==>
              && LoadRSAPublicKeyFromFile(lib, fs, filePath).Ok?
              && lib.parseUnverified(tokenString).Decoded?
              && var t := lib.parseUnverified(tokenString).token;
              && t.signingMethod.RSA?
              && lib.verifySignature(t, PublicRsa(LoadRSAPublicKeyFromFile(lib, fs, filePath).value))
              && r.value == t.claims
  {
    match LoadRSAPublicKeyFromFile(lib, fs, filePath)
    case Err(e) => Err(e)
    case Ok(k) =>
      RSParseGuard(lib, tokenString, k, now);
      ClaimsOfValid(ParseRSToken(lib, tokenString, k, now))
  }
}
