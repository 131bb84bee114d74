/**
 * accessor/: issuing and renewing tokens.
 *
 * `NewToken` resolves the signing key by the `alg` prefix of the
 * accessor's method, signs the access token and, when identity claims are
 * given, the identity token, each with the accessor's key id in the `kid`
 * header (section 4.1.4 of RFC 7515); when the refresh lifetime is not
 * zero it mints a refresh handle, the base64url encoding of a name-based
 * SHA-1 UUID of the access token, and stores the renewal record under
 * that UUID.
 *
 * `RenewToken` (one per accessor) decodes a handle, looks up its record,
 * refuses a record that expired strictly before now, re-verifies the
 * previous access token tolerating only an expiry failure, and re-signs;
 * only the RS256 variant writes the store afterwards.
 */
module Accessor {
  import opened Prelude
  import opened Jwt
  import opened Claims
  import opened External
  import opened Store
  import opened Options
  import Base64Url
  import Verifier
  import Manager

  // ---------------------------------------------------------------------
  // accessor/claims.go
  // ---------------------------------------------------------------------

  /** `accessor.JWTAccessClaims`: the standard claims alone. */
  datatype AccessClaims = AccessClaims(standard: StandardClaims)

  /** `JWTAccessClaims.Valid` at instant `now`: "invalid access token" once `exp` is strictly past. */
  function Valid(c: AccessClaims, now: Instant): (r: Option<Error>)
    ensures r.Some? <==> c.standard.expiresAt * NanosPerSecond < now
    ensures r.Some? ==> r.value == InvalidAccessToken
  {
    if c.standard.expiresAt * NanosPerSecond < now then Some(InvalidAccessToken) else None
  }

  /** Validity depends on the expiry alone. */
  lemma ValidOnlyByExpiry(c: AccessClaims, d: AccessClaims, now: Instant)
    requires c.standard.expiresAt == d.standard.expiresAt
    ensures Valid(c, now) == Valid(d, now)
  {
  }

  /** The issuer and audience of the default claims. */
  function DefaultHost(): GoString
  {
    Ascii("http://localhost:8080")
  }

  /**
   * `GenerateDefaultClaims(a, sub)`, with the clock reading `now` and the
   * accessor's `a.GetExpiresIn()` (which the repository does not define)
   * as parameters.
   */
  function GenerateDefaultClaims(sub: GoString, expiresIn: int, now: Instant): (c: AccessClaims)
    ensures c.standard.issuer == DefaultHost() && c.standard.audience == DefaultHost()
    ensures c.standard.subject == sub
    ensures c.standard.issuedAt == Unix(now)
    ensures c.standard.expiresAt == c.standard.issuedAt + expiresIn
    ensures c.standard.id == [] && c.standard.notBefore == 0
  {
    var iat := Unix(now);
    AccessClaims(StandardClaims(DefaultHost(), iat + expiresIn, [], iat, DefaultHost(), 0, sub))
  }

  /**
   * Default claims, whatever their lifetime, stay valid up to and including
   * their expiry second, and no later.
   */
  lemma DefaultClaimsValidUntilExpiry(sub: GoString, expiresIn: int, now: Instant, later: Instant)
    ensures Valid(GenerateDefaultClaims(sub, expiresIn, now), later).None? <==> later <= (Unix(now) + expiresIn) * NanosPerSecond
  {
  }

  /**
   * Default claims generated at `now` with a lifetime of at least a second
   * are valid at `now`.
   */
  lemma {:induction false} DefaultClaimsValidWhenIssued(sub: GoString, expiresIn: int, now: Instant)
    requires expiresIn >= 1
    ensures Valid(GenerateDefaultClaims(sub, expiresIn, now), now).None?
  {
    var iat := Unix(now);
    assert now < (iat + 1) * NanosPerSecond;
    assert (iat + 1) * NanosPerSecond <= (iat + expiresIn) * NanosPerSecond by {
      MulMonotone(iat + 1, iat + expiresIn, NanosPerSecond);
    }
  }

  lemma MulMonotone(a: int, b: int, n: nat)
    requires a <= b
    ensures a * n <= b * n
  {
  }

  // ---------------------------------------------------------------------
  // accessor/jwt_token.go
  // ---------------------------------------------------------------------

  /** `accessor.Token`, the token response; `expiresIn` is an `int64`. */
  datatype Token = Token(accessToken: GoString, tokenType: GoString, idToken: GoString, refreshToken: GoString, expiresIn: int)

  /** The `token_type` of every issued token. */
  function Bearer(): GoString
  {
    Ascii("Bearer")
  }

  /** `accessor.HS256Access`. */
  datatype HS256Access = HS256Access(signingKeyId: GoString, signingKey: Bytes, signingMethod: SigningMethod)

  /** `accessor.RS256Access`. */
  datatype RS256Access = RS256Access(signedKeyId: GoString, signedKey: Bytes, signingMethod: SigningMethod)

  /**
   * A `JWTAccess`: one of the two accessors. Its getters are the
   * accessors' own `GetSigningKeyID`, `GetSigningKey` and
   * `GetSigningMethod`.
   */
  datatype JWTAccess = HS(hs: HS256Access) | RS(rs: RS256Access)
  {
    function GetSignedKeyID(): GoString
    {
      match this
      case HS(h) => h.signingKeyId
      case RS(r) => r.signedKeyId
    }

    function GetSignedKey(): Bytes
    {
      match this
      case HS(h) => h.signingKey
      case RS(r) => r.signedKey
    }

    function GetSigningMethod(): SigningMethod
    {
      match this
      case HS(h) => h.signingMethod
      case RS(r) => r.signingMethod
    }
  }

  /**
   * `GetParsedSigningKey`: with an `alg` starting "RS" the key bytes are
   * parsed as a PEM RSA private key ("error parsing RSA key" when that
   * fails); with one starting "HS" they are the HMAC secret unchanged; any
   * other method gets a nil key and no error.
   */
  function GetParsedSigningKey(lib: Library, a: JWTAccess): (r: Result<Key>)
    ensures a.GetSigningMethod().RSA? ==>
              r == match lib.parseRsaPrivateKeyFromPem(a.GetSignedKey())
                   case Ok(k) => Ok(PrivateRsa(k))
                   case Err(e) => Err(ErrorParsingRsaKey(e))
    ensures a.GetSigningMethod().HMAC? ==> r == Ok(SecretKey(a.GetSignedKey()))
    ensures !a.GetSigningMethod().RSA? && !a.GetSigningMethod().HMAC? ==> r == Ok(NilKey)
  {
    var m := a.GetSigningMethod();
    AlgPrefixFamily(m);
    if HasPrefix(Alg(m), Ascii("RS")) then
      match lib.parseRsaPrivateKeyFromPem(a.GetSignedKey())
      case Err(e) => Err(ErrorParsingRsaKey(e))
      case Ok(k) => Ok(PrivateRsa(k))
    else if HasPrefix(Alg(m), Ascii("HS")) then Ok(SecretKey(a.GetSignedKey()))
    else Ok(NilKey)
  }

  /** `jwt.NewWithClaims` followed by `token.Header["kid"] = a.GetSignedKeyID()`. */
  function Stamped(a: JWTAccess, payload: Payload): (u: Unsigned)
    ensures u.signingMethod == a.GetSigningMethod() && u.payload == payload
    ensures u.header.typ == Ascii("JWT") && u.header.alg == Alg(a.GetSigningMethod())
    ensures u.header.kid == Some(a.GetSignedKeyID())
  {
    var u := NewWithClaims(a.GetSigningMethod(), payload);
    u.(header := u.header.(kid := Some(a.GetSignedKeyID())))
  }

  /** `token` is the signature, by `key`, of `payload` under the accessor's method and key id. */
  predicate SignedWith(lib: Library, token: GoString, a: JWTAccess, payload: Payload, key: Key)
  {
    lib.signedString(Stamped(a, payload), key) == Ok(token)
  }

  /**
   * `GenerateAccessToken`: the access claims signed under the accessor's
   * method and `kid`; a signer error becomes "failed to sign token".
   */
  function GenerateAccessToken(lib: Library, a: JWTAccess, accessClaims: JWTAccessClaims, key: Key): (r: Result<GoString>)
    ensures r.Ok? <==> lib.signedString(Stamped(a, AccessPayload(accessClaims)), key).Ok?
    ensures r.Ok? ==> SignedWith(lib, r.value, a, AccessPayload(accessClaims), key)
    ensures r.Err? ==> r.error == FailedToSignToken(lib.signedString(Stamped(a, AccessPayload(accessClaims)), key).error)
  {
    match lib.signedString(Stamped(a, AccessPayload(accessClaims)), key)
    case Err(e) => Err(FailedToSignToken(e))
    case Ok(s) => Ok(s)
  }

  /** `GenerateIdToken`: the same for the current value of the identity claims. */
  function GenerateIdToken(lib: Library, a: JWTAccess, idClaims: JWTIdClaims, key: Key): (r: Result<GoString>)
    reads idClaims
    ensures r.Ok? <==> lib.signedString(Stamped(a, IdPayload(idClaims.Fields())), key).Ok?
    ensures r.Ok? ==> SignedWith(lib, r.value, a, IdPayload(idClaims.Fields()), key)
    ensures r.Err? ==> r.error == FailedToSignToken(lib.signedString(Stamped(a, IdPayload(idClaims.Fields())), key).error)
  {
    match lib.signedString(Stamped(a, IdPayload(idClaims.Fields())), key)
    case Err(e) => Err(FailedToSignToken(e))
    case Ok(s) => Ok(s)
  }

  /** The renewal record `GenerateRefreshToken` stores for `id` at instant `now`. */
  function RefreshRecord(id: GoString, accessToken: GoString, refreshExpiresIn: int, now: Instant): (ti: TokenInfo)
    ensures ti.resourceOwnerId == id && ti.accessToken == accessToken
    ensures ti.expiry - now == refreshExpiresIn * NanosPerSecond
  {
    TokenInfo(0, id, accessToken, AddSeconds(now, refreshExpiresIn))
  }

  /**
   * `GenerateRefreshToken`, with the random namespace `uuid.New()` and the
   * clock reading as parameters: the record for the UUID of the access
   * token is stored, and the handle returned is the base64url encoding of
   * that UUID, so decoding the handle gives back the store key. A store
   * failure becomes "failed to store token" and no handle.
   */
  method GenerateRefreshToken(lib: Library, namespace: Bytes, accessToken: GoString, opt: AuthOptions, now: Instant)
    returns (r: Result<GoString>)
    requires opt.validity != null && opt.store != null && opt.store.Valid()
    modifies opt.store
    ensures opt.store.Valid() && opt.store.faults == old(opt.store.faults) && opt.store.idTokens == old(opt.store.idTokens)
    ensures r.Ok? <==> StoreOp !in opt.store.faults
    ensures r.Ok? ==>
              var id := lib.newSha1Uuid(namespace, accessToken);
              && r.value == Base64Url.Encode(id)
              && Base64Url.Decode(r.value) == Ok(id)
              && opt.store.infos == old(opt.store.infos)[id := RefreshRecord(id, accessToken, opt.validity.refreshExpiresIn, now)]
    ensures r.Err? ==> r.error == FailedToStoreToken(StoreUnavailable) && opt.store.infos == old(opt.store.infos)
  {
    var id := lib.newSha1Uuid(namespace, accessToken);
    var refresh := Base64Url.Encode(id);
    var expiry := opt.validity.refreshExpiresIn;
    var ti := TokenInfo(0, id, accessToken, AddSeconds(now, expiry));
    var err := opt.store.StoreToken(ti);
    if err.Some? {
      return Err(FailedToStoreToken(err.value));
    }
    Base64Url.RoundTrip(id);
    return Ok(refresh);
  }

  /**
   * `NewToken`, with `namespace` the random UUID namespace of the refresh
   * handle and `now` the clock reading. Nothing is stored unless every
   * signature succeeded and the refresh lifetime is not zero; a key that
   * does not resolve fails before anything else.
   */
  method NewToken(lib: Library, namespace: Bytes, a: JWTAccess, c: JWTClaims, opt: AuthOptions, now: Instant)
    returns (r: Result<Token>)
    requires opt.validity != null
    requires opt.validity.refreshExpiresIn != 0 ==> opt.store != null && opt.store.Valid()
    modifies opt.store
    ensures opt.store != null && old(opt.store.Valid()) ==> opt.store.Valid()
    ensures opt.store != null ==> opt.store.faults == old(opt.store.faults) && opt.store.idTokens == old(opt.store.idTokens)
    ensures GetParsedSigningKey(lib, a).Err? ==> r == Err(GetParsedSigningKey(lib, a).error)
    ensures GetParsedSigningKey(lib, a).Ok? ==>
              var key := GetParsedSigningKey(lib, a).value;
              && (GenerateAccessToken(lib, a, c.accessClaims, key).Err? ==>
                    r == Err(GenerateAccessToken(lib, a, c.accessClaims, key).error))
              && (GenerateAccessToken(lib, a, c.accessClaims, key).Ok? && c.idClaims != null
                  && GenerateIdToken(lib, a, c.idClaims, key).Err? ==>
                    r == Err(GenerateIdToken(lib, a, c.idClaims, key).error))
    ensures r.Ok? <==>
              && GetParsedSigningKey(lib, a).Ok?
              && GenerateAccessToken(lib, a, c.accessClaims, GetParsedSigningKey(lib, a).value).Ok?
              && (c.idClaims != null ==> GenerateIdToken(lib, a, c.idClaims, GetParsedSigningKey(lib, a).value).Ok?)
              && (opt.validity.refreshExpiresIn != 0 ==> StoreOp !in opt.store.faults)
    ensures r.Ok? ==>
              var key := GetParsedSigningKey(lib, a).value;
              && GenerateAccessToken(lib, a, c.accessClaims, key) == Ok(r.value.accessToken)
              && r.value.tokenType == Bearer()
              && r.value.expiresIn == opt.validity.accessExpiresIn
              && (c.idClaims == null ==> r.value.idToken == [])
              && (c.idClaims != null ==> GenerateIdToken(lib, a, c.idClaims, key) == Ok(r.value.idToken))
              && (opt.validity.refreshExpiresIn == 0 ==> r.value.refreshToken == [])
    ensures r.Ok? && opt.validity.refreshExpiresIn != 0 ==>
              var id := lib.newSha1Uuid(namespace, r.value.accessToken);
              && r.value.refreshToken == Base64Url.Encode(id)
              && Base64Url.Decode(r.value.refreshToken) == Ok(id)
              && opt.store.infos
                 == old(opt.store.infos)[id := RefreshRecord(id, r.value.accessToken, opt.validity.refreshExpiresIn, now)]
    ensures r.Err? && opt.validity.refreshExpiresIn != 0 && StoreOp in opt.store.faults
            && GetParsedSigningKey(lib, a).Ok?
            && GenerateAccessToken(lib, a, c.accessClaims, GetParsedSigningKey(lib, a).value).Ok?
            && (c.idClaims != null ==> GenerateIdToken(lib, a, c.idClaims, GetParsedSigningKey(lib, a).value).Ok?)
            ==> r.error == FailedToStoreToken(StoreUnavailable)
    ensures (r.Err? || opt.validity.refreshExpiresIn == 0) && opt.store != null ==> opt.store.infos == old(opt.store.infos)
  {
    var key := GetParsedSigningKey(lib, a);
    if key.Err? {
      return Err(key.error);
    }
    var accessToken := GenerateAccessToken(lib, a, c.accessClaims, key.value);
    if accessToken.Err? {
      return Err(accessToken.error);
    }
    var tok := Token.Token(accessToken.value, Bearer(), [], [], opt.validity.accessExpiresIn);
    if c.idClaims != null {
      var idToken := GenerateIdToken(lib, a, c.idClaims, key.value);
      if idToken.Err? {
        return Err(idToken.error);
      }
      tok := tok.(idToken := idToken.value);
    }
    var refreshExpiresIn := opt.validity.refreshExpiresIn;
    if refreshExpiresIn != 0 {
      var refresh := GenerateRefreshToken(lib, namespace, accessToken.value, opt, now);
      if refresh.Err? {
        return Err(refresh.error);
      }
      tok := tok.(refreshToken := refresh.value);
    }
    return Ok(tok);
  }

  // ---------------------------------------------------------------------
  // accessor/hmac_token.go and accessor/rsa_token.go
  // ---------------------------------------------------------------------

  /**
   * The functions renewal calls that the repository does not define:
   * `IsExpiredError`, `GetClaimsWithUpdatedExpiry` (given the previous
   * token, the configured lifetimes and the clock), `GenerateTokenString`,
   * and `IsIdTokenClaimsSet(username)` with `GetIdTokenClaims(username)`
   * (the identity claims recorded for a user, if any).
   */
  datatype Callees = Callees(
    isExpiredError: Error -> bool,
    claimsWithUpdatedExpiry: (Option<Jwt.Token>, Option<Lifetimes>, Instant) -> Result<MapClaims>,
    generateTokenString: (JWTAccess, Payload, Key) -> Result<GoString>,
    idTokenClaimsFor: GoString -> Option<IdFields>)

  /** The lifetimes `opt` configures, `None` while its `Validity` is nil. */
  function LifetimesOf(opt: AuthOptions): Option<Lifetimes>
    reads opt, opt.validity
  {
    if opt.validity == null then None else Some(opt.validity.Get())
  }

  /**
   * The first three steps of both renewals: decode the handle ("failed to
   * decode token"), look up its record ("failed to get token info") and
   * refuse a record whose expiry is strictly before `now` ("refresh token
   * expired"), in that order. Yields the store key and its record.
   */
  function LookupRecord(s: TokenStore, refreshToken: GoString, now: Instant): (r: Result<(GoString, TokenInfo)>)
    reads s
    ensures Base64Url.Decode(refreshToken).Err? ==>
              r == Err(FailedToDecodeToken(Base64Url.Decode(refreshToken).error))
    ensures Base64Url.Decode(refreshToken).Ok? && s.GetTokenInfo(Base64Url.Decode(refreshToken).value).Err? ==>
              r == Err(FailedToGetTokenInfo(s.GetTokenInfo(Base64Url.Decode(refreshToken).value).error))
    ensures Base64Url.Decode(refreshToken).Ok? && s.GetTokenInfo(Base64Url.Decode(refreshToken).value).Ok?
            && s.GetTokenInfo(Base64Url.Decode(refreshToken).value).value.expiry < now ==>
              r == Err(RefreshTokenExpired)
    ensures r.Ok? ==>
              && Base64Url.Decode(refreshToken) == Ok(r.value.0)
              && s.GetTokenInfo(r.value.0) == Ok(r.value.1)
              && now <= r.value.1.expiry
  {
    match Base64Url.Decode(refreshToken)
    case Err(e) => Err(FailedToDecodeToken(e))
    case Ok(id) =>
      match s.GetTokenInfo(id)
      case Err(e) => Err(FailedToGetTokenInfo(e))
      case Ok(ti) =>
        if ti.expiry < now then Err(RefreshTokenExpired) else Ok((id, ti))
  }

  /**
   * A handle minted by `GenerateRefreshToken` leads back to its record for
   * as long as the record is in the store, the store answers lookups, and
   * its expiry is not strictly past; once it is past, the handle is
   * refused as expired.
   */
  lemma HandleFindsRecord(s: TokenStore, id: GoString, now: Instant)
    requires id in s.infos && GetOp !in s.faults
    ensures now <= s.infos[id].expiry ==> LookupRecord(s, Base64Url.Encode(id), now) == Ok((id, s.infos[id]))
    ensures s.infos[id].expiry < now ==> LookupRecord(s, Base64Url.Encode(id), now) == Err(RefreshTokenExpired)
  {
    Base64Url.RoundTrip(id);
  }

  /** A record stored at `issued` with a non-negative lifetime is accepted exactly up to `issued` plus the lifetime. */
  lemma RecordAcceptedUntilLifetime(id: GoString, accessToken: GoString, refreshExpiresIn: int, issued: Instant, now: Instant)
    requires refreshExpiresIn >= 0
    ensures var ti := RefreshRecord(id, accessToken, refreshExpiresIn, issued);
            !(ti.expiry < now) <==> now - issued <= refreshExpiresIn * NanosPerSecond
    ensures !(RefreshRecord(id, accessToken, refreshExpiresIn, issued).expiry < issued)
  {
  }

  /**
   * The outcome of re-verifying the previous access token: any error
   * other than an expiry error is returned as it is; otherwise the parsed
   * token, if any, goes on to the claims update.
   */
  function PreviousToken(p: ParseResult, isExpiredError: Error -> bool): (r: Result<Option<Jwt.Token>>)
    ensures p.err.Some? && !isExpiredError(p.err.value) ==> r == Err(p.err.value)
    ensures r.Ok? <==> p.err.None? || isExpiredError(p.err.value)
    ensures r.Ok? ==> r.value == p.token
  {
    match p.err
    case Some(e) => if isExpiredError(e) then Ok(p.token) else Err(e)
    case None => Ok(p.token)
  }

  /** `claims["exp"].(int64)`: the expiry claim, which must be an integer (otherwise the type assertion panics). */
  function ExpClaim(claims: MapClaims): (r: Result<int>)
    ensures r.Ok? <==> Ascii("exp") in claims && claims[Ascii("exp")].IntClaim?
    ensures r.Ok? ==> claims[Ascii("exp")] == IntClaim(r.value)
    ensures r.Err? ==> r.error == Panicked(Ascii("exp"))
  {
    if Ascii("exp") in claims && claims[Ascii("exp")].IntClaim? then Ok(claims[Ascii("exp")].i)
    else Err(Panicked(Ascii("exp")))
  }

  /** `claims["sub"].(string)`: the user the claims are about, which must be a string. */
  function Subject(claims: MapClaims): (r: Result<GoString>)
    ensures r.Ok? <==> Ascii("sub") in claims && claims[Ascii("sub")].StringClaim?
    ensures r.Ok? ==> claims[Ascii("sub")] == StringClaim(r.value)
    ensures r.Err? ==> r.error == Panicked(Ascii("sub"))
  {
    if Ascii("sub") in claims && claims[Ascii("sub")].StringClaim? then Ok(claims[Ascii("sub")].s)
    else Err(Panicked(Ascii("sub")))
  }

  /**
   * The re-signing both renewals end with: sign the updated claims with
   * `key`, answer a "Bearer" token that expires at the claims' `exp` and
   * carries no refresh handle, and add an identity token, signed with
   * `idKey`, exactly when identity claims are recorded for the claims'
   * subject. Any failure aborts with no token.
   */
  function Resign(cs: Callees, a: JWTAccess, claims: MapClaims, key: Key, idKey: Key): (r: Result<Token>)
    ensures cs.generateTokenString(a, MapPayload(claims), key).Err? ==>
              r == Err(cs.generateTokenString(a, MapPayload(claims), key).error)
    ensures r.Ok? <==>
              && cs.generateTokenString(a, MapPayload(claims), key).Ok?
              && ExpClaim(claims).Ok?
              && Subject(claims).Ok?
              && (cs.idTokenClaimsFor(Subject(claims).value).Some? ==>
                    cs.generateTokenString(a, IdPayload(cs.idTokenClaimsFor(Subject(claims).value).value), idKey).Ok?)
    ensures r.Ok? ==>
              && cs.generateTokenString(a, MapPayload(claims), key) == Ok(r.value.accessToken)
              && r.value.tokenType == Bearer()
              && r.value.refreshToken == []
              && Ascii("exp") in claims && claims[Ascii("exp")] == IntClaim(r.value.expiresIn)
              && Ascii("sub") in claims && claims[Ascii("sub")].StringClaim?
              && var idc := cs.idTokenClaimsFor(claims[Ascii("sub")].s);
              && (idc.None? ==> r.value.idToken == [])
              && (idc.Some? ==> cs.generateTokenString(a, IdPayload(idc.value), idKey) == Ok(r.value.idToken))
  {
    match cs.generateTokenString(a, MapPayload(claims), key)
    case Err(e) => Err(e)
    case Ok(accessToken) =>
      match ExpClaim(claims)
      case Err(e) => Err(e)
      case Ok(exp) =>
        var t := Token.Token(accessToken, Bearer(), [], [], exp);
        match Subject(claims)
        case Err(e) => Err(e)
        case Ok(username) =>
          match cs.idTokenClaimsFor(username)
          case None => Ok(t)
          case Some(idClaims) =>
            match cs.generateTokenString(a, IdPayload(idClaims), idKey)
            case Err(e) => Err(e)
            case Ok(idToken) => Ok(t.(idToken := idToken))
  }

  /**
   * HS renewal after the record was found: re-verify the previous access
   * token with the HMAC secret `signingKey`, of which only an expiry
   * failure is tolerated; rebuild the claims; resolve the accessor's key
   * and re-sign, the identity token with the same key.
   */
  function ReissueHS(lib: Library, cs: Callees, h: HS256Access, prevAccessToken: GoString, signingKey: GoString,
                     lifetimes: Option<Lifetimes>, now: Instant): (r: Result<Token>)
    ensures var prev := PreviousToken(Verifier.ParseHSToken(lib, prevAccessToken, signingKey, now), cs.isExpiredError);
            && (prev.Err? ==> r == Err(prev.error))
            && (prev.Ok? && cs.claimsWithUpdatedExpiry(prev.value, lifetimes, now).Err? ==>
                  r == Err(cs.claimsWithUpdatedExpiry(prev.value, lifetimes, now).error))
    ensures r.Ok? ==>
              var prev := PreviousToken(Verifier.ParseHSToken(lib, prevAccessToken, signingKey, now), cs.isExpiredError);
              && prev.Ok?
              && var claims := cs.claimsWithUpdatedExpiry(prev.value, lifetimes, now);
              && claims.Ok?
              && GetParsedSigningKey(lib, HS(h)).Ok?
              && var key := GetParsedSigningKey(lib, HS(h)).value;
              && r == Resign(cs, HS(h), claims.value, key, key)
    ensures var prev := PreviousToken(Verifier.ParseHSToken(lib, prevAccessToken, signingKey, now), cs.isExpiredError);
            prev.Ok? && cs.claimsWithUpdatedExpiry(prev.value, lifetimes, now).Ok? ==>
              var claims := cs.claimsWithUpdatedExpiry(prev.value, lifetimes, now).value;
              r == (match GetParsedSigningKey(lib, HS(h))
                    case Err(e) => Err(e)
                    case Ok(key) => Resign(cs, HS(h), claims, key, key))
  {
    match PreviousToken(Verifier.ParseHSToken(lib, prevAccessToken, signingKey, now), cs.isExpiredError)
    case Err(e) => Err(e)
    case Ok(token) =>
      match cs.claimsWithUpdatedExpiry(token, lifetimes, now)
      case Err(e) => Err(e)
      case Ok(accessClaims) =>
        match GetParsedSigningKey(lib, HS(h))
        case Err(e) => Err(e)
        case Ok(key) => Resign(cs, HS(h), accessClaims, key, key)
  }

  /**
   * `HS256Access.RenewToken` with `signingKey` the HMAC secret. It has no
   * `modifies` clause: HS renewal never writes the store.
   */
  method HSRenewToken(lib: Library, cs: Callees, h: HS256Access, refreshToken: GoString, signingKey: GoString,
                      opt: AuthOptions, now: Instant)
    returns (r: Result<Token>)
    requires opt.store != null
    ensures var look := LookupRecord(opt.store, refreshToken, now);
            && (look.Err? ==> r == Err(look.error))
            && (look.Ok? ==> r == ReissueHS(lib, cs, h, look.value.1.accessToken, signingKey, LifetimesOf(opt), now))
    ensures r.Ok? ==> r.value.tokenType == Bearer() && r.value.refreshToken == []
  {
    var look := LookupRecord(opt.store, refreshToken, now);
    if look.Err? {
      return Err(look.error);
    }
    var tokenInfo := look.value.1;
    r := ReissueHS(lib, cs, h, tokenInfo.accessToken, signingKey, LifetimesOf(opt), now);
  }

  /**
   * RS renewal after the record was found: load the public key from the
   * PEM file at `signingKey` before anything else, re-verify the previous
   * access token with it (only an expiry failure is tolerated), rebuild
   * the claims, resolve the accessor's private key and re-sign; the
   * identity token is signed with the bytes of `signingKey` itself.
   */
  function ReissueRS(lib: Library, fs: Manager.FileSystem, cs: Callees, a: RS256Access, prevAccessToken: GoString,
                     signingKey: GoString, lifetimes: Option<Lifetimes>, now: Instant): (r: Result<Token>)
    ensures var pub := Verifier.LoadRSAPublicKeyFromFile(lib, fs, signingKey);
            && (pub.Err? ==> r == Err(pub.error))
            && (pub.Ok? ==>
                  var prev := PreviousToken(Verifier.ParseRSToken(lib, prevAccessToken, pub.value, now), cs.isExpiredError);
                  && (prev.Err? ==> r == Err(prev.error))
                  && (prev.Ok? && cs.claimsWithUpdatedExpiry(prev.value, lifetimes, now).Err? ==>
                        r == Err(cs.claimsWithUpdatedExpiry(prev.value, lifetimes, now).error)))
    ensures r.Ok? ==>
              && Verifier.LoadRSAPublicKeyFromFile(lib, fs, signingKey).Ok?
              && var pub := Verifier.LoadRSAPublicKeyFromFile(lib, fs, signingKey).value;
              && var prev := PreviousToken(Verifier.ParseRSToken(lib, prevAccessToken, pub, now), cs.isExpiredError);
              && prev.Ok?
              && var claims := cs.claimsWithUpdatedExpiry(prev.value, lifetimes, now);
              && claims.Ok?
              && GetParsedSigningKey(lib, RS(a)).Ok?
              && r == Resign(cs, RS(a), claims.value, GetParsedSigningKey(lib, RS(a)).value, SecretKey(signingKey))
    ensures var pub := Verifier.LoadRSAPublicKeyFromFile(lib, fs, signingKey);
            pub.Ok? ==>
              var prev := PreviousToken(Verifier.ParseRSToken(lib, prevAccessToken, pub.value, now), cs.isExpiredError);
              prev.Ok? && cs.claimsWithUpdatedExpiry(prev.value, lifetimes, now).Ok? ==>
                var claims := cs.claimsWithUpdatedExpiry(prev.value, lifetimes, now).value;
                r == (match GetParsedSigningKey(lib, RS(a))
                      case Err(e) => Err(e)
                      case Ok(key) => Resign(cs, RS(a), claims, key, SecretKey(signingKey)))
  {
    match Verifier.LoadRSAPublicKeyFromFile(lib, fs, signingKey)
    case Err(e) => Err(e)
    case Ok(publicKey) =>
      match PreviousToken(Verifier.ParseRSToken(lib, prevAccessToken, publicKey, now), cs.isExpiredError)
      case Err(e) => Err(e)
      case Ok(token) =>
        match cs.claimsWithUpdatedExpiry(token, lifetimes, now)
        case Err(e) => Err(e)
        case Ok(accessClaims) =>
          match GetParsedSigningKey(lib, RS(a))
          case Err(e) => Err(e)
          case Ok(key) => Resign(cs, RS(a), accessClaims, key, SecretKey(signingKey))
  }

  /**
   * `RS256Access.RenewToken` with `signingKey` the path of the PEM public
   * key, read from `fs`. On success the record under the decoded handle
   * gets the new access token and the identity token ("" when there is
   * none), keeping its expiry; every failure leaves the store unchanged.
   */
  method RSRenewToken(lib: Library, fs: Manager.FileSystem, cs: Callees, a: RS256Access, refreshToken: GoString,
                      signingKey: GoString, opt: AuthOptions, now: Instant)
    returns (r: Result<Token>)
    requires opt.store != null && opt.store.Valid()
    modifies opt.store
    ensures opt.store.Valid() && opt.store.faults == old(opt.store.faults)
    ensures var look := old(LookupRecord(opt.store, refreshToken, now));
            look.Err? ==> r == Err(look.error)
    ensures var look := old(LookupRecord(opt.store, refreshToken, now));
            look.Ok? ==>
              var t := ReissueRS(lib, fs, cs, a, look.value.1.accessToken, signingKey, LifetimesOf(opt), now);
              && (t.Err? ==> r == Err(t.error))
              && (t.Ok? && UpdateOp in opt.store.faults ==> r == Err(StoreUnavailable))
              && (t.Ok? && UpdateOp !in opt.store.faults ==>
                    && r == t
                    && opt.store.infos == old(opt.store.infos)[look.value.0 := look.value.1.(accessToken := t.value.accessToken)]
                    && opt.store.idTokens == old(opt.store.idTokens)[look.value.0 := t.value.idToken])
    ensures r.Err? ==> opt.store.infos == old(opt.store.infos) && opt.store.idTokens == old(opt.store.idTokens)
    ensures r.Ok? ==> r.value.tokenType == Bearer() && r.value.refreshToken == []
  {
    var look := LookupRecord(opt.store, refreshToken, now);
    if look.Err? {
      return Err(look.error);
    }
    var id, tokenInfo := look.value.0, look.value.1;
    var t := ReissueRS(lib, fs, cs, a, tokenInfo.accessToken, signingKey, LifetimesOf(opt), now);
    if t.Err? {
      return Err(t.error);
    }
    var err := opt.store.UpdateTokenInfo(id, t.value.accessToken, t.value.idToken);
    if err.Some? {
      return Err(err.value);
    }
    return t;
  }

  /**
   * `NewHS256Access`: the manager's error when it lacks `kid`; otherwise
   * an accessor whose getters give `kid`, the secret's bytes and HS256.
   */
  function NewHS256Access(kid: GoString, m: Manager.HSKeyManager): (r: Result<HS256Access>)
    reads m
    ensures r.Ok? <==> kid in m.keys
    ensures r.Ok? ==>
              && HS(r.value).GetSignedKeyID() == kid
              && HS(r.value).GetSignedKey() == m.keys[kid]
              && HS(r.value).GetSigningMethod() == HS256
    ensures r.Err? ==> r.error == KeyDoesNotExist
  {
    match m.GetKey(kid)
    case Err(e) => Err(e)
    case Ok(key) => Ok(HS256Access(kid, key, HS256))
  }

  /**
   * `NewRS256Access`: the manager's error when it lacks `kid` or cannot
   * read its file; otherwise an accessor whose getters give `kid`, the
   * file's contents and RS256.
   */
  function NewRS256Access(kid: GoString, m: Manager.RSKeyManager, fs: Manager.FileSystem): (r: Result<RS256Access>)
    reads m
    ensures r.Ok? <==> m.GetKey(kid, fs).Ok?
    ensures r.Ok? ==>
              && RS(r.value).GetSignedKeyID() == kid
              && RS(r.value).GetSignedKey() == m.GetKey(kid, fs).value
              && RS(r.value).GetSigningMethod() == RS256
    ensures r.Err? ==> r.error == m.GetKey(kid, fs).error
  {
    match m.GetKey(kid, fs)
    case Err(e) => Err(e)
    case Ok(key) => Ok(RS256Access(kid, key, RS256))
  }

  /**
   * The key an HS256 accessor signs with is its secret, unchanged; the
   * key an RS256 accessor signs with is its file parsed as a PEM private
   * key, or "error parsing RSA key".
   */
  lemma NewAccessSigningKey(lib: Library, kid: GoString, hm: Manager.HSKeyManager, rm: Manager.RSKeyManager, fs: Manager.FileSystem)
    ensures NewHS256Access(kid, hm).Ok? ==>
              GetParsedSigningKey(lib, HS(NewHS256Access(kid, hm).value)) == Ok(SecretKey(hm.keys[kid]))
    ensures NewRS256Access(kid, rm, fs).Ok? ==>
              var pem := rm.GetKey(kid, fs).value;
              GetParsedSigningKey(lib, RS(NewRS256Access(kid, rm, fs).value))
              == match lib.parseRsaPrivateKeyFromPem(pem)
                 case Ok(k) => Ok(PrivateRsa(k))
                 case Err(e) => Err(ErrorParsingRsaKey(e))
  {
  }
}
