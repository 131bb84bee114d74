/**
 * server/ropc.go: the resource-owner password credentials endpoint
 * (section 4.3 of RFC 6749). `NewOAuthServer` defaults and validates the
 * options; the handler admits only the "password" grant, picks the
 * accessor that matches the key manager's type, and issues a token.
 */
module Server {
  import opened Prelude
  import opened Claims
  import opened External
  import opened Store
  import opened Options
  import opened Accessor
  import Jwt
  import Manager
  import Base64Url

  /** A `manager.Manager` by dynamic type: the two registries, or some other implementation. */
  datatype KeyManager = HSManager(hs: Manager.HSKeyManager) | RSManager(rs: Manager.RSKeyManager) | OtherManager

  /** `server.OAuthServer`. */
  class OAuthServer {
    var kid: GoString
    var kmanager: KeyManager
    var options: AuthOptions

    constructor (kid: GoString, kmanager: KeyManager, options: AuthOptions)
      ensures this.kid == kid && this.kmanager == kmanager && this.options == options
    {
      this.kid := kid;
      this.kmanager := kmanager;
      this.options := options;
    }
  }

  /**
   * `NewOAuthServer`. Nil options, or options with a nil `Validity`, are
   * replaced by the defaults, which have no store, so the call then always
   * fails with "token store not specified". A zero access lifetime in the
   * caller's `Validity` is set to the default in place, even when the call
   * then fails. On success the server holds exactly the given kid, manager
   * and options.
   */
  method NewOAuthServer(kid: GoString, kmanager: KeyManager, opt: AuthOptions?) returns (r: Result<OAuthServer>)
    modifies if opt != null && opt.validity != null then {opt.validity} else {}
    ensures opt == null || opt.validity == null ==> r == Err(TokenStoreNotSpecified)
    ensures opt != null && opt.validity != null ==>
              opt.validity.Get() == if old(opt.validity.accessExpiresIn) == 0 then WithDefaultAccess(old(opt.validity.Get()))
                                    else old(opt.validity.Get())
    ensures r.Ok? <==> opt != null && opt.validity != null && opt.store != null
    ensures r.Ok? ==> fresh(r.value) && r.value.kid == kid && r.value.kmanager == kmanager && r.value.options == opt
    ensures r.Err? ==> r.error == TokenStoreNotSpecified
  {
    var o := opt;
    if o == null || o.validity == null {
      o := DefaultAuthOptions();
    }
    if o.validity.accessExpiresIn == 0 {
      o.validity.SetDefaultAccessExpiresIn();
    }
    if o.store == null {
      return Err(TokenStoreNotSpecified);
    }
    var s := new OAuthServer(kid, kmanager, o);
    return Ok(s);
  }

  /** The grant-type gate: only "password" passes; anything else is "invalid_grant". */
  function GrantGate(grantType: GoString): (r: Option<Error>)
    ensures r.None? <==> grantType == Ascii("password")
    ensures r.Some? ==> r.value == InvalidGrant
  {
    if grantType != Ascii("password") then Some(InvalidGrant) else None
  }

  /** The objects a key manager's lookups read. */
  function ManagerObjects(km: KeyManager): set<object>
  {
    match km
    case HSManager(m) => {m}
    case RSManager(m) => {m}
    case OtherManager => {}
  }

  /**
   * The key-manager dispatch: an HS registry gives an HS256 accessor, an
   * RS registry an RS256 accessor, each for `kid` with the registered key
   * material; a registry error is passed on; any other manager is
   * "invalid key manager".
   */
  function SelectAccessor(kid: GoString, km: KeyManager, fs: Manager.FileSystem): (r: Result<JWTAccess>)
    reads ManagerObjects(km)
    ensures km.OtherManager? ==> r == Err(InvalidKeyManager)
    ensures r.Ok? ==> (r.value.HS? <==> km.HSManager?) && (r.value.RS? <==> km.RSManager?)
    ensures r.Ok? ==> r.value.GetSignedKeyID() == kid
    ensures km.HSManager? ==> (r.Ok? <==> kid in km.hs.keys) && (r.Err? ==> r.error == KeyDoesNotExist)
    ensures km.HSManager? && r.Ok? ==> r.value.GetSignedKey() == km.hs.keys[kid] && r.value.GetSigningMethod() == Jwt.HS256
    ensures km.RSManager? ==> (r.Ok? <==> km.rs.GetKey(kid, fs).Ok?) && (r.Err? ==> r.error == km.rs.GetKey(kid, fs).error)
    ensures km.RSManager? && r.Ok? ==>
              r.value.GetSignedKey() == km.rs.GetKey(kid, fs).value && r.value.GetSigningMethod() == Jwt.RS256
  {
    match km
    case HSManager(m) =>
      (match NewHS256Access(kid, m)
       case Err(e) => Err(e)
       case Ok(h) => Ok(HS(h)))
    case RSManager(m) =>
      (match NewRS256Access(kid, m, fs)
       case Err(e) => Err(e)
       case Ok(a) => Ok(RS(a)))
    case OtherManager => Err(InvalidKeyManager)
  }

  /** `claims.GenerateClaims`, which the repository calls but does not define. */
  type GenerateClaimsFn = (GoString, GoString, GoString, GoString, int) -> JWTAccessClaims

  /**
   * The handler of `ResourceOwnerPasswordCredential` after the form is
   * parsed: `grantType`, `username`, `clientId` and `scope` are its form
   * values and `host` the request's host. The grant gate and the manager
   * dispatch come first and leave the store untouched; then the access
   * claims for the user are generated and a token without identity
   * claims is issued.
   */
  method PasswordGrant(o: OAuthServer, lib: Library, fs: Manager.FileSystem, generateClaims: GenerateClaimsFn,
                       namespace: Bytes, grantType: GoString, username: GoString, clientId: GoString, scope: GoString,
                       host: GoString, now: Instant)
    returns (r: Result<Accessor.Token>)
    requires o.options.validity != null
    requires o.options.validity.refreshExpiresIn != 0 ==> o.options.store != null && o.options.store.Valid()
    modifies o.options.store
    ensures GrantGate(grantType).Some? ==> r == Err(InvalidGrant)
    ensures GrantGate(grantType).None? && SelectAccessor(o.kid, o.kmanager, fs).Err? ==>
              r == Err(SelectAccessor(o.kid, o.kmanager, fs).error)
    ensures r.Ok? ==>
              && grantType == Ascii("password")
              && SelectAccessor(o.kid, o.kmanager, fs).Ok?
              && var a := SelectAccessor(o.kid, o.kmanager, fs).value;
              && GetParsedSigningKey(lib, a).Ok?
              && var c := generateClaims(username, host, clientId, scope, o.options.validity.accessExpiresIn);
              && GenerateAccessToken(lib, a, c, GetParsedSigningKey(lib, a).value) == Ok(r.value.accessToken)
              && r.value.tokenType == Bearer()
              && r.value.expiresIn == o.options.validity.accessExpiresIn
              && r.value.idToken == []
    ensures grantType == Ascii("password") && SelectAccessor(o.kid, o.kmanager, fs).Ok? ==>
              var a := SelectAccessor(o.kid, o.kmanager, fs).value;
              var c := generateClaims(username, host, clientId, scope, o.options.validity.accessExpiresIn);
              && (GetParsedSigningKey(lib, a).Err? ==> r == Err(GetParsedSigningKey(lib, a).error))
              && (GetParsedSigningKey(lib, a).Ok? && GenerateAccessToken(lib, a, c, GetParsedSigningKey(lib, a).value).Err? ==>
                    r == Err(GenerateAccessToken(lib, a, c, GetParsedSigningKey(lib, a).value).error))
              && (r.Ok? <==>
                    && GetParsedSigningKey(lib, a).Ok?
                    && GenerateAccessToken(lib, a, c, GetParsedSigningKey(lib, a).value).Ok?
                    && (o.options.validity.refreshExpiresIn != 0 ==> StoreOp !in o.options.store.faults))
    ensures r.Ok? && o.options.validity.refreshExpiresIn != 0 ==>
              var id := lib.newSha1Uuid(namespace, r.value.accessToken);
              && r.value.refreshToken == Base64Url.Encode(id)
              && o.options.store.infos
                 == old(o.options.store.infos)[id := RefreshRecord(id, r.value.accessToken, o.options.validity.refreshExpiresIn, now)]
    ensures o.options.store != null && (GrantGate(grantType).Some? || SelectAccessor(o.kid, o.kmanager, fs).Err? || r.Err?) ==>
              o.options.store.infos == old(o.options.store.infos)
  {
    var gate := GrantGate(grantType);
    if gate.Some? {
      return Err(gate.value);
    }
    var access := SelectAccessor(o.kid, o.kmanager, fs);
    if access.Err? {
      return Err(access.error);
    }
    var accessClaims := generateClaims(username, host, clientId, scope, o.options.validity.accessExpiresIn);
    var claims := JWTClaims(accessClaims, null);
    ghost var before := SelectAccessor(o.kid, o.kmanager, fs);
    r := NewToken(lib, namespace, access.value, claims, o.options, now);
    assert SelectAccessor(o.kid, o.kmanager, fs) == before == access;
  }
}
