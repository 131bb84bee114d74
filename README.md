# oauth2jwtgen token engine, modelled in Dafny

This project models the token issuance and renewal engine of the Go
library `oauth2jwtgen`, an OAuth 2.0 resource-owner password credentials
server that issues JSON Web Tokens. The model covers the following parts.

- **Accessors** (`Accessor`). An HS256 or RS256 accessor names a key id, key
  material and a signing method.
  - `NewToken` resolves the signing key by the `alg` prefix of the method.
    It signs the access token and, when identity claims are given, the
    identity token. Each token carries the accessor's key id in its `kid`
    header.
  - When the refresh lifetime is not zero, `NewToken` also mints a refresh
    handle. The handle is the base64url encoding of a name-based SHA-1 UUID
    of the access token, and the renewal record
    `{ResourceOwnerId, AccessToken, Expiry}` is stored under that UUID.
  - `RenewToken` (one per accessor) does these steps, in order, with an
    early exit at each. It decodes the handle and looks up the record. It
    refuses a record that expired strictly before now. It re-verifies the
    previous access token, tolerating only an expiry failure. Then it
    rebuilds the claims and re-signs them. Only the RS256 variant writes the
    store afterwards.
- **Verifiers** (`Verifier`). The HS and RS parsers give golang-jwt a key
  callback that admits only tokens of their own algorithm family, which
  guards against algorithm confusion.
  - `VerifyHSToken` and `VerifyRSToken` return claims only for a token that
    parsed without error and is valid.
  - `LoadRSAPublicKeyFromFile` chains the file read, the PEM block check, the
    PKIX parse and the RSA type check.
- **Stores and key registries** (`Store`, `Manager`).
  - The in-memory token store is a map keyed by resource-owner id. While its
    map is nil it reads as empty, and a write to a nil map panics.
  - `TokenStore` is the store as the accessors use it. It adds the lookup
    and update operations the accessors call, and a set of operations the
    backend currently fails, which stands for a durable backend's I/O errors.
  - The HS key manager maps key ids to secrets. The RS key manager maps key
    ids to PEM file paths and reads the file on each lookup.
- **Claims** (`Claims`, and the claims part of `Accessor`). Claims are built
  with `exp = iat + lifetime`. The access-token validity test is a strict
  `exp < now`. `MapClaims` copies the access claims into the identity claims
  in place.
- **Configuration** (`Options`, `Server`).
  - The lifetime defaults are 600 s for access tokens and 3600 s for refresh
    tokens. A cookie's zero `MaxAge` falls back to the matching lifetime.
  - `NewOAuthServer` defaults and validates its options.
  - The password handler has a grant-type gate and a key-manager dispatch.

Go strings and byte slices are both `seq<Byte>`, so `[]byte(s)` and
`string(b)` are the identity. An instant is a number of nanoseconds since
the Unix epoch. The clock reading `now` is a parameter of every operation
that reads the clock.

### Library functions and undefined callees

Third-party code is held in the record `External.Library` as uninterpreted
functions:
- golang-jwt's signer, token splitter, signature verifier and claims check;
- `jwt.ParseRSAPrivateKeyFromPEM`, `pem.Decode` and `x509.ParsePKIXPublicKey`;
- `uuid.NewSHA1`.

`External.Parse` models the control flow of golang-jwt's `jwt.Parse` over
these functions.

Base64url with padding is modelled concretely in `Base64Url`. This is Go's
`base64.URLEncoding`: the alphabet of section 5 of RFC 4648, with a
non-strict decoder that skips `\r` and `\n`.

The file system is a map from path to contents. The random namespace
`uuid.New()` is a parameter.

Some functions are called by the repository but defined nowhere in it. They
are parameters of the model:
- `IsExpiredError`, `GetClaimsWithUpdatedExpiry` and `GenerateTokenString`;
- the one-argument `IsIdTokenClaimsSet(username)` and
  `GetIdTokenClaims(username)`;
- `CookieOptions.MapFrom`, `claims.GenerateClaims` and the accessors'
  `GetExpiresIn`.

The first two groups are gathered in `Accessor.Callees`.

### Behaviour of the code worth noting

- **Refresh expiry.** Renewal fails only when the record's expiry is
  strictly before now. A record whose expiry equals now is still renewed.
- **Handle padding.** The refresh handle uses the padded base64url alphabet
  (`base64.URLEncoding`).
- **Handle derivation.** The UUID namespace is fresh and random on every
  issue, so two issues of the same access token give different handles.
- **Renewal record.** The record stored at issuance holds no identity token.
- **Renewal response.** A renewed token carries no refresh handle. Its
  `ExpiresIn` is the absolute `exp` claim of the new claims.
- **Interface names.** `JWTAccess` asks for `GetSignedKeyID` and
  `GetSignedKey`, but the accessors define `GetSigningKeyID` and
  `GetSigningKey`. The model reads the interface getters as the accessors'
  own getters.
- **RS256 identity token.** The RS256 renewal signs the identity token with
  the bytes of its `signingKey` argument, which is the public-key path.

### Panics

- Nil dereferences and writes to nil maps become `requires` clauses.
- A failed type assertion on a claim (`accessClaims["exp"].(int64)`,
  `accessClaims["sub"].(string)`) becomes the error value `Panicked`.

## Model

| member | source | states |
|---|---|---|
| `Base64Url.Encode` | accessor/jwt_token.go:108 | the handle encoding has length 4·⌈n/3⌉ and uses only the URL-safe alphabet and '=' |
| `Base64Url.RoundTrip` | accessor/jwt_token.go:108 | decoding the encoding of any byte string gives back exactly that string |
| `Jwt.AlgPrefixFamily` | accessor/jwt_token.go:73-81 | an `alg` name starts with "RS" exactly for the RSA PKCS#1 methods and with "HS" exactly for the HMAC methods |
| `External.NewWithClaims` | accessor/jwt_token.go:87 | a new token has the method's `alg`, type "JWT", no `kid` and the given claims |
| `External.Parse` | verifier/hmac_verifier.go:23-29 | a parse without error has a fully decoded token, marked valid, whose key came from the callback and whose signature verified; a token that comes with an error is never valid; a callback error is an `Unverifiable` validation error wrapping it; a partly decoded token is passed on with its decoding error; a token comes back exactly when the string splits into three segments |
| `Claims.JWTIdClaims.constructor` | claims/claims.go:20-31 | a new identity claim set has every field zero |
| `Claims.JWTIdClaims.MapClaims` | claims/claims.go:50-54 | afterwards standard claims, roles and scope are those of the access claims, and the seven profile attributes are unchanged |
| `Claims.Mapped` | claims/claims.go:50-54 | the mapped claims copy exactly the standard claims, roles and scope, and nothing else changes |
| `Claims.MappedIdempotent` | claims/claims.go:50-54 | mapping the same access claims twice equals mapping them once |
| `Claims.GenerateAccessClaims` | claims/claims.go:33-48 | `iat` is the Unix second of now, `exp - iat` is the lifetime, issuer, audience, subject, scope and roles are the inputs, and the rest is zero |
| `Claims.IssuedNoLaterThanExpiry` | claims/claims.go:34-42 | with a non-negative lifetime, `iat <= exp` |
| `Store.TokenStore.StoreToken` | store/store.go:11 | on success the record replaces any other under its resource-owner id and no other key changes; it fails exactly when the backend fails writes, and then nothing changes |
| `Store.TokenStore.GetTokenInfo` | accessor/hmac_token.go:55 | the record under the key when there is one and the backend answers; otherwise "token info not found" or the backend error |
| `Store.TokenStore.UpdateTokenInfo` | accessor/rsa_token.go:107 | replaces the access token and identity token of an existing record, keeps its id, owner and expiry; on failure nothing changes |
| `Store.MemoryTokenStore.constructor` | store/memory_store.go:9-12 | a zero store has a nil map |
| `Store.MemoryTokenStore.CreateStore` | store/memory_store.go:14-20 | the map becomes empty, discarding any records, so every lookup reports not found |
| `Store.MemoryTokenStore.StoreToken` | store/memory_store.go:22-28 | needs the map to exist; afterwards the lookup of the record's owner gives it back, and every other key's lookup is as before |
| `Store.MemoryTokenStore.GetTokenInfo` | store/memory_store.go:30-36 | the stored record (a value copy) exactly when the key is present; otherwise "token info not found"; it changes nothing |
| `Store.MemoryTokenStore.CloseConnection` | store/memory_store.go:38-44 | the map becomes nil, so every lookup reports not found |
| `Store.FaultFreeStoreIsMemoryStore` | store/memory_store.go:30-36 | a `TokenStore` without backend faults that holds a memory store's records (none for a nil map) answers every lookup exactly as the memory store does |
| `Manager.ReadFile` | manager/rsa_key_manager.go:33 | the file system's contents at the path, or a not-found error exactly when the path is absent |
| `Manager.HSKeyManager.constructor` | manager/hmac_key_manager.go:13-17 | a new manager holds no keys; every lookup says "key does not exist" |
| `Manager.HSKeyManager.AddKey` | manager/hmac_key_manager.go:19-23 | the lookup of the kid then gives the secret's bytes, and other kids are unchanged |
| `Manager.HSKeyManager.GetKey` | manager/hmac_key_manager.go:25-33 | the secret's bytes exactly when the kid is registered, else "key does not exist"; reads only |
| `Manager.RSKeyManager.constructor` | manager/rsa_key_manager.go:14-18 | a new manager holds no paths; every lookup says "key does not exist" |
| `Manager.RSKeyManager.AddKey` | manager/rsa_key_manager.go:20-24 | the lookup of the kid then reads the new path, and other kids are unchanged |
| `Manager.RSKeyManager.GetKey` | manager/rsa_key_manager.go:26-38 | an unregistered kid is "key does not exist" whatever the files; else the file's contents, or "error opening file" wrapping the read error |
| `Options.WithDefaultAccess` | options/validity.go:16-18 | the access lifetime becomes 600, the refresh lifetime stays |
| `Options.WithDefaultRefresh` | options/validity.go:20-22 | the refresh lifetime becomes 3600, the access lifetime stays |
| `Options.DefaultSettersIdempotent` | options/validity.go:16-22 | each default setter is idempotent and the two commute |
| `Options.Validity.constructor` | options/validity.go:3-6 | a zero validity has both lifetimes 0 |
| `Options.Validity.SetDefaultAccessExpiresIn` | options/validity.go:16-18 | the new lifetimes are the old ones with the access default set |
| `Options.Validity.SetDefaultRefreshExpiresIn` | options/validity.go:20-22 | the new lifetimes are the old ones with the refresh default set |
| `Options.CookieOptions.constructor` | options/cookie_options.go:5-12 | a zero cookie option set has every field zero and name "" |
| `Options.CookieOptions.SetName` | options/cookie_options.go:18-20 | `GetName` then gives the new name, and every other setting is as before |
| `Options.CookieOptions.MapFrom` | options/options.go:53 | the receiver's new settings are the mapping of its old ones and the argument's |
| `Options.CookieFor` | options/options.go:51-56 | a zero cookie with the given name, mapped from the caller's options, whose zero `MaxAge` is replaced by the lifetime |
| `Options.CookieMaxAgeNonZero` | options/options.go:54-56 | with a non-zero lifetime the cookie's `MaxAge` is never zero |
| `Options.ProfileOnly` | options/options.go:29-39 | the recorded identity claims keep exactly the seven profile attributes; standard claims, scope and roles are zero |
| `Options.ProfileThenMapped` | options/options.go:29-39 | mapping access claims over the recorded profile gives the same identity claims as mapping them over the original argument |
| `Options.AuthOptions.constructor` | options/options.go:24-26 | options built from a validity have no store, no identity claims and no cookies |
| `Options.AuthOptions.AddIdTokenClaims` | options/options.go:29-39 | records a fresh object, so later changes to the argument do not reach it, holding the profile of the argument; the claims are then set, and no other option changes |
| `Options.AuthOptions.SetRefreshTokenInCookie` | options/options.go:49-57 | sets the refresh flag and a fresh "refresh_token" cookie whose zero `MaxAge` becomes the refresh lifetime; the access cookie, validity, store and claims are unchanged |
| `Options.AuthOptions.SetAccessTokenInCookie` | options/options.go:59-67 | the same with "access_token" and the access lifetime; the refresh cookie is unchanged |
| `Options.DefaultAuthOptions` | options/options.go:19-27 | fresh options with lifetimes 600 and 3600, nil store, no identity claims and no cookies |
| `Verifier.HSKey` | verifier/hmac_verifier.go:23-28 | the callback admits exactly the HMAC methods, with key `[]byte(signingKey)`, and otherwise reports "unexpected signing method" with the token's `alg` |
| `Verifier.HSParseGuard` | verifier/hmac_verifier.go:22-30 | an accepted token is an HMAC token verified under the secret; a token of any other method is refused as unverifiable |
| `Verifier.ClaimsOfValid` | verifier/hmac_verifier.go:11-19 | claims exactly for a token that parsed without error and is valid; a parse error is wrapped as "error parsing token" |
| `Verifier.VerifyHSToken` | verifier/hmac_verifier.go:9-20 | never claims and an error together; claims only from an HMAC token whose signature verified under the secret; otherwise "error parsing token" or "invalid token or claim" |
| `Verifier.LoadRSAPublicKeyFromFile` | verifier/rsa_verifier.go:13-35 | a key exactly when the file exists, its first PEM block has type exactly "PUBLIC KEY", it parses as PKIX and the key is RSA; a read failure, a bad block, a PKIX parse failure and a non-RSA key each have their own error |
| `Verifier.RSKey` | verifier/rsa_verifier.go:55-60 | the callback admits exactly the RSA PKCS#1 methods, with the given public key |
| `Verifier.RSParseGuard` | verifier/rsa_verifier.go:54-62 | an accepted token is an RSA token verified under the public key; HMAC and every other method are refused |
| `Verifier.VerifyRSToken` | verifier/rsa_verifier.go:37-52 | a key-loading error is returned before the token is parsed; claims only from an RSA token verified under the loaded key |
| `Accessor.Valid` | accessor/claims.go:14-19 | "invalid access token" exactly when `exp` is strictly before now; `exp == now` is valid |
| `Accessor.ValidOnlyByExpiry` | accessor/claims.go:14-19 | validity depends only on the expiry |
| `Accessor.GenerateDefaultClaims` | accessor/claims.go:21-36 | issuer and audience are "http://localhost:8080", the subject is the input, and `exp = iat + a.GetExpiresIn()` |
| `Accessor.DefaultClaimsValidUntilExpiry` | accessor/claims.go:14-36 | default claims of any lifetime stay valid exactly up to their expiry second |
| `Accessor.DefaultClaimsValidWhenIssued` | accessor/claims.go:14-36 | default claims with a lifetime of at least one second are valid when issued |
| `Accessor.GetParsedSigningKey` | accessor/jwt_token.go:68-84 | RSA methods get the PEM-parsed private key or "error parsing RSA key"; HMAC methods get the key bytes unchanged; every other method gets a nil key and no error |
| `Accessor.Stamped` | accessor/jwt_token.go:87-88 | every token to be signed carries `kid` equal to the accessor's key id, the accessor's method and `alg`, and the given claims |
| `Accessor.GenerateAccessToken` | accessor/jwt_token.go:86-94 | the access claims signed with the `kid` header; a signer error becomes "failed to sign token" |
| `Accessor.GenerateIdToken` | accessor/jwt_token.go:96-104 | the identity claims signed with the `kid` header; a signer error becomes "failed to sign token" |
| `Accessor.RefreshRecord` | accessor/jwt_token.go:111-115 | the record's owner is the UUID, its access token is the given one, and its expiry is now plus the refresh lifetime |
| `Accessor.GenerateRefreshToken` | accessor/jwt_token.go:106-121 | stores the record under the UUID of the access token; the handle is its base64url encoding, so decoding the handle gives the store key; a store failure is "failed to store token" and stores nothing |
| `Accessor.NewToken` | accessor/jwt_token.go:31-66 | fails before anything else when the key does not resolve; a failed access- or identity-token signature returns that signer's "failed to sign token" error; success exactly when every signature and, for a non-zero refresh lifetime, the store succeed; a "Bearer" token with `ExpiresIn` the access lifetime, an identity token only with identity claims, and a handle and stored record exactly when the refresh lifetime is not zero; the store changes only on success |
| `Accessor.LookupRecord` | accessor/hmac_token.go:50-62 | decoding, lookup and the expiry test fail in that order with their own errors; success gives a decoded key whose record expires no earlier than now |
| `Accessor.HandleFindsRecord` | accessor/hmac_token.go:50-62 | a handle minted for a stored UUID leads back to its record until the expiry, and is refused as expired strictly after it |
| `Accessor.RecordAcceptedUntilLifetime` | accessor/jwt_token.go:114 | a record stored with a non-negative lifetime is accepted exactly while no more than that lifetime has passed |
| `Accessor.PreviousToken` | accessor/hmac_token.go:65-70 | a parse error other than an expiry error is returned as it is; otherwise the parsed token goes on |
| `Accessor.ExpClaim` | accessor/hmac_token.go:89 | the `exp` claim when it is an integer, else the type assertion panics |
| `Accessor.Subject` | accessor/hmac_token.go:92 | the `sub` claim when it is a string, else the type assertion panics |
| `Accessor.Resign` | accessor/hmac_token.go:81-104 | on success a "Bearer" token signed over the updated claims with `ExpiresIn` their `exp`, no refresh handle, and an identity token signed with the identity key exactly when identity claims are recorded for the subject |
| `Accessor.ReissueHS` | accessor/hmac_token.go:64-84 | a non-expiry verification error or a claims error aborts in that order; once both pass, the result is the accessor's key error or the re-signing with that key for both tokens |
| `Accessor.HSRenewToken` | accessor/hmac_token.go:49-105 | lookup failures come first, then the reissue; it writes nothing; a success is a "Bearer" token without refresh handle |
| `Accessor.ReissueRS` | accessor/rsa_token.go:63-88 | a public-key load failure aborts before the previous token is parsed; then as for HS: once verification and the claims update pass, the result is the private-key error or the re-signing, with the identity token signed with `[]byte(signingKey)` |
| `Accessor.RSRenewToken` | accessor/rsa_token.go:48-113 | lookup failures, then the reissue, then the store update; on success the record under the decoded handle gets the new access and identity tokens; every failure leaves the store unchanged |
| `Accessor.NewHS256Access` | accessor/hmac_token.go:22-47 | fails with the manager's error when the kid is missing; otherwise the getters give the kid, the secret's bytes and HS256 |
| `Accessor.NewRS256Access` | accessor/rsa_token.go:22-46 | passes on the manager's error; otherwise the getters give the kid, the file's contents and RS256 |
| `Accessor.NewAccessSigningKey` | accessor/jwt_token.go:68-84 | an HS256 accessor signs with its secret unchanged; an RS256 accessor signs with its file parsed as a PEM private key |
| `Server.OAuthServer.constructor` | server/ropc.go:33-37 | the server holds the given kid, manager and options |
| `Server.NewOAuthServer` | server/ropc.go:21-38 | nil options or a nil validity always end in "token store not specified"; a zero access lifetime in the caller's validity becomes 600, even on failure; success exactly with a store, holding the given kid, manager and options |
| `Server.GrantGate` | server/ropc.go:50-56 | only the grant type "password" passes; anything else is "invalid_grant" |
| `Server.SelectAccessor` | server/ropc.go:63-84 | an HS registry gives an HS256 accessor and an RS registry an RS256 accessor, each for the kid with its key material; registry errors pass through; any other manager is "invalid key manager" |
| `Server.PasswordGrant` | server/ropc.go:50-96 | a wrong grant type or a failed dispatch returns its error and leaves the store untouched; once both pass, a key or signing error is returned as it is and a token is issued exactly when the key resolves, the access token is signed and, for a non-zero refresh lifetime, the store accepts the record, which then sits under the handle's UUID; an issued token is a "Bearer" token over the generated claims with the access lifetime and no identity token |

The getters `Options.Validity.GetAccessExpiresIn` and
`Options.Validity.GetRefreshExpiresIn`, `Options.CookieOptions.GetName`,
`Options.AuthOptions.IsIdTokenClaimsSet` and
`Options.AuthOptions.GetIdTokenClaims` are functions that read their object.
Being functions, they cannot change it.

Some functions carry no contract of their own; the rows of other members
state what they do:
- `Verifier.ParseHSToken` (verifier/hmac_verifier.go:22-30) is stated by
  `Verifier.HSParseGuard`, and `Verifier.ParseRSToken`
  (verifier/rsa_verifier.go:54-62) by `Verifier.RSParseGuard`.
- `Base64Url.Decode`, which is `base64.URLEncoding.DecodeString` at
  accessor/hmac_token.go:50 and accessor/rsa_token.go:49, is stated by
  `Base64Url.RoundTrip` and `Accessor.HandleFindsRecord`.
- The accessor getters `Accessor.JWTAccess.GetSignedKeyID`,
  `Accessor.JWTAccess.GetSignedKey` and `Accessor.JWTAccess.GetSigningMethod`
  (accessor/hmac_token.go:37-47, accessor/rsa_token.go:36-46) are stated by
  `Accessor.NewHS256Access`, `Accessor.NewRS256Access` and
  `Server.SelectAccessor`.

## Left out

- HTTP plumbing of `server/ropc.go` is not modelled: form parsing, JSON encoding and status codes. The handler is modelled from the parsed form values on.
- The user callback `f(username, password, opt)` of the password handler is not modelled. It is treated as changing nothing the model sees.
- `example.go` and `main.go` (server wiring) are not modelled.
- `store/pg_store.go` is not modelled. SQL over a network pool is represented only by `Store.TokenStore`'s set of failing operations.
- The `sync.Mutex` locking in the store and the managers is not modelled; every operation is sequential. This includes the immediate unlock in `CloseConnection`.
- Cryptography, JWT splitting and claims checks, PEM and PKIX decoding, and UUID generation are uninterpreted functions of `External.Library`. Nothing is assumed about them beyond their types.
- `Base64Url.Decode` reports a corrupt input without Go's byte offset.
- 64-bit integers are unbounded: the overflow of `int64` times and durations is not modelled.
- Go's `time.Time` monotonic clock reading and time zones are not modelled. An instant is a single integer.
- `Store.TokenStore.UpdateTokenInfo` and `Store.TokenStore.GetTokenInfo`: the `TokenStore` interface declares neither, and no store in the repository defines `UpdateTokenInfo` (`MemoryTokenStore` defines only `GetTokenInfo`, modelled as `Store.MemoryTokenStore.GetTokenInfo`). Their contracts are the least the call sites rely on, plus a not-found error for an absent key.
- `IsExpiredError`, `GetClaimsWithUpdatedExpiry`, `GenerateTokenString`, `IsIdTokenClaimsSet(username)`/`GetIdTokenClaims(username)`, `CookieOptions.MapFrom`, `claims.GenerateClaims` and `GetExpiresIn` are defined nowhere in the repository. They are parameters, and no contract is assumed for them beyond their types.
- Every such callee is a pure function, so the model does not capture a callee that changes the options, the store or the key managers, as Go's could.
- `GetClaimsWithUpdatedExpiry(token, opt)` receives the whole options object in Go; its parameter `claimsWithUpdatedExpiry` sees only the lifetimes of `opt` (`Accessor.LifetimesOf`), not its store, cookies or identity claims.
- The debug print in the HS renewal is not modelled.
