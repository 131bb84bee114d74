/**
 * Shared vocabulary of the model: Go's byte strings, time instants,
 * the Option/Result wrappers and the error values the engine produces.
 */
module Prelude {

  /** A Go `byte`. */
  type Byte = b: int | 0 <= b < 256

  /** A Go `[]byte`. */
  type Bytes = seq<Byte>

  /**
   * A Go `string`, which is an immutable sequence of bytes. With this
   * choice the conversions `[]byte(s)` and `string(b)` are the identity.
   */
  type GoString = seq<Byte>

  /** The bytes of a string literal written in ASCII. */
  function Ascii(s: string): (r: GoString)
    ensures |r| == |s|
    ensures forall i :: 0 <= i < |s| ==> r[i] == s[i] as int % 256
  {
    seq(|s|, i requires 0 <= i < |s| => s[i] as int % 256)
  }

  /** Go's `strings.HasPrefix`. */
  predicate HasPrefix(s: GoString, prefix: GoString)
  {
    |prefix| <= |s| && s[..|prefix|] == prefix
  }

  /** A wall-clock instant, in nanoseconds since the Unix epoch. */
  type Instant = int

  const NanosPerSecond: int := 1_000_000_000

  /** Go's `t.Unix()`: the whole seconds of `t`, rounded down. */
  function Unix(t: Instant): (sec: int)
    ensures sec * NanosPerSecond <= t < (sec + 1) * NanosPerSecond
  {
    t / NanosPerSecond
  }

  /** Go's `t.Add(time.Duration(seconds) * time.Second)`. */
  function AddSeconds(t: Instant, seconds: int): (r: Instant)
    ensures r - t == seconds * NanosPerSecond
  {
    t + seconds * NanosPerSecond
  }

  datatype Option<+T> = None | Some(value: T)

  datatype Result<+T> = Ok(value: T) | Err(error: Error)

  /** The validation flags of golang-jwt's `ValidationError.Errors` bit mask. */
  datatype ValidationFlag =
    | Malformed
    | Unverifiable
    | SignatureInvalid
    | Audience
    | Expired
    | IssuedAt
    | Issuer
    | NotValidYet
    | Id
    | ClaimsInvalid

  /**
   * Every error value the modelled code returns. A constructor with a
   * `cause` stands for an error built with `fmt.Errorf("...: %w", cause)`
   * (or `%v`); `LibraryError` is an opaque error of a third-party library.
   */
  datatype Error =
    | LibraryError(code: GoString)
    // base64
    | CorruptInput
    // file system
    | FileNotFound(path: GoString)
    // manager
    | KeyDoesNotExist
    | ErrorOpeningFile(cause: Error)
    // store
    | TokenInfoNotFound
    | StoreUnavailable
    // golang-jwt
    | Validation(flags: set<ValidationFlag>, inner: Option<Error>)
    // verifier
    | UnexpectedSigningMethod(alg: GoString)
    | ErrorParsingToken(cause: Error)
    | InvalidTokenOrClaim
    | FailedToReadFile(cause: Error)
    | FailedToParsePemBlock
    | FailedToParsePublicKey(cause: Error)
    | NotAnRsaPublicKey
    // accessor
    | InvalidAccessToken
    | ErrorParsingRsaKey(cause: Error)
    | FailedToSignToken(cause: Error)
    | FailedToStoreToken(cause: Error)
    | FailedToDecodeToken(cause: Error)
    | FailedToGetTokenInfo(cause: Error)
    | RefreshTokenExpired
    | Panicked(reason: GoString)
    // server
    | TokenStoreNotSpecified
    | InvalidGrant
    | InvalidKeyManager
}
