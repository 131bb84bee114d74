/**
 * The key registries of manager/: `HSKeyManager` maps a key id to an
 * HMAC secret, `RSKeyManager` maps a key id to the path of a PEM file
 * that is read on every lookup. The file system is a parameter mapping
 * each readable path to its contents.
 */
module Manager {
  import opened Prelude

  /** A read-only view of the file system: the readable paths and their contents. */
  type FileSystem = map<GoString, Bytes>

  /** `os.ReadFile`: the contents of the file, or a not-found error. */
  function ReadFile(fs: FileSystem, path: GoString): (r: Result<Bytes>)
    ensures r.Ok? <==> path in fs
    ensures r.Ok? ==> r.value == fs[path]
    ensures r.Err? ==> r.error == FileNotFound(path)
  {
    if path in fs then Ok(fs[path]) else Err(FileNotFound(path))
  }

  /** manager/hmac_key_manager.go. */
  class HSKeyManager {
    var keys: map<GoString, GoString>

    /** `NewHSKeyManager`: no keys. */
    constructor ()
      ensures keys == map[]
      ensures forall kid :: GetKey(kid) == Err(KeyDoesNotExist)
    {
      keys := map[];
    }

    /** `AddKey`: registers or replaces the secret of `kid`; every other kid keeps its secret. */
    method AddKey(kid: GoString, secret: GoString)
      modifies this
      ensures keys == old(keys)[kid := secret]
      ensures GetKey(kid) == Ok(secret)
      ensures forall k :: k != kid ==> GetKey(k) == old(GetKey(k))
    {
      keys := keys[kid := secret];
    }

    /** `GetKey`: the bytes of the registered secret, or "key does not exist". */
    function GetKey(kid: GoString): (r: Result<Bytes>)
      reads this
      ensures r.Ok? <==> kid in keys
      ensures r.Ok? ==> r.value == keys[kid]
      ensures r.Err? ==> r.error == KeyDoesNotExist
    {
      if kid in keys then Ok(keys[kid]) else Err(KeyDoesNotExist)
    }
  }

  /** manager/rsa_key_manager.go. */
  class RSKeyManager {
    var keys: map<GoString, GoString>

    /** `NewRSKeyManager`: no paths. */
    constructor ()
      ensures keys == map[]
      ensures forall kid, fs :: GetKey(kid, fs) == Err(KeyDoesNotExist)
    {
      keys := map[];
    }

    /** `AddKey`: registers or replaces the path of `kid`; every other kid keeps its path. */
    method AddKey(kid: GoString, path: GoString)
      modifies this
      ensures keys == old(keys)[kid := path]
      ensures forall fs :: GetKey(kid, fs) == if path in fs then Ok(fs[path]) else Err(ErrorOpeningFile(FileNotFound(path)))
      ensures forall k, fs :: k != kid ==> GetKey(k, fs) == old(GetKey(k, fs))
    {
      keys := keys[kid := path];
    }

    /**
     * `GetKey`: an unregistered kid is "key does not exist" whatever the
     * file system holds; otherwise the contents of the registered file, or
     * "error opening file" wrapping the read error.
     */
    function GetKey(kid: GoString, fs: FileSystem): (r: Result<Bytes>)
      reads this
      ensures kid !in keys ==> r == Err(KeyDoesNotExist)
      ensures kid in keys ==> match ReadFile(fs, keys[kid])
                              case Ok(b) => r == Ok(b)
                              case Err(e) => r == Err(ErrorOpeningFile(e))
    {
      if kid !in keys then Err(KeyDoesNotExist)
      else
        match ReadFile(fs, keys[kid])
        case Err(e) => Err(ErrorOpeningFile(e))
        case Ok(b) => Ok(b)
    }
  }
}
