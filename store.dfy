/**
 * The token store: the renewal record `TokenInfo` of store/store.go, the
 * store capability the accessors call through `opt.Store`, and the
 * in-memory implementation of store/memory_store.go.
 */
module Store {
  import opened Prelude

  /** `store.TokenInfo`: one renewal record, keyed by its `ResourceOwnerId`. */
  datatype TokenInfo = TokenInfo(id: int, resourceOwnerId: GoString, accessToken: GoString, expiry: Instant)

  /** The store operations a backend may currently fail with an I/O error. */
  datatype StoreOp = StoreOp | GetOp | UpdateOp

  /**
   * The `store.TokenStore` value the accessors talk to: `StoreToken`,
   * `GetTokenInfo` and `UpdateTokenInfo`. `infos` are the records by
   * resource-owner id, `idTokens` the identity token last recorded for each,
   * and `faults` the operations the backend currently fails (the I/O errors
   * of a durable backend; the in-memory backend has none).
   */
  class TokenStore {
    var infos: map<GoString, TokenInfo>
    var idTokens: map<GoString, GoString>
    var faults: set<StoreOp>

    constructor (faults: set<StoreOp>)
      ensures infos == map[] && idTokens == map[] && this.faults == faults
    {
      infos := map[];
      idTokens := map[];
      this.faults := faults;
    }

    /** Every record sits under its own resource-owner id. */
    ghost predicate Valid()
      reads this
    {
      forall k :: k in infos ==> infos[k].resourceOwnerId == k
    }

    /** Insert or replace the record under `ti.resourceOwnerId`. */
    method StoreToken(ti: TokenInfo) returns (err: Option<Error>)
      requires Valid()
      modifies this
      ensures Valid() && faults == old(faults) && idTokens == old(idTokens)
      ensures err.Some? <==> StoreOp in faults
      ensures err.Some? ==> err == Some(StoreUnavailable) && infos == old(infos)
      ensures err.None? ==> infos == old(infos)[ti.resourceOwnerId := ti]
    {
      if StoreOp in faults {
        return Some(StoreUnavailable);
      }
      infos := infos[ti.resourceOwnerId := ti];
      err := None;
    }

    /** The record under `resourceOwnerId`, or why there is none. */
    function GetTokenInfo(resourceOwnerId: GoString): (r: Result<TokenInfo>)
      reads this
      ensures r.Ok? <==> GetOp !in faults && resourceOwnerId in infos
      ensures r.Ok? ==> r.value == infos[resourceOwnerId]
      ensures r.Err? ==> r.error == if GetOp in faults then StoreUnavailable else TokenInfoNotFound
    {
      if GetOp in faults then Err(StoreUnavailable)
      else if resourceOwnerId in infos then Ok(infos[resourceOwnerId])
      else Err(TokenInfoNotFound)
    }

    /**
     * Replace the access and identity tokens recorded under
     * `resourceOwnerId`; its id, owner and expiry stay as they were.
     */
    method UpdateTokenInfo(resourceOwnerId: GoString, accessToken: GoString, idToken: GoString)
      returns (err: Option<Error>)
      requires Valid()
      modifies this
      ensures Valid() && faults == old(faults)
      ensures err.Some? <==> UpdateOp in faults || resourceOwnerId !in old(infos)
      ensures err.Some? ==> infos == old(infos) && idTokens == old(idTokens)
      ensures err.Some? ==> err == Some(if UpdateOp in faults then StoreUnavailable else TokenInfoNotFound)
      ensures err.None? ==>
                && infos == old(infos)[resourceOwnerId := old(infos)[resourceOwnerId].(accessToken := accessToken)]
                && idTokens == old(idTokens)[resourceOwnerId := idToken]
    {
      if UpdateOp in faults {
        return Some(StoreUnavailable);
      }
      if resourceOwnerId !in infos {
        return Some(TokenInfoNotFound);
      }
      infos := infos[resourceOwnerId := infos[resourceOwnerId].(accessToken := accessToken)];
      idTokens := idTokens[resourceOwnerId := idToken];
      err := None;
    }
  }

  /**
   * store/memory_store.go. `tokenInfos` is Go's map, `None` while it is nil:
   * a nil map reads as empty, and writing to it panics.
   */
  class MemoryTokenStore {
    var tokenInfos: Option<map<GoString, TokenInfo>>

    /** `new(store.MemoryTokenStore)`: the map is nil. */
    constructor ()
      ensures tokenInfos == None
    {
      tokenInfos := None;
    }

    /** `CreateStore`: a fresh empty map, discarding every earlier record; never fails. */
    method CreateStore()
      modifies this
      ensures tokenInfos == Some(map[])
      ensures forall k :: GetTokenInfo(k) == Err(TokenInfoNotFound)
    {
      tokenInfos := Some(map[]);
    }

    /**
     * `StoreToken`: the record replaces any other under the same
     * resource-owner id and leaves every other key alone; never fails.
     * The map must exist (`CreateStore` first), since a nil map write panics.
     */
    method StoreToken(ti: TokenInfo)
      requires tokenInfos.Some?
      modifies this
      ensures tokenInfos == Some(old(tokenInfos.value)[ti.resourceOwnerId := ti])
      ensures GetTokenInfo(ti.resourceOwnerId) == Ok(ti)
      ensures forall k :: k != ti.resourceOwnerId ==> GetTokenInfo(k) == old(GetTokenInfo(k))
    {
      tokenInfos := Some(tokenInfos.value[ti.resourceOwnerId := ti]);
    }

    /** `GetTokenInfo`: a copy of the record, or "token info not found". */
    function GetTokenInfo(resourceOwnerId: GoString): (r: Result<TokenInfo>)
      reads this
      ensures r.Ok? <==> tokenInfos.Some? && resourceOwnerId in tokenInfos.value
      ensures r.Ok? ==> r.value == tokenInfos.value[resourceOwnerId]
      ensures r.Err? ==> r.error == TokenInfoNotFound
    {
      match tokenInfos
      case None => Err(TokenInfoNotFound)
      case Some(m) => if resourceOwnerId in m then Ok(m[resourceOwnerId]) else Err(TokenInfoNotFound)
    }

    /** `CloseConnection`: the map becomes nil, so every lookup misses; never fails. */
    method CloseConnection()
      modifies this
      ensures tokenInfos == None
      ensures forall k :: GetTokenInfo(k) == Err(TokenInfoNotFound)
    {
      tokenInfos := None;
    }
  }

  /**
   * A `TokenStore` whose backend never fails, holding the records of a
   * memory store (none while its map is nil), answers every lookup as the
   * memory store does.
   */
  lemma FaultFreeStoreIsMemoryStore(ts: TokenStore, ms: MemoryTokenStore)
    requires ts.faults == {}
    requires ts.infos == if ms.tokenInfos.Some? then ms.tokenInfos.value else map[]
    ensures forall k :: ts.GetTokenInfo(k) == ms.GetTokenInfo(k)
  {
  }
}
