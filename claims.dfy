/**
 * claims/claims.go: the access claim set and the identity claim set.
 * `GenerateAccessClaims` builds a fresh access claim set whose expiry is
 * its issue time plus the lifetime; `MapClaims` copies the standard
 * claims, roles and scope of an access claim set into an identity claim
 * set in place.
 */
module Claims {
  import opened Prelude
  import opened Jwt

  /** `claims.JWTAccessClaims`. */
  datatype JWTAccessClaims = JWTAccessClaims(standard: StandardClaims, scope: GoString, roles: seq<GoString>)

  /** The value of every field of a `claims.JWTIdClaims`. */
  datatype IdFields = IdFields(
    standard: StandardClaims,
    name: GoString,
    givenName: GoString,
    familyName: GoString,
    email: GoString,
    picture: GoString,
    locale: GoString,
    preferredUsername: GoString,
    scope: GoString,
    roles: seq<GoString>)

  /** The value of a zero `claims.JWTIdClaims`. */
  const ZeroIdFields: IdFields := IdFields(ZeroStandardClaims, [], [], [], [], [], [], [], [], [])

  /** `claims.JWTIdClaims`, whose fields `MapClaims` overwrites in place. */
  class JWTIdClaims {
    var standard: StandardClaims
    var name: GoString
    var givenName: GoString
    var familyName: GoString
    var email: GoString
    var picture: GoString
    var locale: GoString
    var preferredUsername: GoString
    var scope: GoString
    var roles: seq<GoString>

    /** `new(claims.JWTIdClaims)`: every field is zero. */
    constructor ()
      ensures Fields() == ZeroIdFields
    {
      standard := ZeroStandardClaims;
      name, givenName, familyName, email := [], [], [], [];
      picture, locale, preferredUsername := [], [], [];
      scope, roles := [], [];
    }

    function Fields(): IdFields
      reads this
    {
      IdFields(standard, name, givenName, familyName, email, picture, locale, preferredUsername, scope, roles)
    }

    /** The profile attributes, which `MapClaims` never touches. */
    function Profile(): seq<GoString>
      reads this
    {
      [name, givenName, familyName, email, picture, locale, preferredUsername]
    }

    /**
     * After the call the standard claims, roles and scope are those of
     * `accessClaims`; the profile attributes are unchanged.
     */
    method MapClaims(accessClaims: JWTAccessClaims)
      modifies this
      ensures Fields() == Mapped(old(Fields()), accessClaims)
      ensures Profile() == old(Profile())
    {
      standard := accessClaims.standard;
      roles := accessClaims.roles;
      scope := accessClaims.scope;
    }
  }

  /** The identity claims `c` after `MapClaims(a)`. */
  function Mapped(c: IdFields, a: JWTAccessClaims): (r: IdFields)
    ensures r.standard == a.standard && r.roles == a.roles && r.scope == a.scope
    ensures r.(standard := c.standard, roles := c.roles, scope := c.scope) == c
  {
    c.(standard := a.standard, roles := a.roles, scope := a.scope)
  }

  /** Mapping the same access claims a second time changes nothing. */
  lemma MappedIdempotent(c: IdFields, a: JWTAccessClaims)
    ensures Mapped(Mapped(c, a), a) == Mapped(c, a)
  {
  }

  /** `claims.JWTClaims`: the access claims and, when not nil, the identity claims. */
  datatype JWTClaims = JWTClaims(accessClaims: JWTAccessClaims, idClaims: JWTIdClaims?)

  /**
   * `GenerateAccessClaims`, with the clock reading `now` as a parameter:
   * issued at the Unix second of `now`, expiring `expiresAfterSeconds`
   * later, with the given issuer, audience, subject, scope and roles and
   * every other standard claim zero.
   */
  function GenerateAccessClaims(sub: GoString, issuer: GoString, aud: GoString, scope: GoString,
                                roles: seq<GoString>, expiresAfterSeconds: int, now: Instant): (c: JWTAccessClaims)
    ensures c.standard.issuedAt == Unix(now)
    ensures c.standard.expiresAt - c.standard.issuedAt == expiresAfterSeconds
    ensures c.standard.issuer == issuer && c.standard.audience == aud && c.standard.subject == sub
    ensures c.scope == scope && c.roles == roles
    ensures c.standard.id == [] && c.standard.notBefore == 0
  {
    var iat := Unix(now);
    JWTAccessClaims(StandardClaims(aud, iat + expiresAfterSeconds, [], iat, issuer, 0, sub), scope, roles)
  }

  /** A non-negative lifetime never makes a claim set expire before it is issued. */
  lemma IssuedNoLaterThanExpiry(sub: GoString, issuer: GoString, aud: GoString, scope: GoString,
                                roles: seq<GoString>, expiresAfterSeconds: int, now: Instant)
    requires expiresAfterSeconds >= 0
    ensures var c := GenerateAccessClaims(sub, issuer, aud, scope, roles, expiresAfterSeconds, now);
            c.standard.issuedAt <= c.standard.expiresAt
  {
  }
}
