/**
 * options/: token lifetimes (`Validity`), cookie settings
 * (`CookieOptions`) and the engine's configuration (`AuthOptions`), all
 * objects that their setters update in place.
 */
module Options {
  import opened Prelude
  import opened Jwt
  import opened Claims
  import opened Store

  /** Default lifetimes, in seconds. */
  const DefaultAccessExpiresIn: int := 10 * 60
  const DefaultRefreshExpiresIn: int := 60 * 60

  /** The values of a `Validity`: access and refresh lifetimes in seconds. */
  datatype Lifetimes = Lifetimes(access: int, refresh: int)

  /** The lifetimes after `SetDefaultAccessExpiresIn`. */
  function WithDefaultAccess(l: Lifetimes): (r: Lifetimes)
    ensures r.access == 600 && r.refresh == l.refresh
  {
    l.(access := DefaultAccessExpiresIn)
  }

  /** The lifetimes after `SetDefaultRefreshExpiresIn`. */
  function WithDefaultRefresh(l: Lifetimes): (r: Lifetimes)
    ensures r.refresh == 3600 && r.access == l.access
  {
    l.(refresh := DefaultRefreshExpiresIn)
  }

  /** Setting a default twice is setting it once, and the two setters commute. */
  lemma DefaultSettersIdempotent(l: Lifetimes)
    ensures WithDefaultAccess(WithDefaultAccess(l)) == WithDefaultAccess(l)
    ensures WithDefaultRefresh(WithDefaultRefresh(l)) == WithDefaultRefresh(l)
    ensures WithDefaultAccess(WithDefaultRefresh(l)) == WithDefaultRefresh(WithDefaultAccess(l))
  {
  }

  /** options/validity.go. */
  class Validity {
    var accessExpiresIn: int
    var refreshExpiresIn: int

    /** `new(Validity)`: both lifetimes zero. */
    constructor ()
      ensures Get() == Lifetimes(0, 0)
    {
      accessExpiresIn, refreshExpiresIn := 0, 0;
    }

    function Get(): Lifetimes
      reads this
    {
      Lifetimes(accessExpiresIn, refreshExpiresIn)
    }

    function GetAccessExpiresIn(): int
      reads this
    {
      accessExpiresIn
    }

    function GetRefreshExpiresIn(): int
      reads this
    {
      refreshExpiresIn
    }

    method SetDefaultAccessExpiresIn()
      modifies this
      ensures Get() == WithDefaultAccess(old(Get()))
    {
      accessExpiresIn := DefaultAccessExpiresIn;
    }

    method SetDefaultRefreshExpiresIn()
      modifies this
      ensures Get() == WithDefaultRefresh(old(Get()))
    {
      refreshExpiresIn := DefaultRefreshExpiresIn;
    }
  }

  /** The values of a `CookieOptions`; `sameSite` is the `http.SameSite` number. */
  datatype CookieFields = CookieFields(name: GoString, secure: bool, httpOnly: bool, path: GoString, maxAge: int, sameSite: int)

  /** The value of a zero `CookieOptions`. */
  const ZeroCookie: CookieFields := CookieFields([], false, false, [], 0, 0)

  /**
   * `CookieOptions.MapFrom`, which the repository calls but does not
   * define: the new settings of the receiver, given its old settings and
   * those of the argument (`None` for nil).
   */
  type MapFromFn = (CookieFields, Option<CookieFields>) -> CookieFields

  /** options/cookie_options.go. */
  class CookieOptions {
    var name: GoString
    var secure: bool
    var httpOnly: bool
    var path: GoString
    var maxAge: int
    var sameSite: int

    /** `new(CookieOptions)`: every field zero, so the name is "". */
    constructor ()
      ensures Fields() == ZeroCookie && GetName() == []
    {
      name, secure, httpOnly := [], false, false;
      path, maxAge, sameSite := [], 0, 0;
    }

    function Fields(): CookieFields
      reads this
    {
      CookieFields(name, secure, httpOnly, path, maxAge, sameSite)
    }

    function GetName(): GoString
      reads this
    {
      name
    }

    /** `SetName`: the name becomes `name` and every other setting stays. */
    method SetName(name: GoString)
      modifies this
      ensures Fields() == old(Fields()).(name := name)
      ensures GetName() == name
    {
      this.name := name;
    }

    method MapFrom(src: CookieOptions?, mapFrom: MapFromFn)
      modifies this
      ensures Fields() == mapFrom(old(Fields()), if src == null then None else Some(old(src.Fields())))
    {
      var from := if src == null then None else Some(src.Fields());
      var f := mapFrom(Fields(), from);
      name, secure, httpOnly := f.name, f.secure, f.httpOnly;
      path, maxAge, sameSite := f.path, f.maxAge, f.sameSite;
    }
  }

  /**
   * The cookie settings the cookie setters produce: a zero cookie named
   * `name`, mapped from the caller's options, whose zero `maxAge` falls
   * back to `lifetime`.
   */
  function CookieFor(name: GoString, src: Option<CookieFields>, mapFrom: MapFromFn, lifetime: int): (r: CookieFields)
    ensures var m := mapFrom(ZeroCookie.(name := name), src);
            r == m.(maxAge := if m.maxAge == 0 then lifetime else m.maxAge)
  {
    var m := mapFrom(ZeroCookie.(name := name), src);
    if m.maxAge == 0 then m.(maxAge := lifetime) else m
  }

  /** A cookie's lifetime is never zero unless the fallback lifetime is. */
  lemma CookieMaxAgeNonZero(name: GoString, src: Option<CookieFields>, mapFrom: MapFromFn, lifetime: int)
    requires lifetime != 0
    ensures CookieFor(name, src, mapFrom, lifetime).maxAge != 0
  {
  }

  /**
   * The identity claims `AddIdTokenClaims` records: the seven profile
   * attributes of `c`; standard claims, scope and roles zero.
   */
  function ProfileOnly(c: IdFields): (r: IdFields)
    ensures r.standard == ZeroStandardClaims && r.scope == [] && r.roles == []
    ensures r.name == c.name && r.givenName == c.givenName && r.familyName == c.familyName
    ensures r.email == c.email && r.picture == c.picture && r.locale == c.locale
    ensures r.preferredUsername == c.preferredUsername
  {
    ZeroIdFields.(name := c.name, givenName := c.givenName, familyName := c.familyName, email := c.email,
                  picture := c.picture, locale := c.locale, preferredUsername := c.preferredUsername)
  }

  /**
   * Issuing an identity token after `MapClaims` over recorded profile
   * claims keeps the profile and takes everything else from the access
   * claims, whatever the argument of `AddIdTokenClaims` carried besides.
   */
  lemma ProfileThenMapped(c: IdFields, a: JWTAccessClaims)
    ensures Mapped(ProfileOnly(c), a) == Mapped(c, a)
  {
  }

  /** options/options.go. */
  class AuthOptions {
    var validity: Validity?
    var store: TokenStore?
    var idTokenClaims: JWTIdClaims?
    var refreshInCookie: bool
    var accessInCookie: bool
    var refreshCookieOptions: CookieOptions?
    var accessCookieOptions: CookieOptions?

    /** `&AuthOptions{Validity: v}`: everything else zero or nil. */
    constructor (v: Validity?)
      ensures validity == v && store == null && idTokenClaims == null
      ensures !refreshInCookie && !accessInCookie
      ensures refreshCookieOptions == null && accessCookieOptions == null
    {
      validity := v;
      store := null;
      idTokenClaims := null;
      refreshInCookie, accessInCookie := false, false;
      refreshCookieOptions, accessCookieOptions := null, null;
    }

    /** `AddIdTokenClaims`: records a fresh copy of the profile attributes of `c`. */
    method AddIdTokenClaims(c: JWTIdClaims)
      modifies this
      ensures idTokenClaims != null && fresh(idTokenClaims)
      ensures idTokenClaims.Fields() == ProfileOnly(old(c.Fields()))
      ensures IsIdTokenClaimsSet()
      ensures validity == old(validity) && store == old(store)
      ensures refreshInCookie == old(refreshInCookie) && accessInCookie == old(accessInCookie)
      ensures refreshCookieOptions == old(refreshCookieOptions) && accessCookieOptions == old(accessCookieOptions)
    {
      var n := new JWTIdClaims();
      n.name := c.name;
      n.givenName := c.givenName;
      n.familyName := c.familyName;
      n.email := c.email;
      n.picture := c.picture;
      n.locale := c.locale;
      n.preferredUsername := c.preferredUsername;
      n.standard := ZeroStandardClaims;
      idTokenClaims := n;
    }

    predicate IsIdTokenClaimsSet()
      reads this
    {
      idTokenClaims != null
    }

    function GetIdTokenClaims(): JWTIdClaims?
      reads this
    {
      idTokenClaims
    }

    /**
     * `SetRefreshTokenInCookie`: refresh tokens go in a fresh cookie named
     * "refresh_token" whose zero lifetime falls back to the refresh
     * lifetime; the access-cookie settings are untouched.
     */
    method SetRefreshTokenInCookie(cookieOptions: CookieOptions?, mapFrom: MapFromFn)
      requires validity != null
      modifies this
      ensures validity == old(validity) && store == old(store) && idTokenClaims == old(idTokenClaims)
      ensures accessInCookie == old(accessInCookie) && accessCookieOptions == old(accessCookieOptions)
      ensures refreshInCookie && refreshCookieOptions != null && fresh(refreshCookieOptions)
      ensures refreshCookieOptions.Fields()
              == CookieFor(Ascii("refresh_token"), if cookieOptions == null then None else Some(old(cookieOptions.Fields())),
                           mapFrom, validity.refreshExpiresIn)
    {
      refreshInCookie := true;
      var c := new CookieOptions();
      c.SetName(Ascii("refresh_token"));
      c.MapFrom(cookieOptions, mapFrom);
      if c.maxAge == 0 {
        c.maxAge := validity.refreshExpiresIn;
      }
      refreshCookieOptions := c;
    }

    /**
     * `SetAccessTokenInCookie`: the same for access tokens, with the name
     * "access_token" and the access lifetime.
     */
    method SetAccessTokenInCookie(cookieOptions: CookieOptions?, mapFrom: MapFromFn)
      requires validity != null
      modifies this
      ensures validity == old(validity) && store == old(store) && idTokenClaims == old(idTokenClaims)
      ensures refreshInCookie == old(refreshInCookie) && refreshCookieOptions == old(refreshCookieOptions)
      ensures accessInCookie && accessCookieOptions != null && fresh(accessCookieOptions)
      ensures accessCookieOptions.Fields()
              == CookieFor(Ascii("access_token"), if cookieOptions == null then None else Some(old(cookieOptions.Fields())),
                           mapFrom, validity.accessExpiresIn)
    {
      accessInCookie := true;
      var c := new CookieOptions();
      c.SetName(Ascii("access_token"));
      c.MapFrom(cookieOptions, mapFrom);
      if c.maxAge == 0 {
        c.maxAge := validity.accessExpiresIn;
      }
      accessCookieOptions := c;
    }
  }

  /** `DefaultAuthOptions`: lifetimes 600 and 3600, no store, no identity claims, no cookies. */
  method DefaultAuthOptions() returns (o: AuthOptions)
    ensures fresh(o) && o.validity != null && fresh(o.validity)
    ensures o.validity.Get() == Lifetimes(600, 3600)
    ensures o.store == null && !o.IsIdTokenClaimsSet()
    ensures !o.refreshInCookie && !o.accessInCookie
    ensures o.refreshCookieOptions == null && o.accessCookieOptions == null
  {
    var v := new Validity();
    v.SetDefaultAccessExpiresIn();
    v.SetDefaultRefreshExpiresIn();
    o := new AuthOptions(v);
  }
}
