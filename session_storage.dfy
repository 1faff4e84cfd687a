/**
 * The cookie session storages of app/utils/session.server.ts (the primary
 * `en_session` cookie, whose `commitSession` is overridden to keep a stored
 * expiry) and of app/utils/verification.server.ts (the short-lived
 * `en_verification` cookie). A session object is a mutable key/value bag.
 */
module SessionStorage {
  import opened Http

  const SessionCookieName := "en_session"
  const VerificationCookieName := "en_verification"
  /** The bag key under which the overridden commit remembers the expiry. */
  const ExpiresKey := "expires"
  /** `maxAge` of the verification cookie, in seconds (10 minutes). */
  const VerificationMaxAge := 60 * 10

  /** Keys of the verification cookie: the parked session id and its "remember me" flag. */
  const UnverifiedSessionIdKey := "unverified-session-id"
  const RememberMeKey := "remember-me"
  /** Key of the primary cookie holding when the second factor was last checked. */
  const VerifiedTimeKey := "verified-time"
  /** How long, in milliseconds, a second-factor check stays fresh (5 seconds). */
  const ReverifyWindow := 1000 * 5

  datatype SameSite = Lax | Strict | NoSameSite

  datatype CookieOptions = CookieOptions(
    name: string, sameSite: SameSite, path: string, httpOnly: bool, secure: bool, maxAge: Option<int>)

  /** The attributes of the primary session cookie. */
  function SessionCookieOptions(production: bool): (o: CookieOptions)
    ensures o.name == "en_session" && o.sameSite == Lax && o.path == "/" && o.httpOnly
    ensures o.secure <==> production
    ensures o.maxAge.None?
  {
    CookieOptions(SessionCookieName, Lax, "/", true, production, None)
  }

  /** The attributes of the verification cookie: the same, plus a 10-minute lifetime. */
  function VerificationCookieOptions(production: bool): (o: CookieOptions)
    ensures o.name == "en_verification" && o.sameSite == Lax && o.path == "/" && o.httpOnly
    ensures o.secure <==> production
    ensures o.maxAge == Some(600)
  {
    CookieOptions(VerificationCookieName, Lax, "/", true, production, Some(VerificationMaxAge))
  }

  /** A cookie session as `getSession` returns it: a bag the handler reads and sets. */
  class CookieSession {
    var data: Bag

    constructor (data: Bag)
      ensures this.data == data
    {
      this.data := data;
    }

    function Get(key: string): (v: Option<Value>)
      reads this
      ensures v.Some? <==> key in data
      ensures v.Some? ==> data[key] == v.value
    {
      if key in data then Some(data[key]) else None
    }

    method Set(key: string, v: Value)
      modifies this
      ensures data == old(data)[key := v]
    {
      data := data[key := v];
    }
  }

  /** The options of a `commitSession` call; both absent stands for no options. */
  datatype CommitOptions = CommitOptions(expires: Option<int>, maxAge: Option<int>)

  const NoOptions := CommitOptions(None, None)

  /**
   * The bag after the override has recorded the expiry: a given `expires`
   * is stored, then a non-zero `maxAge` (added to `now` as milliseconds)
   * overwrites it; with neither the bag is left as it was.
   */
  function StoreExpiry(data: Bag, opt: CommitOptions, now: int): (r: Bag)
    ensures r.Keys == data.Keys + (if opt.expires.Some? || (opt.maxAge.Some? && opt.maxAge.value != 0) then {ExpiresKey} else {})
    ensures forall k :: k in data && k != ExpiresKey ==> r[k] == data[k]
    ensures opt.maxAge.Some? && opt.maxAge.value != 0 ==> r[ExpiresKey] == Millis(now + opt.maxAge.value)
    ensures (opt.maxAge.None? || opt.maxAge.value == 0) && opt.expires.Some? ==> r[ExpiresKey] == Millis(opt.expires.value)
    ensures opt.expires.None? && (opt.maxAge.None? || opt.maxAge.value == 0) ==> r == data
  {
    var withExpires := if opt.expires.Some? then data[ExpiresKey := Millis(opt.expires.value)] else data;
    if opt.maxAge.Some? && opt.maxAge.value != 0 then withExpires[ExpiresKey := Millis(now + opt.maxAge.value)]
    else withExpires
  }

  /** The cookie's `expires` attribute: the expiry stored in the bag, if any. */
  function CookieExpiry(data: Bag): (e: Option<int>)
    ensures e.Some? <==> ExpiresKey in data && data[ExpiresKey].Millis?
    ensures e.Some? ==> data[ExpiresKey] == Millis(e.value)
  {
    if ExpiresKey in data && data[ExpiresKey].Millis? then Some(data[ExpiresKey].ms) else None
  }

  /**
   * The overridden `sessionStorage.commitSession`: it records the expiry in
   * the bag, then serialises the bag with the stored expiry (and the given
   * `maxAge`, which the spread of the options passes on).
   */
  method CommitSession(session: CookieSession, opt: CommitOptions, now: int) returns (header: SetCookie)
    modifies session
    ensures session.data == StoreExpiry(old(session.data), opt, now)
    ensures header == Commit(SessionCookieName, session.data, CookieExpiry(session.data), opt.maxAge)
  {
    if opt.expires.Some? {
      session.Set(ExpiresKey, Millis(opt.expires.value));
    }
    if opt.maxAge.Some? && opt.maxAge.value != 0 {
      session.Set(ExpiresKey, Millis(now + opt.maxAge.value));
    }
    var expires := if ExpiresKey in session.data && session.data[ExpiresKey].Millis?
      then Some(session.data[ExpiresKey].ms) else None;
    header := Commit(SessionCookieName, session.data, expires, opt.maxAge);
  }

  /** `verifySessionStorage.commitSession`: no override, the cookie lives 10 minutes. */
  function CommitVerification(data: Bag): (h: SetCookie)
    ensures h.Commit? && h.name == VerificationCookieName && h.data == data
    ensures h.expires.None? && h.maxAge == Some(VerificationMaxAge)
  {
    Commit(VerificationCookieName, data, None, Some(VerificationMaxAge))
  }

  /** When both options are given, `maxAge` decides the stored expiry. */
  lemma MaxAgeWins(data: Bag, expires: int, maxAge: int, now: int)
    requires maxAge != 0
    ensures CookieExpiry(StoreExpiry(data, CommitOptions(Some(expires), Some(maxAge)), now)) == Some(now + maxAge)
  {
  }

  /**
   * A stored expiry is sticky: a later commit without options leaves the bag
   * alone and sends the same `expires` as the commit that stored it.
   */
  lemma ExpiryIsSticky(data: Bag, opt: CommitOptions, now: int, later: int)
    ensures var stored := StoreExpiry(data, opt, now);
            StoreExpiry(stored, NoOptions, later) == stored &&
            CookieExpiry(StoreExpiry(stored, NoOptions, later)) == CookieExpiry(stored)
  {
  }

  /** Without options and without a stored expiry the cookie is a browser-session cookie. */
  lemma NoExpiryMeansBrowserSession(data: Bag, now: int)
    requires ExpiresKey !in data
    ensures CookieExpiry(StoreExpiry(data, NoOptions, now)).None?
  {
  }
}
