/**
 * The session manager of app/utils/auth.server.ts: password checks, session
 * creation, the self-healing identity lookup, the login / anonymous guards,
 * signup and logout. Thrown redirects are `Outcome.Thrown` values; the
 * clock is the `now` parameter (milliseconds); `safeRedirect` (a library
 * sanitiser) is the `safe` parameter.
 */
module Auth {
  import opened Http
  import opened Database
  import opened SessionStorage

  /** Thirty days, in milliseconds. */
  const SessionExpirationTime := 1000 * 60 * 60 * 24 * 30
  const SessionIdKey := "sessionId"
  const CodeParam := "code"
  const TargetParam := "target"
  const TypeParam := "type"
  const RedirectToParam := "redirectTo"
  /** The verification type of the standing "2FA enabled" marker. */
  const TwoFAType := "2fa"
  const UserRole := "user"

  /** `safeRedirect(to, default)`: a library sanitiser, left abstract. */
  type Sanitizer = (Option<string>, string) -> string

  /** `getSessionExpirationDate`: thirty days after `now`, strictly later than `now`. */
  function SessionExpirationDate(now: int): (d: int)
    ensures d > now && d - now == SessionExpirationTime
  {
    now + SessionExpirationTime
  }

  /**
   * The `/verify` URL on the request's domain carrying `type` and `target`,
   * and `redirectTo` only when it is given and non-empty.
   */
  function GetRedirectToUrl(domain: string, kind: string, target: string, redirectTo: Option<string>): (u: Url)
    ensures u.origin == domain && u.path == "/verify"
    ensures u.params == [(TypeParam, kind), (TargetParam, target)] +
                        (if redirectTo.Some? && redirectTo.value != "" then [(RedirectToParam, redirectTo.value)] else [])
    ensures Lookup(u.params, TypeParam) == Some(kind)
    ensures Lookup(u.params, TargetParam) == Some(target)
    ensures Lookup(u.params, RedirectToParam) == (if redirectTo.Some? && redirectTo.value != "" then redirectTo else None)
    ensures Lookup(u.params, CodeParam) == None
  {
    SetParamAppends([], TypeParam, kind);
    var withType := SetParam([], TypeParam, kind);
    SetParamAppends(withType, TargetParam, target);
    var withTarget := SetParam(withType, TargetParam, target);
    if redirectTo.Some? && redirectTo.value != "" then
      SetParamAppends(withTarget, RedirectToParam, redirectTo.value);
      Url(domain, "/verify", SetParam(withTarget, RedirectToParam, redirectTo.value))
    else
      Url(domain, "/verify", withTarget)
  }

  // ---------------------------------------------------------------------
  // Looking up the current session

  /** What `getUserId` finds: no session id in the cookie, a live session, or a stale id. */
  datatype Resolution = NoSession | Active(userId: UserId) | Stale(sessionId: SessionId)

  /** The session id the primary cookie carries, if any. */
  function CookieSessionId(request: Request): Option<SessionId> {
    IdAt(CookieBag(request, SessionCookieName), SessionIdKey)
  }

  /**
   * A session is live at `now` when its row exists and `expirationDate >= now`
   * (the comparison is inclusive).
   */
  function ResolveSession(sessions: map<SessionId, SessionRow>, request: Request, now: int): (r: Resolution)
    ensures r.NoSession? <==> CookieSessionId(request).None?
    ensures r.Active? <==> (CookieSessionId(request).Some? && CookieSessionId(request).value in sessions &&
                            sessions[CookieSessionId(request).value].expirationDate >= now)
    ensures r.Active? ==> r.userId == sessions[CookieSessionId(request).value].userId
    ensures r.Stale? ==> r.sessionId == CookieSessionId(request).value
  {
    match CookieSessionId(request)
    case None => NoSession
    case Some(sid) =>
      if sid in sessions && sessions[sid].expirationDate >= now then Active(sessions[sid].userId)
      else Stale(sid)
  }

  /**
   * A session created at `created` (expiring at `SessionExpirationDate(created)`)
   * is live for a cookie naming it up to and including thirty days later, and
   * stale afterwards.
   */
  lemma NewSessionLifetime(sessions: map<SessionId, SessionRow>, request: Request, sid: SessionId, u: UserId,
                           created: int, now: int)
    requires CookieSessionId(request) == Some(sid)
    requires sid in sessions && sessions[sid] == SessionRow(u, SessionExpirationDate(created))
    ensures ResolveSession(sessions, request, now) ==
            if now <= created + SessionExpirationTime then Active(u) else Stale(sid)
  {
  }

  /**
   * The session table once `getUserId` has run: the row of a stale cookie id
   * is deleted (by the logout it throws), every other row stays.
   */
  function SessionsAfterLookup(sessions: map<SessionId, SessionRow>, request: Request, now: int)
    : (r: map<SessionId, SessionRow>)
    ensures ResolveSession(sessions, request, now).Stale? ==>
      r == DeleteKey(sessions, ResolveSession(sessions, request, now).sessionId)
    ensures !ResolveSession(sessions, request, now).Stale? ==> r == sessions
  {
    match ResolveSession(sessions, request, now)
    case Stale(sid) => DeleteKey(sessions, sid)
    case _ => sessions
  }

  /**
   * The session table once `requireAnonymous` has run: a pending login stops
   * it before `getUserId`, so only a visitor without one can lose a stale row.
   */
  function SessionsAfterAnonymous(sessions: map<SessionId, SessionRow>, request: Request, now: int)
    : (r: map<SessionId, SessionRow>)
    ensures PendingSessionId(request).Some? ==> r == sessions
    ensures PendingSessionId(request).None? ==> r == SessionsAfterLookup(sessions, request, now)
  {
    if PendingSessionId(request).Some? then sessions else SessionsAfterLookup(sessions, request, now)
  }

  // ---------------------------------------------------------------------
  // Logout

  /** The redirect `logout` throws: to the sanitised target, destroying the session cookie. */
  function LogoutResponse(redirectTo: string, safe: Sanitizer): (r: Response)
    ensures r.Redirect? && r.cookies == [Destroy(SessionCookieName)] && r.toast.None?
    ensures r.location == Path(safe(Some(redirectTo), "/"))
  {
    Redirect(Path(safe(Some(redirectTo), "/")), [Destroy(SessionCookieName)], None)
  }

  /** The session table after logout: the cookie's row is gone if it had one, a missing row is no error. */
  function LogoutSessions(sessions: map<SessionId, SessionRow>, request: Request): (r: map<SessionId, SessionRow>)
    ensures CookieSessionId(request).None? ==> r == sessions
    ensures CookieSessionId(request).Some? ==> r == DeleteKey(sessions, CookieSessionId(request).value)
  {
    match CookieSessionId(request)
    case None => sessions
    case Some(sid) => DeleteKey(sessions, sid)
  }

  /** `logout`: always destroys the cookie and redirects; deletes the cookie's session best-effort. */
  method Logout(db: Db, request: Request, redirectTo: Option<string>, safe: Sanitizer) returns (r: Response)
    modifies db`sessions
    ensures r == LogoutResponse(redirectTo.GetOr("/"), safe)
    ensures db.sessions == LogoutSessions(old(db.sessions), request)
  {
    var sessionId := CookieSessionId(request);
    if sessionId.Some? {
      // fire-and-forget delete whose failure (a missing row) is swallowed
      db.sessions := db.sessions - {sessionId.value};
    }
    r := Redirect(Path(safe(Some(redirectTo.GetOr("/")), "/")), [Destroy(SessionCookieName)], None);
  }

  /** Logging out twice leaves the same table and sends the same response as logging out once. */
  lemma LogoutIsIdempotent(sessions: map<SessionId, SessionRow>, request: Request)
    ensures LogoutSessions(LogoutSessions(sessions, request), request) == LogoutSessions(sessions, request)
  {
  }

  // ---------------------------------------------------------------------
  // Identity guards

  /**
   * `getUserId`: no id gives null; a live session gives its owner; a missing
   * or expired session ends in a thrown logout that deletes the stale row.
   */
  method GetUserId(db: Db, request: Request, now: int, safe: Sanitizer) returns (r: Outcome<Option<UserId>>)
    modifies db`sessions
    ensures match ResolveSession(old(db.sessions), request, now)
      case NoSession => r == Continue(None) && db.sessions == old(db.sessions)
      case Active(u) => r == Continue(Some(u)) && db.sessions == old(db.sessions)
      case Stale(sid) => r == Thrown(LogoutResponse("/", safe)) && db.sessions == DeleteKey(old(db.sessions), sid)
  {
    var sessionId := CookieSessionId(request);
    if sessionId.None? {
      return Continue(None);
    }
    var sid := sessionId.value;
    if sid in db.sessions && db.sessions[sid].expirationDate >= now {
      return Continue(Some(db.sessions[sid].userId));
    }
    var response := Logout(db, request, None, safe);
    r := Thrown(response);
  }

  /** The `redirectTo` option of `requireUserId`: left out, explicitly null, or a string. */
  datatype RedirectToArg = Unspecified | NullRedirect | Given(s: string)

  /**
   * The login URL `requireUserId` redirects to: exactly `/login` when the
   * target is null or empty, else `/login` with one `redirectTo` parameter;
   * the default target is the pathname immediately followed by the query
   * string, with no '?' between them.
   */
  function LoginRedirect(url: RequestUrl, redirectTo: RedirectToArg): (u: Url)
    ensures u.origin == "" && u.path == "/login"
    ensures redirectTo.NullRedirect? ==> u.params == []
    ensures redirectTo == Given("") ==> u.params == []
    ensures redirectTo.Given? && redirectTo.s != "" ==> u.params == [(RedirectToParam, redirectTo.s)]
    ensures redirectTo.Unspecified? && url.pathname + url.query != "" ==>
              u.params == [(RedirectToParam, url.pathname + url.query)]
    ensures |u.params| <= 1
  {
    var target := match redirectTo
      case NullRedirect => ""
      case Given(s) => s
      case Unspecified => url.pathname + url.query;
    Url("", "/login", if target == "" then [] else [(RedirectToParam, target)])
  }

  /** `requireUserId`: the owner of a live session, or a redirect to the login page. */
  method RequireUserId(db: Db, request: Request, redirectTo: RedirectToArg, now: int, safe: Sanitizer)
    returns (r: Outcome<UserId>)
    modifies db`sessions
    ensures match ResolveSession(old(db.sessions), request, now)
      case NoSession =>
        r == Thrown(Redirect(Link(LoginRedirect(request.url, redirectTo)), [], None)) && db.sessions == old(db.sessions)
      case Active(u) => r == Continue(u) && db.sessions == old(db.sessions)
      case Stale(sid) => r == Thrown(LogoutResponse("/", safe)) && db.sessions == DeleteKey(old(db.sessions), sid)
    ensures db.sessions == SessionsAfterLookup(old(db.sessions), request, now)
  {
    var userId := GetUserId(db, request, now, safe);
    match userId
    case Continue(None) =>
      r := Thrown(Redirect(Link(LoginRedirect(request.url, redirectTo)), [], None));
    case Continue(Some(u)) =>
      r := Continue(u);
    case Thrown(response) =>
      r := Thrown(response);
    case Failed(fault) =>
      r := Failed(fault);
  }

  /** The session id parked in the verification cookie while a second factor is pending. */
  function PendingSessionId(request: Request): Option<SessionId> {
    IdAt(CookieBag(request, VerificationCookieName), UnverifiedSessionIdKey)
  }

  /**
   * `requireAnonymous`: a pending 2FA session wins and sends its owner to the
   * 2FA step (its row must exist, else the lookup throws); otherwise a
   * logged-in user goes to `/`; otherwise the caller goes on.
   */
  method RequireAnonymous(db: Db, request: Request, now: int, safe: Sanitizer) returns (r: Outcome<()>)
    modifies db`sessions
    ensures var pending := PendingSessionId(request);
      && (pending.Some? && pending.value in old(db.sessions) ==>
            r == Thrown(Redirect(Link(GetRedirectToUrl(request.url.domain, TwoFAType,
                                                       old(db.sessions)[pending.value].userId, None)), [], None))
            && db.sessions == old(db.sessions))
      && (pending.Some? && pending.value !in old(db.sessions) ==>
            r == Failed(RecordNotFound) && db.sessions == old(db.sessions))
      && (pending.None? ==>
            match ResolveSession(old(db.sessions), request, now)
            case NoSession => r == Continue(()) && db.sessions == old(db.sessions)
            case Active(_) => r == Thrown(Redirect(Path("/"), [], None)) && db.sessions == old(db.sessions)
            case Stale(sid) => r == Thrown(LogoutResponse("/", safe)) && db.sessions == DeleteKey(old(db.sessions), sid))
    ensures db.sessions == SessionsAfterAnonymous(old(db.sessions), request, now)
  {
    var pending := PendingSessionId(request);
    if pending.Some? {
      if pending.value !in db.sessions {
        return Failed(RecordNotFound);
      }
      var owner := db.sessions[pending.value].userId;
      var url := GetRedirectToUrl(request.url.domain, TwoFAType, owner, None);
      return Thrown(Redirect(Link(url), [], None));
    }
    var userId := GetUserId(db, request, now, safe);
    match userId
    case Continue(None) =>
      r := Continue(());
    case Continue(Some(_)) =>
      r := Thrown(Redirect(Path("/"), [], None));
    case Thrown(response) =>
      r := Thrown(response);
    case Failed(fault) =>
      r := Failed(fault);
  }

  datatype UserSummary = UserSummary(id: UserId, username: string)

  /** `requireUser`: `requireUserId`, then the user row; a missing user ends in logout. */
  method RequireUser(db: Db, request: Request, now: int, safe: Sanitizer) returns (r: Outcome<UserSummary>)
    modifies db`sessions
    ensures match ResolveSession(old(db.sessions), request, now)
      case NoSession =>
        r == Thrown(Redirect(Link(LoginRedirect(request.url, Unspecified)), [], None)) && db.sessions == old(db.sessions)
      case Active(u) =>
        if u in db.users then r == Continue(UserSummary(u, db.users[u].username)) && db.sessions == old(db.sessions)
        else r == Thrown(LogoutResponse("/", safe)) && db.sessions == LogoutSessions(old(db.sessions), request)
      case Stale(sid) => r == Thrown(LogoutResponse("/", safe)) && db.sessions == DeleteKey(old(db.sessions), sid)
  {
    var userId := RequireUserId(db, request, Unspecified, now, safe);
    match userId
    case Thrown(response) =>
      r := Thrown(response);
    case Failed(fault) =>
      r := Failed(fault);
    case Continue(u) =>
      if u !in db.users {
        var response := Logout(db, request, None, safe);
        r := Thrown(response);
      } else {
        r := Continue(UserSummary(u, db.users[u].username));
      }
  }

  // ---------------------------------------------------------------------
  // Credentials

  /** The `where` of `verifyUserPassword`: by username or by id. */
  datatype UserRef = ByUsername(username: string) | ById(id: UserId)

  function FindUser(users: map<UserId, User>, where: UserRef): (r: Option<UserId>)
    requires UniqueUsernames(users)
    ensures r.Some? ==> r.value in users
    ensures r.Some? && where.ById? ==> r.value == where.id
    ensures r.Some? && where.ByUsername? ==> users[r.value].username == where.username
    ensures r.None? && where.ById? ==> where.id !in users
    ensures r.None? && where.ByUsername? ==> forall id :: id in users ==> users[id].username != where.username
  {
    match where
    case ByUsername(name) => UserByUsername(users, name)
    case ById(id) => if id in users then Some(id) else None
  }

  /**
   * `verifyUserPassword`: the user's id only when the user exists, has a
   * password row, and the password matches its hash; null otherwise.
   */
  function VerifyUserPassword(users: map<UserId, User>, passwords: map<UserId, Hash>, where: UserRef, password: string)
    : (r: Option<UserId>)
    requires UniqueUsernames(users)
    ensures r.Some? <==> FindUser(users, where).Some? && FindUser(users, where).value in passwords &&
                         Compare(password, passwords[FindUser(users, where).value])
    ensures r.Some? ==> r == FindUser(users, where)
  {
    match FindUser(users, where)
    case None => None
    case Some(id) =>
      if id !in passwords then None
      else if !Compare(password, passwords[id]) then None
      else Some(id)
  }

  /** A user who signed up with a password can log in with that password and no other. */
  lemma PasswordRoundTrip(users: map<UserId, User>, passwords: map<UserId, Hash>, id: UserId, password: string, attempt: string)
    requires UniqueUsernames(users) && id in users && passwords == passwords[id := HashPassword(password)]
    ensures VerifyUserPassword(users, passwords, ByUsername(users[id].username), attempt).Some? <==> attempt == password
  {
    assert FindUser(users, ByUsername(users[id].username)) == Some(id);
  }

  /** A session as `login` / `signup` return it. */
  datatype NewSession = NewSession(id: SessionId, userId: UserId, expirationDate: int)

  /**
   * `login`: on good credentials one new session for that user, expiring 30
   * days from now; otherwise null and the session table is untouched.
   */
  method Login(db: Db, username: string, password: string, freshId: SessionId, now: int) returns (s: Option<NewSession>)
    requires db.Valid()
    requires freshId !in db.sessions
    modifies db`sessions
    ensures var who := VerifyUserPassword(db.users, db.passwords, ByUsername(username), password);
      && (who.None? ==> s.None? && db.sessions == old(db.sessions))
      && (who.Some? ==>
            && s == Some(NewSession(freshId, who.value, now + 2_592_000_000))
            && db.sessions == Upsert(old(db.sessions), freshId, SessionRow(who.value, now + 2_592_000_000)))
  {
    var user := VerifyUserPassword(db.users, db.passwords, ByUsername(username), password);
    if user.None? {
      return None;
    }
    var row := SessionRow(user.value, SessionExpirationDate(now));
    db.sessions := db.sessions[freshId := row];
    s := Some(NewSession(freshId, row.userId, row.expirationDate));
  }

  /**
   * `resetUserPassword`: replaces the hash of the user with that username;
   * a missing user or a missing password row makes the update throw.
   */
  method ResetUserPassword(db: Db, username: string, password: string) returns (r: Outcome<UserId>)
    requires db.Valid()
    modifies db`passwords
    ensures db.Valid()
    ensures var u := UserByUsername(db.users, username);
      && (u.Some? && u.value in old(db.passwords) ==>
            r == Continue(u.value) && db.passwords == Upsert(old(db.passwords), u.value, HashPassword(password)))
      && (u.None? || u.value !in old(db.passwords) ==> r == Failed(RecordNotFound) && db.passwords == old(db.passwords))
  {
    var hashed := HashPassword(password);
    var u := UserByUsername(db.users, username);
    if u.None? || u.value !in db.passwords {
      return Failed(RecordNotFound);
    }
    db.passwords := db.passwords[u.value := hashed];
    r := Continue(u.value);
  }

  // ---------------------------------------------------------------------
  // Signup

  function LowerChar(c: char): char {
    if 'A' <= c <= 'Z' then (c as int + 32) as char else c
  }

  /**
   * `toLowerCase`, on the ASCII letters: each upper-case letter becomes the
   * lower-case letter 32 code points later, every other character stays.
   */
  function Lower(s: string): (r: string)
    ensures |r| == |s|
    ensures forall i :: 0 <= i < |r| ==> !('A' <= r[i] <= 'Z')
    ensures forall i :: 0 <= i < |r| && 'A' <= s[i] <= 'Z' ==> r[i] == (s[i] as int + 32) as char && 'a' <= r[i] <= 'z'
    ensures forall i :: 0 <= i < |r| && !('A' <= s[i] <= 'Z') ==> r[i] == s[i]
  {
    seq(|s|, i requires 0 <= i < |s| => LowerChar(s[i]))
  }

  /** Lower-casing twice is lower-casing once: a stored username or email is already in its signup form. */
  lemma LowerIsIdempotent(s: string)
    ensures Lower(Lower(s)) == Lower(s)
  {
  }

  /** Would a new user with this email and username break a unique index? */
  predicate Taken(users: map<UserId, User>, email: string, username: string)
    requires UniqueUsernames(users) && UniqueEmails(users)
  {
    UserByEmail(users, email).Some? || UserByUsername(users, username).Some?
  }

  /** The session record `signup` and `signupWithConnection` return. */
  datatype CreatedSession = CreatedSession(id: SessionId, expirationDate: int)

  /**
   * `signup`: one new user (email and username lowercased, role "user"),
   * its password hash, and exactly one session for it; a taken email or
   * username violates a unique index and nothing is written.
   */
  method Signup(db: Db, email: string, username: string, password: string, name: Option<string>,
                userId: UserId, sessionId: SessionId, now: int) returns (r: Outcome<CreatedSession>)
    requires db.Valid()
    requires userId !in db.users && sessionId !in db.sessions
    modifies db`users, db`passwords, db`sessions
    ensures db.Valid()
    ensures Taken(old(db.users), Lower(email), Lower(username)) ==>
      r == Failed(UniqueViolation) && db.users == old(db.users) && db.passwords == old(db.passwords) &&
      db.sessions == old(db.sessions)
    ensures !Taken(old(db.users), Lower(email), Lower(username)) ==>
      && r == Continue(CreatedSession(sessionId, now + SessionExpirationTime))
      && db.users == Upsert(old(db.users), userId, User(Lower(email), Lower(username), name, {UserRole}, None))
      && db.passwords == Upsert(old(db.passwords), userId, HashPassword(password))
      && db.sessions == Upsert(old(db.sessions), sessionId, SessionRow(userId, now + SessionExpirationTime))
  {
    var hashed := HashPassword(password);
    var user := User(Lower(email), Lower(username), name, {UserRole}, None);
    if Taken(db.users, user.email, user.username) {
      return Failed(UniqueViolation);
    }
    AddUserKeepsValid(db.users, userId, user);
    db.users := db.users[userId := user];
    db.passwords := db.passwords[userId := hashed];
    var expires := SessionExpirationDate(now);
    db.sessions := db.sessions[sessionId := SessionRow(userId, expires)];
    r := Continue(CreatedSession(sessionId, expires));
  }

  /** Adding a user whose email and username are free keeps both indexes unique. */
  lemma AddUserKeepsValid(users: map<UserId, User>, id: UserId, user: User)
    requires UniqueUsernames(users) && UniqueEmails(users) && id !in users
    requires !Taken(users, user.email, user.username)
    ensures UniqueUsernames(users[id := user]) && UniqueEmails(users[id := user])
  {
  }

  /**
   * `signupWithConnection`: like `signup` but with no password and one
   * provider connection; an avatar is recorded when an image URL is given.
   * A taken email, username or provider identity writes nothing.
   */
  method SignupWithConnection(db: Db, email: string, username: string, name: Option<string>,
                              providerId: string, providerName: string, imageUrl: Option<string>,
                              userId: UserId, sessionId: SessionId, now: int) returns (r: Outcome<CreatedSession>)
    requires db.Valid()
    requires userId !in db.users && sessionId !in db.sessions
    modifies db`users, db`connections, db`sessions
    ensures db.Valid()
    ensures var clash := Taken(old(db.users), Lower(email), Lower(username)) ||
                         ConnectionKey(providerName, providerId) in old(db.connections);
      && (clash ==> r == Failed(UniqueViolation) && db.users == old(db.users) &&
                    db.connections == old(db.connections) && db.sessions == old(db.sessions))
      && (!clash ==>
            && r == Continue(CreatedSession(sessionId, now + SessionExpirationTime))
            && db.users == Upsert(old(db.users), userId,
                 User(Lower(email), Lower(username), name, {UserRole},
                      if imageUrl.Some? && imageUrl.value != "" then imageUrl else None))
            && db.connections == Upsert(old(db.connections), ConnectionKey(providerName, providerId), userId)
            && db.sessions == Upsert(old(db.sessions), sessionId, SessionRow(userId, now + SessionExpirationTime)))
  {
    var image := if imageUrl.Some? && imageUrl.value != "" then imageUrl else None;
    var user := User(Lower(email), Lower(username), name, {UserRole}, image);
    var key := ConnectionKey(providerName, providerId);
    if Taken(db.users, user.email, user.username) || key in db.connections {
      return Failed(UniqueViolation);
    }
    AddUserKeepsValid(db.users, userId, user);
    db.users := db.users[userId := user];
    db.connections := db.connections[key := userId];
    var expires := SessionExpirationDate(now);
    db.sessions := db.sessions[sessionId := SessionRow(userId, expires)];
    r := Continue(CreatedSession(sessionId, expires));
  }
}
