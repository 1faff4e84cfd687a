/**
 * The two-factor gate of app/routes/_auth+/login.tsx: whether a fresh login
 * must pass a second factor, how a new session is either committed to the
 * primary cookie or parked in the verification cookie, how a verified
 * second factor promotes the parked session, and the login action.
 */
module Login {
  import opened Http
  import opened Database
  import opened SessionStorage
  import opened Auth

  /**
   * `new Date(userSession.get(verifiedTimeKey) ?? 0).getTime()`: a stored
   * time, 0 when nothing is stored, and no number (an invalid date) for a
   * stored string.
   */
  function VerifiedTime(bag: Bag): (t: Option<int>)
    ensures VerifiedTimeKey !in bag ==> t == Some(0)
    ensures VerifiedTimeKey in bag && bag[VerifiedTimeKey].Millis? ==> t == Some(bag[VerifiedTimeKey].ms)
    ensures VerifiedTimeKey in bag && bag[VerifiedTimeKey].Str? ==> t.None?
  {
    if VerifiedTimeKey !in bag then Some(0)
    else match bag[VerifiedTimeKey]
      case Millis(ms) => Some(ms)
      case Flag(b) => Some(if b then 1 else 0)
      case Str(_) => None
  }

  /** The verification cookie holds a truthy unverified session id. */
  predicate PendingMarker(request: Request) {
    var bag := CookieBag(request, VerificationCookieName);
    UnverifiedSessionIdKey in bag && Truthy(bag[UnverifiedSessionIdKey])
  }

  /**
   * `shouldRequestTwoFA`: a pending login always needs the second factor;
   * a user without a standing "2fa" row never does; otherwise the second
   * factor is asked again once the last check is more than 5 seconds old.
   */
  function ShouldRequestTwoFA(verifications: map<VerificationKey, Verification>, request: Request,
                              userId: UserId, now: int): (b: bool)
    ensures PendingMarker(request) ==> b
    ensures !PendingMarker(request) && VerificationKey(userId, TwoFAType) !in verifications ==> !b
    ensures !PendingMarker(request) && VerificationKey(userId, TwoFAType) in verifications ==>
              (b <==> var t := VerifiedTime(CookieBag(request, SessionCookieName)); t.Some? && now - t.value > ReverifyWindow)
  {
    if PendingMarker(request) then true
    else if VerificationKey(userId, TwoFAType) !in verifications then false
    else
      var t := VerifiedTime(CookieBag(request, SessionCookieName));
      t.Some? && now - t.value > ReverifyWindow
  }

  /** Once the second factor is due it stays due as time passes. */
  lemma TwoFAStaysDue(verifications: map<VerificationKey, Verification>, request: Request, userId: UserId, now: int, later: int)
    requires now <= later
    requires ShouldRequestTwoFA(verifications, request, userId, now)
    ensures ShouldRequestTwoFA(verifications, request, userId, later)
  {
  }

  /**
   * Within 5 seconds of a check stamped at `stamped`, and with no pending
   * login, the gate lets the user through.
   */
  lemma FreshCheckPasses(verifications: map<VerificationKey, Verification>, request: Request, userId: UserId,
                         stamped: int, now: int)
    requires !PendingMarker(request)
    requires VerifiedTimeKey in CookieBag(request, SessionCookieName)
    requires CookieBag(request, SessionCookieName)[VerifiedTimeKey] == Millis(stamped)
    requires now - stamped <= ReverifyWindow
    ensures !ShouldRequestTwoFA(verifications, request, userId, now)
  {
  }

  /** The stage of a browser, in the order `requireAnonymous` checks it. */
  datatype Stage = Anonymous | Pending(sessionId: SessionId) | Authenticated(userId: UserId)

  function StageOf(request: Request, sessions: map<SessionId, SessionRow>, now: int): (s: Stage)
    ensures s.Pending? <==> PendingSessionId(request).Some?
    ensures s.Pending? ==> s.sessionId == PendingSessionId(request).value
    ensures s.Authenticated? ==> ResolveSession(sessions, request, now) == Active(s.userId)
    ensures PendingSessionId(request).None? && ResolveSession(sessions, request, now).Active? ==>
      s == Authenticated(ResolveSession(sessions, request, now).userId)
    ensures s.Anonymous? <==> PendingSessionId(request).None? && !ResolveSession(sessions, request, now).Active?
  {
    match PendingSessionId(request)
    case Some(sid) => Pending(sid)
    case None =>
      match ResolveSession(sessions, request, now)
      case Active(u) => Authenticated(u)
      case _ => Anonymous
  }

  /** The options `handleNewSession` and `handleVerification` commit with. */
  function RememberOptions(remember: bool, expirationDate: int): CommitOptions {
    CommitOptions(if remember then Some(expirationDate) else None, None)
  }

  /**
   * `handleNewSession`. When the gate asks for a second factor only the
   * verification cookie is written (a fresh bag with the session id and the
   * remember flag) and the browser goes to `/verify?type=2fa&target=…`;
   * otherwise the session id joins the primary cookie, which expires with the
   * session only when `remember` is set, and the browser goes to the
   * sanitised target. Either way the browser ends up Pending or Authenticated.
   */
  method HandleNewSession(db: Db, request: Request, session: NewSession, remember: bool,
                          redirectTo: Option<string>, now: int, safe: Sanitizer) returns (r: Response)
    ensures r.Redirect? && r.toast.None? && |r.cookies| == 1 && r.cookies[0].Commit?
    ensures ShouldRequestTwoFA(db.verifications, request, session.userId, now) ==>
      && r.location == Link(GetRedirectToUrl(request.url.domain, TwoFAType, session.userId, redirectTo))
      && r.cookies == [CommitVerification(map[UnverifiedSessionIdKey := Str(session.id), RememberMeKey := Flag(remember)])]
      && CookieSessionId(After(request, r)) == CookieSessionId(request)
      && (session.id != "" ==> StageOf(After(request, r), db.sessions, now) == Pending(session.id))
    ensures !ShouldRequestTwoFA(db.verifications, request, session.userId, now) ==>
      && r.location == Path(safe(redirectTo, "/"))
      && r.cookies[0].name == SessionCookieName
      && r.cookies[0].data == StoreExpiry(CookieBag(request, SessionCookieName)[SessionIdKey := Str(session.id)],
                                          RememberOptions(remember, session.expirationDate), now)
      && r.cookies[0].maxAge.None?
      && (remember ==> r.cookies[0].expires == Some(session.expirationDate))
      && (!remember ==> r.cookies[0].expires == CookieExpiry(CookieBag(request, SessionCookieName)))
      && PendingSessionId(After(request, r)).None?
      && (session.id != "" ==> CookieSessionId(After(request, r)) == Some(session.id))
      && (session.id != "" && session.id in db.sessions && db.sessions[session.id].userId == session.userId &&
          db.sessions[session.id].expirationDate >= now ==>
            StageOf(After(request, r), db.sessions, now) == Authenticated(session.userId))
  {
    if ShouldRequestTwoFA(db.verifications, request, session.userId, now) {
      var verifySession := new CookieSession(map[]);
      verifySession.Set(UnverifiedSessionIdKey, Str(session.id));
      verifySession.Set(RememberMeKey, Flag(remember));
      var url := GetRedirectToUrl(request.url.domain, TwoFAType, session.userId, redirectTo);
      r := Redirect(Link(url), [CommitVerification(verifySession.data)], None);
      ApplyOne(request.cookies, r.cookies[0]);
      return;
    }
    var userSession := new CookieSession(CookieBag(request, SessionCookieName));
    userSession.Set(SessionIdKey, Str(session.id));
    var header := CommitSession(userSession, RememberOptions(remember, session.expirationDate), now);
    r := Redirect(Path(safe(redirectTo, "/")), [header], None);
    ApplyOne(request.cookies, header);
    assert CookieBag(After(request, r), VerificationCookieName) == CookieBag(request, VerificationCookieName);
  }

  const InvalidSessionToast := Toast(Failure, "Invalid session", "Could not find the session. Please try again.")

  /**
   * `handleVerification` (the 2FA branch of a verified code): stamps the
   * check time into the primary cookie and always destroys the
   * verification cookie. A parked session whose row is gone sends the
   * browser back to `/login` with an error toast; a live one is promoted into
   * the primary cookie (expiring with the session when "remember me" was
   * ticked) and the browser is then Authenticated.
   */
  method HandleVerification(db: Db, request: Request, redirectTo: Option<string>, now: int, safe: Sanitizer)
    returns (r: Outcome<Response>)
    ensures var pending := PendingSessionId(request);
      pending.Some? && pending.value !in db.sessions ==>
        r == Thrown(Redirect(Path("/login"), [], Some(InvalidSessionToast)))
    ensures var pending := PendingSessionId(request);
      !(pending.Some? && pending.value !in db.sessions) ==>
        && r.Continue? && r.value.Redirect? && r.value.toast.None?
        && r.value.location == Path(safe(redirectTo, "/"))
        && |r.value.cookies| == 2 && r.value.cookies[1] == Destroy(VerificationCookieName)
        && r.value.cookies[0].Commit? && r.value.cookies[0].name == SessionCookieName
        && VerifiedTimeKey in r.value.cookies[0].data && r.value.cookies[0].data[VerifiedTimeKey] == Millis(now)
        && PendingSessionId(After(request, r.value)).None?
        && VerifiedTime(CookieBag(After(request, r.value), SessionCookieName)) == Some(now)
    ensures var pending := PendingSessionId(request);
      var verifyBag := CookieBag(request, VerificationCookieName);
      var remember := RememberMeKey in verifyBag && Truthy(verifyBag[RememberMeKey]);
      pending.Some? && pending.value in db.sessions ==>
        && r.Continue?
        && r.value.cookies[0].data ==
             StoreExpiry(CookieBag(request, SessionCookieName)[VerifiedTimeKey := Millis(now)][SessionIdKey := Str(pending.value)],
                         RememberOptions(remember, db.sessions[pending.value].expirationDate), now)
        && SessionIdKey in r.value.cookies[0].data && r.value.cookies[0].data[SessionIdKey] == Str(pending.value)
        && (remember ==> r.value.cookies[0].expires == Some(db.sessions[pending.value].expirationDate))
        && (!remember ==> r.value.cookies[0].expires == CookieExpiry(CookieBag(request, SessionCookieName)))
        && CookieSessionId(After(request, r.value)) == pending
        && (db.sessions[pending.value].expirationDate >= now ==>
              StageOf(After(request, r.value), db.sessions, now) == Authenticated(db.sessions[pending.value].userId))
    ensures PendingSessionId(request).None? ==>
        && r.Continue?
        && r.value.cookies[0].data == StoreExpiry(CookieBag(request, SessionCookieName)[VerifiedTimeKey := Millis(now)],
                                                  NoOptions, now)
        && r.value.cookies[0].expires == CookieExpiry(CookieBag(request, SessionCookieName))
  {
    var userSession := new CookieSession(CookieBag(request, SessionCookieName));
    var verifyBag := CookieBag(request, VerificationCookieName);
    var pending := PendingSessionId(request);
    var remember := RememberMeKey in verifyBag && Truthy(verifyBag[RememberMeKey]);
    userSession.Set(VerifiedTimeKey, Millis(now));
    var header;
    if pending.Some? {
      if pending.value !in db.sessions {
        return Thrown(Redirect(Path("/login"), [], Some(InvalidSessionToast)));
      }
      var expirationDate := db.sessions[pending.value].expirationDate;
      userSession.Set(SessionIdKey, Str(pending.value));
      header := CommitSession(userSession, RememberOptions(remember, expirationDate), now);
    } else {
      header := CommitSession(userSession, NoOptions, now);
    }
    var response := Redirect(Path(safe(redirectTo, "/")), [header, Destroy(VerificationCookieName)], None);
    ApplyTwo(request.cookies, header, VerificationCookieName);
    assert CookieBag(After(request, response), SessionCookieName) == header.data;
    r := Continue(response);
  }

  // ---------------------------------------------------------------------
  // The route

  /** The fields of the login form once the username and password schemas accepted them. */
  datatype LoginForm = LoginForm(username: string, password: string, remember: bool, redirectTo: Option<string>)

  const PasswordField := "password"
  const InvalidCredentials := "Invalid username or password"
  const SubmitIntent := "submit"

  /** The loader: only anonymous visitors see the login page. */
  method Loader(db: Db, request: Request, now: int, safe: Sanitizer) returns (r: Outcome<Response>)
    modifies db`sessions
    ensures db.sessions == SessionsAfterAnonymous(old(db.sessions), request, now)
    ensures var pending := PendingSessionId(request);
      && (pending.Some? || ResolveSession(old(db.sessions), request, now) != NoSession ==> !r.Continue?)
      && (pending.None? && ResolveSession(old(db.sessions), request, now) == NoSession ==>
            r == Continue(Json(200, Empty)) && db.sessions == old(db.sessions))
  {
    var anonymous := RequireAnonymous(db, request, now, safe);
    if !anonymous.Continue? {
      return match anonymous
        case Thrown(response) => Thrown(response)
        case Failed(fault) => Failed(fault);
    }
    r := Continue(Json(200, Empty));
  }

  /**
   * The action: anonymous visitors only; the credential check runs only
   * for a submitted form whose fields passed; the password never comes back
   * in the echoed payload; bad credentials are a 400 with one form-level
   * error; good ones go through `handleNewSession`.
   */
  method Action(db: Db, request: Request, intent: string, payload: map<string, string>,
                fields: FieldCheck<LoginForm>, freshId: SessionId, now: int, safe: Sanitizer)
    returns (r: Outcome<Response>)
    requires db.Valid()
    requires freshId !in db.sessions && freshId != ""
    modifies db`sessions
    ensures db.Valid()
    ensures var admitted := PendingSessionId(request).None? && ResolveSession(old(db.sessions), request, now) == NoSession;
      && (admitted ==> r.Continue?)
      && (!admitted ==> !r.Continue? && db.sessions == SessionsAfterAnonymous(old(db.sessions), request, now))
    ensures r.Continue? && intent != SubmitIntent ==>
      r.value == Json(200, Submission(Idle, payload - {PasswordField},
                                      if fields.FieldsRejected? then fields.errors else map[]))
      && db.sessions == old(db.sessions)
    ensures r.Continue? && intent == SubmitIntent && fields.FieldsRejected? ==>
      r.value == Json(400, Submission(Error, payload - {PasswordField}, fields.errors))
      && db.sessions == old(db.sessions)
    ensures r.Continue? && intent == SubmitIntent && fields.FieldsOk? &&
            VerifyUserPassword(db.users, db.passwords, ByUsername(fields.value.username), fields.value.password).None? ==>
      r.value == Json(400, Submission(Error, payload - {PasswordField}, map["" := [Custom(InvalidCredentials)]]))
      && db.sessions == old(db.sessions)
    ensures r.Continue? && intent == SubmitIntent && fields.FieldsOk? &&
            VerifyUserPassword(db.users, db.passwords, ByUsername(fields.value.username), fields.value.password).Some? ==>
      var u := VerifyUserPassword(db.users, db.passwords, ByUsername(fields.value.username), fields.value.password).value;
      && db.sessions == old(db.sessions)[freshId := SessionRow(u, now + SessionExpirationTime)]
      && r.value.Redirect?
      && var due := ShouldRequestTwoFA(db.verifications, request, u, now);
      && r.value.location == (if due then Link(GetRedirectToUrl(request.url.domain, TwoFAType, u, fields.value.redirectTo))
                              else Path(safe(fields.value.redirectTo, "/")))
      && StageOf(After(request, r.value), db.sessions, now) == (if due then Pending(freshId) else Authenticated(u))
  {
    var anonymous := RequireAnonymous(db, request, now, safe);
    if !anonymous.Continue? {
      return match anonymous
        case Thrown(response) => Thrown(response)
        case Failed(fault) => Failed(fault);
    }
    var echoed := payload - {PasswordField};
    if intent != SubmitIntent {
      return Continue(Json(200, Submission(Idle, echoed, if fields.FieldsRejected? then fields.errors else map[])));
    }
    if fields.FieldsRejected? {
      return Continue(Json(400, Submission(Error, echoed, fields.errors)));
    }
    var form := fields.value;
    var session := Login(db, form.username, form.password, freshId, now);
    if session.None? {
      return Continue(Json(400, Submission(Error, echoed, map["" := [Custom(InvalidCredentials)]])));
    }
    var response := HandleNewSession(db, request, session.value, form.remember, form.redirectTo, now, safe);
    r := Continue(response);
  }
}
