/**
 * The two-factor settings routes: app/routes/settings+/profile.two-factor.index.tsx
 * (is 2FA on; start an enrollment) and
 * app/routes/settings+/profile.two-factor.disable.tsx (turn 2FA off after a
 * recent second-factor check). The standing (userId, "2fa") verification row
 * is the "2FA enabled" marker.
 */
module TwoFactor {
  import opened Http
  import opened Database
  import opened Auth
  import opened Login

  /**
   * The type of a pending enrollment row. Its definition lives in
   * app/routes/settings+/profile.two-factor.verify.tsx, which is not part of
   * this model; all that matters here is that it differs from "2fa".
   */
  const TwoFAVerifyType := "2fa-verify"
  /** Lifetime of a pending enrollment: ten minutes, in milliseconds. */
  const EnrollmentWindow := 10 * 60 * 1000
  const EnrollPath := "/settings/profile/two-factor/verify"
  const TwoFactorPath := "/settings/profile/two-factor"

  const ReverifyToast := Toast(Message, "Please Revirify", "You must reverify your account to proceed.")
  const DisabledToast := Toast(Success, "2FA Disabled", "You have disabled 2FA")

  function MarkerKey(userId: UserId): VerificationKey {
    VerificationKey(userId, TwoFAType)
  }

  /** The index loader: logged-in users only; reports whether their marker row exists. */
  method IndexLoader(db: Db, request: Request, now: int, safe: Sanitizer) returns (r: Outcome<Response>)
    modifies db`sessions
    ensures db.sessions == SessionsAfterLookup(old(db.sessions), request, now)
    ensures match ResolveSession(old(db.sessions), request, now)
      case NoSession => r == Thrown(Redirect(Link(LoginRedirect(request.url, Unspecified)), [], None))
      case Active(u) => r == Continue(Json(200, TwoFAStatus(MarkerKey(u) in db.verifications)))
      case Stale(_) => r == Thrown(LogoutResponse("/", safe))
  {
    var userId := RequireUserId(db, request, Unspecified, now, safe);
    if !userId.Continue? {
      return match userId
        case Thrown(response) => Thrown(response)
        case Failed(fault) => Failed(fault);
    }
    r := Continue(Json(200, TwoFAStatus(MarkerKey(userId.value) in db.verifications)));
  }

  /**
   * The index action: logged-in users only; (re)issues the pending
   * enrollment row with a fresh TOTP configuration expiring in ten minutes,
   * touches no other row, and goes to the enrollment page.
   */
  method IndexAction(db: Db, request: Request, config: TotpConfig, now: int, safe: Sanitizer) returns (r: Outcome<Response>)
    modifies db`sessions, db`verifications
    ensures db.sessions == SessionsAfterLookup(old(db.sessions), request, now)
    ensures !ResolveSession(old(db.sessions), request, now).Active? ==> db.verifications == old(db.verifications)
    ensures ResolveSession(old(db.sessions), request, now).NoSession? ==>
      r == Thrown(Redirect(Link(LoginRedirect(request.url, Unspecified)), [], None))
    ensures ResolveSession(old(db.sessions), request, now).Stale? ==> r == Thrown(LogoutResponse("/", safe))
    ensures ResolveSession(old(db.sessions), request, now).Active? ==>
      var u := ResolveSession(old(db.sessions), request, now).userId;
      && r == Continue(Redirect(Path(EnrollPath), [], None))
      && db.verifications == Upsert(old(db.verifications), VerificationKey(u, TwoFAVerifyType),
                                    Verification(config, Some(now + EnrollmentWindow)))
      && (MarkerKey(u) in db.verifications <==> MarkerKey(u) in old(db.verifications))
  {
    var userId := RequireUserId(db, request, Unspecified, now, safe);
    if !userId.Continue? {
      return match userId
        case Thrown(response) => Thrown(response)
        case Failed(fault) => Failed(fault);
    }
    var key := VerificationKey(userId.value, TwoFAVerifyType);
    db.verifications := db.verifications[key := Verification(config, Some(now + EnrollmentWindow))];
    r := Continue(Redirect(Path(EnrollPath), [], None));
  }

  /**
   * `requireRecentVerification`: when the gate asks for a second factor, a
   * redirect to the 2FA step that comes back to this very page; otherwise
   * the caller goes on.
   */
  function RequireRecentVerification(verifications: map<VerificationKey, Verification>, request: Request,
                                     userId: UserId, now: int): (r: Outcome<()>)
    ensures r.Continue? <==> !ShouldRequestTwoFA(verifications, request, userId, now)
    ensures r.Thrown? ==>
      var back := request.url.pathname + Search(request.url);
      && r.response == Redirect(Link(GetRedirectToUrl(request.url.domain, TwoFAType, userId, Some(back))), [],
                                Some(ReverifyToast))
      && r.response.location.url.origin == request.url.domain && r.response.location.url.path == "/verify"
      && Lookup(r.response.location.url.params, TypeParam) == Some(TwoFAType)
      && Lookup(r.response.location.url.params, TargetParam) == Some(userId)
      && (back != "" ==> Lookup(r.response.location.url.params, RedirectToParam) == Some(back))
    ensures !r.Failed?
  {
    var back := request.url.pathname + Search(request.url);
    var url := GetRedirectToUrl(request.url.domain, TwoFAType, userId, Some(back));
    if ShouldRequestTwoFA(verifications, request, userId, now) then
      Thrown(Redirect(Link(url), [], Some(ReverifyToast)))
    else Continue(())
  }

  /** The disable loader: logged in, and recently verified. */
  method DisableLoader(db: Db, request: Request, now: int, safe: Sanitizer) returns (r: Outcome<Response>)
    modifies db`sessions
    ensures db.sessions == SessionsAfterLookup(old(db.sessions), request, now)
    ensures r.Continue? <==> (ResolveSession(old(db.sessions), request, now).Active? &&
      !ShouldRequestTwoFA(db.verifications, request, ResolveSession(old(db.sessions), request, now).userId, now))
    ensures r.Continue? ==> r.value == Json(200, Empty)
  {
    var userId := RequireUserId(db, request, Unspecified, now, safe);
    if !userId.Continue? {
      return match userId
        case Thrown(response) => Thrown(response)
        case Failed(fault) => Failed(fault);
    }
    var recent := RequireRecentVerification(db.verifications, request, userId.value, now);
    if !recent.Continue? {
      return Thrown(recent.response);
    }
    r := Continue(Json(200, Empty));
  }

  /**
   * The disable action: logged in and recently verified, it deletes exactly
   * the user's marker row (a missing one makes the delete throw) and throws a
   * redirect back to the settings page with a success toast. Nothing is
   * deleted when either guard stops the request.
   */
  method DisableAction(db: Db, request: Request, now: int, safe: Sanitizer) returns (r: Outcome<Response>)
    modifies db`sessions, db`verifications
    ensures db.sessions == SessionsAfterLookup(old(db.sessions), request, now)
    ensures !r.Continue?
    ensures var res := ResolveSession(old(db.sessions), request, now);
      !(res.Active? && !ShouldRequestTwoFA(old(db.verifications), request, res.userId, now)) ==>
        db.verifications == old(db.verifications) && !r.Failed?
    ensures var res := ResolveSession(old(db.sessions), request, now);
      res.Active? && !ShouldRequestTwoFA(old(db.verifications), request, res.userId, now) ==>
        && (MarkerKey(res.userId) !in old(db.verifications) ==>
              r == Failed(RecordNotFound) && db.verifications == old(db.verifications))
        && (MarkerKey(res.userId) in old(db.verifications) ==>
              r == Thrown(Redirect(Path(TwoFactorPath), [], Some(DisabledToast))) &&
              db.verifications == DeleteKey(old(db.verifications), MarkerKey(res.userId)))
  {
    var userId := RequireUserId(db, request, Unspecified, now, safe);
    if !userId.Continue? {
      return match userId
        case Thrown(response) => Thrown(response)
        case Failed(fault) => Failed(fault);
    }
    var recent := RequireRecentVerification(db.verifications, request, userId.value, now);
    if !recent.Continue? {
      return Thrown(recent.response);
    }
    var key := MarkerKey(userId.value);
    if key !in db.verifications {
      return Failed(RecordNotFound);
    }
    db.verifications := db.verifications - {key};
    r := Thrown(Redirect(Path(TwoFactorPath), [], Some(DisabledToast)));
  }
}
