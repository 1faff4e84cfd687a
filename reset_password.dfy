/**
 * The password-reset flow of app/routes/_auth+/reset-password.tsx: a
 * verified target is resolved to a user whose username is stashed in the
 * verification cookie; the reset page then requires that username, checks the
 * two passwords, replaces the hash and destroys the cookie.
 */
module ResetPassword {
  import opened Http
  import opened Database
  import opened SessionStorage
  import opened Auth

  const ResetPasswordUsernameKey := "resetPasswordUsername"
  const InvalidCode := "Invalid code"
  const PasswordsDidNotMatch := "The passwords did not match"
  const ResetPasswordPath := "/reset-password"

  /**
   * `findFirst` over `email = target OR username = target`: a user with that
   * email, else a user with that username, else none.
   */
  function UserByTarget(users: map<UserId, User>, target: string): (r: Option<UserId>)
    requires UniqueUsernames(users) && UniqueEmails(users)
    ensures r.Some? ==> r.value in users && (users[r.value].email == target || users[r.value].username == target)
    ensures r.None? <==> forall id :: id in users ==> users[id].email != target && users[id].username != target
  {
    match UserByEmail(users, target)
    case Some(id) => Some(id)
    case None => UserByUsername(users, target)
  }

  /** The username the verification cookie holds for the reset page, if it is a non-empty string. */
  function ResetUsername(request: Request): Option<string> {
    IdAt(CookieBag(request, VerificationCookieName), ResetPasswordUsernameKey)
  }

  /**
   * What the reset branch of a verified code answers: a 400 with "Invalid
   * code" on the code field when no user has the target as email or
   * username; otherwise a redirect to `/reset-password` whose verification
   * cookie now names that user.
   */
  function VerifiedResponse(users: map<UserId, User>, request: Request, target: string,
                            payload: map<string, string>): (r: Response)
    requires UniqueUsernames(users) && UniqueEmails(users)
    ensures UserByTarget(users, target).None? <==> r.Json?
    ensures r.Json? ==> r == Json(400, Submission(Error, payload, map["code" := [Custom(InvalidCode)]]))
    ensures r.Redirect? ==>
      var u := UserByTarget(users, target).value;
      && r.location == Path(ResetPasswordPath) && r.toast.None?
      && r.cookies == [CommitVerification(CookieBag(request, VerificationCookieName)
                                            [ResetPasswordUsernameKey := Str(users[u].username)])]
      && (users[u].username != "" ==> ResetUsername(After(request, r)) == Some(users[u].username))
  {
    match UserByTarget(users, target)
    case None => Json(400, Submission(Error, payload, map["code" := [Custom(InvalidCode)]]))
    case Some(u) =>
      var r := Redirect(Path(ResetPasswordPath), [CommitVerification(CookieBag(request, VerificationCookieName)
                                                  [ResetPasswordUsernameKey := Str(users[u].username)])], None);
      ApplyOne(request.cookies, r.cookies[0]);
      r
  }

  /** `handleVerification`: sets the username in the request's verification session and commits it. */
  method HandleVerification(db: Db, request: Request, target: string, payload: map<string, string>) returns (r: Response)
    requires db.Valid()
    ensures r == VerifiedResponse(db.users, request, target, payload)
  {
    var user := UserByTarget(db.users, target);
    if user.None? {
      return Json(400, Submission(Error, payload, map["code" := [Custom(InvalidCode)]]));
    }
    var verifySession := new CookieSession(CookieBag(request, VerificationCookieName));
    verifySession.Set(ResetPasswordUsernameKey, Str(db.users[user.value].username));
    r := Redirect(Path(ResetPasswordPath), [CommitVerification(verifySession.data)], None);
  }

  /**
   * `requireResetPasswordUsername`: anonymous visitors only, and only with a
   * non-empty username in the verification cookie; otherwise off to `/login`.
   * The only write is the one `requireAnonymous` may make.
   */
  method RequireResetPasswordUsername(db: Db, request: Request, now: int, safe: Sanitizer) returns (r: Outcome<string>)
    modifies db`sessions
    ensures db.sessions == SessionsAfterAnonymous(old(db.sessions), request, now)
    ensures PendingSessionId(request).Some? || ResolveSession(old(db.sessions), request, now) != NoSession ==> !r.Continue?
    ensures PendingSessionId(request).None? && ResolveSession(old(db.sessions), request, now) == NoSession ==>
      && db.sessions == old(db.sessions)
      && (ResetUsername(request).None? ==> r == Thrown(Redirect(Path("/login"), [], None)))
      && (ResetUsername(request).Some? ==> r == Continue(ResetUsername(request).value))
    ensures r.Continue? ==> r.value != ""
  {
    var anonymous := RequireAnonymous(db, request, now, safe);
    if !anonymous.Continue? {
      return match anonymous
        case Thrown(response) => Thrown(response)
        case Failed(fault) => Failed(fault);
    }
    var username := ResetUsername(request);
    if username.None? {
      return Thrown(Redirect(Path("/login"), [], None));
    }
    r := Continue(username.value);
  }

  /**
   * `ResetPasswordSchema`: both passwords must pass the password schema
   * (`passwordOk`, whose failures do not abort the object); whenever both
   * are present the refinement also compares them, a mismatch being
   * reported after any other issue on `confirmPassword`.
   */
  function ResetPasswordSchema(fields: map<string, string>, passwordOk: string -> bool): (r: FieldCheck<string>)
    ensures r.FieldsOk? <==> (FormField(fields, "password").Some? && passwordOk(fields["password"]) &&
                              FormField(fields, "confirmPassword") == FormField(fields, "password"))
    ensures r.FieldsOk? ==> r.value == fields["password"] && r.value != ""
    ensures r.FieldsRejected? ==>
      && ("password" in r.errors <==> FormField(fields, "password").None? || !passwordOk(fields["password"]))
      && ("password" in r.errors ==> r.errors["password"] == [SchemaViolation])
      && r.errors.Keys <= {"password", "confirmPassword"}
    ensures var mismatch := FormField(fields, "password").Some? && FormField(fields, "confirmPassword").Some? &&
                            fields["password"] != fields["confirmPassword"];
      && (mismatch <==> r.FieldsRejected? && "confirmPassword" in r.errors &&
                        Custom(PasswordsDidNotMatch) in r.errors["confirmPassword"])
      && (r.FieldsRejected? && !mismatch ==>
            ("confirmPassword" in r.errors <==> FormField(fields, "confirmPassword").None? ||
                                                !passwordOk(fields["confirmPassword"])) &&
            ("confirmPassword" in r.errors ==> r.errors["confirmPassword"] == [SchemaViolation]))
      && (mismatch && passwordOk(fields["confirmPassword"]) ==>
            r.errors["confirmPassword"] == [Custom(PasswordsDidNotMatch)])
      && (mismatch && !passwordOk(fields["confirmPassword"]) ==>
            r.errors["confirmPassword"] == [SchemaViolation, Custom(PasswordsDidNotMatch)])
    ensures FormField(fields, "password").Some? && FormField(fields, "confirmPassword").Some? &&
            passwordOk(fields["password"]) && passwordOk(fields["confirmPassword"]) &&
            fields["password"] != fields["confirmPassword"] ==>
              r == FieldsRejected(map["confirmPassword" := [Custom(PasswordsDidNotMatch)]])
  {
    var password := FormField(fields, "password");
    var confirm := FormField(fields, "confirmPassword");
    var passwordBad := password.None? || !passwordOk(password.value);
    var confirmBad := confirm.None? || !passwordOk(confirm.value);
    // a missing field aborts the object and the refinement does not run
    var mismatch := password.Some? && confirm.Some? && password.value != confirm.value;
    if !passwordBad && !confirmBad && !mismatch then FieldsOk(password.value)
    else
      var confirmErrors := (if confirmBad then [SchemaViolation] else []) +
                           (if mismatch then [Custom(PasswordsDidNotMatch)] else []);
      var errors := if passwordBad then map["password" := [SchemaViolation]] else map[];
      FieldsRejected(if confirmErrors == [] then errors else errors["confirmPassword" := confirmErrors])
  }

  /** The loader: the page shows the username it will reset, to anonymous visitors only. */
  method Loader(db: Db, request: Request, now: int, safe: Sanitizer) returns (r: Outcome<Response>)
    modifies db`sessions
    ensures db.sessions == SessionsAfterAnonymous(old(db.sessions), request, now)
    ensures var anonymous := PendingSessionId(request).None? && ResolveSession(old(db.sessions), request, now) == NoSession;
      && (!anonymous ==> !r.Continue?)
      && (anonymous && ResetUsername(request).None? ==> r == Thrown(Redirect(Path("/login"), [], None)))
      && (anonymous && ResetUsername(request).Some? ==>
            r == Continue(Json(200, Body.ResetUsername(ResetUsername(request).value))))
  {
    var username := RequireResetPasswordUsername(db, request, now, safe);
    if !username.Continue? {
      return match username
        case Thrown(response) => Thrown(response)
        case Failed(fault) => Failed(fault);
    }
    r := Continue(Json(200, Body.ResetUsername(username.value)));
  }

  /**
   * The action: on matching valid passwords the stashed user's hash is
   * replaced (so that user now logs in with the new password), the
   * verification cookie is destroyed and the browser goes to `/login`; a
   * stashed username without a user or password row makes the update throw.
   */
  method Action(db: Db, request: Request, intent: string, fields: map<string, string>,
                passwordOk: string -> bool, now: int, safe: Sanitizer) returns (r: Outcome<Response>)
    requires db.Valid()
    modifies db`sessions, db`passwords
    ensures db.Valid()
    ensures db.sessions == SessionsAfterAnonymous(old(db.sessions), request, now)
    ensures var admitted := PendingSessionId(request).None? && ResolveSession(old(db.sessions), request, now) == NoSession &&
                            ResetUsername(request).Some?;
      !admitted ==> !r.Continue? && db.passwords == old(db.passwords)
    ensures var admitted := PendingSessionId(request).None? && ResolveSession(old(db.sessions), request, now) == NoSession &&
                            ResetUsername(request).Some?;
      admitted && intent == "submit" && ResetPasswordSchema(fields, passwordOk).FieldsOk? ==>
        var u := UserByUsername(db.users, ResetUsername(request).value);
        (r.Continue? <==> u.Some? && u.value in old(db.passwords)) &&
        (!r.Continue? ==> r == Failed(RecordNotFound) && db.passwords == old(db.passwords))
    ensures var admitted := PendingSessionId(request).None? && ResolveSession(old(db.sessions), request, now) == NoSession &&
                            ResetUsername(request).Some?;
      admitted && !(intent == "submit" && ResetPasswordSchema(fields, passwordOk).FieldsOk?) ==> r.Continue?
    ensures r.Continue? && intent != "submit" ==>
      var check := ResetPasswordSchema(fields, passwordOk);
      r.value == Json(200, Submission(Idle, fields, if check.FieldsRejected? then check.errors else map[]))
      && db.passwords == old(db.passwords)
    ensures r.Continue? && intent == "submit" && ResetPasswordSchema(fields, passwordOk).FieldsRejected? ==>
      r.value == Json(400, Submission(Error, fields, ResetPasswordSchema(fields, passwordOk).errors))
      && db.passwords == old(db.passwords)
    ensures r.Continue? && intent == "submit" && ResetPasswordSchema(fields, passwordOk).FieldsOk? ==>
      && ResetUsername(request).Some? && UserByUsername(db.users, ResetUsername(request).value).Some?
      && var u := UserByUsername(db.users, ResetUsername(request).value).value;
      && r.value == Redirect(Path("/login"), [Destroy(VerificationCookieName)], None)
      && db.passwords == Upsert(old(db.passwords), u, HashPassword(fields["password"]))
      && VerifyUserPassword(db.users, db.passwords, ByUsername(ResetUsername(request).value), fields["password"]) == Some(u)
      && ResetUsername(After(request, r.value)).None?
  {
    var username := RequireResetPasswordUsername(db, request, now, safe);
    if !username.Continue? {
      return match username
        case Thrown(response) => Thrown(response)
        case Failed(fault) => Failed(fault);
    }
    var check := ResetPasswordSchema(fields, passwordOk);
    if intent != "submit" {
      return Continue(Json(200, Submission(Idle, fields, if check.FieldsRejected? then check.errors else map[])));
    }
    if check.FieldsRejected? {
      return Continue(Json(400, Submission(Error, fields, check.errors)));
    }
    var reset := ResetUserPassword(db, username.value, check.value);
    if !reset.Continue? {
      return match reset
        case Thrown(response) => Thrown(response)
        case Failed(fault) => Failed(fault);
    }
    PasswordRoundTrip(db.users, db.passwords, reset.value, check.value, check.value);
    r := Continue(Redirect(Path("/login"), [Destroy(VerificationCookieName)], None));
    ApplyOne(request.cookies, Destroy(VerificationCookieName));
  }
}
