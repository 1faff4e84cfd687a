/**
 * The one-time-code store of app/routes/_auth+/verify.tsx: issuing a code
 * (one row per target and type, the latest replacing any earlier one),
 * checking a code against the stored TOTP configuration with inclusive
 * expiry, and consuming it on success before dispatching by type.
 */
module Verify {
  import opened Http
  import opened Database
  import opened Auth
  import ResetPassword

  /** The verification types the schema accepts. */
  datatype VerificationType = Onboarding | ResetPasswordType

  function TypeName(t: VerificationType): (s: string)
    ensures s == "onboarding" || s == "reset-password"
    ensures s != TwoFAType
  {
    match t
    case Onboarding => "onboarding"
    case ResetPasswordType => "reset-password"
  }

  /** The enum check of the schema: exactly the two names above are accepted. */
  function ParseType(s: string): (r: Option<VerificationType>)
    ensures r.Some? ==> TypeName(r.value) == s
    ensures (exists t :: TypeName(t) == s) ==> r.Some?
  {
    if s == "onboarding" then Some(Onboarding)
    else if s == "reset-password" then Some(ResetPasswordType)
    else None
  }

  lemma ParseTypeRoundTrip(t: VerificationType)
    ensures ParseType(TypeName(t)) == Some(t)
  {
  }

  /** A submission the schema accepted. */
  datatype VerifyForm = VerifyForm(code: string, kind: VerificationType, target: string, redirectTo: Option<string>)

  const CodeLength := 6

  predicate CodeOk(body: map<string, string>) {
    FormField(body, CodeParam).Some? && |body[CodeParam]| == CodeLength
  }

  predicate TypeOk(body: map<string, string>) {
    FormField(body, TypeParam).Some? && ParseType(body[TypeParam]).Some?
  }

  predicate TargetOk(body: map<string, string>) {
    FormField(body, TargetParam).Some?
  }

  /**
   * `VerifySchema`: a code of exactly six characters, a type of the enum and
   * a target; `redirectTo` is optional. A rejection names exactly the fields
   * at fault.
   */
  function VerifySchema(body: map<string, string>): (r: FieldCheck<VerifyForm>)
    ensures r.FieldsOk? <==> CodeOk(body) && TypeOk(body) && TargetOk(body)
    ensures r.FieldsOk? ==>
      && r.value.code == body[CodeParam] && |r.value.code| == CodeLength
      && TypeName(r.value.kind) == body[TypeParam]
      && r.value.target == body[TargetParam]
      && r.value.redirectTo == FormField(body, RedirectToParam)
    ensures r.FieldsRejected? ==>
      && (CodeParam in r.errors <==> !CodeOk(body))
      && (TypeParam in r.errors <==> !TypeOk(body))
      && (TargetParam in r.errors <==> !TargetOk(body))
      && r.errors.Keys <= {CodeParam, TypeParam, TargetParam}
  {
    if CodeOk(body) && TypeOk(body) && TargetOk(body) then
      FieldsOk(VerifyForm(body[CodeParam], ParseType(body[TypeParam]).value, body[TargetParam],
                          FormField(body, RedirectToParam)))
    else
      var errors := map[];
      var errors := if !CodeOk(body) then errors[CodeParam := [SchemaViolation]] else errors;
      var errors := if !TypeOk(body) then errors[TypeParam := [SchemaViolation]] else errors;
      var errors := if !TargetOk(body) then errors[TargetParam := [SchemaViolation]] else errors;
      FieldsRejected(errors)
  }

  /**
   * The schema's enum has no "2fa": a second-factor submission is always
   * rejected on its type, so it never reaches a handler.
   */
  lemma TwoFASubmissionRejected(body: map<string, string>)
    requires TypeParam in body && body[TypeParam] == TwoFAType
    ensures VerifySchema(body).FieldsRejected? && TypeParam in VerifySchema(body).errors
  {
  }

  /** What `isCodeValid` selects from the row and hands to the TOTP check (no digit count). */
  datatype TotpCheck = TotpCheck(algorithm: string, secret: string, period: int, charSet: string)

  function CheckOf(c: TotpConfig): TotpCheck {
    TotpCheck(c.algorithm, c.secret, c.period, c.charSet)
  }

  /** `verifyTOTP` at a given time, left abstract. */
  type TotpVerifier = (TotpCheck, string, int) -> bool

  /**
   * `isCodeValid`: false without a row for (target, type) or when the row
   * expired strictly before `now`; otherwise exactly what the TOTP check
   * says about the code. A row without expiry never expires.
   */
  function IsCodeValid(verifications: map<VerificationKey, Verification>, code: string, kind: string,
                       target: string, now: int, totpOk: TotpVerifier): (b: bool)
    ensures VerificationKey(target, kind) !in verifications ==> !b
    ensures var key := VerificationKey(target, kind);
      key in verifications && verifications[key].expiresAt.Some? && verifications[key].expiresAt.value < now ==> !b
    ensures var key := VerificationKey(target, kind);
      key in verifications && (verifications[key].expiresAt.None? || verifications[key].expiresAt.value >= now) ==>
        (b <==> totpOk(CheckOf(verifications[key].config), code, now))
  {
    var key := VerificationKey(target, kind);
    if key !in verifications then false
    else
      var row := verifications[key];
      if row.expiresAt.Some? && row.expiresAt.value < now then false
      else totpOk(CheckOf(row.config), code, now)
  }

  /** A deleted row accepts no code at any time: codes are single-use. */
  lemma ConsumedCodeIsDead(verifications: map<VerificationKey, Verification>, code: string, kind: string,
                           target: string, now: int, totpOk: TotpVerifier)
    ensures !IsCodeValid(DeleteKey(verifications, VerificationKey(target, kind)), code, kind, target, now, totpOk)
  {
  }

  /**
   * After a row is (re)issued only its configuration counts, up to and
   * including its expiry instant: the latest code wins.
   */
  lemma LatestCodeWins(verifications: map<VerificationKey, Verification>, key: VerificationKey, config: TotpConfig,
                       expiresAt: int, code: string, now: int, totpOk: TotpVerifier)
    ensures IsCodeValid(Upsert(verifications, key, Verification(config, Some(expiresAt))), code, key.kind, key.target, now, totpOk)
            <==> now <= expiresAt && totpOk(CheckOf(config), code, now)
  {
  }

  /** Issuing or consuming one key leaves every other key's verdict alone. */
  lemma OtherKeysUnaffected(verifications: map<VerificationKey, Verification>, key: VerificationKey, row: Verification,
                            code: string, kind: string, target: string, now: int, totpOk: TotpVerifier)
    requires VerificationKey(target, kind) != key
    ensures IsCodeValid(Upsert(verifications, key, row), code, kind, target, now, totpOk) ==
            IsCodeValid(verifications, code, kind, target, now, totpOk)
    ensures IsCodeValid(DeleteKey(verifications, key), code, kind, target, now, totpOk) ==
            IsCodeValid(verifications, code, kind, target, now, totpOk)
  {
  }

  const TotpAlgorithm := "SHA256"

  /**
   * `prepareVerification`: the row for (target, type) now holds the new
   * configuration, expiring `period` seconds from now, and nothing else
   * changed; the two URLs are the `/verify` link without and with the code.
   */
  method PrepareVerification(db: Db, period: int, request: Request, kind: VerificationType, target: string,
                             redirectTo: Option<string>, otp: string, secret: string, digits: int, charSet: string,
                             now: int) returns (verifyUrl: Url, redirectUrl: Url, code: string)
    modifies db`verifications
    ensures db.verifications == Upsert(old(db.verifications), VerificationKey(target, TypeName(kind)),
      Verification(TotpConfig(TotpAlgorithm, secret, period, digits, charSet), Some(now + period * 1000)))
    ensures redirectUrl == GetRedirectToUrl(request.url.domain, TypeName(kind), target, redirectTo)
    ensures verifyUrl == Url(redirectUrl.origin, redirectUrl.path, redirectUrl.params + [(CodeParam, otp)])
    ensures Lookup(redirectUrl.params, CodeParam).None? && Lookup(verifyUrl.params, CodeParam) == Some(otp)
    ensures code == otp
  {
    var config := TotpConfig(TotpAlgorithm, secret, period, digits, charSet);
    db.verifications := db.verifications[VerificationKey(target, TypeName(kind)) := Verification(config, Some(now + period * 1000))];
    redirectUrl := GetRedirectToUrl(request.url.domain, TypeName(kind), target, redirectTo);
    SetParamAppends(redirectUrl.params, CodeParam, otp);
    verifyUrl := Url(redirectUrl.origin, redirectUrl.path, SetParam(redirectUrl.params, CodeParam, otp));
    code := otp;
  }

  const InvalidCode := "Invalid code"

  /**
   * The schema's own checks leave the object at worst "dirty" (only the
   * code's length is wrong, no field is missing or outside the enum), so the
   * asynchronous refinement runs and asks `isCodeValid` about the submitted
   * strings.
   */
  predicate Refined(body: map<string, string>) {
    FormField(body, CodeParam).Some? && TypeOk(body) && TargetOk(body)
  }

  /** The refinement ran and found no live row accepting the code. */
  predicate CodeRefused(verifications: map<VerificationKey, Verification>, body: map<string, string>, now: int,
                        totpOk: TotpVerifier) {
    Refined(body) && !IsCodeValid(verifications, body[CodeParam], body[TypeParam], body[TargetParam], now, totpOk)
  }

  /** The submission is accepted: the schema passed and the code is valid. */
  predicate Accepted(verifications: map<VerificationKey, Verification>, body: map<string, string>, now: int,
                     totpOk: TotpVerifier) {
    VerifySchema(body).FieldsOk? &&
    var f := VerifySchema(body).value;
    IsCodeValid(verifications, f.code, TypeName(f.kind), f.target, now, totpOk)
  }

  /** A rejection by the schema always names at least one field. */
  lemma RejectionNamesAField(body: map<string, string>)
    ensures VerifySchema(body).FieldsRejected? ==> VerifySchema(body).errors != map[]
  {
    var errors := if VerifySchema(body).FieldsRejected? then VerifySchema(body).errors else map[];
    if VerifySchema(body).FieldsOk? {
    } else if !CodeOk(body) {
      assert CodeParam in errors;
    } else if !TypeOk(body) {
      assert TypeParam in errors;
    } else {
      assert TargetParam in errors;
    }
  }

  /**
   * The errors the parsed submission carries: the schema's issues, then the
   * refinement's "Invalid code" on `code` when it ran and refused the code.
   * There are none exactly when the submission is accepted.
   */
  function SubmissionErrors(verifications: map<VerificationKey, Verification>, body: map<string, string>, now: int,
                            totpOk: TotpVerifier): (e: map<string, seq<FieldError>>)
    ensures e == map[] <==> Accepted(verifications, body, now, totpOk)
    ensures e.Keys <= {CodeParam, TypeParam, TargetParam}
    ensures CodeParam in e <==> !CodeOk(body) || CodeRefused(verifications, body, now, totpOk)
    ensures TypeParam in e <==> !TypeOk(body)
    ensures TargetParam in e <==> !TargetOk(body)
    ensures (CodeParam in e && Custom(InvalidCode) in e[CodeParam]) <==> CodeRefused(verifications, body, now, totpOk)
    ensures CodeRefused(verifications, body, now, totpOk) ==>
      e[CodeParam] == (if CodeOk(body) then [] else [SchemaViolation]) + [Custom(InvalidCode)]
    ensures CodeParam in e && !CodeRefused(verifications, body, now, totpOk) ==> e[CodeParam] == [SchemaViolation]
  {
    var check := VerifySchema(body);
    var schemaErrors := if check.FieldsRejected? then check.errors else map[];
    RejectionNamesAField(body);
    if CodeRefused(verifications, body, now, totpOk) then
      var codeErrors := if CodeParam in schemaErrors then schemaErrors[CodeParam] else [];
      schemaErrors[CodeParam := codeErrors + [Custom(InvalidCode)]]
    else schemaErrors
  }

  /**
   * What `validateRequest` answers. A non-submit intent echoes the
   * submission with its errors; a submission with errors is a 400; an
   * accepted one is dispatched by type: onboarding to its own route,
   * password reset to the reset flow.
   */
  function VerifyResponse(verifications: map<VerificationKey, Verification>, users: map<UserId, User>,
                          request: Request, body: map<string, string>, intent: string, now: int,
                          totpOk: TotpVerifier): (r: Response)
    requires UniqueUsernames(users) && UniqueEmails(users)
    ensures intent != "submit" ==>
      r == Json(200, Submission(Idle, body, SubmissionErrors(verifications, body, now, totpOk)))
    ensures intent == "submit" && !Accepted(verifications, body, now, totpOk) ==>
      && r == Json(400, Submission(Error, body, SubmissionErrors(verifications, body, now, totpOk)))
      && r.body.errors != map[]
    ensures intent == "submit" && Accepted(verifications, body, now, totpOk) ==>
      var f := VerifySchema(body).value;
      && (f.kind == Onboarding ==> r == Delegated("onboarding"))
      && (f.kind == ResetPasswordType ==> r == ResetPassword.VerifiedResponse(users, request, f.target, body))
  {
    if intent != "submit" then Json(200, Submission(Idle, body, SubmissionErrors(verifications, body, now, totpOk)))
    else if !Accepted(verifications, body, now, totpOk) then
      Json(400, Submission(Error, body, SubmissionErrors(verifications, body, now, totpOk)))
    else
      var f := VerifySchema(body).value;
      match f.kind
      case Onboarding => Delegated("onboarding")
      case ResetPasswordType => ResetPassword.VerifiedResponse(users, request, f.target, body)
  }

  /**
   * `validateRequest`: answers `VerifyResponse`; a rejected or non-submitted
   * code leaves the store alone, an accepted one deletes exactly its row, so
   * that the code cannot be used again.
   */
  method ValidateRequest(db: Db, request: Request, body: map<string, string>, intent: string, now: int,
                         totpOk: TotpVerifier) returns (r: Outcome<Response>)
    requires db.Valid()
    modifies db`verifications
    ensures r == Continue(VerifyResponse(old(db.verifications), db.users, request, body, intent, now, totpOk))
    ensures !(intent == "submit" && Accepted(old(db.verifications), body, now, totpOk)) ==>
      db.verifications == old(db.verifications)
    ensures intent == "submit" && Accepted(old(db.verifications), body, now, totpOk) ==>
      var f := VerifySchema(body).value;
      && db.verifications == DeleteKey(old(db.verifications), VerificationKey(f.target, TypeName(f.kind)))
      && (forall c, t :: !IsCodeValid(db.verifications, c, TypeName(f.kind), f.target, t, totpOk))
  {
    var check := VerifySchema(body);
    var errors := SubmissionErrors(db.verifications, body, now, totpOk);
    if intent != "submit" {
      return Continue(Json(200, Submission(Idle, body, errors)));
    }
    if !Accepted(db.verifications, body, now, totpOk) {
      return Continue(Json(400, Submission(Error, body, errors)));
    }
    var f := check.value;
    db.verifications := db.verifications - {VerificationKey(f.target, TypeName(f.kind))};
    match f.kind
    case Onboarding =>
      r := Continue(Delegated("onboarding"));
    case ResetPasswordType =>
      var response := ResetPassword.HandleVerification(db, request, f.target, body);
      r := Continue(response);
  }

  /**
   * `Object.fromEntries(params)`: one entry per name present; the value of
   * a name is that of its last pair (the pair after which no pair has the
   * same name).
   */
  function FromEntries(ps: seq<Param>): (m: map<string, string>)
    ensures forall n :: n in m <==> Lookup(ps, n).Some?
    ensures forall i :: 0 <= i < |ps| && Count(ps[i+1..], ps[i].0) == 0 ==> ps[i].0 in m && m[ps[i].0] == ps[i].1
    ensures forall n :: Count(ps, n) == 1 ==> n in m && m[n] == Lookup(ps, n).value
  {
    if ps == [] then map[]
    else
      var rest := FromEntries(ps[1..]);
      LookupFindsCounted(ps[1..], ps[0].0);
      if ps[0].0 in rest then rest else rest[ps[0].0 := ps[0].1]
  }

  /**
   * The loader: without a `code` parameter nothing is validated and the
   * parameters come back as an idle submission; with one, the parameters
   * go through `validateRequest`. `intent` is the form library's intent,
   * which the library derives from the submission; a bare link carrying the
   * code names no button and so counts as "submit".
   */
  method Loader(db: Db, request: Request, params: seq<Param>, intent: string, now: int, totpOk: TotpVerifier)
    returns (r: Outcome<Response>)
    requires db.Valid()
    modifies db`verifications
    ensures Lookup(params, CodeParam).None? ==>
      r == Continue(Json(200, Submission(Idle, FromEntries(params), map[]))) && db.verifications == old(db.verifications)
    ensures Lookup(params, CodeParam).Some? ==>
      r == Continue(VerifyResponse(old(db.verifications), db.users, request, FromEntries(params), intent, now, totpOk))
    ensures Lookup(params, CodeParam).Some? && !(intent == "submit" && Accepted(old(db.verifications), FromEntries(params), now, totpOk)) ==>
      db.verifications == old(db.verifications)
    ensures Lookup(params, CodeParam).Some? && intent == "submit" && Accepted(old(db.verifications), FromEntries(params), now, totpOk) ==>
      var f := VerifySchema(FromEntries(params)).value;
      db.verifications == DeleteKey(old(db.verifications), VerificationKey(f.target, TypeName(f.kind)))
  {
    if Lookup(params, CodeParam).None? {
      return Continue(Json(200, Submission(Idle, FromEntries(params), map[])));
    }
    r := ValidateRequest(db, request, FromEntries(params), intent, now, totpOk);
  }

  /**
   * The action: the posted form goes through `validateRequest`; `intent` is
   * derived from the submission as for the loader.
   */
  method Action(db: Db, request: Request, form: map<string, string>, intent: string, now: int, totpOk: TotpVerifier)
    returns (r: Outcome<Response>)
    requires db.Valid()
    modifies db`verifications
    ensures r == Continue(VerifyResponse(old(db.verifications), db.users, request, form, intent, now, totpOk))
    ensures !(intent == "submit" && Accepted(old(db.verifications), form, now, totpOk)) ==>
      db.verifications == old(db.verifications)
    ensures intent == "submit" && Accepted(old(db.verifications), form, now, totpOk) ==>
      var f := VerifySchema(form).value;
      db.verifications == DeleteKey(old(db.verifications), VerificationKey(f.target, TypeName(f.kind)))
  {
    r := ValidateRequest(db, request, form, intent, now, totpOk);
  }
}
