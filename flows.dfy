/**
 * The life of the verification table across many requests. Every write the
 * modelled routes make to it is one of four events (issuing a code,
 * consuming an accepted code, starting a 2FA enrollment, disabling 2FA);
 * `Step` applies one, exactly as the route's postcondition states it.
 */
module Flows {
  import opened Http
  import opened Database
  import opened Auth
  import opened Verify
  import opened Login
  import opened TwoFactor

  type Table = map<VerificationKey, Verification>

  datatype Event =
    /** `prepareVerification` (Verify.PrepareVerification). */
    | Issue(kind: VerificationType, target: string, config: TotpConfig, expiresAt: int)
    /** An accepted code in `validateRequest` (Verify.ValidateRequest). */
    | Consume(kind: VerificationType, target: string)
    /** The enrollment action (TwoFactor.IndexAction). */
    | Enroll(userId: UserId, config: TotpConfig, expiresAt: int)
    /** The disable action (TwoFactor.DisableAction). */
    | Disable(userId: UserId)

  function Step(t: Table, e: Event): Table {
    match e
    case Issue(kind, target, config, expiresAt) =>
      Upsert(t, VerificationKey(target, TypeName(kind)), Verification(config, Some(expiresAt)))
    case Consume(kind, target) => DeleteKey(t, VerificationKey(target, TypeName(kind)))
    case Enroll(userId, config, expiresAt) =>
      Upsert(t, VerificationKey(userId, TwoFAVerifyType), Verification(config, Some(expiresAt)))
    case Disable(userId) => DeleteKey(t, MarkerKey(userId))
  }

  // ---------------------------------------------------------------------
  // Each route's write to the table is one event

  /** Issuing a code (`prepareVerification`) is an `Issue` event for its key. */
  method IssueCode(db: Db, period: int, request: Request, kind: VerificationType, target: string,
                   redirectTo: Option<string>, otp: string, secret: string, digits: int, charSet: string, now: int)
    returns (e: Event)
    modifies db`verifications
    ensures e == Issue(kind, target, TotpConfig(TotpAlgorithm, secret, period, digits, charSet), now + period * 1000)
    ensures db.verifications == Step(old(db.verifications), e)
  {
    var _, _, _ := PrepareVerification(db, period, request, kind, target, redirectTo, otp, secret, digits, charSet, now);
    e := Issue(kind, target, TotpConfig(TotpAlgorithm, secret, period, digits, charSet), now + period * 1000);
  }

  /**
   * Posting a code to the verify page either leaves the table alone or, for
   * an accepted submission, is a `Consume` event for the submitted key.
   */
  method SubmitCode(db: Db, request: Request, form: map<string, string>, intent: string, now: int, totpOk: TotpVerifier)
    returns (r: Outcome<Response>, e: Option<Event>)
    requires db.Valid()
    modifies db`verifications
    ensures e.Some? <==> intent == "submit" && Accepted(old(db.verifications), form, now, totpOk)
    ensures e.None? ==> db.verifications == old(db.verifications)
    ensures e.Some? ==>
      e.value == Consume(VerifySchema(form).value.kind, VerifySchema(form).value.target) &&
      db.verifications == Step(old(db.verifications), e.value)
  {
    var accepted := intent == "submit" && Accepted(db.verifications, form, now, totpOk);
    var f := VerifySchema(form);
    r := Verify.Action(db, request, form, intent, now, totpOk);
    e := if accepted then Some(Consume(f.value.kind, f.value.target)) else None;
  }

  /** Opening a code link behaves as posting it: nothing, or one `Consume`. */
  method FollowCodeLink(db: Db, request: Request, params: seq<Param>, intent: string, now: int, totpOk: TotpVerifier)
    returns (r: Outcome<Response>, e: Option<Event>)
    requires db.Valid()
    modifies db`verifications
    ensures e.Some? <==> Lookup(params, CodeParam).Some? && intent == "submit" &&
                         Accepted(old(db.verifications), FromEntries(params), now, totpOk)
    ensures e.None? ==> db.verifications == old(db.verifications)
    ensures e.Some? ==> e.value.Consume? && db.verifications == Step(old(db.verifications), e.value)
  {
    var body := FromEntries(params);
    var accepted := Lookup(params, CodeParam).Some? && intent == "submit" && Accepted(db.verifications, body, now, totpOk);
    var f := VerifySchema(body);
    r := Verify.Loader(db, request, params, intent, now, totpOk);
    e := if accepted then Some(Consume(f.value.kind, f.value.target)) else None;
  }

  /** Starting an enrollment is an `Enroll` event for a logged-in user, and nothing otherwise. */
  method StartEnrollment(db: Db, request: Request, config: TotpConfig, now: int, safe: Sanitizer)
    returns (r: Outcome<Response>, e: Option<Event>)
    modifies db`sessions, db`verifications
    ensures db.sessions == SessionsAfterLookup(old(db.sessions), request, now)
    ensures e.Some? <==> ResolveSession(old(db.sessions), request, now).Active?
    ensures e.None? ==> db.verifications == old(db.verifications)
    ensures e.Some? ==>
      e.value == Enroll(ResolveSession(old(db.sessions), request, now).userId, config, now + EnrollmentWindow) &&
      db.verifications == Step(old(db.verifications), e.value)
  {
    var res := ResolveSession(db.sessions, request, now);
    r := IndexAction(db, request, config, now, safe);
    e := if res.Active? then Some(Enroll(res.userId, config, now + EnrollmentWindow)) else None;
  }

  /**
   * Disabling 2FA is a `Disable` event for a logged-in, recently verified
   * user whose marker exists, and nothing otherwise.
   */
  method TurnOffTwoFA(db: Db, request: Request, now: int, safe: Sanitizer)
    returns (r: Outcome<Response>, e: Option<Event>)
    modifies db`sessions, db`verifications
    ensures db.sessions == SessionsAfterLookup(old(db.sessions), request, now)
    ensures var res := ResolveSession(old(db.sessions), request, now);
      e.Some? <==> res.Active? && !ShouldRequestTwoFA(old(db.verifications), request, res.userId, now) &&
                   MarkerKey(res.userId) in old(db.verifications)
    ensures e.None? ==> db.verifications == old(db.verifications)
    ensures e.Some? ==>
      e.value == Disable(ResolveSession(old(db.sessions), request, now).userId) &&
      db.verifications == Step(old(db.verifications), e.value)
  {
    var res := ResolveSession(db.sessions, request, now);
    var allowed := res.Active? && !ShouldRequestTwoFA(db.verifications, request, res.userId, now) &&
                   MarkerKey(res.userId) in db.verifications;
    r := DisableAction(db, request, now, safe);
    e := if allowed then Some(Disable(res.userId)) else None;
  }

  function Replay(t: Table, events: seq<Event>): Table
    decreases |events|
  {
    if events == [] then t else Replay(Step(t, events[0]), events[1..])
  }

  /** One event touches at most one key; every other row is left exactly as it was. */
  lemma StepTouchesOneKey(t: Table, e: Event, k: VerificationKey)
    requires k != (match e
                   case Issue(kind, target, _, _) => VerificationKey(target, TypeName(kind))
                   case Consume(kind, target) => VerificationKey(target, TypeName(kind))
                   case Enroll(userId, _, _) => VerificationKey(userId, TwoFAVerifyType)
                   case Disable(userId) => MarkerKey(userId))
    ensures k in Step(t, e) <==> k in t
    ensures k in t ==> Step(t, e)[k] == t[k]
  {
  }

  /**
   * A standing "2fa" marker survives any sequence of requests in which its
   * owner never disables 2FA: no other route writes that key.
   */
  lemma {:induction false} MarkerSurvives(t: Table, events: seq<Event>, u: UserId)
    requires MarkerKey(u) in t
    requires forall i :: 0 <= i < |events| ==> events[i] != Disable(u)
    ensures MarkerKey(u) in Replay(t, events)
    ensures Replay(t, events)[MarkerKey(u)] == t[MarkerKey(u)]
    decreases |events|
  {
    if events != [] {
      var next := Step(t, events[0]);
      assert MarkerKey(u) in next && next[MarkerKey(u)] == t[MarkerKey(u)] by {
        match events[0]
        case Issue(kind, target, _, _) => assert TypeName(kind) != TwoFAType;
        case Consume(kind, target) => assert TypeName(kind) != TwoFAType;
        case Enroll(_, _, _) =>
        case Disable(v) => assert v != u;
      }
      MarkerSurvives(next, events[1..], u);
    }
  }

  /** None of the modelled routes creates a marker: a user without one keeps having none. */
  lemma {:induction false} NoRouteCreatesMarker(t: Table, events: seq<Event>, u: UserId)
    requires MarkerKey(u) !in t
    ensures MarkerKey(u) !in Replay(t, events)
    decreases |events|
  {
    if events != [] {
      var next := Step(t, events[0]);
      assert MarkerKey(u) !in next by {
        match events[0]
        case Issue(kind, target, _, _) => assert TypeName(kind) != TwoFAType;
        case Consume(kind, target) => assert TypeName(kind) != TwoFAType;
        case Enroll(_, _, _) =>
        case Disable(v) =>
      }
      NoRouteCreatesMarker(next, events[1..], u);
    }
  }

  /** Disabling removes the marker, whatever came before. */
  lemma DisableRemovesMarker(t: Table, events: seq<Event>, u: UserId)
    ensures MarkerKey(u) !in Replay(t, events + [Disable(u)])
  {
    ReplayAppend(t, events, Disable(u));
  }

  lemma {:induction false} ReplayAppend(t: Table, events: seq<Event>, e: Event)
    ensures Replay(t, events + [e]) == Step(Replay(t, events), e)
    decreases |events|
  {
    if events == [] {
      assert [e][1..] == [];
    } else {
      assert (events + [e])[1..] == events[1..] + [e];
      ReplayAppend(Step(t, events[0]), events[1..], e);
    }
  }

  /**
   * A consumed code stays dead until a new one is issued for the same
   * target and type: single use holds across any later requests that do not
   * reissue it.
   */
  lemma {:induction false} ConsumedStaysDead(t: Table, kind: VerificationType, target: string, events: seq<Event>,
                                             code: string, now: int, totpOk: TotpVerifier)
    requires forall i :: 0 <= i < |events| ==> !(events[i].Issue? && events[i].kind == kind && events[i].target == target)
    ensures !IsCodeValid(Replay(Step(t, Consume(kind, target)), events), code, TypeName(kind), target, now, totpOk)
  {
    AbsentStaysAbsent(Step(t, Consume(kind, target)), kind, target, events);
  }

  lemma {:induction false} AbsentStaysAbsent(t: Table, kind: VerificationType, target: string, events: seq<Event>)
    requires VerificationKey(target, TypeName(kind)) !in t
    requires forall i :: 0 <= i < |events| ==> !(events[i].Issue? && events[i].kind == kind && events[i].target == target)
    ensures VerificationKey(target, TypeName(kind)) !in Replay(t, events)
    decreases |events|
  {
    if events != [] {
      var next := Step(t, events[0]);
      assert VerificationKey(target, TypeName(kind)) !in next by {
        match events[0]
        case Issue(k2, t2, _, _) =>
          assert !(k2 == kind && t2 == target);
          if TypeName(k2) == TypeName(kind) {
            assert k2 == kind by { ParseTypeRoundTrip(k2); ParseTypeRoundTrip(kind); }
          }
        case Consume(_, _) =>
        case Enroll(_, _, _) => assert TypeName(kind) != TwoFAVerifyType;
        case Disable(_) => assert TypeName(kind) != TwoFAType;
      }
      AbsentStaysAbsent(next, kind, target, events[1..]);
    }
  }

  /**
   * The latest issued code wins for its key: after an issue followed by
   * requests that neither reissue nor consume that key, only the last
   * configuration decides, up to and including its expiry.
   */
  lemma {:induction false} LatestIssueDecides(t: Table, kind: VerificationType, target: string, config: TotpConfig,
                                              expiresAt: int, events: seq<Event>, code: string, now: int,
                                              totpOk: TotpVerifier)
    requires forall i :: 0 <= i < |events| ==>
      !((events[i].Issue? || events[i].Consume?) && events[i].kind == kind && events[i].target == target)
    ensures IsCodeValid(Replay(Step(t, Issue(kind, target, config, expiresAt)), events), code, TypeName(kind), target,
                        now, totpOk)
            <==> now <= expiresAt && totpOk(CheckOf(config), code, now)
  {
    var key := VerificationKey(target, TypeName(kind));
    RowUntouched(Step(t, Issue(kind, target, config, expiresAt)), kind, target, events);
    LatestCodeWins(Replay(Step(t, Issue(kind, target, config, expiresAt)), events), key, config, expiresAt,
                   code, now, totpOk);
    assert Upsert(Replay(Step(t, Issue(kind, target, config, expiresAt)), events), key,
                  Verification(config, Some(expiresAt))) == Replay(Step(t, Issue(kind, target, config, expiresAt)), events);
  }

  lemma {:induction false} RowUntouched(t: Table, kind: VerificationType, target: string, events: seq<Event>)
    requires forall i :: 0 <= i < |events| ==>
      !((events[i].Issue? || events[i].Consume?) && events[i].kind == kind && events[i].target == target)
    ensures var key := VerificationKey(target, TypeName(kind));
      (key in Replay(t, events) <==> key in t) && (key in t ==> Replay(t, events)[key] == t[key])
    decreases |events|
  {
    if events != [] {
      var key := VerificationKey(target, TypeName(kind));
      var next := Step(t, events[0]);
      assert (key in next <==> key in t) && (key in t ==> next[key] == t[key]) by {
        match events[0]
        case Issue(k2, t2, _, _) =>
          if TypeName(k2) == TypeName(kind) {
            assert k2 == kind by { ParseTypeRoundTrip(k2); ParseTypeRoundTrip(kind); }
          }
        case Consume(k2, t2) =>
          if TypeName(k2) == TypeName(kind) {
            assert k2 == kind by { ParseTypeRoundTrip(k2); ParseTypeRoundTrip(kind); }
          }
        case Enroll(_, _, _) => assert TypeName(kind) != TwoFAVerifyType;
        case Disable(_) => assert TypeName(kind) != TwoFAType;
      }
      RowUntouched(next, kind, target, events[1..]);
    }
  }
}
