# Authentication and one-time codes of the epicweb notes app, in Dafny

This project models the authentication core of a Remix note-taking app:

- the session manager: password check, login, signup, logout, the self-healing identity lookup, and the login and anonymous guards;
- the one-time-code store behind `/verify`: TOTP rows keyed by (target, type), with inclusive expiry, single use and latest-wins;
- the two-factor gate at login: a new session is either committed to the primary cookie or parked in a short-lived verification cookie until a second factor is checked;
- the password-reset flow and the 2FA settings routes;
- the override of `commitSession` that keeps a stored cookie expiry;
- two small helpers (`getErrorMessage`, `invariantResponse`).

How the model represents the program:

- **Database.** The database is the class `Database.Db`, whose tables are `map` fields. Each route method states the new table in terms of the old one.
- **Cookies.** A cookie is a key/value bag (`Http.Bag`). A signed cookie session is the class `SessionStorage.CookieSession`.
- **Responses.** A response, including a thrown redirect, is a value: `Http.Outcome` is `Continue`, `Thrown` or `Failed`.
- **Browser state.** A browser's next request is computed from the `set-cookie` headers with `Http.After`. Guarantees such as "the browser is now Pending" or "the browser is now Authenticated" are stated on that next request (`Login.StageOf`).
- **Parameters instead of effects.** The clock is the parameter `now` (milliseconds). Fresh ids, TOTP secrets, `safeRedirect` and `verifyTOTP` are parameters too.
- **Password hashing.** bcrypt is an idealised `Hash` with `Compare(p, HashPassword(p))` and no collisions.

Module layout, one file per module:

| file | module |
|---|---|
| `http.dfy` | `Http`: shared values and URL search parameters |
| `misc.dfy` | `Misc` |
| `session_storage.dfy` | `SessionStorage` |
| `database.dfy` | `Database` |
| `auth.dfy` | `Auth` |
| `login.dfy` | `Login` |
| `verify.dfy` | `Verify` |
| `reset_password.dfy` | `ResetPassword` |
| `two_factor.dfy` | `TwoFactor` |
| `flows.dfy` | `Flows`: the verification table across many requests |

## Model

| member | source | states |
|---|---|---|
| `Http.IdAt` | app/utils/auth.server.ts:64-65 | an id is read from a cookie bag only when a non-empty string is stored under the key; every other case reads as "no id" |
| `Http.SetParam` | app/utils/auth.server.ts:52-56 | `searchParams.set`: afterwards the name occurs exactly once with the new value; pairs of other names keep their order; lookups of other names are unchanged |
| `Http.SetParamAppends` | app/utils/auth.server.ts:51-53 | setting a name the URL does not hold yet appends exactly one pair at the end |
| `Http.OthersDropsName` | app/utils/auth.server.ts:52-56 | removing every pair of a name leaves no pair of that name and does not change lookups of other names |
| `Misc.GetErrorMessage` | app/utils/misc.tsx:12-24 | a string gives itself; an object with a string `message` gives that message; anything else gives "Unknown Error" and is logged exactly once |
| `Misc.InvariantResponse` | app/utils/misc.tsx:40-54 | a truthy condition continues. A falsy one throws a text response. Its status is 400 unless overridden. Its body is the thunk's result, else the non-empty message, else the default text |
| `SessionStorage.SessionCookieOptions` | app/utils/session.server.ts:3-12 | cookie `en_session`: lax, path `/`, httpOnly, secure only in production, no max-age |
| `SessionStorage.VerificationCookieOptions` | app/utils/verification.server.ts:3-13 | cookie `en_verification`: the same attributes plus a 600-second max-age |
| `SessionStorage.StoreExpiry` | app/utils/session.server.ts:18-24 | a given `expires` is stored. A non-zero `maxAge` then overwrites it with `now + maxAge`. With neither option the bag is unchanged. Other keys are never changed |
| `SessionStorage.CookieExpiry` | app/utils/session.server.ts:25-27 | the cookie's `expires` is the stored expiry when there is one, and absent otherwise |
| `SessionStorage.CommitSession` | app/utils/session.server.ts:14-34 | the session's bag becomes `StoreExpiry` of the old bag. The header carries that bag, its stored expiry and the given `maxAge` |
| `SessionStorage.CommitVerification` | app/utils/verification.server.ts:3-13 | the verification cookie is committed with the bag unchanged, no `expires` and a 10-minute max-age |
| `SessionStorage.MaxAgeWins` | app/utils/session.server.ts:21-24 | with both options given, the cookie expires at `now + maxAge` |
| `SessionStorage.ExpiryIsSticky` | app/utils/session.server.ts:25-31 | a later commit without options keeps the bag and sends the same expiry as the commit that stored it |
| `SessionStorage.NoExpiryMeansBrowserSession` | app/utils/session.server.ts:25-27 | without options and without a stored expiry, the cookie has no `expires` |
| `SessionStorage.CookieSession.Get` | app/routes/_auth+/login.tsx:62-63 | a key is found exactly when the bag holds it, with the stored value |
| `Database.CompareMatchesOnlyItsPassword` | app/utils/auth.server.ts:273-276 | a stored hash accepts its own password and no other |
| `Database.UserByUsername` | app/utils/auth.server.ts:282-285 | finds the one user with that username, or reports that none has it |
| `Database.UserByEmail` | app/routes/_auth+/reset-password.tsx:28-36 | finds the one user with that email, or reports that none has it |
| `Database.Upsert` | app/routes/_auth+/verify.tsx:103-107 | afterwards the key holds exactly the new row; no other key changes |
| `Database.DeleteKey` | app/routes/_auth+/verify.tsx:188-190 | afterwards the key is absent; no other key changes |
| `Auth.SessionExpirationDate` | app/utils/auth.server.ts:17-19 | a new session expires strictly after `now`, exactly thirty days (2 592 000 000 ms) later |
| `Auth.NewSessionLifetime` | app/utils/auth.server.ts:17-19 | a cookie naming a session created at `t` resolves to its owner up to and including `t` + 30 days, and is stale afterwards |
| `Auth.GetRedirectToUrl` | app/utils/auth.server.ts:40-58 | path `/verify` on the request's domain. The parameters are exactly `type`, then `target`, then `redirectTo` only when it is non-empty. There is never a `code` |
| `Auth.ResolveSession` | app/utils/auth.server.ts:60-74 | no session id gives NoSession. A row whose `expirationDate >= now` (inclusive) gives its owner. A missing or expired row gives Stale |
| `Auth.LogoutResponse` | app/utils/auth.server.ts:263-270 | logout always redirects to the sanitised target and destroys the session cookie |
| `Auth.LogoutSessions` | app/utils/auth.server.ts:255-262 | the cookie's session row is deleted only if the cookie held an id; a missing row is no error |
| `Auth.Logout` | app/utils/auth.server.ts:242-271 | the response is `LogoutResponse` with target `/` by default; the table is `LogoutSessions` of the old one |
| `Auth.LogoutIsIdempotent` | app/utils/auth.server.ts:252-270 | logging out twice leaves the same table as logging out once |
| `Auth.GetUserId` | app/utils/auth.server.ts:60-74 | no id continues with null. A live session continues with its owner and changes nothing. A stale id throws the logout redirect and deletes that row only |
| `Auth.SessionsAfterLookup` | app/utils/auth.server.ts:60-74 | the session table after `getUserId`: a stale cookie id loses its row, and otherwise nothing changes |
| `Auth.LoginRedirect` | app/utils/auth.server.ts:80-91 | `/login` alone when the target is null or empty. Otherwise exactly one `redirectTo` parameter, by default `pathname` followed directly by the query, with no `?` between them |
| `Auth.RequireUserId` | app/utils/auth.server.ts:76-94 | a live session continues with its owner. No session throws the login redirect. A stale one throws the logout |
| `Auth.RequireAnonymous` | app/utils/auth.server.ts:96-117 | checks in order. First, a parked session id throws a redirect to `/verify?type=2fa&target=<its owner>`, and a missing row for it fails. Then a live session throws a redirect to `/`. Then a stale one throws the logout. Otherwise it continues |
| `Auth.SessionsAfterAnonymous` | app/utils/auth.server.ts:96-117 | the session table after `requireAnonymous`: unchanged when a login is pending, because the guard stops before `getUserId`; otherwise as after `getUserId` |
| `Auth.RequireUser` | app/utils/auth.server.ts:119-129 | as `RequireUserId`. In addition, a session whose user row is gone ends in logout |
| `Auth.FindUser` | app/utils/auth.server.ts:282-285 | the `where` of `verifyUserPassword`: by username or by id, found only if present |
| `Auth.VerifyUserPassword` | app/utils/auth.server.ts:278-298 | gives the id exactly when the user exists, has a password row, and the password matches its hash |
| `Auth.PasswordRoundTrip` | app/utils/auth.server.ts:273-298 | after storing `HashPassword(p)` for a user, the password check by username succeeds for `p` and for nothing else |
| `Auth.Login` | app/utils/auth.server.ts:131-148 | with good credentials, exactly one new session for that user, expiring at `now + 2 592 000 000`. Otherwise null and the session table is unchanged |
| `Auth.ResetUserPassword` | app/utils/auth.server.ts:150-168 | replaces the hash of the user with that username. A missing user or password row fails and changes nothing |
| `Auth.Lower` | app/utils/auth.server.ts:189-190 | `toLowerCase` on ASCII: same length; each upper-case letter becomes the lower-case letter 32 code points later; every other character is kept |
| `Auth.LowerIsIdempotent` | app/utils/auth.server.ts:189-190 | lower-casing a lower-cased string changes nothing |
| `Auth.AddUserKeepsValid` | app/utils/auth.server.ts:187-199 | adding a user whose lowercased email and username are free keeps both unique indexes |
| `Auth.Signup` | app/utils/auth.server.ts:170-204 | a taken email or username writes nothing. Otherwise: one new user (lowercased, role "user"), its password hash, and exactly one 30-day session. The schema constraints are preserved |
| `Auth.SignupWithConnection` | app/utils/auth.server.ts:206-240 | as `Signup`, with no password, one provider connection, and an image only for a non-empty URL. A taken provider identity also writes nothing |
| `Login.VerifiedTime` | app/routes/_auth+/login.tsx:122 | a missing `verified-time` reads as 0, a stored time as itself, and a string as an invalid date |
| `Login.ShouldRequestTwoFA` | app/routes/_auth+/login.tsx:99-124 | a pending marker always asks, before any lookup. No "2fa" row never asks. Otherwise it asks iff `now - verifiedTime > 5000` |
| `Login.TwoFAStaysDue` | app/routes/_auth+/login.tsx:122-123 | once the second factor is due, it stays due as time passes |
| `Login.FreshCheckPasses` | app/routes/_auth+/login.tsx:65 | within 5 seconds of a check, and with no pending login, the gate lets the user through |
| `Login.StageOf` | app/utils/auth.server.ts:100-116 | in `requireAnonymous`'s order: Pending (with the parked id) exactly when a session id is parked. Otherwise Authenticated (with the owner) exactly when the session is live. Otherwise Anonymous |
| `Login.HandleNewSession` | app/routes/_auth+/login.tsx:126-183 | when 2FA is due: only the verification cookie is written (session id and remember flag), the redirect goes to `/verify?type=2fa…`, and the browser is Pending. Otherwise: the session id joins the primary cookie, which expires with the session iff `remember` (a stored expiry stays); the redirect goes to the safe target; and the browser is Authenticated |
| `Login.HandleVerification` | app/routes/_auth+/login.tsx:51-97 | a parked id whose row is gone throws a redirect to `/login` with the "Invalid session" toast. Otherwise the primary cookie keeps its other keys and gets `verified-time = now`. A parked id is promoted into it: the cookie expires with the session when remember-me was set, and otherwise keeps its stored expiry. The verification cookie is destroyed and the browser is Authenticated |
| `Login.Loader` | app/routes/_auth+/login.tsx:185-188 | only anonymous visitors get the page. Only `requireAnonymous` touches the session table: it deletes a stale session's row when no login is pending |
| `Login.Action` | app/routes/_auth+/login.tsx:190-226 | an anonymous visitor always gets an answer; any other visitor is refused, and only `requireAnonymous` touches the session table. A non-submit intent is idle. Rejected fields or bad credentials give a 400 ("Invalid username or password"), and the password is never echoed. Good credentials create one 30-day session. When 2FA is due, the redirect goes to `/verify?type=2fa…` and the browser is Pending with the new session. Otherwise it goes to the safe target and the browser is Authenticated |
| `ResetPassword.UserByTarget` | app/routes/_auth+/reset-password.tsx:28-36 | some user whose email or username is the target, or none exists |
| `ResetPassword.VerifiedResponse` | app/routes/_auth+/reset-password.tsx:37-56 | no such user gives a 400 with "Invalid code" on `code`. Otherwise a redirect to `/reset-password`, after which the verification cookie names that user |
| `ResetPassword.HandleVerification` | app/routes/_auth+/reset-password.tsx:23-57 | answers `VerifiedResponse` by setting the username in the request's verification session |
| `ResetPassword.RequireResetPasswordUsername` | app/routes/_auth+/reset-password.tsx:69-79 | applies `requireAnonymous` first, whose stale-row deletion is the only write. Then a non-empty string username continues; anything else throws a redirect to `/login` |
| `ResetPassword.ResetPasswordSchema` | app/routes/_auth+/reset-password.tsx:59-67 | accepts iff both passwords are present and valid and equal. A missing or invalid password is reported on its own field. Whenever both are present and differ, "The passwords did not match" is added on `confirmPassword`, after any other issue there |
| `ResetPassword.Loader` | app/routes/_auth+/reset-password.tsx:81-84 | shows the stashed username to an anonymous visitor. An anonymous visitor without one is sent to `/login`; a pending or logged-in visitor is refused |
| `ResetPassword.Action` | app/routes/_auth+/reset-password.tsx:86-111 | an admitted visitor always gets an answer, except that a valid submission for a stashed username without a user or password row fails as the update does. On success: the stashed user's hash is replaced, so that user now logs in with the new password; the verification cookie is destroyed; the redirect goes to `/login`. Rejections and guards change no password, and only `requireAnonymous` touches the session table |
| `Verify.TypeName` | app/routes/_auth+/verify.tsx:27 | the two accepted type names, neither of them "2fa" |
| `Verify.ParseType` | app/routes/_auth+/verify.tsx:27 | the enum check accepts exactly the two type names |
| `Verify.ParseTypeRoundTrip` | app/routes/_auth+/verify.tsx:27 | parsing a type's name gives that type back |
| `Verify.VerifySchema` | app/routes/_auth+/verify.tsx:30-35 | accepts iff the code has exactly 6 characters, the type is in the enum, and a target is present. A rejection names exactly the fields at fault |
| `Verify.TwoFASubmissionRejected` | app/routes/_auth+/verify.tsx:27-35 | a submission of type "2fa" is always rejected on its type |
| `Verify.IsCodeValid` | app/routes/_auth+/verify.tsx:127-157 | false with no row, or when `expiresAt < now`. A null `expiresAt` never expires. Otherwise exactly the TOTP verdict on the stored algorithm, secret, period and charSet |
| `Verify.ConsumedCodeIsDead` | app/routes/_auth+/verify.tsx:187-190 | after the row is deleted, no code is valid at any time |
| `Verify.LatestCodeWins` | app/routes/_auth+/verify.tsx:101-107 | after an upsert, only the new configuration decides, up to and including its expiry |
| `Verify.OtherKeysUnaffected` | app/routes/_auth+/verify.tsx:136-145 | issuing or deleting one key never changes the verdict for another key |
| `Verify.PrepareVerification` | app/routes/_auth+/verify.tsx:80-119 | the (target, type) row holds the new SHA256 configuration, expiring at `now + period*1000`; other rows are untouched. `redirectTo` is the `/verify` URL without a code; `verifyUrl` is the same URL plus `code=<otp>` |
| `Verify.RejectionNamesAField` | app/routes/_auth+/verify.tsx:30-35 | a schema rejection always carries at least one field error |
| `Verify.SubmissionErrors` | app/routes/_auth+/verify.tsx:162-178 | there are no errors exactly when the submission is accepted. `type` and `target` errors come from the schema alone. "Invalid code" is on `code` exactly when the refinement ran and refused the code. The refinement runs whenever no field is missing or outside the enum, so a code of the wrong length carries both its length issue and "Invalid code" |
| `Verify.VerifyResponse` | app/routes/_auth+/verify.tsx:180-199 | a non-submit intent echoes the submission with its errors. A submission that is not accepted is a 400 with a non-empty error map. An accepted one goes to the onboarding handler or answers the reset flow's `VerifiedResponse` |
| `Verify.ValidateRequest` | app/routes/_auth+/verify.tsx:158-200 | answers `VerifyResponse`. Only an accepted submitted code changes the store: it deletes exactly its row, after which no code for that key is valid |
| `Verify.FromEntries` | app/routes/_auth+/verify.tsx:46 | one entry per parameter name present; each name holds the value of its last pair |
| `Verify.Loader` | app/routes/_auth+/verify.tsx:37-52 | without a `code` parameter: an idle echo of the parameters, with nothing validated or changed. With one: `VerifyResponse` on the parameters, deleting the row only for an accepted submitted code |
| `Verify.Action` | app/routes/_auth+/verify.tsx:54-58 | answers `VerifyResponse` on the posted form; only an accepted submitted code changes the store |
| `TwoFactor.IndexLoader` | app/routes/settings+/profile.two-factor.index.tsx:14-23 | logged-in users only: without a session cookie, a redirect to the login page; with a stale one, the logout response, and only that session row is deleted; `isTwoFAEnabled` iff the user's "2fa" row exists |
| `TwoFactor.IndexAction` | app/routes/settings+/profile.two-factor.index.tsx:25-44 | logged-in users only: without a session cookie, a redirect to the login page; with a stale one, the logout response, and only that session row is deleted; neither touches the verification rows. Upserts the pending enrollment row, expiring in 600 000 ms, and leaves the "2fa" marker alone. Redirects to the enrollment page |
| `TwoFactor.RequireRecentVerification` | app/routes/settings+/profile.two-factor.disable.tsx:21-43 | continues iff the gate does not ask. Otherwise it throws a redirect to `/verify?type=2fa&target=<user>&redirectTo=<path+search>` with the "Please Revirify" toast. The URL is exactly `GetRedirectToUrl` on the request's domain, with no other parameters and no cookies |
| `TwoFactor.DisableLoader` | app/routes/settings+/profile.two-factor.disable.tsx:45-49 | continues only for a logged-in, recently verified user; only a stale session row is deleted |
| `TwoFactor.DisableAction` | app/routes/settings+/profile.two-factor.disable.tsx:51-65 | deletes no verification row unless both guards pass, and only a stale session row. Then it deletes exactly the user's "2fa" row (failing if it is absent) and throws a redirect with the "2FA Disabled" toast |
| `Flows.IssueCode` | app/routes/_auth+/verify.tsx:80-107 | `prepareVerification` changes the table exactly as the `Issue` event for its key, type and configuration |
| `Flows.SubmitCode` | app/routes/_auth+/verify.tsx:180-190 | posting to the verify page leaves the table alone, except for an accepted submitted code, whose change is exactly the `Consume` event for its key |
| `Flows.FollowCodeLink` | app/routes/_auth+/verify.tsx:37-52 | opening a verify link leaves the table alone, except for an accepted submitted code, whose change is exactly one `Consume` event |
| `Flows.StartEnrollment` | app/routes/settings+/profile.two-factor.index.tsx:25-44 | starting an enrollment is exactly the `Enroll` event for a logged-in user, and leaves the table alone for anyone else. Only a stale session row is deleted from the session table |
| `Flows.TurnOffTwoFA` | app/routes/settings+/profile.two-factor.disable.tsx:51-65 | disabling 2FA is exactly the `Disable` event for a logged-in, recently verified user with a marker, and leaves the table alone otherwise. Only a stale session row is deleted from the session table |
| `Flows.StepTouchesOneKey` | app/routes/_auth+/verify.tsx:103-107 | every write to the verification table touches one key only |
| `Flows.MarkerSurvives` | app/routes/settings+/profile.two-factor.disable.tsx:57-59 | a "2fa" marker survives any requests in which its owner never disables 2FA |
| `Flows.NoRouteCreatesMarker` | app/routes/settings+/profile.two-factor.index.tsx:29-42 | none of the modelled routes creates a "2fa" marker |
| `Flows.DisableRemovesMarker` | app/routes/settings+/profile.two-factor.disable.tsx:57-59 | disabling removes the marker whatever came before |
| `Flows.ConsumedStaysDead` | app/routes/_auth+/verify.tsx:187-190 | a consumed code stays invalid until a new one is issued for the same key |
| `Flows.LatestIssueDecides` | app/routes/_auth+/verify.tsx:97-107 | after an issue, as long as no request reissues or consumes that key, only the last configuration decides |

## Left out

- Cookie signing and serialisation. Bags are decoded maps, and dates are stored as milliseconds. A non-number under `expires` reads as no expiry; a string under `verified-time` reads as an invalid date.
- A non-string value stored under `sessionId` or `unverified-session-id` is treated as no id. The source would pass it to the database. Under `resetPasswordUsername` the model is exact: the source also redirects to `/login` for a non-string.
- URL serialisation and percent-encoding. A URL is an origin, a path and an ordered list of parameters, and `getDomainUrl` is a field of the request. Search parameters read from a request are a map with one value per name.
- CSRF validation and the honeypot. Both can refuse a request: `validateCSRFToken` rejects a bad token (app/routes/_auth+/login.tsx:193, app/routes/_auth+/verify.tsx:56, app/routes/settings+/profile.two-factor.index.tsx:28, app/routes/settings+/profile.two-factor.disable.tsx:55), and the signup action answers a honeypot hit with a 400 'Invalid form submission' (app/routes/_auth+/signup.tsx:19-25). Every modelled action assumes both checks pass. The login action calls `checkHoneypot`, which app/utils/honeypot.server.ts does not export in this snapshot (it exports only `honeypot`).
- `combineResponseInits` and the `responseInit` arguments. They only merge headers into a response the model already decides.
- The `console.log` in `validateRequest` (app/routes/_auth+/verify.tsx:165), which writes each parsed submission, code and target included, to the server log.
- Verify.Loader, Verify.Action: the form library's `intent` is a parameter. The source derives it from the submission: a form that names no submit button, such as a bare GET link carrying the code, falls back to "submit".
- The form parser and its library internals. Field schemas are either computed here (`VerifySchema`, `ResetPasswordSchema`) or given as a result (`Http.FieldCheck`). The username and password schemas of app/utils/user-validation.ts, which is not part of this model, are a parameter.
- ResetPassword.ResetPasswordSchema: the password schema is taken to reject a missing password fatally and to report its other checks (`passwordOk`) as non-fatal issues, as zod's string length checks are. Under that reading the mismatch refinement runs whenever both passwords are present. The schema's own definition is not part of this model.
- Verify.SubmissionErrors: a schema issue is the single marker `SchemaViolation`. The library's messages are not modelled.
- Lengths count characters, not UTF-16 code units. `Auth.Lower` lowercases ASCII only.
- `@epic-web/totp`. Code generation is inputs (otp, secret, digits, charSet); `verifyTOTP` is the parameter `totpOk`.
- bcrypt is idealised: no salt and no cost.
- `safeRedirect` is the parameter `safe`.
- Database ids are given, fresh, as parameters.
- Concurrency, the fire-and-forget timing of the delete in `logout`, and the database's row order are not modelled.
- ResetPassword.UserByTarget: `findFirst` returns whichever matching row the database lists first. The model prefers the user whose email matches.
- The onboarding handler (app/routes/_auth+/onboarding.tsx is not part of this model) is the opaque response `Delegated("onboarding")`.
- app/routes/settings+/profile.two-factor.verify.tsx is not part of this model. The pending-enrollment type is the constant "2fa-verify", and the route that turns an enrollment into a "2fa" marker is absent. Hence `Flows.NoRouteCreatesMarker`.
- `Login.HandleVerification` is modelled, but no modelled route dispatches to it. The verify schema rejects type "2fa" (`Verify.TwoFASubmissionRejected`), so in this snapshot a 2FA login cannot complete through `/verify`.
- The roles table. `signup` and `signupWithConnection` connect the new user to the role named 'user', and that connect throws when the row is missing. The model assumes the role exists, so both methods record `{"user"}` and succeed.
- OAuth (the authenticator setup), email sending and the avatar download. `signupWithConnection` records the image URL in place of the downloaded image.
- SessionStorage.CookieSession.Get is stated for the bag only. Cookie parsing is not modelled.
- Misc.InvariantResponse: a `responseInit` whose `status` key is present but undefined gives status 200 in the source. The model treats it as absent, giving 400. NaN is not modelled.
