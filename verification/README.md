# Credential and token lifecycle of the loco + Nuxt template

This project models the authentication core of the template:

- the user record (`users::Model`) with its three token kinds:
  - email verification: `email_verification_token` / `email_verification_sent_at`
  - password reset: `reset_token` / `reset_sent_at`
  - passwordless login: `magic_link_token` / `magic_link_expiration`
- the active-record operations on that record, over an in-memory users table;
- the authentication endpoints that the request tests drive: register, verify, login, forgot, reset, magic link, resend-verification and current, with a count of the mails they send;
- the two response projections, `LoginResponse` and `CurrentResponse`;
- the `app_version` string and the run-once `truncate` guard;
- the browser-side user store: its route guard, `setUser`, `fetchCurrentUser`, `handleLogin`/`handleRegister`, `verifyMagicLink` and `handleLogout`.

This model follows the tests, not the implementation of `users::Model` (`src/models/users.rs`) or of the authentication controller. Their behaviour is taken from the calls and assertions in `tests/models/users.rs` and `tests/requests/auth.rs`.

Files and modules:

| file | module | models |
|---|---|---|
| wrappers.dfy | `Wrappers` | Rust's `Option` (with `or` and `unwrap_or`) and `Result` |
| password.dfy | `Password` | password hashing and `verify_password`, as a salted stand-in digest |
| session.dfy | `Session` | issuing and validating a session token (JWT), abstractly |
| users.dfy | `Users` | the user record, the table invariant, the lookups and the `Store` class |
| auth.dfy | `Auth` | the endpoints as the `Service` class (table plus mail count), `Login`, `CurrentUser` |
| views.dfy | `Views` | `LoginResponse::new`, `CurrentResponse::new` |
| app.dfy | `App` | `app_version`, the `TruncateGuard` class |
| client_store.dfy | `ClientStore` | the route guard and the `UserStore` class |
| user_scenarios.dfy | `UserScenarios` | each model test, restated as a client of `Users.Store` |
| auth_scenarios.dfy | `AuthScenarios` | each request test, restated as a client of `Auth.Service` |

How the model is built:

- **Time.** Clock readings are integer minutes.
- **Generated values.** Pids, salts, tokens and the compact text of a session token are parameters. A magic-link token parameter must have `MAGIC_LINK_LENGTH` characters.
- **Constants.** `MAGIC_LINK_LENGTH` and `MAGIC_LINK_EXPIRATION_MIN` are named constants without a value.
- **Token state.** Each token kind is read as a `Slot`: `Absent`, `Pending(token, at)`, or `Torn` when only one of the two fields is set. The table invariant `TableValid` says three things:
  - no slot is ever torn;
  - stored magic-link tokens have the configured length;
  - emails and pids are unique.
- **Store updates.** Each `Store` method updates the row with the given pid. Its `ensures` states the new table as a function of the old one. Every method keeps `TableValid` and `Successor`. `Successor` means rows are only appended, accounts keep their identity, and a verified email stays verified.
- **Endpoints.** Each endpoint also keeps `Settled`: a verified email keeps its verification time.
- **Verification tokens.** Consuming a verification token does not clear it. `verified` only sets `email_verified_at`. So a second consumption of the same token answers `Done` and changes nothing. This is an assumption: tests/models/users.rs:220-230 checks only `email_verified_at`.
- **Magic links.** Consuming a magic link checks `now <= magic_link_expiration` and then clears both fields. This is an assumption: the tests only exercise the success path and the unknown-token path.
- **Unknown emails and tokens.**
  - forgot, magic-link request and resend with an unknown email answer `Done` and send no mail;
  - verify, reset and magic-link consumption with an unknown token answer `Unauthorized`. For verify, tests/requests/auth.rs:196-207 shows this. For reset it is an assumption (see "## Left out");
  - a refused registration answers `Done` and sends no mail. This is an assumption (see "## Left out").

## Model

| member | source | states |
|---|---|---|
| Password.Hash | tests/models/users.rs:44-57 | the hashing inside `create_with_password` and `reset_password`: the digest keeps the salt it was made with; `Password.HashThenVerify` and `Password.VerifyOnlyOriginal` give it its meaning |
| Password.Verify | tests/models/users.rs:246-257 | a digest accepts a password exactly when it is that password's hash under the digest's salt; `Password.HashThenVerify` and `Password.VerifyOnlyOriginal` give it its meaning |
| Password.HashThenVerify | tests/models/users.rs:242-246 | a password verifies against its own hash, for every password and salt |
| Password.VerifyOnlyOriginal | tests/models/users.rs:246-257 | a hash accepts exactly the password it was made from |
| Session.Issue | tests/requests/auth.rs:293-297 | the issued token carries the user's pid and expires `ttl` minutes after issuance |
| Session.Validate | tests/requests/auth.rs:299-308 | a token is accepted exactly when its signature checks under the secret and it has not expired, and then yields its pid |
| Session.IssueThenValidate | tests/requests/auth.rs:293-308 | a token issued for a pid validates to that pid under the same secret until it expires |
| Session.OtherSecretRejects | tests/requests/auth.rs:293-297 | a token is refused under any other secret |
| Session.ExpiredRejects | tests/requests/auth.rs:293-297 | a token is refused once its lifetime has elapsed |
| Users.NewUser | tests/models/users.rs:270-277 | a created record has the given email, name and pid, a hash that verifies the password, and no verification, token, timestamp or magic link |
| Users.WithVerificationSent | tests/models/users.rs:169-179 | `set_email_verification_sent` sets the token and its timestamp together and changes no other token, identity or verification field |
| Users.WithForgotPasswordSent | tests/models/users.rs:197-206 | `set_forgot_password_sent` sets the reset token and its timestamp together and changes nothing else |
| Users.WithVerified | tests/models/users.rs:220-230 | `verified` makes `email_verified_at` present and leaves every token slot as it was |
| Users.WithPasswordReset | tests/models/users.rs:248-257 | `reset_password` makes the new password verify and clears the reset token and its timestamp together |
| Users.WithMagicLink | tests/models/users.rs:279-323 | `create_magic_link` stores the given token of `MAGIC_LINK_LENGTH` characters and an expiration `e` with `now <= e <= now + MAGIC_LINK_EXPIRATION_MIN` |
| Users.WithoutMagicLink | tests/requests/auth.rs:355-362 | consuming a magic link clears the token and its expiration together |
| Users.FirstMatch | tests/models/users.rs:106-108 | the lookup answers the first row matching the key, or reports that no row matches |
| Users.FindByEmail | tests/models/users.rs:99-123 | `find_by_email` returns a row with that email, and returns not-found exactly when no row has it |
| Users.VerifyPassword | tests/models/users.rs:246-257 | `verify_password` holds exactly when the stored hash is the candidate's hash under the stored salt; with `Password.VerifyOnlyOriginal` only the original password passes |
| Users.FindByPid | tests/models/users.rs:131-155 | `find_by_pid` returns a row with that pid, and returns not-found exactly when no row has it |
| Users.FindByVerificationToken | tests/requests/auth.rs:88-94 | returns a row holding that verification token, and returns not-found exactly when none does |
| Users.FindByResetToken | tests/requests/auth.rs:240-251 | returns a row holding that reset token, and returns not-found exactly when none does |
| Users.FindByMagicToken | tests/requests/auth.rs:352-362 | the first row holding the token is returned exactly when its expiration has not passed; an expired first holder gives an error, and no holder gives not-found |
| Users.FindOwnRow | tests/models/users.rs:104-113 | in a valid table, a row's own email and pid both find exactly that row |
| Users.FindAfterCreate | tests/models/users.rs:99-123 | after a creation, the new user is found by its email and its pid, and every other email looks up as before |
| Users.AppendPreservesValid | tests/models/users.rs:75-87 | inserting a well-formed row with an unused email and pid keeps emails and pids unique |
| Users.ReplacePreservesValid | tests/models/users.rs:169-179 | updating a row of the same account keeps the table valid and verification monotone |
| Users.WrongLengthMagicTokenRejected | tests/models/users.rs:299-304 | a token whose length is not `MAGIC_LINK_LENGTH` never finds a user by magic link |
| Users.ResetReplacesPassword | tests/models/users.rs:242-257 | after `reset_password(new)` the new password verifies, and the previous one no longer does unless it equals the new one |
| Users.MagicLinkLifetime | tests/models/users.rs:306-323 | a freshly created magic link is honoured up to `MAGIC_LINK_EXPIRATION_MIN` minutes after creation and refused after that |
| Users.Store.CreateWithPassword | tests/models/users.rs:75-87 | a registered email gives `EntityAlreadyExists` and leaves the table unchanged; a new email with a taken pid gives `UniqueViolation` and leaves the table unchanged; otherwise exactly the fresh record is appended |
| Users.Store.SetEmailVerificationSent | tests/models/users.rs:169-179 | the row with the pid gets the verification token and timestamp; an unknown pid gives not-found and no change |
| Users.Store.SetForgotPasswordSent | tests/models/users.rs:197-206 | the row with the pid gets the reset token and timestamp; an unknown pid gives not-found and no change |
| Users.Store.Verified | tests/models/users.rs:222-230 | the row with the pid becomes verified; an unknown pid gives not-found and no change |
| Users.Store.ResetPassword | tests/models/users.rs:248-257 | the row with the pid gets the new password hash and its reset token cleared, in one update |
| Users.Store.CreateMagicLink | tests/models/users.rs:279-309 | the row with the pid gets the magic-link token and its expiration |
| Users.Store.ClearMagicLink | tests/requests/auth.rs:355-362 | the row with the pid loses its magic-link token and expiration |
| Views.NewLoginResponse | src/views/auth.rs:17-25 | the token is the argument; pid, name and email are the user's; `is_verified` holds exactly when `email_verified_at` is present |
| Views.NewCurrentResponse | src/views/auth.rs:39-46 | the token is the argument; pid, name and email are the user's |
| Views.ResponsesAgree | src/views/auth.rs:17-46 | for one user and token, both responses agree on token, pid, name and email |
| Views.LoginResponseDependsOnAccount | src/views/auth.rs:17-25 | a login response depends only on the account's identity and whether it is verified |
| Auth.Login | tests/requests/auth.rs:97-103 | login succeeds exactly when the email exists and the password verifies, with that user's `LoginResponse`; otherwise it is unauthorized |
| Auth.LoginUnknownEmail | tests/requests/auth.rs:132-141 | login with an email no row holds is unauthorized |
| Auth.LoginWithPassword | tests/requests/auth.rs:161-185 | a registered user with the right password logs in whether or not verified, and `is_verified` reports which |
| Auth.CurrentUser | tests/requests/auth.rs:299-314 | an invalid or expired token is unauthorized; a valid one answers the `CurrentResponse` of the user with the token's pid exactly when that pid has a row, and `NotFound` exactly when it has none |
| Auth.CurrentAfterIssue | tests/requests/auth.rs:290-315 | a token issued for a registered user opens `current` with that user's email, name and pid |
| Auth.Service.Register | tests/requests/auth.rs:29-43 | a new email is stored with a verification token, one mail is sent and a `LoginResponse` answered; a refused creation changes nothing |
| Auth.Service.Verify | tests/requests/auth.rs:88-114 | an unknown token is unauthorized with no change; the holder becomes verified, and an already verified holder is left unchanged |
| Auth.Service.Forgot | tests/requests/auth.rs:217-238 | a registered email gets a reset token, its timestamp and one mail; an unknown email gets the same answer, no change and no mail |
| Auth.Service.Reset | tests/requests/auth.rs:240-258 | the holder of the reset token gets the new password and loses the token; an unknown token is unauthorized with no change |
| Auth.Service.MagicLink | tests/requests/auth.rs:326-335 | a registered email gets a magic link and one mail; an unknown email gets the same answer, no change and no mail |
| Auth.Service.MagicLinkVerify | tests/requests/auth.rs:348-367 | an unknown or expired token is unauthorized with no change; otherwise the link is cleared and the holder's `LoginResponse` answered |
| Auth.Service.ResendVerification | tests/requests/auth.rs:428-446 | an unverified user gets a new verification token and one mail; a verified or unknown email gets `Done`, no change and no mail |
| UserScenarios.CanCreateWithPassword | tests/models/users.rs:44-64 | creating on an empty table returns a fresh record with the given identity whose hash verifies the password |
| UserScenarios.HandleCreateWithPasswordWithDuplicate | tests/models/users.rs:68-90 | a second creation with the same email returns `EntityAlreadyExists` and the table still holds only the first user |
| UserScenarios.CanFindByEmail | tests/models/users.rs:94-123 | the created user is found by its email; an unknown email is not found |
| UserScenarios.CanFindByPid | tests/models/users.rs:127-155 | the created user is found by its pid; an unknown pid is not found |
| UserScenarios.CanVerificationToken | tests/models/users.rs:159-182 | the verification slot goes from absent to pending with the token and timestamp |
| UserScenarios.CanSetForgotPasswordSent | tests/models/users.rs:186-209 | the reset slot goes from absent to pending with the token and timestamp |
| UserScenarios.CanVerified | tests/models/users.rs:213-233 | `email_verified_at` goes from absent to present |
| UserScenarios.CanResetPassword | tests/models/users.rs:237-260 | the original password verifies before the reset and the new one after it |
| UserScenarios.MagicLink | tests/models/users.rs:264-326 | the magic-link slot goes from absent to a token of `MAGIC_LINK_LENGTH` characters expiring within `MAGIC_LINK_EXPIRATION_MIN` minutes |
| AuthScenarios.CanRegister | tests/requests/auth.rs:24-58 | after registration the email is found and holds a verification token |
| AuthScenarios.CanLoginWithVerify | tests/requests/auth.rs:60-123 | after verification the email is verified; login succeeds with the registered password and is unauthorized with any other |
| AuthScenarios.CanLoginWithoutVerify | tests/requests/auth.rs:146-194 | login right after registration succeeds, reports the email unverified and carries the user's email and pid |
| AuthScenarios.InvalidVerificationToken | tests/requests/auth.rs:196-207 | a verification token nobody holds is unauthorized and leaves the table unchanged |
| AuthScenarios.CanResetPassword | tests/requests/auth.rs:209-283 | forgot sets reset token and timestamp, reset clears both, and login succeeds with the new password; the refusal of the used token follows from the assumption on `Auth.Service.Reset` |
| AuthScenarios.CanGetCurrentUser | tests/requests/auth.rs:285-317 | `current` with a freshly issued token answers the user's email, name and pid |
| AuthScenarios.CanAuthWithMagicLink | tests/requests/auth.rs:319-370 | the mailed magic link logs in with the user's name and pid, one mail is sent, and the link cannot be used twice |
| AuthScenarios.CanRejectInvalidMagicLinkToken | tests/requests/auth.rs:391-406 | a magic-link token nobody holds is unauthorized |
| AuthScenarios.CanResendVerificationEmail | tests/requests/auth.rs:408-459 | registration then resend on an unverified account sends two mails and leaves the new token pending |
| AuthScenarios.CannotResendEmailIfAlreadyVerified | tests/requests/auth.rs:461-503 | once verified, resend answers success and sends nothing: one mail in total, and the old token is left in place |
| App.AppVersion | src/app.rs:29-37 | the version is `CARGO_PKG_VERSION (sha)`, where sha is `BUILD_SHA` if set, else `GITHUB_SHA` if set, else `dev` |
| App.TruncateGuard.Truncate | src/app.rs:65-81 | a later call returns Ok without truncating; the first call sets the flag and truncates once, and its result is the truncation's |
| App.TruncateRepeatedly | src/app.rs:67-80 | over any sequence of calls the table is truncated at most once, only the first call can fail, and every later call succeeds |
| ClientStore.Redirect | frontend/app/stores/user.ts:118-128 | no navigation while not loaded; a signed-out visitor on `/dashboard…` goes to `/`; a signed-in user elsewhere goes to `/dashboard`; otherwise nothing |
| ClientStore.RedirectSettles | frontend/app/stores/user.ts:123-127 | following the guard's push never triggers another push |
| ClientStore.StoredToken | frontend/app/stores/user.ts:46-49 | the stored token is the user's token, or `""` without a user |
| ClientStore.FromLogin | frontend/app/stores/user.ts:62-71 | the stored user takes its token, pid, name and email from the `LoginResponse` |
| ClientStore.FromCurrent | frontend/app/stores/user.ts:27-36 | the stored user takes its token, pid, name and email from the `CurrentResponse` |
| ClientStore.UserStore.SetUser | frontend/app/stores/user.ts:46-49 | the user is replaced and its token, or `""`, is stored under `token` |
| ClientStore.UserStore.FetchCurrentUser | frontend/app/stores/user.ts:27-44 | success sets the user without touching storage; failure clears the user and the stored token; either way `loading` becomes true |
| ClientStore.UserStore.HandleLogin | frontend/app/stores/user.ts:51-71 | a `LoginResponse` becomes the user and its token is stored; a failure changes nothing |
| ClientStore.UserStore.VerifyMagicLink | frontend/app/stores/user.ts:97-109 | a `LoginResponse` becomes the user; a failure navigates to `/` and changes nothing |
| ClientStore.UserStore.HandleLogout | frontend/app/stores/user.ts:111-116 | the user becomes null and the stored token `""`, whether or not the logout call succeeded |
| ClientStore.LogoutLeavesDashboard | frontend/app/stores/user.ts:111-127 | after logging out on a dashboard page the guard sends the visitor to `/` and the stored token is empty |

## Left out

- Model validation (tests/models/users.rs:24-40): the rules live in `src/models/users.rs` and the expected errors only in a snapshot. Neither is part of this model.
- Password hashing is a salted stand-in digest. It is not one-way and has no work factor. A hashing failure, which is fatal in the source, is not modelled. The stand-in is injective by construction. So three facts hold exactly here, while a real hash gives them only with overwhelming probability: `Password.VerifyOnlyOriginal`, the second ensures of `Users.ResetReplacesPassword`, and the refusal of any other password in `AuthScenarios.CanLoginWithVerify`.
- The session token is abstract. Its claims and signature are a datatype, not an encoded, signed JWT. Its compact text is a parameter. `current` takes the decoded token, which is what the request extractor produces. The JWT library is not part of this model.
- Mail delivery is a count of delivered mails. Templates, recipients and links are left out.
- Database failures other than the uniqueness constraints are not modelled. Every other storage call succeeds. The `?` error paths after a successful lookup cannot arise.
- Only the `pid`, `email`, `name`, password hash and six token/verification columns of the row are modelled. The internal id, `api_key`, and the created/updated timestamps are left out.
- Active-record methods take the pid of the row to update rather than an `ActiveModel`. The source updates by the internal `id`, which is not modelled. `pid` is unique in a valid table, so it stands in for `id`.
- `pid` is a UUID in the source; `src/views/auth.rs:20` sends its string form. The model stores and compares pids as strings throughout.
- HTTP statuses, JSON bodies and insta snapshots are reduced to the `Auth.Reply` outcomes.
- `App.TruncateGuard.Truncate`: the `OnceLock`, `Arc` and async `Mutex` that keep concurrent first callers apart are not modelled. The guard is sequential. `truncate_table` is only counted, not applied to the table.
- Framework hooks in src/app.rs (`app_name`, `boot`, `initializers`, `routes`, `connect_workers`, `register_tasks`, `seed`) are glue and are left out.
- In the browser store, `handleMagicLink` only shows toasts, so it is left out. Toasts, `console.log` and `onMounted` are also left out. `router.push` is modelled only as the returned `Navigation`. `frontend/app/utils/api.ts` is a thin `fetch` wrapper: its results are given as settled `Result`s.
- tests/prepare/users.rs only feeds random data into `create_with_password`. Those values are parameters here.
- `Users.FindByMagicToken`: the token-length check that the lookup may perform is not modelled. `Users.WrongLengthMagicTokenRejected` shows that a wrong-length token never matches a stored one.
- `Auth.Service.Reset`: the `Unauthorized` answer to a token nobody holds is an assumption. tests/requests/auth.rs:209-283 only posts the valid token, and the controller is not part of this model. The replay clause of `AuthScenarios.CanResetPassword` (`replay == Unauthorized`) rests on the same assumption.
- `Auth.Service.Register`: answering a `LoginResponse` rests on the type `handleRegister` expects (frontend/app/stores/user.ts:51-60). The request test (tests/requests/auth.rs:29-43) checks only the stored row and the mail. The `Done` answer, with no change and no mail, to a refused creation (a duplicate email or pid) is an assumption: no test registers a duplicate. The model does not report the duplicate email to the caller as a typed outcome.
- `ClientStore.UserStore.HandleLogin` and `ClientStore.UserStore.VerifyMagicLink`: `.then(setUser)` stores the whole `LoginResponse`, including `is_verified`. The model stores only its `ClientUser` projection (token, pid, name, email), via `ClientStore.FromLogin`. Nothing in the store reads `is_verified`.
