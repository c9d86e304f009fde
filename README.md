# Account and session lifecycle of a MERN authentication server

This project models the server side of the authentication system in Dafny. A user is created unverified, becomes verified by an email link, logs in with an email and password, and either receives a 30-day JWT plus a stored session or, with two-factor authentication on, a 5-minute temp token that only `/api/auth/2fa/validate` accepts. Password resets use a one-hour single-use token. Social logins link a provider account to an existing user or create a password-less, pre-verified user under the first free username derived from the email.

The model is organised in modules that follow the program:

- `Schema` (schema.dfy) covers the `users`, `socialConnections` and `sessions` records with their defaults, the zod validators, and the profile-update whitelist.
- `Storage` (storage.dfy) covers `MemStorage`.
  - It is a class with three tables and three id counters that only grow.
  - The tables are sequences in insertion order, which is ascending id, so `find` is the lowest-id match.
  - Lookups are functions over the tables.
  - The create/update/delete operations are methods that change the tables in place. `deleteUserSessions` keeps its loop.
- `Accounts` (accounts.dfy) holds the service invariant.
  - No two users share an email or a username ignoring case, and no two share a live token.
  - Every user with 2FA on has a secret.
  - At most one connection exists per provider account.
  - Lemmas show which table updates keep the invariant.
- `AuthService` (auth_service.dfy) covers server/services/auth.ts. Each exported function that reads or writes the store is a method over one shared `MemStorage`, and every such method preserves the invariant. `getUserProfile` and `getUserSessions` only read, and they become the functions `UserProfile` and `SessionViews` over the tables.
- `Middleware` (middleware.dfy) covers the guard chain and a `Request` class whose `user`, `token` and `clientInfo` slots the middleware fills.
- `Routes` (routes.dfy) covers the validation-error formatter, the four two-factor handlers and the profile update.
- `Scenarios` (scenarios.dfy) covers consecutive calls: verification and reset tokens are single-use, and logout is idempotent.
- `Common` (common.dfy) holds `Option`/`Result`, `find`/`filter`, lower-casing, `split`/`join` and decimal formatting.

Calls into libraries are parameters:

- `matches(password, hash)` is `bcrypt.compare` on a present hash, and `digest` is what `hashPassword` returned.
- `issue(claims, ttl, now)` is `generateToken`, and `verify(token, now)` is `verifyToken`.
- `totp(secret, code, now)` is speakeasy's TOTP check.
- `mailOk` says whether an awaited mail send resolved.
- The random verification tokens, reset tokens and 2FA secrets are passed in. Where the source relies on them being fresh, a `requires` says they are unused.
- Time is an integer `now` in milliseconds. `setHours(+24)` and `setHours(+1)` are fixed offsets.

## Model

| member | source | states |
|---|---|---|
| Schema.BuildUser | server/storage.ts:87-100 | the stored record carries the given id, email and username; `isVerified` and `twoFactorEnabled` are true only when the insert says true (default false); timestamps default to now |
| Schema.NoChangeOnlyTouchesUpdatedAt | server/storage.ts:108-112 | the `{...user, ...data, updatedAt}` merge with an empty patch changes only `updatedAt` |
| Schema.BuildSession | server/storage.ts:175-185 | a stored session keeps the user, token and expiry it was created with, gets the given id and `createdAt = now` |
| Schema.RegisterIssues | shared/schema.ts:47-63 | registration is accepted iff the email is valid, the password has at least 8 code units and equals `confirmPassword`; each failing refinement reports its message at its path |
| Schema.LoginIssues | shared/schema.ts:66-69 | login input is accepted iff the email is valid and the password is non-empty |
| Schema.ResetIssues | shared/schema.ts:77-84 | a reset is accepted iff the password has at least 8 code units and equals `confirmPassword` (the token is any string) |
| Schema.EmailChangeIssues | shared/schema.ts:97-100 | an email change is accepted iff the new email is valid and the password is non-empty |
| Schema.PasswordChangeIssues | shared/schema.ts:103-110 | accepted iff the current password is non-empty, the new one has at least 8 code units and equals `confirmPassword` |
| Schema.CodeIssues | shared/schema.ts:118-120 | a 2FA code is accepted iff it has exactly 6 code units, with at most one issue reported |
| Schema.CodeDigitsNotChecked | shared/schema.ts:113-120 | six letters pass the code check and five digits do not: digits are not enforced |
| Schema.ParseProfileUpdate | shared/schema.ts:87-94 | the parsed update has a username exactly when the body has a `username` key, and it is that string |
| Schema.ParseIgnoresUnknownKeys | shared/schema.ts:87-94 | keys outside firstName, lastName, username and profilePicture have no effect on the parse |
| Schema.ProfilePatch | shared/schema.ts:87-94 | a profile update never names the email, password, verification, reset or 2FA columns |
| Storage.UserById | server/storage.ts:57-59 | getUser finds a user with that id, or none exactly when no user has it |
| Storage.UserByEmail | server/storage.ts:61-65 | the user found has the email ignoring case; none exactly when nobody has it |
| Storage.UserByUsername | server/storage.ts:67-71 | the user found has the username ignoring case; none exactly when nobody has it |
| Storage.LookupsReturnLowestId | server/storage.ts:61-71 | with ascending ids, the email and username lookups return the lowest-id match |
| Storage.UserByVerificationToken | server/storage.ts:73-77 | finds a holder of the token with no expiry filter; none exactly when nobody holds it |
| Storage.UserByResetToken | server/storage.ts:79-85 | finds only a holder whose reset expiry is present and after now; none exactly when no such live holder exists |
| Storage.ConnectionOf | server/storage.ts:123-127 | getSocialConnection finds a connection of that user and provider, or none when there is none |
| Storage.ConnectionByProviderId | server/storage.ts:129-133 | finds a connection with that provider and provider id, or none when there is none |
| Storage.UserConnections | server/storage.ts:152-156 | exactly the connections whose userId matches |
| Storage.SessionById | server/storage.ts:159-161 | getSession finds the session with that id, or none when absent |
| Storage.SessionByToken | server/storage.ts:163-167 | only an unexpired session with the token is returned; none exactly when no such session exists |
| Storage.UserSessions | server/storage.ts:169-173 | exactly the user's sessions whose expiry is after now |
| Storage.WithoutIds | server/storage.ts:187-189 | removing ids keeps exactly the sessions whose id is not removed |
| Storage.WithoutIdsTwice | server/storage.ts:191-201 | deleting two batches of ids in turn equals deleting their union |
| Storage.RemovingLiveIds | server/storage.ts:191-201 | deleting the ids of a user's live sessions keeps exactly the sessions that are not that user's live ones |
| Storage.MemStorage.constructor | server/storage.ts:47-54 | empty tables, all counters at 1 |
| Storage.MemStorage.CreateUser | server/storage.ts:87-100 | the new user takes the old counter as id, an id no stored user has, is appended, and the counter grows by one; nothing else changes; no uniqueness check |
| Storage.MemStorage.UpdateUser | server/storage.ts:102-116 | an unknown id changes nothing (the throw); otherwise exactly that user is replaced by the merged record |
| Storage.MemStorage.DeleteUser | server/storage.ts:118-120 | reports whether the id was present and removes exactly that user |
| Storage.MemStorage.CreateSocialConnection | server/storage.ts:135-146 | appends the connection under a fresh id from its own counter, no uniqueness check |
| Storage.MemStorage.DeleteSocialConnection | server/storage.ts:148-150 | reports whether the id was present and removes exactly that connection |
| Storage.MemStorage.CreateSession | server/storage.ts:175-185 | appends the session under a fresh id from its own counter |
| Storage.MemStorage.DeleteSession | server/storage.ts:187-189 | reports whether the id was present and removes only that session |
| Storage.MemStorage.DeleteUserSessions | server/storage.ts:191-201 | the loop removes every unexpired session of the user, keeps everyone else's and the user's expired ones, and returns true |
| Accounts.FreshKeysFit | server/services/auth.ts:20-29 | a user whose email and username the lookups do not find, and whose tokens nobody holds, clashes with nobody |
| Accounts.AppendKeepsConsistent | server/services/auth.ts:20-38 | appending such a user keeps emails, usernames and tokens unique |
| Accounts.UpdateKeepsConsistent | server/storage.ts:102-116 | replacing a user keeps uniqueness when each key is unchanged, free, or cleared |
| Accounts.ClearedVerificationTokenIsGone | server/services/auth.ts:145-150 | once its only holder clears it, nobody holds the verification token |
| Accounts.ClearedResetTokenIsGone | server/services/auth.ts:203-207 | once its only holder clears it, nobody holds the reset token |
| Accounts.LinkKeepsUnique | server/services/auth.ts:346-366 | a connection for a provider account nobody has linked keeps links unique |
| AuthService.ComparePassword | server/services/password.ts:22-24 | a missing hash is its own outcome; otherwise a match exactly when the compare accepts |
| AuthService.CheckLogin | server/services/auth.ts:65-81 | login passes exactly for a found, matching, verified user; an unverified user fails only after the password matched |
| AuthService.LoginFailsAlike | server/services/auth.ts:65-76 | an unknown email and a wrong password fail with the same 'Invalid credentials' |
| AuthService.CheckLoginAsWritten | server/services/auth.ts:65-81 | as written, a password-less user makes the compare reject with its own message; every other case agrees with CheckLogin |
| AuthService.PasswordlessLoginAsWrittenDiffers | server/services/auth.ts:72-76 | for a social user without a password, the error as written is not 'Invalid credentials' |
| AuthService.CandidatesDiffer | server/services/auth.ts:431-447 | the candidates base, base1, base2, … are pairwise different ignoring case |
| AuthService.NewOwner | server/services/auth.ts:436-444 | each taken candidate belongs to a user not counted before, so the taken ones never outnumber the users |
| AuthService.TakenOneMore | server/services/auth.ts:436-444 | a taken candidate extends the run of taken candidates by one |
| AuthService.SkipCandidate | server/services/auth.ts:436-444 | skipping a taken candidate keeps the loop's owner count and taken-prefix invariants |
| AuthService.GenerateUniqueUsername | server/services/auth.ts:431-447 | returns the first free candidate: it is free, every earlier one is taken, and at most \|users\| are skipped |
| AuthService.LocalPart | server/services/auth.ts:369 | `email.split('@')[0]`: the text before the first '@', or all of it |
| AuthService.OrNull | server/services/auth.ts:375-378 | `x \|\| null`: an empty or missing string becomes null, a non-empty one is kept as it is |
| AuthService.RegisterUser | server/services/auth.ts:18-62 | a taken email (checked first) or username, ignoring case, fails with nothing changed; otherwise exactly one unverified user with the token and a 24-hour expiry is added under the next user id and kept even if the mail fails; only the users and their id counter change |
| AuthService.LoginUser | server/services/auth.ts:65-132 | failures change nothing; a 2FA user gets a 5-minute `require2FA` token and no session; anybody else gets a 30-day token and exactly one session expiring in 30 days; only the sessions and their id counter change |
| AuthService.VerifyEmail | server/services/auth.ts:135-159 | an unknown or expired token changes nothing; otherwise the holder becomes verified, the token and expiry are cleared and nobody holds the token |
| AuthService.RequestPasswordReset | server/services/auth.ts:162-190 | an unknown email changes nothing and gets the success answer; a registered one gets the token with a one-hour expiry and the same success answer when the mail goes out, but a failed send is an error, and that error can only come for a registered email |
| AuthService.ResetPassword | server/services/auth.ts:193-213 | only a live reset token is accepted; the password is replaced, the token and expiry are cleared and nobody holds the token |
| AuthService.ChangeEmail | server/services/auth.ts:216-254 | a wrong password or an email anybody holds (the caller's own included) changes nothing; otherwise the user is unverified with the fresh token and a 24-hour expiry |
| AuthService.ChangePassword | server/services/auth.ts:257-281 | a wrong current password changes nothing; otherwise only the password changes and every session stays |
| AuthService.Providers | server/services/auth.ts:291-292 | one provider per connection, in order |
| AuthService.UserProfile | server/services/auth.ts:284-305 | an unknown user fails; otherwise the profile carries the stored user's id, email, username, names, verified flag, picture and 2FA flag, and lists exactly the providers the user is linked to |
| AuthService.SessionViews | server/services/auth.ts:308-318 | a row for each of the user's unexpired sessions and nothing else |
| AuthService.LogoutUser | server/services/auth.ts:321-329 | always succeeds; with no live session for the token nothing changes, otherwise only that session is deleted; a token held once is then gone |
| AuthService.LogoutAllDevices | server/services/auth.ts:332-335 | removes exactly the caller's unexpired sessions |
| AuthService.SignUpSocialUser | server/services/auth.ts:367-388 | appends the whole social record (verified, no password, names and picture as `x \|\| null`, timestamps at now) under the next user id and the first free candidate username derived from the email, and links the provider account to it; the user and connection counters advance by one, the sessions do not change |
| AuthService.LinkExistingUser | server/services/auth.ts:359-366 | links the provider account to the user with that email; only the connections and their id counter change |
| AuthService.HandleSocialLogin | server/services/auth.ts:338-428 | a linked account logs its user in, or fails for a missing user with nothing changed; otherwise it links to the email's user or creates the whole social record under the first free candidate username; a failed welcome mail throws after both are stored; each success adds one 30-day session, and every id counter advances exactly by what was created. The token is issued without `require2FA` even for a user with 2FA on, as at server/services/auth.ts:395, so a social login skips the TOTP step |
| Middleware.Request.constructor | server/middleware/auth.ts:5-16 | a request before any middleware: no user, token or client info |
| Middleware.BearerToken | server/middleware/auth.ts:24-25 | the token is the non-empty second space-separated word of a truthy header |
| Middleware.BearerTokenRoundTrip | server/middleware/auth.ts:24-25 | `"<scheme> <token>"` yields the token back for any one-word scheme |
| Middleware.OneWordHeaderHasNoToken | server/middleware/auth.ts:24-29 | a header without a space carries no token |
| Middleware.Authenticate | server/middleware/auth.ts:22-45 | passes exactly when a token is present and verifies, attaching the payload's userId and require2FA; otherwise 401, 'Authentication required' exactly when no token and 'Invalid or expired token' for a token that does not verify |
| Middleware.AuthenticateJwt | server/middleware/auth.ts:22-45 | on success sets `req.user` and `req.token` and calls next; on failure answers 401 and leaves the request alone |
| Middleware.RequireFullAuth | server/middleware/auth.ts:50-63 | 401 without a user, 403 with `requiresTwoFactor` for a 2FA-pending user, next exactly otherwise |
| Middleware.ValidateSession | server/middleware/auth.ts:68-80 | next exactly when user and token are present and an unexpired stored session carries the token; a missing user or token is 401 'Authentication required', no live session is 401 'Session expired or invalid' |
| Middleware.GuardChainAdmits | server/middleware/auth.ts:22-80 | the three guards pass exactly the tokens that verify without `require2FA` and that a live session holds |
| Middleware.TempTokenNeverPasses | server/middleware/auth.ts:38-41 | a token issued with `require2FA` never gets through authenticateJWT followed by requireFullAuth |
| Middleware.FullTokenPasses | server/middleware/auth.ts:22-80 | a full token that still verifies and has a live session passes all three guards |
| Middleware.ChosenAddress | server/middleware/auth.ts:87-90 | a truthy `req.ip` always wins the fallback chain |
| Middleware.ClientIp | server/middleware/auth.ts:87-98 | the ip is `req.ip` when truthy, else the forwarded header (a list's first element), the socket address or 'unknown'; each case is stated separately: a non-empty header string, a non-empty list's first element, and for a missing or empty header the truthy socket address or else 'unknown'; none only for an empty list |
| Middleware.TrackedClient | server/middleware/auth.ts:93-101 | location and timezone are 'Unknown'; the user agent defaults to 'unknown' |
| Middleware.TrackClientInfo | server/middleware/auth.ts:85-105 | sets `req.clientInfo` to the tracked client, leaves user and token alone, calls next |
| Routes.IssueListed | server/routes.ts:48-54 | every issue's message is filed under its joined path |
| Routes.MessagesOnlyFromKey | server/routes.ts:48-54 | every filed message comes from an issue with that path |
| Routes.MessagesAtCount | server/routes.ts:48-54 | a path has one message per issue with that path, so nothing is lost or repeated |
| Routes.FormatIssues | server/routes.ts:47-54 | the loop's keys are exactly the joined paths, each holding its messages in order |
| Routes.ValidateRequest | server/routes.ts:42-64 | a parsed body passes unchanged; a zod failure answers 400 'Validation failed' with the grouped messages |
| Routes.TwoFactorSetup | server/routes.ts:160-192 | for a known caller only the secret is written, to a non-null value, even with 2FA already on; unknown caller 404 with nothing changed |
| Routes.TwoFactorVerify | server/routes.ts:195-230 | no secret or a rejected code changes nothing; otherwise only `twoFactorEnabled` becomes true |
| Routes.TwoFactorDisable | server/routes.ts:233-269 | requires 2FA on, a secret and an accepted code; then both are cleared, otherwise nothing changes |
| Routes.PendingUser | server/routes.ts:274-291 | passes exactly a temp token that verifies with a truthy userId and `require2FA`, for a user with 2FA on and a secret, and then returns that user; 401 exactly when the token is missing ('Temporary token required'), does not verify or lacks a truthy userId or `require2FA` ('Invalid or expired token'); otherwise 400 |
| Routes.TwoFactorValidate | server/routes.ts:272-332 | every failure changes nothing; an accepted code adds exactly one 30-day session with a token issued without `require2FA`, and nothing else but the session counter changes |
| Routes.ValidatedTokenIsFull | server/routes.ts:306-318 | the token validate hands out passes the whole guard chain while it verifies and its session lives |
| Routes.UsernameCheckAsWritten | server/routes.ts:357-362 | as written, refuses only a truthy username another user holds; the empty one is never checked |
| Routes.UsernameCheck | server/routes.ts:357-362 | refuses a username, empty included, whose holder is another user |
| Routes.PassedNameIsFree | server/routes.ts:357-362 | in a consistent table a username the check passes is held by nobody but the caller |
| Routes.TakenNameRefused | server/routes.ts:357-362 | in a consistent table a username another user holds is refused |
| Routes.UpdateProfile | server/routes.ts:351-383 | a taken username changes nothing; otherwise only the whitelisted fields of the caller change and usernames stay unique; an unknown caller gets updateUser's error |
| Routes.EmptyUsernameSlipsThrough | server/routes.ts:357-362 | as written, a second user can take the empty username another user holds, breaking uniqueness; the corrected check refuses it |
| Scenarios.VerifyEmailTwice | server/services/auth.ts:135-159 | after an accepted verification the same link fails as unknown |
| Scenarios.ResetPasswordTwice | server/services/auth.ts:193-213 | a reset token cannot be used a second time |
| Scenarios.LogoutTwice | server/services/auth.ts:321-329 | when a single live session holds the token (`TokenHeldOnce`), logging out twice equals logging out once |

## Left out

- The email sender (server/services/email.ts) is left out. Each awaited send is the `mailOk` parameter.
  - The registration, verification, reset-request, email-change and welcome mails throw after the store has changed.
  - The login notification is swallowed and left out.
- bcrypt, jsonwebtoken, speakeasy and `randomBytes` are parameters. They are not modelled. The `JWT_EXPIRES_IN` and `JWT_SECRET` environment overrides are left out; the lifetimes are the defaults.
- QR code rendering in the 2FA setup route is left out. Routes.TwoFactorSetup returns only the secret.
- The MongoDB store (server/mongodb-storage.ts) and the environment switch that selects it in server/routes.ts:9 are left out. One shared `MemStorage` is assumed.
- The other HTTP handlers, which only map exceptions to status codes, are left out. So are the 501 OAuth stubs and the client.
- The non-zod "Invalid request data" answer of validateRequest is left out; every parse failure is a zod failure here.
- Concurrency is left out. The check-then-insert races in registration are out of scope because the model is sequential.
- `Date` values are integer milliseconds, and `setHours(+24)` / `setHours(+1)` are fixed offsets. `toISOString` in session and profile views is left out; the raw times are returned.
- Lower-casing is ASCII-only. `toLowerCase` on other scripts is not modelled.
- AuthService.LogoutUser: only a token that a single live session holds is proved gone afterwards. The source deletes the first live match only, and session tokens are not guaranteed unique.
- AuthService.LoginUser: uses the corrected CheckLogin, so a password-less account fails with 'Invalid credentials'. As written the error differs, as CheckLoginAsWritten and PasswordlessLoginAsWrittenDiffers state (see Findings).

## Findings

| source | as written | input that shows it | evidently intended | confidence | as-written member | corrected member |
|---|---|---|---|---|---|---|
| server/routes.ts:357-362 | `if (req.body.username)` skips the uniqueness check for an empty username, which profileUpdateSchema accepts | user 1 holds username "" (set by an earlier PATCH or at registration); user 2 sends `PATCH {"username": ""}` and both now hold "" | every username a PATCH sets, the empty one included, must be free or the caller's own | not executed | Routes.UsernameCheckAsWritten, Routes.EmptyUsernameSlipsThrough | Routes.UsernameCheck, Routes.UpdateProfile |
| server/services/auth.ts:72-76 | `comparePassword(password, user.password!)` on a password-less social account makes bcrypt reject with its own message, which the login route returns with 401 | log in with the email of a user created by social login and any password | the same 'Invalid credentials' as for an unknown email or a wrong password | not executed | AuthService.CheckLoginAsWritten, AuthService.PasswordlessLoginAsWrittenDiffers | AuthService.CheckLogin, AuthService.LoginFailsAlike, AuthService.LoginUser |
