# Job portal: session, authorisation and application rules

A Dafny model of the job-board backend and of the state its single-page frontend keeps.

- **Backend** (`backend/server.js`). The route handlers are methods of the class `PortalServer.Server`. It holds the three tables the handlers read and write (`users`, `jobs`, `applications`) and their auto-increment counters.
  - Each handler returns a `Response` (a status code and a JSON body) and changes the tables in one atomic step.
  - `Server.Valid()` is the invariant every handler keeps. Ids are below the counters and emails are unique. A stored refresh token is one issued to that very row. There is at most one application per (job, user) pair. No application points to a missing job.
  - The session lemmas work on the `users` table alone. At most one refresh token per user is accepted. A new login revokes the previous session's token. Logout revokes the session and is idempotent.
  - The module `SessionScenarios` chains several requests and proves, from the handlers' contracts alone, what a client sees. Registration is followed by a login as a plain `user`. A second login revokes the first session's refresh token. Logout followed by refresh gets 403. An expired access token gets 403 and is renewed with the refresh token.
- **Tokens and passwords** (`Tokens`, `Passwords`). A JWT signed by the server is modelled by its contents: the secret it was signed with, the claim `{id, email, role}` and `exp`. Verifying under a secret succeeds when the secret matches and `now < exp`. Any other text a client presents is `Junk`. A bcrypt digest is an ideal salted hash: it verifies for exactly one password, whatever the salt.
- **Middlewares** (`AuthGate`). `authenticateJWT` works on the `Authorization` header, seen as its space-separated fields. `authorizeAdmin` is a plain role-equality check. The admin routes chain the two.
- **Validation** (`Schemas`). The Joi schemas are predicates on request bodies.
- **Filtering** (`SqlLike`). SQL `LIKE` matching covers `%`, `_` and backslash escapes. Proved: a filter without wildcards is exactly a substring search.
- **Frontend**. The `auth`, `jobs` and `admin` Redux slices are classes whose methods assign fields in place, as the Immer drafts do. Each method also agrees with a pure `Reduce(state, action)`. Lemmas on `Reduce` state the frame properties, idempotence and commutation. `RouteGuard.RequireAuth` is the three-way decision of `App.jsx`.

Three behaviours of the code worth knowing; the model follows the code:

- A refresh token is not rotated. It can be presented any number of times until a later login replaces it or logout clears it.
- Malformed login input gets Joi's 400 message, not "Invalid credentials".
- Two logins of the same user within the same second mint the same refresh token, because a JWT's contents are fully determined by its claim and times. So the second login revokes the first only when they happen at different times.

## Model

| member | source | states |
|---|---|---|
| `Tokens.GenerateAccessToken` | backend/server.js:38-40 | the token verifies under the access secret, giving its claim, exactly until 15 minutes after issue, and never verifies under the refresh secret |
| `Tokens.GenerateRefreshToken` | backend/server.js:42-44 | the token verifies under the refresh secret exactly until 7 days after issue, and never under the access secret |
| `Tokens.RefreshTokensOfDifferentTimesDiffer` | backend/server.js:42-44 | two refresh tokens for one claim are equal iff they were issued at the same time |
| `Passwords.Hash` | backend/server.js:106 | the digest verifies for the hashed password and for no other password |
| `Passwords.SaltedDigestsDifferButVerify` | backend/server.js:106 | different salts give different digests of one password, and both verify |
| `AuthGate.AuthenticateJWT` | backend/server.js:47-57 | 401 iff the header is absent or empty. It proceeds iff the header's second field is an unexpired token signed with the access secret, and then with that token's claim. Every other case is 403 |
| `AuthGate.AuthorizeAdmin` | backend/server.js:60-63 | passes the user on iff its role equals "admin", otherwise 403; no hierarchy |
| `AuthGate.AdminGate` | backend/server.js:286-290 | the admin routes' chain: 401 iff the header is missing. It proceeds iff the bearer token verifies and carries role "admin". Otherwise 403 |
| `AuthGate.AccessTokenLifetime` | backend/server.js:38-57 | a bearer access token is admitted with its claim before it expires, and refused with 403 (never 401) afterwards |
| `AuthGate.RefreshTokenNeverAuthenticates` | backend/server.js:42-57 | a refresh token presented as a bearer token is always refused with 403 |
| `Schemas.SchemaLimits` | backend/server.js:66-85 | registration refuses a password under 6 characters, a missing or non-string field and any extra key. It accepts every non-empty well-formed email with a password of at least 6 characters. Login needs a non-empty password. Job fields have minimum lengths 3, 2, 2 and 10. A cover letter may be "" but not longer than 500 characters, nor a non-string |
| `SqlLike.InfixPatternIsContains` | backend/server.js:207-218 | for a filter without `%`, `_` or backslash, `LIKE '%' + filter + '%'` holds exactly when the column contains the filter |
| `SqlLike.UnderscoreFilterMatchesAnyCharacter` | backend/server.js:207-209 | the filter is not escaped: a filter "_" keeps every non-empty title |
| `PortalServer.PlainFilterIsSubstringSearch` | backend/server.js:207-218 | a non-empty wildcard-free listing filter keeps exactly the rows whose column contains it |
| `PortalServer.OneAcceptedRefreshTokenPerUser` | backend/server.js:169-174 | two refresh tokens accepted for the same user id are the same token |
| `PortalServer.StoringRevokesOtherTokens` | backend/server.js:144-148 | storing a new refresh token for a user makes every other token of that user unacceptable and leaves the other rows unchanged |
| `PortalServer.ClearedSessionRefusesRefresh` | backend/server.js:162-197 | after the refresh token of a user is cleared, no token of that user is accepted |
| `PortalServer.ClearRefreshTokenIdempotent` | backend/server.js:188-197 | clearing a user's refresh token twice leaves the table as clearing it once |
| `PortalServer.AcceptedTokenCarriesCurrentClaim` | backend/server.js:176-180 | under the table invariant, an accepted refresh token carries the current id, email and role of its user |
| `PortalServer.Server.Register` | backend/server.js:93-118 | an invalid body gives 400 and a taken email gives 400 "Email already registered", both with `users` unchanged. Otherwise exactly one row is added under a fresh id, with the hashed password, role "user" and no refresh token. The response carries no token |
| `PortalServer.Server.Login` | backend/server.js:121-159 | an unknown email and a wrong password both give the same 400 "Invalid credentials" and change nothing. On success the response holds the access token, the refresh token and the row's claim. Only that user's stored refresh token is overwritten |
| `PortalServer.Server.Refresh` | backend/server.js:162-185 | a missing token gives 401. It gives 200 iff the token is an unexpired refresh token equal to the one stored for its id, with a new access token for the same claim. Every other case gives 403 "Invalid refresh token". Nothing is modified |
| `PortalServer.Server.Logout` | backend/server.js:188-197 | a failing gate ends with its status and no change. Otherwise the authenticated user's refresh token becomes null and the response is 200 |
| `PortalServer.Server.ListJobs` | backend/server.js:200-227 | the rows returned are exactly the jobs where each truthy filter matches `LIKE '%' + filter + '%'` on its column; falsy filters add no constraint |
| `PortalServer.Server.GetJob` | backend/server.js:230-243 | the job's row if the id exists, otherwise 404 "Job not found" |
| `PortalServer.Server.Apply` | backend/server.js:246-281 | checks run in this order: the gate, then the schema (400), then the job's existence (404), then an earlier application of the pair (400). Otherwise exactly one row is inserted with `coverLetter` or "". At most one application per pair and no orphan are preserved |
| `PortalServer.Server.CreateJob` | backend/server.js:286-309 | after the admin gate and the schema, one job is inserted under a fresh id, stamped with the current time |
| `PortalServer.Server.UpdateJob` | backend/server.js:312-339 | after the admin gate and the schema, 404 if the job is absent. Otherwise its four fields are replaced and its creation time is kept |
| `PortalServer.Server.DeleteJob` | backend/server.js:342-364 | after the admin gate, 404 when no job is removed. Otherwise the job and exactly the applications with its id are removed, and the other applications stay as they were |
| `PortalServer.Server.Applicants` | backend/server.js:367-395 | after the admin gate, 404 for an absent job. Otherwise the job's applications whose user still exists (an inner join), each with its cover letter, time and the user's email |
| `SessionScenarios.RegisterThenLogin` | backend/server.js:93-159 | registering and then logging in with the same credentials succeeds, with role "user" and the new id |
| `SessionScenarios.ShortPasswordRejected` | backend/server.js:66-98 | registering with a password shorter than 6 characters gets the 400 validation error and creates no account |
| `SessionScenarios.SecondLoginRevokesFirst` | backend/server.js:139-174 | after a second login at another time, the first session's refresh token gets 403 |
| `SessionScenarios.LogoutRevokesRefresh` | backend/server.js:162-197 | logout with the session's access token, then refresh with its refresh token, gives 403 |
| `SessionScenarios.LogoutTwice` | backend/server.js:188-197 | a second logout is again 200 and leaves the table as the first left it |
| `SessionScenarios.ExpiredAccessRenewedByRefresh` | backend/server.js:47-185 | the access token is refused with 403 after 15 minutes. Refresh then gives a new access token, and that token is admitted with the same claim |
| `SessionScenarios.RegisteredUserIsNoAdmin` | backend/server.js:60-113 | an account created through registration is refused with 403 by the admin gate |
| `AuthSlice.AuthSliceState.constructor` | frontend/job-portal/src/features/auth/authSlice.js:56-64 | the initial state: no user or tokens, flags false, no error or success message |
| `AuthSlice.AuthSliceState.Logout` | frontend/job-portal/src/features/auth/authSlice.js:66-73 | user, both tokens, error and registerSuccess become null; isLoading and isRefreshing are unchanged |
| `AuthSlice.AuthSliceState.SetUser` | frontend/job-portal/src/features/auth/authSlice.js:74-83 | user and both tokens are copied from the payload; error and registerSuccess are cleared; the flags are unchanged |
| `AuthSlice.AuthSliceState.LoginUserPending` | frontend/job-portal/src/features/auth/authSlice.js:87-90 | isLoading becomes true and error null; nothing else changes |
| `AuthSlice.AuthSliceState.LoginUserFulfilled` | frontend/job-portal/src/features/auth/authSlice.js:91-99 | isLoading becomes false and user and tokens are installed from the payload; nothing else changes |
| `AuthSlice.AuthSliceState.LoginUserRejected` | frontend/job-portal/src/features/auth/authSlice.js:100-103 | isLoading becomes false and error the payload; nothing else changes |
| `AuthSlice.AuthSliceState.RegisterUserPending` | frontend/job-portal/src/features/auth/authSlice.js:104-108 | isLoading becomes true; error and registerSuccess become null; the session is unchanged |
| `AuthSlice.AuthSliceState.RegisterUserFulfilled` | frontend/job-portal/src/features/auth/authSlice.js:109-113 | registerSuccess is the response message, or "Registration successful" when that is falsy. The user is not logged in: user and tokens are unchanged |
| `AuthSlice.AuthSliceState.RegisterUserRejected` | frontend/job-portal/src/features/auth/authSlice.js:114-118 | isLoading becomes false, error the payload and registerSuccess null; the session is unchanged |
| `AuthSlice.AuthSliceState.RefreshTokenPending` | frontend/job-portal/src/features/auth/authSlice.js:119-122 | isRefreshing becomes true and error null; nothing else changes |
| `AuthSlice.AuthSliceState.RefreshTokenFulfilled` | frontend/job-portal/src/features/auth/authSlice.js:123-127 | only accessToken is replaced and isRefreshing cleared; user and refreshToken are unchanged |
| `AuthSlice.AuthSliceState.RefreshTokenRejected` | frontend/job-portal/src/features/auth/authSlice.js:128-135 | user and both tokens become null, isRefreshing false, error "Session expired, please login again" |
| `AuthSlice.LogoutIdempotent` | frontend/job-portal/src/features/auth/authSlice.js:66-72 | logging out twice gives the state of logging out once |
| `AuthSlice.UserChangesOnlyOnSessionActions` | frontend/job-portal/src/features/auth/authSlice.js:65-136 | only logout, setUser, loginUser.fulfilled and refreshToken.rejected can change the user |
| `AuthSlice.RefreshTokenChangesOnlyOnSessionActions` | frontend/job-portal/src/features/auth/authSlice.js:65-136 | the same four actions are the only ones that can change the stored refresh token |
| `AuthSlice.FlagsBelongToTheirThunks` | frontend/job-portal/src/features/auth/authSlice.js:86-135 | isRefreshing changes only on refreshToken actions; isLoading only on loginUser and registerUser actions |
| `JobsSlice.FetchJobsParams` | frontend/job-portal/src/features/jobs/jobsSlice.jsx:10-13 | the params hold a title, company or location key iff that filter is non-empty, with the value copied unchanged, and no other key |
| `JobsSlice.JobsSliceState.constructor` | frontend/job-portal/src/features/jobs/jobsSlice.jsx:36-43 | the initial state: empty list, no current job, not loading, no errors |
| `JobsSlice.JobsSliceState.ClearCurrentJob` | frontend/job-portal/src/features/jobs/jobsSlice.jsx:45-48 | currentJob and errorDetail become null and everything else is unchanged |
| `JobsSlice.JobsSliceState.FetchJobsPending` | frontend/job-portal/src/features/jobs/jobsSlice.jsx:52-55 | loadingList becomes true and errorList null; the list and the detail fields are unchanged |
| `JobsSlice.JobsSliceState.FetchJobsFulfilled` | frontend/job-portal/src/features/jobs/jobsSlice.jsx:56-59 | list becomes the payload and loadingList false; the detail fields are unchanged |
| `JobsSlice.JobsSliceState.FetchJobsRejected` | frontend/job-portal/src/features/jobs/jobsSlice.jsx:60-63 | errorList becomes the payload and loadingList false; the list and the detail fields are unchanged |
| `JobsSlice.JobsSliceState.FetchJobDetailPending` | frontend/job-portal/src/features/jobs/jobsSlice.jsx:64-67 | loadingDetail becomes true and errorDetail null; the list fields are unchanged |
| `JobsSlice.JobsSliceState.FetchJobDetailFulfilled` | frontend/job-portal/src/features/jobs/jobsSlice.jsx:68-71 | currentJob becomes the payload and loadingDetail false; the list fields are unchanged |
| `JobsSlice.JobsSliceState.FetchJobDetailRejected` | frontend/job-portal/src/features/jobs/jobsSlice.jsx:72-75 | errorDetail becomes the payload and loadingDetail false; the list fields are unchanged |
| `JobsSlice.ListAndDetailAreIndependent` | frontend/job-portal/src/features/jobs/jobsSlice.jsx:52-75 | list actions never touch the detail fields, and the detail actions and clearCurrentJob never touch the list fields |
| `JobsSlice.ListAndDetailActionsCommute` | frontend/job-portal/src/features/jobs/jobsSlice.jsx:45-75 | a list action and a detail action give the same state in either order |
| `JobsSlice.ClearCurrentJobIdempotent` | frontend/job-portal/src/features/jobs/jobsSlice.jsx:45-48 | clearing the current job twice is clearing it once |
| `AdminSlice.AdminSliceState.constructor` | frontend/job-portal/src/features/admin/adminSlice.js:5-8 | the initial state: no jobs, no applications |
| `AdminSlice.AdminSliceState.AddJob` | frontend/job-portal/src/features/admin/adminSlice.js:10-12 | jobs becomes the old list plus the payload at the end; applications is unchanged |
| `AdminSlice.AdminSliceState.SetApplications` | frontend/job-portal/src/features/admin/adminSlice.js:13-15 | applications becomes the payload; jobs is unchanged |
| `AdminSlice.AddJobsAppendInOrder` | frontend/job-portal/src/features/admin/adminSlice.js:10-12 | dispatching addJob for each of a list of jobs appends them in dispatch order and leaves applications alone |
| `AdminSlice.SetApplicationsOverwrites` | frontend/job-portal/src/features/admin/adminSlice.js:13-15 | only the last setApplications payload counts |
| `RouteGuard.RequireAuth` | frontend/job-portal/src/app/App.jsx:12-20 | no user: redirect to /login, whatever the role. A user and a truthy role that differs from the user's: redirect to /jobs. A user with no role required, or the matching role: render the children |
| `RouteGuard.AdminRouteOnlyForAdmins` | frontend/job-portal/src/app/App.jsx:35-42 | the /admin route renders the dashboard iff the user is logged in with role "admin" |
| `RouteGuard.SessionEndRedirectsToLogin` | frontend/job-portal/src/app/App.jsx:12-17 | after logout or a failed token refresh, every guarded route redirects to /login |
| `RouteGuard.LoginOpensOwnRoleRoutes` | frontend/job-portal/src/app/App.jsx:12-19 | after a login with a user, routes needing no role or that user's role render |
| `RouteGuard.GuardStableUnderNonSessionActions` | frontend/job-portal/src/app/App.jsx:12-19 | the register actions, refreshToken pending or fulfilled, and loginUser pending or rejected do not change what the guard decides |

## Left out

- JWT cryptography. Signing, base64 encoding, `iat` and signature bytes are abstracted. A token is its contents, and anything not signed by the server is `Junk`. The model assumes the two signing secrets differ; if they were configured equal, the two token classes would be interchangeable.
- bcrypt internals. The cost factor, the random salt (a parameter here), timing and bcrypt's truncation of passwords to 72 bytes are not modelled. The hash is ideal.
- Joi internals. The email format check is the parameter `isEmail` of the server. Joi's error texts are one `ValidationError` body. String lengths are counted in Dafny characters, not JavaScript UTF-16 code units.
- Database collation. Email lookups and `LIKE` compare characters exactly. A case- and accent-insensitive collation, such as MySQL 8's default `utf8mb4_0900_ai_ci`, would make both the email lookups and `LIKE` match more rows than the model does. Trailing spaces would be ignored only by `=` under a PAD SPACE collation; `LIKE` always counts them.
- PortalServer.Server.ListJobs: does not state the `ORDER BY created_at DESC` order, because the rows are returned as a map keyed by job id.
- Request shapes. Path ids are natural numbers, so MySQL's coercion of non-numeric path text is not modelled. Query filters are absent or strings; repeated query keys (arrays) are not modelled. A falsy non-string `token` in the refresh body is the model's `None`.
- `UPDATE ... affectedRows` is read as the number of matched rows, the mysql2 default. So updating a job with identical values is a 200.
- The database schema is not part of this model: foreign keys, unique constraints and column defaults. Applying does not check that the user row still exists, as in the code.
- PortalServer.Server.Apply: the insert names no `created_at` column, so the stored time comes from the column's default. The model assumes that default is the insertion time and stamps the row with `now`, which `Applicants` then reports. Jobs are stamped explicitly with `NOW()`.
- The connection pool, SQL text, express routing, CORS, `app.listen`, dotenv, console logging, the health-check route `GET /` and every `catch` that answers 500 are I/O or store failures.
- Concurrent requests. Each handler is one atomic step.
- Frontend I/O. The thunks' axios calls (apart from the `fetchJobs` params), their rejection-message fallbacks and all `localStorage` writes and clears are network and browser I/O. A thunk enters the model only through the action it dispatches. Payload types of the jobs and admin slices are type parameters.
- UI components and their form handling, including JobDetail's `onApply` (a fetch that reports success even on HTTP errors), and the store and build wiring, which contain no logic.
