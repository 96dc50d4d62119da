# Notes service: request gating and note quota

A Dafny model of the request-gating and quota logic of a multi-tenant notes
service built on Next.js API routes. Tenants own users and notes. Users log in
with email and password and receive a signed token (a JSON Web Token,
RFC 7519). Every notes request carries that token as a bearer credential
(section 2.1 of RFC 6750). Tenants on the FREE plan may hold at most three
notes.

The model has one module per part of the core:

- `Prelude`: `Option`, `Result` (a value or a thrown message), JavaScript truthiness of an optional string, and a first-match search.
- `Store`: the tenant, user and note tables as one immutable value `Db`. It has the lookups by id and by email (with the tenant joined), the per-tenant note filter and count, note insertion, and the FREE to PRO plan change.
- `Auth` (`lib/auth.ts`): token issue and verification against an optional secret, bearer-token extraction, and resolution of a token to the live user row.
- `Http`: decoded requests, status-coded responses and the JSON views.
- `Middleware` (`lib/middleware.ts`): `WithAuth`, `WithRole` and `WithTenant`. Each takes the request, the JWT configuration, the store and the inner handler as a function value. It either answers the request itself, leaving the store as it was, or returns exactly what the handler returns.
- `Notes` (`pages/api/notes/index.ts`): method dispatch, the tenant-scoped list ordered newest first, and create with validation, the FREE cap and insertion. It also holds the quota invariant, which every request to the route preserves.
- `Login` (`pages/api/auth/login.ts`): the login decision, the claims built from the stored row, and the user view.
- `Scenarios`: requests served in sequence. It covers the cap over any run of requests, the three-then-blocked run followed by an upgrade, and a login token used on a guarded route.

Parameters stand in for the things the model cannot see:

- Signing and verification: `Jwt.sign`, `Jwt.verify` and the optional secret.
- The bcrypt comparison: a `compare` function.
- The id and timestamp the database assigns to a new note: `newId` and `now`.

The model follows the code, including where a stricter design would decide differently:

- The role check reads the token's `role` claim, not the live user row (`Middleware.RoleDecidedByClaim`).
- The list and create use the token's `tenantId`.
- The cap applies only when the tenant row exists and its plan is exactly `"FREE"`. A missing row or any other plan string means no cap.
- Roles and plans are strings, as the code compares them.

## Model

| member | source | states |
|---|---|---|
| Store.FindUserById | lib/auth.ts:57-62 | the user found by id has that id and is stored, with its tenant joined by `tenantId`; none exactly when no stored user has that id |
| Store.FindUserByEmail | pages/api/auth/login.ts:21-26 | the user found by email has that email and is stored, with its tenant joined; none exactly when no stored user has that email |
| Store.TenantById | pages/api/notes/index.ts:64-66 | the tenant found by id is a stored row with that id; none exactly when no stored row has that id |
| Store.OwnedCounts | pages/api/notes/index.ts:31-34 | a tenant's partition holds each note of that tenant exactly as often as the store does, and no note of any other tenant |
| Store.CountBounds | pages/api/notes/index.ts:69-73 | the count of a tenant's notes is at most the number of stored notes, is zero exactly when no stored note is the tenant's, and equals the total exactly when every stored note is the tenant's |
| Store.OwnedAppend | pages/api/notes/index.ts:83-98 | appending a note extends its own tenant's partition by that note and leaves every other partition unchanged |
| Store.CountAppend | pages/api/notes/index.ts:69-73 | the note count of a tenant grows by one when one of its notes is appended and is unchanged otherwise |
| Store.InsertNote | pages/api/notes/index.ts:83-98 | inserting a note changes no tenant or user, and changes only the partition of the note's own tenant |
| Store.UpgradeTenant | test-requirements.js:230-238 | the store update behind the upgrade route (lines 28-33 of its `upgrade.ts`) changes only the plan of the tenant rows with the slug, to PRO, and leaves every other field, every other row, the users and the notes unchanged |
| Store.UpgradeIdempotent | test-requirements.js:230-238 | upgrading an already upgraded tenant changes nothing (the update writes PRO unconditionally) |
| Store.UpgradeLiftsPlan | pages/api/notes/index.ts:64-68 | after the upgrade, the lookup by id finds the same tenant row with its plan set to PRO |
| Http.AuthorOf | pages/api/notes/index.ts:35-41 | the joined author is present exactly when a stored user has the note's user id, and then carries that id and the email of such a user |
| Auth.GenerateToken | lib/auth.ts:25-35 | issuing fails with "JWT_SECRET is not defined" exactly when no non-empty secret is configured; otherwise the token is the signature of the claims under the secret |
| Auth.VerifyToken | lib/auth.ts:37-44 | verification fails without a configured secret; with one it succeeds exactly when the library accepts the token, and yields its claims |
| Auth.IssueThenVerify | lib/auth.ts:25-44 | when the library's verify accepts the token it signed and returns the signed claims, a token issued under a configured secret verifies back to the claims it was issued for; an expired or otherwise rejected token is outside this lemma |
| Auth.GetAuthToken | lib/auth.ts:46-52 | a credential is returned exactly when the header is present and starts with the case-sensitive prefix "Bearer " (space included), and the header is then that prefix followed by the credential. |
| Auth.BearerRoundTrip | lib/auth.ts:51 | the token written after "Bearer " is the token read back |
| Auth.BearerPrefixIsExact | lib/auth.ts:47-49 | an absent header, "bearer " in lower case, and "Bearer" without the space all yield no credential |
| Auth.GetCurrentUser | lib/auth.ts:54-72 | succeeds exactly when the token verifies and a user with the claimed id exists; returns the claims unchanged and exactly the account the lookup by id returns, the user row with its tenant joined; every failure is the one error "Invalid token" |
| Auth.BadTokenLikeMissingUser | lib/auth.ts:64-71 | a rejected token and a token naming a deleted user give the same error |
| Middleware.Authenticate | lib/middleware.ts:9-17 | the request is admitted exactly when a non-empty bearer credential verifies and names a stored user; a missing or empty credential is "No token provided", any other failure "Invalid token" |
| Middleware.WithAuth | lib/middleware.ts:4-20 | a missing credential gives 401 "No token provided" and a failed resolution gives 401 "Invalid token", both with the store unchanged; otherwise the handler's own outcome for exactly the resolved user and claims |
| Middleware.AuthFailureIgnoresHandler | lib/middleware.ts:9-17 | when authentication fails the handler is not invoked: any two handlers give the same 401 outcome, with the store unchanged |
| Middleware.EmptyBearerIsMissing | lib/middleware.ts:10-11 | the header "Bearer " with nothing after it is answered 401 "No token provided" |
| Middleware.WithRole | lib/middleware.ts:22-33 | authentication failures give 401 before any role check; an allowed role claim reaches the handler unchanged; any other claim gives 403 "Insufficient permissions" with the store unchanged |
| Middleware.GuardsOnlyAdmitThroughHandler | lib/middleware.ts:22-33 | behind the role guard, the store changes only when the request is authenticated, its role claim is allowed and the handler ran |
| Middleware.RoleDecidedByClaim | lib/middleware.ts:27 | the role decision uses the token claim: a caller whose claim is allowed reaches the handler even if the stored row's role is not allowed |
| Middleware.WithTenant | lib/middleware.ts:35-46 | authentication failures give 401; a non-empty slug that differs from the claim's tenant slug gives 403 "Access denied to this tenant" with the store unchanged; an absent, empty or matching slug reaches the handler |
| Middleware.TenantMismatchIgnoresHandler | lib/middleware.ts:40-43 | when a non-empty slug differs from the claim's tenant slug the handler is not invoked: any two handlers give the same 403 "Access denied to this tenant", with the store unchanged |
| Notes.SortNewestFirst | pages/api/notes/index.ts:43-45 | the result is ordered by `createdAt` descending and is a permutation of its input |
| Notes.HandleGetNotes | pages/api/notes/index.ts:26-49 | 200 with exactly the caller's tenant's notes, each as often as stored, newest first, each with its author as the user table has it |
| Notes.ListIsolation | pages/api/notes/index.ts:31-34 | a note is listed exactly when it is stored under the caller's tenant |
| Notes.ListIgnoresOtherTenants | pages/api/notes/index.ts:31-34 | a note inserted for another tenant does not change the caller's list |
| Notes.HandleCreateNote | pages/api/notes/index.ts:51-101 | 400 "Title and content are required" exactly when title or content is missing or empty, checked before the cap; 403 NOTE_LIMIT_EXCEEDED exactly when the tenant row is FREE and already has 3 or more notes; otherwise 201 and exactly one new note, with the token's tenant and user, appended; every rejection leaves the store unchanged |
| Notes.AtLimit | pages/api/notes/index.ts:63-81 | a create is capped only when a stored tenant row with the token's tenant id is on FREE and the tenant already holds 3 or more notes; a missing row, a plan other than FREE, or fewer than 3 notes is never capped |
| Notes.AtLimitMeansFull | pages/api/notes/index.ts:68-80 | while every FREE tenant is within its cap, a capped tenant holds exactly 3 notes |
| Notes.Dispatch | pages/api/notes/index.ts:5-24 | GET lists, POST creates, and any other method gives 405 with the store unchanged |
| Notes.Api | pages/api/notes/index.ts:103 | the guarded route never changes users or tenants; a failed authentication gives 401 with the store unchanged; an authenticated request gets exactly the route handler's outcome for the token's claims; any store change is an authenticated POST answered 201 that appends one note of the caller's tenant |
| Notes.ApiListsForCaller | pages/api/notes/index.ts:12-14 | an authenticated GET through the route answers the caller's tenant's list and leaves the store unchanged |
| Notes.ApiPreservesQuota | pages/api/notes/index.ts:68-80 | if every FREE tenant holds at most 3 notes before a request, it does after |
| Login.Claims | pages/api/auth/login.ts:39-45 | the token claims are the stored user's id, email, role and tenant id, and the slug of the user's tenant |
| Login.ViewOf | pages/api/auth/login.ts:47-60 | the login's user object carries the row's id, email and role and its tenant's id, name, slug and plan |
| Login.ViewHidesPassword | pages/api/auth/login.ts:47-60 | two rows that differ only in their password hash give the same user object, so the hash never reaches the response |
| Login.LoginHandler | pages/api/auth/login.ts:5-64 | non-POST gives 405; a missing or empty field gives 400 before any lookup; 401 "Invalid credentials" exactly for an unknown email or a wrong password; 500 exactly when the credentials check out but the user's tenant row is missing or no secret is configured; on 200 the token signs the stored row's claims and the view copies the stored user and tenant fields, with no password |
| Login.LoginFailuresIndistinguishable | pages/api/auth/login.ts:28-36 | an unknown email and a wrong password give the identical response |
| Login.NoSecretNoLogin | pages/api/auth/login.ts:39-64 | without a configured signing secret no login succeeds, and a request that passes the field, user and password checks is answered 500 "Internal server error" |
| Scenarios.QuotaHoldsAcrossRequests | pages/api/notes/index.ts:68-80 | the FREE cap holds after any sequence of requests to the notes route |
| Scenarios.AuthenticateIgnoresNotes | lib/auth.ts:54-72 | authentication reads no notes: stores with the same users and tenants admit the same requests with the same claims |
| Scenarios.AuthenticateIgnoresPlans | lib/auth.ts:54-72 | a request is admitted after a plan upgrade exactly when it was admitted before, with the same user row and claims, and a refused request is refused with the same message |
| Scenarios.AuthenticateReadsHeaderOnly | lib/middleware.ts:9-17 | two requests with the same Authorization header are authenticated identically, whatever their method, body or slug |
| Scenarios.CreateStep | pages/api/notes/index.ts:64-100 | an authenticated, well-formed create is refused with the store unchanged at the cap, and otherwise succeeds and raises the tenant's count by one |
| Scenarios.CapRun | test-requirements.js:200-227 | for any run of well-formed creates under one admitted credential of a FREE tenant holding some notes, each create is answered 201 while the tenant is below 3 notes and 403 from then on, and the count ends at the smaller of 3 and the starting count plus the run's length (or at the starting count, if that is already 3 or more) |
| Scenarios.FreePlanAllowsThree | test-requirements.js:200-227 | from zero notes on FREE, four well-formed creates under one admitted credential, each with its own title and content, answer 201, 201, 201, 403 and leave three notes |
| Scenarios.UpgradeLiftsCap | test-requirements.js:237-251 | after the caller's tenant is upgraded, the same create succeeds whatever the count, and keeps every earlier note |
| Scenarios.LoginThenAuthenticate | pages/api/auth/login.ts:39-45 | when the library's verify accepts the non-empty token that login signed and returns the signed claims, that token, sent as a bearer credential, is admitted with exactly the issued claims and a user row with the logged-in user's id, and, when user ids are unique, with exactly the logged-in user's row and tenant |

## Left out

- JWT signing, verification and expiry (the `jsonwebtoken` library): `sign` and `verify` are abstract function parameters, so the expiry setting `JWT_EXPIRES_IN` has no effect in the model.
- bcrypt hashing and comparison: `compare` is an abstract parameter. `hashPassword` is not part of this model.
- The database engine: the store is an immutable value, and its operations always succeed. Foreign-key violations, outages and timeouts are not modelled, so the notes handler's 500 branch never occurs in the model.
- Unique keys (user id, user email, tenant id) are not assumed. Lookups return the first matching row.
- Store-assigned values: the new note's id and `createdAt`/`updatedAt` are the parameters `newId` and `now`. Notes with equal `createdAt` are listed in one fixed order, although the database leaves their order open.
- The count-then-insert race between concurrent creates: requests are served one at a time.
- The un-awaited `return handler(...)` inside `withAuth`'s try block: a handler cannot throw in the model, so whether `withAuth` would catch its errors does not arise.
- Request shapes: body fields are strings or absent; non-string JSON values and repeated `slug` query parameters are not modelled.
- The upgrade route's own guard and responses (`pages/api/tenants/[slug]/upgrade.ts`): only its store update is modelled, as `Store.UpgradeTenant`.
- The `pages/api/notes/[id].ts` routes, the dashboard UI and its client-side `canCreateNote` mirror of the cap, the seed script and the network test drivers are not part of this model.
- A request without a JSON body: destructuring an undefined body throws, which the model does not represent. The body is always a map of string fields.
- Logging (`console.error`) is left out.
