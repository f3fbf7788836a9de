# Token lifecycle of the brand / platform / machine-auth demo

This project models, in Dafny, the decision logic of a three-party
authentication demo. There are three parties, plus a mock resource server:

- **Brand application.** It mints short-lived user-to-platform tokens and
  keeps an in-memory revocation map whose entries carry a deadline.
- **Trading platform.** It validates those tokens and exchanges them for a
  24-hour platform session. It also guards its routes with session,
  permission, brand and CSRF checks.
- **Machine-auth service.** It runs an OAuth client-credentials grant, with
  introspection and revocation, over a client directory with hashed secrets.
  It has two sets of request guards.
- **Mock resource server.** It protects three routes with machine tokens.

Everything outside the decision logic becomes a parameter:

- **Signatures.** `Jwt.Signer` holds `jwt.sign`, `jwt.verify` and
  `jwt.decode` as functions. `Jwt.RoundTrips` says when signing a claim set
  and reading it back gives that claim set.
- **Hashes.** SHA-256 and HMAC are functions. They are assumed injective
  only in the lemmas that need it.
- **Clock.** The clock is one `nowMs` reading per call.
- **Random values.** UUIDs, nonces and secrets are parameters.
- **Supabase.** The tables are maps. Each database call that can fail has a
  `bool` parameter saying whether it fails. This includes the two
  `client_scopes` deletes whose errors the source ignores: a failing one
  keeps the rows it was meant to remove.

Every operation is a pure function returning its reply together with the new
state. The revocation maps, the platform's revoked set, the issuance ledger
and the directory are all separate values. A request field that the source
only tests for truthiness is a `string`, with `""` standing for absent.

Modules, one per source file plus shared helpers:

- `Wrappers`, `Js` (split/join/filter/prefix semantics), `Http`, `Jwt`
- `BrandTokenService`, `BrandPlatformRoutes`
- `PlatformMiddleware`, `PlatformAuthRoutes`
- `ClientService`, `M2MTokenService`, `M2MAuthRoutes`
- `M2MMiddleware`, `AdminMiddleware`
- `ProtectedApi`

Four places where the code does less than a reader would expect; the model
follows the code:

- **Verifying machine tokens.** A machine token whose issuance record
  could not be stored might be expected to stay verifiable from its
  signature alone. The code looks the record up with `.single()`, which
  fails when there is no row. So `M2MTokenService.VerifyToken` rejects such
  a token (`M2MTokenService.UnrecordedTokenNeverVerifies`).
- **Logout.** Logout might be expected to always revoke the originating
  token. The code revokes only when the session has a `tokenId`
  (`PlatformAuthRoutes.LogoutWithoutTokenIdRevokesNothing`).
- **Admin access for machine tokens.** `requireAdmin` has a branch that
  lets in machine tokens carrying the `admin` scope. But the code sends
  every `Bearer eyJ…` header to the identity provider first. Every token
  the grant signs is an RS256 JWT, whose encoded header starts with `eyJ`,
  so a minted token never reaches the admin-scope branch
  (`M2MMiddleware.MintedTokenTakesUserPath`).
- **Platform signature failures.** A failed token verification might be
  expected to be a client error. On the platform, a signature or audience
  failure answers 500 (`PlatformAuthRoutes.Validate`).

## Model

| member | source | states |
|---|---|---|
| Js.Split | platform-app/src/routes/auth.js:24 | `split` on one character: at least one piece, and no piece holds the separator |
| Js.JoinSplit | m2m-auth/src/middleware/auth.js:33 | joining the pieces of a split gives back the original string |
| Js.SplitJoin | m2m-auth/src/services/token-service.js:93 | splitting a join of separator-free pieces gives back exactly those pieces |
| Js.SplitAppend | m2m-auth/src/services/token-service.js:53 | splitting `a`, a separator and `b` gives the pieces of `a` followed by the pieces of `b` |
| Js.NonEmpty | m2m-auth/src/services/token-service.js:53 | `filter(Boolean)` keeps exactly the non-empty strings, never adds any, and returns a list without empty strings unchanged |
| Js.NonEmptyAppend | m2m-auth/src/services/token-service.js:53 | filtering a concatenation filters each part and keeps the parts in order, so order and repeats survive |
| Js.IncludesAll | platform-app/src/middleware/auth.js:59-61 | `every(includes)` holds iff every required element is present |
| Js.SchemeCredential | m2m-auth/src/middleware/auth.js:23 | `header.split(' ')[1]` after a one-word scheme is space-free and is the first piece of the rest |
| Js.SchemeCredentialOf | m2m-auth/src/routes/auth.js:35 | the credential of `<scheme> <credential>` is `credential` when it holds no space |
| BrandTokenService.PlatformAccessClaims | brand-app/src/auth/token-service.js:63-85 | claims take `sub`, brand, platform and permissions unchanged; audience is fixed; `iat` is the floored second; `exp` is `iat + expiresIn`, with 900 when `expiresIn` is 0; the user's wallet wins over the option |
| BrandTokenService.GeneratePlatformAccessToken | brand-app/src/auth/token-service.js:55-95 | the returned token is the signature of the claim set, and the returned id and expiry are that claim set's `jti` and `exp` |
| BrandTokenService.IssueThenVerify | brand-app/src/auth/token-service.js:55-125 | a freshly minted, unrevoked, unexpired token verifies to exactly its claims, whose `jti`/`exp` are the returned `token_id`/`expires_at` |
| BrandTokenService.VerifyPlatformAccessToken | brand-app/src/auth/token-service.js:102-125 | success iff the library accepts, the `jti` is not revoked and `exp >= now`; revoked is reported before expired; every error is prefixed "Invalid token: " |
| BrandTokenService.CleanupRevokedTokens | brand-app/src/auth/token-service.js:158-167 | the sweep removes exactly the entries with deadline before now and keeps every other deadline |
| BrandTokenService.Unexpired | brand-app/src/auth/token-service.js:160-166 | an entry survives iff its deadline is not before now, with its deadline unchanged |
| BrandTokenService.RevokeToken | brand-app/src/auth/token-service.js:132-143 | an empty id fails; otherwise the id gets deadline `now + expiry*1000` (and is swept at once when that is in the past), and other entries survive iff unexpired, with their deadlines |
| BrandTokenService.RevokeKeepsNoEmptyKey | brand-app/src/auth/token-service.js:133-135 | revocation never introduces an entry for the empty id |
| BrandTokenService.RevokeAgainOnlyMovesDeadline | brand-app/src/auth/token-service.js:139-142 | revoking an id twice keeps the same entries and only overwrites its deadline |
| BrandTokenService.NegativeExpiryIsSweptAtOnce | brand-app/src/auth/token-service.js:139-142 | a negative expiry hint is swept by the same call, so the id is not revoked |
| BrandTokenService.RevokeThenVerifyFails | brand-app/src/auth/token-service.js:110-112 | after revocation with a non-negative hint, verification fails as revoked |
| BrandTokenService.RevokedUntilDeadline | brand-app/src/auth/token-service.js:132-167 | `isTokenRevoked` holds after any later sweep exactly while the revocation deadline has not passed |
| BrandPlatformRoutes.AccessTokenClaims | brand-app/src/routes/platform.js:42-61 | permissions are `[scope]` or the two defaults; expiry defaults to 900; the fallback wallet is used only when the user has none |
| BrandPlatformRoutes.AccessTokenRoute | brand-app/src/routes/platform.js:26-73 | no platform id gives 400; otherwise the reply carries the minted token's own id and expiry |
| BrandPlatformRoutes.AccessClaims | brand-app/src/routes/platform.js:95-101 | the page route always uses the default permissions and the default expiry |
| BrandPlatformRoutes.AccessRoute | brand-app/src/routes/platform.js:80-110 | the cookie carries the signed default-permission token and lives 15 minutes, exactly the token's own lifetime |
| BrandPlatformRoutes.RevokeTokenRoute | brand-app/src/routes/platform.js:177-218 | neither field gives 400 with the map unchanged; a token id wins and the new map is exactly `revokeToken` with a day's hint; a raw token is undecodable (400), already expired (200, map unchanged), without `jti` (500) or revoked for its remaining seconds, the new map being exactly `revokeToken`'s |
| BrandPlatformRoutes.RevokeByTokenCoversLifetime | brand-app/src/routes/platform.js:189-201 | revoking by raw token sets a deadline within the last second of the token's life |
| BrandPlatformRoutes.VerifyTokenRoute | brand-app/src/routes/platform.js:225-253 | a missing token gives 400; otherwise 200 with `valid` iff verification succeeds, plus the claims or the error |
| BrandPlatformRoutes.RevokeRouteThenVerifyRoute | brand-app/src/routes/platform.js:185-208 | after revoking a token's id through the route, the verify route calls it invalid |
| PlatformMiddleware.RequirePlatformSession | platform-app/src/middleware/auth.js:8-42 | three distinct 401s (no cookie, unparsable, incomplete); otherwise the parsed session unchanged |
| PlatformMiddleware.RequirePermissions | platform-app/src/middleware/auth.js:49-74 | no session gives 401; passes iff every required permission is held, else 403 |
| PlatformMiddleware.NoRequiredPermissionsPass | platform-app/src/middleware/auth.js:59-61 | an empty requirement lets any session through |
| PlatformMiddleware.RequireBrand | platform-app/src/middleware/auth.js:80-101 | no session gives 401; passes iff the brand is a whitelist element, else 403 |
| PlatformMiddleware.CsrfSecret | platform-app/src/middleware/auth.js:109 | the HMAC key is the configured secret, else the built-in default, never empty |
| PlatformMiddleware.UnsetCsrfSecretIsPublic | platform-app/src/middleware/auth.js:108-113 | with `CSRF_SECRET` unset, a session's token is the hash of its two ids under the public default key |
| PlatformMiddleware.GenerateCsrfToken | platform-app/src/middleware/auth.js:108-113 | under a keyed hash injective in the message, the token is the hash of exactly one message: the session id followed by the user id |
| PlatformMiddleware.CsrfDependsOnConcatenation | platform-app/src/middleware/auth.js:108-113 | the CSRF token depends on the session and user ids only through their concatenation |
| PlatformMiddleware.CsrfSeparatesSessions | platform-app/src/middleware/auth.js:108-113 | under an injective keyed hash, two sessions of one user get different tokens |
| PlatformMiddleware.CsrfBoundaryCollision | platform-app/src/middleware/auth.js:111 | without a separator, (session "ab", user "c") and (session "a", user "bc") share a token |
| PlatformMiddleware.VerifyCsrf | platform-app/src/middleware/auth.js:118-144 | GET/HEAD/OPTIONS pass; otherwise no session gives 401, and passes iff the header token (else the body token) is non-empty and equals the session's token, else 403 |
| PlatformMiddleware.CsrfRoundTrip | platform-app/src/middleware/auth.js:121-136 | the issued token is accepted in the header or the body; a wrong header beats a right body token |
| PlatformAuthRoutes.RequestToken | platform-app/src/routes/auth.js:40-54 | the Bearer header wins, then the query, then a POSTed body token |
| PlatformAuthRoutes.WhitelistExactMatch | platform-app/src/routes/auth.js:24 | a brand passes the comma-split whitelist iff it is exactly one of the listed names |
| PlatformAuthRoutes.UnsetWhitelistAdmitsOnlyEmptyBrand | platform-app/src/routes/auth.js:24 | with the variable unset, only the empty brand id is whitelisted |
| PlatformAuthRoutes.SessionFromClaims | platform-app/src/routes/auth.js:109-125 | the session copies subject, brand, platform, permissions, wallet and `jti` from the claims, with the fresh session id and the creation second |
| PlatformAuthRoutes.Validate | platform-app/src/routes/auth.js:34-158 | no token gives 400; a library failure gives 500; then revoked 401, brand 403, expired 401, permission 403 in that order; otherwise a session with a 24-hour cookie |
| PlatformAuthRoutes.EstablishedSessionPassesGuards | platform-app/src/routes/auth.js:109-134 | an established session passes the cookie, `trading` permission and brand guards |
| PlatformAuthRoutes.Logout | platform-app/src/routes/auth.js:195-212 | the session's token id, if any, joins the revoked set; nothing else changes |
| PlatformAuthRoutes.LogoutThenValidateRefused | platform-app/src/routes/auth.js:200-202 | after logout, the originating token is refused as revoked |
| PlatformAuthRoutes.LogoutWithoutTokenIdRevokesNothing | platform-app/src/routes/auth.js:200-202 | a token without `jti` can establish a new session after logout |
| PlatformAuthRoutes.SessionRoute | platform-app/src/routes/auth.js:218-239 | the reported age is the current second minus the creation second |
| PlatformAuthRoutes.FreshSessionHasAgeZero | platform-app/src/routes/auth.js:233 | a session read in the second it was created is zero seconds old |
| PlatformAuthRoutes.DashboardRoute | platform-app/src/routes/auth.js:164-189 | the dashboard's CSRF token is accepted on a POST of that session |
| ClientService.CreateClient | m2m-auth/src/services/client-service.js:24-85 | the stored record carries the supplied name, description and contact email, the service type or "application", and only the hash of the secret; existing records are untouched; the reply holds the plaintext secret and the requested scopes even if storing the scopes failed |
| ClientService.GetClientById | m2m-auth/src/services/client-service.js:92-121 | found iff the record exists; the reply carries the shareable columns, never the digest |
| ClientService.CreateThenGet | m2m-auth/src/services/client-service.js:24-121 | a client created with a fresh id is found with the columns it was created with and its scope rows |
| ClientService.ValidateClientCredentials | m2m-auth/src/services/client-service.js:129-171 | success iff the client exists and the hash matches; every failure is the same "Invalid client credentials" |
| ClientService.CreateThenValidate | m2m-auth/src/services/client-service.js:29-150 | a created client validates with its secret and carries its scopes |
| ClientService.CreatedSecretIsTheOnlySecret | m2m-auth/src/services/client-service.js:143-150 | under an injective hash, no other secret validates |
| ClientService.UpdateClientAsWritten | m2m-auth/src/services/client-service.js:196-247 | the update as written: succeeds iff the write goes through, the record exists and a new `id` from the body clashes with no other row; the row then sits under that key |
| ClientService.UpdateAsWrittenLocksClientOut | m2m-auth/src/services/client-service.js:203-205 | an update carrying `hashed_secret: ""` makes every secret fail validation under the row's key after the update |
| ClientService.UpdateClient | m2m-auth/src/services/client-service.js:196-247 | a body `id` re-keys the row (a clash with another row is an error), and without one the keys are unchanged; the digest is never changed; each supplied field (name, description, contact email, service type) replaces the stored one and each absent one is kept; an array of scopes replaces the rows, which end up empty if the insert fails and keep the old rows in front if the delete fails; other clients are untouched |
| ClientService.UpdatedScopes | m2m-auth/src/services/client-service.js:220-244 | without an array the rows are kept; with one, the old rows survive only a failed delete and the new ones are added only by a successful insert |
| ClientService.UpdateKeepsCredentials | m2m-auth/src/services/client-service.js:203-205 | a secret validates under the row's key after an update iff it validated under the old id before |
| ClientService.UpdateWithIdRekeysClient | m2m-auth/src/services/client-service.js:197-212 | a body carrying a new, unused `id` moves the client: the old id stops authenticating, and the new key gets no scope rows of its own, since the scope statements use the old id |
| ClientService.ResetClientSecret | m2m-auth/src/services/client-service.js:254-283 | the stored digest becomes the hash of the new secret, which is returned |
| ClientService.ResetThenValidate | m2m-auth/src/services/client-service.js:256-282 | the returned secret validates; under an injective hash no other secret does |
| ClientService.DeleteClient | m2m-auth/src/services/client-service.js:290-310 | the scope rows are gone unless their delete fails, even when the record delete fails; success removes exactly the record; other clients' scopes are untouched |
| ClientService.DeleteThenValidateFails | m2m-auth/src/services/client-service.js:291-309 | a deleted client no longer authenticates |
| M2MTokenService.RequestedScopes | m2m-auth/src/services/token-service.js:53 | every requested scope is a non-empty, space-free word |
| M2MTokenService.RequestedScopesAppend | m2m-auth/src/services/token-service.js:53 | words separated by a space are requested in order, the words of the left part first; runs of spaces add nothing |
| M2MTokenService.RequestedScopesOfJoin | m2m-auth/src/services/token-service.js:53 | a space-joined list of non-empty, space-free words is requested as exactly that list |
| M2MTokenService.GrantedScopes | m2m-auth/src/services/token-service.js:66-69 | a scope is granted iff it is both requested and allowed, in request order; nothing is added; a request whose scopes are all allowed is granted unchanged |
| M2MTokenService.GrantedScopesAppend | m2m-auth/src/services/token-service.js:66-69 | granting a concatenated request grants each part in order, so a repeated allowed scope is granted as often as it is requested |
| M2MTokenService.MachineTokenClaims | m2m-auth/src/services/token-service.js:82-98 | fixed issuer and audience; subject and client id are the client's id; scope is the granted list joined by spaces; `exp = iat + 3600` |
| M2MTokenService.GenerateClientCredentialsToken | m2m-auth/src/services/token-service.js:51-126 | a scope-lookup error or an empty grant fails before signing, with the ledger unchanged; otherwise a Bearer token for 3600 s, with the record stored unless the insert fails |
| M2MTokenService.GrantedScopeRoundTrip | m2m-auth/src/services/token-service.js:93 | the issued scope string splits back into exactly the granted list |
| M2MTokenService.GrantDropsUnallowed | m2m-auth/src/services/token-service.js:66-69 | of two requested scopes, only the allowed one is granted |
| M2MTokenService.SingleScopeGrant | m2m-auth/src/services/token-service.js:53-73 | requesting one allowed single-word scope grants exactly it, and the grant succeeds |
| M2MTokenService.SupersetRequestScenario | m2m-auth/src/services/token-service.js:66-69 | "api:read api:admin" against allowed {api:read, api:write} grants "api:read" |
| M2MTokenService.VerifyToken | m2m-auth/src/services/token-service.js:133-160 | success iff the library accepts and the issuance record is readable, present and not revoked; every error is prefixed "Invalid token: " |
| M2MTokenService.VerifyIgnoresMemory | m2m-auth/src/services/token-service.js:133-160 | verification does not depend on the in-memory revocation map |
| M2MTokenService.RevokeToken | m2m-auth/src/services/token-service.js:166-183 | an empty id or a store error fails with nothing changed; otherwise the record is marked revoked and the id joins the in-memory map |
| M2MTokenService.IssueThenVerify | m2m-auth/src/services/token-service.js:104-152 | a token minted with its record stored verifies to exactly its claims |
| M2MTokenService.UnrecordedTokenNeverVerifies | m2m-auth/src/services/token-service.js:115-149 | a token whose record failed to store is handed out but never verifies |
| M2MTokenService.RevokeThenVerifyFails | m2m-auth/src/services/token-service.js:151-153 | after revocation, verification fails as revoked |
| M2MTokenService.RevokeIdempotent | m2m-auth/src/services/token-service.js:172-182 | revoking twice leaves the same records as revoking once |
| M2MTokenService.MemoryRevocationPersists | m2m-auth/src/services/token-service.js:182-191 | once `isTokenRevokedInMemory` holds for an id, later revocations and grants keep it true |
| M2MAuthRoutes.ParseBasic | m2m-auth/src/routes/auth.js:37 | the id and secret are the first two colon-free pieces; a string without a colon has no secret |
| M2MAuthRoutes.BasicRoundTrip | m2m-auth/src/routes/auth.js:33-37 | a Basic header for a colon-free id and secret yields exactly that id and secret |
| M2MAuthRoutes.BasicSecretStopsAtColon | m2m-auth/src/routes/auth.js:37 | a secret containing ':' is cut at its first colon |
| M2MAuthRoutes.Authenticate | m2m-auth/src/routes/auth.js:107-113 | success iff a secret is present and validates; a missing secret for an existing client is not the credential error |
| M2MAuthRoutes.Caught | m2m-auth/src/routes/auth.js:226-240 | the credential error maps to 401 `invalid_client`, anything else to 500 `server_error` |
| M2MAuthRoutes.TokenRoute | m2m-auth/src/routes/auth.js:12-84 | the wrong grant type gives 400 first; missing credentials 401; bad credentials 401; no valid scope 400 `invalid_scope`; 200 iff valid credentials and a non-empty grant over the requested scope (or all the client's scopes) |
| M2MAuthRoutes.IntrospectRoute | m2m-auth/src/routes/auth.js:90-158 | a missing token gives 400; non-Basic auth 401; a verified token is active with its claims; any verification failure is 200 `{active: false}` |
| M2MAuthRoutes.RevokeRoute | m2m-auth/src/routes/auth.js:164-241 | a missing token gives 400; missing body credentials 401; a failed authentication is answered by the catch block; an undecodable token or one without `jti` gives an empty 200 with nothing changed; another client's token 403 `access_denied`; the owner's token is revoked with an empty 200, or 500 if the store fails; state changes only by that revocation |
| M2MAuthRoutes.TokenThenIntrospect | m2m-auth/src/routes/auth.js:58-136 | a token from the grant introspects active with the client, scope and id it was issued with |
| M2MAuthRoutes.RevokeThenIntrospect | m2m-auth/src/routes/auth.js:204-225 | after an authenticated client asks to revoke its own decodable token, introspection reports `{active: false}` |
| M2MMiddleware.TokenScopes | m2m-auth/src/middleware/auth.js:33 | an absent or empty scope gives `[]`; otherwise the pieces join back to the scope string |
| M2MMiddleware.RequireClientToken | m2m-auth/src/middleware/auth.js:14-46 | a non-Bearer header gives 401; verification failure gives 401 "Invalid or expired token"; success attaches the client |
| M2MMiddleware.RequireScope | m2m-auth/src/middleware/auth.js:52-75 | passes iff a client is attached and holds the scope; none gives 401, a missing scope 403 `insufficient_scope` |
| M2MMiddleware.RequireAdmin | m2m-auth/src/middleware/auth.js:81-142 | a `Bearer eyJ` header is looked up with the identity provider and needs the admin role; any other Bearer token must verify and carry the `admin` scope; else 403, and a failed lookup or verification 401 |
| M2MMiddleware.RequireAuth | m2m-auth/src/middleware/auth.js:148-198 | a `Bearer eyJ` header passes iff the identity provider knows the user; any other Bearer token gets exactly `requireClientToken`'s outcome |
| M2MMiddleware.UserTokensBypassMachineVerification | m2m-auth/src/middleware/auth.js:91 | a `Bearer eyJ` header gets the same outcome whatever the signer and issuance records |
| M2MMiddleware.GrantedScopesReadBack | m2m-auth/src/middleware/auth.js:185 | a guard reads exactly the granted scope list off a minted token |
| M2MMiddleware.MintedTokenPassesScopeGuard | m2m-auth/src/middleware/auth.js:56-69 | a minted, recorded token passes `requireScope(s)` iff `s` was granted |
| M2MMiddleware.MintedTokenTakesUserPath | m2m-auth/src/middleware/auth.js:81-198 | a minted token that passes `requireClientToken` but starts with `eyJ`, as an RS256 token does (token-service.js line 101), gets 401 from `requireAdmin` and `requireAuth` when the identity provider does not know it |
| AdminMiddleware.AdminToken | m2m-auth/src/config/index.js:12 | the admin token is the configured one, else "dev-admin-token" |
| AdminMiddleware.VerifyAdminToken | m2m-auth/src/auth/middleware.js:36-50 | accepts iff the token equals the admin token, returning the fixed admin identity |
| AdminMiddleware.AdminAuth | m2m-auth/src/auth/middleware.js:7-30 | continues iff a Bearer header carries the admin token; every refusal is 401 |
| AdminMiddleware.AdminTokenAdmitted | m2m-auth/src/auth/middleware.js:15-25 | the configured token sent as a Bearer header is let through |
| AdminMiddleware.UnsetAdminTokenAdmitsDefault | m2m-auth/src/config/index.js:12 | with no configured token, "dev-admin-token" opens the admin routes |
| AdminMiddleware.ScopeAuth | m2m-auth/src/auth/middleware.js:55-93 | passes iff the token verifies and the required list is empty or all in its scope; insufficient scope 403; everything else 401; the claims are attached unchanged |
| AdminMiddleware.ScopeGuardsAgree | m2m-auth/src/auth/middleware.js:71-81 | for one scope and a non-empty scope claim, `scopeAuth([s])` passes iff `requireClientToken` then `requireScope(s)` does |
| AdminMiddleware.ScopelessTokenGuardsDisagree | m2m-auth/src/auth/middleware.js:72 | on a verified token without a scope claim, `scopeAuth` answers 401 and `requireScope` 403 |
| ProtectedApi.RouteScope | mock-services/src/m2m-protected-api.js:159-191 | each protected route demands a non-empty scope |
| ProtectedApi.RouteScopesDistinct | mock-services/src/m2m-protected-api.js:159-191 | the three routes demand three different scopes |
| ProtectedApi.RouteScopeIsOneWord | mock-services/src/m2m-protected-api.js:159-191 | every route scope is a single word, so a grant for it is that one scope |
| ProtectedApi.Classify | mock-services/src/m2m-protected-api.js:134-151 | expiry and signature errors are named; every failure is 401 `invalid_token` |
| ProtectedApi.AuthenticateM2M | mock-services/src/m2m-protected-api.js:57-154 | a non-Bearer header gives 401; a missing key 500; passes iff the token reads, the issuer matches and the scope is held; wrong issuer is 403 before scope |
| ProtectedApi.RevokedTokenStillPasses | mock-services/src/m2m-protected-api.js:95-129 | a revoked machine token fails the service's verification but still passes the resource server's guard |

## Left out

- Signing, hashing, HMAC, UUIDs and random bytes are parameters. Key loading is left out, and so is the alternate key-path search, which is only reflected as `ProtectedApi.Config.publicKeyLoaded`.
- HTTP rendering is left out: HTML pages, redirects, cookie attributes other than max-age, CORS and logging.
- `listClients` is left out. It is a plain read of the table with no decision in it.
- Timestamps (`created_at`, `updated_at`) and ISO date formatting of `expires_at` are left out. The ledger stores seconds.
- The `scopes` column of an `issued_tokens` insert is stored as a list. Its storage format is not modelled.
- Supabase `getUser` is the parameter `users` in `M2MMiddleware`. It is reduced to an id and an optional `app_metadata.role`.
- `jwt.decode` of a payload that is not an object, and `exp` values that are not numbers, are left out. Claims are always well-typed records.
- The brand application's `decodeToken` helper is not modelled separately. Decoding is `Jwt.Signer.decode`.
- Unexpected exceptions are not modelled, beyond the ones named in the contracts: the `TypeError` for a missing Basic secret, the scopeless `scopeAuth` token and the undecodable token on the resource server.
- The identity-provider passthrough routes, the client and service-catalog HTTP routes, the mock KYC and wallet endpoints, the example client and the app bootstrapping are not part of this model.
- BrandTokenService.VerifyPlatformAccessToken: the library's own `exp` and audience checks live inside the `verify` parameter, so only the service's own `exp < now` test is modelled explicitly.
- M2MMiddleware.RequireAdmin: the identity-provider user is reduced to its role, so the attached `req.user` carries only the id and role.
- M2MTokenService.RequestedScopes: its own contract states only the shape of the words; the order and repeats of the request are stated by `RequestedScopesAppend` and `RequestedScopesOfJoin`.
- ClientService.UpdateClient: the whole update body is written to the `clients` row, but only seven of its keys are modelled: `id`, `name`, `description`, `contact_email`, `service_type`, `hashed_secret` and `scopes`. A body carrying any other column (`created_at`, `updated_at`, …) would have the source write that column too; this is not modelled, and neither are the timestamp columns themselves. Whether the table accepts a key it has no column for, such as `scopes`, depends on a database schema that is not part of this model, so the row write's outcome is the free `writeFails` flag and the scope branch is taken as reachable. A re-keyed row is not followed by its `client_scopes` rows, because no foreign-key cascade is visible in the source.
- PlatformAuthRoutes.UnsetWhitelistAdmitsOnlyEmptyBrand: a token without `brand_id` is modelled with brand id `""`, which an unset whitelist admits; in JavaScript `[""].includes(undefined)` is false, so the source refuses it. Only tokens minted outside the brand application can lack the claim, since it always sets its own brand id.
- ProtectedApi.AuthenticateM2M: `requiredScope` is a string, with `""` standing for a guard built without a scope. Only the three routes above use the guard, each with a scope.

## Findings

| source | as written | input that shows it | evidently intended | confidence | as-written member | corrected member |
|---|---|---|---|---|---|---|
| m2m-auth/src/services/client-service.js:203-205 | `hashed_secret` is deleted from the update only when it is truthy | `updateClient(id, {hashed_secret: ""})` writes `""` over the stored digest, and no secret ever validates again | an update never touches the stored secret, whatever it carries | high, not executed | ClientService.UpdateAsWrittenLocksClientOut | ClientService.UpdateKeepsCredentials |
