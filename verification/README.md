# A model of the NestJS user service

This project models the stateful parts of the multi-tenant user service and proves what they do over
whole runs. `dafny verify dfyconfig.toml` checks all of it.

**Tokens and sessions.** `Sessions` is one state machine over the cache, the refresh rows of the root
and tenant databases, the users and the signed access tokens. Every handler is one atomic step: its
checks (`Decide`) settle on a plan, and `Apply` says what the plan does to the stores; what a SCAN finds
and what a lookup hits is decided on key strings, whatever codes and tokens requests bring. `AuthServices`
holds the handlers as they run, step by step over tables and over a cache of key strings; each one's
contract says that its result and its new state are those of the machine's step. `TokenCache` is the
cache service with its SCAN loops, and `Represents` ties its string store to the structured entries the
machine uses. `Names` says which runs are orderly, that is, revoke what they mean to.

The theorems about runs say, for every handler, what a request is answered, in terms of the log of
what happened before and never of the machine's own checks: `Accounts` for the logins and the second
factor, `SessionTheorems` for access tokens, `RefreshAgreement` for refreshes (over `RefreshTracking`,
which follows a refresh token's row and cache entries through a run), `Rotation` for rotations.
`TtlNecessity`, `RefreshRows` and `VerifiedUsers` hold what is kept besides, and `Witnesses` concrete runs
for what fails.

**Tenant clients.** `TenantService` is the connection cache as a class with its two maps, proved to
refine the recency list of `TenantClients`. `TenantProtocol` is the same service with any number of
calls in flight, split at each `await`, interleaved with cleanup, URL expiry and `Onboarding`.

**Onboarding, password reset and chat** are `Onboarding`, `PasswordReset` and `Chat`, each a machine
with its handlers as a class beside it.

What the model takes for granted:

- `sign`, uuid and ulid return values not seen before. They, SCAN replies, looked-up network results and
  the outcome of password comparison are parameters. For `sign` this fails within one second: a login's
  payload holds only the user's fields and the time in seconds (`auth.service.ts:161-162`), so a second login
  of a user in the same second signs the same string, blacklists it, and answers with a token that is then
  refused (`Witnesses.SameTokenTwice`).
- A cache entry written at time `t` with lifetime `d` is there while the clock reads less than `t + d`, and
  is not lost before; lifetimes are positive. `Config` holds the effective lifetimes.
- SCAN returns, in any order and any number of times, only keys that match and were there at some point
  since the iteration began, and every matching key that was there throughout. Only the loop itself
  writes meanwhile.
- The ids and tokens that `sign`, uuid and ulid make hold no colon. What requests bring may hold anything:
  the client code is the `x-tenant-id` header, which nothing validates beyond its being non-empty
  (`tenant.middleware.ts:12-18`), and the refresh body is not validated either.
- The theorems of `SessionTheorems`, `TtlNecessity` and, on granted tokens, `RefreshAgreement` are about orderly runs:
  at every login and refresh, SCAN finds exactly the keys of the user it is for (`Sessions.Orderly`). A
  legal run is orderly if every code is free of colons and glob characters and every id of glob characters
  (`Names.PlainRunsAreOrderly`). Otherwise they fail: `Witnesses.TwoLiveUnderBrackets` has two live tokens
  under the code `a[b]`. The other theorems about runs need no such condition.
- Strings are compared exactly. MySQL's default collation compares codes and emails without regard to
  case, so two spellings of one code, or of one email, are one row there and two keys in the cache.
- `AuthConfig.Defaults` are the defaults of `authConfig.ts`. `JwtModule` reads the JWT lifetime from
  `ACCESS_TOKEN_EXPIRE` itself and has no default for it (`auth.module.ts:64`), so without that variable
  the lifetime the machine takes from `Config` is not the signer's.
- The theorems of `RefreshAgreement` are for lifetimes that cover the JWT's.
- Emails are unique per database, as the schema says; signup tokens are unique because uuid makes them, as
  the machine asks of them (`Sessions.Enabled`).

What the code does and the model follows, though it may surprise:

- Logging in with 2FA enabled revokes all sessions and then throws, because no handler passes a device
  token to `login`; a run sees this as `TwoFactorRequired`.
- Rotation, `revokeRefreshToken` and theft handling change rows only. Rotation leaves the previous access
  token live (`LatestTokenOnlyWhen`, `TwoLiveTokensWhen`), and the cache keeps answering for a refresh
  token whose row is invalid until its entry expires or the user logs in (`AgreementExactly` says exactly
  when; `Witnesses.CachedAfterTheft` is such a run).
- `refreshTokens`, `revokeRefreshToken`, `AuthService.verify` and `VerifyAndLoginUseCase`, the root variant
  of email verification, have no caller in the repository. They are steps of the machine all the same; of
  the concrete runs only the one about rotation uses one of them.
- Root logins are cached under the code `root`, and `validate` reads under the request's tenant id, so
  revoking under one code says nothing about another. `SessionUnderAnyCode` says exactly which requests
  are let through under any code: a token is revoked there only if it had been shown there before.
  `SingleSession` is the case of the code of issue, where every token is shown from the start.
- No modelled handler sets `isDbCreated`; a repeated onboarding is stopped by the existing database, and a
  failed migration blocks its code for good (`LeftoverBlocksForever`).
- The idle timeout of the tenant cache is read from the same environment variable as its maximum size
  (`authConfig.ts:15-17`); the model keeps the two as separate numbers.

## Model

| member | source | states |
|---|---|---|
| CacheKeys.KeyStringInjective | src/shared/cache/cache.service.ts:9-17 | For colon-free user ids and tokens, two different keys never have the same string, whatever the client codes |
| CacheKeys.TokenRecovered | src/shared/cache/cache.service.ts:83-83 | Splitting a key at colons and taking the last part gives back the token it was built from |
| CacheKeys.PatternSelects | src/shared/cache/cache.service.ts:114-117 | For a plain code and user id, the SCAN pattern matches a key, under any client code, iff it is that user's of that kind or its code runs through the whole prefix |
| CacheKeys.PatternIsExact | src/shared/cache/cache.service.ts:114-117 | With colon-free codes throughout it matches exactly that user's keys of that kind, and no URL key |
| CacheKeys.ColonInCodeBreaksPattern | src/shared/cache/cache.service.ts:9-15 | A concrete such code: another user's prefix, spelled out as a client code, puts every key under it into that user's pattern |
| CacheKeys.BracketsMissTheirOwn | src/shared/cache/cache.service.ts:73-79 | A code with glob characters: the patterns of `a[b]` find only keys of `ab` and so none of their own |
| CacheKeys.SameStringTrespasses | src/shared/cache/cache.service.ts:33-36 | Whatever token a request presents, a cached key with the string looked up is the key meant, or one whose code runs through the whole prefix |
| TokenCache.CustomCacheService.SetUserAccessTokenBlacklistCache | src/shared/cache/cache.service.ts:73-97 | For any SCAN replies, even with keys the loop itself wrote, ends with a blacklist entry for every key that matched at entry and changes no other key |
| TokenCache.CustomCacheService.DeleteKeysByPattern | src/shared/cache/cache.service.ts:119-130 | For any SCAN replies, removes exactly the keys that matched at entry |
| TokenCache.CustomCacheService.ClearUserAllTokenCaches | src/shared/cache/cache.service.ts:114-117 | Removes exactly the keys matching the user's access pattern and then the refresh pattern |
| TokenCache.BlacklistScanIsComplete | src/shared/cache/cache.service.ts:73-97 | What SCAN returns while the loop writes leads to the same blacklist keys as the keys matching at entry: a blacklist key is its own target |
| TokenCache.DeleteScanIsComplete | src/shared/cache/cache.service.ts:119-130 | Although it deletes while scanning, the loop is given every matching key: one it missed would have been present throughout |
| TokenCache.ScansOwnWhen | src/shared/cache/cache.service.ts:73-130 | For a plain code and user id, the loops of a login find exactly that user's keys iff no cached key of another code runs through the user's access or refresh prefix |
| TokenCache.RepresentsBlacklist | src/shared/cache/cache.service.ts:73-97 | The loop on strings is, for any code and any cached keys, the blacklisting of the structured keys the pattern finds |
| TokenCache.RepresentsClear | src/shared/cache/cache.service.ts:114-130 | Likewise the clear loops on strings remove exactly the structured keys the two patterns find |
| TokenCache.RevocationIsFramed | src/shared/cache/cache.service.ts:73-130 | When the patterns find the user's own keys, then after both loops, key by key: the user's access and refresh keys are gone, the tokens are blacklisted, everything else is unchanged |
| AuthConfig.DefaultsSuffice | src/core/common/config/authConfig.ts:6-11 | The default lifetimes of `authConfig` satisfy every inequality the theorems need, and 14 days in minutes equals 14 days in ms |
| Sessions.AcceptsIsTheStep | src/auth/application/jwt.strategy.ts:30-99 | "Let through", as the theorems use it, is the machine's validation step answering with a user |
| Names.RunNamed | src/auth/application/auth.service.ts:159-197 | Over every legal run ids and tokens hold no colon and a session entry names its key's user; over one of plain events no name troubles SCAN |
| Names.PlainRunsAreOrderly | src/shared/cache/cache.service.ts:73-130 | A legal run whose events bring plain codes and ids is orderly: every login and refresh in it revokes exactly its user's keys |
| SessionTheorems.TtlCoverage | src/shared/cache/cache.service.ts:50-97 | In every orderly run an issued, unexpired access token is cached or blacklisted at least until its expiry |
| SessionTheorems.SessionUnderAnyCode | src/auth/application/jwt.strategy.ts:40-99 | Under any code a request is let through iff its token is unexpired, nothing revoked the user's sessions there after the token was shown there, and it was shown there or its holder is a root user |
| SessionTheorems.ValidateAnswers | src/auth/application/jwt.strategy.ts:40-99 | Under that condition `validate` answers with the user the token was issued to, whatever the code; otherwise it refuses and changes nothing |
| SessionTheorems.VerifyAnswers | src/auth/application/auth.service.ts:87-124 | `AuthService.verify` answers with that user iff the token is unexpired and nothing was revoked under `root` after it was shown there, for users of any database; otherwise it refuses and changes nothing |
| SessionTheorems.UnissuedRefused | src/auth/application/jwt.strategy.ts:24-26 | A token no earlier event issued is refused by both, under any code |
| SessionTheorems.FallbackWhen | src/auth/application/jwt.strategy.ts:48-98 | `validate` falls back to the database exactly for a root user's unexpired token never shown under that code; under the code of issue never |
| SessionTheorems.SingleSession | src/auth/application/jwt.strategy.ts:48-62 | A request is let through iff its token is unexpired and no later login attempt or refresh of that user followed its issue |
| SessionTheorems.LatestTokenOnlyWhen | src/auth/application/auth.service.ts:295-323 | "Let through iff unexpired, the latest issued, and no later login attempt" holds iff not: unexpired, a rotation issued a later token, and nothing was revoked since |
| SessionTheorems.LatestTokenOnly | src/auth/application/auth.service.ts:49-66 | So it holds of every token that no rotation followed, even where a later login attempt threw |
| SessionTheorems.TwoLiveTokensWhen | src/auth/application/auth.service.ts:295-323 | Two tokens of a user are both live under a code iff both are unexpired and nothing was revoked after the earlier; the later one then came from a rotation |
| SessionTheorems.OneLiveToken | src/auth/application/command/update-refreshAccessToken.handler.ts:66-84 | Where no rotation follows the earlier token a user has at most one live token under a client code |
| SessionTheorems.RotationAddsASession | src/auth/application/auth.service.ts:295-323 | After a rotation the previously live token and the new one are both let through |
| Witnesses.TwoLiveAfterRotation | src/auth/application/auth.service.ts:295-323 | A concrete run for it: Google sign-up, then a rotation |
| SessionTheorems.OtherCodeIgnoresRevocation | src/auth/application/jwt.strategy.ts:40-65 | Unless something was revoked under a code after the token was shown there, a root user's token is let through there iff unexpired, whatever was revoked elsewhere |
| Witnesses.RevokedButAcceptedElsewhere | src/auth/application/jwt.strategy.ts:40-98 | A concrete run: two Google logins, after which the first token is refused under `root` and let through under the client's code |
| Witnesses.TwoLiveUnderBrackets | src/auth/application/command/update-refreshAccessToken.handler.ts:66-84 | A legal run that is not orderly: two refreshes under the code `a[b]` leave both tokens live |
| Witnesses.SameTokenTwice | src/auth/application/auth.service.ts:159-162 | If a second login signs the same string as the first, its answer is a blacklisted token |
| TtlNecessity.SingleSessionIffTtlsCover | src/core/common/config/authConfig.ts:6-8 | The single-session property holds over all orderly runs iff access-cache and blacklist lifetimes are at least the JWT lifetime |
| RefreshRows.AtMostOneValidRow | src/auth/application/auth.service.ts:126-140 | In every reachable state each user has at most one valid refresh row per database |
| RefreshRows.RowsGrowOverRun | src/core/infra/db/repo/tenant-refreshtoken.repository.ts:44-55 | Along any run rows are never removed, keep owner and expiry, and never become valid again |
| Rotation.RotationSingleUse | src/auth/application/auth.service.ts:295-323 | In any run a refresh token passed to rotation yields new tokens at most once |
| Rotation.RotationAnswers | src/auth/application/auth.service.ts:295-323 | What a rotation is answered for any granted token: new tokens for the grantee iff nothing invalidated it, its 14 days are not over and the address is that of the grant; another address is theft, an expired token loses all rows, any other is refused |
| Rotation.UngrantedNotRotated | src/auth/application/auth.service.ts:296-302 | A token no root user was granted is refused and nothing changes |
| Rotation.NoRotationAfterLogin | src/auth/application/auth.service.ts:49-56 | A refresh token is never rotated after a later login attempt of its user |
| RefreshAgreement.HandlerAcceptsIsTheStep | src/auth/application/command/update-refreshAccessToken.handler.ts:24-64 | "The handler accepts", as the theorems use it, is the machine's refresh step issuing a token, under any code |
| RefreshAgreement.RefreshAnswers | src/auth/application/command/update-refreshAccessToken.handler.ts:24-64 | For a refresh token granted to a user of any database and any code: an access token for that user under that code, iff the token is still cached there or its row stands and is in time, and the address is that on record or the alert does not throw; the alarm iff known and from another address; a refusal without alarm changes nothing |
| RefreshAgreement.TenantRefreshAnswers | src/auth/application/command/update-refreshAccessToken.handler.ts:41-52 | So a tenant user refreshes under the tenant's code only, until a login attempt there or the end of the refresh-cache lifetime, from the granting address or while the alert does not throw |
| RefreshAgreement.HandlerAcceptsWhen | src/auth/application/command/update-refreshAccessToken.handler.ts:29-63 | When the cache-first handler accepts a granted token under a code, in terms of grant time, last caching there, later logins and invalidations, and the address on record; from another address only if the alert does not throw |
| RefreshAgreement.DbAcceptsWhen | src/core/infra/db/repo/refreshtoken.repository.ts:34-44 | Over every legal run, when the database lookup alone would accept it, in the same terms, including the expiry boundary; never for a tenant user |
| RefreshAgreement.AgreementExactly | src/auth/application/command/update-refreshAccessToken.handler.ts:29-53 | From the address on record, under any code, whatever the alert does and for any lifetimes covering the JWT's, handler and database agree iff not: still cached under that code, and the row invalidated, over its 14 days, or a tenant's |
| Witnesses.CachedAfterTheft | src/auth/application/command/update-refreshAccessToken.handler.ts:36-63 | A concrete run, a refresh from a foreign address whose alert throws, after which the handler accepts a refresh token the database refuses |
| RefreshAgreement.CacheFirstAgreesWithDb | src/auth/application/auth.service.ts:164-181 | In runs of login, refresh and validation with matching IPs and root tokens under `root`, the two agree for every user and colon-free token presented from the address of its grant |
| RefreshAgreement.UngrantedAcceptedWhen | src/auth/application/command/update-refreshAccessToken.handler.ts:29-35 | A pair that was never granted is refused by the database, and accepted by the handler under a code iff the request spells another cached key of that user; for a colon-free code that key's code runs through the user's prefix |
| RefreshAgreement.UngrantedRefused | src/auth/application/command/update-refreshAccessToken.handler.ts:29-35 | So a colon-free token that was never granted is refused for any user, code and address, and nothing changes |
| RefreshTracking.RunRow | src/core/infra/db/repo/refreshtoken.repository.ts:34-44 | In every legal run the row of a granted token holds its grantee, address and deadline, and is valid iff no login attempt, rotation, revocation or theft alarm struck it since |
| RefreshTracking.RunEntry | src/auth/application/jwt.strategy.ts:88-91 | In every orderly run the cache has a granted token under a code iff the grant or a later re-caching put it there, no login attempt there followed, and its lifetime is not over |
| RefreshTracking.DenylistFollowsAlarms | src/auth/application/auth.service.ts:348-352 | An address is denied iff some earlier alarm was raised for a request from it |
| Witnesses.SpelledTokenAccepted | src/auth/application/command/update-refreshAccessToken.handler.ts:29-35 | A concrete orderly run after which the handler accepts a token with colons that was never granted |
| VerifiedUsers.TokensOnlyForVerified | src/auth/application/command/login-user.handler.ts:32-53 | Whoever gets a token, by password, Google, email verification, refresh or rotation, is verified then and ever after |
| Accounts.UsersFollowHistory | src/core/infra/db/repo/user.repository.impl.ts:40-60 | Over every legal run the table of users is the one the log describes: created, verified by an email verification, second factor as last set |
| Accounts.PasswordLoginAnswers | src/auth/application/command/login-user.handler.ts:29-54 | A password login is a login attempt of exactly the verified root user with that email, and only with the right password; otherwise it is refused and nothing changes |
| Accounts.GoogleLoginAnswers | src/auth/application/command/google_socialCreateOrLogin.handler.ts:24-85 | A Google login needs a paid client; with a known email it is an attempt of that user iff verified and of that client, with an unknown one of the new user; otherwise refused, and nothing changes |
| Accounts.VerifyEmailAnswers | src/auth/application/command/verify-userEmail.handler.ts:18-36 | An email verification is an attempt of exactly the still unverified user of that database with that signup token; otherwise refused, and nothing changes |
| Accounts.SignupTokenSingleUse | src/auth/application/command/verify-userEmail.handler.ts:22-24 | In any legal run a signup token logs somebody in at most once |
| Accounts.SecondFactorDecides | src/auth/application/auth.service.ts:49-85 | What comes of a login attempt of a user: with the second factor on, a refusal that signs nothing and adds no row and no cached token; otherwise the two tokens, signed, stored and cached |
| Accounts.TwoFactorRequiredWhen | src/auth/application/auth.service.ts:56-58 | In any legal run a login attempt asked for a second factor iff the last setting of it for that user before was on |
| AuthServices.AuthService.GenerateTokens | src/auth/application/auth.service.ts:159-216 | Signs, stores a row of 14 days and caches both tokens, in one database's namespace |
| AuthServices.AuthService.Login | src/auth/application/auth.service.ts:49-85 | Revokes rows, blacklists and clears, then issues or asks for 2FA: the machine's login, whose outcome `Accounts.SecondFactorDecides` reads off the history |
| AuthServices.AuthService.HandleTokenTheft | src/auth/application/auth.service.ts:343-352 | No root row of the user stays valid and the IP is denied; all other rows and IPs, and the whole cache, are unchanged |
| AuthServices.AuthService.NewAccessToken | src/auth/application/command/update-refreshAccessToken.handler.ts:66-84 | Signs, blacklists every cached access token of the user, then caches the new one |
| AuthServices.AuthService.LoginUser | src/auth/application/command/login-user.handler.ts:29-58 | The handler is the machine's password-login step (`Accounts.PasswordLoginAnswers`); invalidating twice is the same as once |
| AuthServices.AuthService.GoogleSocialCreateOrLogin | src/auth/application/command/google_socialCreateOrLogin.handler.ts:24-85 | The handler is the machine's Google step (`Accounts.GoogleLoginAnswers`): log in, create and log in, or refuse |
| AuthServices.AuthService.VerifyUserEmail | src/auth/application/command/verify-userEmail.handler.ts:18-36 | The handler verifies an unverified user and logs in: the machine's step (`Accounts.VerifyEmailAnswers`) |
| AuthServices.AuthService.RefreshAccessToken | src/auth/application/command/update-refreshAccessToken.handler.ts:24-64 | The cache-first handler is the machine's refresh step, on every branch, whatever code, user and token the request brings (`RefreshAgreement.RefreshAnswers`) |
| AuthServices.AuthService.RefreshTokens | src/auth/application/auth.service.ts:295-323 | Rotation is the machine's step (`Rotation.RotationAnswers`): refuse, expire, suspect theft, or replace the row |
| AuthServices.AuthService.RevokeRefreshToken | src/auth/application/auth.service.ts:325-330 | Invalidates the one row |
| AuthServices.AuthService.ValidateRequest | src/auth/application/jwt.strategy.ts:30-99 | Under any client code: blacklist, then cache, then database with re-caching, the machine's validation step (`SessionTheorems.ValidateAnswers`) |
| AuthServices.AuthService.FindValidRefresh | src/auth/application/jwt.strategy.ts:88-88 | The search finds the user's valid root row, which is unique |
| AuthServices.AuthService.Verify | src/auth/application/auth.service.ts:87-124 | The same without the database, under the root code (`SessionTheorems.VerifyAnswers`) |
| LastUsed.FindOldest | src/tenant/tenant-client.manager.ts:84-92 | The loop returns the first entry with the least time |
| TenantClients.SequentialRun | src/tenant/tenant-client.manager.ts:26-117 | Over every sequential run: entries ordered by and stamped with the last request for their code, connections conserved, maximum kept |
| TenantClients.RequestAnswers | src/tenant/tenant-client.manager.ts:26-80 | After every sequential run a request answers the connection listed for its code, else a new one to the root table's URL, and none iff not listed and no URL, import or connection; what it answers is open and listed for that code afterwards |
| TenantClients.RetainsLastRequested | src/tenant/tenant-client.manager.ts:70-77 | Over every run of requests without failures or cleanup, the cache holds exactly the `maxSize` codes requested last, in that order, or all if fewer |
| TenantClients.DropIdleIsExact | src/tenant/tenant-client.manager.ts:104-117 | Cleanup leaves exactly the entries that are not idle, unchanged and in order, and repeating it does nothing |
| TenantClients.ServeConserves | src/tenant/tenant-client.manager.ts:62-98 | Each request keeps every opened connection either cached or disconnected, and not both |
| TenantService.TenantPrismaService.GetPrismaClientByCode | src/tenant/tenant-client.manager.ts:26-80 | A hit answers the client stored under the code and a miss a new one to the root table's URL, or none exactly when there is no URL or a failure; the answer is then stored under the code and not disconnected, and the two maps do what the recency list prescribes |
| TenantService.TenantPrismaService.EvictLeastRecentlyUsedClient | src/tenant/tenant-client.manager.ts:83-102 | Drops the front of the recency list unless its code is empty |
| TenantService.TenantPrismaService.CleanupIdleClients | src/tenant/tenant-client.manager.ts:104-117 | Deleting while iterating drops exactly the idle prefix, disconnecting each client once |
| TenantProtocol.RunKeys | src/tenant/tenant-client.manager.ts:30-33 | In every interleaving `clientMap` and `lastUsedMap` have the same keys |
| TenantProtocol.InterleavingSafety | src/tenant/tenant-client.manager.ts:70-77 | With a maximum of at least 1 and non-empty codes no interleaving exceeds the maximum |
| TenantProtocol.FinishExceedsWhen | src/tenant/tenant-client.manager.ts:70-101 | A store exceeds the maximum iff the cache is full, the code is not in it, and the oldest code is the empty string |
| TenantProtocol.EmptyCodeExceeds | src/tenant/tenant-client.manager.ts:94-101 | A run that gets there with a maximum of 1, by onboarding and fetching a client with an empty code (which the middleware would not let a request name) |
| TenantProtocol.ConnectionsConserved | src/tenant/tenant-client.manager.ts:62-79 | In every interleaving, opened = cached + disconnected + displaced by a store on an occupied key, each exactly once |
| TenantProtocol.CachedUrlsAgree | src/tenant/tenant-client.manager.ts:37-66 | In every interleaving with onboarding, each cached client and URL is the root table's, the one function of the code |
| TenantProtocol.RepliesAreRight | src/tenant/tenant-client.manager.ts:26-80 | In every interleaving a call returns an open connection to its own code's database, the one cached under that code afterwards |
| TenantProtocol.TenantIsolation | src/tenant/tenant-client.manager.ts:30-79 | In every interleaving two calls that return the same connection asked for the same code |
| Onboarding.DatabasePerTenant | src/client-admins/application/command/create-clientadmin.handler.ts:52-116 | Over all sequences of attempts no two clients share a database, each recorded one exists and is new, none is created twice |
| Onboarding.RecordedForever | src/client-admins/application/command/create-clientadmin.handler.ts:69-71 | A recorded database name and URL never change |
| Onboarding.LeftoverBlocksForever | src/client-admins/application/command/create-clientadmin.handler.ts:81-88 | A database left by a failed attempt blocks every later attempt for codes of that name |
| Onboarding.OnboardedWhen | src/client-admins/application/command/create-clientadmin.handler.ts:52-88 | An attempt succeeds iff the client exists and is paid, its database was neither there nor created, and nothing fails |
| Onboarding.AttemptOutcome | src/client-admins/application/command/create-clientadmin.handler.ts:51-88 | What an attempt comes to, from the earlier events alone: registered, paid as last set, no schema of that name at the start or from an earlier attempt, then the environment and both migrations |
| Onboarding.CreateClientAdminUserHandler.Execute | src/client-admins/application/command/create-clientadmin.handler.ts:47-146 | Keeps the invariant; success records a new database nobody else has, a failure after its creation leaves it behind unrecorded, any other refusal changes nothing, and no other row is touched |
| PasswordReset.ConfirmSucceedsWhen | src/auth/application/command/update-resetPasswordConfirm.handler.ts:14-25 | A confirm with a token takes effect for a user iff the token is that of the latest request, at most 30 minutes old, with no successful confirm since |
| PasswordReset.AbsentTokenConfirms | src/core/infra/db/repo/user.repository.impl.ts:183-192 | A confirm without a token takes effect iff somebody's request is pending, and then for such a user |
| PasswordReset.ConfirmFailsOtherwise | src/core/infra/db/repo/user.repository.impl.ts:183-192 | A confirm that nobody's pending request backs changes nothing |
| PasswordReset.RequestMakesPending | src/auth/application/command/update-resetPasswordRequest.handler.ts:20-38 | In any run a request makes its token pending for exactly the user with that id, or without an id with that email, who has a client row; it ends what was pending for that user and leaves everybody else's |
| PasswordReset.ResetTokenSingleUse | src/core/infra/db/repo/user.repository.impl.ts:194-203 | In any run a reset token sets a password at most once |
| PasswordReset.ResetHandlers.RequestReset | src/auth/application/command/update-resetPasswordRequest.handler.ts:20-38 | Keeps the invariant; succeeds iff there is a user with that id, or without an id with that email, and a client row; the fresh token is then pending for that user alone, and no other row changes |
| PasswordReset.ResetHandlers.ConfirmReset | src/auth/application/command/update-resetPasswordConfirm.handler.ts:14-25 | Keeps the invariant; succeeds iff the history has a matching request pending, and sets the password and clears the token of that one user |
| Chat.LogsFollowHistory | src/noti/chat.gateway.ts:23-71 | After any history each session's log is the broadcasts since first connect merged with the user's own messages, read iff marked later |
| Chat.RepeatsChangeNothing | src/noti/chat.gateway.ts:32-67 | Reconnecting keeps the log, and marking twice is marking once |
| Chat.ChatGateway.HandleConnection | src/noti/chat.gateway.ts:23-39 | Keeps the logs equal to the history's projection |
| Chat.ChatGateway.HandleChat | src/noti/chat.gateway.ts:42-58 | Likewise; it fails iff a client that never connected speaks |
| Chat.ChatGateway.MarkAsRead | src/noti/chat.gateway.ts:61-71 | Likewise |

## Left out

- JWT signing, bcrypt, AES, TOTP, uuid and ulid: library code, present only as fresh values and as the `signed` table.
- The device-token branch of `login` and `tenantLogin`: no handler passes a device token; device registration is not modelled.
- `notifySecurityTeam`: its arguments arrive shifted against its parameters, so it updates the user whose id is the suspicious IP and throws unless there is one; the machine lets the refresh handler go on or stop after an IP mismatch, and the reset token the alert stores is not modelled. This also covers `tenantHandleTokenTheft`.
- RefreshAgreement.UngrantedAcceptedWhen: is about requests that carry a refresh token; without one the database query compares no token, which is not modelled here as it is for the reset token.
- TenantClients.RetainsLastRequested: is about runs without cleanup and failures, because what those remove depends on the clock and not only on the order of requests.
- TenantClients.RequestAnswers: the root table does not change during a sequential run; clients onboarded and URLs expiring between calls are in `TenantProtocol`.
- Interleaving inside the token handlers: each is one atomic step, so nothing is claimed about two logins of one user overlapping.
- AuthServices.AuthService.Login: one method stands for `login` and `tenantLogin`, with the database as a parameter.
- Slack, email, geoip, logging, Swagger, filters, health checks, server-sent notifications and HTML pages: input and output only; `logCacheStatus` likewise.
- Guards, validators, middleware and module wiring: settled by one branch or by configuration.
- Process spawning and migration scripts: an attempt is told whether registration and each migration succeeded.
- Creation of the administrator in the new tenant database: it happens after the root row is written and does not change it.
- Chat.ChatGateway.HandleChat: does not model the emits to socket rooms, nor user ids that name properties every JavaScript object has.
- Onboarding.CreateClientAdminUserHandler.Execute: lower-cases ASCII letters only, which covers the generated codes.
- CacheKeys.PatternSelects: is about keys of colon-free user ids and tokens only; other writers of the same Redis are not modelled.
- Deletion of users and clients: the repositories offer it and no handler calls it.
