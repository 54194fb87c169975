# A verified model of the session and authorisation protocol

The service keeps users (role, status, `authorization_version`) and sessions in PostgreSQL and a
cache in Redis: a version per user, one expiring key per session, and per user a sorted set of
session ids. Validating an access token normally looks at Redis alone, and never at role or
status; refresh tokens rotate, and reusing one revokes the whole account's sessions; logging in
goes through a one-time code stored in Redis with a counter of attempts. This project models that
protocol twice, proves what it guarantees, and does the same for two smaller pieces of the
repository: the rewriting of the OpenAPI document and pagination.

**The service as atomic steps.** `Domain`, `AccessStore`, `Tables`, `LoginStore`, `Authentication`
and `Administration` hold the stores and every use case as a function of the stores; `Service`
puts them together as a state machine whose steps are the use cases, the passing of time and the
loss of session keys. `Coherence` and `Reachability` prove an invariant of all its runs. From it
follows what each use case answers and writes in a reachable state, told by claims, rows and the
mail that went out: validation and the decoding of a refresh (`Verdicts`), the requests that carry
an access token and the bootstrap (`Requests`), asking for a code and presenting one (`Codes`,
`Accounts`), and what that means for the tokens in circulation (`Consequences`). From it also
follow: when the cache may change the answer of a validation (`Guarantees`, `Window`), finality of
revocation (`Guarantees`), chains of sessions (`Lineage`), rotation and replay (`Rotation`),
one-time codes (`OneTimeCodes`) and who may change roles and statuses (`Authority`).

**The use cases as they run.** `AuthenticationService` and `AdministrationService` are methods on
store objects (`AccessStore.RedisAccessStateStore`, `LoginStore.RedisLoginRequestStore`,
`Tables.Database` with its working and committed tables, `AuthenticationService.Mailer`). Each
awaited call takes a scheduled fault: it raises before it took effect, or after. The methods are
proved to do what the functions say when nothing raises, and to be all or nothing when something
does.

**The service as micro-steps.** `Interleaving` lets any number of validations, logins, refreshes,
role or status changes and revoke-alls advance one database statement, Redis round trip or commit
at a time, with row locks, the advisory lock of a refresh, and aborts anywhere. `Schedules` proves
what every schedule keeps, `Concurrency`, `Survivors` and `Moments` what follows.

**The rest.** `OpenApi` and `OpenApiService` rewrite a JSON tree, `Pagination` slices lists.

Assumptions: one monotone clock in whole microseconds, read once per use case, except that a
refresh decodes its token at an earlier reading (before it waits for the advisory lock) and that
new refresh tokens are signed at a later one; access tokens are signed at the use case's; fresh
identifiers; a token decodes only if it was signed here and has not reached its `exp` second
(section 4.1.4 of RFC 7519); SHA-256 and bcrypt distinguish what they are given; READ COMMITTED
isolation, and `UPDATE ... RETURNING` answers with the row as written; Redis loses neither version
keys nor the sorted sets, while session keys may vanish at any time; a TTL reading is within one
second of the truth. Histories (tokens signed, descent of sessions, trails of login requests, past
rows) are part of the model only.

## What turned out not to hold

* The fast path can accept a session the database would refuse for up to one second after the
  session's expiry, because a key lives at least one second. `Guarantees.CacheDiffersExactly` says
  exactly when, and `Window.RefinementIffWindowClosed` that it can happen in some run if and only
  if access tokens may outlive sessions and sessions are not born expired.
* A change that publishes its version and then rolls back leaves Redis one version ahead. Every
  token of the user is then refused (`Concurrency.AbortedChangeLocksOut`,
  `Concurrency.CurrentTokenRefusedIffAhead`), until some change of that user commits
  (`Concurrency.LockoutLasts`, `Concurrency.LockoutEnds`).
* A committed revocation can be outrun by a validation that read the session just before
  (`Concurrency.RevocationCanBeOutrun`), and it can leave a usable key behind although no
  validation is under way when it commits, because the key is deleted before the commit and may be
  written again in between (`Concurrency.KeyCanBeRefilled`). The exact condition, over every state
  any schedule reaches, is `Concurrency.RevocationIsFinalIffSettled`: no validation of the session
  is past its session read, and its key, if it has one, is outdated by a later version in Redis.
* A replay does not reach a session that a login commits after the replay's update began.
  `Survivors.ReplaySparesOnlyLaterLogins` proves that exactly these survive, and
  `Survivors.SomeReplayIsOutlived` that some schedule has one.
* A revoke-all does not reach a session that a login or a refresh commits after its update began,
  even a refresh whose row lock it waited for: it takes no advisory lock.
  `Survivors.SweepSparesOnlyLaterSessions` proves that exactly these survive, and
  `Survivors.SomeSweepIsOutlived` that some schedule has one.
* Of the six ways out of a refresh, a signed token that decoded reaches at most four, whenever it
  was decoded and whenever the new one is signed (`Rotation.RefreshDecides`): the branches for a
  foreign owner and a foreign hash are never taken. The one for an expired session is, because the
  signer reads its own clock later and because a refresh decodes its token before it waits for the
  advisory lock. `Rotation.ExpiredBranchExactly` says at which instants, and when there are any.
* A failed login can leave its request behind, and can skip its rollback, when the compensating
  deletion raises too. `AuthenticationService.LoginUser` says for every schedule of faults exactly
  when; `AuthenticationService.FailedLoginLeavesRequest` is one such schedule.
* Injecting the Accept-Language parameter twice adds it twice (`OpenApi.LocalizedTwice` says for
  which operations); the pipeline runs once, as `OpenApiService.Application.CustomOpenApi` states.

## Model

| member | source | states |
|---|---|---|
| AccessStore.DeadlineBound | app/common/authorization/redis_store.py:75-87 | a key written for a session not yet expired is live at once, dies at most one second early, at most one second late, and late exactly when less than a second was left |
| AccessStore.RedisAccessStateStore.Get | app/common/authorization/redis_store.py:40-65 | reads the version and whether the live key names the user; changes nothing |
| AccessStore.RedisAccessStateStore.SetAuthorizationVersion | app/common/authorization/redis_store.py:26-33 | the stored version becomes the greater of the two; a fault before the script leaves it |
| AccessStore.RedisAccessStateStore.CacheSession | app/common/authorization/redis_store.py:67-89 | success leaves version, key, pruned index and new member; a fault leaves nothing, the version alone, or all of it |
| AccessStore.RedisAccessStateStore.RevokeSession | app/common/authorization/redis_store.py:112-119 | drops the key and its index member |
| AccessStore.RedisAccessStateStore.RevokeAllSessions | app/common/authorization/redis_store.py:121-140 | drops every key listed in the user's index and the index, or nothing |
| LoginStore.PatchDrift | app/modules/auth/infrastructure/redis_login_request_store.py:87-95 | one patch moves a key's deadline by at most a second either way |
| LoginStore.RedisLoginRequestStore.DeletePendingLogins | app/modules/auth/infrastructure/redis_login_request_store.py:17-23 | removes the requests listed for the device, then the list; a failure of either deletion leaves exactly what was deleted before it |
| LoginStore.RedisLoginRequestStore.CreateLoginRequest | app/modules/auth/infrastructure/redis_login_request_store.py:25-53 | stores the request and lists it, both until the same deadline |
| AuthenticationService.ValidateAccessToken | app/modules/auth/application/use_cases/validate_access_token.py:37-73 | answers and fills the cache as specified; a fault can turn the answer only into a dependency failure, which leaves the cache as it was, with the version published, or filled, the latter two only for a token that would have been accepted |
| AuthenticationService.Refresh | app/modules/auth/application/use_cases/refresh_token.py:47-112 | whatever raises, what is committed is nothing, this session's revocation, the revocation of all the user's sessions, or one rotation; by then Redis has lost the session's key, or all the user's; tokens are returned only for a committed rotation; no rollback follows a commit that returned |
| AuthenticationService.VerifyEmail | app/modules/auth/application/use_cases/verify_email.py:43-107 | whatever raises, nothing or the whole login is committed, the latter with the request already consumed and the user's keys swept; tokens are returned only for a committed login |
| AuthenticationService.LoginUser | app/modules/auth/application/use_cases/login_user.py:37-77 | user and device are committed together or not at all, and exactly when is said; a login succeeds if and only if no call raises, and has then mailed the address the code its request was stored with; after a failed one its request stays if and only if it was stored and the compensating deletion raised before deleting it, and the rollback is skipped if and only if a call of that deletion raised |
| AuthenticationService.FailedLoginLeavesRequest | app/modules/auth/application/use_cases/login_user.py:65-69 | when the mailer and the first read of the compensation raise, the request stays and nothing is committed or rolled back |
| AuthenticationService.LogoutUser | app/modules/auth/application/use_cases/logout_user.py:21-36 | a committed change revokes one unrevoked session of the caller, changes no other row, and finds its key already gone; after success the session is revoked |
| AuthenticationService.RevokeToken | app/modules/auth/application/use_cases/revoke_token.py:25-41 | success, or any committed change, is the revocation of one unrevoked session of the caller, with no other row changed and its key already gone |
| AuthenticationService.RevokeAllTokens | app/modules/auth/application/use_cases/revoke_all_tokens.py:20-28 | success, or any committed change, revokes every unrevoked session of the caller and changes no other row, with the cache already swept; without a fault it succeeds |
| AdministrationService.ChangeUserRole | app/modules/users/application/use_cases/change_user_role.py:21-35 | success, or any committed change, writes the requested role and the next version into the target's row and nothing else, for a SUPER_ADMIN, and only after Redis was told that version |
| AdministrationService.ChangeUserStatus | app/modules/users/application/use_cases/change_user_status.py:22-38 | the same for a status, for an actor that may manage the target |
| AdministrationService.ApproveUserDeletion | app/modules/users/application/use_cases/approve_user_deletion_request.py:25-46 | success, or any committed change, is the status DELETED, the next version and the revocation of every unrevoked session of the target, for an actor that may manage it and after it asked for deletion, with the version published and the cache swept before |
| AdministrationService.RequestAccountDeletion | app/modules/users/application/use_cases/request_account_deletion.py:21-39 | success, or any committed change, writes DELETION_REQUESTED and the next version into an active account's row, published before the commit |
| AdministrationService.BootstrapSuperAdmin | app/modules/users/application/use_cases/bootstrap_super_admin.py:21-39 | after success the address has an account and it is a SUPER_ADMIN; on an exception nothing is committed, or the whole change |
| Verdicts.UndecodedIsRefused | app/modules/auth/application/use_cases/validate_access_token.py:31-42 | an unsigned token and an unexpired refresh token are refused as invalid, a signed one past its exp second as expired |
| Verdicts.ValidateDecides | app/modules/auth/application/use_cases/validate_access_token.py:44-73 | the whole answer to a signed, unexpired access token: invalid unless its owner is active at the token's role and version, else accepted if and only if its session is unrevoked and unexpired or Redis has its key and a version, else revoked |
| Verdicts.AcceptedExactly | app/modules/auth/application/use_cases/validate_access_token.py:30-73 | outside the second of grace a token is accepted, as exactly its claims, if and only if it is signed and unexpired, its owner is active at its role and version, and its session is neither revoked nor expired |
| Verdicts.UncachedDecides | app/modules/auth/application/use_cases/validate_access_token.py:41-73 | with nothing cached the answer is read off any rows whatever, each refusal named, also those that no reachable state meets |
| Verdicts.UndecodedIsNotRefreshed | app/modules/auth/application/use_cases/refresh_token.py:48-52 | a refresh with anything but a signed, unexpired refresh token changes nothing and says which |
| Requests.RefusedChangesNothing | app/core/authentication.py:50-56 | a request whose token is refused answers that refusal and changes nothing |
| Requests.RevokeAllDecides | app/modules/auth/application/use_cases/revoke_all_tokens.py:20-28 | a revoke-all of an accepted caller succeeds and revokes every unrevoked session of the caller now, no row else; no key of an unexpired session of the caller is left and nobody else's key goes |
| Requests.RevokeSessionDecides | app/modules/auth/application/use_cases/revoke_token.py:25-41 | it succeeds if and only if the session exists, is the caller's and is unrevoked, and then revokes that row alone; else nothing changes and the error says which of the three failed |
| Requests.LogoutDecides | app/modules/auth/application/use_cases/logout_user.py:21-36 | a logout of an accepted caller succeeds, revokes the caller's own session if it was not, and drops that session's key alone |
| Requests.ChangeRoleDecides | app/modules/users/application/use_cases/change_user_role.py:21-35 | it succeeds if and only if the caller is a SUPER_ADMIN and the target exists; then the target's row has the requested role and the next version, Redis has that version, and no other row changes; else nothing changes |
| Requests.ChangeStatusDecides | app/modules/users/application/use_cases/change_user_status.py:22-38 | the same for a status: the caller is a SUPER_ADMIN, or an ADMIN and the target a USER; each refusal is named |
| Requests.RequestDeletionDecides | app/modules/users/application/use_cases/request_account_deletion.py:21-39 | it succeeds for an accepted caller, whose row has status DELETION_REQUESTED and the next version, and no other row changes |
| Requests.ApproveDeletionDecides | app/modules/users/application/use_cases/approve_user_deletion_request.py:25-46 | it succeeds if and only if the caller may manage the target and the target asked for deletion; then the target is DELETED, all its sessions are revoked and swept, Redis has its version, and no other row changes; each refusal is named |
| Requests.OwnGuards | app/modules/users/application/use_cases/_permissions.py:6-11 | in any state the use cases refuse by themselves what the route or validation should have stopped, and change nothing |
| Requests.BootstrapDecides | app/modules/users/application/use_cases/bootstrap_super_admin.py:21-39 | afterwards the address has an account with role SUPER_ADMIN: one that had the role is left alone, another keeps all but role and version, a missing one is created; Redis has a version that went up |
| Codes.VerifySucceedsExactly | app/modules/auth/application/use_cases/verify_email.py:43-107 | a verify succeeds if and only if its request is live, was mailed to the address given, is not used, expired or out of attempts, and the code is the mailed one or the dev code |
| Codes.TurnedAwayUnseen | app/modules/auth/application/use_cases/verify_email.py:51-60 | a live request refuses another address, a used code, an expired one and one out of attempts, in that order and whatever the code, and nothing changes |
| Codes.WrongCodeCosts | app/modules/auth/application/use_cases/verify_email.py:62-74 | any code but the mailed one and the dev code costs exactly one attempt and changes nothing else |
| Codes.RightCodeOpens | app/modules/auth/application/use_cases/verify_email.py:76-107 | the right code revokes the sessions of its own device and no other, adds one session with the refresh token's hash and the configured life, verifies the account, consumes the request, sweeps the user's keys, and gives tokens with the account's role and version |
| Codes.LoginDecides | app/modules/auth/application/use_cases/login_user.py:37-77 | a login finds or creates the account of the address and its device, mails the dev code or the generated one, and stores exactly that code's hash with all attempts and the configured life; if the mail failed the database is unchanged and no new request is left |
| Codes.OnlyOwnReplaced | app/modules/auth/infrastructure/redis_login_request_store.py:17-23 | a login removes only requests of its own device, and each of them still within its first life |
| Codes.MailedCodeOpens | app/modules/auth/application/use_cases/verify_email.py:62-107 | a mailed code opens a session for the address it went to, within its life, whatever happens in between short of other logins and verifies |
| Consequences.OpenedIsAccepted | app/modules/auth/application/use_cases/verify_email.py:96-107 | the access token of a login is accepted at once, for an active account |
| Consequences.RotatedIsAccepted | app/modules/auth/application/use_cases/refresh_token.py:83-112 | so is that of a rotation |
| Consequences.OutdatedIsFinal | app/common/authorization/redis_store.py:26-33 | a token whose version the account has left behind is refused in every continuation, cached keys or not |
| Consequences.ChangeEndsTokens | app/modules/users/application/use_cases/change_user_role.py:24-34 | after a successful change of role or status every access token signed for the account so far is refused in every continuation, with no exception |
| Consequences.RevokeAllEndsTokens | app/modules/auth/application/use_cases/revoke_all_tokens.py:20-28 | after a revoke-all no token signed for the caller so far is good for anything in any continuation: access tokens are refused, the second of grace aside, and refresh tokens give no pair |
| Guarantees.CacheRefinesDatabase | app/modules/auth/application/use_cases/validate_access_token.py:44-73 | in every reachable state and for every token, validate answers as with an empty Redis, the session's one second of grace aside |

| Guarantees.CacheDiffersExactly | app/modules/auth/application/use_cases/validate_access_token.py:44-73 | the cache changes an answer if and only if the fast path hits on a session the database would refuse, which needs that second |
| Window.RefinementIffWindowClosed | app/common/authorization/redis_store.py:75-87 | the refinement is free of exceptions over all runs if and only if access tokens live no longer than sessions, or sessions are born expired |
| Window.RevocationIsAbsolute | app/modules/auth/infrastructure/jwt_token_service.py:26-54 | under exactly such settings a revoked session's token is refused in every continuation, without exception |
| Guarantees.RevocationIsFinal | app/modules/auth/infrastructure/sqlalchemy_repositories.py:220-244 | revoked_at is written once, and the session's token is refused in every continuation, the second of grace aside |
| Guarantees.SingleRevocationIsFinal | app/modules/auth/application/use_cases/revoke_token.py:25-41 | after a logout or a single revocation the token is refused in every continuation without exception |
| Guarantees.SweepIsExact | app/common/authorization/redis_store.py:121-140 | a sweep removes every key of the user's unexpired sessions and no other user's key |
| Guarantees.KeysAreIndexed | app/common/authorization/redis_store.py:67-89 | in every reachable state each key is its owner's, dies at most a second after its session, and while the session lasts is unrevoked and in the owner's sorted set; a sorted set lists only its user's sessions |
| Guarantees.FilledKeyDeadline | app/modules/auth/application/use_cases/validate_access_token.py:59-72 | a filled key outlives its session exactly when less than a second was left, and by at most a second |
| Reachability.RunKeeps | app/modules/auth/application/use_cases/validate_access_token.py:37-73 | every run keeps: Redis versions equal the committed ones, one access token per session, each key vouching for an unrevoked, indexed session of an active account while the session lasts |
| Lineage.ChainsAndDevices | app/modules/auth/application/use_cases/refresh_token.py:83-98 | a session is replaced at most once, by one of the same owner and device, and is then revoked; a device has at most one live session |
| Lineage.RootIsLogin | app/modules/auth/application/use_cases/verify_email.py:79-94 | every session descends from a login session of the same owner and device |
| Lineage.OneLiveInFamily | app/modules/auth/application/use_cases/refresh_token.py:83-98 | of the sessions one login led to, at most one is live |
| Rotation.RefreshDecides | app/modules/auth/application/use_cases/refresh_token.py:48-106 | for every signed token that decoded, at whatever earlier reading, the outcome is the replay branch, the expired branch, refusal of an inactive user, or rotation, decided by revocation, expiry and status; a foreign owner or hash never occurs |
| Rotation.UnfitRevokes | app/modules/auth/application/use_cases/refresh_token.py:64-87 | on any rows whatever, a token with a foreign session, or one whose hash does not match, costs the account every session, an expired session is revoked alone, and otherwise the refresh succeeds if and only if the account is active |
| Rotation.ExpiredBranchExactly | app/modules/auth/application/use_cases/refresh_token.py:48-57 | with the signer's clock read after the use case's and a wait between decoding and reading the clock, the expired branch is taken exactly after the session's expiry and before the token's plus the wait; there is such an instant if and only if the signing's whole second plus the wait comes more than a microsecond after the session's birth |
| Rotation.RotationIsExact | app/modules/auth/application/use_cases/refresh_token.py:83-106 | a refresh with an unrevoked, unexpired session of an active user ends that session, adds one for the same owner and device with the right hash and expiry, signs the owner's role and version, and touches no other session, key, sorted-set entry, version, account, device or login request |
| Rotation.ReplayKillsFamily | app/modules/auth/application/use_cases/refresh_token.py:37-63 | presenting a superseded, unexpired token revokes every session of the user and every access token is refused in every continuation, the second of grace aside |
| OneTimeCodes.AttemptsAreConserved | app/modules/auth/application/use_cases/verify_email.py:62-76 | wrong guesses, judged by the code that was mailed, plus attempts left equal otp_max; at most otp_max codes are compared and at most one succeeds |
| OneTimeCodes.LoginsAreDistinct | app/modules/auth/application/use_cases/verify_email.py:76-94 | each login session comes from its own consumed request |
| OneTimeCodes.LifetimeIsBounded | app/modules/auth/infrastructure/redis_login_request_store.py:87-95 | a request's key dies at most otp_max seconds after its original deadline, and no code is accepted after the stored expiry |
| OneTimeCodes.OnePendingPerDevice | app/modules/auth/infrastructure/redis_login_request_store.py:17-53 | a request within its creation TTL is the only listed one of its device and the only such request |
| OneTimeCodes.PendingSetsAreSmall | app/modules/auth/application/use_cases/login_user.py:41-68 | a pending set never has two members |
| Authority.AcceptedIsCurrent | app/core/authentication.py:71-79 | an accepted token names an active account with the token's role and version |
| Authority.ChangesAreAuthorised | app/modules/users/application/use_cases/_permissions.py:6-11 | in every run, roles change only by bootstrap or an active SUPER_ADMIN; statuses only by a SUPER_ADMIN, by an ADMIN for a USER account, or by the account's own deletion request |
| Authority.PrivilegeNeedsBootstrap | app/modules/users/application/use_cases/bootstrap_super_admin.py:21-39 | without a bootstrap every account stays a plain USER |
| Schedules.EveryScheduleIsSound | app/modules/users/infrastructure/sqlalchemy_repositories.py:232-258 | the invariant of all interleavings: versions, locks, histories, tokens, keys, refreshes |
| Concurrency.RedisTracksVersions | app/common/authorization/redis_store.py:97-110 | at every micro-step, aborts included, Redis is silent only while the committed version is 1 and otherwise level or one ahead |
| Concurrency.VersionsNeverFall | app/common/authorization/redis_store.py:26-33 | over every schedule neither a Redis version nor a committed version decreases |
| Concurrency.AcceptedTokenWasCurrent | app/modules/auth/application/use_cases/validate_access_token.py:44-73 | over every interleaving, an accepted token had a moment inside its own validation when the committed row was ACTIVE with its role and version |
| Concurrency.FastPathIsCurrent | app/modules/auth/application/use_cases/validate_access_token.py:44-51 | the Redis-only answer implies the committed row is current, although neither role nor status is read |
| Moments.AcceptedSessionWasAlive | app/modules/auth/application/use_cases/validate_access_token.py:59-73 | over every schedule, behind each accepted token some validation had read its session and found it unrevoked, unexpired and its owner's |
| Moments.CommitsItsEdit | app/modules/users/infrastructure/sqlalchemy_repositories.py:232-258 | over every schedule no update is lost: a committed change writes what its update asked for into the row as that update found it, with the next version |
| Moments.RotationServesActive | app/modules/auth/application/use_cases/refresh_token.py:85-106 | over every schedule a committed rotation signs a role and version at which the account was active |
| Moments.RotationPresentsLive | app/modules/auth/application/use_cases/refresh_token.py:56-75 | over every schedule a refresh that is about to rotate had itself selected its session under the lock, unrevoked, unexpired and the token's user's, and it still is unrevoked |
| Moments.PresentedIsSpent | app/modules/auth/application/use_cases/refresh_token.py:70-83 | over every schedule, after a rotation commits or an expired session is retired, the presented session is revoked for good |
| Schedules.PastKept | app/modules/users/infrastructure/sqlalchemy_repositories.py:232-258 | a version of a user names one role and one status for good |
| Concurrency.CurrentTokenRefusedIffAhead | app/modules/users/application/use_cases/change_user_role.py:24-34 | a current token is refused at first look if and only if Redis is ahead of the database, and then every token of the user is |
| Concurrency.AbortedChangeLocksOut | app/modules/users/application/use_cases/change_user_role.py:24-34 | publishing and then aborting leaves every current token refused |
| Concurrency.LockoutLasts | app/modules/users/application/use_cases/change_user_status.py:27-37 | the lockout lasts as long as no change of that user commits |
| Concurrency.LockoutEnds | app/modules/users/application/use_cases/change_user_status.py:27-37 | the commit of a change of that user ends it: database and Redis are level |
| Concurrency.RotatesOnce | app/modules/auth/application/use_cases/refresh_token.py:56-63 | at most one refresh presenting a given token ever commits a rotation |
| Concurrency.RefreshesExclude | app/modules/auth/infrastructure/sqlalchemy_repositories.py:55-57 | refreshes of one user never overlap between taking the lock and the end of the transaction |
| Concurrency.LaterPresenterReplays | app/modules/auth/infrastructure/sqlalchemy_repositories.py:172-180 | whoever selects a rotated session under the lock is on the replay branch |
| Survivors.ReplaySparesOnlyLaterLogins | app/modules/auth/application/use_cases/refresh_token.py:59-63 | a session of the user is alive after a replay's commit if and only if it was alive just before and a login committed it after the replay's update began; no session born by a refresh is, whatever was attempted meanwhile |
| Survivors.SomeReplayIsOutlived | app/modules/auth/application/use_cases/refresh_token.py:59-63 | a schedule reaches a replay's commit that a session of its user survives |
| Survivors.ReplayCanBeOutlived | app/modules/auth/application/use_cases/verify_email.py:79-102 | from any state where a replay is about to revoke and no row it needs is locked, a login that commits in between survives it |
| Survivors.SweepSparesOnlyLaterSessions | app/modules/auth/application/use_cases/revoke_all_tokens.py:20-28 | a session of the user is alive after a revoke-all's commit if and only if it was alive just before and a login or refresh committed it after the update began |
| Survivors.SomeSweepIsOutlived | app/modules/auth/application/use_cases/revoke_all_tokens.py:20-28 | a schedule reaches a revoke-all's commit that a session of its user survives |
| Survivors.SweepCanBeOutlived | app/modules/auth/application/use_cases/refresh_token.py:64-106 | from any state where a refresh holds its row, the session it goes on to commit survives a revoke-all that began before and waited |
| Concurrency.RevocationIsFinalIffSettled | app/modules/auth/application/use_cases/validate_access_token.py:59-73 | in every state a schedule reaches, a revoked session is never accepted again if and only if no validation of it is past its session read and its key, if any, is outdated by a later version |
| Concurrency.KeyCanBeRefilled | app/modules/auth/application/use_cases/revoke_token.py:36-37 | a key deleted before the commit can be written again before it, so that with no validation under way at the commit one presented afterwards is accepted |
| Concurrency.RevocationCanBeOutrun | app/modules/auth/application/use_cases/validate_access_token.py:59-73 | a validation presented after a committed revocation can be accepted |
| Concurrency.FirstLogin | app/modules/auth/application/use_cases/verify_email.py:84-102 | the states these schedules start from are reached by a first login |
| OpenApi.CustomisedIsClosed | app/core/middleware.py:146-150 | if every reference of the generated document resolves and the error model is closed, every reference of the final document resolves, HTTPValidationError is gone, and nothing refers to it |
| OpenApi.ReplacedAt | app/core/middleware.py:72-80 | path by path, the rewrite renames stale references and leaves everything else |
| OpenApi.ReplacedRefs | app/core/middleware.py:72-80 | the references afterwards are the renamed references of before, no more and no fewer |
| OpenApi.ReplacedIsIdentity | app/core/middleware.py:72-80 | the rewrite leaves a document alone if and only if it holds no stale reference |
| OpenApi.ReplacedTwice | app/core/middleware.py:72-80 | the rewrite is idempotent |
| OpenApi.LocalizedTwice | app/core/middleware.py:116-132 | injecting the parameter again changes an operation if and only if it has a parameter list without an inline header |
| OpenApi.EveryOperationOffersLanguage | app/core/middleware.py:102-132 | the final document has the operations of the generated one, and each with a parameter list offers Accept-Language |
| OpenApi.OperationsBecome | app/core/middleware.py:89-132 | each operation of the final document is the generated one with the link first unless the header is inline, its default 422 description reworded, stale references renamed, and nothing else changed |
| OpenApi.SchemasBecome | app/core/middleware.py:62-86 | the final schemas are the generated ones and the error model's, the latter winning, with stale references renamed and HTTPValidationError gone |
| OpenApi.ParameterBecomes | app/core/middleware.py:102-115 | the linked parameter is the Accept-Language header with the given description |
| OpenApiService.Document.InjectErrorResponseSchema | app/core/middleware.py:62-69 | copies every nested definition, then stores the model without them |
| OpenApiService.Document.InjectAcceptLanguageParameter | app/core/middleware.py:102-132 | the loops over paths and operations change each operation as specified and nothing else |
| OpenApiService.Document.NormalizeDescriptions | app/core/middleware.py:89-99 | the loops reword exactly the default 422 descriptions |
| OpenApiService.Application.CustomOpenApi | app/core/middleware.py:135-154 | the pipeline runs once and its result is kept |
| Pagination.PagesAreTheList | app/common/pagination/utils.py:6-13 | pages 1 to total_pages, concatenated, are the list |
| Pagination.TotalPagesIsLeast | app/common/pagination/utils.py:10-13 | n pages hold everything if and only if n is at least total_pages |
| Pagination.HasNextIsExact | app/common/pagination/utils.py:16-25 | has_next says exactly whether an item lies beyond the page and whether the next page is not empty, has_previous whether the page starts past the first item |
| Pagination.CollectedIsVisible | app/modules/users/application/use_cases/get_users.py:12-62 | paging to the reported total collects exactly the rows the actor may list, in order: for an ADMIN, the filtered accounts of role USER |
| Pagination.CollectedExactly | app/modules/users/application/use_cases/get_users.py:12-62 | paging to the reported total collects every account that meets each condition given and no other, each once and in the table's order |

## Left out

- Routers, schemas, dependency wiring, settings, logging, localisation and exception handlers: no state of their own.
- JWT, bcrypt, SHA-256, SMTP, SQLAlchemy and the Redis client: taken as described under the assumptions.
- Profiles, preferences, avatars, device notifications, `last_active_at`, `last_seen_at` and listing of sessions: single-branch reads and writes. `touch_user_device` is the one awaited call inside refresh and verify that has no step of its own; failing there commits nothing, as failing at the commit does.
- CI scripts, rollout, Terraform and Compose files.
- Liveness and deadlock freedom of the locks, and agreement of session state or one-time codes with the database under interleaving, beyond what `Concurrency` states: the code promises neither.
- Time in the micro-step machine: expiry is a free choice of the step there, and session keys may go at any moment, which covers deadlines, sweeps and dropped keys. A logout, a single revocation, and the revocations of a login and of an approved deletion are single committed steps on an unlocked row, which allows more schedules than holding the locks for longer.
- The guards of the status and role use cases in the micro-step machine: there any edit of any row may be attempted, which allows every schedule the guarded use cases have. `Authority` proves the guards on atomic steps.
- Further clock readings within one use case: the atomic machine knows the decoding, the use case's own and the signing of the refresh token, and signs access tokens at the use case's.
- Loss of Redis version keys or sorted sets, and direct edits of the database: the invariants do not survive them.
- The lost update between reading and rewriting a login request: its steps are atomic here.
- Trimming and lower-casing of email addresses: every address is taken in its normal form.
- A code containing non-ASCII characters, on which comparing it with a configured code raises.
- Aliasing of nested dicts in the OpenAPI document: a document is a value that the methods reassign, and the order of dict keys is not kept.
- The list of SQL conditions that a user listing builds up: it is the predicate `Pagination.Meets`, and the text search is the set of accounts it matches.
- Sort ties between pages and the rounding of `total / limit` as a float: the order is given and the division exact.
- AuthenticationService.LoginUser: what ends the transaction when the rollback is skipped is the closing of the request's database session (`app/core/database.py:48-51`), which is not modelled.
