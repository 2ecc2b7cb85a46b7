# Trip console backend: guarded mutations, in Dafny

This project models the guarded-mutation core of a NestJS/Prisma backend that authenticates users and moves a
"trip" through a fixed lifecycle. Every operation reads some state, checks it against a rule, and then either
commits a change together with an audit row or fails without changing anything.

- `TripStateMachine` (trip_state_machine.dfy) is the constant table `TripStateTransitions`: the legal successors
  of each `TripStatus`. It also has lemmas about the table: COMPLETED and CANCELLED are terminal, every live status
  can be cancelled or moved one stage along DRAFT → REVIEW → SUBMITTED → VERIFIED → PAID → COMPLETED, every step
  raises the rank, and a legal path has no cycles and visits at most six statuses.
- `Trips` (trips_service.dfy) is `TripsService`: a class over the trip table and the audit table.
  `UpdateTripStatus` checks, in order, that the trip exists, that its `version` equals the caller's
  `expectedVersion`, and that the table allows the step. It then writes the new status with `version + 1` and
  appends one STATUS_UPDATED row with before and after snapshots. The pure function `StatusUpdate` is its
  specification. `Replay` runs many requests against one trip, and its lemmas show that at most five changes
  ever commit, each one version apart.
- `Auth` (auth_service.dfy) is `AuthService`: a class over the user table and the audit table. It has `Register`,
  `Login`, `Refresh`, `Logout` and `LogEvent`. bcrypt and JWT are uninterpreted functions in a `Crypto` value,
  and `Sound` is the assumption the service's proofs make about them: a secret matches its own hashes and no other
  secret's, and hashes are never empty. The `bcrypt` package does not meet that assumption, because it reads only the
  first 72 bytes of a secret. `TruncatingCrypto` models that behaviour, and the lemmas about it show what the
  program really does with refresh tokens (see "## Findings"). The pure function `AttemptLogin` is the lockout
  counter, and `RefreshSubject` makes the rotation decision. Lemmas cover the five-failure lock and, under `Sound`,
  the rule that only the latest refresh token is accepted.
- `RolesGuard` (roles_guard.dfy) and `TripOwnershipGuard` (trip_ownership_guard.dfy) are the two `canActivate`
  decisions. Each is a total function returning `Allow`, `Forbidden(reason)` or `NotFound`.
- `Common` and `Audit` (common.dfy, audit.dfy) hold the shared datatypes: optional values, results, user ids, guard
  outcomes and audit rows.

Persistence is modelled as in-memory maps held in class fields. The clock is a millisecond `now` parameter.
bcrypt's random salt is a `salt` parameter. User ids come from a counter (`nextId`) that stands in for the ids
the database generates. Two points about the code's behaviour:

- The code raises `ForbiddenException` for an illegal transition. The model names that outcome `InvalidTransition`,
  with a comment naming the exception.
- A refresh within the same second as the token's issue mints the identical token again
  (`Auth.SameSecondRefreshReissuesToken`). So "a refresh token works at most once" holds only when the new token
  differs from the presented one, which is what `Auth.OnlyLatestTokenRefreshes` states.

## Model

| member | source | states |
|---|---|---|
| `TripStateMachine.AllowedNext` | backend/src/trips/trip-state-machine.ts:3-11 | defined for every status (the record is total); the successor list is empty exactly for COMPLETED and CANCELLED, and never longer than two |
| `TripStateMachine.TerminalHasNoSuccessor` | backend/src/trips/trip-state-machine.ts:9-10 | no status is a legal successor of COMPLETED or CANCELLED |
| `TripStateMachine.CancelAllowedFromLiveStatus` | backend/src/trips/trip-state-machine.ts:4-8 | CANCELLED is a successor of DRAFT, REVIEW, SUBMITTED, VERIFIED and PAID |
| `TripStateMachine.ExactlyTwoSuccessors` | backend/src/trips/trip-state-machine.ts:4-8 | a live status has exactly two successors: the next stage of the forward chain, then CANCELLED |
| `TripStateMachine.AllowedNextIsLifecycle` | backend/src/trips/trip-state-machine.ts:3-11 | the table equals the relation "not terminal, and the target is CANCELLED or the next element of the lifecycle chain", in both directions |
| `TripStateMachine.StepIncreasesRank` | backend/src/trips/trip-state-machine.ts:4-10 | every legal step strictly increases the ordinal rank, so there are no self-loops |
| `TripStateMachine.DraftNeverReentered` | backend/src/trips/trip-state-machine.ts:3-11 | DRAFT is nobody's successor |
| `TripStateMachine.PathRankGrows` | backend/src/trips/trip-state-machine.ts:4-10 | along a path of legal steps the rank grows by at least one per step |
| `TripStateMachine.NoCycles` | backend/src/trips/trip-state-machine.ts:4-10 | a path of legal steps never returns to its first status |
| `TripStateMachine.PathInteriorIsLive` | backend/src/trips/trip-state-machine.ts:9-10 | every status on a legal path except the last is non-terminal |
| `TripStateMachine.PathIsShort` | backend/src/trips/trip-state-machine.ts:3-11 | a path of legal steps visits at most six statuses |
| `Trips.Lookup` | src/trips/trips.service.ts:28-30 | finding a trip by id succeeds exactly when the id is stored, and yields the stored trip |
| `Trips.StatusUpdate` | src/trips/trips.service.ts:28-59 | the update commits iff the trip exists, its version equals `expectedVersion` and the table allows `newStatus`; otherwise NotFound, then VersionConflict carrying the current version, then InvalidTransition naming from and to, in that order of precedence; a committed trip has the new status and version + 1, with id, organizer and other columns unchanged |
| `Trips.CommittedUpdateFollowsTable` | src/trips/trips.service.ts:44-59 | a committed update follows an edge of the table, raises the rank and adds exactly one to the version |
| `Trips.TerminalTripRejectsEveryUpdate` | src/trips/trips.service.ts:44-50 | a COMPLETED or CANCELLED trip rejects every request, and with a matching version the rejection is the invalid transition |
| `Trips.ReplayWalksTable` | src/trips/trips.service.ts:27-74 | over any series of calls on one trip, the committed statuses form a legal path from the starting status, and the final version is the initial one plus the number of commits |
| `Trips.AtMostFiveCommits` | src/trips/trips.service.ts:27-74 | however many calls arrive, at most five status changes ever commit on a trip |
| `Trips.SubmittedTripScenarios` | src/trips/trips.service.ts:37-59 | for a trip at SUBMITTED, version 3: VERIFIED with version 3 gives VERIFIED, version 4; PAID is an invalid transition; version 2 is a conflict reporting 3 |
| `Trips.SubmittedTripThroughService` | src/trips/trips.service.ts:21-75 | driving the service with the three SUBMITTED, version-3 requests gives the invalid transition, then the version conflict reporting 3, then VERIFIED at version 4; the only audit row is one STATUS_UPDATED row for the acting user and the trip, with snapshots {SUBMITTED, 3} before and {VERIFIED, 4} after |
| `Trips.TripsService.GetTripById` | src/trips/trips.service.ts:15-19 | a read-only lookup that returns the stored trip under the id, whose own id is that id |
| `Trips.TripsService.UpdateTripStatus` | src/trips/trips.service.ts:21-75 | the result is `StatusUpdate` of the trip found; on failure neither the trip table nor the audit table changes; on success only that trip is replaced by the result, and exactly one STATUS_UPDATED row is appended, with the acting user, entity "Trip", the trip id, and the before and after snapshots |
| `Auth.AttemptLogin` | backend/src/auth/auth.service.ts:60-158 | login keeps the account's identity and credentials; it keeps the counter below five; it audits exactly one row unless the account is locked; it succeeds exactly when the account is unlocked and the password matches; a failure leaves the stored refresh hash alone; a success stores a hash that the returned refresh token matches |
| `Auth.LockedLoginChangesNothing` | backend/src/auth/auth.service.ts:60-65 | while `lockUntil > now` the login fails with the lock's expiry, before the password is compared, and writes nothing |
| `Auth.ThresholdFailureLocks` | backend/src/auth/auth.service.ts:69-94 | a wrong password that brings the count to five resets it to 0, sets `lockUntil = now + 15 min`, appends one ACCOUNT_LOCKED row and fails |
| `Auth.FailureBelowThresholdCounts` | backend/src/auth/auth.service.ts:69-111 | a wrong password below the threshold stores the old count + 1, appends one LOGIN_FAILED row and fails with "Invalid credentials" |
| `Auth.SuccessfulLoginResets` | backend/src/auth/auth.service.ts:113-158 | a correct password clears the counter and the lock, appends one LOGIN_SUCCESS row, returns the freshly signed pair and stores the hash of its refresh token in place of any previous one |
| `Auth.RegisteredPasswordLogsIn` | backend/src/auth/auth.service.ts:33-67 | a user just registered with a password logs in with that password and with no other |
| `Auth.FailuresAccumulate` | backend/src/auth/auth.service.ts:69-111 | wrong passwords in a row that stay below the threshold only raise the counter, one LOGIN_FAILED row each |
| `Auth.FiveFailuresLockAccount` | backend/src/auth/auth.service.ts:60-111 | from a clean counter, five wrong passwords give four LOGIN_FAILED rows, then exactly one ACCOUNT_LOCKED row, counter 0, and a lock 15 minutes after the fifth attempt; a later attempt before then fails with that lock and changes nothing |
| `Auth.RefreshSubject` | backend/src/auth/auth.service.ts:169-191 | a refresh goes ahead exactly when the token verifies, its subject exists, holds a refresh hash, and the token matches that hash |
| `Auth.OnlyLatestTokenRefreshes` | backend/src/auth/auth.service.ts:184-216 | once the stored hash is that of token `n`, a token naming the user is accepted iff it is `n`: every earlier refresh token is rejected |
| `Auth.RevokedSessionCannotRefresh` | backend/src/auth/auth.service.ts:179-181 | a user with no stored hash, as after logout, cannot refresh with any token |
| `Auth.SameSecondRefreshReissuesToken` | backend/src/auth/auth.service.ts:194-216 | a refresh within the second the presented token was issued mints that same token, which then refreshes again |
| `Auth.TruncatingCompareIsNotSound` | backend/src/auth/auth.service.ts:184-187 | with a compare that reads only the first 72 bytes, two different secrets that agree on those bytes match each other's hashes, so `Sound` is false for it |
| `Auth.TruncatedCompareAcceptsSupersededToken` | backend/src/auth/auth.service.ts:184-208 | as written: when the stored hash is of token `n` and the compare reads 72 bytes, a different token naming the same user that agrees with `n` on its first 72 bytes is accepted |
| `Auth.FullLengthCryptoIsSound` | backend/src/auth/auth.service.ts:148-208 | a compare that reads the whole secret satisfies `Sound`, so the assumption the service proofs rest on can be met |
| `Auth.FullLengthCompareRejectsSupersededToken` | backend/src/auth/auth.service.ts:184-208 | corrected: with a whole-secret compare, a token naming the user is accepted iff it is the one whose hash is stored |
| `Auth.InsertKeepsIdentifiersUnique` | backend/src/auth/auth.service.ts:23-42 | adding a user whose email and phone collide with nobody keeps emails and phones unique across users |
| `Auth.AuthService.LogEvent` | backend/src/auth/auth.service.ts:236-252 | appends exactly one row with the given action, user, metadata, ip and user agent, and changes nothing else |
| `Auth.AuthService.Register` | backend/src/auth/auth.service.ts:22-45 | fails with Conflict and creates nothing iff some user shares the email or the phone; otherwise adds exactly one user under a fresh id with the password's hash, zero failed attempts, no lock and no session; writes no audit row |
| `Auth.AuthService.Login` | backend/src/auth/auth.service.ts:47-159 | with no user matching the identifier by email or phone it fails "Invalid credentials" and writes nothing; otherwise it applies `AttemptLogin` to one matching user, which is the only row that changes, and appends that attempt's rows |
| `Auth.AuthService.Refresh` | backend/src/auth/auth.service.ts:161-225 | every failing check gives the same "Access denied" and writes nothing; on success it returns a pair freshly signed from the stored user, replaces that user's hash with the new refresh token's, and appends one TOKEN_REFRESH row |
| `Auth.AuthService.Logout` | backend/src/auth/auth.service.ts:227-234 | for an existing user, clears the refresh hash, appends one LOGOUT row and succeeds, also when it is repeated; an unknown user changes nothing |
| `Auth.SessionLifecycle` | backend/src/auth/auth.service.ts:161-234 | through the service: after register, login and one rotation, replaying the superseded token is denied; a second logout still succeeds; after logout the current token is denied |
| `RolesGuard.CanActivate` | src/auth/guards/roles.guards.ts:15-36 | allows iff no role is required (absent or empty list) or the user is present and holds a listed role; with roles required, no user gives Forbidden "Access denied", a user without a listed role gives Forbidden "Insufficient permissions"; never NotFound |
| `RolesGuard.UnrestrictedAllowsAnyone` | src/auth/guards/roles.guards.ts:21-23 | with no role required the guard allows, whether or not a user is present |
| `RolesGuard.MoreRolesAdmitMore` | src/auth/guards/roles.guards.ts:31-35 | appending roles to a non-empty required list never denies a request the list allowed (an empty list admits everyone, so it is excluded) |
| `TripOwnershipGuard.CanActivate` | src/trips/guards/trip-ownership.guard.ts:14-38 | a missing or empty trip id is Forbidden before any lookup; an unknown id is NotFound; a trip organized by someone else is Forbidden; it allows exactly when the id is given, the trip exists and its organizer is the user; it only reads the table |
| `TripOwnershipGuard.GuardedUpdateFindsOwnTrip` | src/trips/trips.controller.ts:26-40 | on the status route, a request the ownership guard allows reaches `updateTripStatus` for an existing trip the user organizes, so it cannot fail with NotFound |

## Left out

- bcrypt and JWT are uninterpreted. Hash and compare are constrained only by `Sound`. Sign and verify are not constrained at all, so expiry, signature checking and the separate access and refresh expiry settings are not modelled.
- The Prisma client and `$transaction` are replaced by maps in class fields. Each method mutates only after every check has passed. Database failures and rollback are not modelled, nor is the `try`/`catch` in `refresh` turning them into "Access denied".
- Concurrency: each call runs alone. The update in `updateTripStatus` filters by id only, so whether two racing calls can both pass the version check depends on the isolation level, and that is not modelled.
- The login and refresh paths of the code are not transactional (the audit row and the user update are separate writes). Each call is modelled as if it completed.
- The clock: `new Date()` and `Date.now()` become one `now` per call, in milliseconds.
- Configuration: the errors for a missing `JWT_REFRESH_SECRET` are start-up configuration, not modelled. The secrets come from `Config`.
- The `console.log` calls that print hash values in `refresh` carry credentials and no behaviour, and are not reproduced.
- Prisma turns an `undefined` value in a filter into "no condition". `register`'s `OR: [{ email }, { phone }]` with one identifier omitted may therefore match more rows than the model's `SharesIdentifier`, which lets an absent identifier match nobody.
- `findFirst` in `login` has no order. When several users match the identifier, the model picks one arbitrarily and names it in a ghost out-parameter.
- The user's `password!` column is taken to be always set, since the only users are the ones `register` creates.
- `register` validation (password length, email format, role enumeration) is class-validator, and is not modelled.
- The response messages ("User registered successfully", "Logged out successfully") are modelled as `Success(())`.
- Version counters and timestamps are unbounded integers. The database's 32-bit `version` column is not modelled.
- HTTP controllers, module wiring, dependency injection and the throttler are not modelled. Two things seen there stay outside the model: the trips controller passes `req.user.userid`, which is probably `userId` mistyped, and it sets `@Roles(Role.ORGANIZER)` without applying `RolesGuard`.
- The roles guard's `Reflector` metadata lookup is replaced by passing `requiredRoles` in as data.
- `getTripById` is a read of the table and does not model the request that reaches it.
- `Auth.OnlyLatestTokenRefreshes`: this is weaker than "a refresh token works at most once". It excludes only tokens that differ from the newly stored one, because a token re-minted in the same second is identical to the one presented. It also holds only under `Sound`, which the `bcrypt` package does not satisfy. bcrypt reads only the first 72 bytes, and all refresh JWTs of one user share those bytes: the header, then a payload that begins with `sub`. `Auth.TruncatedCompareAcceptsSupersededToken` states what the program does instead.
- `Auth.SessionLifecycle`: the denied replay of the superseded token rests on `Sound`. Under the 72-byte compare, the replay would be accepted.
- `Auth.RegisteredPasswordLogsIn`: "with no other password" rests on `Sound`. With real bcrypt, any password that agrees with the registered one on its first 72 bytes also logs in.
- Strings are sequences of characters, and the 72-byte limit counts one character as one byte. That holds for JWTs, which are ASCII, but not for passwords with multi-byte characters.

## Findings

| source | as written | input that shows it | evidently intended | confidence | as-written member | corrected member |
|---|---|---|---|---|---|---|
| backend/src/auth/auth.service.ts:184-208 | the refresh token is hashed and compared with bcrypt, which reads only its first 72 bytes | two refresh tokens of one user: every such JWT starts with the same 72 bytes (the 36-character header, the dot, then the start of `{"sub":"<id>",...`), so the superseded token matches the hash of its successor | after rotation only the newest refresh token is accepted | medium, not executed | `Auth.TruncatedCompareAcceptsSupersededToken` | `Auth.FullLengthCompareRejectsSupersededToken` |
