# Task manager: session store and its consumers, in Dafny

This project models the authentication core of a small task-manager system. There are two Node services and a React front end. The parts modelled are:

- **The auth-service session store** (`RedisStore`). The store keeps four kinds of Redis key:
  - `session:{id}`, one session record per user;
  - `user:tokens:{id}`, the set of tokens a user may present;
  - `user:profile:{id}`, a profile cache;
  - `blacklist:{token}`, the revoked tokens.

  Every key carries an absolute expiry in milliseconds, and a key is gone once the clock reaches it. The four prefixes never prefix one another, so the key spaces are four separate maps. Each operation's pipeline is one atomic step.
  - The pure `After*` functions state what each pipeline does to the keyspace.
  - The class `RedisService` holds the four maps. Each of its methods is proved to produce exactly that `After*` state, or, for the reads, exactly the value the keyspace gives.
  - A `reachable` flag stands for a store that answers or throws. Every operation's error path (`false`, `null` or `0`) is modelled. A failed pipeline writes nothing. The expired-session sweep is not one pipeline: a store error part-way through it keeps the deletions already made.
- **The auth-service request gate** (`AuthGate`). The order of checks is: header, then signature, then the store's verdict. The JWT verifier is an abstract function `string -> Verified`.
- **The auth-service controller** (`AuthController`). This covers the token claims, register and login with the session they write, and the input checks of updateProfile and uploadAvatar.
- **The task-service request gate** (`TaskGate`). It admits every correctly signed token and never consults the store.
- **The WebSocket bookkeeping** (`SocketServer`). The connection, join, leave and disconnect handlers update three maps in place.
- **The daily-reminder job** (`Cron`). This covers:
  - grouping tasks by owner;
  - per-owner reminder accounting;
  - run counters behind an overlap guard;
  - the clock arithmetic of the next run and of today's range.
- **Email retry** (`EmailRetry`). Sending uses bounded retries with exponential backoff, and jobs are sent in batches.
- **The avatar upload filter and its error handler** (`Upload`).
- **The password-change form's submit handler** (`PasswordChange`).

`Json`, `JsString` and `Http` hold the shared pieces:
- flat JSON objects;
- `split`, `includes` and `trim` as JavaScript defines them;
- the bearer-token format and the gate verdict.

The model keeps the code's behaviour as written, including these consequences:

- **Fresh tokens are refused.** Register and login store the raw token under `session:{id}` with `SET … EX 86400`. They never add it to `user:tokens:{id}`. The auth-service gate requires that membership, so it refuses a freshly issued token (`AuthController.IssuedTokenRefusedByGate`).
- **The raw session is unreadable.** `getSession` cannot parse that raw value and answers null. While such a value lives, the expired-session sweep stops with 0 (`AuthController.IssuedSessionUnreadable`, `AuthController.IssuedSessionStallsSweep`).
- **storeSession caches unsanitised data.** It caches `userData` as given, password included. Only `cacheUserProfile` sanitises (`RedisStore.StoreSessionCachesUnsanitised`).
- **The sweep deletes nothing, under one clock.** `storeSession` gives each record an `expiresAt` equal to its key's own expiry, when both are computed from one clock value. Then the sweep never finds a live record to delete (`RedisStore.SweepIdleWhenTtlAgrees`).
- **The task service admits revoked tokens.** It admits a correctly signed token that the auth service has revoked (`TaskGate.RevokedTokenAdmitted`). Its user lookup calls `/api/auth/me`, which auth-service/src/routes/auth.js:10-17 does not define. So in practice `req.user` is the token payload alone.
- **A stale disconnect forgets a live user.** When an older socket of a reconnected user disconnects, `connectedUsers` loses the user. This happens even though the newer socket is still live (`SocketServer.StaleDisconnectForgetsLiveUser`).
- **A deleted owner silences the day.** If one task due today has lost its owner, grouping throws and the task query's catch answers no tasks. No reminder goes to anyone, and the run counts as a success (`Cron.OrphanedTaskSilencesDay`).
- **Reminder sends never fail.** `emailService.sendTaskReminderNotification` catches and discards every send error (task-service/src/services/emailService.js:173-187). So the cron's `sendWithRetry` succeeds on the first attempt: as shipped, `delivered` holds for every owner, a reminder is never retried, and a mail that failed still counts as notified. The model keeps `delivered` an input and covers both outcomes.
- **Every owner counts as an error, as shipped.** `userService.getUserById` calls `/api/auth/users/:id` (task-service/src/services/userService.js:15), which auth-service/src/routes/auth.js:10-17 does not define. Each lookup answers null, so the lookup returns no users and every owner adds one to errors (`Cron.UnknownOwnersNotNotified`). The model keeps the returned users an input.
- **Leaving the last task leaves an empty entry.** Leaving the only task a user joined keeps an empty room set until disconnect (`SocketServer.LeaveKeepsEmptyEntry`).
- **The filter's size error is not answered.** The filter raises it as a plain Error, and the error handler passes it on rather than answering it (`Upload.SizeRejectionPassedOn`). The avatar route in auth-service/src/routes/auth.js:7-8,17 builds its own multer without this filter anyway.

## Model

| member | source | states |
|---|---|---|
| RedisStore.AfterStoreSession | auth-service/src/services/redisService.js:31-60 | the session record holds the token, user, creation time and expiry = creation + 86400000 ms; the token joins the user's live set, whose TTL restarts at 86400 s; the profile is written, for 1800 s, only when userData is given; the blacklist and other users' keys are untouched |
| RedisStore.RedisService.StoreSession | auth-service/src/services/redisService.js:31-68 | the new keyspace is exactly the storeSession pipeline's effect and the result is true; on a store error it is false and nothing changes |
| RedisStore.ParseSession | auth-service/src/services/redisService.js:80-87 | a session value reads back as a record exactly when it is JSON; a raw token reads as null |
| RedisStore.RedisService.GetSession | auth-service/src/services/redisService.js:75-89 | the live record parsed, null when absent, unparsable or on a store error |
| RedisStore.RedisService.ValidateToken | auth-service/src/services/redisService.js:97-115 | a live blacklist entry makes it false whatever the token set holds; otherwise true iff the token is in the user's live set; false on a store error |
| RedisStore.StoredTokenValidates | auth-service/src/services/redisService.js:51-52 | after storeSession the token validates for its user for the whole session TTL unless it is blacklisted |
| RedisStore.AfterInvalidateSession | auth-service/src/services/redisService.js:123-144 | session and profile keys deleted; the token leaves the set and is blacklisted for 86400 s; it never validates for that user again nor for anyone during the blacklist TTL; every other token keeps its status |
| RedisStore.RedisService.InvalidateSession | auth-service/src/services/redisService.js:123-152 | the new keyspace is exactly invalidateSession's pipeline effect; nothing changes on a store error |
| RedisStore.InvalidateSessionIdempotent | auth-service/src/services/redisService.js:129-144 | a second revocation of the same token leaves the state of the first, except that the blacklist entry's TTL restarts |
| RedisStore.BlacklistAll | auth-service/src/services/redisService.js:171-174 | every token given gets a blacklist entry with the new expiry; other entries are kept |
| RedisStore.QueueBlacklist | auth-service/src/services/redisService.js:171-174 | the forEach that queues one SETEX per token read yields BlacklistAll of those tokens |
| RedisStore.AfterInvalidateAll | auth-service/src/services/redisService.js:159-179 | every token read from the set is blacklisted; the session, token-set and profile keys are deleted; no token validates for the user afterwards, and none of the read tokens validates for anyone during the blacklist TTL |
| RedisStore.RedisService.InvalidateAllSessions | auth-service/src/services/redisService.js:159-187 | the new keyspace is exactly invalidateAllSessions' effect; nothing changes on a store error |
| RedisStore.SafeProfile | auth-service/src/services/redisService.js:204-211 | only id, name, email, avatar, createdAt and updatedAt survive, never the password; id is `_id` when truthy, else `id`; the others are copied |
| RedisStore.RedisService.CacheUserProfile | auth-service/src/services/redisService.js:199-221 | the profile key holds the sanitised object for 1800 s; nothing changes on a store error |
| RedisStore.CachedProfileReadBack | auth-service/src/services/redisService.js:213-237 | after caching, the cache answers the sanitised object until the TTL ends and null afterwards; other users' entries are unaffected |
| RedisStore.CachedProfileHasNoPassword | auth-service/src/services/redisService.js:204-213 | whatever the cache answers after cacheUserProfile has only the six kept fields |
| RedisStore.RedisService.GetCachedUserProfile | auth-service/src/services/redisService.js:228-242 | the live cached object, null when absent or on a store error |
| RedisStore.AfterDropProfile | auth-service/src/services/redisService.js:249-260 | no later read of the user's profile hits; the other key kinds are unchanged |
| RedisStore.RedisService.InvalidateUserProfileCache | auth-service/src/services/redisService.js:249-260 | the new keyspace is AfterDropProfile's; nothing changes on a store error |
| RedisStore.RevocationDropsProfile | auth-service/src/services/redisService.js:140-142 | both revocations leave the user with no cached profile |
| RedisStore.StoreSessionCachesUnsanitised | auth-service/src/services/redisService.js:55-58 | storeSession caches userData as given, so a password field in it is served from the cache |
| RedisStore.RedisService.GetSessionStats | auth-service/src/services/redisService.js:270-295 | the numbers of live session, profile and blacklist keys; all zero on a store error |
| RedisStore.StatsAfterInvalidateSession | auth-service/src/services/redisService.js:278-288 | after invalidateSession the session and profile counts drop by one if the user had those keys, and the blacklist count grows by one unless the token was already blacklisted |
| RedisStore.VisitKey | auth-service/src/services/redisService.js:306-313 | one turn of the loop: a JSON value is kept or, when its expiresAt < now, deleted and counted, extending what the sweep has done by that key; a raw token means not every live session parses, and nothing changes |
| RedisStore.SweepSessions | auth-service/src/services/redisService.js:302-321 | the deleted keys are stale live records and the count is their number; it stops early iff some live value is not JSON or the store fails on some live key; when it does not stop, it deletes exactly the stale live records |
| RedisStore.RedisService.CleanupExpiredSessions | auth-service/src/services/redisService.js:301-323 | only live records with expiresAt < now are ever deleted; when every live value is JSON and the store fails on none of the keys, it deletes exactly those and returns their number; otherwise it returns 0, keeping the deletions made; a failed KEYS returns 0 and deletes nothing; the other key kinds are untouched |
| RedisStore.StoreSessionKeepsTtlAgreement | auth-service/src/services/redisService.js:37-52 | storeSession keeps every stored record's expiresAt equal to its key's expiry |
| RedisStore.SweepIdleWhenTtlAgrees | auth-service/src/services/redisService.js:306-313 | while records and key expiries agree, no live record is stale, so the sweep deletes nothing |
| Http.BearerToken | auth-service/src/middlewares/auth.js:12 | the token is the longest space-free text after "Bearer " |
| Http.BearerTokenRoundTrip | auth-service/src/middlewares/auth.js:8-12 | a space-free token sent as "Bearer token" is read back unchanged |
| AuthGate.Authenticate | auth-service/src/middlewares/auth.js:5-35 | no bearer header gives 401 'No token provided'; bad signature 401 'Invalid token'; expired 401 'Token expired'; another verify error 500 'Authentication error'; a verified token the store refuses 401 'Token is invalid or expired'; admitted with the decoded payload iff verified, the store answers and the token is active for the payload's id |
| AuthGate.StoreNotConsultedBeforeVerify | auth-service/src/middlewares/auth.js:7-18 | without a bearer header or a successful verification the verdict does not depend on the store at all |
| AuthGate.BlacklistWins | auth-service/src/services/redisService.js:103-106 | a blacklisted token is never admitted, whatever the token sets hold |
| AuthGate.RevokedTokenRefused | auth-service/src/middlewares/auth.js:18-21 | after invalidateSession the revoked token is refused during the blacklist TTL, whatever its payload |
| AuthController.TokenClaims | auth-service/src/controllers/authController.js:6-12 | the claims passed to jwt.sign are exactly id, email and name, and their id is the user's |
| AuthController.PublicUser | auth-service/src/controllers/authController.js:37-45 | the response user has exactly id, email, name and (when set) avatar, each holding the user's own value, and never the password |
| AuthController.RegisterCheck | auth-service/src/controllers/authController.js:18-26 | 400 'All fields are required' iff a field is missing; 409 'Email already registered' iff all are given and the email is taken; otherwise registration proceeds |
| AuthController.CheckCredentials | auth-service/src/controllers/authController.js:56-70 | a user is returned iff both fields are given, the email is known and the password matches; missing fields give 400; an unknown email and a wrong password give the same 401 'Invalid credentials' |
| AuthController.AfterIssueSession | auth-service/src/controllers/authController.js:35 | the raw token is stored under session:{id} for 86400 s; token sets, profiles and blacklist are untouched |
| AuthController.AuthController.Register | auth-service/src/controllers/authController.js:14-50 | a failed check answers it and creates nothing; otherwise the user is created and, when the store answers, the raw session written and 201 with token and public user returned; a store error gives 500 'Registration failed' with the error's message, after the user was created, and writes no session |
| AuthController.AuthController.Login | auth-service/src/controllers/authController.js:52-91 | a failed credential check answers it and writes nothing; otherwise the raw session is written and 200 with token and public user returned; a store error gives 500 'Login failed' with the error's message and writes no session |
| AuthController.IssuedTokenRefusedByGate | auth-service/src/controllers/authController.js:73-76 | a freshly issued token that verifies to a payload carrying the user's id, and that was never added to the user's set, is refused by the auth-service gate with 401 'Token is invalid or expired' |
| AuthController.IssuedSessionUnreadable | auth-service/src/services/redisService.js:84-87 | getSession cannot parse the session the controller writes |
| AuthController.IssuedSessionStallsSweep | auth-service/src/services/redisService.js:306-321 | while that session lives, not every session value parses, so the sweep returns 0 |
| AuthController.UpdateProfileCheck | auth-service/src/controllers/authController.js:110-112 | 400 'Name is required' iff the name is missing or empty |
| AuthController.OldAvatarFilename | auth-service/src/controllers/authController.js:143-146 | only for a set avatar: the longest '/'-free suffix of it, preceded by '/' unless it is the whole value |
| TaskGate.Authenticate | task-service/src/middlewares/auth.js:5-30 | no bearer header gives 401 'No token provided'; any verify failure gives 401 'Invalid token'; otherwise always admitted, with the payload merged with the lookup answer (answer fields win) or the payload alone |
| TaskGate.RevokedTokenAdmitted | task-service/src/middlewares/auth.js:13-26 | a correctly signed blacklisted token is refused by the auth-service gate and admitted by the task-service gate |
| TaskGate.VerifyFailuresCollapse | task-service/src/middlewares/auth.js:27-29 | an expired and a badly signed token get the same answer here, while the auth-service gate tells them apart |
| SocketServer.CheckHandshake | task-service/src/sockets/socketServer.js:27-44 | a missing token and a failed verification are refused with their two messages; otherwise accepted with the payload's id and email |
| SocketServer.AfterConnect | task-service/src/sockets/socketServer.js:52-53 | the user maps to the socket and the socket to the user; every other user and socket keeps its entry and value; rooms are untouched |
| SocketServer.AfterAddTask | task-service/src/sockets/socketServer.js:163-168 | the user has an entry whose set gains the task; no other user changes |
| SocketServer.AfterRemoveTask | task-service/src/sockets/socketServer.js:170-174 | an unknown user leaves everything as it was; otherwise only that task leaves the user's set and the entry stays |
| SocketServer.AfterRemoveAll | task-service/src/sockets/socketServer.js:176-178 | the user's entry is gone; no other user changes |
| SocketServer.AfterDisconnect | task-service/src/sockets/socketServer.js:87-91 | the user's connection, the socket's user and the user's rooms are all gone; other users and sockets keep their entries and values |
| SocketServer.JoinAllAddsEach | task-service/src/sockets/socketServer.js:76-80 | joining a list adds exactly the listed tasks to the user's set; an empty list changes nothing |
| SocketServer.AddTaskIdempotent | task-service/src/sockets/socketServer.js:163-168 | adding a task twice is adding it once |
| SocketServer.LeaveKeepsEmptyEntry | task-service/src/sockets/socketServer.js:170-174 | joining then leaving a user's first task leaves an empty entry, not the earlier state |
| SocketServer.StaleDisconnectForgetsLiveUser | task-service/src/sockets/socketServer.js:48-91 | after a reconnect on a new socket, the old socket's disconnect removes the user from connectedUsers while the new socket still maps to the user |
| SocketServer.SocketRegistry.Connect | task-service/src/sockets/socketServer.js:52-53 | the maps become AfterConnect of the old ones |
| SocketServer.SocketRegistry.AddUserToTask | task-service/src/sockets/socketServer.js:163-168 | the maps become AfterAddTask of the old ones |
| SocketServer.SocketRegistry.RemoveUserFromTask | task-service/src/sockets/socketServer.js:170-174 | the maps become AfterRemoveTask of the old ones |
| SocketServer.SocketRegistry.RemoveUserFromAllTasks | task-service/src/sockets/socketServer.js:176-178 | the maps become AfterRemoveAll of the old ones |
| SocketServer.SocketRegistry.JoinTasks | task-service/src/sockets/socketServer.js:76-80 | the loop over the ids yields AfterJoinAll, addUserToTask applied to each id in order |
| SocketServer.SocketRegistry.Disconnect | task-service/src/sockets/socketServer.js:87-91 | the maps become AfterDisconnect of the old ones |
| SocketServer.SocketRegistry.GetUserTasks | task-service/src/sockets/socketServer.js:157-161 | [] for an unknown user; otherwise each of the user's tasks exactly once and nothing else |
| Cron.TodayRange | task-service/src/services/cronService.js:69-76 | today is a local midnight at or before now, tomorrow is exactly one day later and after now |
| Cron.TodayRangeUnique | task-service/src/services/cronService.js:69-76 | that midnight is the only one with those properties |
| Cron.NextRun | task-service/src/services/cronService.js:52-63 | a local 08:00 within the day after now; it falls today iff the local hour is before 8 |
| Cron.NextRunUnique | task-service/src/services/cronService.js:52-63 | it is the only local 08:00 in that day |
| Cron.DueTasks | task-service/src/services/cronService.js:104-136 | when a fetched task's populated owner is null, `task.user._id` throws and the catch answers no tasks at all; otherwise every fetched task, in order, with its title and its owner's id |
| Cron.OrphanedTaskSilencesDay | task-service/src/services/cronService.js:114-118 | one due task whose owner was deleted leaves the day with no owners, and the run's notified count equals its owner count, so the run counts as a success |
| Cron.OwnersExact | task-service/src/services/cronService.js:126-136 | the grouping's keys are exactly the owners present, each once |
| Cron.GroupOfExact | task-service/src/services/cronService.js:126-136 | a task is in its owner's group and no other, groups in input order |
| Cron.GroupSizesAddUp | task-service/src/services/cronService.js:126-136 | the group sizes add up to the number of tasks |
| Cron.GroupTasksByUser | task-service/src/services/cronService.js:126-136 | the loop builds keys in first-appearance order and, under each, that owner's tasks in input order |
| Cron.ReminderFor | task-service/src/services/cronService.js:144-160 | skipped iff the user is missing, has no email or has no tasks; otherwise sent to the email with the name or 'User' |
| Cron.UnknownOwnersNotNotified | task-service/src/services/cronService.js:205-214 | owners the user lookup did not return are never counted as notified |
| Cron.SendDailyReminders | task-service/src/services/cronService.js:177-250 | totalUsers is the number of owners of the due tasks; emailsSent equals usersNotified; no fetched task, or one whose owner was deleted, gives all zeros; errors is 0 iff every owner was notified; when the lookup's users all carry `_id`, each owner adds one to usersNotified or to errors; when one lacks it and there are owners, `toString` throws and the catch reports usersNotified 0 and errors 1 |
| Cron.CronService.constructor | task-service/src/services/cronService.js:14-44 | not running, all counters zero, nextRun computed at construction |
| Cron.CronService.CalculateNextRun | task-service/src/services/cronService.js:52-63 | sets nextRun to NextRun and nothing else |
| Cron.CronService.BeginRun | task-service/src/services/cronService.js:256-263 | when a run is in progress nothing changes; otherwise running, lastRun set and totalRuns one higher |
| Cron.CronService.FinishRun | task-service/src/services/cronService.js:269-296 | zero errors count a success, otherwise a failure; the email and user totals accumulate; nextRun recomputed; running cleared |
| Cron.CronService.ExecuteDailyReminders | task-service/src/services/cronService.js:255-297 | an overlapping call changes nothing; otherwise totalRuns one higher, success iff every owner of DueTasks was notified (ReportedNotified, 0 when the lookup answer lacks `_id`), totals grow by the notified count, running cleared; started runs are always counted once as success, failure or running |
| EmailRetry.DelayDoubles | task-service/src/utils/emailRetry.js:50-52 | the first backoff is retryDelay and each one doubles the previous |
| EmailRetry.ShippedBackoff | task-service/src/config/cron.js:29-33 | with the shipped settings the backoffs are 5000 ms then 10000 ms |
| EmailRetry.SendWithRetry | task-service/src/utils/emailRetry.js:19-43 | true iff one of the first maxRetries attempts succeeds; it stops at the first success; false only after exactly maxRetries attempts; at most maxRetries attempts; it sleeps CalculateDelay(k) after failed attempt k, never after the last attempt |
| EmailRetry.EachJobCountedOnce | task-service/src/utils/emailRetry.js:80-99 | every job counts once, as a success or as a logged failure |
| EmailRetry.SendBatch | task-service/src/utils/emailRetry.js:80-101 | one batch's jobs are sent in order and the counters and failure log extend accordingly |
| EmailRetry.ProcessBatch | task-service/src/utils/emailRetry.js:68-110 | successful + failed = total; errors.length = failed and lists the failing jobs in order; batches are consecutive slices of batchSize covering all jobs, the last possibly shorter; one pause between batches and none after the last |
| Upload.FileFilter | auth-service/src/middlewares/upload.js:8-22 | accepted iff the type is one of the four image types and the size, when known, is at most 5 MiB; a wrong type gets the type error, an allowed oversized file the size error |
| Upload.SizeBoundary | auth-service/src/middlewares/upload.js:16-19 | exactly 5 MiB is accepted, one byte more is not |
| Upload.TypeCheckedFirst | auth-service/src/middlewares/upload.js:10-19 | a wrong-type oversized file gets the type error |
| Upload.HandleUploadError | auth-service/src/middlewares/upload.js:37-50 | MulterError LIMIT_FILE_SIZE gives 400 'File too large. Maximum size is 5MB.', any other MulterError 400 'File upload error.'; another error mentioning 'Invalid file type' gives 400 with its message; anything else is passed on |
| Upload.TypeRejectionAnswered | auth-service/src/middlewares/upload.js:45-47 | any error whose message starts with 'Invalid file type' is answered with 400 and that message |
| Upload.TypeRejectionQualifies | auth-service/src/middlewares/upload.js:12 | the filter's type error message starts with 'Invalid file type' |
| Upload.SizeRejectionPassedOn | auth-service/src/middlewares/upload.js:45-49 | the filter's own size error is passed on, not answered |
| PasswordChange.FirstError | frontend/src/components/PasswordChangeForm.jsx:31-49 | each of the four messages appears iff its check is the first to fail, in the handler's order; blank checks trim, the length check uses the untrimmed UTF-16 length; none iff all pass |
| PasswordChange.HandleSubmit | frontend/src/components/PasswordChangeForm.jsx:23-74 | loading always ends false; the callback gets exactly current and new password iff validation passes; success resets all fields and sets the success message; a rejection shows err.message or 'Failed to change password' |
| PasswordChange.WhitespaceIsBlank | frontend/src/components/PasswordChangeForm.jsx:31-39 | a value of spaces only counts as missing |
| PasswordChange.LengthCountsSurroundingSpaces | frontend/src/components/PasswordChangeForm.jsx:41-44 | five spaces and a letter pass the length check though one character remains after trimming |
| PasswordChange.RejectedFormKeptAndNotSent | frontend/src/components/PasswordChangeForm.jsx:31-54 | a validation failure never reaches the callback and keeps the typed values |

## Left out

- **The Redis client and the network.** A store error is the `reachable` flag. In the sweep, `storeFails` also names the keys whose `GET` or `DEL` fails. A failure part-way through a pipeline is not modelled. Nor is the window between `SMEMBERS` and `EXEC` in invalidateAllSessions, where a token added concurrently would escape the blacklist. The model also does not cover `healthCheck`, which only pings.
- **Clock reads.** storeSession reads `Date.now()` twice; the model uses one clock value for both reads. The sweep reads the clock once per key; the model uses one clock value for the whole sweep.
- **Key expiry between calls.** A key that expires between `KEYS` and `GET` is not modelled.
- **Key order.** The order in which `KEYS` returns keys is left open: the sweep visits them in an arbitrary order.
- RedisStore.RedisService.CleanupExpiredSessions: the model uses one clock value for all writes and for the sweep. In the code, storeSession's `SETEX` starts the key's TTL when Redis receives it, after the client read `Date.now()`. During that round trip a live key's record can already hold expiresAt < now, and the sweep would delete it. `SweepIdleWhenTtlAgrees` holds only under the one-clock model.
- SocketServer.SocketRegistry.GetUserTasks: `Array.from` of a Set lists the tasks in insertion order. The model's result lists each task once but leaves the order open.
- Cron.NextRun: calculateNextRun reads `new Date()` twice (cronService.js:53-54). If the two reads straddle local midnight after 08:00, the code sets nextRun to 08:00 two days later. The model uses one clock value, so it cannot show this.
- Cron.CronService.CalculateNextRun: the same two clock reads; the model uses one.
- **JSON values.** Values are flat JSON objects whose fields are text. Field types, nesting and `JSON.stringify` of non-string values are not modelled.
- **Abstract libraries.** JWT signing and verification (including the configured expiry), bcrypt's `comparePassword` and the User model's hashing are abstract functions. The User model is not part of this model, so the email lookup is exact.
- AuthController.AuthController.Register: a database failure, which also ends in 500 'Registration failed' with its message, is not modelled; only the session-store failure is.
- AuthController.AuthController.Login: a database or bcrypt failure, which ends in 500 'Login failed' with its message, is not modelled; only the session-store failure is.
- **The rest of the controller.** getProfile, updateProfile's database update and uploadAvatar's image processing, deletion and save are not modelled. Their guards are.
- **The task-service user lookup.** The HTTP call is an input (`me`).
- **What the task-service gate's catch also catches.** Its catch also covers an exception thrown synchronously by `next()`, which would answer 401 'Invalid token'; that is not modelled.
- **Socket.io.** Room membership in the adapter, every emit and broadcast, getUsersInTask, getConnectedUsers and getStats are not modelled.
- **Task ids in rooms.** A client may emit any value as `taskId`, and a JavaScript Set keeps `5` and `"5"` apart. The model takes task ids to be strings (ObjectId text), so it cannot tell such values apart.
- **Socket user ids.** A payload without `id` gives the user key `None`, as `undefined` would be.
- **Time zone.** Local time is a fixed offset from UTC, so daylight-saving shifts are not modelled. calculateNextRun uses the process's local time, not the scheduler's configured time zone.
- **Task queries and scheduling.** The task query is not modelled: the tasks it fetches, each with its populated owner or none, are an input. node-cron scheduling, start/stop, triggerManually, getStats and getHealthStatus are not modelled either.
- Cron.CronService.FinishRun: averageExecutionTime, a floating-point running mean, is not modelled; nor is successRate's `toFixed`.
- Cron.CronService.ExecuteDailyReminders: the catch that counts a failed run is not modelled. sendDailyReminders catches its own errors, and recomputing the next run does not throw.
- Cron.SendDailyReminders: the per-user sends run one after another, not concurrently through `Promise.allSettled`. The counters are updated on one event-loop thread, so they are the same. The fetched tasks, the lookup's returned users and each owner's send outcome are inputs. Whether some returned user lacks `_id` is an input; the outer catch is modelled for the throw that causes, the only one that reaches it. A failing task query never reaches that catch: getAllTasksDueToday answers `{}`, which is the model's empty fetched list. A failing user lookup never reaches it either: getUserById and getUsersByIds answer null or `[]`, so the owner is absent from the returned users. Object key order is insertion order here because task owners are ObjectId strings, never array-index keys.
- EmailRetry.ProcessBatch: jobs inside a batch are sent one after another, not concurrently. The `catch` branch is not modelled because sendWithRetry never throws. Sleeping is returned as a pause count; it is not performed.
- EmailRetry.SendWithRetry: sleeps are returned as a list, not performed. The email function is an outcome per attempt number.
- **The rest of the password form.** Rendering, the change handler and the 3-second timer that clears the success message are not modelled.
