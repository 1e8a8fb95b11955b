# Model of vibe-terminal

vibe-terminal lets a browser use shells and files on remote devices: a Go server keeps accounts and sessions, a Rust
agent on each device runs the shells, a TypeScript page shows them. This project models the protocols in it whose
guarantees hold over whole runs, and proves those guarantees:

- **Two-factor login** (`two_factor_store`, `two_factor_runs`, `two_factor_laws`, `totp`, `login_challenge`). The tables
  and every transaction on them, the one-time codes of RFC 4226 and RFC 6238, and the login challenge tokens.
- **Failure limiter and key locks** (`limiter`, `limiter_runs`, `limiter_laws`, `management_locks`,
  `management_limits`). A bounded cache that answers like an unbounded one, the locks that make check-then-record
  atomic, but for one clearing outside them, without deadlock, and the bound on wrong credentials that both give
  together.
- **File transfer** (`upload_manager`, `upload_laws`, `upload_protocol`, `upload_progress`, `download`, `requests`,
  `request_laws`). Atomic replacement from request body to disk under lost messages, timeouts, disk errors and cleanup;
  reassembly of downloads; matching of replies.
- **Terminal output** (`pty_output`, `pty_output_runs`, `pty_output_laws`, `terminal_pane`, `terminal_pane_runs`,
  `terminal_pane_laws`). From one event channel to numbered frames per session, and the browser's merge of replayed
  history with live frames.
- **Sessions** (`sessions`, `session_runs`, `session_laws`). Reconciliation of the session table with what agents
  report, and all interleavings of the handlers at the granularity of single calls to the store and the hub.
- **Request bodies** (`json_scanner`). The scanner that refuses repeated fields, against a grammar of JSON values.

Operations that change state are classes and loops; each is proved against a function of the old state, and the
theorems speak about runs of these functions (`IsRun`), in any order and interleaving. The `_laws` files say over
whole runs, from the operations alone, what each operation answers and what it leaves alone. Clocks are integers that
callers pass in. HMAC, decryption, hashing and text trimming are parameters.

`dafny verify dfyconfig.toml` checks the project.

## What turned out not to hold

The code falls short of a property one would expect in these places. Each has a concrete run or state, and a theorem
that says exactly when the property holds.

- *The last output of a shell can be lost.* If another session's read takes its end out of the channel, what was set
  aside for it is never sent (`LastOutputCanBeLost`, `WholeOutputArrives`).
- *Live frames can be shown out of order.* `restoring` is cleared before the queue is written out
  (`LiveFrameCanOvertake`, `OrderKeptUnlessOvertaken`). Nothing is lost or doubled.
- *A close can be undone by output that was being handled.* The status is read, the session closed, the old status
  written (`OutputCanUndoClose`, `ClosedStaysClosed`).
- *A route can lead to the wrong device.* A failed insert is ignored and the route bound all the same
  (`TwoSyncsCanMisroute`, `RoutesFollowOwners`).
- *Collecting expired challenges can be noticed.* A login whose clock was read a second or more before a creation, but
  which reaches the database after it, finds its last-instant challenge gone (`EarlyClockSeesCollection`,
  `NoticedAFullSecondEarly`, `CollectionShowsExactly`).
- *An upload can be answered as written and not be stored, or not stay stored.* Sent to the name of its own temporary
  file it is removed; if another upload is committed onto its temporary path, that one's bytes are stored in its place;
  and one sent to another's temporary path is taken away when that other upload ends (`TemporaryTargetLosesTheFile`,
  `OverlaidUploadStoresAnother`, `StoredUploadCanVanish`; `WrittenIsStoredExactly`, `WrittenStaysExactly`).
- *With more failing keys than its capacity the limiter can forget a block* (`OneKeyTooManyForgetsABlock`,
  `CapacityIsExact`).
- *A setup request can clear failures between another request's limiter check and its recorded failure*, which then
  counts as the first. It clears after giving its locks back (`SetupClearsInBetween`, `ClearingUndoesTheThreshold`,
  `CheckAndRecordAreAtomic`, `CheckTellsUndisturbed`).
- The challenge lifetime is called five minutes. Both ends are cut to whole seconds, so it is more than 299 and at most
  300 seconds (`IssuedChallengeLifetime`).

## Model

| member | source | states |
|---|---|---|
| `TwoFactorTables.Store.CreateLoginChallenge` | server/internal/store/store.go:315-346 | removes at most 100 expired rows, those that expired first, and the user's open challenges, then inserts; an unknown user or a taken jti changes nothing |
| `TwoFactorTables.Store.ConsumeLoginSecondFactor` | server/internal/store/store.go:349-410 | outcome and whole new database; every refusal, in the order the code looks, leaves all tables as they were, the challenge included |
| `TwoFactorTables.Store.SavePendingTwoFactor` | server/internal/store/store.go:413-431 | a pending row may be overwritten and keeps its creation time, an enabled one never |
| `TwoFactorTables.Store.SavePendingTwoFactorIfUnchanged` | server/internal/store/store.go:434-457 | succeeds only over the configuration id that was observed, or over no row when none was |
| `TwoFactorTables.Store.InsertRecoveryCodes` | server/internal/store/store.go:1085-1095 | succeeds exactly if no row of the batch breaks a key, and then has inserted all of them |
| `TwoFactorTables.Store.EnableTwoFactor` | server/internal/store/store.go:506-530 | confirms an unexpired pending configuration, sets the counter and replaces all codes, or changes nothing |
| `TwoFactorTables.Store.ConsumeTOTPCounter` | server/internal/store/store.go:532-541 | accepts only a counter above the stored one of the enabled configuration |
| `TwoFactorTables.Store.ConsumeRecoveryCode` | server/internal/store/store.go:543-550 | accepts only an unused code of the user and marks it |
| `TwoFactorTables.Store.ReplaceRecoveryCodesAfterTOTP` | server/internal/store/store.go:576-621 | rotation is all or nothing, and its last conflict fallback is never reached |
| `TwoFactorTables.Store.DisableTwoFactor` | server/internal/store/store.go:624-641 | removes an enabled configuration with all codes; otherwise even the deleted codes come back |
| `TwoFactorTables.CollectExpired` | server/internal/store/store.go:327-335 | the collected rows are the first 100 in (expiry, jti) order, all of them if there are fewer |
| `TwoFactorTables.BatchFits` | server/internal/store/store.go:1085-1095 | a batch of codes is inserted whole if and only if its ids and hashes are pairwise distinct and none is taken |
| `TwoFactorRuns.ChallengeIsSingleUse` | server/internal/store/store.go:362-371 | two logins with one jti are separated by a creation of that jti, in every run |
| `TwoFactorRuns.NoChallengeLogsInTwice` | server/internal/store/store.go:362-371 | with fresh ids no challenge completes a login twice |
| `TwoFactorRuns.AcceptedCountersIncrease` | server/internal/store/store.go:385-393 | section 5.2 of RFC 6238: counters accepted under one configuration by enabling, login, rotation and plain use strictly increase |
| `TwoFactorRuns.NoCounterIsReused` | server/internal/store/store.go:385-393 | the same from an empty database with fresh configuration ids, without any proviso |
| `TwoFactorRuns.EnabledOnce` | server/internal/store/store.go:514-521 | a configuration is confirmed at most once unless it is saved again |
| `TwoFactorRuns.AcceptancesBoundedByTime` | server/internal/store/store.go:584-588 | with clocks in [t0, t1] and counters that matched codes at these clocks, at most t1/30 - t0/30 + 3 codes are accepted under a configuration that is not saved again between acceptances |
| `TwoFactorRuns.FewCodesAreAccepted` | server/internal/auth/totp.go:57-66 | the same bound from an empty database with fresh configuration ids, the run that saves and confirms the configuration included |
| `TwoFactorRuns.CommitUsesTheSecretThatWasChecked` | server/internal/httpapi/router_2fa.go:389-476 | a commit that succeeds under the configuration a handler read was checked against the secret stored at that moment |
| `TwoFactorRuns.RecoveryCodeIsSingleUse` | server/internal/store/store.go:395-401 | two acceptances of a recovery code are separated by issuing it again |
| `TwoFactorRuns.NoRecoveryCodeIsReused` | server/internal/store/store.go:543-550 | with codes never issued twice, none is accepted twice, across login and plain use |
| `TwoFactorRuns.CodesStayWithEnabledUsers` | server/internal/store/store.go:624-641 | in every reachable state recovery codes belong to users with an enabled configuration |
| `TwoFactorRuns.StatusIsExact` | server/internal/store/store.go:553-574 | the joined status query equals the enabled flag and the plain count of unused codes in every reachable state |
| `TwoFactorRuns.OneAuditRowPerLogin` | server/internal/store/store.go:403-408 | the audit table grows by exactly one row per successful audited login and keeps every row |
| `TwoFactorRuns.OneOpenChallenge` | server/internal/store/store.go:336-340 | after a creation the user has at most one redeemable challenge at all later times |
| `TwoFactorRuns.CollectionIsUnobservable` | server/internal/store/store.go:327-335 | a run with collection and one without give every transaction the same outcome if no login reads a clock earlier than a creation before it and no creation draws a jti that it or an earlier one collected |
| `TwoFactorRuns.CollectionShowsExactly` | server/internal/store/store.go:327-371 | over whole runs, with and without collection, all outcomes agree if and only if no login presents a row that an earlier creation collected, that its own clock still finds open and that the other checks let through, and no creation draws the jti of such a row |
| `TwoFactorRuns.HiddenWasCollected` | server/internal/store/store.go:327-335 | a row that only collection has removed was collected as expired by an earlier creation, unchanged |
| `TwoFactorRuns.EarlyClockSeesCollection` | server/internal/store/store.go:327-335 | for every login clock a full second or more before a whole-second creation clock, a run in which a valid login is refused |
| `TwoFactorRuns.NoticedAFullSecondEarly` | server/internal/auth/challenge.go:123-130 | with creation and expiry on whole seconds no smaller difference of clocks is ever noticed |
| `TwoFactorRuns.OneSavePerObservedConfiguration` | server/internal/store/store.go:434-457 | of all saves that observed one configuration id a second succeeds only after that id was saved again |
| `TwoFactorRuns.TwoFirstSavesNeedDisable` | server/internal/httpapi/router_2fa.go:80-113 | two saves that both observed no configuration have a disable between them |
| `TwoFactorLaws.OthersKeepTheirs` | server/internal/store/store.go:506-641 | in every run, whatever is done for other users, a user's configuration and recovery codes stay as they are |
| `TwoFactorLaws.LoginAnswer` | server/internal/store/store.go:349-410 | over whole runs from an empty database, told from the transactions alone: a login succeeds if and only if it brings one credential, its challenge was created for this user and configuration, not consumed, displaced or collected since, and is not past the expiry that creation gave it, the configuration was saved last and confirmed and not disabled since, the credential is a counter above all accepted under it or a code that can be used, and its audit id is new; otherwise the answer names the first that is missing |
| `TwoFactorLaws.CounterAnswer` | server/internal/store/store.go:532-541 | the same law for rotation and plain use of a counter, with the answer of each refusal: any counter above all accepted since the configuration in force was saved, and for rotation a batch that fits |
| `TwoFactorLaws.EnableAnswer` | server/internal/store/store.go:506-530 | a setup is confirmed if and only if it is the user's last save, neither confirmed nor disabled since, before the expiry it was saved with, and the batch of codes fits |
| `TwoFactorLaws.SpendOrDisableAnswer` | server/internal/store/store.go:543-550 | plain use takes exactly the codes that can be used; disabling succeeds exactly while a confirmed configuration is in force |
| `TwoFactorLaws.SaveAnswer` | server/internal/store/store.go:413-457 | a setup is saved exactly over none, for a known user, or over the user's pending one: any, or in the conditional form the one observed |
| `TwoFactorLaws.FreshChallengeIsCreated` | server/internal/store/store.go:315-346 | a challenge with an id never drawn before is created for exactly the known users |
| `TwoFactorLaws.OpenRowIsAsCreated` | server/internal/store/store.go:315-346 | a challenge neither consumed nor removed has exactly the user, configuration, expiry and creation time it was created with |
| `TwoFactorLaws.CurrentSaveIsStored` | server/internal/store/store.go:413-457 | the user's last save is what is stored: its configuration, secret and expiry, confirmed or not, with the highest counter accepted since |
| `TwoFactorLaws.UsableExactly` | server/internal/store/store.go:395-401 | a recovery code can be used if and only if the user's last successful confirmation or rotation issued it, no disable followed, and no successful login or plain use of the user has presented it since |
| `TwoFactorLaws.CountIsOfUsableCodes` | server/internal/store/store.go:553-574 | the count of codes is the number of different codes that can be used in that sense |
| `TwoFactorLaws.ConsumedWhen` | server/internal/store/store.go:362-371 | a consumed challenge carries the clock of the successful login that consumed it |
| `TwoFactorLaws.SpentWhen` | server/internal/store/store.go:543-550 | a used code carries the clock of the successful login or plain use that presented it |
| `Totp.PutUint64` | server/internal/auth/totp.go:70-71 | the filled buffer is the big-endian form of the counter |
| `Totp.BigEndianRoundTrip` | server/internal/auth/totp.go:70-71 | distinct counters make distinct messages |
| `Totp.RfcExample` | server/internal/auth/totp.go:74-78 | the worked example of section 5.4 of RFC 4226 comes out as 872921 |
| `Totp.WordMaskIsRfc` | server/internal/auth/totp.go:76-77 | masking the 32-bit word is the dynamic truncation of section 5.3 of RFC 4226 |
| `Totp.HotpCode` | server/internal/auth/totp.go:69-79 | six decimal digits whose value is HOTP as section 5.3 of RFC 4226 defines it, for any MAC of 20 bytes |
| `Totp.DecimalValueInjective` | server/internal/auth/totp.go:62-64 | comparing the texts of codes is comparing their values |
| `Totp.MatchTotp` | server/internal/auth/totp.go:40-67 | the earliest matching step within one of the clock, none before the epoch, and no match only if no step matches |
| `Totp.WindowIsNinetySeconds` | server/internal/auth/totp.go:56-61 | from the epoch on a counter can match from 30 seconds before its step until 30 seconds after it, and at no other time |
| `Totp.VerifyLoginCode` | server/internal/httpapi/router_2fa.go:495-520 | six characters after trimming are a TOTP code, accepted exactly if some step in the window matches and then with the earliest; everything else is a recovery code |
| `LoginChallenges.IssuedChallengeLifetime` | server/internal/auth/challenge.go:123-130 | a token verifies at once, for at least 299 seconds, and never after 300 |
| `LoginChallenges.IssuedVerifiesExactly` | server/internal/auth/challenge.go:147-194 | at any clock a challenge yields exactly its jti, user, configuration and times, from a minute before its second of issue until 300 seconds after it, and nothing at any other |
| `LoginChallenges.TokenAndRowAgree` | server/internal/auth/challenge.go:147-194 | at every later instant the token verifies exactly when its unconsumed row can be redeemed |
| `FailureLimits.FailureLimiter.constructor` | server/internal/auth/limiter.go:27-53 | a capacity below one becomes one |
| `FailureLimits.FailureLimiter.Allow` | server/internal/auth/limiter.go:55-77 | answer and new table; only the asked key changes |
| `FailureLimits.FailureLimiter.RecordFailure` | server/internal/auth/limiter.go:79-108 | answer and new entry, and among the other keys only what eviction may take is gone |
| `FailureLimits.FailureLimiter.Success` | server/internal/auth/limiter.go:112-117 | forgets exactly the key |
| `FailureLimits.FailureLimiter.Evict` | server/internal/auth/limiter.go:119-147 | terminates; drops all stale entries and beyond them only least recently seen ones, as many as make room |
| `FailureLimitRuns.Perform` | server/internal/auth/limiter.go:55-147 | each method call is one step of the runs below |
| `FailureLimitRuns.EntriesAreFailedKeys` | server/internal/auth/limiter.go:119-147 | in every run the entries are at most the capacity and come from recorded failures only |
| `FailureLimitRuns.CacheAnswersAsReference` | server/internal/auth/limiter.go:55-147 | on any run in which each recorded failure finds fewer than maxEntries live entries of other keys, every answer is that of a limiter that never evicts |
| `FailureLimitRuns.CapacityIsExact` | server/internal/auth/limiter.go:55-147 | for every settings and set of keys: all runs failing for these keys only are answered as without eviction if and only if the keys are at most maxEntries |
| `FailureLimitRuns.OneKeyTooManyForgetsABlock` | server/internal/auth/limiter.go:134-146 | for every settings, and every set of keys larger than the capacity, a run at one clock reading after which a blocked key is allowed |
| `FailureLimitRuns.BlockedOnlyAfterBurst` | server/internal/auth/limiter.go:64-108 | on all runs a key is blocked only if maxFailures of its failures, no success among or after them, fell in one window that ended less than blockFor ago; the wait is exact |
| `FailureLimitRuns.BlocksAtTheThreshold` | server/internal/auth/limiter.go:93-108 | failures in one window pass up to maxFailures - 1; that one and all later ones block for the full time |
| `FailureLimitRuns.ClearingUndoesTheThreshold` | server/internal/auth/limiter.go:93-117 | a clearing just before the failure that would block makes it count as the first |
| `FailureLimitRuns.AllowLoginAttempt` | server/internal/httpapi/router.go:318-331 | the wait over several keys is exact: all are allowed from its end on and not before |
| `FailureLimitRuns.RetryAfterIsLeast` | server/internal/httpapi/router.go:300-307 | Retry-After is the least number of whole seconds, at least one, after which all keys are allowed |
| `FailureLimitLaws.BlockedExactly` | server/internal/auth/limiter.go:55-108 | told from the calls alone: failures fall into windows, each opened by the first failure outside the one before; on every run with room for the live entries a key is blocked if and only if, for `blockFor` from then on, a failure was at least the `maxFailures`-th of its window and was not cleared, and the wait ends with the last such block |
| `FailureLimitLaws.LastSeenIsLastUse` | server/internal/auth/limiter.go:55-108 | in every run an entry's time is that of the key's last call |
| `FailureLimitLaws.EvictedWasOldest` | server/internal/auth/limiter.go:119-147 | a key loses its entry to another's failure only if it is stale or was last used no later than any that stays |
| `ManagementLocks.ManagementLockIndexes` | server/internal/httpapi/router_2fa.go:360-373 | the list is ascending, without duplicates, below 256, and has exactly the locks of the keys |
| `ManagementLocks.FnvExamples` | server/internal/httpapi/router_2fa.go:363-365 | the hash gives the published FNV-1a values of the empty key and of "foobar" |
| `ManagementLocks.InvHolds` | server/internal/httpapi/router_2fa.go:348-358 | in every interleaving a lock is held by exactly the request that owns it, and a request in its section holds all its locks |
| `ManagementLocks.SomeoneCanStep` | server/internal/httpapi/router_2fa.go:348-358 | following waiters to owners climbs the indexes and ends at a request that can step |
| `ManagementLocks.NoDeadlock` | server/internal/httpapi/router_2fa.go:348-358 | in every reachable state with an unfinished request some unfinished request can step |
| `ManagementLocks.RunsEnd` | server/internal/httpapi/router_2fa.go:348-358 | once arrivals stop only a bounded number of events can follow, whatever the interleaving |
| `ManagementLocks.AllCanFinish` | server/internal/httpapi/router_2fa.go:348-358 | every run can be carried on, without arrivals, until all requests have finished |
| `ManagementLocks.SectionsExclude` | server/internal/httpapi/router_2fa.go:327-342 | two requests sharing a key are never both between the limiter check and the end of the section |
| `ManagementLocks.CheckAndRecordAreAtomic` | server/internal/httpapi/router_2fa.go:327-342 | between a request's limiter check and its recorded failure no request with a key in common asks, records or clears, if and only if no setup request with a key in common clears there after giving its locks back |
| `ManagementLocks.CheckTellsUndisturbed` | server/internal/httpapi/router_2fa.go:327-342 | right after its check: whatever follows, a request records its failure undisturbed if and only if no other request with a key in common owes a late clearing |
| `ManagementLocks.SameUserSharesKey` | server/internal/httpapi/router_2fa.go:344-346 | requests for one user or from one source address have a key in common |
| `ManagementLocks.SharesKeyExactly` | server/internal/httpapi/router_2fa.go:344-346 | two requests have a key in common if and only if they are for one user, or from one address, or user and address joined by a bar read alike |
| `ManagementLocks.StrangersShareNoKey` | server/internal/httpapi/router_2fa.go:344-346 | different users, whose ids hold no bar, from different addresses share none |
| `ManagementLocks.SetupClearsInBetween` | server/internal/httpapi/router_2fa.go:74-118 | for every key list, a run in which a setup request clears between another request's check and record |
| `ManagementLimits.BlockStands` | server/internal/httpapi/router_2fa.go:327-342 | in every interleaving without a late clearing of the key, a block stands for its time and nobody goes by a check made before it |
| `ManagementLimits.NothingIsRecordedWhileBlocked` | server/internal/httpapi/router_2fa.go:335-342 | once a recorded failure has reached the threshold, no wrong credential is recorded for the key until the block has passed |
| `ManagementLimits.AtMostMaxFailures` | server/internal/auth/limiter.go:93-108 | however many requests are under way, a window takes at most maxFailures wrong credentials for a key, and then every check for it is refused for as long as a block lasts |
| `UploadManagers.UploadManager.OpenUpload` | agent/src/fs.rs:214-262 | reply and whole new state, every refusal included; a replaced upload loses its temporary file |
| `UploadManagers.UploadManager.WriteChunk` | agent/src/fs.rs:264-300 | only the expected offset is taken; any error forgets the upload and its file |
| `UploadManagers.UploadManager.CloseUpload` | agent/src/fs.rs:302-325 | only the declared size is renamed into place; the temporary file is gone on every path |
| `UploadManagers.UploadManager.Abort` | agent/src/fs.rs:327-330 | forgets one upload and its temporary file |
| `UploadManagers.UploadManager.CleanupStale` | agent/src/fs.rs:332-343 | forgets exactly the stale uploads and counts them |
| `UploadManagers.TemporaryHoldsAccepted` | agent/src/fs.rs:264-300 | in every run, to any targets, a live upload has written exactly its acknowledged chunks into its own file, and its temporary path names that file as long as no other upload was committed onto the path |
| `UploadManagers.OnlyWholeUploadsAppear` | agent/src/fs.rs:302-325 | in every run, to any targets, the disk, own unfinished files aside, changes at a path in two ways only: a successful close to it puts all the acknowledged chunks of one successfully closed upload there, of its declared size, or another upload's temporary path that had been committed onto is emptied when that upload ends |
| `UploadManagers.NoTemporaryIsLeftBehind` | agent/src/fs.rs:190-195 | in every run the names on the disk are those at the start, the targets of successful closes that were not temporary paths in use at that moment, and one temporary file for each live upload; dropping the manager leaves no temporary file |
| `UploadManagers.WrittenIsStoredExactly` | agent/src/fs.rs:302-325 | right after a close answered as written, the upload's own file, with its acknowledged chunks, is at the target if and only if the target is not its own temporary path and no other upload was committed onto that path while it was live |
| `UploadManagers.WrittenStaysExactly` | agent/src/fs.rs:302-325 | it is there and stays, whatever follows, until an upload is committed to the target, if and only if the target was no temporary path in use and no other upload was committed onto its own |
| `UploadManagers.StoredStaysExactly` | agent/src/fs.rs:190-195 | in any state a file stays, whatever follows, until an upload is committed to its path, if and only if the path is not a temporary path in use |
| `UploadManagers.TemporaryTargetLosesTheFile` | agent/src/fs.rs:190-195 | a run in which an upload to its own temporary name is answered as written and the file is gone |
| `UploadManagers.OverlaidUploadStoresAnother` | agent/src/fs.rs:236-262 | a run in which an upload to another's temporary path makes that one store the wrong bytes |
| `UploadManagers.StoredUploadCanVanish` | agent/src/fs.rs:190-195 | a run in which a stored upload's file is taken away again with no upload committed to its path |
| `UploadManagers.ApartRunsStay` | agent/src/fs.rs:214-262 | if no open brings a target together with a temporary path in use, no upload is ever overlaid or targets its own temporary path |
| `UploadLaws.OpenAnswer` | agent/src/fs.rs:214-262 | stated on the disk: an open is answered as opened if and only if its path lies in a directory, is none itself, has no name unless overwriting was asked for, and the temporary name beside it is free; otherwise with the error of the first that fails |
| `UploadLaws.LiveExactly` | agent/src/fs.rs:190-343 | in every run an upload is live if and only if it was opened and since then not closed, refused no chunk, was not idle for `maxAge` at a cleanup, and the connection stayed |
| `UploadLaws.WriteAnswer` | agent/src/fs.rs:264-300 | in every run a chunk is taken if and only if its upload is live, the chunk follows on from those acknowledged, and the write succeeds; the answer is the new length or the first error |
| `UploadLaws.CloseAnswer` | agent/src/fs.rs:302-325 | in every run a close succeeds if and only if the upload is live, its acknowledged chunks have the declared size, the disk works, and the target it was opened for is no directory |
| `UploadLaws.CleanupTakesStale` | agent/src/fs.rs:332-343 | a cleanup ends exactly the uploads opened or last written `maxAge` ago or longer; one written to more recently goes on |
| `UploadLaws.CommittedAsOpened` | agent/src/fs.rs:239-244 | a file put in place was opened for that path; if opened without overwriting, the path had no name on the disk then |
| `UploadLaws.NothingIsReplacedUnasked` | agent/src/fs.rs:239-244 | a close of an upload opened without overwriting replaces nothing but what another upload stored there in between |
| `UploadProtocol.StepKeepsWorldOk` | server/internal/files/service.go:135-188 | every send, delivery, loss, timeout, cleanup and disconnect keeps server and agent in step, to whatever targets |
| `UploadProtocol.OldOrWholeBody` | server/internal/files/service.go:135-188 | at every moment each path, own unfinished files aside, holds its bytes from the start or the whole body, of the declared size, of one committed upload: one to that path, if no delivered open brought a target together with a temporary path in use |
| `UploadProtocol.IncompleteBodyIsNeverStored` | server/internal/files/service.go:176-181 | a short, long or broken body is never committed and never reported as stored |
| `UploadProtocol.CommitHappened` | agent/src/fs.rs:302-325 | every committed upload went through one delivered close, right after which its whole body was at its target, unless that was its own temporary path or another upload had been committed onto it |
| `UploadProtocol.SuccessMeansStored` | server/internal/files/service.go:182-188 | a success return means that a whole body of the declared size was committed, and put at the target with the same exceptions; with targets and temporary paths kept apart it is still there if no other upload has the target |
| `UploadProtocol.Upload` | server/internal/files/service.go:135-188 | the loop against the agent class, in any state of it, temporary paths in use aside: the target replaced whole or nothing changed, success only if replaced (or emptied, at the name of its own temporary file); undisturbed, the result is decided by disk and body, and nothing stays live at the agent, after a truncated body as well, unless the reader failed |
| `UploadProgress.UploadReturns` | server/internal/files/service.go:135-188 | in every reachable state, whatever other uploads do, an upload whose open is on its way returns if its exchanges are left undisturbed: refused, stored, truncated or broken as disk and body say |
| `UploadProgress.GivingUpReturns` | server/internal/files/service.go:216-243 | a server that gives up returns at once: as truncated if it was closing a truncated body, else as having given up |
| `UploadProgress.DroppedIsNeverStored` | agent/src/fs.rs:327-343 | an upload that a disconnect, a cleanup or an error ends at the agent is never stored nor reported as stored, whatever was on its way |
| `Downloads.ReadChunk` | agent/src/fs.rs:140-178 | a reply is the whole slice, end of file exactly when it is short, however short the single reads are |
| `Downloads.Download` | server/internal/files/service.go:98-133 | terminates; what is written is a prefix of the file; complete only with the whole file, the size reported once, in size/chunk + 1 rounds; it ends short only if contact, disk or writer fail, and of what is no regular file it says why |
| `RequestCorrelation.InvHolds` | server/internal/files/service.go:216-243 | in every interleaving a request is in the table, or its reply is on its way, or in the channel, or settled |
| `RequestCorrelation.PostNeverBlocks` | server/internal/files/service.go:66-81 | handing a reply to the channel of capacity one never blocks |
| `RequestCorrelation.ReplyReachesItsCaller` | server/internal/files/service.go:66-81 | a caller only gets the reply with its own request id |
| `RequestCorrelation.NothingFinishedStaysPending` | server/internal/files/service.go:216-243 | a request that returned, by whatever way, is not left in the table |
| `RequestCorrelation.AtMostOneReplyMatches` | server/internal/files/service.go:66-81 | of all replies with one id at most one is ever matched |
| `RequestLaws.MatchedExactly` | server/internal/files/service.go:66-81 | a reply is matched if and only if its request was registered and since then no reply with its id came in, its sending did not fail and it was not cleaned up |
| `RequestLaws.AnswerWasMatched` | server/internal/files/service.go:216-243 | what a caller is given is the first reply with its id, received while it was awaited |
| `RequestLaws.MatchedReachesItsCaller` | server/internal/files/service.go:216-243 | as long as the caller waits, a matched reply becomes its answer with the handler's step, if still to come, and its own |
| `RequestLaws.GivingUpIsFinal` | server/internal/files/service.go:224-241 | a caller whose time is up, or whose request could not be sent, is given no reply any more |
| `RequestLaws.CleanedUpHasReturned` | server/internal/files/service.go:224-241 | once its request is cleaned up it has returned for good |
| `RequestCorrelation.Correlator.HandleAgentResponse` | server/internal/files/service.go:66-81 | consumes exactly the replies someone waits for and puts each into its own, empty channel |
| `RequestCorrelation.Correlator.Forget` | server/internal/files/service.go:224-241 | the cleanup after a failed send, a timeout or a cancellation takes the request out of the table and changes nothing else |
| `RequestCorrelation.Service.Acquire` | server/internal/files/service.go:197-205 | busy exactly when the device has the most operations it may have; the count equals the running operations |
| `RequestCorrelation.Service.Release` | server/internal/files/service.go:207-214 | gives back one operation; a device without any has no entry |
| `PtyOutput.OutputBuffer.Push` | agent/src/buffer.rs:25-36 | numbers the frame and evicts from the front down to the capacity |
| `PtyOutput.PushRemembers` | agent/src/buffer.rs:25-36 | the buffer holds the last frames of all ever pushed, numbered without gap |
| `PtyOutput.FramesSinceIsSuffix` | agent/src/buffer.rs:38-44 | `frames_since` is the matching suffix of everything pushed, as far back as the buffer goes |
| `PtyOutput.PtyManager.ReadAvailable` | agent/src/pty_manager.rs:141-173 | error without a session; else all that waited for it, with the rest of the channel set aside and exits noted |
| `PtyOutput.PtyManager.DrainExited` | agent/src/pty_manager.rs:175-194 | empties the channel and hands out each noted exit once |
| `PtyOutput.PtyManager.Close` | agent/src/pty_manager.rs:196-201 | takes the session out of the table and leaves what its reader still sends |
| `PtyOutput.ReceivedText` | agent/src/pty_manager.rs:152-171 | setting events aside keeps each session's text complete and in order |
| `PtyOutput.FlushOutputs` | agent/src/client.rs:268-292 | visits every buffered session once, skips those without a session or output |
| `PtyOutputRuns.FlushAllIsFlushes` | agent/src/client.rs:268-292 | one flush of all sessions is a run of single ones |
| `PtyOutputRuns.StepKeepsOk` | agent/src/pty_manager.rs:141-202 | every start, output, exit, flush, drain and close keeps text, numbers and buffers consistent |
| `PtyOutputRuns.NumberedWithoutGap` | agent/src/buffer.rs:25-36 | the frames sent for a session are numbered 1, 2, 3 and so on in every run |
| `PtyOutputRuns.NothingLostOrMixed` | agent/src/pty_manager.rs:141-173 | delivered, set aside and channel together are exactly what the reader produced; delivered is a prefix |
| `PtyOutputRuns.BufferHoldsTheLastFrames` | agent/src/buffer.rs:25-44 | a session's buffer is the last 1024 frames sent for it, and replays the matching suffix |
| `PtyOutputRuns.NoOutputAfterExit` | agent/src/client.rs:168-232 | nothing is sent for a session after its end was announced |
| `PtyOutputLaws.EndIsAnnouncedOnce` | agent/src/client.rs:203-232 | after a drain the end of a session has been announced once for each time it was closed and once more if it ended by itself; one never closed exactly once if its reader has finished, else not at all |
| `PtyOutputLaws.BufferedExactly` | agent/src/client.rs:168-232 | a session has a buffer exactly from its start until its end is announced |
| `PtyOutputRuns.FlushCatchesUp` | agent/src/client.rs:268-292 | reading a live session delivers all its reader has said so far |
| `PtyOutputRuns.WholeOutputArrives` | agent/src/pty_manager.rs:165-194 | a shell that ends by itself has its whole output delivered if and only if the end is noticed by its own read or nothing of it was waiting |
| `PtyOutputRuns.LastOutputCanBeLost` | agent/src/client.rs:203-232 | a run of two shells in which the last output of one is never sent |
| `TerminalPanes.TerminalPane.OnHistory` | web/src/components/TerminalPane.tsx:60-69 | the restoring function up to its first await |
| `TerminalPanes.TerminalPane.OnHistoryError` | web/src/components/TerminalPane.tsx:70-83 | without history the queue is written from the start |
| `TerminalPanes.TerminalPane.OnWritten` | web/src/components/TerminalPane.tsx:65-83 | the restoring function from one await to the next, in replay and in flush |
| `TerminalPanes.TerminalPane.FlushPending` | web/src/components/TerminalPane.tsx:76-83 | writes the next queued frame above the mark, or ends the flush |
| `TerminalPanes.TerminalPane.OnStdout` | web/src/components/TerminalPane.tsx:163-172 | queues while restoring, afterwards writes what is above the mark |
| `TerminalPanes.TerminalPane.OnUnmount` | web/src/components/TerminalPane.tsx:205-212 | only the flag is set; what the flag changes is in the other steps |
| `TerminalPanes.AboveIncreasing` | web/src/components/TerminalPane.tsx:76-83 | of increasing frames those above a mark are increasing, and are exactly these |
| `TerminalPaneRuns.FlushNext` | web/src/components/TerminalPane.tsx:76-83 | the queued frames are written one after the other although live frames move the mark meanwhile |
| `TerminalPaneRuns.ReceiveWrites` | web/src/components/TerminalPane.tsx:163-172 | after restoring a frame is written exactly if it is above the replayed history |
| `TerminalPaneRuns.EveryLiveFrameOnce` | web/src/components/TerminalPane.tsx:60-84 | in every interleaving each received frame above the highest replayed end is written exactly once, none at or below it |
| `TerminalPaneRuns.NeverTwiceNorReplayed` | web/src/components/TerminalPane.tsx:60-84 | at no moment has a frame been written twice or been written although replayed |
| `TerminalPaneLaws.HistoryIsShown` | web/src/components/TerminalPane.tsx:60-69 | in every interleaving, from the history's arrival on: while replaying the writes are its chunks up to the one awaited; afterwards all its chunks, in order, before every live frame, and the mark is the highest of 0 and their ends; none if it failed or the page was gone |
| `TerminalPaneLaws.ReplayAdvances` | web/src/components/TerminalPane.tsx:64-67 | the replay is at the chunk numbered by the writes that have ended, and over when that is all of them |
| `TerminalPaneLaws.ShownExactly` | web/src/components/TerminalPane.tsx:60-84 | when restoring is over the terminal has shown the chunks that arrived and then exactly the frames received above their highest end, each once |
| `TerminalPaneLaws.CancelDropsTheQueue` | web/src/components/TerminalPane.tsx:72-75 | a page that goes while restoring never writes a queued frame |
| `TerminalPaneRuns.OrderKeptUnlessOvertaken` | web/src/components/TerminalPane.tsx:60-84 | live frames are shown in order if and only if no message was handled while the flush had a frame left |
| `TerminalPaneRuns.LiveFrameCanOvertake` | web/src/components/TerminalPane.tsx:163-172 | a run that shows frames 1, 3, 2 |
| `SessionTables.Router.HandleAgentMessage` | server/internal/httpapi/router.go:1142-1192 | started, stdout and exit: whole new tables; another device's session is refused and untouched |
| `SessionTables.Router.SyncAgentSessions` | server/internal/httpapi/router.go:1243-1284 | the loops over the report and over the listed rows |
| `SessionTables.Router.MarkDisconnectedSessionsLost` | server/internal/httpapi/router.go:1286-1297 | exactly the running and starting rows of the device become lost |
| `SessionTables.AliveWasReported` | server/internal/httpapi/router.go:1243-1284 | after a sync every running or starting session of the device was in the report |
| `SessionTables.SyncLeavesOthers` | server/internal/httpapi/router.go:1258-1263 | a sync changes no session of another device and no closed one |
| `SessionTables.SyncTwiceIsOnce` | server/internal/httpapi/router.go:1243-1284 | the same report again changes neither rows nor routes, for every list, repeated ids included |
| `SessionTables.LastReportCounts` | server/internal/httpapi/router.go:1264-1266 | a reported session ends with its last report's values and a route to this device, unless closed or another's |
| `SessionLaws.MessageColumns` | server/internal/httpapi/router.go:1142-1192 | column by column: after started the row is running with the message's pid and sequence and routed to the device; after stdout the sequence is the message's, starting has become running, all else is kept; after exit it is exited, or still closed, with pid and sequence kept |
| `SessionLaws.MessageLeavesOthers` | server/internal/httpapi/router.go:1131-1199 | a message changes no other session, and nothing at all for a device that does not own its session |
| `SessionLaws.UnreportedIsLost` | server/internal/httpapi/router.go:1270-1283 | a session not in the report keeps row and route, except that a running or starting one of the device becomes lost |
| `SessionLaws.DisconnectIsEmptyReport` | server/internal/httpapi/router.go:1286-1297 | a disconnect does what a report of nothing does |
| `SessionLaws.DecidingReportCounts` | server/internal/httpapi/router.go:1243-1267 | a reported session, new or the device's and not closed, ends with status, pid and sequence of its first report as closed, or else of its last, and routed to the device |
| `SessionLaws.SyncKeepsShape` | server/internal/httpapi/router.go:1264-1266 | no report changes a session's owner, title, shell or directory |
| `SessionLaws.FirstReportNames` | server/internal/httpapi/router.go:1246-1257 | a session first heard of in a report gets owner, title, shell and directory from its first mention, or the defaults |
| `SessionRuns.StepKeepsTasksOk` | server/internal/httpapi/router.go:1238-1241 | every call a handler holds is for its own device's sessions, at the granularity of single calls to store and hub |
| `SessionRuns.OwnerNeverChanges` | server/internal/store/store.go:875-890 | a session never changes its owner and never disappears |
| `SessionRuns.OthersUntouched` | server/internal/httpapi/router.go:1131-1199 | no step of one device's handler changes a session of another device |
| `SessionRuns.RoutesFollowOwners` | server/internal/ws/hub.go:89-93 | all routes lead to the stored owner at every moment if and only if no handler binds a session that another device owns |
| `SessionRuns.LateBindWasLateInsert` | server/internal/httpapi/router.go:1246-1260 | such a handler is one whose own insert came after another device's |
| `SessionRuns.TwoSyncsCanMisroute` | server/internal/httpapi/router.go:1246-1260 | a run in which two devices report one unknown session at once and the route leads to the wrong one |
| `SessionRuns.ClosedStaysClosed` | server/internal/httpapi/router.go:994-1004 | a closed session stays closed, short of a started message, if and only if no handler holds a write decided before the close |
| `SessionRuns.OutputCanUndoClose` | server/internal/httpapi/router.go:1165-1171 | a run in which output handled around a close makes the session running again |
| `SessionRuns.CloseAtRestIsFinal` | server/internal/httpapi/router.go:994-1004 | with no handler under way a close survives stdout, exit, sync, disconnect and every web request |
| `SessionLaws.ExitedStaysDown` | server/internal/httpapi/router.go:1173-1192 | however handlers are interleaved, once the handler of an exit message rests the session is not running or starting until a later started message or a report naming it |
| `SessionLaws.DownStaysDown` | server/internal/httpapi/router.go:1142-1297 | the same for every session that is not alive and that no handler is about to revive |
| `SessionLaws.UnsentStaysDown` | server/internal/httpapi/router.go:785-792 | so does a start request that could not be sent take its session down |
| `SessionLaws.WebColumns` | server/internal/httpapi/router.go:770-1100 | column by column what creating, binding, sending, closing, renaming and subscribing leave of a session |
| `SessionLaws.WebLeavesOthers` | server/internal/httpapi/router.go:770-1100 | a web request changes nothing of another session |
| `SessionRuns.UndisturbedSync` | server/internal/httpapi/router.go:1243-1267 | a report handled without interruption goes through the stages of the loop and ends with the whole table as the loop leaves it |
| `SessionRuns.UndisturbedSweep` | server/internal/httpapi/router.go:1272-1283 | a sweep carried through marks exactly its rows, in any order |
| `SessionRuns.UndisturbedMessage` | server/internal/httpapi/router.go:1142-1192 | a message handled without interruption does what the handler method does |
| `SessionLaws.UndisturbedDisconnect` | server/internal/httpapi/router.go:1286-1297 | a disconnect handled without interruption marks exactly the running and starting rows of the device as lost |
| `JsonScanner.ScanJSONValue` | server/internal/httpapi/router.go:1409-1451 | the recursive scan with its decoder succeeds exactly as the scan over the tokens left and leaves the same tokens |
| `JsonScanner.ValidateNoDuplicateJSONFields` | server/internal/httpapi/router.go:1394-1407 | accepts exactly the bodies that are one JSON value with no object repeating a field, at any depth |
| `JsonScanner.ScansOneValue` | server/internal/httpapi/router.go:1409-1451 | a scan succeeds if and only if it consumes the tokens of exactly one value without repeated fields |
| `JsonScanner.OneReading` | server/internal/httpapi/router.go:1409-1451 | tokens determine the value and where it ends |
| `JsonScanner.ScanDecides` | server/internal/httpapi/router.go:1409-1451 | of a body that is one value, the scan says whether any object in it repeats a field |

## Left out

- HTTP and WebSocket plumbing, JSON and base64 encoding, cookies and password hashing: no protocol state of their own.
- SQL text, connection handling and datetime text: tables are maps, a transaction is one step or none, times are integers.
- The strength of HMAC, AES-GCM, HKDF and the recovery-code hash: uninterpreted, apart from the digest length and a non-empty hash.
- The audit rows written after a commit for setup, enable and disable, and rate-limit audits: best effort in the code, no guarantee to state.
- VerifyLoginCode: six characters are counted as the code counts them after trimming, with `trim` a parameter; bytes and characters are not told apart.
- AllowLoginAttempt: reads the clock once for all keys, where the code reads it for each key.
- Recording and clearing failures for several keys in one request: loops over the single calls that the runs of the limiter already contain.
- ManagementLockIndexes: sorting the set of indexes is done by listing 0 to 255, in place of the library sort.
- The middle sections of setup, enable, rotation and disable after the credential check: their database calls are steps of the two-factor runs in any order.
- Path resolution (`~`, relative paths, symbolic links, hard links), permissions and file metadata: a path resolves or does not.
- AtMostMaxFailures: follows one key's entry as if nothing were ever evicted, which the limiter's own results justify.
- CheckAndRecordAreAtomic: asking, recording and clearing for the three keys of a request are single events.
- UploadManager.CloseUpload: a target that another process makes or removes during an upload, and overwriting between open and close, which the code checks at open only.
- Removing a file is taken to succeed, as the destructor ignores failures.
- Download: the file is taken not to change while it is read, and replies to be those of an agent as modelled.
- Directory listing and the capability check before file operations: single branches.
- Two transport connections of one device at a time, where an old one's cleanup runs after a new one's attach: one connection per device is assumed.
- PtyManager: spawning, reading and killing real processes, resizing and input; the lossy decoding of bytes that straddle two reads.
- FlushOutputs: a failed send ends the connection, and with it the run.
- Writing to the terminal is taken to succeed, and what a closed page does after unmounting is not described; resize, search and input of the page are not modelled.
- End-to-end delivery from agent to browser: history and subscription start independently, so only what the page does with the frames it receives is stated.
- Delivery of messages to subscribed browsers and the stored output chunks: bookkeeping without a guarantee of its own.
- Session handlers whose store calls fail: every store call is taken to succeed, apart from the insert of a taken id.
- ScanJSONValue: works on the decoder's tokens; commas, colons, escapes and numbers are the JSON library's business.
- Agent tokens, device names, settings, snippets, presence and configuration: single-branch facts.
