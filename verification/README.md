# Verified model of MDLogger's protocols

A Dafny model of the parts of MDLogger whose correctness depends on the order in which things happen:
game synchronisation between devices, the crash-safe local reset, the session manager, the update
handoff between two processes, imports and the portable archive, and the life of the background
worker. `dafny verify dfyconfig.toml` checks the whole project.

## How it is built

Every protocol has the same three layers.

1. Steps are functions on a value that holds the whole state (`SyncSteps`, `Sessions`, `Handoff`,
   `Imports`, `Coordinator`, `LocalReset`).
2. What every step keeps is an invariant over all runs (`SyncTruth`, `SyncDevice`, `SyncSystem`,
   `SessionSafety`, `HandoffSafety`), and the promises are theorems about all runs (`SyncPromises`,
   `SyncDelivery`, `SessionPromises`, `HandoffPromises`, the ends of `Imports` and `Coordinator`).
3. Where the program updates an object in place, a class with the same fields has one method for each
   operation, tied to the step function on the old and the new state (`SyncRepository`,
   `DataDirectory`, `SessionManager`, `UpdateController`, `ImportTarget`, `SyncCoordinator`).

| files | content |
|---|---|
| `SyncTypes`, `SyncMerge` | comparable payloads, the three-way merge, and what a merge keeps |
| `SyncTables`, `SyncSteps`, `SyncViews` | rows, outbox and conflicts; every repository operation; the effect of each on a single game |
| `SyncTruth`, `SyncDevice` | the status of a game is true, in every run of one device against any server |
| `SyncServer`, `SyncSystem` | the compare-and-swap server; any number of devices; convergence |
| `SyncPromises`, `SyncDelivery`, `SyncRepository` | promises about single operations and runs; repeated and outdated writes in runs of the whole system; the repository object |
| `LocalReset`, `LocalResetRun` | the reset directory and its journal; reset and recovery, one file system call at a time |
| `Sessions`, `SessionSystem`, `SessionSafety`, `SessionPromises`, `SessionManagers` | the regions under the session lock; threads, token store and refresh locks; invariants; promises; the object |
| `Handoff`, `HandoffSafety`, `HandoffPromises`, `UpdateControllers` | application threads, helper processes and job files; invariants; promises; the object |
| `Json`, `Archive` | flat JSON records, the records file, its exporter and reader |
| `Imports`, `ImportTargets` | the import loop, finished batches and the shortcut; the database object |
| `Coordinator`, `SyncCoordinators` | the worker lifecycle; the object |

## Where the program does not do what one would expect

- *The row does not always become the record chosen in a conflict.* When the server has no such
  record, choosing the server's side, or a merge that deletes, keeps the local fields and only sets
  the deletion time. `SyncPromises.RowIsChoiceUnless` says exactly when; `RowIsNotAlwaysChoice` is such
  a run, from an empty device on.
- *A repeated write can conflict with itself.* If the reply to a write is lost and the write is sent
  again, the server refuses it, and the refusal settles the game except exactly when the unsent edit
  changed the deletion state together with another field: a restoration with other edits
  (`SyncPromises.LostWriteIsAbsorbed`), or a deletion of a known version after other edits
  (`LostDeletionIsAbsorbedUnless`). `RepeatedRestorationCanConflict` and `RepeatedDeletionCanConflict`
  are such runs. A deletion without a known version can always be repeated. When the game was edited
  again before the write is repeated, the refusal opens a conflict exactly when the later edits clash
  with the lost write (`EditsClash`, `LostWriteMeetsEdits`): a field it changed was changed again to a
  third value, or a deletion met another field, or there is no base and anything differs.
  `EditAfterLostInsertionCanConflict` is such a run. `SyncDelivery` proves all of this in every run of
  the whole system, without assuming what the row knows of the server.
- *The error of a reset can be wrong about what happened.* It carries a flag that says whether the new
  profile is in force, on which the caller acts (src/mdlogger/profiles.py:119-130). The flag is true
  to the facts exactly when the handler could ask for the reset directory and, after the committed
  journal got to the disk, either no reset directory is left or its journal is still there and could be
  read (`LocalResetRun.TellsTruth`). `ErrorCanDenyReset` gives the input of a reset that is in force and
  denied: only the removal of the emptied reset directory fails. `ErrorCanClaimReset` gives one that is
  claimed and not in force: the committed journal cannot be written, and asking for the directory fails,
  which reads as its absence.
- *A failing scan hides a pending reset.* Listing the reset directories (src/mdlogger/local_reset.py:258)
  raises nothing when it fails; it shows none. A restart then completes although an original is still set
  aside (`LocalResetRun.ScanCanHideReset`), and a new reset runs over the pending one: it completes and
  makes it ambiguous (`ScanCanSpoilReset`), or leaves two reset directories (`ScanCanDoubleReset`). A
  recovery or a reset that completes has left no reset directory exactly if its scan worked or nothing was
  pending (`RecoverPending`, `ResetData`, `ResetThenRestart`).
- *A failing question strands a reset.* Before deleting `old` and `new` the purge asks whether they are
  there (src/mdlogger/local_reset.py:175-178); a failure reads as no, and the journal is deleted all the
  same. The disk stays one that can be recovered exactly unless such a question failed for a folder that
  was there when the journal went (`DiscardStaging`); otherwise everything is where it belongs, but the
  folder stays and no recovery that sees it completes (`PurgeCanStrandReset`, `UnsoundStays`).
- *Unknown files in a reset directory are not always respected.* Reading the journal refuses a name in
  `old` or `new` that it does not allow, but asks first whether the folder is there
  (src/mdlogger/local_reset.py:139-151). If that question fails, recovery runs, and its purge deletes the
  unknown files. If none of these questions fails, it leaves such a disk as it is (`RecoverPending`).
- *The guest import shortcut can lose a record.* The signature of a guest profile ends each value with
  a NUL without escaping NULs inside values, so two different profiles can have one signature even
  under an injective hash. `Imports.ShortcutCanLoseARecord` gives two such records, both of which the
  record check of a portable archive accepts. A shortcut that is taken agrees with the full import
  exactly when every record is already known (`ShortcutAgreesExactly`), which always holds when the
  records contain no NUL (`GuestShortcutRefines`). The shortcut for archives has no such exception.
- *A start while the worker is stopping is dropped.* A start takes effect exactly unless a worker is
  stopping that no resume asked to replace; then no loop is ever started
  (`Coordinator.StartTakesEffectUnless`). `StartWhileStoppingIsDropped` is such a run: start, stop,
  start. A resume has no such exception (`ResumeRestartsOnce`).

## Model

| member | source | states |
|---|---|---|
| SyncMerge.MergeLosesNoEdit | src/mdlogger/game_sync/repository.py:609-666 | without a conflict every field changed by one side keeps that side's value, fields changed by both were equivalent, and a deletion is never combined with the other side's field edits |
| SyncMerge.ConflictExactlyWhenUnmergeable | src/mdlogger/game_sync/repository.py:609-666 | a conflict is reported exactly when no record keeps both sides' edits, or a deletion met an edit of another field |
| SyncMerge.MergeIsUnique | src/mdlogger/game_sync/repository.py:833-864 | the two sides' edits determine the merged record up to the time of a deletion |
| SyncMerge.MergeIsSymmetric | src/mdlogger/game_sync/repository.py:609-666 | two devices merging the same pair from either side agree on conflict or not, and on the record |
| SyncMerge.RebaseIsStable | src/mdlogger/game_sync/repository.py:609-666 | a rebased record reconciled with the same remote again is unchanged and sends the same operation |
| SyncViews.ReplaceOutboxView | src/mdlogger/game_sync/repository.py:793-817 | exactly one entry with the current row is left for the game, no other game is touched, ids stay ascending |
| SyncViews.DisputeView | src/mdlogger/game_sync/repository.py:675-720 | storing or refreshing a conflict opens it with the new server side, marks the row, and touches nothing else |
| SyncViews.AcknowledgeView | src/mdlogger/game_sync/repository.py:526-570 | the statements of an acknowledgement amount to the per-game rule, on that game only |
| SyncViews.ReconcileView | src/mdlogger/game_sync/repository.py:572-666 | the statements of a reconciliation amount to the per-game rule, on that game only |
| SyncViews.ChoiceView | src/mdlogger/game_sync/repository.py:411-473 | storing the user's choice and closing the conflicts amounts to the per-game rule, on that game only |
| SyncTruth.LocalEditsKeepTruth | src/mdlogger/db.py:169-254 | inserting, editing and deleting a record keep status, outbox and row in agreement |
| SyncTruth.AcknowledgeKeepsTruth | src/mdlogger/game_sync/repository.py:526-570 | so does acknowledging an entry |
| SyncTruth.ReconcileKeepsTruth | src/mdlogger/game_sync/repository.py:572-666 | so does reconciling any server record |
| SyncTruth.ResolveKeepsTruth | src/mdlogger/game_sync/repository.py:322-473 | so does every outcome of a conflict resolution |
| SyncDevice.PushPicksNewest | src/mdlogger/game_sync/repository.py:35-74 | a push sends the newest entry of each of its games, once, within the limit, and none of a game in dispute |
| SyncDevice.ReplyAnswersOnce | src/mdlogger/game_sync/repository.py:91-117 | a reply with as many results as entries for exactly those games answers every game once |
| SyncDevice.StepKeepsDevice | src/mdlogger/game_sync/engine.py:360-413 | every step keeps tables and the request in flight consistent, edits during the request included |
| SyncDevice.StepKeepsRows | src/mdlogger/game_sync/repository.py:572-666 | no step removes the row of a game |
| SyncDevice.SyncedIsTruthful | src/mdlogger/game_sync/repository.py:526-666 | in every run against any server: synced iff nothing queued and no open conflict, conflict implies an open conflict, the newest queued snapshot is the row |
| SyncDevice.IndicatorIsTruthful | src/mdlogger/game_sync/repository.py:475-524 | in every run the indicator shows synced iff outbox and conflicts are empty and, where required, the initial download finished; it shows failed iff a conflict is open or a queued change has failed |
| SyncServer.ApplyEvolves | supabase/migrations/0023_payload_v2.sql:214-568 | a write keeps versions distinct and at most the head, removes no record, and gives what it changes a version above the old head |
| SyncServer.PullHasReply | src/mdlogger/remote/games.py:270-303 | for every cursor and limit there is a pull reply: the records above the cursor in ascending version, as many as fit |
| SyncSystem.StepKeepsSystem | src/mdlogger/game_sync/repository.py:91-164 | every step of any device, of the server and of other writers keeps what each device knows consistent with the server, the base of each row included |
| SyncSystem.SettledDeviceConverges | src/mdlogger/game_sync/repository.py:91-164 | after any run of any devices, a device with empty outbox, no open conflict and the cursor at the head holds exactly the server's fields of every record; its other rows are tombstones |
| SyncSystem.SettledDevicesAgree | src/mdlogger/game_sync/repository.py:526-666 | two such devices show the same records |
| SyncPromises.AcknowledgementPreservesEdits | src/mdlogger/game_sync/repository.py:526-570 | for any edits during a push, acknowledging removes what was queued up to the sent entry, keeps the rest in order, and leaves the game pending iff something is left |
| SyncPromises.InsertIsExact | src/mdlogger/db.py:169-207 | only a new identifier is inserted; the row has the given fields, is live, pending and without version, and one upsert with it is queued |
| SyncPromises.UpdateIsExact | src/mdlogger/db.py:210-237 | only a live record is edited; time zone, environment, deletion state, version and base stay; one upsert with the new row is queued |
| SyncPromises.DeleteIsExact | src/mdlogger/db.py:240-254 | only a live record is deleted, only its deletion time changes, one delete is queued |
| SyncPromises.DueIsSent | src/mdlogger/game_sync/repository.py:35-74 | an entry that is due is sent unless the batch is full of older ones |
| SyncPromises.RetryIsExact | src/mdlogger/game_sync/repository.py:221-235 | a manual retry makes every failed entry and row ready and changes nothing else |
| SyncPromises.ReconcileIsStable | src/mdlogger/game_sync/repository.py:572-666 | reconciling the same record twice equals once, up to outbox ids and retry marks |
| SyncPromises.SameContentConvergesUnless | src/mdlogger/game_sync/repository.py:609-666 | equal content converges, except exactly when the edit changed the deletion state with another field |
| SyncPromises.LostWriteIsAbsorbed | src/mdlogger/game_sync/engine.py:378-413 | a live write whose reply was lost is refused when sent again; the refusal settles the game, except exactly when the unsent edit restores the record together with another field: then it opens a conflict |
| SyncPromises.LostDeletionIsAbsorbedUnless | src/mdlogger/game_sync/engine.py:378-413 | a deletion of a known version whose reply was lost is refused when sent again; the refusal settles the game exactly when the deletion is the only unsent edit, else it opens a conflict |
| SyncPromises.LostBlindDeletionIsAbsorbed | src/mdlogger/game_sync/engine.py:378-413 | a deletion without a known version is accepted again and leaves the game settled |
| SyncPromises.LostWriteMeetsEdits | src/mdlogger/game_sync/repository.py:609-666 | after a lost reply and further edits, sending the newest entry is refused and opens a conflict exactly when the edits clash with the lost write; otherwise the row is based on the lost write |
| SyncPromises.EditAfterLostInsertionCanConflict | src/mdlogger/game_sync/repository.py:609-666 | a run in which an edit after a lost insertion conflicts with it |
| SyncPromises.RepeatedDeletionCanConflict | src/mdlogger/game_sync/repository.py:609-666 | a run in which a repeated deletion conflicts with itself |
| SyncPromises.RepeatedRestorationCanConflict | src/mdlogger/game_sync/repository.py:609-666 | a run in which a repeated restoration conflicts with itself |
| SyncPromises.StaleWriteIsAbsorbed | src/mdlogger/game_sync/engine.py:378-413 | a write or deletion queued on an outdated version is delivered by at most two pushes, the first refused and rebasing it, the second applied, without a conflict |
| SyncPromises.EditsDuringPushAreDelivered | src/mdlogger/game_sync/engine.py:360-413 | for any edits during the push of a live write, its acknowledgement leaves the game delivered if there were none, else waiting on an outdated version, from which two more pushes deliver the newest edit without a conflict |
| SyncDelivery.RepeatedDeletion | src/mdlogger/game_sync/engine.py:378-413 | in every run of the whole system a repeated deletion of a known version settles the game exactly when the deletion is the only unsent edit, else it opens a conflict |
| SyncDelivery.LostWriteThenEdits | src/mdlogger/game_sync/engine.py:378-413 | in every run, after a lost reply and any further edits the newest entry conflicts exactly when it clashes with the lost write; a deletion without a known version is applied |
| SyncDelivery.OutdatedWriteIsDelivered | src/mdlogger/game_sync/engine.py:378-413 | in every run an undisputed entry on an older version than its row, which has the server's, is delivered by at most two pushes |
| SyncPromises.PullIsAllOrNothing | src/mdlogger/game_sync/repository.py:125-164 | a batch out of order changes nothing; any other moves the cursor to its last version and reflects every row |
| SyncPromises.VersionsNeverGoBack | src/mdlogger/game_sync/repository.py:125-164 | over any run what is known of a game never goes back unless the server confirmed its absence; cursor and initial sync never go back |
| SyncPromises.DeliveredStaysReflected | src/mdlogger/game_sync/repository.py:125-164 | a version a pull delivered stays reflected by the row or an open conflict |
| SyncPromises.ResolutionIsExact | src/mdlogger/game_sync/repository.py:322-473 | success only on the compared local and server state (or when all three agree); conflicts closed; outbox empty iff nothing has to be sent, else one entry on the confirmed version |
| SyncPromises.FailedResolutionKeepsRow | src/mdlogger/game_sync/repository.py:322-473 | a resolution that does not succeed keeps the row and everything queued; at most it refreshes the conflict |
| SyncPromises.RowIsChoiceUnless | src/mdlogger/game_sync/repository.py:411-473 | the row is the chosen record except exactly in the cases of a confirmed absence that keep the tombstoned local row |
| SyncPromises.RowIsNotAlwaysChoice | src/mdlogger/game_sync/repository.py:411-473 | a run from an empty device in which it is not: insertion, push refused without a record, merge with a deletion and a note |
| SyncRepositories.SyncRepository.Insert | src/mdlogger/db.py:169-207 | the object does what the insert step does and keeps the tables consistent |
| SyncRepositories.SyncRepository.Update | src/mdlogger/db.py:210-237 | the object does what the update step does, refusing a missing or deleted record without change |
| SyncRepositories.SyncRepository.Remove | src/mdlogger/db.py:240-254 | the object does what the delete step does, refusing a missing or deleted record without change |
| SyncRepositories.SyncRepository.Due | src/mdlogger/game_sync/repository.py:35-74 | the loop returns exactly the entries the push picks |
| SyncRepositories.SyncRepository.FinishPush | src/mdlogger/game_sync/repository.py:91-117 | the loop over the results does what the push step does, or refuses a reply that does not match and changes nothing |
| SyncRepositories.SyncRepository.FinishPull | src/mdlogger/game_sync/repository.py:125-164 | the loop over the batch does what the pull step does; a bad batch changes nothing |
| SyncRepositories.SyncRepository.Reconcile | src/mdlogger/game_sync/repository.py:572-666 | the branches on the object's fields do what the reconcile step does and keep the tables consistent |
| SyncRepositories.SyncRepository.Acknowledge | src/mdlogger/game_sync/repository.py:526-570 | the branches on the object's fields do what the acknowledge step does and keep the tables consistent for a game not in dispute |
| SyncRepositories.SyncRepository.AcknowledgeBatch | src/mdlogger/game_sync/repository.py:76-89 | the loop acknowledges the entries in order, with the announced versions |
| SyncRepositories.SyncRepository.RecordFailures | src/mdlogger/game_sync/repository.py:166-219 | the loop marks the entries and the rows that are not in conflict |
| SyncRepositories.SyncRepository.RetryAll | src/mdlogger/game_sync/repository.py:221-235 | failed entries and rows become due again |
| SyncRepositories.SyncRepository.Resolve | src/mdlogger/game_sync/repository.py:322-473 | the checks and the outcome of a resolution, with the tables consistent afterwards |
| SyncRepositories.SyncRepository.Status | src/mdlogger/game_sync/repository.py:475-524 | on consistent tables: synced iff nothing is queued, no conflict is open and, where required, the initial download finished; failed iff a conflict is open or a queued change has failed; failed games are among the pending ones |
| LocalReset.MoveAsideKeeps | src/mdlogger/local_reset.py:299-313 | moving an original aside changes neither the invariant of the disk nor where recovery leads |
| LocalReset.MoveBackKeeps | src/mdlogger/local_reset.py:224-233 | nor does moving it back |
| LocalReset.InstallKeeps | src/mdlogger/local_reset.py:234-244 | nor does moving a prepared directory in |
| LocalReset.UncommittedOriginalsAreKept | src/mdlogger/local_reset.py:276-313 | until the commit every original is in the root or set aside under a journal that lists it |
| LocalResetRun.DataDirectory.WriteJournal | src/mdlogger/local_reset.py:87-97 | whatever call fails, the directory has the old journal or the new one, whole |
| LocalResetRun.DataDirectory.ReadJournal | src/mdlogger/local_reset.py:99-156 | accepts only a readable journal; a name it does not allow is refused unless the question for its folder failed |
| LocalResetRun.DataDirectory.DiscardUnpublished | src/mdlogger/local_reset.py:186-211 | cleaning a directory without a journal never touches the root, whatever fails |
| LocalResetRun.DataDirectory.DiscardStaging | src/mdlogger/local_reset.py:173-184 | purging never changes the root, and the journal goes last; the disk stays recoverable exactly unless the question for a folder failed that was there when the journal went |
| LocalResetRun.DataDirectory.RollBack | src/mdlogger/local_reset.py:224-233 | from any interruption the originals move back, or the disk still leads there |
| LocalResetRun.DataDirectory.RollForward | src/mdlogger/local_reset.py:234-252 | from any interruption the new profile moves in, or the disk still leads there |
| LocalResetRun.DataDirectory.Recover | src/mdlogger/local_reset.py:213-252 | an ambiguous entry makes it fail without touching the disk; otherwise it keeps where the disk leads and reports the phase, and it leaves a recoverable disk unless a question of the purge failed |
| LocalResetRun.DataDirectory.RecoverPending | src/mdlogger/local_reset.py:255-273 | when the scan works: acts only on a disk a reset can have left, or if a question for unknown names failed, and keeps where it leads; a failing scan changes nothing; when it completes no reset directory is left exactly if the scan worked or nothing was pending |
| LocalResetRun.DataDirectory.Commit | src/mdlogger/local_reset.py:314-341 | everything is as before or replaced, as the committed journal got to the disk or not, and the disk stays recoverable unless a question of the purge failed; the error tells which exactly when the handler could look and, after the switch, no reset directory is left or its journal was read |
| LocalResetRun.DataDirectory.Report | src/mdlogger/local_reset.py:320-341 | the handler of a failed commit never changes where the disk leads; its error says committed iff it could not ask for the reset directory, or there is none, or it read a journal past the first phase |
| LocalResetRun.DataDirectory.ResetData | src/mdlogger/local_reset.py:276-341 | whatever fails or dies where, unless the scan missed a pending reset, the disk leads to everything as before or everything replaced, decided by whether the committed journal got to the disk; if it missed one, that one stays as it was and what is replaced is the root; it completes without a reset directory left exactly if none was missed |
| LocalResetRun.DataDirectory.ResetThenRestart | src/mdlogger/local_reset.py:255-341 | after a reset and any number of restarts, each of which may fail or die at any call, the disk leads to all or nothing replaced, as decided when the reset ended; a restart that completes has got there exactly if its scan worked or nothing was pending |
| LocalResetRun.WorkingResetCompletes | src/mdlogger/local_reset.py:276-341 | when every call works the reset completes, with everything replaced and no reset directory left |
| LocalResetRun.ErrorCanDenyReset | src/mdlogger/local_reset.py:173-184 | an input at which everything is replaced and the error says it is not |
| LocalResetRun.ErrorCanClaimReset | src/mdlogger/local_reset.py:320-341 | an input at which nothing is replaced and the error says it is |
| LocalResetRun.ScanCanHideReset | src/mdlogger/local_reset.py:257-262 | an input at which recovery completes with an original still set aside |
| LocalResetRun.ScanCanSpoilReset | src/mdlogger/local_reset.py:276-300 | an input at which a reset completes and leaves the pending one ambiguous |
| LocalResetRun.ScanCanDoubleReset | src/mdlogger/local_reset.py:258-262 | an input at which a reset leaves two reset directories |
| LocalResetRun.PurgeCanStrandReset | src/mdlogger/local_reset.py:175-183 | an input at which everything is replaced, the error says it is not, and an orphaned folder is left |
| LocalResetRun.UnsoundStays | src/mdlogger/local_reset.py:255-273 | on a disk a reset cannot have left, no recovery that sees it completes or changes it, even if every call works |
| SessionSafety.CommitLoginKeeps | src/mdlogger/auth/session_manager.py:131-156 | committing a login keeps the invariants of manager, locks, transaction and refresh |
| SessionSafety.RestoreKeeps | src/mdlogger/auth/session_manager.py:187-205 | so does selecting another account, leaving the lock of a discarded rotation |
| SessionSafety.AskKeeps | src/mdlogger/auth/session_manager.py:207-261 | so does asking for a session: a claim is taken only when no refresh runs, for an account that is not revoked |
| SessionSafety.FinalizeKeeps | src/mdlogger/auth/session_manager.py:353-404 | so does the end of a refresh: nobody but the current, unblocked, unrevoked account becomes authenticated |
| SessionSafety.KeepRotation | src/mdlogger/auth/session_manager.py:405-412 | a rotation that could not be stored takes over the refresh lock of its thread |
| SessionSafety.LogoutKeeps | src/mdlogger/auth/session_manager.py:474-483 | so does the change of a logout |
| SessionPromises.AuthenticatedIsEntitled | src/mdlogger/auth/session_manager.py:428-433 | in every run an authenticated session is of the current account, which is neither logged out nor revoked |
| SessionPromises.LoginTakesEffect | src/mdlogger/auth/session_manager.py:144-153 | the newest login becomes the authenticated one, unblocked and not revoked, and supersedes all older work |
| SessionPromises.RefreshDecides | src/mdlogger/auth/session_manager.py:353-404 | a refresh of the current login authenticates iff the server rotated a token still stored for this account, revokes and deletes iff it refused it or answered for another, else signs out or goes offline |
| SessionPromises.LateRefreshChangesNothing | src/mdlogger/auth/session_manager.py:353-412 | a refresh of a login that is over changes nothing |
| SessionPromises.RefreshStores | src/mdlogger/auth/session_manager.py:353-404 | a refresh stores a token only over one that is stored |
| SessionPromises.RefreshIsSingle | src/mdlogger/auth/session_manager.py:207-261 | in every run one thread at most is in a refresh; refresh locks held are those of an attempt or a kept rotation; locks entered minus left is what is held, at most one |
| SessionPromises.IssuedIsCurrent | src/mdlogger/auth/session_manager.py:263-292 | a permission is issued only for the current authenticated login, with the token of its session |
| SessionPromises.PermissionsDie | src/mdlogger/auth/session_manager.py:294-316 | once a permission's login is over it never admits anything again and no request result is returned under it |
| SessionPromises.LogoutIsFinal | src/mdlogger/auth/session_manager.py:462-483 | nothing that began before a logout authenticates the account after its change, or leaves a stored token after its deletion, in any interleaving without a new login of the account |
| SessionPromises.AnswerIsHeld | src/mdlogger/auth/session_manager.py:347-352 | the thread that received a rotated session holds it |
| SessionPromises.StepHolds | src/mdlogger/auth/session_manager.py:353-426 | no step loses a held rotation of the current login or sends another refresh request for it |
| SessionPromises.RotationIsReused | src/mdlogger/auth/session_manager.py:234-261 | over any run it stays held with no refresh request sent, until it is stored and shown or its end is accounted for |
| SessionManagers.SessionManager.BeginActivation | src/mdlogger/auth/session_manager.py:131-137 | stamps a login that is the only current one |
| SessionManagers.SessionManager.FinishActivation | src/mdlogger/auth/session_manager.py:144-153 | commits a current login, in full, and changes nothing for a superseded one |
| SessionManagers.SessionManager.Select | src/mdlogger/auth/session_manager.py:187-205 | answers for a blocked or revoked account, else makes the account current |
| SessionManagers.SessionManager.Ask | src/mdlogger/auth/session_manager.py:215-254 | the decision on the fields is the claim function, and a claim is taken at once |
| SessionManagers.SessionManager.Wake | src/mdlogger/auth/session_manager.py:234-254 | the same for a caller that waited |
| SessionManagers.SessionManager.FinishAttempt | src/mdlogger/auth/session_manager.py:353-404 | every branch of the end of a refresh, the token to store and whether to delete |
| SessionManagers.SessionManager.Fail | src/mdlogger/auth/session_manager.py:405-423 | a store error keeps a rotated session exactly when there is one for the current login |
| SessionManagers.SessionManager.End | src/mdlogger/auth/session_manager.py:474-483 | after it the account is current under no generation and no earlier login is |
| SessionManagers.SessionManager.Issue | src/mdlogger/auth/session_manager.py:281-292 | a permission it returns is admitted now |
| HandoffSafety.CompletedSound | src/mdlogger/update_controller.py:190-277 | taking a result starts at most one operation, never loses a frozen profile and never commits |
| HandoffSafety.CancelStepKeeps | src/mdlogger/updater.py:695-705 | a cancellation, one file operation at a time, never reaches an authorized job |
| HandoffSafety.AuthorizationKeeps | src/mdlogger/updater.py:677-692 | writing the authorization keeps the invariants: the job is not cancelled and nobody can cancel it later |
| HandoffSafety.CommitKeeps | src/mdlogger/update_controller.py:265-268 | noting the commitment after the file is written keeps them |
| HandoffSafety.WorkerKeeps | src/mdlogger/update_controller.py:167-187 | every step of the worker thread keeps them, a launch that fails or is revoked included |
| HandoffSafety.HelperKeeps | scripts/update/UpdateHelper.cs:332-396 | every step of every helper keeps them |
| HandoffPromises.InstallsOnlyWhenCommitted | scripts/update/UpdateHelper.cs:343-365 | an installer that was started belongs to a job this application authorized for that version and never cancelled, and the application had exited |
| HandoffPromises.NeverBoth | src/mdlogger/updater.py:677-705 | no job is ever both cancelled and authorized |
| HandoffPromises.AuthorizingCommits | src/mdlogger/update_controller.py:258-276 | once the authorization of a job that was found ready is written, in every later run it stays as written, the job is never cancelled, and the controller has noted it or does so next |
| HandoffPromises.WaitingHelperDecides | scripts/update/UpdateHelper.cs:343-376 | after the exit a waiting helper none of whose steps fails starts the installer exactly when its job is authorized, else it reports a cancellation and frees the mutex |
| HandoffPromises.OneInstallerAtMost | scripts/update/UpdateHelper.cs:332-345 | at most one installer is started, and no other helper is at work then |
| HandoffPromises.FreezeIsReleased | src/mdlogger/update_controller.py:136-154 | with both threads at rest and no commitment the profile is not frozen |
| HandoffPromises.NoStaleCompletion | src/mdlogger/update_controller.py:190-206 | an operation that ends always belongs to the current generation |
| HandoffPromises.NoInstallationAfterClosing | src/mdlogger/update_controller.py:113-134 | closing before the commitment, or losing the process, ends without installation whatever else happens, a failed cancellation included |
| HandoffPromises.ClosingIsOver | src/mdlogger/update_controller.py:113-127 | closing takes effect whenever it gets the lock |
| UpdateControllers.UpdateController.CheckForUpdates | src/mdlogger/update_controller.py:91-111 | beside any worker, a check is started only when none runs, in a generation of its own; nothing is committed, frozen or released |
| UpdateControllers.UpdateController.Close | src/mdlogger/update_controller.py:113-127 | closes, and cancels the job there is unless committed |
| UpdateControllers.UpdateController.CancelJob | src/mdlogger/update_controller.py:129-134 | a job there is is kept until its cancellation worked, and its download is forgotten; a failed event without a job releases the profile; beside any worker that allows the event at most one operation starts and nothing is committed |
| UpdateControllers.UpdateController.ReleaseHandoff | src/mdlogger/update_controller.py:136-145 | releases a started handoff, once |
| UpdateControllers.UpdateController.BeginInstall | src/mdlogger/update_controller.py:320-347 | beside any worker at most one operation starts, in a new generation; the profile is frozen only when it fits, with the old job gone and a download there; nothing is authorized or committed |
| UpdateControllers.UpdateController.BeginHandoff | src/mdlogger/update_controller.py:349-363 | freezes the profile only if it was not frozen and something was downloaded |
| UpdateControllers.UpdateController.OnCompleted | src/mdlogger/update_controller.py:190-277 | every branch of a result; authorizes only when open, not cancelled, visible and fit |
| Json.StringRoundTrip | src/mdlogger/portable.py:188-196 | every string reads back from its escaped form, whatever follows |
| Json.IntRoundTrip | src/mdlogger/portable.py:188-196 | every integer reads back |
| Json.ObjectRoundTrip | src/mdlogger/portable.py:376-390 | every flat object with distinct fields reads back as written |
| Json.ObjectEnd | src/mdlogger/portable.py:376-390 | a text that is an object ends with its brace or white space |
| Archive.ArchiveRoundTrip | src/mdlogger/portable.py:145-214 | whatever the exporter's checks accept reads back as exactly the same records in order |
| Archive.ExportReadsBack | src/mdlogger/portable.py:474-504 | the same for any record check that refuses repeated fields |
| Archive.ExportIsInjective | src/mdlogger/portable.py:145-214 | different lists of records have different files |
| Archive.ReadIsValid | src/mdlogger/portable.py:474-504 | what the reader accepts is valid, as many records as declared, identifiers distinct |
| Archive.RecordValidatorChecksKeys | src/mdlogger/portable.py:507-640 | the record check refuses a repeated field |
| Archive.Read | src/mdlogger/portable.py:474-504 | the reading loop with its set of identifiers computes the reader |
| Archive.Validate | src/mdlogger/portable.py:149-160 | the checking loop accepts exactly valid records with distinct identifiers |
| Archive.Export | src/mdlogger/portable.py:149-214 | succeeds exactly on what the checks allow, and reading the result back never fails |
| Imports.SignatureTellsIds | src/mdlogger/guest_import.py:82-94 | as many records with one signature have the same identifiers in order, if one list holds no NUL |
| Imports.ImportTouches | src/mdlogger/guest_import.py:231-238 | a known game, deleted or not, is left exactly as it is; a new one gets the row of its first record and one queued upsert with that row |
| Imports.ImportGrows | src/mdlogger/guest_import.py:259-293 | rows and outbox grow by exactly the number of new records; nothing else changes |
| Imports.ImportKeepsDevice | src/mdlogger/guest_import.py:259-293 | an import keeps the device consistent, a push in flight included |
| Imports.ImportIsIdempotent | src/mdlogger/guest_import.py:206-246 | importing again changes nothing |
| Imports.ShortcutAgreesExactly | src/mdlogger/guest_import.py:190-204 | doing nothing agrees with the full import exactly when every record is known |
| Imports.GuestShortcutRefines | src/mdlogger/guest_import.py:97-117 | the guest shortcut, for records without NUL, leaves tables and counts as the full import would |
| Imports.ShortcutCanLoseARecord | src/mdlogger/guest_import.py:82-94 | with NUL characters it need not: two records the record check accepts, of which the second is lost |
| Imports.ArchiveShortcutRefines | src/mdlogger/portable.py:643-666 | the archive shortcut leaves tables and counts as the full import would |
| Imports.RunKeepsBatches | src/mdlogger/guest_import.py:206-246 | in every run of edits, synchronisation and imports the finished batches stay accounted for: their records are still there |
| Imports.GuestImportIsComplete | src/mdlogger/guest_import.py:159-256 | in every run a guest import without NUL ends with all records known and imported plus skipped equal to their number |
| Imports.ArchiveImportIsComplete | src/mdlogger/portable.py:231-316 | in every run the same for every archive that can be read |
| ImportTargets.ImportTarget.Lookup | src/mdlogger/portable.py:643-666 | the search from the newest batch decides the shortcut |
| ImportTargets.ImportTarget.ImportRows | src/mdlogger/guest_import.py:206-246 | the loop with its set of known identifiers computes the import and its counts |
| ImportTargets.ImportTarget.ImportGuestRecords | src/mdlogger/guest_import.py:159-256 | the whole guest import |
| ImportTargets.ImportTarget.ImportPortableArchive | src/mdlogger/portable.py:231-316 | the whole archive import; a refused archive changes nothing |
| Coordinator.OneLoop | src/mdlogger/game_sync/coordinator.py:70-94 | at most one sync loop runs, and it is the one the coordinator knows |
| Coordinator.ResolvedAtMostOnce | src/mdlogger/game_sync/coordinator.py:108-173 | every queued resolution is executed at most once |
| Coordinator.NeverSleepsOnWork | src/mdlogger/game_sync/coordinator.py:238-256 | the worker never sleeps on a queued resolution or a stop that nobody will wake it for |
| Coordinator.ResumeRestartsOnce | src/mdlogger/game_sync/coordinator.py:85-94 | a resume during shutdown restarts the loop exactly once unless there is another stop |
| Coordinator.StopCancelsResume | src/mdlogger/game_sync/coordinator.py:175-192 | a stop cancels it: no loop is started without another start or resume |
| Coordinator.StartTakesEffectUnless | src/mdlogger/game_sync/coordinator.py:70-83 | whatever worker and waiting callers do afterwards, a start leaves a loop that runs or will be replaced exactly unless a worker is stopping that no resume asked to replace; then no loop is ever started |
| Coordinator.StartWhileStoppingIsDropped | src/mdlogger/game_sync/coordinator.py:70-83 | start, stop, start: the worker ends and none follows |
| Coordinator.StoppingEnds | src/mdlogger/game_sync/coordinator.py:208-236 | a stopping worker gets nearer its end with every step |
| SyncCoordinators.SyncCoordinator.Start | src/mdlogger/game_sync/coordinator.py:70-83 | there is a worker afterwards; it keeps running over every later run without start, resume or stop exactly unless it was stopping without a resume |
| SyncCoordinators.SyncCoordinator.Resume | src/mdlogger/game_sync/coordinator.py:85-94 | the fields after a resume; there is a worker that runs or will be replaced |
| SyncCoordinators.SyncCoordinator.Stop | src/mdlogger/game_sync/coordinator.py:175-181 | whichever worker ends next leaves no thread, and over every later run without start or resume no loop is started |
| SyncCoordinators.SyncCoordinator.End | src/mdlogger/game_sync/coordinator.py:230-236 | a worker that ends leaves a new one exactly when a resume was asked for |

## Left out

- LocalResetRun.DataDirectory.ResetData: assumes what the caller guarantees, that every existing profile directory is among the paths (src/mdlogger/profiles.py:144-150), and that the file system gives new directories fresh identities.
- SyncPromises.LostWriteIsAbsorbed: for a game nobody else has written since; what another writer's version does is ReconcileView and the merge.
- SyncDelivery.OutdatedWriteIsDelivered: an entry that is not a deletion is one of a live record; the deletion of a record the server has deleted too is left to the merge.
- Archive.Export: the date library is a parameter, and the manifest, the checksum file, the directory checks and the atomic rename are not modelled.
- Json.ObjectRoundTrip: nested values, booleans and fractions are not represented; the reader refuses them, as the record checks do.
- Imports.GuestShortcutRefines: identifiers and core fields only enter through their text; columns the synchronisation does not compare (local update time, batch id) are left out, and so are the table constraints that can make an import fail as a whole.
- SessionPromises.PermissionsDie: snapshots are compared by value, not by identity, so more permissions are issued than by the program.
- SessionPromises.LogoutIsFinal: a token that another window stores after the deletion is outside this process and excluded. A deletion that counts as done removes the token; a credential store that refuses it without saying so (src/mdlogger/auth/credential_store.py:170-171) keeps the token, which is not modelled.
- Handoff: a result of an older generation is dropped in the model; NoStaleCompletion shows that there is none, so the cleanup the program has for it is never reached.
- Handoff: the new application started after the installation, and the receipt it writes, are a separate run; the helper's state file is only followed to the end of the helper.
- Hashes are injective: the revision of a local row, archive checksums and guest signatures are represented by what is hashed. RSA verification is an input of the helper.
- The server keeps tombstones for good and checks who owns a record; the validation of fields, the create receipts and the account deletion of the SQL functions are not part of this model.
- HTTP and its errors are inputs: a reply of the shape the client checks, or a failure. A request that is abandoned may or may not have been served.
- SQLite transactions are single steps; the failure of a transaction leaves the tables unchanged and is not a step.
- Time only appears where a decision depends on it: retry times, the import order and the deletion time are inputs. Back-off lengths and jitter are left out.
- UTF-8 encoding and decoding are the identity on texts; only encoded sizes are computed.
- Symbolic links, file permissions, size limits of the journal and stale lock files are left out of the reset and of the job directories.
- Guest synchronisation, game modes, settings, statistics, rank arithmetic and version comparison are not modelled.
- An update offer that is deferred until the window is ready is shown at once in the model.
- Widgets and signals are reduced to the flags and stages of the update controller; whether the window and profile still fit is an input.
- Failure marks of single outbox entries after an id was used again are not stated; failures are stated on the rows.
