# Verification of the data relay platform's protocols

A Dafny 4.11 model of five parts of the platform and proofs about them. Run

    dafny verify dfyconfig.toml

to check everything.

## What is modelled

**Backfill jobs** (`app/backfill/`). A job is PENDING, RUNNING, CANCELLING, COMPLETED, FAILED or
CANCELLED. Calls that create, start and cancel jobs, the worker a start runs, and startup recovery
interleave; they share a stream's advisory lock, row locks, short transactions, an event log and the
coordinator's volatile sets.

- `BackfillProgram` gives every call as a program over single database and coordinator operations:
  what each reads, commits and does next, and which locks it takes and holds.
- `BackfillSystem` is the transition system: one step per operation of one thread, a step in which
  an operation raises, a crash of the process, recovery job by job, and the history of lost events.
- `BackfillInvariant` and `BackfillSafety` hold the rely/guarantee invariant and its preservation by
  every step. `BackfillTheorems` states what follows for all reachable states and all runs,
  `BackfillScenarios`, `BackfillStuck` and `BackfillCancels` three plausible claims that are false, with
  runs that show it and the exact conditions. `NoDeadlock`, `SchedulesEnd` and `AllCallsReturn` say that
  calls go on and end.
- `BackfillOutcomes` says over every run what must have happened before a job has its status, and what
  follows once the runner has returned. `BackfillAlone` has the status, the flags and the events that a
  call leaves when nobody else holds its stream, as a table.
- `BackfillRuntime`, `BackfillServer` and `BackfillRecovery` have the service, the worker and the
  coordinator as classes and methods, statement by statement, with other calls running in between.
  `Interfere` is known to its callers by its contract only: any run of other calls. Each operation
  must be the one the program has at that point, so the methods' runs are runs of the system.

**Configuration export and import** (`app/backup/`). `BackupJson` and `BackupMasking` model JSON,
masking, stripping and the export's own masking check; `BackupStore` the eight tables, whose columns
are described by one table of reading rules per entity; `BackupValidator` the validator with its
loops; `BackupImport` and `BackupGraph` the import as a graph transformation and when it makes all its
rows; `BackupService` one `apply_import` call and `BackupApply` exactly when it succeeds;
`BackupRuns` sequences of calls with idempotency keys, `BackupKeys` the same in terms of the texts of
the requests, and `BackupLocks` calls at the same time; `BackupExport`, `BackupIntegrity`,
`BackupRoundTrip` and `BackupClone` the export, the check it carries, the round trip and the cloning of
connectors. `BackupFidelity` says place by place what masking leaves of a JSON value and what an import
restores of it, `BackupRestored` the same column by column of a row, `BackupRules` what an accepted
bundle is like and which names are secret.

**Login throttle** (`LoginHistory` for what counts against a request, `LoginThrottle`, `LoginBounds`),
**session tokens** (`SessionTokens`, `SessionGrants` for exactly when each request succeeds and where
tokens come from, and `SessionRaces` for refreshes that overlap), the **curl parser** (`CurlParser`, and
`CurlRequests` for the request that a command stands for), **classification totals** (`Classification`),
the **monthly partition loop** (`Partitions`) and **route access** (`RouteAccess`). `Strings` has the
string operations, `Options` the option type.

## Assumptions

- One API process. `get_backfill_job` and `get_backfill_job_for_update` return the committed row (the
  ORM's identity map is not modelled). Rows of jobs are never deleted. Recovery runs only while the
  process starts, before it serves calls; it may be left half done (`app/main.py` goes on when it
  fails), which the step `Serve` allows at any time.
- Lock waits block; nothing is said about fairness. A call that hangs on a lock ends its method with
  `waits`, and then another call holds that lock.
- `StreamRunner.run` and `load_stream_context` return, raise a ValueError or raise anything else
  (`Oracle`).
- Requests to the login throttle read the clock before they take its lock, so they may take it out of
  order. `skew` bounds by how much; for logins served in turn it is 0.
- A preview token is its bundle and mode (SHA-256 taken as injective), a password its hash, a signed
  JWT its claims among the issued ones.
- The JWT library is not part of this model: `grace` is how many seconds after `exp` it still accepts
  a token, 0 under section 4.1.4 of RFC 7519.

## Where code and documentation disagree

- `specs/020-jwt-session-auth` says that the role guard rejects a JWT with an outdated `tv`. The code
  does not look at the row there (`app/auth/role_guard.py:132-172`); `OutdatedAccessExpires` and
  `AccessWorksUntilExpiry` say what holds instead.
- A live worker's job can be ended by a cancel call (`FinalizedWhileOwned`), and an accepted cancel can
  be overwritten by the worker's outcome (`CancelOverwritten`); `CompletedExactly` and `FailedExactly`
  say for every place of the worker which outcomes can still follow.
- A worker does not always end its job: a window with one bound with an offset from UTC and one
  without, or a context that cannot be loaded for another reason than a ValueError, leaves it RUNNING
  (`AbandonedExactly`), until a cancel call (`CancelRescues`) or a restart (`RestartAndRecover`).
- The validator accepts bundles that the import then refuses; `AppliesExactly` says which, and
  `AcceptedButRefused` and `RepeatAccepted` give families.
- Masking prints a null preflight header as "None", which the export's own check reports under the
  names that `AuthPasses` gives, and which the next export masks: such credentials, and only they, do
  not survive the round trip (`ColumnRoundTrip`).
- `refresh` documents single use; two refreshes that overlap both succeed (`BothSucceedExactly`), and a
  refresh in flight is not reached by a password change or a logout everywhere
  (`RevocationSurvived`).
- Running classification totals lose batches when the clock steps back; `StampedExactly` says when.

## Model

| member | source | states |
|---|---|---|
| BackfillSafety.StepKeeps | app/backfill/service.py:232-408 | every step of every interleaving keeps the rely/guarantee invariant |
| BackfillTheorems.AtMostOneActive | app/backfill/service.py:239-280 | in every reachable state a stream has at most one job RUNNING or CANCELLING |
| BackfillTheorems.StatusesMoveForward | app/backfill/service.py:246-248 | no step removes a row, changes anything of it but its status, writes PENDING, or leaves a terminal status |
| BackfillTheorems.TerminalForever | app/backfill/service.py:384-406 | over every run a terminal status is final |
| BackfillTheorems.WhoEndsAJob | app/backfill/worker.py:133-220 | an active job is ended by its worker, by recovery, or by a finalizing cancel that finds CANCELLING while no worker has read RUNNING |
| BackfillTheorems.BodyAtMostOnce | app/backfill/worker.py:58-73 | the worker body of a job is entered at most once over any run, restarts included, and never before it was started |
| BackfillTheorems.ClaimNeverRefused | app/backfill/runtime.py:82-90 | the exclusive claim always finds the job unowned |
| BackfillTheorems.LogRefinesStatus | app/backfill/worker.py:158-220 | unless an event is owed or was lost, folding the job's events from PENDING gives the stored status |
| BackfillTheorems.LogIsOneEventShort | app/backfill/worker.py:35-56 | otherwise exactly the one owed or lost event is missing, and only of a terminal job |
| BackfillTheorems.WorkerEndsTheJob | app/backfill/worker.py:75-220 | a worker at the end of its body has ended a job with a replay window or a complete dry run; one that acknowledged a cancel has cancelled it; one that left by an exception it does not catch leaves it active |
| BackfillTheorems.CancelSeenEnds | app/backfill/worker.py:81-138 | over every run, a worker whose check sees the flag or CANCELLING and that gets to its end without raising has acknowledged, and the job is CANCELLED from then on |
| BackfillTheorems.SchedulesEnd | app/backfill/service.py:232-372 | without new calls every schedule ends: no run is longer than what the calls have left |
| BackfillTheorems.AllCallsReturn | app/backfill/service.py:232-372 | from every state a serving process can be in, the calls under way can all return |
| BackfillTheorems.OwnStepsBounded | app/backfill/service.py:232-372 | a call performs a bounded number of operations whatever interleaves |
| BackfillTheorems.NoDeadlock | app/backfill/repository.py:36-57 | a call that cannot go on waits for a lock of one that can |
| BackfillTheorems.CancelAgainEnds | app/backfill/service.py:354-408 | a cancel of a CANCELLING job returns with the job terminal or having seen a live owner |
| BackfillScenarios.FinalizedWhileOwned | app/backfill/service.py:390-405 | a reachable state in which a cancel call is about to end a job that a live worker owns |
| BackfillScenarios.OwnedWhileFinalized | app/backfill/service.py:390-405 | while a finalizing cancel is about to commit, the job is owned exactly when a worker is in its body, and that worker has not read RUNNING |
| BackfillScenarios.EveryPlaceOccurs | app/backfill/worker.py:61-83 | each of the places such a worker can be in occurs in some run |
| BackfillScenarios.ClaimedInBetween | app/backfill/worker.py:58-73 | over every run, that worker claimed the job after the cancel had looked for an owner, and before now |
| BackfillScenarios.OwnedJobEndedByWorker | app/backfill/service.py:375-408 | a step ends an owned job through its worker if and only if it is not the commit of such a cancel |
| BackfillScenarios.CancelOverwritten | app/backfill/worker.py:133-172 | for every window and outcome, a reachable state in which the worker will store the outcome over an accepted cancel |
| BackfillCancels.CompletedExactly | app/backfill/worker.py:133-172 | from any reachable state in which a job is CANCELLING, COMPLETED can follow in some run if and only if its worker is about to store COMPLETED |
| BackfillCancels.FailedExactly | app/backfill/worker.py:86-199 | FAILED can follow if and only if its worker is about to store that, or between its first and second look at the cancel flag with a window, context or run ahead that can fail |
| BackfillCancels.OtherwiseCancelled | app/backfill/service.py:328-408 | over every run, restarts included, with the worker anywhere else a CANCELLING job stays so until it is CANCELLED |
| BackfillOutcomes.WhyAJobIsWhereItIs | app/backfill/worker.py:75-288 | over every run: a job is COMPLETED only after the runner came through for its window, or with a complete dry run; FAILED only after the runner found the stream locked, something went wrong, or the process died; started or cancelled only after a call for that |
| BackfillOutcomes.RunDecides | app/backfill/worker.py:129-180 | over every run, once the runner has returned to a worker that gets to its end, the job is cancelled, or for good FAILED if the stream was locked and COMPLETED if not |
| BackfillOutcomes.LoggedAsReturned | app/backfill/worker.py:174-180 | over every run, the log reports the return of a run only as it was |
| BackfillOutcomes.LogTellsOutcomes | app/backfill/worker.py:158-220 | which status each of the deciding events tells |
| BackfillAlone.RunsAlone | app/backfill/service.py:232-408 | a call on a stream whose lock is free can run to its end on its own, and leaves what the tables below say |
| BackfillAlone.WorkerEnds | app/backfill/worker.py:58-288 | status and events of a worker, for every window, mark, context and run |
| BackfillAlone.StartEnds | app/backfill/service.py:232-288 | status and events of a start, refusals included |
| BackfillAlone.CancelEnds | app/backfill/service.py:291-408 | status, flags and events of a cancel, for every status, with and without a live owner |
| BackfillAlone.CancelledWorkerEnds | app/backfill/worker.py:81-83 | a worker that finds its job CANCELLING cancels it |
| BackfillStuck.AbandonedExactly | app/backfill/worker.py:86-112 | a job can be left active with nobody working on it if and only if its bounds cannot be compared, or loading the context raises other than a ValueError, or, without a replay window, its dry run is not marked complete |
| BackfillStuck.CancelRescues | app/backfill/service.py:291-408 | one cancel call, run on its own, ends any active job without an owner in CANCELLED |
| BackfillServer.Server.Interfere | app/backfill/runtime.py:28-32 | other calls run in between; a thread keeps its place |
| BackfillServer.Server.Look | app/backfill/repository.py:32-33 | one reading operation: what it saw, the step it is, where the thread goes |
| BackfillServer.Server.Acquire | app/backfill/repository.py:36-57 | one operation that waits for a lock, or hangs |
| BackfillServer.Server.EmitEvent | app/backfill/worker.py:35-56 | appends the event in a transaction of its own |
| BackfillServer.Server.Commit | app/backfill/service.py:267-280 | commits the status together with its staged events, and nothing else |
| BackfillServer.Server.SaveJob | app/backfill/repository.py:41-45 | the worker's save waits for the row lock |
| BackfillServer.Server.ClaimJobOwner | app/backfill/worker.py:61-62 | the claim succeeds and the job is owned |
| BackfillServer.Server.ReleaseJobOwner | app/backfill/worker.py:72-73 | the `finally` clause drops ownership; what the job's status is by then, exit by exit |
| BackfillServer.Server.ClearJobSession | app/backfill/worker.py:220 | drops session, cancel flag and ownership |
| BackfillServer.Server.RequestCancel | app/backfill/service.py:334-335 | sets the cancel flag |
| BackfillServer.Server.CancelTerminal | app/backfill/worker.py:201-220 | leaves the job CANCELLED, or is blocked by a call that holds the row |
| BackfillServer.Server.FailJob | app/backfill/worker.py:182-199 | leaves the job FAILED, or is blocked by a call that holds the row |
| BackfillServer.Server.RunReplayJob | app/backfill/worker.py:75-106 | unless cancelled, the job is COMPLETED if its window is one, its context was loaded and the runner returned and was not locked out, and FAILED otherwise, wherever a cancel lands; raises only for bounds that cannot be compared or a context that cannot be loaded |
| BackfillServer.Server.RunStream | app/backfill/worker.py:108-127 | the same from loading the context on; raises exactly when loading raises other than a ValueError |
| BackfillServer.Server.StoreOutcome | app/backfill/worker.py:129-180 | once the runner has returned, an uncancelled job is FAILED if the stream was locked and COMPLETED if not |
| BackfillServer.Server.RunDryLifecycle | app/backfill/worker.py:222-259 | a dry run that is marked complete leaves the job COMPLETED or cancelled |
| BackfillServer.Server.StoreProgress | app/backfill/worker.py:261-288 | the same once the chunk markers are out |
| BackfillServer.Server.SaveProgress | app/backfill/worker.py:270-288 | stores COMPLETED only when the dry run is marked complete |
| BackfillServer.Server.StartJob | app/backfill/worker.py:58-73 | afterwards an uncancelled job with a replay window or a complete dry run has the status that its window, its context and its run lead to, or the worker raised and the job is active without an owner |
| BackfillServer.Server.CreateBackfillJob | app/backfill/service.py:173-210 | inserts the row, PENDING, with its stream, window and mark, and logs its creation event |
| BackfillServer.Server.StartBackfillJob | app/backfill/service.py:232-288 | a start that went through found the job PENDING, made it RUNNING and answers with the status that its window, its context and its run lead to, unless cancelled, or raised with the worker; a refused one saw the status it reports, or another active job of the stream |
| BackfillServer.Server.CancelBackfillJob | app/backfill/service.py:291-372 | an accepted cancel has cancelled the job or saw a live owner; a refused one saw the status it reports, terminal or changed during the call |
| BackfillServer.Server.CancelPending | app/backfill/service.py:300-326 | an accepted cancel of a PENDING job has cancelled it; a refused one saw another status |
| BackfillServer.Server.CancelRunning | app/backfill/service.py:328-352 | sets the flag, commits CANCELLING, then leaves the job to its owner or finalizes it |
| BackfillServer.Server.CancelAgain | app/backfill/service.py:354-361 | the same for a job that is CANCELLING already; refused only when the job has ended |
| BackfillServer.Server.FinalizeCancellingWithoutOwner | app/backfill/service.py:375-408 | ends the job, reports a status that is terminal already, or saw an owner |
| BackfillRuntime.BackfillRuntimeCoordinator.ClaimJobOwner | app/backfill/runtime.py:82-90 | claims exactly when nobody owns the job |
| BackfillRuntime.BackfillRuntimeCoordinator.ReleaseJobOwner | app/backfill/runtime.py:92-94 | drops ownership and nothing else |
| BackfillRuntime.BackfillRuntimeCoordinator.RequestCancel | app/backfill/runtime.py:100-102 | sets the flag and nothing else |
| BackfillRuntime.BackfillRuntimeCoordinator.ClearJobSession | app/backfill/runtime.py:75-80 | drops session, flag and ownership of this job only |
| BackfillRuntime.BackfillRuntimeCoordinator.RegisterJobSession | app/backfill/runtime.py:59-68 | attaches a session seeded from the snapshot |
| BackfillServer.Server.Restart | app/backfill/runtime.py:26-32 | rows and events stay, calls and the coordinator's memory are gone |
| BackfillRecovery.ListActiveBackfillJobs | app/backfill/repository.py:70-78 | the active jobs, in ascending order of ids |
| BackfillRecovery.ReconcileOrphanedBackfillJobs | app/backfill/service.py:58-124 | RUNNING became FAILED, CANCELLING became CANCELLED, one event each in order of ids, all else unchanged; the counts are those of the transitions |
| BackfillRecovery.RecoveryIsComplete | app/backfill/service.py:58-124 | afterwards no job is active, exactly the RUNNING ones are newly FAILED and the CANCELLING ones CANCELLED, and a further pass changes nothing |
| BackfillRecovery.ReportTells | app/backfill/service.py:58-124 | each event reports lost ownership of a job that was RUNNING, and the cancel of one that was CANCELLING |
| BackfillRecovery.ReconcileTwice | app/backfill/service.py:58-124 | a second pass returns zeros |
| BackfillRecovery.RestartAndRecover | app/main.py:136-161 | a process that died and came up again serves calls with no job active, each recovered with its event, and nothing left in memory |
| BackfillRecovery.BootOwnsNothing | app/backfill/runtime.py:30-32 | a starting process owns no job and serves no call |
| BackupMasking.StripLeavesNoMask | app/backup/service.py:71-76 | stripping leaves no mask as a dict value or list item |
| BackupMasking.StripFixes | app/backup/service.py:71-76 | stripping is the identity exactly on mask-free JSON |
| BackupMasking.StripIdempotent | app/backup/service.py:71-76 | stripping twice is stripping once |
| BackupMasking.ConfigSettles | app/security/secrets.py:177-186 | masking what was masked and stripped changes nothing |
| BackupMasking.LeavesAreOutermost | app/backup/export_validation.py:48-64 | the masking check looks at exactly the outermost sensitive fields, at any depth |
| BackupMasking.FieldsPassExactly | app/backup/export_validation.py:100-112 | nothing is reported exactly when every outermost sensitive field is blank or the mask |
| BackupMasking.ConfigPasses | app/backup/export_validation.py:92-142 | masked stream and destination configs pass the check, webhook headers included |
| BackupMasking.SecretsPass | app/backup/export_validation.py:92-142 | masked source configs and checkpoint values pass it |
| BackupMasking.AuthPasses | app/backup/export_validation.py:79-107 | masked credentials and preflight headers pass it if and only if no null header has a name that the check looks for and masking does not hide |
| BackupMasking.PrintedNullReported | app/backup/export_builder.py:42-50 | a null preflight header named like a sensitive field, but not like a sensitive header, is reported |
| BackupRules.SpellingsAlike | app/security/secrets.py:45-54 | a key is secret in all spellings, by case and dashes, or in none |
| BackupRules.PemTexts | app/security/secrets.py:149-155 | a text is PEM when a begin and an end mark are in it |
| BackupRules.SecretHeaders | app/security/secrets.py:57-77 | headers named for secrets, tokens and passwords are hidden |
| BackupRules.ListedHeaders | app/security/secrets.py:33-42 | so are the listed ones |
| BackupFidelity.SecretsExport | app/security/secrets.py:132-146 | in a masked value, along every path past no secret: objects keep their keys, arrays their length, leaves their values; secrets that are not blank are hidden |
| BackupFidelity.PemExport | app/security/secrets.py:189-195 | the same for checkpoint values, where PEM texts are hidden, too |
| BackupFidelity.ConfigExport | app/security/secrets.py:163-186 | the same for configurations of streams and destinations, past headers objects, whose texts are hidden or kept one by one; what is free of all this is unchanged |
| BackupFidelity.AuthIsExported | app/backup/export_builder.py:42-50 | the same for the credentials of a source and its preflight headers |
| BackupFidelity.StripRestores | app/backup/service.py:71-76 | whatever an export kept of a value, stripping restores: of objects every entry that is not lost, of arrays those that are free of masks, and every other value |
| BackupFidelity.AuthIsRestored | app/backup/service.py:296-300 | the same for credentials, which end up with an authentication type in any case |
| BackupValidator.CheckRow | app/backup/import_validator.py:136-349 | the checks of one row report exactly its faults, or raise on a number that cannot be read |
| BackupValidator.CheckRows | app/backup/import_validator.py:136-349 | a loop over an array reports exactly the faults of its rows |
| BackupValidator.CheckNames | app/backup/import_validator.py:149-241 | reports a duplicate exactly when two rows share a nonblank name |
| BackupValidator.CheckLinkage | app/backup/import_validator.py:351-373 | reports exactly routes without mappings |
| BackupValidator.ValidateImportBundle | app/backup/import_validator.py:72-468 | raises or reports exactly the faults of the bundle |
| BackupGraph.AcceptedExactly | app/backup/import_validator.py:72-373 | the accepted bundles are exactly the well-formed ones |
| BackupRules.AcceptedMeans | app/backup/import_validator.py:72-373 | an accepted bundle in plain terms: mode, version, every reference to an entry of the bundle or a stored destination, names that do not repeat, a mapping beside every route |
| BackupRules.SupportedTexts | app/backup/import_validator.py:33-61 | which failure policies, source types and destination types are supported |
| BackupRules.SectionsAre | app/backup/import_validator.py:115-126 | the entries of each kind come from its own array |
| BackupImport.ImportArray | app/backup/service.py:251-419 | the loop over one array computes the rows, the id map and the unresolved mark of `ImportRows` |
| BackupImport.RowsOfMade | app/backup/service.py:251-419 | when no entry is skipped the rows follow the entries and get consecutive ids |
| BackupImport.IdsOfMade | app/backup/service.py:251-340 | the id map leads from each export id to its last entry's row |
| BackupGraph.SucceedsExactly | app/backup/service.py:251-432 | after validation the eight loops come through exactly when sources have ids, columns can be read, and without cloning every route's destination is in the bundle |
| BackupApply.ClashExactly | alembic/versions/20260505_0001_initial_schema.py:85-146 | two created rows violate a unique constraint exactly when their entries refer to the same ids |
| BackupApply.ConstraintsExactly | alembic/versions/20260505_0001_initial_schema.py:85-146 | the database lets the created rows pass exactly when the bundle has one mapping, enrichment and checkpoint per stream and one route per stream and destination |
| BackupRules.NothingRepeats | alembic/versions/20260505_0001_initial_schema.py:85-146 | after an import no two mappings, enrichments or checkpoints share a stream, and no two routes a stream and a destination |
| BackupApply.AppliesExactly | app/backup/service.py:227-476 | a confirmed import of an accepted bundle succeeds if and only if the loops come through and the bundle does not repeat itself; otherwise it is refused as a duplicate exactly in the second case |
| BackupApply.RepeatAccepted | app/backup/import_validator.py:315-330 | repeating a mapping keeps a bundle acceptable and makes it impossible to import |
| BackupGraph.OneRowPerEntry | app/backup/service.py:251-419 | one row per bundle row in order, no skip branch taken |
| BackupGraph.PlanRef | app/backup/service.py:390-408 | every reference is the remapped one, or in a clone a stored destination |
| BackupGraph.GraphIsomorphism | app/backup/service.py:251-419 | with distinct export ids, a created row points to a created row exactly when its entry pointed to that row's entry |
| BackupService.NewestIs | app/backup/service.py:107-129 | the look-back finds the newest record of the key among the last 200, if any |
| BackupService.ConfigurationService.FindCompletedImportApply | app/backup/service.py:107-129 | the loop over the log answers as that look-back |
| BackupService.ConfigurationService.ImportBundle | app/backup/service.py:239-419 | the eight loops make the plan |
| BackupService.ConfigurationService.ImportAndCommit | app/backup/service.py:421-476 | commits all created rows with their record, or nothing; unique constraints of all four tables included |
| BackupService.ConfigurationService.ApplyImport | app/backup/service.py:227-476 | the whole call: mode, key, replay, validation, token, confirmation, import, in this order |
| BackupRuns.Atomicity | app/backup/service.py:227-476 | a call leaves rows and log alone or appends its rows and its record; nothing older changes |
| BackupRuns.RowsComeTogether | app/backup/service.py:421-476 | over every run, each row was there at first or came with a call all of whose rows, and whose record, are there as well |
| BackupRuns.ReplayedExactly | app/backup/service.py:231-236 | a call whose key, trimmed, is neither blank nor longer than 128 is answered from the log exactly when that text is the key of one of the last 200 records |
| BackupRuns.OnlyRecord | app/backup/service.py:107-151 | until 200 later completions the key has one record |
| BackupRuns.RetryIsReplayed | app/backup/service.py:107-151 | a retry with fewer than 200 later completions changes nothing and gets the first answer as a replay |
| BackupKeys.CallExactly | app/backup/service.py:82-93 | which texts of mode and key are refused; only confirmed calls with the token of their bundle and mode create anything; answers carry the trimmed key |
| BackupKeys.LogIs | app/backup/service.py:132-151 | over every run from an empty log, the log is the keyed calls that created something, in order, under their trimmed keys |
| BackupKeys.AnsweredFromLogExactly | app/backup/service.py:107-129 | over every such run, a call is answered from the log if and only if its key, trimmed, is usable and that of one of the last 200 keyed calls that created something; it gets the newest one's answer |
| BackupKeys.AnswerNamesRows | app/backup/service.py:451-465 | the answer names the new rows; the redirect is to the only new stream, or else the only new connector |
| BackupKeys.ReferencesAre | app/backup/service.py:251-419 | which rows point to which |
| BackupLocks.OneImportPerKey | app/backup/service.py:96-129 | calls at the same time: between two imports of a key there are always 200 others, by id, if and only if the database has the advisory lock |
| BackupLocks.SameLookBack | app/backup/service.py:107-129 | where commits come in the order of ids, that look-back is the one of a single call |
| BackupExport.ExportAccepted | app/backup/export_builder.py:181-205 | every database accepts the workspace export, with destinations, of a healthy one |
| BackupRestored.ExportsExactly | app/backup/export_builder.py:30-160 | column by column, an exported row is the stored one, but for the masking of configurations, credentials and checkpoint values |
| BackupRestored.RestoresExactly | app/backup/service.py:251-419 | column by column, the row made of an exported one holds the stored value, a default for a blank one, or the state new rows start in: stopped, disabled, with the suffix of a clone |
| BackupRestored.Defaults | app/backup/service.py:251-419 | what a row holds of which the bundle says nothing |
| BackupRestored.ReadableIs | app/backup/service.py:251-419 | the columns of an entry can be read if and only if its JSON columns are objects or blank, and its interval is a number, a text of one, or blank |
| BackupRoundTrip.ColumnRoundTrip | app/backup/export_builder.py:30-160 | one column out, in and out again is the settled value, except, and exactly, for credentials with a null preflight header that masking prints |
| BackupRoundTrip.MadeColumns | app/backup/service.py:251-419 | the columns of a created row are the settled ones of the exported row, names with the suffix of a clone |
| BackupRoundTrip.SettledIdempotent | app/backup/service.py:296-340 | further round trips change nothing but ids |
| BackupIntegrity.VerifyRows | app/backup/export_validation.py:92-142 | the loop over an array reports exactly its rows with an unmasked secret |
| BackupIntegrity.VerifyExportMasking | app/backup/export_validation.py:92-142 | the check reports exactly the rows with an unmasked secret |
| BackupIntegrity.ReportedExactly | app/backup/export_validation.py:66-142 | a row is reported if and only if there is something unmasked under a sensitive name in the columns that are checked, or among its preflight or webhook headers |
| BackupIntegrity.ExportVerified | app/backup/export_builder.py:181-205 | a row of a workspace export passes the check the export carries, if and only if it is not a source with such a header |
| BackupRoundTrip.ExportImports | app/backup/service.py:227-476 | the import of an export comes through: additive with destinations everywhere, a clone also where the destinations are stored |
| BackupRoundTrip.MadeRef | app/backup/service.py:287-419 | a reference to the k-th exported row becomes one to the k-th created row |
| BackupRoundTrip.ExportApplies | app/backup/service.py:227-476 | the apply call on such an export, with no key or one not among the last 200, succeeds and appends one row per travelling row |
| BackupRoundTrip.RoundTrip | app/backup/export_builder.py:181-205 | a row is exported as it is stored but for the masking, and the created row holds what was stored but for what is masked, blank or reset; re-exporting it gives the original up to its id, renamed references and settled columns; a source's credentials are settled if and only if none of its null preflight headers is printed |
| BackupRoundTrip.AcceptedButRefused | app/backup/service.py:401-432 | without destinations, re-import into the same database passes validation and is refused |
| BackupClone.PartHealthy | app/backup/export_builder.py:208-266 | a connector's part of a healthy database, as its export reads it, is healthy |
| BackupClone.PartIs | app/backup/export_builder.py:208-266 | a connector's part is itself, its sources and streams, and all that hangs on these streams |
| BackupClone.CloneSucceeds | app/backup/service.py:479-501 | cloning a connector always succeeds: one new connector, as many new rows as belong to it, nothing else changed |
| BackupClone.CloneCopies | app/backup/service.py:479-501 | each new row is a copy of one of the connector's: it holds what that row holds but for what is masked, blank or reset, with suffixed names, references to the copies, routes to the same destinations |
| BackupClone.CloneKeepsDestinations | app/backup/service.py:396-399 | the clone's routes go to the original's destinations |
| LoginThrottle.Prune | app/auth/login_throttle.py:32-35 | leaves the rest after the leading times before the cutoff |
| LoginThrottle.CountOf | app/auth/login_throttle.py:32-35 | what pruning leaves counts the times since the cutoff: exactly for times in order, and up to `skew` for times out of order by that much |
| LoginThrottle.KeysAreShared | app/auth/login_throttle.py:64-66 | two texts share a queue if and only if they name the same user, or give the same address |
| Strings.TrimIs | app/auth/login_throttle.py:65-66 | trimming takes away blanks at both ends, all of them and nothing else |
| Strings.LowerAgrees | app/auth/login_throttle.py:65-65 | names agree exactly when they differ in the case of letters only |
| LoginHistory.OthersDoNotCount | app/auth/login_throttle.py:68-81 | what happens under other names and at other addresses changes no answer |
| LoginHistory.FreshLetIn | app/auth/login_throttle.py:68-81 | without failures of the same user or address every request is let in |
| LoginHistory.SameMeans | app/auth/login_throttle.py:64-66 | texts name the same user exactly when they agree but for case, and give the same address exactly when they agree, blanks around them aside |
| LoginHistory.SamePositions | app/auth/login_throttle.py:64-66 | spelling does not matter to what is held against a request |
| LoginHistory.SuccessForgets | app/auth/login_throttle.py:103-108 | after a success no failure under that name counts |
| LoginHistory.DefaultLimits | app/auth/login_throttle.py:18-23 | by default fewer than 8 failures of the user and fewer than 40 from the address in 15 minutes |
| LoginThrottle.LoginThrottle.CheckLoginAllowed | app/auth/login_throttle.py:55-81 | refuses exactly when a limit is reached, counting the failures in the window from the same address, and those under the same name since its last success; requests out of order by at most `skew` move the window by no more |
| LoginThrottle.LoginThrottle.RecordLoginFailure | app/auth/login_throttle.py:84-100 | adds the failure to both histories, the queues keep tracking them |
| LoginThrottle.LoginThrottle.RecordLoginSuccess | app/auth/login_throttle.py:103-108 | forgets the user's failures and not the address's |
| LoginBounds.IpBound | app/auth/login_throttle.py:55-100 | in any interval of the window's length less the skew at most limit + n - 1 failures of one address with n requests in flight; a request that raises is in flight until then |
| LoginBounds.UserBound | app/auth/login_throttle.py:55-108 | the same for one username between its successes |
| LoginBounds.Login | app/auth/router.py:130-168 | a login is let in exactly when no limit is reached; it checks, then records how it went; logins served in turn keep the history serial |
| LoginBounds.SerialBounds | app/auth/login_throttle.py:18-23 | served in turn, with the default limits: 40 and 8 |
| SessionTokens.ServeIsSound | app/auth/router.py:121-310 | every request keeps the token invariant |
| SessionTokens.ServeMovesOn | app/auth/router.py:121-310 | versions never fall and no token is issued for a version the row has left |
| SessionTokens.OutdatedForever | app/auth/router.py:197-204 | a token behind its row stays behind over every run |
| SessionTokens.OutdatedRefused | app/auth/router.py:280-281 | it refreshes nothing, changes no password and identifies nobody |
| SessionTokens.RaisingOutdatesAll | app/auth/router.py:246-247 | whatever raises a version outdates all tokens of that user |
| SessionTokens.RefreshConsumes | app/auth/router.py:179-222 | a refresh outdates its token and all siblings and issues a current pair |
| SessionTokens.SingleUse | app/auth/router.py:179-222 | over every run a refresh token succeeds at most once |
| SessionTokens.OutdatedAccessExpires | app/auth/role_guard.py:132-172 | the middleware takes an outdated access token only within its lifetime after the bump |
| SessionTokens.AccessWorksUntilExpiry | app/auth/role_guard.py:203-253 | and takes it until then, whatever happens to the row |
| SessionTokens.RefreshWorks | app/auth/router.py:189-222 | a current, unexpired refresh token of an active user works |
| SessionGrants.LoginExactly | app/auth/router.py:121-176 | a login hands out a pair of new tokens if and only if the row exists, is active and has that password; otherwise it fails and changes nothing |
| SessionGrants.RefreshExactly | app/auth/router.py:179-222 | a refresh succeeds if and only if its token is a valid refresh token of an active user still at its version, which it raises; the reason otherwise |
| SessionGrants.LogoutExactly | app/auth/router.py:225-258 | a logout revokes if and only if it is asked to with a valid access token of a user who exists |
| SessionGrants.PasswordChangeExactly | app/auth/router.py:261-310 | a password change succeeds if and only if the token is valid and current, the old password right and the new one allowed; then the new one logs in, the old one does not, and all tokens are outdated |
| SessionGrants.WhoAmIExactly | app/auth/router.py:313-358 | identifies exactly the bearer of a valid and current access token |
| SessionGrants.CallExactly | app/auth/role_guard.py:203-253 | any other request is let through exactly with a valid access token that does not ask for a password change |
| SessionGrants.VersionsRiseExactly | app/auth/router.py:179-310 | what raises a version, and that nothing else does |
| SessionGrants.PasswordsChangeExactly | app/auth/router.py:282-300 | a password changes by its user, who knows the old one, or by an administrator |
| SessionGrants.UpdateExactly | app/platform_admin/router.py:681-732 | what an administrator's update does to a row, field by field |
| SessionGrants.AdministrationExactly | app/platform_admin/router.py:645-770 | creating, deleting and waiting |
| SessionGrants.TokensComeFromLogins | app/auth/router.py:121-222 | over every run, each issued token comes after a login of its user with the password that the row had then |
| SessionGrants.PasswordHolds | app/auth/router.py:121-310 | over every run, until it is set again a password logs in while the row is active, and no other does |
| SessionRaces.BeginExactly | app/auth/router.py:189-204 | a refresh gets past its checks if and only if its token is valid and current then |
| SessionRaces.CommitWrites | app/auth/router.py:201-222 | a commit writes the version that was read plus one, whatever the row has now, and hands out a pair for it; it fails only when the user is gone |
| SessionRaces.CommitExactly | app/auth/router.py:189-222 | a commit does what a refresh at that moment would do if and only if the row is as it was read; it lowers the version if and only if it was raised twice since |
| SessionRaces.BothSucceedExactly | app/auth/router.py:193-211 | of two refreshes with one working token the second succeeds too when it begins before the first commits, and is refused when it begins later |
| SessionRaces.SingleUseUnlessRaced | app/auth/router.py:189-222 | over every run, overlapping or not, a refresh token is single use as long as each commit finds the version its refresh has read |
| SessionRaces.BeginsTooLate | app/auth/router.py:193-200 | over every run, a refresh that begins after the first use of its token is refused, unless a commit in between lowered the version |
| SessionRaces.UsedAgainExactly | app/auth/router.py:193-211 | a second use happens if and only if the user is still there when it commits, and it has begun before the first use or after such a commit |
| SessionRaces.WorksTwice | app/auth/router.py:201-211 | the latter happens: with an older refresh in flight a token works twice one after the other |
| SessionRaces.CommitIsCurrent | app/auth/router.py:201-222 | what a commit hands out is current whatever happened to the row since |
| SessionRaces.RevocationSurvived | app/auth/router.py:240-304 | whatever raises the version while a refresh is in flight stops later refreshes and not this one |
| SessionRaces.EveryTokenFromLogin | app/auth/router.py:121-222 | over every run, overlapping or not, each issued token comes after a login of its user with the password that the row had then |
| SessionTokens.AuthRouter.LoginUser | app/auth/router.py:121-176 | one login |
| SessionTokens.AuthRouter.RefreshSession | app/auth/router.py:179-222 | one refresh |
| SessionTokens.AuthRouter.LogoutUser | app/auth/router.py:225-258 | one logout; an outdated token still revokes |
| SessionTokens.AuthRouter.ChangeOwnPassword | app/auth/router.py:261-310 | one password change |
| SessionTokens.AuthRouter.BuildTokenBundle | app/auth/token_bundle.py:34-71 | issues an access and a refresh token at the row's version |
| CurlParser.ParseTokens | app/backup/curl_parser.py:115-203 | the token loop ends and computes what the option groups say |
| CurlParser.FlattenGroups | app/backup/curl_parser.py:121-159 | every token list is the sequence of its groups |
| CurlParser.GroupsFlattened | app/backup/curl_parser.py:121-159 | complete groups are read back as written |
| CurlParser.GetHasNoBody | app/backup/curl_parser.py:181-196 | a request that is a GET in the end has no body |
| CurlParser.OrderDoesNotMatter | app/backup/curl_parser.py:115-203 | any permutation of groups that do not clash, one of them a URL, parses to the same request |
| CurlRequests.LastDecides | app/backup/curl_parser.py:121-159 | of several options that set the same thing the last one decides, and all data are kept in order |
| CurlRequests.RequestExactly | app/backup/curl_parser.py:161-203 | the request a command stands for: without data as it says; with `--get` all data in the query; otherwise a GET becomes a POST and the last data are its body |
| CurlRequests.AddressExactly | app/backup/curl_parser.py:155-173 | its URL is the last one, or the first token that looks like one; without any there is no request |
| CurlRequests.FirstUrlIs | app/backup/curl_parser.py:161-165 | the fallback finds the first token that looks like a URL, if any does |
| CurlRequests.HeaderExactly | app/backup/curl_parser.py:129-153 | a header option sets the header before its first colon, credentials set Authorization |
| CurlRequests.RequestFlags | app/backup/curl_parser.py:124-128 | spellings of the method option |
| CurlRequests.DataFlags | app/backup/curl_parser.py:135-139 | spellings of the data options |
| CurlRequests.UnquotedIs | app/backup/curl_parser.py:155-158 | quotes around a URL are taken away and nothing else |
| CurlRequests.UrlsLook | app/backup/curl_parser.py:74-76 | what is taken for a URL |
| Classification.DeliveryLog.LoadLatestStageRow | app/platform_summary/stage_metrics.py:11-33 | the row latest by time, then id |
| Classification.DeliveryLog.LoadCumulativeDistribution | app/classification/metrics.py:79-91 | the totals of the row latest by time; with exact rows a recount if and only if the stream's last row is not dated before an earlier one |
| Classification.DeliveryLog.ClassifyEventsForDelivery | app/classification/service.py:18-56 | appends one row with the loaded totals plus one, whatever the clock says; totals stay exact if and only if the last row is not dated before an earlier one |
| Classification.DeliveryLog.BuildPlatformSummary | app/classification/metrics.py:189-214 | equals a recount over all streams if and only if each stream's last row is exact |
| Classification.DeliveryLog.LatestRowOf | app/platform_summary/stage_metrics.py:57-75 | the row of the stream with the greatest id |
| Classification.DeliveryLog.WriteOther | app/platform_summary/stage_metrics.py:57-75 | rows of other stages in the same table leave all totals as exact as they were |
| Classification.LevelsAddUp | app/classification/metrics.py:56-119 | the levels add up to the number of rows |
| Classification.RecountCounts | app/classification/metrics.py:56-119 | each total is the number of rows of its level |
| Classification.LoadedExactly | app/classification/metrics.py:79-91 | with exact rows the next batch counts on from the exact totals if and only if the last row is not dated before an earlier one |
| Classification.StampedExactly | app/classification/metrics.py:94-119 | all totals of a log are exact if and only if no row dated before an earlier one of its stream was followed by another |
| Classification.NeverTooHigh | app/classification/metrics.py:94-119 | whatever the clock does, totals are never too high |
| Classification.SameLatest | app/platform_summary/stage_metrics.py:11-75 | latest by time and latest by id agree while the clock does not step back |
| Classification.ClockStepsBack | app/classification/metrics.py:79-91 | with a clock that does, a batch is lost from the totals |
| Partitions.CreateMonthlyPartitions | alembic/versions/20260517_0021_observability_scale_foundation.py:157-161 | the loop ends with one partition per month up to the one after the last, or raises past the year 9999 |
| Partitions.Tiling | alembic/versions/20260517_0021_observability_scale_foundation.py:22-47 | every date lies in exactly one partition, neighbours meet, names differ |
| Partitions.NamesDiffer | alembic/versions/20260517_0021_observability_scale_foundation.py:32-33 | different months have different names |
| Partitions.NameReadsBack | alembic/versions/20260517_0021_observability_scale_foundation.py:32-33 | a name reads back as its year and month |
| RouteAccess.OperatorsAgree | app/auth/route_access.py:136-354 | OPERATOR and CONNECTOR_OPERATOR get the same decision for all methods and paths |
| RouteAccess.AdministratorRefusedOnly | app/auth/route_access.py:302-308 | ADMINISTRATOR is refused exactly on changes to AI audit events |
| RouteAccess.AdministratorMayMost | app/auth/route_access.py:136-354 | nobody may do what an administrator may not |
| RouteAccess.OperatorRefusedOnly | app/auth/route_access.py:136-354 | what an operator is refused, exactly |
| RouteAccess.ViewerRefusedOnly | app/auth/route_access.py:136-354 | what a viewer is refused, exactly |
| RouteAccess.GovernanceRefusedOnly | app/auth/route_access.py:136-354 | what each governance role is refused, exactly |
| RouteAccess.OnlyAdministratorsImport | app/auth/route_access.py:177-182 | applying an import takes an administrator |
| RouteAccess.CoversBelow | app/auth/route_access.py:54-55 | a path prefix covers itself and what lies below it only |
| RouteAccess.GovernanceLadder | app/auth/governance_rbac.py:92-157 | AUDITOR may no more than REVIEWER, REVIEWER no more than APPROVER |
| RouteAccess.ViewerOnlyPreviews | app/auth/route_access.py:329-336 | a viewer's only changes are preview posts |
| RouteAccess.GovernanceStaysInside | app/auth/route_access.py:253-261 | governance roles change nothing outside the governance plane, previews apart |

## Left out

- BackfillTheorems.WhoEndsAJob: does not say that an owned job is ended by its worker only, because that is false; see OwnedWhileFinalized and ClaimedInBetween.
- BackfillTheorems.WorkerEndsTheJob: says nothing of a worker one of whose operations raised, or of dry runs not marked complete, which the code leaves RUNNING.
- BackfillStuck.AbandonedExactly: speaks of runs in which no other operation raises and the process does not die.
- BackfillCancels.FailedExactly: lets the context and the runner raise as they like; which contexts do is not modelled.
- BackfillTheorems.LogRefinesStatus: has no converse; an event log tells the status and not when it changed.
- BackfillServer.Server.Interfere: is a contract without a scheduler; which calls run in between is left open.
- BackupRuns.RetryIsReplayed: bounds the protection by 200 later completions, because the look-back does; beyond that ReplayedExactly says that the import runs again.
- BackupApply.AppliesExactly: knows the unique constraints of the database and no limits on column lengths and types.
- BackupLocks.OneImportPerKey: takes what an import makes of its bundle as given, and only follows keys, ids and records.
- BackupIntegrity.VerifyExportMasking: reports each row once, without messages; an array that cannot be iterated is taken as empty.
- BackupRoundTrip.RoundTrip: speaks of workspace exports with destinations; timestamps, `destination_ref`, `destination_name` and the integrity block are not modelled.
- BackupFidelity.ConfigExport: says of header values that are not texts, which masking prints, only that their keys stay.
- BackupFidelity.StripRestores: follows paths of keys; in an array that holds masks the other items move up, and only arrays free of masks are followed into.
- BackupFidelity.AuthIsRestored: says of an authentication type that is neither a text nor null only that there is one.
- BackupKeys.AnsweredFromLogExactly: speaks of calls served one after the other, from an empty log; calls at the same time are in BackupLocks.
- BackupRules.AcceptedMeans: has no converse of its own; AcceptedExactly characterises acceptance in the terms of the checks.
- BackupImport.ImportRows: hands out consecutive ids; gaps left by concurrent sessions are not modelled, and a failed call may use ids up.
- BackupValidator.ValidateImportBundle: reports each kind of conflict once, without message and details; warnings and findings do not influence acceptance and are left out.
- BackfillAlone.RunsAlone: needs the stream's lock to be free from the start; with other calls in between, WhyAJobIsWhereItIs and the contracts of the methods say what holds.
- SessionGrants.LoginExactly: takes the row that has the username as given; looking it up by name is not modelled.
- Strings.LowerAgrees: folds ASCII letters only, where Python folds those of other alphabets too.
- CurlParser.OrderDoesNotMatter: does not cover lists whose URL is only found by the fallback scan, where order matters.
- Partitions.Tiling: speaks of dates; time zones of timestamps are not modelled.
- The status PAUSED of backfill jobs: no code writes it.
- The replay wrapper `replay_stream_backfill`, listing and reading endpoints, and job snapshots: field copying around the modelled calls.
- Stream exports and `clone_stream`, which copies rows without the importer.
- JSON fractions, `dict()` of a list of pairs, and database column lengths and types.
- Concurrent requests other than refreshes with one another and imports with a key.
- The last-administrator guard, user names and audit entries of the user administration.
- URL and query splitting, base64, JSON text and shell tokenizing: parameters of the curl parser.
- Classification rules and the levels they choose: a batch's level is an input.
- HTTP plumbing, schemas, message texts and response formats.
