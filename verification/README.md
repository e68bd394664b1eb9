# Verification of the managed-key broker and its neighbours

This project models, in Dafny, the parts of the repository whose correctness is about many steps, many
callers or exact arithmetic, and proves what those parts promise. `dafny verify dfyconfig.toml` checks
all of it.

## What is modelled

**The managed-key operation protocol** (`BrokerTypes`, `BrokerSql`, `BrokerStore`, `OperationProtocol`,
`OperationInvariant`, `OperationPreserved`, `OperationSteps`, `OperationWorkers`, `OperationForward`,
`OperationSafety`, `OperationGuards`, `OperationCharts`, `OperationRows`, `OperationDeliveries`, `OperationWitness`,
`CleanupRuns`). Issue and resume requests, delivery
acknowledgements, cron sweeps and cleanup workers share SQL tables and an unreliable key provider. Every
SQL statement, and every atomic batch, is a function on the tables (`BrokerSql`) and a method of a mutable
store proved against it (`BrokerStore`). `OperationProtocol` interleaves them: one step is one statement or
batch, one answer read from the provider, or one event at the provider, such as a create that lands late.
The invariant (`OperationInvariant`) is preserved by each step, and `OperationSafety` states the promises
for every run from empty tables. `OperationGuards` says what forbids each statement on any tables.
`OperationCharts`, `OperationRows` and `OperationDeliveries` tell the same machine row by row: what any step of any run
makes of one operation, attempt, delivery or entitlement, with every time limit in milliseconds and without the guards
that no reachable state needs. A statement whose place in a handler does not matter for the promises may
be run at any time by anybody, so the runs of the model include those of all handlers. Each statement
carries its own clock reading, and no relation between the readings is assumed.

**Native retry episodes** (`RetryChannel`, `RetryEpisodes`, `RetryRuns`, `RetrySchedules`). The live schedule of a channel,
its budget accounting and its ended-episode marker, over whole runs, and the bounded audit log.

**Warning latch and brake** (`WarningLatch`). The compare-and-set on the runtime row, over all
interleavings.

**Daily report log** (`DailyReport`, `DailyReportNext`, `DailyReportRuns`, `DailyReportLeases`). The next date, the
leases, and retention.

**Network identity** (`Numerals`, `NetworkAddress`, `AddressMeaning`, `AddressIdentity`, `AddressTexts`,
`KeyedCounting`). What an address text denotes, its normal form and prefix, and keyed counting against plain counting.

**Timestamps** (`Calendar`, `IsoDate`). Calendar arithmetic and the strict timestamp reader.

**The log write watchdog** (`WriteWatchdog`). The writer and the watchdog around one lock.

**The provider scan** (`ProviderScan`). The page loop, alone and inside a sweep. Its result
`CompleteMeansAbsent` is what lets the protocol model treat a complete scan as one look at the provider.

## Assumptions

- All deliveries are bound to an operation and all attempt rows have `legacy_cleanup_state = 'resolved'`.
- The pair (operation, attempt index) is unique and stands for the attempt's provider key name: names of
  different attempts are taken to differ, although a name uses 16 characters of the operation id
  (`broker/src/managed-operation.ts:142-145`).
- A definitive 4xx answer to a create means that no key was made (`broker/src/openrouter-management.ts:99-116`).
- A deleted key stays deleted, and the provider never gives one hash to two keys.
- In the report model the clock never goes back, and a handler's reading of it is never ahead of it; it may be
  behind by any amount. The protocol model assumes nothing about its readings.
- Cleanup and lease tokens are new when they are drawn. Keyed digests are injective in their parts.

## Where the code decides

- A double colon that stands for no group at all is accepted in an address of eight groups, although
  section 2.2 of RFC 4291 lets it stand for one or more groups.
- A mapped IPv4 address in dotted form counts as the plain IPv4 address; the same address written in
  hexadecimal stays an IPv6 address.
- The timestamp reader turns down the years 0 to 99, because `Date.UTC` takes them for 1900 to 1999.
- A provider account with 100 keys or more never yields a complete scan, so a lost create there is only
  cleaned once its key is found (`ProviderScan.CompleteExactly`).
- The report log can fall out of order if a worker that saw no row when it resolved its date claims it once another
  worker has started the log. Either the table was empty then (`DailyReportRuns.LateFirstClaimLeavesAGap`, where
  a day is skipped for good), or the handler's reading of the time, taken before its other work, was too old to
  see the rows (`OldReadingAddsADayBefore`). `InOrderIsExact` says exactly which claims do that.
- The next report date falls back exactly when a claim adds a row for a day before it (`NextDateFallsExactly`).
  Retention may then have deleted events of a day still to be reported (`LateStartLosesEvents`); a sweep that
  resolves after the last such claim is safe whatever happened before. What is said of leases and of delivered
  rows holds in every run.
- An episode that is left for another one and asked for again with a new trigger starts with a new allowance
  (`RetryRuns.ReturnStartsOver`). `RenewsExactly` says exactly which step grants one, and over every run the
  completions stay within what was granted.
- An episode whose schedule was cancelled because another one took over with the same trigger can be live
  again with its old allowance (`RetryRuns.CancelledCanReturn`); `RevivesExactly` says exactly when.

## Model

| member | source | states |
|---|---|---|
| OperationSafety.AtMostOneKeyPerSubject | broker/src/managed-operation.ts:413-498 | after any interleaving, two things that are or can become a provider key of one (issue source, subject) are the same thing |
| OperationSafety.EverySourceHasASubject | broker/src/managed-operation.ts:453-498 | every live key and every pending create belongs to an operation on record, so the previous promise covers all of them |
| OperationSafety.CleanedForGood | broker/src/managed-operation.ts:470-551 | once an attempt is cleaned, in every later state it is cleaned, unclaimed, has no create in flight or pending, and no live key |
| OperationSafety.AcknowledgedIsSafe | broker/src/managed-operation.ts:587-614 | after a delivery is acknowledged its attempt is never claimed or cleaned, keeps its credential, and its key stays live |
| OperationSafety.ClaimedIsNeverDelivered | broker/src/managed-operation.ts:616-629 | after a cleanup claim all deliveries of the attempt are expired for good and the operation never becomes active on that attempt |
| OperationSafety.ActiveHasItsKey | broker/src/managed-operation.ts:1137-1172 | an active operation has a live key that its current attempt produced and that no worker ever claimed |
| OperationSafety.LostForGood | broker/src/managed-operation.ts:576-592 | a claim token that is not held any more is never held again |
| OperationSafety.LostWorkerChangesNothing | broker/src/managed-operation.ts:655-717 | a worker whose claim was taken over changes no row in any later step, and claims nothing |
| OperationSafety.DeletableKeyIsNeverAcknowledged | broker/src/managed-operation.ts:655-665 | a key that some worker may still delete, however late, has only expired deliveries, now and later |
| OperationSafety.ActiveIsFinal | broker/src/managed-operation.ts:279-324 | ACTIVE is never left and keeps its attempt |
| OperationSafety.StateColumnsAgree | broker/src/managed-operation.ts:147-159 | in every reachable state the client action is retry_authorized exactly in RETRY_READY, acknowledge_delivery exactly in DELIVERY_PENDING and action_required exactly in FAILED, a failure reason is present exactly in FAILED, and CLEAN is never entered |
| OperationSafety.FailedOnlyToActive | broker/src/managed-operation.ts:1151-1162 | a step that leaves FAILED is the activation by an acknowledged delivery of the current attempt |
| OperationSafety.AttemptNumbers | broker/src/managed-operation.ts:414-459 | attempts are exactly 1 to attempt_count, the last is current, older ones are settled, and RETRY_READY means all are |
| OperationSafety.OneStartPerSnapshot | broker/src/managed-operation.ts:419-452 | after one start from a snapshot wins, every other start from it loses and changes nothing, however late |
| OperationSafety.RepairInsertNeverNeeded | broker/src/managed-operation.ts:580-586 | the repair insert of a cleanup adds no row in any reachable state |
| OperationSteps.AckCleanupClaimIdle | broker/src/managed-key-delivery.ts:272-300 | the repair of a stale-delivery claim never matches a delivery bound to an operation |
| OperationSteps.OthersSettled | broker/src/managed-operation.ts:422-422 | of two attempts of one subject at least one is settled |
| OperationForward.RunForward | broker/src/managed-operation.ts:401-719 | between any state and a later one: cleaned, credentials, acknowledgements and expiries stay, tokens are only ever new ones, dead keys stay dead |
| OperationWorkers.RunKeeps | broker/src/managed-operation.ts:401-719 | the protocol invariant holds along every run |
| OperationWitness.ActiveIsReachable | broker/src/discord-managed-issue.ts:2339-2425 | a concrete run creates, delivers and acknowledges a key and ends active |
| CleanupRuns.CleanupExtendsAnyRun | broker/src/managed-operation.ts:562-719 | after any run, the cleanup procedure with honest provider answers is itself a run of protocol steps with the same tables at the end |
| CleanupRuns.CleansExactly | broker/src/managed-operation.ts:562-719 | a cleanup procedure that wins its claim cleans the attempt exactly if the known or found key was deleted and then seen absent, or a complete lookup missed it with no create in flight; which key stays recorded and which scan position is kept |
| OperationGuards.ClaimTakenExactly | broker/src/managed-operation.ts:587-614 | on any tables, a claim is taken exactly if the uncleaned current attempt of a cleanable operation is unclaimed and due, for a sweep 6 hours after its last check, or its claim is 16 minutes old, and no open delivery or granted entitlement forbids it; otherwise nothing changes |
| OperationGuards.ClaimEffects | broker/src/managed-operation.ts:587-630 | all a taken claim does: token and times, the deliveries of the attempt expired, the operation reconciling unless failed |
| OperationGuards.CleanedEntitlements | broker/src/managed-operation.ts:666-685 | on any tables, exactly which entitlements a verified cleanup deletes; the others keep their contents |
| OperationGuards.OthersKeepTheirEntitlements | broker/src/managed-operation.ts:668-685 | a granted entitlement, and one of another subject without the cleaned key, outlives every cleanup unchanged |
| OperationGuards.CleanedTables | broker/src/managed-operation.ts:686-700 | what a verified cleanup makes of attempts, deliveries and operations: ready for a retry exactly if reconciling this attempt and still authorized |
| OperationGuards.UncleanTables | broker/src/managed-operation.ts:703-715 | what an unfinished cleanup makes of them, with the scan position kept |
| OperationGuards.HeldClaimBlocks | broker/src/managed-operation.ts:258-551 | on any tables, a held claim stops every statement of requests, acknowledgements and sweeps that concerns its attempt |
| OperationGuards.LaterAttemptBlocks | broker/src/managed-operation.ts:258-551 | so does a later current attempt |
| OperationGuards.RecordBlocks | broker/src/managed-operation.ts:470-551 | what is recorded on an attempt forbids: a cleaned one is never written, a credential never replaced, a create claimed once, a delivered or tried attempt not released |
| OperationGuards.StateBlocks | broker/src/managed-operation.ts:258-586 | the operation states in which each statement can act, and no others |
| OperationGuards.StartRefused | broker/src/managed-operation.ts:419-446 | a start changes no operation once the authorization is over, while anything of the subject is open, or from an old snapshot |
| OperationGuards.StartOpens | broker/src/managed-operation.ts:419-459 | otherwise it opens the next attempt with an empty row |
| OperationGuards.AcknowledgedExactly | broker/migrations/0027_remove_managed_referrals.sql:114-130 | a pending delivery is acknowledged exactly if its key is recorded on the created, unclaimed current attempt of an operation that is creating, pending or failed, and its entitlement is offered or granted |
| OperationGuards.EntitlementGuard | broker/migrations/0026_managed_attempt_cleanup_ownership.sql:38-70 | an entitlement with the key of attempts none of which is current, created, unclaimed and still wanted is neither offered nor granted |
| OperationCharts.OperationChart | broker/src/managed-operation.ts:161-717 | in every run, exactly what each kind of step makes of an operation: its state, action, failure reason and attempt number |
| OperationRows.AttemptChart | broker/src/managed-operation.ts:401-717 | in every run, exactly what each kind of step makes of an attempt |
| OperationRows.HeldExactly | broker/src/managed-operation.ts:576-592 | in every run a held claim is still held later exactly if no step in between takes it over 16 minutes or more after it began, with no granted entitlement for its key, and its holder does not end it |
| OperationRows.RunningClaimIsSafe | broker/src/managed-cleanup.ts:2-2 | in every run a claim outlives all other claims of the attempt with readings before its 16 minutes are over |
| OperationRows.AbandonedClaimIsTaken | broker/src/managed-operation.ts:577-614 | in every run a claim of 16 minutes or more is taken over by any free worker, unless the key of the attempt is granted |
| OperationDeliveries.DeliveryChart | broker/src/managed-operation.ts:587-700 | in every run, exactly what each kind of step makes of a delivery |
| OperationDeliveries.EntitlementChart | broker/src/managed-operation.ts:666-685 | in every run, exactly what each kind of step makes of an entitlement; no cleanup deletes a granted one |
| OperationDeliveries.NewRows | broker/src/managed-operation.ts:161-459 | in every run, the one kind of step that adds an operation, an attempt or a delivery, and the new row; an operation is authorized for one hour |
| BrokerStore.Store.CreateOperation | broker/src/managed-operation.ts:161-198 | the insert of a new operation, idle on a known id |
| BrokerStore.Store.Transition | broker/src/managed-operation.ts:297-324 | the guarded state transition: new tables, and one change exactly if state and attempt guard match |
| BrokerStore.Store.Expire | broker/src/managed-operation.ts:279-295 | fails every operation that is not active or failed |
| BrokerStore.Store.Fail | broker/src/managed-operation.ts:258-277 | the terminal failure of the current attempt, refused while a worker holds it |
| BrokerStore.Store.MarkActiveOnAck | broker/src/managed-operation.ts:1137-1172 | the activation, and true exactly if the operation is active afterwards |
| BrokerStore.Store.StartAttempt | broker/src/managed-operation.ts:419-446 | both statements of the start batch and the change count the caller reads |
| BrokerStore.Store.ClaimCreate | broker/src/managed-operation.ts:470-478 | the create claim: only on the unknown, unclaimed current attempt of a creating operation |
| BrokerStore.Store.WriteBack | broker/src/managed-operation.ts:488-497 | the late write-back, which looks at nothing but the in-flight mark |
| BrokerStore.Store.RecordCredential | broker/src/managed-operation.ts:500-512 | records a credential on an uncleaned, unclaimed current attempt that has none or this one |
| BrokerStore.Store.MarkAttemptUnknown | broker/src/managed-operation.ts:514-521 | the two statements of marking an attempt unknown |
| BrokerStore.Store.ReleaseUnstarted | broker/src/managed-operation.ts:523-551 | releases an attempt that never reached the provider; success means ready for a retry with the attempt settled |
| BrokerStore.Store.InsertDelivery | broker/src/managed-key-delivery.ts:62-103 | the guarded insert of a delivery, and one change exactly if the guard holds |
| BrokerStore.Store.Acknowledge | broker/src/discord-managed-issue.ts:2339-2421 | the acknowledgement batch behind its triggers: an abort undoes everything; otherwise the entitlement is granted, and the delivery acknowledged if the other rows it asks for are there |
| BrokerStore.Store.ExpireDelivery | broker/src/managed-operation-resume.ts:54-69 | expires a pending delivery and says whether it did |
| BrokerStore.Store.ClaimCleanup | broker/src/managed-operation.ts:587-630 | the claim batch statement by statement, and the change count of the first |
| BrokerStore.Store.Pin | broker/src/managed-operation.ts:656-662 | pins the key to delete while the token is held |
| BrokerStore.Store.FinishClean | broker/src/managed-operation.ts:666-700 | the batch after a verified cleanup, which gives the token up last |
| BrokerStore.Store.FinishUnclean | broker/src/managed-operation.ts:703-715 | the batch after an unfinished cleanup |
| BrokerStore.Store.ReconcileUnknownAttempt | broker/src/managed-operation.ts:562-719 | the whole cleanup procedure undisturbed, for given answers of the provider |
| BrokerStore.Store.ExpireStale | broker/src/managed-operation.ts:847-856 | the expiry loop: listed operations end active or failed, the others and the active ones are untouched |
| RetryEpisodes.RetryEpisodes.constructor | native/overlay/src/retry_episode.rs:153-168 | both channels idle, nothing recorded |
| RetryEpisodes.RetryEpisodes.Reconcile | native/overlay/src/retry_episode.rs:291-435 | the new channel state and the reported transitions; the other channel and the audit are untouched |
| RetryEpisodes.RetryEpisodes.CompleteMatching | native/overlay/src/retry_episode.rs:470-493 | credits a completion to the live schedule and its accounting, drops an exhausted or expired schedule |
| RetryEpisodes.RetryEpisodes.FailMatching | native/overlay/src/retry_episode.rs:445-449 | forgets accounting and schedule, returns the schedule if it has the captured intent |
| RetryEpisodes.RetryEpisodes.DeferCachedRehandoff | native/overlay/src/retry_episode.rs:451-462 | moves the due time, at most one nanosecond beyond the deadline |
| RetryEpisodes.RetryEpisodes.EndAccounting | native/overlay/src/retry_episode.rs:257-268 | turns accounting into an ended-episode marker |
| RetryEpisodes.RetryEpisodes.TakeSchedule | native/overlay/src/retry_episode.rs:216-221 | removes and returns the live schedule |
| RetryEpisodes.RetryEpisodes.SetAllNextDue | native/overlay/src/retry_episode.rs:437-443 | moves the due time of both live schedules and nothing else |
| RetryEpisodes.RetryEpisodes.Clear | native/overlay/src/retry_episode.rs:558-568 | empties both channels but keeps the observed generations; returns the live schedules in order |
| RetryEpisodes.RetryEpisodes.Record | native/overlay/src/retry_episode.rs:495-531 | appends one fact to the history, of which the log keeps the newest 128 |
| RetryEpisodes.AuditAccounts | native/overlay/src/retry_episode.rs:502-531 | kept plus dropped equals the records made exactly until the 64-bit dropped counter saturates |
| RetryEpisodes.NewerIsTheTail | native/overlay/src/retry_episode.rs:533-537 | the facts newer than a sequence number are exactly the later records that are still kept, in order |
| RetryRuns.AlwaysOk | native/overlay/src/retry_episode.rs:291-493 | in every reachable state a live schedule agrees with its accounting, has budget left and the observed trigger, and an ended marker means neither exists |
| RetryRuns.RenewsExactly | native/overlay/src/retry_episode.rs:343-408 | an episode gets an allowance exactly at the step that asks for it with a new trigger while it is unaccounted and unmarked, and the allowance is that of the policy with nothing completed |
| RetryRuns.CompletionsWithinGrants | native/overlay/src/retry_episode.rs:355-493 | in every run an episode is credited with no more completions than all its allowances together, and the rest of a running one is still due to it |
| RetryRuns.AllowanceIsFixed | native/overlay/src/retry_episode.rs:355-421 | in every run, from any point where an episode is accounted until a step renews it, its limit and deadline do not change and its completions stay within what was left |
| RetryRuns.NoReturnNeverRenews | native/overlay/src/retry_episode.rs:291-435 | a condition on the events alone under which no step renews: no failure, no clear, and no return to an episode left for another |
| RetryRuns.RevivesExactly | native/overlay/src/retry_episode.rs:343-419 | an episode becomes live exactly at the step that asks for it with a new trigger while no marker forbids it and completions of its allowance are left by its deadline, or a new allowance has any |
| RetryRuns.MarkerLiftedExactly | native/overlay/src/retry_episode.rs:343-352 | an ended marker is lifted exactly by a clear or by asking for another episode with a new trigger |
| RetryRuns.CancelledIsNotRescheduled | native/overlay/src/retry_episode.rs:316-353 | in every run an episode whose schedule a reconcile cancelled is live again later exactly if a later step revives it in that sense |
| RetryRuns.NoReturnNeverRevives | native/overlay/src/retry_episode.rs:291-435 | under the condition on the events alone no step does |
| RetryRuns.CancelledCanReturn | native/overlay/src/retry_episode.rs:335-353 | a run in which a cancelled episode is live again with its old allowance |
| RetryRuns.ReturnStartsOver | native/overlay/src/retry_episode.rs:353-389 | a run that returns to an episode and credits it with more than its limit |
| RetryRuns.RetriggeredCompletionCounts | native/overlay/src/retry_episode.rs:72-83 | after any number of retriggers before the deadline with growing generations the due time is unchanged, and a completion of the replaced schedule is credited, once |
| RetrySchedules.AskedSchedule | native/overlay/src/retry_episode.rs:354-419 | asking for an episode with a new trigger leaves it live exactly if completions are left and its deadline is not past, with its old due time if it was live and one cadence away otherwise |
| RetrySchedules.OtherReconciles | native/overlay/src/retry_episode.rs:291-352 | what every other reconcile leaves: the live schedule goes exactly if nothing or another episode is asked for, and an episode no longer asked for gets its marker |
| RetrySchedules.ReportedExactly | native/overlay/src/retry_episode.rs:318-434 | what a reconcile reports: a schedule that goes first, as replaced or cancelled, then the one asked for, as scheduled exactly if it is live, and the cause handed on |
| RetrySchedules.CompletedExactly | native/overlay/src/retry_episode.rs:464-493 | a completion counts exactly if the captured schedule is live or its due time was taken over, and the next one is due one cadence later unless none is left or the deadline is past |
| RetrySchedules.SmallSteps | native/overlay/src/retry_episode.rs:437-462 | deferral, failure, clear and due-time moves, each with all it changes |
| RetrySchedules.ExpiredStaysDown | native/overlay/src/retry_episode.rs:410-412 | in every run, an episode that is not live after its deadline never is again without a new allowance |
| RetrySchedules.LateStepEnds | native/overlay/src/retry_episode.rs:410-485 | asking for a live episode again, or completing it, past its deadline ends it; asking for it before only moves its trigger and scene |
| RetrySchedules.FactSays | native/overlay/src/retry_episode.rs:495-531 | what an audit line says of its schedule |
| WarningLatch.RuntimeRow.Persist | broker/src/abuse-controls.ts:161-273 | writes the changed sections if their guards match the row, and says whether it succeeded |
| WarningLatch.RuntimeRow.Apply | broker/src/abuse-monitoring.ts:424-476 | among writes of others, the first successful attempt of at most three decides row and report; if none succeeds nothing is reported |
| WarningLatch.LatchHoldsTheLatest | broker/src/abuse-monitoring.ts:438-451 | after any interleaving the latch has the latest observation time and warns exactly if an observation of that time does |
| WarningLatch.OrderDoesNotMatter | broker/src/abuse-monitoring.ts:435-468 | two interleavings that persist the same samples end with the same latch |
| WarningLatch.TransitionsAreRises | broker/src/abuse-monitoring.ts:446-467 | reported warning transitions match the stored changes from false to true, write by write |
| WarningLatch.WorkersNeverReleaseTheBrake | broker/src/abuse-monitoring.ts:452-460 | the automatic path never changes an active brake, engages it exactly when a write with a count above the threshold succeeds, and reports exactly that |
| WarningLatch.WritesExactly | broker/src/abuse-monitoring.ts:424-476 | in every run a write succeeds exactly if no section it changes was changed since it was read, and a failed one starts over at most twice |
| DailyReport.ReportTable.ResolveNext | broker/src/scheduled.ts:658-686 | the next report date from the visible rows |
| DailyReport.ReportTable.Claim | broker/src/scheduled.ts:696-733 | the leased upsert; success means this token holds the lease |
| DailyReport.ReportTable.Release | broker/src/scheduled.ts:735-750 | ends the lease of the holder only |
| DailyReport.ReportTable.Complete | broker/src/scheduled.ts:752-771 | delivers a row for the holder only; anything else is reported as an error |
| DailyReport.NextOfTidy | broker/src/scheduled.ts:658-686 | on a gap-free log the next date is the pending one, or the day after the last one once that day is over |
| DailyReport.ClaimKeepsTidyExactly | broker/src/scheduled.ts:707-724 | exactly which claims keep the log free of gaps |
| DailyReport.ClaimWritesOneDate | broker/src/scheduled.ts:707-724 | a claim writes the row of its own date if it succeeds, and no other row |
| DailyReport.HolderWritesOneDate | broker/src/scheduled.ts:735-771 | a release and a completion write the row of their own date while its lease is held, and no other row |
| DailyReportRuns.LogHasNoGap | broker/src/scheduled.ts:658-733 | for handlers with readings of any age: if every claim resolved with no row in sight extends the table or is turned down, all days between two rows are on the log and all rows but the last are delivered |
| DailyReportRuns.InOrderIsExact | broker/src/scheduled.ts:658-733 | from a reachable gap-free log a claim keeps it gap-free exactly if it meets that condition |
| DailyReportRuns.OldReadingAddsADayBefore | broker/src/scheduled.ts:76-103 | a run started on time in which a handler with an old reading sees no row and adds a day before the log |
| DailyReportRuns.DeliveredForGood | broker/src/scheduled.ts:717-724 | in every run a delivered row stays on the log and is never written again |
| DailyReportRuns.LostLeaseIsLostForGood | broker/src/scheduled.ts:696-771 | in every run a token that does not hold the lease of a date never holds it again |
| DailyReportRuns.LostLeaseChangesNothing | broker/src/scheduled.ts:735-771 | in every run a worker whose lease was taken over never releases or completes the report, however late |
| DailyReportRuns.OneHolder | broker/src/scheduled.ts:752-771 | in every run two workers never hold the lease of one date |
| DailyReportRuns.RetentionStaysBehindReports | broker/src/abuse-monitoring.ts:398-407 | after any run, a sweep with however old a reading, acting however late, deletes only events of days before every later next report date, as long as from its resolving on no claim adds a row for a day before that date |
| DailyReportRuns.NextDateFallsExactly | broker/src/scheduled.ts:658-771 | in every run and for every step, the next report date falls back exactly if a claim adds a row for a day before it |
| DailyReportNext.NextMonotone | broker/src/scheduled.ts:658-686 | on any table a later reading of the clock never gives an earlier next date |
| DailyReportNext.NextAfterInsert | broker/src/scheduled.ts:658-724 | on any table, exactly which new row makes the next date fall back |
| DailyReportNext.NextAfterDelivery | broker/src/scheduled.ts:658-771 | on any table, delivering a row does not make the next date fall back |
| DailyReportRuns.LateStartLosesEvents | broker/src/scheduled.ts:107-125 | a run with a claim behind the next date that deletes the events of a day still to be reported |
| DailyReportRuns.LateFirstClaimLeavesAGap | broker/src/scheduled.ts:658-686 | a run outside that order that skips a day for good |
| DailyReportLeases.RowChart | broker/src/scheduled.ts:696-771 | in every run, exactly what each kind of step makes of the row of a date; a lease is granted for 15 minutes and only on a free date or after the end of the last one |
| DailyReportLeases.LeaseHeldExactly | broker/src/scheduled.ts:707-724 | in every run a lease is still held later exactly if no claim of the date with a reading at or after its end and no completion by its holder comes in between |
| DailyReportLeases.RunningLeaseIsSafe | broker/src/scheduled.ts:722-723 | in every run a lease and its end outlive all claims of the date with earlier readings |
| DailyReportLeases.LeaseDecides | broker/src/scheduled.ts:707-750 | a claim of a delivered or running date changes nothing; one of a pending date whose lease has ended, or was released, holds it |
| DailyReportLeases.NextIsExactly | broker/src/scheduled.ts:658-686 | on any table in date order the next date is the earliest of the pending days and the day after the last delivered one that are over, or else the latest day that is over |
| DailyReportLeases.ResolvedDayIsOver | broker/src/scheduled.ts:658-686 | in every run a resolved day is over |
| DailyReportLeases.SweptExactly | broker/src/abuse-monitoring.ts:398-407 | in every run a sweep leaves an event exactly if its day is not before the next date it resolved or its time not before the configured cutoff |
| NetworkAddress.CanonicalizeIpv4 | broker/src/network-identity.ts:24-41 | the loop over the four parts computes the canonical dotted text |
| NetworkAddress.CanonicalizeIpv6 | broker/src/network-identity.ts:62-94 | the validating loop and the padding compute the canonical groups |
| AddressIdentity.Ipv6Meaning | broker/src/network-identity.ts:62-94 | a text normalises to n exactly if it denotes eight groups whose canonical text is n |
| AddressIdentity.SameFormSameAddress | broker/src/network-identity.ts:62-99 | two accepted IPv6 texts have one normal form exactly if they denote the same eight groups |
| AddressIdentity.Ipv4Meaning | broker/src/network-identity.ts:24-41 | a dotted text normalises to n exactly if it denotes four octets whose canonical text is n |
| AddressIdentity.NormalizeIsIdempotent | broker/src/network-identity.ts:4-99 | normalising a second time changes nothing |
| AddressIdentity.MixedMeaning | broker/src/network-identity.ts:43-60 | a text with both colons and full stops normalises to n exactly if it stands for n: the IPv4 address alone after the five plain heads, otherwise the address with two groups in place of the octets |
| AddressIdentity.MixedForms | broker/src/network-identity.ts:43-60 | six leading groups, in full or with a double colon, and four octets normalise to these groups followed by the octets as two groups |
| AddressIdentity.MappedIsPlain | broker/src/network-identity.ts:50-54 | a dotted address after any of the plain heads, in either case of letters, has the normal form of the plain address |
| AddressIdentity.PrefixIsTop64Bits | broker/src/network-identity.ts:101-106 | two IPv6 normal forms have one prefix exactly if their top 64 bits agree |
| AddressTexts.PrefixIsThreeOctets | broker/src/network-identity.ts:101-106 | two IPv4 normal forms have one prefix exactly if their first three octets agree |
| AddressTexts.TrimmedExactly | broker/src/network-identity.ts:4-8 | trimming removes white space from both ends and nothing else |
| AddressTexts.AcceptedShape | broker/src/network-identity.ts:6-22 | only texts of 1 to 256 characters without white space, quotation marks and backslashes, with a colon or a full stop, are accepted |
| AddressTexts.OctetExactly | broker/src/network-identity.ts:30-39 | an octet is one to three decimal digits up to 255 |
| AddressTexts.GroupExactly | broker/src/network-identity.ts:62-94 | a group is one to four hexadecimal digits |
| AddressTexts.CaseMeansNothing | broker/src/network-identity.ts:62-94 | texts without a full stop that differ in the case of letters only have one normal form |
| KeyedCounting.EnumerateEpochs | broker/src/network-identity.ts:184-192 | the day epochs of a window, in order |
| KeyedCounting.DeriveForWindow | broker/src/network-identity.ts:158-182 | the digests of all epochs under the current and the previous key |
| KeyedCounting.EpochsAre | broker/src/network-identity.ts:184-192 | the epochs are exactly the days from the first to the last |
| KeyedCounting.DigestsAre | broker/src/network-identity.ts:158-182 | the digests are exactly those of a known key and an epoch of the window |
| KeyedCounting.NoClauseExactly | broker/src/abuse-controls.ts:439-477 | in each mode, exactly for which addresses and secrets no clause can be built |
| KeyedCounting.NoClauseCountsAll | broker/src/abuse-controls.ts:509-526 | the query then counts every row of the endpoint in the window |
| KeyedCounting.KeyedCountsExactly | broker/src/abuse-controls.ts:439-477 | for any address: with a usable digest the keyed query counts a request exactly if it came from the same normalised address in the window and its key is still known, otherwise it counts the whole endpoint |
| KeyedCounting.DualCountsExactly | broker/src/abuse-controls.ts:439-477 | the same while raw addresses are kept too, where an equal raw address also counts, and is all that counts without a digest |
| KeyedCounting.KeyedIsPlain | broker/src/abuse-controls.ts:353-526 | in every mode and for every address the counted rows are exactly the records of the requests from the same client in the window, in order, if the keys of the window are still known where digests decide |
| KeyedCounting.OneRotationCovers | broker/src/network-identity.ts:158-182 | they are, if the current key changed at most once in the window and the query still knows the one before |
| KeyedCounting.RecordedColumns | broker/src/abuse-controls.ts:353-425 | which address columns a row gets in each mode, and the key, day and subject of its digest |
| KeyedCounting.KeyedLogHasNoAddress | broker/src/abuse-controls.ts:380-401 | while rows are keyed only, no row of the log has a raw address |
| Calendar.ReadsBackExactly | broker/src/public-input.ts:86-101 | a date reads back from its day number unchanged exactly if it is on the calendar |
| Calendar.DayOfItsDate | broker/src/public-input.ts:86-90 | every day number is the number of its own date, which is real |
| Calendar.ClockReadsBackExactly | broker/src/public-input.ts:86-101 | the same with the time of day |
| Calendar.CountsTheDays | broker/src/public-input.ts:86-90 | the day numbers count the days of the Gregorian calendar from 1 January 1970 on, one by one |
| IsoDate.MatchIsPrint | broker/src/public-input.ts:65-72 | a text matches the grammar as some parts exactly if they are in range and print as the text |
| IsoDate.AcceptsExactlyRealDates | broker/src/public-input.ts:68-104 | exactly the grammar texts of real dates with a year from 100 on are read, as the instants they name |
| IsoDate.PrintThenParse | broker/src/public-input.ts:68-104 | an instant printed in any zone is read back as itself |
| IsoDate.FirstCenturyIsRejected | broker/src/public-input.ts:86-101 | every grammar text of the years 0 to 99 is turned down |
| IsoDate.PrintedText | broker/src/public-input.ts:65-66 | the grammar texts, character by character |
| WriteWatchdog.WriteWatch.BeginWrite | native/overlay/src/logging.rs:382-393 | the new generation is active and not timed out |
| WriteWatchdog.WriteWatch.FinishWrite | native/overlay/src/logging.rs:395-411 | clears the write of this generation and says whether it timed out |
| WriteWatchdog.WriteWatch.Shutdown | native/overlay/src/logging.rs:413-418 | no active write, shutting down |
| WriteWatchdog.WriteWatch.Pass | native/overlay/src/logging.rs:435-463 | what one pass under the lock decides, and the mark it leaves when it cancels |
| WriteWatchdog.LogShape | native/overlay/src/logging.rs:350-463 | in every interleaving a cancellation falls between begin and finish of one write, after its deadline, and that finish reports it |
| WriteWatchdog.CancelledAtMostOnce | native/overlay/src/logging.rs:435-463 | no write is cancelled twice, even after the generation counter saturates |
| WriteWatchdog.ReportedMeansCancelled | native/overlay/src/logging.rs:395-411 | finish reports a timeout exactly if its own write was cancelled |
| WriteWatchdog.OverdueWriteIsCancelled | native/overlay/src/logging.rs:448-461 | a pass at or after the deadline leaves the running write cancelled |
| WriteWatchdog.WatchdogOutlivesTheWriter | native/overlay/src/logging.rs:439-447 | the watchdog stops only after the writer, and then at its next pass |
| WriteWatchdog.PassesExactly | native/overlay/src/logging.rs:435-463 | in every run a pass cancels exactly a running, uncancelled write of at least 25 ms, waits for the rest of them before that, and leaves exactly after the writer has stopped |
| ProviderScan.FindByName | broker/src/openrouter-management.ts:527-575 | the page loop: result, requests made, and the budget spent on them |
| ProviderScan.SweepDue | broker/src/managed-operation.ts:899-911 | what a sweep yields for each candidate with what is left of the budget; it pays for candidates and requests exactly, stops early only with one of the two spent, and reports a candidate complete only if it was seen absent, however little budget was left |
| ProviderScan.PagesAreBounded | broker/src/openrouter-management.ts:535-540 | at most 20 requests a call and never more than the budget |
| ProviderScan.CompleteMeansAbsent | broker/src/openrouter-management.ts:555-570 | a complete scan was one request at offset 0 whose listing was one unfilled page without the name, whatever changed between pages |
| ProviderScan.CompleteExactly | broker/src/openrouter-management.ts:564-568 | on a stable listing exactly when a scan is complete |
| ProviderScan.FoundWasListed | broker/src/openrouter-management.ts:558-563 | a key found was listed under the name |
| ProviderScan.PagesToBound | broker/src/openrouter-management.ts:564-570 | the number of pages on the way from an offset to a key is at most twice the pages of the listing, plus two |
| ProviderScan.ChainFinds | broker/src/managed-operation.ts:640-653 | from any stored offset, chained calls find a key on a stable listing in as many calls as there are pages on the way (bounded by PagesToBound) |
| ProviderScan.ScanStopsExactly | broker/src/openrouter-management.ts:527-575 | which offsets a call asks at, why it stops, and the offset it leaves, after a failed or malformed answer too |

## Left out

- Legacy attempt rows and deliveries not bound to an operation: cleanup claims look only at deliveries of the same operation and attempt.
- The order of statements inside the issue and resume handlers, except where a later step needs what an earlier one read or wrote; the protocol model allows more orders than the handlers have.
- The Discord identity row and the issue-success event themselves: whether the acknowledgement batch finds them is a parameter of that step.
- The token and expiry checks of validateManagedKeyDeliveryAck, which only turn requests away before the batch runs.
- Fairness of the sweeps, and the choice and order of rows by their queries: a due attempt whose claim is refused is not rotated, so no bound holds in general.
- The daily issuance cap across retries.
- BrokerStore.Store.ReconcileUnknownAttempt: does not model interference, which the protocol model covers step by step.
- The raw setters of the retry channels as public steps; in the runs only the operations that the runtime calls occur.
- 64-bit and 32-bit ranges of generations and completion counts in the retry model: no arithmetic is done on generations, and a completion count stays below its limit.
- The hash of the target identity in an audit fact, which is represented by the identity itself, and its correlation and execution fields.
- The daily-report section of the runtime row, and rows that fail validation, which read as the default.
- Report dates as texts: a date is a day number, and so is an epoch. Dates beyond the year 9999 have a longer text that the epoch cuts short.
- Address texts are sequences of characters; surrogate pairs, which could only occur inside a zone, are not modelled.
- Hook subject digests, the purge of raw addresses, counting by installation, and the comparison of a count with its limit.
- A change of the write mode inside a window: the rows of one count are written in one mode.
- Waiting and waking on the condition variable, real time, and the effect of cancelling synchronous I/O on the thread.
- HTTP routing, request validation, signatures, OAuth, HMAC and SHA internals, alerts and telemetry.
