# Verification model of the IoT platform's guardrails

This project models the guardrails of an IoT device cloud: conditional updates, reconcilers and
decision functions in the parameter library, over-the-air rollout, fleet dispatch and lock schedules,
singleton election, the telemetry pipeline, accessory linkage, consumable health, alarm
reconciliation, the bridge, device registration and the MQTT codec of the device simulator.

`dafny verify dfyconfig.toml` checks all of it.

How the model is built:

- Tables, Redis keys, streams and files are maps, sequences and counters. One SQL statement, one
  transaction or one Redis command is one atomic step; clocks, crashes, failing calls and other
  replicas are steps or parameters of their own.
- A run is a sequence of such steps in any order. The main results hold for every run.
- Where the program changes things in place (stores, guards, workers, engines, buffers, loops) the
  model has a class or a method with the same branches, proved equal to a function on values; the
  functions carry the results.
- Where a property holds only under a condition, the condition is stated exactly (if and only if),
  and lemmas give concrete runs that break the property without it.

Files:

| file | contents |
|---|---|
| Basics.dfy, Sorting.dfy | options, results, filtering, division; sorting |
| ParamLibrary.dfy, ParamHistory.dfy, ParamRollback.dfy, ParamRollout.dfy, ParamStore.dfy, ParamClients.dfy | versioned parameter library, its history, rollback, rollout percentages, the publish transaction in place, clients |
| OtaBatch.dfy, OtaCounters.dfy, OtaStages.dfy | batch and task statements with the fuse; their counters over all runs; stage chain and nested sampling |
| FleetQueue.dfy, FleetDispatch.dfy | the statements of the queue; items claimed, sent, confirmed and reverted by several schedulers |
| Schedule.dfy, LockReconcile.dfy, LockRaces.dfy | lock windows over midnight; the lock reconciler, alone and in races with unlocks |
| SingletonLock.dfy | session advisory locks and pooled connections |
| Batching.dfy, AtLeastOnce.dfy | batching; at-least-once delivery with a dedupe key |
| LinkageRules.dfy, LinkageEngine.dfy, LinkageRuns.dfy, LinkageCases.dfy | the accessory rule table; the engine; off-timers and the safety vent over all interleavings; concrete runs |
| HealthScore.dfy, HealthMeaning.dfy | incremental module health; what hours, scores and swaps are worth |
| HealthBatch.dfy, ReminderMeaning.dfy, Cooldown.dfy | the hourly batch and its reminders; what they say; the check of cooldowns |
| AlarmReconcile.dfy, AlarmCoverage.dfy | the missing-alarm search; what it finds |
| DiskBuffer.dfy, Bridge.dfy | the disk buffer; the windowed publisher |
| SerialNumber.dfy, QuotaSigning.dfy, NonceReplay.dfy | serial numbers, quota signing, replay protection |
| MqttCodec.dfy | packet framing, MQTT 3.1.1 sections 1.5.3, 2.2.3 and 3.3 |

Findings, where code, comments and promises differ (the model follows the code):

- A paused batch does count tasks that end (internal/ota/service.go:676); internal/ota/stale.go:29
  says it does not. `OtaCounters.CountersMatchTasks` counts them.
- A batch that was fused and then resumed runs with its fuse due until the next terminal report
  (`OtaCounters.ResumedPastFuse`); `OtaCounters.FuseExact` shows that this is the only way.
- A reverted dispatch can go straight from dispatched to needs_teacher (internal/fleet/store.go:666),
  which the table allows only by way of approved (internal/fleet/model.go:101-102).
- Replay protection reads the clock twice (internal/cf001/freshness.go:118-149). A nonce lifetime of
  twice the window excludes replays exactly when the two readings coincide (`NonceReplay.ReplayExact`).
- The sequence number -2^63 yields a serial number that does not validate
  (`SerialNumber.BuiltIsValid`); all others do.
- The health columns are NUMERIC(12,3) (sql/bl3.sql:77,85), so splitting a history into rounds is
  exact only up to 0.002 weighted hours a write (`HealthScore.SplitDriftBounded`,
  `HealthScore.SplitDrifts`); without rounding it is exact (`HealthScore.SplitEqualsOnce`).
- Two low meter readings are a module swap in one round and not in two (`HealthScore.SplitHidesReset`).
- A lock pass reads a device's desired lock and merges its patch in two statements
  (internal/fleet/service.go:308-318), and an unlock may fall in between. Then the unlock is undone:
  the device is locked again and stays so until the unlock's end (`LockRaces.UnlockLost`,
  `LockRaces.LockedUntilEnd`), or loses a renewed end altogether (`LockRaces.RenewalErased`).
  `LockRaces.OverrideExact` shows that this is the only way.
- A firing off-timer goes ahead when the vent key cannot be read (internal/accessory/engine.go:536),
  when a vent opens between its read and its send, when the TTL, in whole seconds, rounds the key's
  last second to 0, and when the vent's key could not be written at all (internal/accessory/engine.go:434),
  although the vent's full power is sent. `LinkageRuns.VentExact` shows that only these sends break the
  vent window; `LinkageCases.FailedReadBreaksVent`, `LinkageCases.VentAfterReadBreaks` and
  `LinkageCases.UnwrittenKeyBreaksVent` are concrete runs.
- An off that cannot be sent is not always scheduled again (internal/accessory/engine.go:518 says it is
  not lost): the errors of both writes that put a timer back are dropped (lines 538 and 546), and a
  removal whose answer is lost leaves the timer to nobody (line 510). `LinkageRuns.OffWaits` lists the
  steps that end an off, the death of the process that holds it among them;
  `LinkageCases.LostAtWindow`, `LinkageCases.LostAtRetry` and `LinkageCases.LostAtPop` are concrete runs.
- A job that starts after its accessory's off-timer has been removed cancels the off, and the cancel
  deletes the timer's data (internal/accessory/engine.go:486), so the firing timer does not see the start
  and switches the accessory off during the job (`LinkageCases.StartNotSeen`). `LinkageRuns.StartsExact`
  shows that such deleted, rewritten or unreadable data is the only way.
- A try-lock query that fails after the server has granted the lock leaves the lock on a pooled
  connection, unless the failure closed it (internal/pkg/pglock/pglock.go:137-141).
  `SingletonLock.PoolIsClean` shows that this is the only way; `SingletonLock.LeakBlocks` is its cost.
- A publish between a rollback's reads and its transaction can make the rollback fail, or add a profile
  that the rollback does not remove (`ParamRollback.RollbackAccepted`, `ParamRollback.RollbackRestores`,
  `ParamRollback.AdditionSurvives`).
- `publishPacket` cuts the topic length to 16 bits; `MqttCodec.PublishRoundTrip` gives the exact range.
- At-least-once delivery loses a key exactly when its last un-acked message is answered as a duplicate
  before the data is written (`AtLeastOnce.LossExact`). A crash between dedupe and write, a failed key
  delete, and a redelivery that overtakes the write lead there (`AtLeastOnce.UnsafeLoses`,
  `AtLeastOnce.CrashLoses`, `AtLeastOnce.FailedDeleteLoses`, `AtLeastOnce.RedeliveryLoses`).
- With a tolerance above zero the greedy alarm search is not minimal
  (`AlarmCoverage.ToleranceBreaksMinimality`).

## Model

| member | source | states |
|---|---|---|
| ParamLibrary.ComputeEffectiveAt | internal/param/model.go:77-85 | the loop collects exactly the profiles effective at the version, in order |
| ParamLibrary.ComputeDelta | internal/param/model.go:89-103 | removed ids and added profiles between two versions, as filters of the library |
| ParamLibrary.ComputeRollbackPlan | internal/param/model.go:170-196 | what to retire (sorted ids) and what to re-add to return to a target set |
| ParamLibrary.VisibleVersion | internal/param/model.go:218-228 | the search returns the release the specification calls visible |
| ParamHistory.RetireAllEffect | internal/param/store.go:155-163 | a list of conditional retirements touches exactly the live rows it names |
| ParamHistory.RetireAllAccepts | internal/param/store.go:155-163 | the list succeeds when its ids are distinct and each names a live row |
| ParamHistory.PublishTxMeans | internal/param/store.go:125-198 | a successful publish: old rows kept or retired, fresh rows appended, one release, one snapshot |
| ParamHistory.HistoryImmutable | internal/param/store.go:135-189 | no publish changes the effective set of an earlier version |
| ParamHistory.PublishKeepsInv | internal/param/store.go:125-198 | every publish keeps ids ordered, lifetimes in range and every snapshot equal to its version's effective set |
| ParamHistory.InferBaseline | internal/param/service.go:97-106 | the loop over profile marks computes the inferred baseline version |
| ParamHistory.BaselineIsLatest | internal/param/service.go:97-106 | the inferred baseline has the effective set of the true latest release |
| ParamHistory.RunExtends | internal/param/store.go:135-189 | any further publishes only append rows and releases and retire live rows |
| ParamHistory.ViewStays | internal/param/store.go:135-189 | a version that was out when the releases were read keeps its effective set in every later library |
| ParamRollback.PlanStable | internal/param/service.go:177-216 | a publish between reading the releases and reading the profiles does not change the rollback's plan |
| ParamRollback.RollbackAccepted | internal/param/service.go:177-216 | with any publishes between its reads and its transaction, a rollback is accepted if and only if a second person signs it and no row it retires has been retired since |
| ParamRollback.RollbackRestores | internal/param/service.go:177-216 | an accepted rollback has the target's contents with multiplicity if and only if the publishes since its reads left the live rows outside its plan with the same contents |
| ParamRollback.SerialRollback | internal/param/service.go:177-216 | with no publish in between: accepted exactly when a second person signs, and then the target is restored |
| ParamRollback.AdditionSurvives | internal/param/service.go:177-216 | a publish in between that only adds is not undone, and the accepted rollback misses its target |
| ParamStore.Store.MaxVersion | internal/param/store.go:135-139 | the latest version is the maximum over the release rows |
| ParamStore.Store.Retire | internal/param/store.go:155-163 | conditional updates in turn; the first that matches no row fails the transaction |
| ParamStore.Store.Insert | internal/param/store.go:164-181 | new rows get the next ids, the new version and the signer |
| ParamStore.Store.Publish | internal/param/store.go:125-198 | the whole transaction, all tables or none; PublishAccepted and PublishRecords say when, and what every new row holds |
| ParamRollout.PublishAccepted | internal/param/store.go:125-163 | a publish goes through if and only if a second person signs it and every row it retires is live and named once |
| ParamRollout.PublishRecords | internal/param/store.go:164-189 | the release has the next version, the plan's percentage (100 when none is given), author, approver and rollback mark; the fresh rows carry the plan's contents and the signer; the rest is as it was |
| ParamRollout.RollbackRecords | internal/param/service.go:177-216 | the release of a rollback goes to everybody and names the version it goes back to |
| ParamRollout.RollbackRefused | internal/param/service.go:177-192 | malformed without an author or a version, not found when the version was never out |
| ParamRollout.PublishDenied | internal/param/store.go:125-134 | denied exactly when no second person signs |
| ParamRollout.RolloutExact | internal/param/model.go:207-216 | everybody from 100 on, nobody without a bucket or below 1, else the buckets below the percentage |
| ParamRollout.OutsideRolloutKeepsVersion | internal/param/model.go:207-228 | after a publish with a percentage a client outside it still sees the version it saw before |
| ParamRollout.InsideRolloutAdvances | internal/param/model.go:207-228 | and a client inside it sees the new one |
| ParamRollout.DeltaOrSnapshot | internal/param/service.go:276-298 | which of delta, snapshot and refusal a client gets, by the version it has and the one it may see |
| ParamRollout.RetireAllExact | internal/param/store.go:155-163 | retiring sets the removal version of the rows named and of no other |
| ParamClients.VisibleIsNewest | internal/param/model.go:218-228 | the visible release is the newest one whose rollout includes the bucket |
| ParamClients.VisibleMonotone | internal/param/model.go:207-228 | later releases never move a fixed bucket back |
| ParamClients.DeltaRefinesView | internal/param/model.go:89-103 | applying a delta to one version's set gives the other's, compared without the removal mark |
| ParamClients.SyncIsExact | internal/param/service.go:276-298 | after one sync, by delta or snapshot, the client holds exactly the version visible in the releases it read, whatever was published before the profiles were read |
| ParamClients.ClientsAlwaysExact | internal/param/service.go:276-298 | over every run of publishes, rollbacks, joins and the two reads of each sync, every client is exact and never refused as ahead |
| ParamClients.RunKeepsHistory | internal/param/store.go:135-189 | nothing a later run does changes a released version or takes a bucket back |
| OtaBatch.Store.Apply | internal/ota/service.go:639-708 | one phase change in one transaction: conditional task update, counter, fuse, and the answer; ApplyMeans, CountMeans and FuseMeans say what they are in numbers |
| OtaBatch.TaskMatchesMeans | internal/ota/service.go:639-671 | a report changes a task that has not ended; a sweep only one that has not moved for longer than asked |
| OtaBatch.ApplyMeans | internal/ota/service.go:639-708 | the task's row afterwards, and the batch's: counted exactly when the phase is final and the batch is running or paused |
| OtaBatch.OutcomeMeans | internal/ota/service.go:639-708 | ignored, updated, terminal, or fused by this very change |
| OtaBatch.CountMeans | internal/ota/service.go:672-708 | success adds to ok, any other end to fail, and a running batch is fused exactly when the counters then say so |
| OtaBatch.FuseMeans | internal/ota/fuse.go:8-41 | the ratio fuse is enough samples and more failures than threshold times samples, for all counts; the absolute one is fail at or above a positive limit |
| OtaBatch.ConsoleMeans | internal/ota/service.go:400-456 | pause, resume and complete: which states they leave and enter |
| OtaBatch.CreateMeans | internal/ota/service.go:230-262 | a new batch runs with empty counters and one pending task a device |
| OtaBatch.Store.SweepStale | internal/ota/stale.go:31-75 | the selected tasks are failed in turn up to the first error, their retry counts kept and all other rows untouched; the count is of tasks failed |
| OtaBatch.StaleMeans | internal/ota/stale.go:31-75 | stale: told of the batch, not ended, and not moved for longer than asked |
| OtaBatch.SweepClears | internal/ota/stale.go:31-75 | a sweep without error leaves no stale task, or it has failed as many of the oldest as its limit of 1000 allows |
| OtaCounters.CountersMatchTasks | internal/ota/service.go:639-708 | ok and fail equal the tasks that became terminal while the batch was running or paused |
| OtaCounters.TerminalForever | internal/ota/service.go:639-708 | a terminal task row never changes again |
| OtaCounters.TurnedOnce | internal/ota/service.go:639-708 | a task becomes terminal at most once, and exactly once if it ends so |
| OtaCounters.FuseExact | internal/ota/fuse.go:8-41 | a batch never runs with its fuse due if and only if nobody resumes it in that condition |
| OtaCounters.NeverPausedNeverExceeds | internal/ota/fuse.go:33-41 | a batch never paused or resumed never runs past its fuse or above a positive absolute limit |
| OtaCounters.UnpausedWithinLimits | internal/ota/fuse.go:8-41 | in numbers: a batch never paused or resumed never runs with enough samples and more failures than threshold times samples, nor at a positive absolute limit |
| OtaCounters.ResumedPastFuse | internal/ota/service.go:406-408 | a concrete run: resume leaves a batch running with the fuse due |
| OtaStages.StagePct | internal/ota/stage.go:15-23 | the percentage of a stage, and an error for every other text |
| OtaStages.ComputeNextStage | internal/ota/stage.go:26-33 | the search returns the following stage or none |
| OtaStages.StagesMean | internal/ota/stage.go:44-52 | the share of buckets of each of the five stages |
| OtaStages.NextMeans | internal/ota/stage.go:26-33 | the successor of each stage, and none of the last or of any other text |
| OtaStages.InStageMeans | internal/ota/stage.go:44-52 | nobody at 0 and below, everybody from 100 on, that share of the buckets between |
| OtaStages.ComputeSampleTargets | internal/ota/service.go:315-338 | the eligible untargeted devices inside the stage percentage |
| OtaStages.StagesNest | internal/ota/stage.go:44-52 | a larger percentage contains a smaller one |
| OtaStages.NextCovers | internal/ota/service.go:315-338 | a new sample extends the covered devices to exactly its stage |
| OtaStages.RolloutChain | internal/ota/service.go:206-226 | over any requests: stages are a prefix of the chain, targets disjoint, their union exactly the stage |
| OtaStages.FullStageCoversOnce | internal/ota/service.go:206-226 | after stage 100 every eligible device is in exactly one batch |
| FleetQueue.Store.SetItemStatus | internal/fleet/service.go:391-407 | not found, not allowed (a student's own items only, the table's roles), overtaken since the read, or moved: exactly when, on whatever row was read |
| FleetQueue.RolesExact | internal/fleet/model.go:99-119 | which role may make which change of status, for all statuses and roles |
| FleetQueue.SetStatusMeans | internal/fleet/service.go:391-407 | the item has the new status and everything else stays |
| FleetQueue.Store.ClaimDispatch | internal/fleet/store.go:640-651 | the claim succeeds exactly for an approved item on a device with no active item, and takes the token |
| FleetQueue.Store.ConfirmDispatch | internal/fleet/store.go:654-660 | only while the item is dispatched under this token, the token is replaced by the command id; nothing else changes |
| FleetQueue.Store.RevertDispatch | internal/fleet/store.go:663-672 | only the holder of the token reverts, to approved or, at the retry limit, to needs_teacher |
| FleetQueue.Store.ExpireItems | internal/fleet/store.go:675-684 | exactly the over-age approved and dispatched items expire |
| FleetQueue.Store.DispatchQueue | internal/fleet/scheduler.go:120-173 | a round by a lone scheduler: the first device that is idle and has no active item, its item claimed, sent, and confirmed or reverted |
| FleetQueue.FirstFreeFound | internal/fleet/scheduler.go:133-145 | the device taken is idle and without an active item, and every device before it is not; none is taken when no device is |
| FleetQueue.ClaimMeans | internal/fleet/store.go:640-651 | the claim: status, device and token of the item, nothing else |
| FleetQueue.ConfirmMeans | internal/fleet/store.go:654-660 | the confirmation: the command id in the token's place, nothing else |
| FleetQueue.RevertMeans | internal/fleet/store.go:663-672 | the revert: one retry more, device and token cleared, approved below the retry limit and needs_teacher at it |
| FleetQueue.ExpireMeans | internal/fleet/store.go:675-684 | the items expired are those approved or dispatched for longer than the limit |
| FleetDispatch.RoundIsSteps | internal/fleet/scheduler.go:120-173 | a round in one go is claim, send and confirm or revert, with nobody else in between |
| FleetDispatch.StepFollowsTable | internal/fleet/model.go:99-119 | every status change of every step is a path of the transition table |
| FleetDispatch.TerminalForever | internal/fleet/model.go:99-119 | a terminal item keeps its whole row |
| FleetDispatch.RunSafe | internal/fleet/scheduler.go:120-173 | the invariants of workers, claims, sent jobs, devices and retries hold over every interleaving |
| FleetDispatch.JobStartsAreClaims | internal/fleet/scheduler.go:120-173 | each job_start has its own winning claim; no device has two active items |
| FleetDispatch.JobStartsBounded | internal/fleet/store.go:640-672 | an item starts at most MaxRetry times plus once for each teacher re-approval |
| FleetDispatch.ReapprovalsCounted | internal/fleet/model.go:99-119 | the re-approvals counted are the changes from needs_teacher to approved |
| FleetDispatch.StaleTokenChangesNothing | internal/fleet/store.go:654-672 | confirm and revert with an outdated token change no item |
| Schedule.ComputeWindowsFor | internal/pkg/schedule/schedule.go:107-115 | the override of a day wins over its weekday windows |
| Schedule.WindowsExact | internal/pkg/schedule/schedule.go:107-115 | the windows of a date are those of its first override, and without one those of its weekday |
| Schedule.EnabledMeans | internal/pkg/schedule/schedule.go:53-61 | a policy is off exactly when no weekday has a window and no date has an override |
| Schedule.CoversMeans | internal/pkg/schedule/schedule.go:74-104 | from the start up to the end without it; past midnight when it ends before it starts; nothing when both are equal or one does not parse |
| Schedule.OnlyTwoDays | internal/pkg/schedule/schedule.go:74-104 | no day but today and yesterday can cover a minute of today |
| Schedule.AllowedAt | internal/pkg/schedule/schedule.go:74-104 | true if and only if the minute lies in the union over all days of the extended intervals |
| Schedule.ShouldLock | internal/pkg/schedule/schedule.go:64-71 | locked exactly when the policy is enabled and no day's window contains the minute |
| LockReconcile.Store.MergeDesired | internal/fleet/store.go:433-446 | one upsert: the patch's lock and expiry, all other desired fields kept, the version one higher |
| LockReconcile.UpsertMeans | internal/fleet/store.go:433-446 | the row afterwards, column by column, with and without a row before |
| LockReconcile.Store.Unlock | internal/fleet/service.go:268-290 | a member device is unlocked until the requested or default time, capped when a cap is set; any other device is refused and untouched |
| LockReconcile.Store.ReconcileOnce | internal/fleet/service.go:293-335 | a pass with no other writer at work: every scheduled device without a live unlock is at its scheduled value; live unlocks and broken devices are left |
| LockReconcile.Store.Twice | internal/fleet/service.go:293-335 | with no other writer at work, a second pass at the same instant writes nothing |
| LockReconcile.SecondPassQuiet | internal/fleet/model.go:229-240 | the goal of the reconciler is a fixpoint |
| LockReconcile.ReconcileMeans | internal/fleet/model.go:229-240 | the decision by the unlock's end and the lock that stand: nothing while it runs, the end cleared when it is over, else only a differing lock |
| LockReconcile.GoalMeans | internal/fleet/model.go:229-240 | an unlock that runs stands; else the schedule's value with no end |
| LockRaces.OverrideExact | internal/fleet/service.go:268-335 | over every interleaving of passes and unlocks, a live unlock is overridden if and only if an unlock that still runs fell between a device's read and its merge, and the merge says something else |
| LockRaces.ReadMeans | internal/fleet/service.go:308-318 | a read decides on the row as it stands and writes nothing |
| LockRaces.WriteMeans | internal/fleet/service.go:308-318 | a merge writes the patch decided at the read to the row as it is then |
| LockRaces.RenewedIsUnlock | internal/fleet/service.go:268-335 | what the condition refers to is an unlock step of the same device inside that turn |
| LockRaces.TurnReachesGoal | internal/fleet/service.go:293-335 | every turn that overrides nothing leaves its device at its goal, or under the running unlock that came in between, or, after one that has ended, at its scheduled value; a failed merge changes nothing |
| LockRaces.UnlockLost | internal/fleet/service.go:268-335 | a concrete run: an unlock between read and merge ends locked, with the unlock's end still set |
| LockRaces.RenewalErased | internal/fleet/service.go:268-335 | a concrete run: an unlock renewed between read and merge loses its new end |
| SingletonLock.Runtime.Ensure | internal/pkg/pglock/pglock.go:101-149 | ping, drop a broken connection, acquire and try, with every error exit; whether the guard holds a connection, and whether there was an error |
| SingletonLock.EnsureMeans | internal/pkg/pglock/pglock.go:101-149 | a held connection is kept unless the ping says it is broken, then closed before a new one is tried; nothing happens once the context is done |
| SingletonLock.TryMeans | internal/pkg/pglock/pglock.go:121-149 | the guard holds the lock afterwards if and only if no other session does; otherwise nothing has changed |
| SingletonLock.TryFailsMeans | internal/pkg/pglock/pglock.go:137-141 | a failed query leaves the guard empty, and its connection in the pool with the lock it took, unless it closed it |
| SingletonLock.Runtime.CloseConn | internal/pkg/pglock/pglock.go:101-149 | the guard's connection is closed, never returned |
| SingletonLock.Runtime.Release | internal/pkg/pglock/pglock.go:153-176 | unlock and return, or close when the unlock cannot be confirmed |
| SingletonLock.ReleaseMeans | internal/pkg/pglock/pglock.go:153-176 | a confirmed release returns the connection with one lock less, any other closes it; no other connection or guard is touched |
| SingletonLock.ReleaseFrees | internal/pkg/pglock/pglock.go:153-176 | after a confirmed release nobody holds the lock, and the next replica that tries gets it |
| SingletonLock.RunInv | internal/pkg/pglock/pglock.go:101-219 | the lock invariant over every interleaving of replicas, failures and cancellations |
| SingletonLock.PoolIsClean | internal/pkg/pglock/pglock.go:101-176 | over every run, no pooled connection ever carries the lock if and only if no failed try-lock query leaves a locked connection open |
| SingletonLock.LeakBlocks | internal/pkg/pglock/pglock.go:137-141 | such a connection shuts out every other session |
| SingletonLock.OneLiveGuard | internal/pkg/pglock/pglock.go:101-149 | at most one guard holds the lock over a live connection |
| SingletonLock.NoTwoRunners | internal/pkg/pglock/pglock.go:182-219 | two replicas are never in the round together while both connections live |
| SingletonLock.OverlapAfterLoss | internal/pkg/pglock/pglock.go:182-219 | a concrete run: rounds overlap once the runner's connection is lost |
| Batching.Batcher.Add | internal/pipeline/batcher.go:30-35 | the item is last, and the first item starts the clock |
| Batching.Batcher.TimeToFlush | internal/pipeline/batcher.go:52-64 | waiting the returned time, and no less, makes a non-empty batch due |
| Batching.Batcher.Drain | internal/pipeline/batcher.go:67-75 | returns all items in order and leaves none |
| Batching.BatchLoop | internal/pipeline/worker.go:327-361 | batches concatenate to the input in order, are non-empty, never exceed the size, and are cut at the inputs at which they are due; the rest goes out at the end |
| Batching.NothingOverdue | internal/pipeline/worker.go:327-361 | after every input, what waits is below the size and its first item came less than a window ago |
| Batching.NothingEarly | internal/pipeline/worker.go:327-361 | a batch goes out only when it is full or its first item is a window old |
| AtLeastOnce.Worker.HandleMessage | internal/pipeline/worker.go:207-324 | poison, duplicate, Redis failure and progress; telemetry held for the batch; events and command acks written and acked, or their key deleted and nacked, at once |
| AtLeastOnce.ProcessMeans | internal/pipeline/worker.go:207-256 | acked unseen as progress or a known key; otherwise taken, and its key set unless Redis failed first |
| AtLeastOnce.HandledMeans | internal/pipeline/worker.go:207-324 | exactly the events and command acks that were taken are flushed at once, each alone |
| AtLeastOnce.Worker.HandlePoison | internal/pipeline/worker.go:259-286 | acked when there is no dead-letter stream or the message is in it |
| AtLeastOnce.PoisonMeans | internal/pipeline/worker.go:259-286 | acked without a dead-letter stream, and with one only once it is there |
| AtLeastOnce.Worker.Flush | internal/pipeline/worker.go:364-435 | one write, then acks; or the keys deleted and naks |
| AtLeastOnce.FlushExact | internal/pipeline/worker.go:364-435 | after a success the data is written and every message acked whose ack arrives; after a failure every message waits again and its key is gone if it could be deleted; nothing stays in hand, nothing else is touched |
| AtLeastOnce.PoisonIsKept | internal/pipeline/worker.go:259-286 | over every run, crashes and all, an acked unparsable message is in the dead letters when there are any |
| AtLeastOnce.LossExact | internal/pipeline/worker.go:207-435 | over every run, a key is lost at some point if and only if its last un-acked message is answered as a duplicate before the data is written |
| AtLeastOnce.AckedIsNeverLost | internal/pipeline/worker.go:207-435 | a key is not lost as long as no crash meets a held unwritten message of it, no failed delete concerns it and no held or rejected message of it is redelivered |
| AtLeastOnce.UnsafeLoses | internal/pipeline/worker.go:207-435 | each of these three, for a key whose only message has been taken, makes the next delivery lose it |
| AtLeastOnce.LostUntilWritten | internal/pipeline/worker.go:207-435 | a lost key stays lost until its data is written after all or a new message with the key arrives |
| AtLeastOnce.CrashLoses | internal/pkg/dedupe/dedupe.go:18-24 | a concrete run: a crash between dedupe and write loses the message |
| AtLeastOnce.FailedDeleteLoses | internal/pipeline/worker.go:409-435 | a concrete run: a failed write with an undeleted key loses the message |
| AtLeastOnce.RedeliveryLoses | internal/pipeline/worker.go:207-256 | a concrete run: redelivery of a message still in flight loses it |
| LinkageRules.LevelFor | internal/accessory/rules.go:110-118 | the material's own level when it has a legal one, else the configured default when legal, else 2 |
| LinkageRules.ClampOffDelay | internal/accessory/rules.go:146-155 | unchanged inside 60 to 600 seconds, moved to the nearer bound outside |
| LinkageRules.DecideActions | internal/accessory/rules.go:163-224 | the branching code computes the rule table; StopExact, VentExact, SetExact, CancelExact and OffExact say exactly which actions that are |
| LinkageRules.StopExact | internal/accessory/rules.go:134-138 | a host is stopped, before anything else, exactly when one of its accessories reports a fire in a fresh report, unless the host is known to be idle or stopping is off |
| LinkageRules.CancelExact | internal/accessory/rules.go:243-293 | a waiting off is cancelled exactly for the accessories vented and for the linked ones of a host that starts |
| LinkageRules.StartActions | internal/accessory/rules.go:243-261 | the loop: linked accessories, cancel, level 4 while venting, nothing when already there |
| LinkageRules.EndActions | internal/accessory/rules.go:264-280 | the loop: linked accessories, delay extended to the end of the vent window |
| LinkageRules.VentActions | internal/accessory/rules.go:283-293 | the loop: cancel, vent, full power, for all but the reporter |
| LinkageRules.VentExact | internal/accessory/rules.go:163-224 | a vent opens exactly for the accessories an event vents, linked or not |
| LinkageRules.OffExact | internal/accessory/rules.go:264-280 | offs are scheduled exactly for linked accessories of a host that stopped, never before the vent ends |
| LinkageRules.SetExact | internal/accessory/rules.go:163-224 | exactly when an accessory is set, to which level, and only ever on |
| LinkageRules.DelaysInRange | internal/accessory/rules.go:264-280 | every decided delay lies in 60 to 600 seconds |
| LinkageRules.OffDelayMeans | internal/accessory/rules.go:264-280 | the pairing's seconds, at least one and at most ten minutes, or the rest of a longer vent window |
| LinkageRules.DecidedOnce | internal/accessory/rules.go:163-293 | with every accessory paired once, no action is decided twice |
| LinkageRules.DecidedInOrder | internal/accessory/rules.go:243-293 | for every accessory: cancel, then vent, then set |
| LinkageRules.ReconcileExact | internal/accessory/rules.go:310-325 | reconciling switches on for a working host, schedules an off for the cloud's own switch-on at an idle one, and does nothing else |
| LinkageEngine.Engine.Handle | internal/accessory/engine.go:217-300 | memory and effects of one delivery in all its exits, whatever the fate of each command |
| LinkageEngine.HandleIgnores | internal/accessory/engine.go:217-262 | unpaired, without context, stale or duplicate: what is remembered, and that nothing is done |
| LinkageEngine.HandleDecides | internal/accessory/engine.go:263-316 | what any other event leaves in memory |
| LinkageEngine.HandleSees | internal/accessory/engine.go:316-356 | the decision is the rule table's, on the state known before the event and the vent windows of the paired accessories |
| LinkageEngine.Engine.CancelOff | internal/accessory/engine.go:478-489 | the timer goes, and its data too when the removal was answered; whether a timer was removed, whether there was an error |
| LinkageEngine.Engine.Apply | internal/accessory/engine.go:400-461 | the effect of one action whose command is done, not done, or done without an answer |
| LinkageEngine.SetMeans | internal/accessory/engine.go:400-431 | a send that may have arrived is a fact, only an answered one is remembered |
| LinkageEngine.ScheduleMeans | internal/accessory/engine.go:465-476 | due time in whole seconds, with the host and the time of scheduling |
| LinkageEngine.CancelMeans | internal/accessory/engine.go:478-489 | the timer goes, the data only after an answered removal |
| LinkageEngine.VentMeans | internal/accessory/engine.go:432-438 | ten minutes from now, with its key or without |
| LinkageEngine.Engine.PopDue | internal/accessory/engine.go:500-515 | the members whose removal took effect are gone; this round owns exactly those that it found there and whose removal was answered |
| LinkageEngine.RemovedMeans | internal/accessory/engine.go:500-515 | gone are exactly the members whose removal was done, answered or not |
| LinkageEngine.Engine.Fire | internal/accessory/engine.go:519-557 | suppressed, cancelled, put back for the end of the window, sent, or put back for a retry, with every call able to fail |
| LinkageEngine.FireEnds | internal/accessory/engine.go:519-535 | when a firing timer ends without looking at the vent key, and what it leaves |
| LinkageEngine.FireGoesOn | internal/accessory/engine.go:536-557 | put back for the end of the window, or off, or put back for ten seconds: every outcome in full |
| LinkageRuns.VentExact | internal/accessory/engine.go:400-557 | over every interleaving of processes, events, timers, reconciles, failures and crashes, no power-off falls into the ten minutes after a vent, less slack, if and only if no timer sends into a window whose key could not be written, that its read could not see or let pass in its last second, or that opened after the read |
| LinkageRuns.VentHolds | internal/accessory/engine.go:400-557 | so every power-off keeps ten minutes, up to the second the TTL rounds, when at each send no vent is without its key, no read lost sight of a live key and no vent opened since the read |
| LinkageRuns.OffsAreTimed | internal/accessory/engine.go:519-557 | every power-off comes from a firing timer; every decided delay is in range |
| LinkageRuns.OffWaits | internal/accessory/engine.go:465-557 | an off stays in Redis or in some process's hands if and only if none of the listed steps ends it: cancelled, unpaired, removed without an answer, suppressed, sent, not put back, or its process crashed |
| LinkageCases.FailedReadBreaksVent | internal/accessory/engine.go:536-541 | a concrete run: a failed vent-key read lets an off out inside the window |
| LinkageCases.VentAfterReadBreaks | internal/accessory/engine.go:519-557 | a concrete run: so does a vent that opens between read and send, with every read answered |
| LinkageCases.UnwrittenKeyBreaksVent | internal/accessory/engine.go:432-438 | a concrete run: so does a vent whose key could not be written |
| LinkageCases.LostAtWindow | internal/accessory/engine.go:536-541 | a concrete run without cancels, unpairings and crashes: an off that meets a vent window is lost when its timer cannot be put back |
| LinkageCases.LostAtRetry | internal/accessory/engine.go:542-548 | a concrete run: so is an off that could not be sent and whose retry could not be written |
| LinkageCases.LostAtPop | internal/accessory/engine.go:508-514 | a concrete run: so is an off whose removal from the set was not answered |
| LinkageRuns.StartsExact | internal/accessory/engine.go:519-535 | over every interleaving, no firing timer goes on after a start of its host that its process knows if and only if none does so over data that was deleted, rewritten or unreadable when asked for |
| LinkageCases.StartNotSeen | internal/accessory/engine.go:478-535 | a concrete run without failures: an off goes out although its host has started a job since it was scheduled |
| LinkageRuns.HandleIsSteps | internal/accessory/engine.go:217-300 | handling in one go is one of the interleavings, command by command |
| LinkageRuns.FireIsSteps | internal/accessory/engine.go:519-557 | firing a timer in one go is one of the interleavings, command by command |
| HealthScore.DetectSwap | internal/health/model.go:163-195 | the counting loops decide two drops in a row and single drops as defined by position |
| HealthMeaning.SwapExact | internal/health/model.go:163-195 | which of the four reasons says that a module was swapped, in order of precedence |
| HealthScore.ScoreDevice | internal/health/service.go:201-341 | every skip reason, the accumulated hours, the score and the row to write; HealthMeaning says what each of them is worth |
| HealthMeaning.BandWeights | internal/health/model.go:64-81 | an hour wholly in one band adds the clipped hours times that band's own weight, band by band |
| HealthMeaning.MixedWeights | internal/health/model.go:64-81 | for mixed shares, the added hours times the sum of the shares equal the clipped hours times the weighted shares |
| HealthMeaning.SharesMean | internal/health/service.go:344-362 | a missing share counts as none |
| HealthMeaning.PowerBands | internal/health/model.go:83-92 | without shares the average power decides the one band |
| HealthMeaning.BaselineExact | internal/health/service.go:279-301 | which readings count as a baseline and add nothing |
| HealthMeaning.HealthFormula | internal/health/model.go:96-107 | the score: the share of the rated hours left, less the alarm penalty of at most ten points, within 0 and 100 |
| HealthMeaning.WritesExact | internal/health/service.go:201-278 | a score is written exactly when a new hour has a reading and the model is known and set up |
| HealthMeaning.WrittenRow | internal/health/service.go:302-341 | the row to write, for a first score, a swap and a further round |
| HealthScore.SumBuckets | internal/health/service.go:279-301 | the loop is the fold of buckets, the first reading a baseline |
| HealthScore.AccumulateAppend | internal/health/service.go:279-301 | accumulating two stretches in turn is accumulating both |
| HealthScore.SplitEqualsOnce | internal/health/service.go:201-341 | any split into rounds, with skips, fuses and failures, ends with one round's used hours and last reading |
| HealthScore.RerunUnchanged | internal/health/service.go:201-341 | scoring the same or fewer buckets again changes nothing |
| HealthScore.RisingIsSteady | internal/health/model.go:163-195 | a rising meter with one model never looks swapped, so every split of it is exact |
| HealthScore.SplitHidesReset | internal/health/model.go:163-195 | a concrete history: a reset seen in one round is missed in two |
| HealthScore.SplitDriftBounded | internal/health/store.go:219-251 | with the columns' decimals a split drifts by at most 0.002 hours a write |
| HealthScore.WritesCounted | internal/health/store.go:219-251 | at most one write a round, none for a lost one |
| HealthScore.SplitDrifts | internal/health/store.go:219-251 | a concrete history where the decimals make a split differ |
| HealthScore.HealthMeaning | internal/health/model.go:96-107 | 100 when new, 0 when used up, falling in hours and alarms, alarms cost at most ten points |
| HealthScore.ScoreOnlyFalls | internal/health/model.go:96-148 | the stored score stays in 0 to 100 and never rises between swaps |
| HealthBatch.LowestCrossed | internal/health/model.go:256-286 | the loop finds the lowest unsent level crossed |
| HealthBatch.Lowest | internal/health/model.go:256-286 | the level is crossed and unsent, and no lower one is |
| HealthBatch.DecideReminder | internal/health/model.go:256-286 | none, opted out, cooling down, deferred or sent, in that order |
| ReminderMeaning.QuietExact | internal/health/model.go:256-286 | nothing goes out exactly when none of the levels 80, 50 and 20 is crossed and unsent |
| ReminderMeaning.SendExact | internal/health/model.go:256-286 | the lowest level due is sent unless the user opted out, the cooldown runs, or the device is at work; which of these, if any |
| HealthBatch.LastSent | internal/health/store.go:254-260 | the latest sending time of the device, and none when it has none |
| HealthBatch.Service.CommitOne | internal/health/service.go:393-439 | row and swap in one transaction, then the reminder row |
| ReminderMeaning.CommitMeans | internal/health/service.go:393-439 | the device's row as rounded by its columns, the swap counted, and a reminder row with its level and time; nothing after a failed write |
| ReminderMeaning.RoundsToNearest | internal/health/store.go:219-251 | a column keeps the nearest step, halves up |
| HealthBatch.Service.ScoreAll | internal/health/service.go:155-173 | all devices scored on the same tables, with the counts for the fuse |
| HealthBatch.Service.RunOnce | internal/health/service.go:120-198 | fused exactly when too many were skipped, and then nothing is written; else every device is committed |
| ReminderMeaning.FuseExact | internal/health/model.go:289-294 | more skipped devices than the ratio times all devices with new data |
| HealthBatch.BatchIsOneRoundEach | internal/health/service.go:120-198 | a batch does to each device one scoring round on its own row |
| HealthBatch.HourIsRounds | internal/health/service.go:120-198 | an hour whose tables cannot be read changes nothing; any other is such a batch |
| HealthBatch.RemindersSpaced | internal/health/service.go:393-439 | over every sequence of batches the cooldown check of all sent reminders is empty |
| HealthBatch.LevelsFall | internal/health/service.go:393-439 | between swaps each reminder has a lower level than the one before |
| HealthBatch.AtMostThree | internal/health/service.go:393-439 | at most three reminders go out between swaps |
| Cooldown.CooldownViolations | internal/health/reconcile.go:57-98 | groups, sorts and scans adjacent pairs as specified |
| Cooldown.ViolationsExact | internal/health/reconcile.go:57-98 | empty if and only if every two sent reminders of one (sn, part) are a cooldown apart |
| Cooldown.ViolationsReport | internal/health/reconcile.go:57-98 | every violation names two sent reminders of one (sn, part) that are too close, with their ids and times |
| Cooldown.EveryCloseNeighbour | internal/health/reconcile.go:57-98 | every two neighbours in time that are too close are reported |
| Cooldown.ViolationsOrdered | internal/health/reconcile.go:57-98 | the report is by serial number, then by part |
| AlarmReconcile.CoveredIn | internal/alarm/reconcile.go:40-71 | the binary search decides whether some time lies in the interval |
| AlarmReconcile.CoveredByIndex | internal/alarm/reconcile.go:40-71 | the indexed lookup decides the naive definition of covered |
| AlarmReconcile.GroupAlarms | internal/alarm/reconcile.go:40-71 | the index holds exactly the alarms, each list in order |
| AlarmReconcile.ComputeMissing | internal/alarm/reconcile.go:40-71 | sort, index and greedy loop compute the specified output |
| AlarmCoverage.MissingIsRight | internal/alarm/reconcile.go:34-71 | every event covered by alarms plus output, no output covered by alarms, outputs more than the squelch apart |
| AlarmCoverage.CoveredMeans | internal/alarm/reconcile.go:34-71 | covered: the same device and code, at most the squelch time earlier and at most the tolerance later |
| AlarmCoverage.SecondRunEmpty | internal/alarm/reconcile.go:34-71 | with the output added as alarms a second run finds nothing |
| AlarmCoverage.MissingIsMinimal | internal/alarm/reconcile.go:34-71 | with zero tolerance no smaller set of events completes the coverage |
| AlarmCoverage.ToleranceBreaksMinimality | internal/alarm/reconcile.go:34-71 | for every positive tolerance an input where a smaller set of its own events would do |
| DiskBuffer.Buffer.AppendEnvelope | internal/bridge/buffer.go:32-53 | one line at the end of the main file |
| DiskBuffer.Buffer.Replay | internal/bridge/buffer.go:83-149 | rotate, publish line by line, requeue the failed ones, remove the file |
| DiskBuffer.NothingLost | internal/bridge/buffer.go:83-149 | through appends, replays, failures and crashes every buffered copy is in a file or published |
| DiskBuffer.ReplayConserves | internal/bridge/buffer.go:83-149 | a whole replay loses no copy, whatever the publishes answer |
| DiskBuffer.ReplayDrains | internal/bridge/buffer.go:83-149 | with the stream up the file taken is published exactly and removed |
| DiskBuffer.ReplayStops | internal/bridge/buffer.go:83-149 | a replay that has to stop publishes the lines before, and puts that line and all behind it back in order |
| DiskBuffer.RequeueMeans | internal/bridge/buffer.go:83-149 | a short write or a failed removal leaves the replay file for the next time |
| DiskBuffer.BeginMeans | internal/bridge/buffer.go:83-105 | an interrupted file first, otherwise the main file as a whole |
| Bridge.Relay.Handle | internal/bridge/bridge.go:125-149 | one callback, counted and given a slot, or failed |
| Bridge.HandleMeans | internal/bridge/bridge.go:125-149 | bad topic, closed, waiting for a slot, sent, or failed: every exit with its counters and slots |
| Bridge.WaitingMeans | internal/bridge/bridge.go:125-149 | a callback that waited sends its own message once there is a slot |
| Bridge.Relay.Fail | internal/bridge/bridge.go:155-172 | telemetry is dropped, everything else buffered or counted as a buffer error |
| Bridge.FailureMeans | internal/bridge/bridge.go:155-172 | a failure is counted once as such and once by its fate, telemetry never buffered |
| Bridge.Relay.AckOne | internal/bridge/bridge.go:99-122 | one acknowledgement resolved and its slot freed |
| Bridge.AckMeans | internal/bridge/bridge.go:99-122 | the oldest message is resolved first, published or failed, and its slot is free |
| Bridge.Relay.CloseDown | internal/bridge/bridge.go:215-232 | with no callback inside, the channel closes and the pending acknowledgements are worked off until the timeout; idle exactly when there was time for all |
| Bridge.Conservation | internal/bridge/bridge.go:99-172 | received = bad topic + published + failed + in flight; failed = dropped + buffered + buffer errors; window respected |
| Bridge.SendIsSafe | internal/bridge/bridge.go:125-149 | a callback about to send finds the channel open and with room |
| Bridge.CloseSettlesAll | internal/bridge/bridge.go:99-232 | after any run, a close that waits long enough ends with every message published, buffered or counted, and every slot free |
| SerialNumber.ComputeChecksum | internal/cf001/sn.go:13-19 | the summing loop gives the two hex digits of the sum modulo 256 |
| SerialNumber.ChecksumMeans | internal/cf001/sn.go:13-19 | two upper-case hexadecimal digits, the high one first |
| SerialNumber.SumOf | internal/cf001/sn.go:13-19 | the sum is over the character codes, each once |
| SerialNumber.ComputePrefix4 | internal/cf001/sn.go:22-31 | four characters, cut or padded |
| SerialNumber.PrefixMeans | internal/cf001/sn.go:22-31 | character by character: lower-case letters raised, underscores for missing ones |
| SerialNumber.LineMeans | internal/cf001/sn.go:34-46 | white space off; 01 for nothing, a zero before one character, the last two of more |
| SerialNumber.DateMeans | internal/cf001/sn.go:49-61 | cut behind six characters, or zeros in front |
| SerialNumber.DecMeans | internal/cf001/sn.go:49-61 | each character is the decimal digit of its place |
| SerialNumber.LayoutMeans | internal/cf001/sn.go:49-61 | product, date, line, sequence number and checksum at their positions, a sign dropped |
| SerialNumber.BuiltIsValid | internal/cf001/sn.go:49-69 | 23 characters and checksum-valid if and only if the sequence number is not the least int64 |
| SerialNumber.BuiltDistinct | internal/cf001/sn.go:49-61 | equal serial numbers come from one day and one sequence number |
| SerialNumber.OneErrorDetected | internal/cf001/sn.go:64-69 | changing any one ASCII character of a valid serial number invalidates it |
| QuotaSigning.Store.Append | internal/cf001/service.go:97-109 | the quota grows and the order reopens, when the order exists and the amount is positive |
| QuotaSigning.AppendMeans | internal/cf001/service.go:97-109 | the order's row afterwards, and every other one as it was |
| QuotaSigning.CreateMeans | internal/cf001/service.go:81-95 | an order starts open with nothing registered; a known one stays |
| QuotaSigning.Store.IncrSeq | internal/cf001/service.go:205-209 | the day's counter goes up by one, outside the transaction |
| QuotaSigning.Store.SignDigest | internal/cf001/service.go:174-253 | the new tables and the reply in every exit |
| QuotaSigning.SignRefuses | internal/cf001/service.go:174-204 | bad input first, then a digest known before, then no quota left, with nothing changed |
| QuotaSigning.SignTakesNumber | internal/cf001/service.go:205-230 | otherwise the day's next number is used up, whatever becomes of the commit |
| QuotaSigning.CommitMeans | internal/cf001/service.go:205-237 | the digest there, the serial number taken, a failure, or the row written, one more registered and the order full at its quota |
| QuotaSigning.QuotaHolds | internal/cf001/service.go:174-237 | registered equals the order's digests, never exceeds quota, and fills it at status 2 |
| QuotaSigning.DigestKeepsSN | internal/cf001/service.go:239-253 | a digest keeps its first serial number for ever |
| QuotaSigning.SignIsSteps | internal/cf001/service.go:174-237 | a sign in one go is taking quota, taking a number and committing, with nobody else in between |
| QuotaSigning.IssuedDistinct | internal/cf001/service.go:205-230 | issued serial numbers are valid and pairwise distinct while days stay below 10^9, in whatever order transactions commit |
| QuotaSigning.NextIsFresh | internal/cf001/service.go:205-230 | a transaction that holds its number never finds its serial number taken |
| NonceReplay.MemNonceStore.Seen | internal/cf001/freshness.go:89-103 | purge, then duplicate exactly when the nonce is remembered and not expired |
| NonceReplay.MemNonceStore.CheckReplay | internal/cf001/freshness.go:118-149 | accepted exactly when fresh and not remembered; only fresh requests reach the store |
| NonceReplay.FreshExact | internal/cf001/freshness.go:28-60 | fresh: a number, in seconds or milliseconds, at most a window before or after now |
| NonceReplay.NoReplay | internal/cf001/freshness.go:118-149 | with a lifetime of two windows plus the clock delay no payload is accepted twice in any run |
| NonceReplay.ShortLifetimeReplays | internal/cf001/freshness.go:118-149 | any shorter lifetime admits a replay |
| NonceReplay.ReplayExact | internal/cf001/freshness.go:118-149 | with the code's lifetime replays are excluded if and only if the two clock readings coincide |
| MqttCodec.EncodeRemainingLength | internal/simulator/mqtt/packet.go:38-51 | the loop produces the variable-length code |
| MqttCodec.LengthBytes | internal/simulator/mqtt/packet.go:38-51 | section 2.2.3 of MQTT 3.1.1: seven bits a byte, least significant first, the top bit on all but the last, no byte too many |
| MqttCodec.LengthRoundTrip | internal/simulator/mqtt/packet.go:38-51 | decoding in k bytes inverts the code exactly below 128^k and rejects the rest |
| MqttCodec.Reader.ReadLength | internal/simulator/mqtt/packet.go:84-98 | the loop with its multiplier decodes the length and consumes the bytes used |
| MqttCodec.DecodeMeans | internal/simulator/mqtt/packet.go:84-98 | any bytes: the number up to the first byte without the top bit, if that is among the first four |
| MqttCodec.ReadMeans | internal/simulator/mqtt/packet.go:79-107 | any bytes: type and flags from the first, the length, the body; too long, too large or too short otherwise |
| MqttCodec.Reader.Read | internal/simulator/mqtt/packet.go:79-107 | value or error of one packet, and the bytes consumed |
| MqttCodec.FrameRead | internal/simulator/mqtt/packet.go:72-107 | a framed packet is read back with the rest untouched if and only if its body is at most 4 MiB |
| MqttCodec.StreamRoundTrip | internal/simulator/mqtt/packet.go:72-107 | a concatenation of framed packets is read back as exactly those packets |
| MqttCodec.StreamInjective | internal/simulator/mqtt/packet.go:72-107 | different packet sequences never share their bytes |
| MqttCodec.ReadIsFramable | internal/simulator/mqtt/packet.go:79-107 | whatever was read can be framed and read again |
| MqttCodec.StringRead | internal/simulator/mqtt/packet.go:53-69 | a string comes back cut to its 16-bit length |
| MqttCodec.PublishRoundTrip | internal/simulator/mqtt/packet.go:136-179 | publish, read and parse return the message if and only if topic, QoS and size are in range |
| MqttCodec.PublishWire | internal/simulator/mqtt/packet.go:136-143 | sections 3.3.1 to 3.3.3: type 3, the QoS in bits 1 and 2, the topic behind its big-endian length, the identifier only above QoS 0, the payload |

## Left out

- HTTP handlers, mains, metrics, audits, logging and configuration loading: wiring and I/O.
- SQL text, the database, Redis, NATS and TDengine clients, JSON: each statement is modelled by its effect.
- Cryptography: RSA-OAEP, PSS and hashes; rollout buckets are an arbitrary function of the device.
- Time zones, daylight saving and the parsing of clock times: local time is a day number and a minute.
- Floating point rounding and NaN: floats are reals; only the NUMERIC columns round.
- Parameter publishing: `DiffValidate`, correction and recommendation merging, and the optimistic lock of `PutUserParam` (internal/param/store.go:251-278), a single conditional update.
- OTA dispatch: chunking, rate limit and message publishing of `DispatchOnce`; a dispatch is one step per task.
- OTA creation is taken to be serialised per firmware, because the row lock of internal/ota/service.go:210 locks nothing for the first batch.
- Fleet queue: the order in which `HeadApproved` picks items; a claim may name any approved item. One active item per device follows from the unique index that internal/fleet/store.go cites, modelled as part of the claim.
- Fleet statuses are set by members only, as the handler calls it, never by the system role; claim tokens and command ids are UUIDs that never meet.
- Lock reconciler: a device belongs to one site (primary key of its organisation table). The other writer of the lock fields is Unlock; the device API's own desired writes to them are not part of this model. Its clock counts whole seconds, as the stored end of an unlock does.
- LockReconcile.Store.ReconcileOnce: no other writer at work; LockRaces has the interleavings.
- LockReconcile.Store.Twice: no other writer during or between the passes; LockRaces has the interleavings.
- OtaBatch.Store.SweepStale: no other writer between selection and update; OtaCounters covers sweeps of any key at any time.
- FleetQueue.Store.DispatchQueue: a lone scheduler; FleetDispatch has the interleavings.
- Parameter rollback: ParamClients takes one as a step; what publishes in between can do is in ParamRollback.
- ParamRollback.AdditionSurvives: one publish in between; RollbackRestores has the condition for any number.
- FleetDispatch.JobStartsBounded: MaxRetry is at least 1, because internal/fleet/service.go:88-89 replaces other values by 3.
- Pipeline: the lag refresher, pull loop and OTA progress messages beyond their acknowledgement.
- AtLeastOnce.AckedIsNeverLost: its condition is sufficient for a whole run; the exact one is LossExact, and UnsafeLoses gives the converse for a key with one message.
- Linkage: owner checks, audits, filter life and pairing lookups; the pairings, shadow and rules a handler reads are inputs, and it reads them and the vent keys in one step. A process notes a sent state in the step that sends it.
- Linkage: Redis is configured and keeps its data. Off-timer metadata that has expired reads like metadata that cannot be read, which is modelled.
- Linkage: a vent key's TTL reading may be any rounding to a neighbouring whole second.
- LinkageRuns.StartsExact: about the starts that the firing process itself has handled; starts are kept in each process's memory.
- LinkageRuns.OffWaits: follows offs by accessory, so scheduling an off again counts as the same one, as the sorted set does.
- Health: `PredictEOL`, `windowRate`, SKU choice, materials and codes. No claim that a held-back reminder is made up for: the next round no longer crosses its level.
- HealthBatch.RemindersSpaced: one service instance; the rounds are serialised by its mutex. The cooldown is positive, because internal/health/service.go:65-66 replaces other values by the default; LevelsFall and AtMostThree take it to be positive for the same reason.
- HealthScore.SplitEqualsOnce: exact columns; SplitDriftBounded covers the rounded ones.
- HealthScore.RisingIsSteady: exact columns only, because a rounded last reading may exceed the next one.
- Alarm reconciler: the window edge of `alarmKeysSince` and the writing of alarms; the squelch time is a parameter.
- Bridge: the retry loop that Close also waits for; CloseDown waits for the ack loop.
- Disk buffer: torn writes and lines over the 4 MiB scan limit; a line lands whole, and one replay runs at a time.
- QuotaSigning.IssuedDistinct: days are six characters and stay below 10^9 numbers, the widths of the serial number's fields.
- Registration: signature bytes, device identifiers and the verify endpoint; the Redis nonce store.
- NonceReplay.NoReplay: the window is the effective one, after the default for non-positive values.
- MQTT: CONNECT, SUBSCRIBE, PUBACK and the session; only framing and PUBLISH are modelled.
