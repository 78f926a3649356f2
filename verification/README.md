# Kaggle Relay, verified

This project models the part of Kaggle Relay that carries one training job from upload to result through crashes,
lost responses, late publications and restarts, and proves what the service promises about it. To verify it,
call `dafny verify dfyconfig.toml` in this directory.

## What is modelled

* **The job protocol** (`Database`, `KaggleRefs`, `JobProtocol`, `JobInvariants`, `JobOnward`, `RelayRuns`,
  `JobOutcomes`, `JobDecisions`, `JobEndings`, `QueuedWork`, `Scenarios`, `CandidateRuns`). One job is a state machine. Each action is one atomic effect of the service: a database
  transaction, a rename or fsync of the upload intent, a remote call, a write of the kernel metadata. Worker threads,
  upload child processes, request handlers, progress callbacks, the dynamic scheduler, the recheck scanner, crashes and
  restart recovery interleave freely. `RelayRuns` puts any number of jobs into executions in which versions appear on
  Kaggle at any time, the power fails, or the service dies and leaves upload children running. At-most-once upload,
  verified-before-push, at-most-once push, absorbing outcomes and cancellation are stated over whole executions.
  `JobDecisions` and `JobEndings` state what each actor decides, over executions and in terms of rows, intents and
  observations: the candidate a run takes and pushes, the failure handler, restart recovery, requests, queue items and
  how a job ends.
* **Queues and accounts** (`WorkerPool`, `PoolRuns`, `Scheduler`, `SubmissionLock`): the worker loop's tables, the
  scheduling pass and the per-dataset locks, as classes whose methods are proved against functions about which the
  theorems are stated. `PoolRuns` runs the worker loop and the jobs as one system.
* **Verification of an exact version** (`Contents`, `PayloadContract`, `VerificationStore`, `FileVerification`,
  `VerificationBudget`, `DatasetRecheck`): the two verifiers, resumable checkpoints, request pacing, the split of the
  time budgets and the bounded rechecks.
* **Input storage** (`ChunkUpload`, `StorageBudget`): chunked upload as a round trip, and conservation of reservations.
* **Source rewriting** (`PythonAst`, `GpuPolicy`, `DinoPolicy`) and **late evidence** (`StartupProgress`, `StopDetails`).

## Reading the model

* SHA-256 is taken to be injective: a digest is represented by the bytes, the file or the directory content it stands
  for. `Contents.File` is a file up to its bytes; ZIP bytes carry their directory.
* Kaggle is an environment. It holds at most one content per version and version contents never change; versions may
  appear at any time. Responses, listings, file bodies, quotas and clock readings are parameters.
* Case folding and blank stripping are modelled on ASCII.
* `JobProtocol.RunAction.Acquire` takes an arbitrary shared cache entry, so the theorems hold for whatever other jobs
  recorded in the cache.
* The executions of `JobProtocol` let recovery of different jobs interleave with the work of others. The service
  recovers all jobs first, so this allows more behaviour than the service has.

## Where the code falls short of its promise

The model follows the code. Each of the following has a concrete witness, beside a lemma with the condition under which
the promise holds.

* A manual recheck does not look at the worker's activity. If it arrives between the failure handler's two writes, the
  job is queued, its item is dropped as a duplicate, and the job is left queued with no item and no worker
  (`QueuedWork.RecheckOfActiveJobStrands`, `Scenarios.LostResponseLeadsThere`, `QueuedWork.NoQueuedJobIsForgotten`,
  `PoolRuns.NoneStranded`).
* A job whose dataset was cached reserves only for its kernel when it is assembled. If that assembly runs out of space
  and the dataset is uploaded after all, `MAX(0, reserved - size)` loses bytes. The reservations cover the disk as long
  as every committed chunk still fits its reservation; the exact condition for one commit on every disk is
  `StorageBudget.FitsExactly` (`StorageBudget.CachedAssemblyLosesBytes`, `StorageBudget.AlwaysCovered`).
* The GPU guard's first parameter is called `train`. A train call that is given a keyword of that name, written out or
  through `**`, raises in the rewritten submission although the original call is made
  (`GpuPolicy.TrainCallMeaning`, `GpuPolicy.EnoughSamplesKeepMeaning`, `GpuPolicy.NamedTrainRaises`).
* A job canceled between the two decisions of the failure handler is taken back to waiting_dataset by its unconditional
  write and stays there: rechecks refuse canceled jobs and a restart keeps the candidate
  (`JobOutcomes.LeftWaitingForEver`, `Scenarios.CanceledJobStaysWaiting`, `JobOutcomes.CanceledJobsEnd`).
* A runtime marker whose reason is `unknown` erases a recorded training reason unless the provider completed
  (`StopDetails.ClassifierErasesExactly`, `StopDetails.UnknownMarkerErases`).
* The DINO rewriter removes one previous overlay only; preparing the same submission again is then not idempotent
  (`DinoPolicy.ApplyTwice`, `DinoPolicy.TwoOverlaysDoNotSettle`, `DinoPolicy.TwoOverlaysExample`).
* Startup events converge only if timestamps grow with the sequence inside one id
  (`StartupProgress.ConvergesExactly`, `StartupProgress.InconsistentTimesDiverge`).
* Restart may end a canceled job as failed, in exactly two situations, both reachable (`JobOutcomes.RecoveryOfCanceled`,
  `Scenarios.CanceledPushEndsFailed`, `Scenarios.CanceledRecheckEndsFailed`).

By themselves the two verifiers differ on an upload that is a symbolic link. This is no shortfall: the content digest is
taken first and refuses links (`PayloadContract.RouteDoesNotMatter`, `PayloadContract.LinkedPayloadDiffers`).

## Model

| member | source | states |
|---|---|---|
| `Database.RelayDb.UpdateJobIfStatus` | app/database.py:478-520 | The compare-and-set update changes a row exactly when there is something to write, the row exists, its status is expected, the kernel status is the one seen and no cancellation is recorded, as far as asked; otherwise the table is unchanged |
| `Database.RelayDb.CreateJob` | app/database.py:224-262 | A new row starts receiving with no progress and no kernel status |
| `Database.RelayDb.FinalizeJob` | app/database.py:522-575 | Only the first finalization of a job decides: by the cancellation recorded in the row it writes to; it clears the reservation, and every later call only reports that outcome |
| `Database.FinalizeOutcome` | app/database.py:522-575 | A finalized row is terminal and holds no reservation, is never overwritten, and is canceled exactly when a cancellation was recorded before |
| `KaggleRefs.RewriteSources` | app/worker.py:223-243 | The loop over dataset_sources replaces exactly the sources with the job's slug and reports whether anything changed |
| `KaggleRefs.SlugOfSecondPart` | app/worker.py:162-167 | The slug is the stripped text between the first two slashes, whatever blanks surround the reference |
| `KaggleRefs.VersionKeepsSlug` | app/worker.py:223-256 | A version suffix never changes which dataset a reference names |
| `KaggleRefs.PinsEverySource` | app/worker.py:245-256 | Pinning is complete and exact: afterwards every source of the job's dataset names exactly that version and every other source is untouched |
| `KaggleRefs.SameSlugMeans` | app/worker.py:162-243 | Two references name the same dataset exactly when their slugs are spelled alike up to case, whatever owner and version they have |
| `KaggleRefs.RepinForgetsEarlierPin` | app/worker.py:223-256 | Resetting and pinning again leaves no trace of an earlier pin, so a retry pins as a first run does |
| `KaggleRefs.RewriteOwnerKeepsSlug` | app/worker.py:154-175 | Replacing the owner keeps the slug, and doing it again with the same owner changes nothing |
| `JobInvariants.StepInv` | app/worker.py:530-766 | Every step of every actor (workers, upload children, requests, scheduler, scanner, crashes, recovery) keeps the whole protocol invariant |
| `JobInvariants.RunInv` | app/worker.py:561-727 | Every step of process_job up to the push keeps the invariant: retained candidate, intent, receipt, pin and single worker stay consistent; which step it takes is stated by `JobDecisions.AcquireDecides` and `JobDecisions.RunDecides` |
| `JobInvariants.MonitorInv` | app/worker.py:369-509 | Monitoring writes keep it, even when their compare-and-set loses a race |
| `JobInvariants.ErrorInv` | app/worker.py:729-766 | The failure handler keeps the invariant although its write compares no status; what it decides is stated by `JobDecisions.HandlerDecides` |
| `JobInvariants.ChildInv` | app/kaggle_adapter.py:866-943 | Every effect of the upload child keeps it, also of a child that outlived its service |
| `JobInvariants.ServerInv` | app/main.py:1420-1472 | Dequeuing, cancellation, callbacks and rechecks keep it at any moment |
| `JobInvariants.CrashInv` | app/upload_intent.py:45-63 | A power failure or the death of the service keeps it: only what was made durable remains |
| `JobInvariants.RecoverInv` | app/main.py:1157-1274 | Every branch of restart recovery keeps the invariant; what it decides is stated by `JobDecisions.RestartDecides` |
| `JobInvariants.NoCheckedChild` | app/kaggle_adapter.py:877-913 | A run that does not itself wait for an upload shares its job with no child that could still write a first intent |
| `JobOnward.StepOnward` | app/database.py:466-575 | No step undoes a terminal status, a recorded cancellation, a push, a call, a bound reference or a durable intent |
| `RelayRuns.AlwaysHealthy` | app/worker.py:530-766 | Every job satisfies the invariant in every world of every execution with crashes, restarts and other jobs |
| `RelayRuns.AlwaysOnward` | app/database.py:466-575 | What an earlier world established about a job is never undone by a later one |
| `RelayRuns.OneRemoteCall` | app/kaggle_adapter.py:877-948 | Over every run a job makes at most one create/version call; its unknown intent is durable before the call, and every later durable intent names the same version and bytes |
| `RelayRuns.IntentsOnlyAdvance` | app/upload_intent.py:31-63 | A durable intent keeps version and digest for ever and its outcome, once known, never changes |
| `RelayRuns.OnePush` | app/worker.py:721-727 | Over every run a kernel is pushed at most once; at the push Kaggle serves the receipt's bytes, every source of the job's dataset is pinned to that version, and an existing intent names it |
| `RelayRuns.PushFollowsVerification` | app/worker.py:600-727 | Whoever pushes has itself verified exactly the pushed receipt earlier in the run |
| `RelayRuns.NoWayBackFromPush` | app/worker.py:721-762 | After pushing_kernel the status never returns to receiving, assembling, queued, uploading_dataset or waiting_dataset |
| `RelayRuns.OneWorkerPerJob` | app/main.py:1435-1452 | At most one worker runs a job in every world, on which the unconditional write of the failure handler rests |
| `RelayRuns.TerminalForever` | app/database.py:466-575 | Complete, failed and canceled are absorbing in every run and hold no reserved bytes |
| `RelayRuns.CancelStopsPush` | app/worker.py:561-578 | Once a cancellation is recorded before the push, the job never enters pushing_kernel and is never pushed |
| `RelayRuns.BoundOnce` | app/scheduler.py:118-130 | A dynamic job is bound at most once in a run and its reference stays the one with the chosen owner |
| `JobOutcomes.CancelWins` | app/database.py:538-575 | Outside recovery, whatever step ends a job after its cancellation was recorded ends it as canceled |
| `JobOutcomes.RecoveryOfCanceled` | app/main.py:1166-1262 | Restart ends a canceled job as failed exactly when the kernel may be running but could not be looked up, or the candidate of an interrupted recheck has no usable intent; never as complete |
| `JobOutcomes.CanceledJobsEnd` | app/main.py:1000-1034 | In every run a canceled job that ends, ends canceled, or failed at a restart that found one of those two situations |
| `JobOutcomes.LeftWaitingStays` | app/worker.py:738-752 | A canceled job that the failure handler took back to waiting_dataset is moved by no step but another cancel request or a callback |
| `JobOutcomes.LeftWaitingForEver` | app/dataset_recovery.py:24-115 | In every run without those two requests, restarts included, such a job waits for ever |
| `JobDecisions.AcquireDecides` | app/worker.py:581-638 | What process_job does when it holds the lock: a canceled job goes no further; a recheck needs a usable intent for its own bytes and takes that candidate; a full run without an intent re-verifies a ready cache entry, and otherwise prepares a candidate |
| `JobDecisions.PushedCandidate` | app/worker.py:581-727 | In every execution the pushing run took the lock earlier, uncanceled, and pushes the candidate decided there: the retained intent's version and bytes; without an intent the ready cache entry; without both its own candidate; a recheck only its retained one |
| `JobDecisions.UploadingRun` | app/worker.py:600-638 | In every execution an upload child is started only by a full run that took the lock uncanceled, without any intent and without a ready cache entry |
| `JobDecisions.RunDecides` | app/worker.py:546-727 | In every execution process_job's transitions compare and set exactly: status, progress and next point if the status is one expected and no cancellation is recorded, otherwise the row stays and the run is canceled or raises; an upload's result and a known intent lead to their receipt, the pin to the pinned sources, the push to monitoring or the handler |
| `JobDecisions.HandlerDecides` | app/worker.py:729-766 | In every execution an exception handled undisturbed takes the job to waiting_dataset with its candidate retained if and only if it was uploading or waiting and the readable intent is unknown, or accepted and the failure was no integrity failure; otherwise the job ends, failed unless canceled |
| `JobDecisions.RestartDecides` | app/main.py:1157-1274 | In every execution restart fails a job if and only if its push is not visible, its interrupted candidate is unusable, its assembly failed, or it was canceled between push and monitoring and cannot be looked up; cancels exactly what was certainly not submitted; and queues exactly one item: monitoring for a pushed kernel, a recheck for an interrupted recheck, a full run otherwise |
| `JobEndings.HowJobsEnd` | app/database.py:522-575 | In every execution a job completes only by the delivery of an uncanceled kernel's output, is canceled only on request, and fails only in its intake, in the failure handler while uncanceled, or at a restart that lost it; delivery and handler end it canceled exactly if that was asked for |
| `JobEndings.CanceledOnRequest` | app/main.py:1000-1034 | In every execution a job that is canceled, or about to be, has a recorded request, and some cancel request was made |
| `JobEndings.MonitorHonorsCancel` | app/worker.py:369-509 | In every execution a monitoring write loses the race for the row or shows the job as being canceled exactly if that was asked for |
| `JobEndings.RequestsDecide` | app/main.py:973-1034 | In every execution a cancel request, a progress callback, a resumed monitoring, a recheck request or claim and a plan write exactly this: canceled at once before a worker took the job and cancel_requested later; waiting_kernel, or cancel_requested if asked for; the retained candidate back to the queue |
| `JobEndings.ItemsQueued` | app/main.py:1409-1472 | In every execution who queues which item: assembly and binding a full run, rechecks a recheck, resumed monitoring a monitor for completion or cancellation, recovery the one item the row calls for; only the worker loop takes items out |
| `QueuedWork.StepCarried` | app/main.py:1433-1472 | Every step without worker interruption, and with manual rechecks only of inactive jobs, leaves each bound queued job with an item or a worker |
| `QueuedWork.NoQueuedJobIsForgotten` | app/main.py:1433-1472 | In every such run no bound queued job is ever without an item or a worker, across crashes and restarts |
| `QueuedWork.RecheckOfActiveJobStrands` | app/main.py:2155-2178 | The condition is needed: a manual recheck of a job whose worker is about to leave queues it, the new item is dropped, and the job stays queued with no item and no worker |
| `Scenarios.LostResponseLeadsThere` | app/kaggle_adapter.py:914-925 | That situation is reachable from a new job by an upload whose response is lost |
| `Scenarios.LostUploadCompletes` | app/main.py:1237-1262 | A new job whose upload response is lost in a power failure is recovered, verified, pushed once and completed, with no second upload |
| `Scenarios.CanceledPushEndsFailed` | app/main.py:1178-1198 | The first of the two situations is reached from a new job: canceled during the push, then a power failure and a failing kernel lookup |
| `Scenarios.CanceledRecheckEndsFailed` | app/main.py:1237-1262 | So is the second: canceled while the failure handler of a recheck retains the candidate, then a power failure and an unreadable intent |
| `Scenarios.CanceledJobStaysWaiting` | app/worker.py:738-752 | That state is reached from a new job, by a cancellation between the two decisions of the failure handler |
| `CandidateRuns.CacheHitPushes` | app/worker.py:581-638 | A new job that finds a ready cache entry pushes that version, all sources of its dataset pinned to it, with no call and no intent of its own |
| `CandidateRuns.CrashedPushCompletes` | app/main.py:1211-1235 | A power failure right after the push: restart sees the kernel, monitors it to completion and pushes nothing again |
| `CandidateRuns.MismatchFails` | app/worker.py:738-766 | An accepted upload whose published bytes are others ends the job failed, with nothing retained or pushed |
| `CandidateRuns.TransportFailureCompletes` | app/worker.py:738-761 | An accepted upload whose verification fails in transport is retained, rechecked, pushed and completed with one call |
| `WorkerPool.Pool.TakeItem` | app/main.py:1420-1452 | An item runs exactly when its job is in one of the statuses it expects, bound and inactive, and it resumes a kernel or its account is below the limit; it waits, parked as the job's newest item, exactly when only the limit is in its way; otherwise it is dropped and nothing else changes |
| `WorkerPool.Pool.FinishItem` | app/main.py:1465-1472 | Finishing frees the slot and returns every item parked under the account to the queue in order |
| `WorkerPool.Pool.Enqueue` | app/main.py:1470-1470 | An item is appended to the queue and nothing else changes |
| `WorkerPool.TakeInv` | app/main.py:1433-1452 | Taking keeps: counters equal running workers per account, starters within the limit, nobody parked beside a free slot, one worker per job |
| `WorkerPool.FinishInv` | app/main.py:1465-1472 | Finishing keeps the same |
| `WorkerPool.ParkedItemsReturn` | app/main.py:1445-1471 | Whoever is parked has a running worker of its account, whose end returns the item to the queue and frees a slot |
| `WorkerPool.FinishForgetsNone` | app/main.py:1465-1472 | Finishing strands nobody exactly when the finished job itself is not left queued without an item |
| `WorkerPool.DecisionsFollowProtocol` | app/main.py:1409-1445 | The loop drops an item exactly where the job protocol can skip it and keeps it exactly where the protocol can dequeue it |
| `PoolRuns.AlwaysInOrder` | app/main.py:1420-1472 | In every run of the worker loop together with the jobs: account counters are exact, starters stay within the limit, nobody is parked beside a free slot, one worker per job, items and workers are exactly those of the jobs' protocol states, and every decision of the loop is a step the protocol allows |
| `PoolRuns.NoneStranded` | app/main.py:1433-1472 | In every such run without worker interruption and with manual rechecks only of inactive jobs, every bound queued job is in the queue, parked or running, across crashes and restarts; one that is only parked waits for an account at its limit |
| `PoolRuns.TakenIsPossible` | app/main.py:1420-1452 | Whatever the loop decides about its first item, the job's protocol can do: skip, dequeue, or supersede the item parked before |
| `PoolRuns.WorkIsPossible` | app/main.py:1453-1472 | The composition excludes no step of a job: each adds at most one item and starts no worker |
| `PoolRuns.ParkItems` | app/main.py:1446-1450 | Parking an item neither loses nor duplicates items, except that it replaces the job's own older item under that account |
| `Scheduler.Dispatcher.OccupiedAccounts` | app/scheduler.py:42-51 | The counting loop returns for every user the number of jobs that await no assignment, are neither terminal nor receiving nor assembling, and whose key belongs to that user |
| `Scheduler.Dispatcher.Choose` | app/scheduler.py:98-118 | The chosen account takes a job (enabled, granted by the token, same user name, identity verified, quota left, fewer holders than the limit) and precedes every other one that does by remaining GPU hours, then key; None only if none does |
| `Scheduler.Dispatcher.SchedulePending` | app/scheduler.py:84-131 | One pass, in terms of rows, keys and quotas: it fails exactly the jobs none of whose recorded accounts is authorized any more; a bound job got, at its turn with only older jobs served, the best account that took it, enabled, granted and with the recorded user name; whoever still waits finds every ready account full, and no younger job got an enabled account of it; queue order is exact and no account passes its limit |
| `Scheduler.TurnFills` | app/scheduler.py:84-131 | Within a pass slots only fill up, and never beyond the limit |
| `Scheduler.NeverOverLimit` | app/scheduler.py:15-51 | With dynamic jobs and fixed user names, in every reachable state and for every user, the jobs that await no assignment, are neither terminal nor receiving nor assembling, and whose key belongs to that user are at most the limit |
| `DatasetRecheck.Scanner.Schedule` | app/dataset_recovery.py:24-44 | On an uncanceled waiting job the next try is planned for now plus the longer of Retry-After and 15 seconds after progress, otherwise 300, 600, 1200 and then 1800; scheduled exactly if that is within 86400 seconds of the window's start and exhausted without a time otherwise; the failure count is 0 after progress and one more otherwise |
| `DatasetRecheck.Scanner.ScanAll` | app/dataset_recovery.py:55-115 | One scan treats every listed job exactly once, in order, and enqueues exactly the claimed ones |
| `DatasetRecheck.ScanDecides` | app/dataset_recovery.py:55-115 | The scan claims a candidate exactly when it is retained, uncanceled, inactive, scheduled and due within the window, without a cooldown, with its account authorized and its intent valid; every other case postpones, exhausts, blocks or leaves it as said |
| `DatasetRecheck.ClaimedWhenDue` | app/dataset_recovery.py:24-115 | Progress over histories: after a failure the first scan at or after the planned time inside the window claims the candidate, and none before, unless the account, the intent, a cooldown, a callback or a cancellation is in the way |
| `DatasetRecheck.ManualDecides` | app/main.py:2155-2178 | A manual recheck is accepted exactly for a retained uncanceled candidate with a usable intent that is neither planned, checked nor blocked, after exhaustion only as a restart, which begins a new window |
| `DatasetRecheck.ClaimsPerWindow` | app/dataset_recovery.py:24-44 | With a non-decreasing clock a window holds at most 5759 automatic claims, and at most 49 if no recheck of it reports progress |
| `DatasetRecheck.ClaimAfterRetryAfter` | app/dataset_recovery.py:24-60 | After a failure whose recheck was scheduled no automatic claim precedes the server's Retry-After or the backoff |
| `DatasetRecheck.SettledStays` | app/dataset_recovery.py:66-68 | A blocked candidate stays blocked under every event; an exhausted one is left only by an explicit restart |
| `VerificationStore.Store.Load` | app/dataset_verification_state.py:57-84 | A stored checkpoint is used exactly when binding, inventory and all counters agree; a new scope starts empty |
| `VerificationStore.Store.MarkFile` | app/dataset_verification_state.py:86-96 | A file is recorded exactly when its value is the expected one, and a sound row stays sound |
| `VerificationStore.Store.MarkComplete` | app/dataset_verification_state.py:98-103 | Completion is marked exactly when both counters are full, and then every expected file is verified |
| `VerificationStore.CompleteMeansAll` | app/dataset_verification_state.py:98-103 | A complete sound checkpoint has verified all expected files |
| `VerificationStore.Store.ReserveRequest` | app/dataset_verification_state.py:128-142 | A request is refused exactly during a cooldown or when the next slot is more than 5 seconds away; otherwise it gets the next slot, and the one after it is 1.5 seconds later; only a grant writes the row |
| `VerificationStore.Store.Cooldown` | app/dataset_verification_state.py:116-121 | A cooldown is raised to the requested time or left where it is later already |
| `VerificationStore.SlotsApart` | app/dataset_verification_state.py:128-142 | Granted slots of one owner are at least 1.5 seconds apart for every interleaving and every reading of the clocks |
| `VerificationStore.RequestsPerWindow` | app/dataset_verification_state.py:128-142 | A window of T seconds holds at most floor(T/1.5)+1 granted requests |
| `VerificationStore.CooldownNeverShrinks` | app/dataset_verification_state.py:116-121 | No sequence of transactions shortens a cooldown |
| `VerificationStore.NoSlotDuringCooldown` | app/dataset_verification_state.py:116-135 | No transaction whose clock reads inside a requested pause grants a slot, whatever ran in between |
| `VerificationStore.BeforeRequest` | app/dataset_verification_state.py:145-162 | A request is sent exactly when its slot was granted before the deadline and no cooldown is in force after the wait, even one set by another process meanwhile; and not before its delay has passed |
| `FileVerification.VersionFileInventory` | app/dataset_file_verification.py:31-62 | A listing is returned exactly when the pages up to the interruption are one complete, well-formed listing, with exactly its sizes; an empty one, an interruption and a malformed page are told apart |
| `FileVerification.ListingExactly` | app/dataset_file_verification.py:31-62 | Which pages make up a listing: between 1 and 100000 files, every name safe, no two alike up to case, every size known, every page but the last followed by a new token |
| `FileVerification.ListingMeans` | app/dataset_file_verification.py:42-51 | The listed sizes are exactly those of the files on the pages |
| `Contents.SafePath` | app/dataset_file_verification.py:44-48 | A path is safe exactly when everything before and after a slash is |
| `Contents.SafePart` | app/dataset_file_verification.py:44-48 | One part is safe unless it is empty, the directory itself or its parent, or has a backslash or a colon |
| `Contents.FoldMeans` | app/payload_contract.py:34-35 | Names collide exactly when they are spelled alike up to case |
| `FileVerification.ReadFile` | app/dataset_file_verification.py:111-130 | A file matches exactly when its whole body has the expected size and digest, although reading stops early on excess |
| `FileVerification.VerifyFiles` | app/dataset_file_verification.py:93-141 | One batch only adds files it read and found to match, at most 64 in the background, keeps the checkpoint sound, and undisturbed does exactly 64 or finishes |
| `FileVerification.VerifyVersionFiles` | app/dataset_file_verification.py:65-145 | Acceptance means: same complete listing before and after, expected layout with exactly these sizes, and every expected file verified under one binding; a listing that does not show them yet is not ready, and only a malformed listing, a refused upload or checkpoint, or a file that does not match is rejected |
| `FileVerification.AcceptedFilesWereRead` | app/dataset_file_verification.py:93-141 | Through any sequence of interrupted calls every accepted file was fully read with matching size and digest in some call |
| `FileVerification.VerifyInBatches` | app/dataset_file_verification.py:65-145 | Calling again on one store until the version is accepted or rejected: acceptance means every expected file was fully read and matched in one of the calls, and undisturbed calls accept after exactly the computed number |
| `FileVerification.CeilingOfBatches` | app/dataset_file_verification.py:106-108 | That number is ceil(n/64) for n remaining files |
| `PayloadContract.ZipMembers` | app/payload_contract.py:23-42 | The member loop accepts an archive exactly when every entry is acceptable, names are distinct under case folding and no file lies below another |
| `PayloadContract.AcceptableMeans` | app/payload_contract.py:23-36 | Entry by entry: a safe name stored as it is shown, no encryption, no special file, no directory by mode alone, and no two names alike up to case |
| `PayloadContract.MembersMean` | app/payload_contract.py:37-42 | The members of an accepted archive are its files by name, and none lies below another |
| `PayloadContract.ExpandedInventory` | app/payload_contract.py:69-90 | The expected inventory of an expanded version, with both runtimes unpacked where the version does not hold them, or a refusal |
| `PayloadContract.ExpandedExactly` | app/payload_contract.py:69-90 | A payload can be expected unpacked exactly when its members are acceptable and each runtime is held by the version as it is, or is at most 4 MiB packed and unpacked, has at most 32 or 128 files, and collides with no member |
| `PayloadContract.LooseAccepted` | app/payload_contract.py:102-110 | A loose upload is accepted as exactly its own files, except those named dataset-metadata.json in any directory |
| `PayloadContract.MergeUnder` | app/payload_contract.py:84-89 | Unpacked members are added below the prefix, and any name already taken is a conflict |
| `PayloadContract.VerifyUploadArchive` | app/payload_contract.py:127-140 | The whole-archive verifier accepts exactly the specified member maps |
| `PayloadContract.VerifiersAgree` | app/payload_contract.py:53-140 | On every non-empty version the two verifiers agree exactly unless the upload is a symbolic link that the archive verifier accepts |
| `PayloadContract.RouteDoesNotMatter` | app/kaggle_adapter.py:948-1010 | Since the content digest refuses links first, a non-empty version is accepted by the archive route exactly when it is accepted by the per-file route |
| `PayloadContract.LinkedPayloadDiffers` | app/upload_intent.py:17-31 | A linked payload on which the verifiers alone differ, and which no verification reaches |
| `PayloadContract.AcceptedLayouts` | app/payload_contract.py:53-90 | The accepted versions are exactly the payload itself or its members with any of the runtimes opened; only their presence matters |
| `PayloadContract.AcceptedContent` | app/payload_contract.py:53-90 | Every accepted version, in whichever layout, has the payload's fully unpacked content |
| `PayloadContract.OpenedCommutes` | app/payload_contract.py:73-90 | The two runtimes can be unpacked in either order |
| `VerificationBudget.RunVerification` | app/dataset_verification_process.py:105-180 | However the process ends, each budget lost exactly the time spent in its own phase, the reported content time is the time of the content phase, and the loop ends at the first turn its rules end it |
| `VerificationBudget.SpentMeans` | app/dataset_verification_process.py:128-160 | The time of a phase begins at nothing, runs with the clock while the last phase event announced that phase, and stands still otherwise |
| `VerificationBudget.ReadsMeans` | app/dataset_verification_process.py:125-162 | The loop ends at the first turn that ends it: by the retry deadline, then a stop, then the budget of the phase it is in, then the end of the output |
| `VerificationBudget.SharesAddUp` | app/dataset_verification_process.py:105-180 | The times of the two phases sum to the elapsed time |
| `VerificationBudget.WaitDataset` | app/kaggle_adapter.py:1044-1143 | Every attempt runs its process with the budgets that are left; it met the retry deadline and the publication grace without the content time of the processes before, follows only failures after which the rules allow another, and after a transient one the whole delay; in the background one attempt is made |
| `VerificationBudget.FailureMeans` | app/dataset_verification_process.py:125-175 | The end of the publication budget counts as not yet published, of the content or retry budget as a lost connection, and an interruption is final |
| `VerificationBudget.PatienceDecides` | app/kaggle_adapter.py:1100-1112 | After a failure that is not transient the loop goes on exactly for a version not yet published within the publication grace, or HTTP 403 or 404 within the visibility grace |
| `VerificationBudget.RetryDecides` | app/kaggle_adapter.py:1113-1130 | A transient failure is followed by another attempt exactly while it is one of the first five and Retry-After or 5, 10, 20, 40, 60 seconds with jitter end within 600 seconds of the first one and within the publication grace |
| `VerificationBudget.RetriesAreBounded` | app/kaggle_adapter.py:1108-1130 | At most five started attempts follow transient failures, and each attempt after the first such failure starts within 600 seconds of it |
| `VerificationBudget.GraceBoundsEveryStart` | app/kaggle_adapter.py:1076-1092 | For every started attempt, all waits and publication phases since the beginning sum to less than the publication grace |
| `VerificationBudget.GraceBoundsEveryTurn` | app/dataset_verification_process.py:133-152 | Nor does a started process read on in its publication phase once that sum reached the grace |
| `VerificationBudget.RetryDelays` | app/kaggle_adapter.py:1114-1116 | The delay honours Retry-After and the backoff runs 5, 10, 20, 40, 60 seconds plus jitter |
| `ChunkUpload.SizesSumToTotal` | app/archive.py:23-26 | The declared chunk sizes sum to the archive size |
| `ChunkUpload.ChunksMean` | app/main.py:2033-2040 | Every chunk but the last is full, and the last ends the archive |
| `ChunkUpload.Upload.Begin` | app/main.py:2020-2061 | Every answer is given exactly in its case: not receiving, a header that names no chunk, the same chunk again, another chunk in its place, or a chunk to receive |
| `ChunkUpload.Upload.Commit` | app/main.py:2095-2118 | Every answer is given exactly in its case; a chunk is accepted exactly when it is the first matching body for its index while receiving; the rows become those of the delivery, the reservation shrinks by exactly its size, and otherwise nothing changes |
| `ChunkUpload.Upload.Complete` | app/main.py:2179-2205 | Completion succeeds exactly when the declared chunks are there, of the kernel alone for a cached dataset and of both archives otherwise; then all those pieces are stored and the job stops receiving |
| `ChunkUpload.Upload.Assemble` | app/archive.py:42-65 | Assembly of stored pieces succeeds exactly when they join to the declared digest and size, and returns those bytes |
| `ChunkUpload.ServeAll` | app/main.py:2007-2135 | Any requests, with interleaved streams, bad bodies, crashes and a job that stops receiving, leave exactly the rows of their passing bodies |
| `ChunkUpload.RowsDelivered` | app/main.py:2095-2118 | The rows of an archive are those of its passing bodies delivered in their order |
| `ChunkUpload.Session` | app/archive.py:42-65 | A whole upload over the endpoints completes exactly when every index of both archives had a passing body while the job received, and then assembles an archive to its original bytes exactly when each first passing body is the original's piece |
| `ChunkUpload.AssemblyRoundTrip` | app/archive.py:42-65 | Assembly yields the original exactly when every stored piece is the original's |
| `ChunkUpload.FirstDeliveryWins` | app/main.py:2101-2116 | Of the bodies delivered for an index, in any order and number, the first that fits is the one stored |
| `ChunkUpload.DeliveriesRoundTrip` | app/archive.py:42-65 | Joining what was delivered yields the original exactly when each first fitting body is the original's piece |
| `StorageBudget.Budget.Reserve` | app/capacity.py:31-34 | A reservation is replaced exactly when all others and the new one fit above the floor |
| `StorageBudget.Budget.Admit` | app/capacity.py:21-29 | A job is admitted exactly when all reservations and its own fit above the floor |
| `StorageBudget.Budget.TotalReserved` | app/database.py:668-672 | The sum over all other jobs' reservations |
| `StorageBudget.AlwaysCovered` | app/capacity.py:17-38 | In every run, cached datasets, failed and repeated assemblies and streams that outlive them included: as long as each committed chunk was held by its job's reservation, free space plus undeducted bytes plus other writers' bytes cover the floor and all reservations |
| `StorageBudget.FitsExactly` | app/database.py:657-661 | The condition is exact: a chunk commit keeps the cover on every disk, however full, if and only if the reservation holds the chunk, or what of it is still counted as written |
| `StorageBudget.NextCovered` | app/capacity.py:31-38 | Every event keeps the cover, except that a chunk commit keeps it exactly when there is slack for what it takes more from the written bytes than from the reservation |
| `StorageBudget.UploadsNeverClamp` | app/main.py:1053-1092 | When both archives are uploaded every committed chunk is held, so nothing is ever clamped and the cover always holds |
| `StorageBudget.DeductCovers` | app/database.py:657-661 | A deduction keeps the cover exactly when the bytes it loses to the clamp fit into the slack |
| `StorageBudget.CachedAssemblyLosesBytes` | app/main.py:1046-1092 | Without the guard it fails: after a cached assembly ran out of space while joining or while unpacking, a dataset chunk larger than what is left reserved is clamped and breaks the cover, in a concrete run for all such sizes |
| `GpuPolicy.RewritePython` | app/gpu_policy.py:32-46 | Filter, transform and splice as loops give the specified module |
| `GpuPolicy.TrainCallsRouted` | app/gpu_policy.py:19-29 | A call is routed through the guard exactly when it calls an attribute named train with a keyword data; the train function becomes the first argument and the rest of the call stays |
| `GpuPolicy.TransformTwice` | app/gpu_policy.py:19-29 | Transforming a transformed tree changes nothing, however deeply train calls are nested |
| `GpuPolicy.UnchangedIfHelperFree` | app/gpu_policy.py:19-29 | Only the transform introduces guard calls |
| `GpuPolicy.RewriteTwice` | app/gpu_policy.py:32-46 | Applying the policy to its own result changes nothing, for every module |
| `GpuPolicy.TransformMeaning` | app/gpu_policy.py:19-29 | For every compositional meaning of Python the rewritten tree does in every world what the original does with the guard in front of each train call, in the same order of evaluation |
| `GpuPolicy.TrainCallMeaning` | app/yolo_gpu_guard.py:2-46 | A train call of the rewritten module raises exactly when a keyword is called train or a validator raises; otherwise it is the original call, its device the first listed one exactly when a split is too small |
| `GpuPolicy.EnoughSamplesKeepMeaning` | app/gpu_policy.py:19-46 | Where no split is too small the rewritten tree and each of its parts mean what the original ones mean if and only if no keyword called train reaches a train call that would accept it |
| `GpuPolicy.NamedTrainRaises` | app/yolo_gpu_guard.py:2-2 | model.train(data=data, train=value) is made by the original module and raises in the rewritten one, under every meaning |
| `GpuPolicy.RelayYoloTrain` | app/yolo_gpu_guard.py:2-46 | The guard's statements, its validators' failures included, compute the keyword arguments that train is called with, or that it is not called |
| `GpuPolicy.GuardNarrows` | app/yolo_gpu_guard.py:2-46 | The guard changes at most device: to the first listed device, exactly when a detection task lists several and a split has fewer samples; it does not call train exactly when it asks the validators and one raises |
| `GpuPolicy.ListedDevices` | app/yolo_gpu_guard.py:2-14 | Reading inverts listing: device names joined by commas are requested as exactly these, in their order |
| `PythonAst.SpliceLoop` | app/gpu_policy.py:37-44 | The policy's statements are inserted after the docstring, if there is one, and every __future__ import that follows at once, and before everything else |
| `PythonAst.WithoutSplice` | app/gpu_policy.py:34-44 | Removing the policy's statements from a spliced module gives back the module without them |
| `DinoPolicy.WrapBootstrap.VisitImportFrom` | app/dino_threshold_policy.py:55-64 | A bootstrap import is followed by one wrapper per imported run, in their order and each under the name that the import binds, and the match counter grows by exactly their number |
| `DinoPolicy.VisitTwice` | app/dino_threshold_policy.py:51-74 | Rewriting the outcome of any statement, nested to any depth, changes nothing |
| `DinoPolicy.RemoveLegacyPrefix` | app/dino_threshold_policy.py:27-48 | The scan removes the first previous overlay if it is there whole and unchanged and nothing else, and refuses a damaged one |
| `DinoPolicy.OverlayRemoved` | app/dino_threshold_policy.py:27-48 | Whatever surrounds it, the overlay at the first claiming statement is taken out and the rest is kept in order |
| `DinoPolicy.ApplyTwice` | app/dino_threshold_policy.py:86-103 | Applying the policy to its own result changes nothing exactly when no second old overlay is left and no statement turns into one of the policy's own |
| `DinoPolicy.TwoOverlaysDoNotSettle` | app/dino_threshold_policy.py:27-48 | Every submission that carries the previous overlay twice and imports the bootstrap is prepared, and refused or changed by the next attempt |
| `DinoPolicy.TwoOverlaysExample` | app/dino_threshold_policy.py:27-103 | One such submission, written out |
| `StartupProgress.ApplyCallback` | app/main.py:973-997 | The retry loop writes only on the row its decision was made on, so each callback takes effect in one step or not at all |
| `StartupProgress.WritesAreCallbacks` | app/main.py:973-997 | What a callback writes is a step of the job protocol with that status, and the protocol leaves no other |
| `StartupProgress.ParseInvertsStored` | app/startup_progress.py:6-25 | A payload is accepted exactly when it is some well-formed event as it is stored |
| `StartupProgress.ConvergesToNewest` | app/startup_progress.py:28-52 | Any order and repetition of consistent startup events ends at the newest one |
| `StartupProgress.ConvergesExactly` | app/startup_progress.py:28-52 | Readable events with distinct timestamps end at the newest for every delivery if and only if inside each id timestamps grow with the sequence |
| `StartupProgress.OrderDoesNotMatter` | app/startup_progress.py:28-52 | Two deliveries of the same events end the same |
| `StartupProgress.HandoffIsFinal` | app/startup_progress.py:48-52 | Once an epoch or a phase past the preparation is shown, or the job left the observing statuses, no startup event changes the display |
| `StartupProgress.HandoffExactly` | app/startup_progress.py:28-52 | And only then: any other display of an observed job is replaced by some later event |
| `StartupProgress.InconsistentTimesDiverge` | app/startup_progress.py:43-47 | The condition on timestamps is needed: otherwise the order of arrival decides |
| `StopDetails.MergeSteps` | app/database.py:590-616 | The stepwise edits of the incoming record compute the merge |
| `StopDetails.StopTable.RecordStopDetails` | app/database.py:577-634 | One transaction writes and logs the merge exactly when the row exists, the merge differs from what is stored and the status is among the expected ones |
| `StopDetails.LateEvidenceOnlyAdds` | app/database.py:595-604 | Late runtime evidence never changes a settled outcome: it adds one of the three reasons where none was recorded, and missing numbers |
| `StopDetails.OtherEvidenceReplaces` | app/database.py:605-620 | Any other record replaces the outcome, except an unexplained completion after a reason confirmed by runtime or logs, which is retained; a named reason is carried into a record that names none, with its numbers |
| `StopDetails.LosesExactly` | app/database.py:594-616 | A recorded training reason is lost exactly when the incoming record has an own training reason that is none of the three and does not merely enrich a settled outcome |
| `StopDetails.KeepsRecordedReason` | app/database.py:594-616 | It is never lost when the incoming training reason is absent or one of the three |
| `StopDetails.KeepsNumbers` | app/database.py:598-612 | Numbers recorded with the same training reason survive |
| `StopDetails.MergeTwice` | app/database.py:577-616 | Merging a record twice is merging it once, exactly unless a self-confirming record meets a reason that does not confirm it |
| `StopDetails.TrainingEvidence` | app/stop_reason.py:134-187 | The line loop finds the last marker, else the last early stop, else the last completion, with the numbers seen on the way |
| `StopDetails.EvidenceMeans` | app/stop_reason.py:134-187 | Line by line: the last runtime marker decides; without one the last early-stopping line; without either, on completion, the last line that shows the last epoch; with their source and confidence |
| `StopDetails.ProgressMeans` | app/stop_reason.py:134-187 | The numbers are those that the lines since the last progress line show, the latest of each field |
| `StopDetails.ClassifiedMeans` | app/stop_reason.py:190-239 | Which reason, source, confidence, training reason and numbers a record has, each exactly in its case: user_canceled if and only if the provider canceled and Relay asked for it, a named reason if and only if the provider completed and the evidence names it |
| `StopDetails.ClassifierMergesOnce` | app/stop_reason.py:190-239 | The classifier's own record can be merged any number of times |
| `StopDetails.ClassifierErasesExactly` | app/stop_reason.py:190-239 | It erases a recorded reason exactly when its best evidence is a marker without a reason and the provider did not complete |
| `StopDetails.UnknownMarkerErases` | app/stop_reason.py:190-239 | A recorded early stopping that such a record erases |
| `SubmissionLock.LockTable.EnterLock` | app/worker.py:43-49 | Entering creates the entry of a new key and counts the thread |
| `SubmissionLock.LockTable.AcquireLock` | app/worker.py:50-58 | The lock is acquired exactly when nobody holds it |
| `SubmissionLock.LockTable.LeaveLock` | app/worker.py:59-65 | Leaving releases a held lock, uncounts the thread and drops an entry that nobody uses |
| `SubmissionLock.SameLock` | app/worker.py:42-42 | Two references share a lock exactly when, without the blanks around them, they are spelled alike up to case |
| `SubmissionLock.EnterInv` | app/worker.py:43-49 | Entering keeps every count equal to the threads inside and every thread on its key's entry |
| `SubmissionLock.LeaveInv` | app/worker.py:59-65 | Leaving keeps it: an entry that is still used is never dropped |
| `SubmissionLock.OneSubmissionPerDataset` | app/worker.py:37-65 | In every interleaving at most one thread is inside the lock of a dataset, and the table holds exactly the keys in use |

## Left out

- `process_job`, `finish_kernel_job` and `recover_job_after_restart` are transition functions of a state machine rather
  than methods on shared objects, so that other actors can act between any two of their effects.
- RelayRuns.OneRemoteCall: speaks of the calls a child process makes; what Kaggle does with a call whose process dies is
  left to the arbitrary growth of the remote versions.
- RelayRuns.OnePush: a reference with no text between its first two slashes names no dataset slug; for it the code pins
  nothing, and the pin is not claimed.
- JobDecisions.HandlerDecides: which retained failures get a recheck planned and which block it is not classified; the job
  protocol and DatasetRecheck allow either after every retained failure.
- QueuedWork.NoQueuedJobIsForgotten: assumes that no worker is interrupted, because an interrupted service is shut down
  and its queued jobs are enqueued again by the next restart.
- Scheduler.Dispatcher.SchedulePending: takes one quota snapshot and no completion inside the pass; the state machine of
  Scheduler.NeverOverLimit allows both. Auth configurations without key ids (legacy mode) cannot schedule dynamically.
- ChunkUpload.Upload.Begin: stored chunk files do not disappear, and the limits on parallel uploads, the disk check and
  the upload deadline are not modelled.
- StorageBudget.AlwaysCovered: bytes written by an extraction are what its `Wrote` events say; that they stay within the
  sizes summed before it is not modelled.
- GpuPolicy.TransformMeaning: the inserted helper's name must denote the helper, so submissions that rebind it are outside;
  the texts of type errors are not told apart.
- VerificationBudget.WaitDataset: the sleep after a version that is not published yet is represented by the next
  attempt's readings.
- PoolRuns.NoneStranded: a job that restart recovery has not looked at yet is excluded; a thread's last database write
  and the worker loop's finally block are one step, so a manual recheck between the two counts as one of an active job.
- DatasetRecheck.ClaimsPerWindow: the clock is non-decreasing, as the bound needs.
- Deletion of finished jobs, retention cleanup and artifact packaging: they only touch jobs that have ended.
- The dataset cache tables: any entry is allowed where a run reads the cache.
- HTTP routing, authentication, user interface, redaction, log texts, SQL and migrations.
- The Kaggle SDK, subprocess handling and log capture: environment steps.
- ZIP, JSON, Python source and hash encodings: abstract maps, trees and identities. Reparsing an unparsed tree is taken to
  give the tree back.
- Notebook cells in the GPU policy: each code cell is rewritten by the same transform, the policy cell is replaced by id.
- Quota lookup, account probing and the choice of a fixed-mode account: arbitrary snapshots.
- Training policies, artifact validators and the image and threshold guards that run on Kaggle.
