# ESPHome fleet control plane, verified

A model in Dafny 4.11 of the server's compile-job control plane and of the worker engines
that keep state, with proofs of what they promise. `dafny verify dfyconfig.toml` checks
everything; there is nothing to run.

## What is modelled

**The job queue** (`Jobs`, `QueueOps`, `QueueInvariants`, `QueueMachine`, `QueueScripts`,
`QueueReplace`, `QueueTheorems`, `QueueVerdicts`, `QueueMeaning`, `QueueStores`, `QueueEffects`,
`QueueArrivals`, `OneActive`, `QueueLimits`, `LiveQueue`, `LiveServer`).
`LiveQueue` is the server's class: job objects updated in place, an ordered table, queue.json
and the history table, with one method per operation. Each method is proved to perform a
given *script*, the list of in-memory updates, queue.json writes and history writes of the
operation in their order. `QueueMachine` runs these scripts one step at a time and lets the
process die before any step; a restart reloads queue.json. Over all such runs it is proved
that no job ever gets two verdicts in history, that a job is handed out at most three times
plus once per restart (three times per restart if writes get lost; both bounds are reached),
that finished jobs stay as they are, that history and queue agree, and when one target has at
most one running job.
`QueueEffects` and `QueueArrivals` say what each operation does to jobs, queue.json and history
field by field, without its script or its helpers, and the class's methods promise just that.
`LiveServer` closes the circle: every call on the class, a worker's poll among them, continues a
run of the machine by whole operations, every restart by a crash, so the theorems about runs hold
of the objects in use.

**Routing and scheduling** (`Routing`, `Eligibility`, `Scheduler`, `SchedulerTheorems`).
The tag rules and the search for the blocking rule; the fleet-wide sweep and the per-worker
claim predicate; the deferral decision of a polling worker and the hand-over of the job. The
main result is that deferring cannot strand a primary job: some worker always goes ahead.
When a worker defers is said in counts of jobs, free slots and speeds (`Scheduler.DefersIff`),
and whom a rule lets in, in sets of tags.
While no new job is brought, only so many rounds of polls can begin with a fit worker that has
a free slot and a job it may take, with results, timeouts, cancels and releases in between.

**The worker's disk** (`DiskQuota`, `DiskQuotaTheorems`, `ActiveJobs`, `VersionCache`,
`InstallProtocol`). Eviction is the shortest prefix of a stated policy; pins are counted
exactly and protect running jobs; the table of ESPHome versions evicts least recently used
first; installs by many threads of many managers exclude each other, serve every waiter, all
end, and answer truly.

**Logs and health** (`LogShipping`, `LogBroker`, `StreamLog`, `Health`). The log ring, its
retrying pusher and the receiving end; the cap on a job's live log; the disk-pressure gate.

## Where the promises stop

Where a promise does not hold there is a concrete run or input, and, as far as it can be
stated, the exact condition.

- Two jobs of one target can run at once, after a retry, beside a validate-only job, or when
  a pinned or filtered job, or one that may not bypass the rules as its follow-up may, is
  overtaken by that follow-up (`QueueLimits`). A claim is safe if and only
  if nothing of that target runs (`OneActive.ClaimKeepsOneWorkingIff`).
- A queue.json write that fails is only logged, the history row is written all the same, and
  a crash can then give the job a second verdict (`QueueLimits.LostWriteSplitsVerdict`). No
  crash does so unless it comes while the latest write is a lost one
  (`QueueVerdicts.VerdictIsFinalIfCrashesAreClean`), and after a restart a verdict is final if
  and only if the queue.json that was loaded does not contradict it
  (`QueueVerdicts.VerdictIsFinalIff`).
- A queued repeat of a flash, or a queued validation, swallows an ordinary request for its
  target: nothing is left that will compile (`QueueMeaning.RequestDropped`, and
  `CompileWaitsIff` for the exact condition).
- The sweep does not look at a job's own tag filter, so a job can be PENDING that nobody may
  take (`Eligibility.FilteredJobIsStranded`, and `FilteredJobIsStrandedIff` for the exact
  condition).
- Deferral counts primary jobs only; a follow-up can wait for ever behind an idle worker that
  may not take it (`SchedulerTheorems.FollowupIsStranded`, and `FollowupIsTakenIff` for the
  exact condition).
- A pinned directory is lost if and only if it lies in a slot above the slot limit and
  orphans are pruned (`DiskQuotaTheorems.SweepSparesPinned`).
- Over quota, more than pinned items remain: also the most recent venv and slot directories
  whose target has no cache entry (`DiskQuotaTheorems.WhatRemainsOverQuota`).
- A version rebuilt in place keeps its old position, so it can be the first to go although it
  was used last (`VersionCache.RebuildThenEvict`). The victim is the least recently used version
  that may go if and only if it was not rebuilt in place, or no version that may go has been
  idle since (`VersionCache.VictimIsLeastRecentIff`).
- Without the file lock two managers install at once (`InstallProtocol.UnserialisedInstalls`),
  and only then (`InstallProtocol.OverlapNeedsAFailedLock`).
- Log lines are lost if and only if more of them come between the drains of consecutive
  accepted posts than the ring holds (`LogShipping.NothingIsLostIff`). Posts that fail in
  between make that interval longer (`LogShipping.FailedPostCostsALine`), although the
  pusher's own text says that lines never drop on the happy and the 5xx path.
- After a lost answer to a log push the retry is dropped as a whole, with the lines logged
  meanwhile, or, at the beginning of the log, taken for a restart and added once more
  (`LogBroker.LostAnswer`). It does no harm if and only if something was acknowledged before
  and the retry carries the same text, that is, nothing was logged in between
  (`LogBroker.LostAnswerIsHarmlessIff`).

Where code and its documentation differ the code is followed. `MAX_LOG_BYTES` counts
characters, not bytes. `prune_orphans` removes slots above the limit, while the module's text
says at or above. The eviction text says that only pinned items remain over quota, which
`WhatRemainsOverQuota` corrects. TIMED_OUT is listed as a state and is never entered.

## How time, I/O and chance appear

Times are integers handed to each operation; scheduler scores are reals. uuids are numbers
that an operation brings and that were never used before. Making a bundle, installing a
version and posting a log chunk succeed or fail as the environment likes. queue.json is
replaced atomically. Liveness checks, the host's free space and the routing verdict are
functions that an operation is given.

## Model

| member | source | states |
|---|---|---|
| `LiveQueue.LiveJob.Assign` | ha-addon/server/job_queue.py:690-711 | a claimed job runs for that client from now on and is no longer a follow-up; every other field stays |
| `LiveQueue.LiveJob.Finish` | ha-addon/server/job_queue.py:760-794 | a result ends the job as SUCCESS or FAILED now, a missing OTA result keeps the old one, only a success that asks for it sets the server-side push, and every other field stays |
| `LiveQueue.LiveJob.Expire` | ha-addon/server/job_queue.py:925-990 | a job that runs and is past its timeout, or whose worker a liveness check says is offline, is tried once more without assignee, or fails at the retry cap; any other job is untouched, and the answer says which it was |
| `LiveQueue.LiveJob.Sweep` | ha-addon/server/job_queue.py:833-861 | a waiting job ends up as the verdict says, others are untouched, and a change is reported exactly when the state moved |
| `LiveQueue.LiveJob.Recover` | ha-addon/server/job_queue.py:380-410 | restart recovery of one entry, and whether a history row must follow |
| `LiveQueue.JobQueue.constructor` | ha-addon/server/job_queue.py:344-416 | loading turns queue.json into the recovered queue and writes a history row for exactly the stranded server-side pushes, in order |
| `LiveQueue.JobQueue.Persist` | ha-addon/server/job_queue.py:320-337 | queue.json becomes the list of all jobs, in queue order, in one step |
| `LiveQueue.JobQueue.RecordHistory` | ha-addon/server/job_history.py:315-381 | the row of a terminal job is inserted or overwritten; a job that is not terminal writes nothing |
| `LiveQueue.JobQueue.ClaimNext` | ha-addon/server/job_queue.py:646-711 | hands out the first job in queue order that is claimable by this client, saves the queue before returning, and changes nothing if there is none |
| `LiveQueue.JobQueue.SubmitResult` | ha-addon/server/job_queue.py:713-807 | a running job ends as the result says, a finished one takes a late OTA verdict, everything else is refused and changes nothing; queue.json and the history row then say the same; memory, queue.json and history change in that order |
| `LiveQueue.JobQueue.PatchOtaResult` | ha-addon/server/job_queue.py:1118-1139 | a late OTA verdict reaches the queue, queue.json and the history row |
| `LiveQueue.JobQueue.ReleaseForRetry` | ha-addon/server/job_queue.py:1005-1046 | puts a running job back and saves it; at the cap it answers no, with the counter raised in memory only |
| `LiveQueue.JobQueue.ReEvaluateRouting` | ha-addon/server/job_queue.py:809-864 | the sweep changes waiting jobs only, saves exactly when some state moved, and returns how many did |
| `LiveQueue.JobQueue.CheckTimeouts` | ha-addon/server/job_queue.py:904-1003 | exactly the running jobs that ran out are tried once more or fail at the cap, and exactly they are reported; queue.json is written once, and only then history rows, for exactly the jobs that failed for good |
| `LiveQueue.JobQueue.Enqueue` | ha-addon/server/job_queue.py:462-603 | redirects the queued follow-up, or ignores the request, or records and evicts the target's stale jobs and appends a job that asks for exactly what the request asks for, whether to validate only included; no job is returned exactly when the request was ignored |
| `LiveQueue.JobQueue.Cancel` | ha-addon/server/job_queue.py:866-902 | cancels the named unfinished jobs, saves once, then records each of them, and answers with their number; nothing is written if there is none |
| `LiveQueue.JobQueue.Retry` | ha-addon/server/job_queue.py:1048-1116 | for each id in turn records and replaces the finished jobs of its target, and answers with the new jobs; one save at the end, none if nothing was retried |
| `LiveQueue.JobQueue.Discard` | ha-addon/server/job_queue.py:1195-1264 | removal, clearing and pruning drop only finished jobs that were picked, save if any was, and record nothing |
| `LiveQueue.JobQueue.MarkStored` | ha-addon/server/job_queue.py:1266-1308 | noting an uploaded binary saves the queue exactly when the job exists and, unless forced, runs |
| `QueueStores.PlayIsReplay` | ha-addon/server/job_queue.py:282-337 | a script leaves the class's stores and the machine's in the same state |
| `QueueTheorems.RunsToEnd` | ha-addon/server/job_queue.py:282-337 | stepping an operation to its end, with every write succeeding, is playing its script |
| `LiveServer.OperationIsRun` | ha-addon/server/job_queue.py:462-1139 | an operation that performs its script takes the stores where a run of the machine takes them, and keeps every history row's state |
| `LiveServer.LoadIsRun` | ha-addon/server/job_queue.py:344-416 | loading takes the stores where a crash of the machine, at any point of any operation, and its recovery take them |
| `LiveServer.Server.constructor` | ha-addon/server/job_queue.py:344-416 | a server started on what a run left on disk, wherever it was cut off, is where a longer run got to; its jobs are the stored ones as they come back, field by field |
| `LiveServer.Server.Restart` | ha-addon/server/job_queue.py:344-416 | a restart continues the run by a crash and its recovery; history rows keep their states; running jobs wait again and cut-off flashes have failed, in history as well |
| `LiveServer.Server.WhatRunsGuarantee` | ha-addon/server/job_queue.py:282-337 | for a server in use: coherent jobs in memory and on disk, no contradicting row, bounded hand-outs, one result each, and a row for every finished job unless a crash hit an operation |
| `LiveServer.Server.Enqueue` | ha-addon/server/job_queue.py:462-603 | the call continues the run by one whole enqueue; a new job is last in the queue and asks for exactly what the request asks for, nothing is returned exactly when the request is folded in, and every waiting job but a redirected follow-up stays; history rows keep their states |
| `LiveServer.Server.Claim` | ha-addon/server/job_queue.py:605-711 | the call hands out the first job that the client may have, said in its fields, as running on that client from now on, and continues the run by one whole claim; history rows keep their states |
| `LiveServer.Server.Submit` | ha-addon/server/job_queue.py:713-807 | a running job ends SUCCESS or FAILED as the result says, now and with its OTA result, a finished one takes an OTA verdict, others are refused; queue.json and the row say the same; the run continues by one whole result; history rows keep their states |
| `LiveServer.Server.Sweep` | ha-addon/server/job_queue.py:809-864 | waiting jobs wait as the verdict says, the answer is the number of jobs whose state changed, and the run continues by one whole sweep; history rows keep their states |
| `LiveServer.Server.Cancel` | ha-addon/server/job_queue.py:866-902 | exactly the named unfinished jobs are CANCELLED now, saved, recorded and counted in the answer, and the run continues by one whole cancel; history rows keep their states |
| `LiveServer.Server.CheckTimeouts` | ha-addon/server/job_queue.py:904-1003 | exactly the running jobs past their timeout or with a worker that is known to be offline change, as PENDING or FAILED by their count, and exactly they are reported; the run continues by one whole timeout check; history rows keep their states |
| `LiveServer.Server.Release` | ha-addon/server/job_queue.py:1005-1046 | the call puts a running job back below the cap, refuses at the cap, and continues the run by one whole release; history rows keep their states |
| `LiveServer.Server.Retry` | ha-addon/server/job_queue.py:1048-1116 | the finished jobs of the retried targets are recorded and give way to one repetition each, field by field, which are the answer; the run continues by one whole retry; history rows keep their states |
| `LiveServer.Server.PatchOta` | ha-addon/server/job_queue.py:1118-1139 | the job has the OTA result that was given, in the queue, in queue.json and in its row; the run continues by one whole OTA patch; history rows keep their states |
| `LiveServer.Server.Discard` | ha-addon/server/job_queue.py:1195-1264 | exactly the finished jobs that were picked are gone and counted, no row changes, and the run continues by one whole removal; history rows keep their states |
| `LiveServer.Server.MarkStored` | ha-addon/server/job_queue.py:1266-1308 | the queue is saved exactly if the job exists and runs, or the call is forced; the run continues by one whole mark; history rows keep their states |
| `QueueMeaning.EnqueueCovers` | ha-addon/server/job_queue.py:500-603 | after an enqueue a PENDING job of the target carries the request unless one was already waiting and nothing changed; a new job validates only exactly if the request does, and has no assignee and no retries; other targets and running jobs are untouched; at most one job is added; the next row says when a job that waits will compile |
| `QueueMeaning.CompileWaitsIff` | ha-addon/server/job_queue.py:500-546 | after an ordinary request some job of the target is waiting to compile if and only if one was before, or the request was not folded into a PENDING job that only flashes or only validates; every follow-up compiles |
| `QueueMeaning.RequestDropped` | ha-addon/server/job_queue.py:538-544 | so behind a queued flash or validation of its target, whichever it is, an ordinary request changes nothing and no job is left that will compile |
| `QueueMeaning.RetryReplaces` | ha-addon/server/job_queue.py:1066-1108 | after a retry no finished job of the target is left, one new PENDING job repeats it with the timeout given, all other jobs are as before; it never only validates, and is OTA-only, on the worker that compiled it, exactly after a success whose OTA failed |
| `QueueMeaning.CancelsExactly` | ha-addon/server/job_queue.py:866-902 | exactly the unfinished jobs that were named are cancelled, and exactly those are reported and recorded |
| `QueueEffects.SubmitDoes` | ha-addon/server/job_queue.py:713-807 | what a result does to any queue with distinct ids, to queue.json and to history, field by field |
| `QueueEffects.TimeoutDoes` | ha-addon/server/job_queue.py:904-1003 | what the timeout check does, field by field: who ran out, who is tried again, who fails, and whose row is written |
| `QueueEffects.ClaimDoes` | ha-addon/server/job_queue.py:646-711 | what a claim does, field by field, with the conditions of the source on the job that is handed out and on those before it |
| `QueueEffects.ReleaseDoes` | ha-addon/server/job_queue.py:1005-1046 | what a release does, field by field, on both sides of the retry cap |
| `QueueEffects.PatchDoes` | ha-addon/server/job_queue.py:1118-1139 | a late OTA verdict is written to the job, to queue.json and, for a finished job, to its row, and nothing else changes |
| `QueueEffects.SweepDoes` | ha-addon/server/job_queue.py:830-864 | what a routing sweep does, field by field, and when it saves |
| `QueueEffects.SweepCounts` | ha-addon/server/job_queue.py:830-864 | the number a sweep answers with is the number of jobs whose state it changed |
| `QueueEffects.CancelDoes` | ha-addon/server/job_queue.py:866-902 | what a cancel of any list of ids does, field by field |
| `QueueEffects.CancelCounts` | ha-addon/server/job_queue.py:874-902 | the number a cancel answers with is the number of named unfinished jobs, each counted once however often it is named |
| `QueueEffects.DiscardDoes` | ha-addon/server/job_queue.py:1195-1264 | what a removal keeps, and that it records nothing |
| `QueueArrivals.EnqueueDoes` | ha-addon/server/job_queue.py:500-603 | what a request does to any well-formed queue, to queue.json and to history, field by field: a redirected follow-up, nothing, or a new last job and recorded evictions |
| `QueueArrivals.EnqueueBrings` | ha-addon/server/job_queue.py:500-603 | for any queue: what is new after a request is the job asked for or the redirected follow-up; a validate-only request always brings its job; every waiting job but that follow-up stays |
| `QueueArrivals.RetryDoes` | ha-addon/server/job_queue.py:1066-1116 | for any list of ids: the finished jobs of the targets named are recorded and gone, the rest stays in order, and behind it is exactly one repetition per target, whose fields are those of the finished job, the new id, the version and the timeout |
| `QueueArrivals.LoadDoes` | ha-addon/server/job_queue.py:380-416 | what a restart makes of queue.json, field by field, and which rows it writes |
| `QueueScripts.PersistThenRecord` | ha-addon/server/job_queue.py:970-1003 | saving before recording leaves, whatever step a crash hits, no history row that queue.json contradicts |
| `QueueScripts.ClaimSound` | ha-addon/server/job_queue.py:646-711 | each step of a claim keeps what the crash theorems need, and at its end queue and queue.json agree |
| `QueueScripts.SubmitSound` | ha-addon/server/job_queue.py:733-807 | each step of a submitted result keeps what the crash theorems need, and its acceptance is the first for the job |
| `QueueScripts.ReleaseSound` | ha-addon/server/job_queue.py:1026-1046 | each step of a release keeps what the crash theorems need, on both sides of the retry cap |
| `QueueScripts.SweepSound` | ha-addon/server/job_queue.py:830-864 | each step of a sweep keeps what the crash theorems need, even when nothing is saved |
| `QueueScripts.TimeoutSound` | ha-addon/server/job_queue.py:925-1003 | each step of the timeout check keeps what the crash theorems need: nothing is recorded that is not on disk |
| `QueueScripts.CancelSound` | ha-addon/server/job_queue.py:874-902 | each step of a cancel, of any list of ids, keeps what the crash theorems need |
| `QueueScripts.PatchSound` | ha-addon/server/job_queue.py:1126-1139 | each step of an OTA patch, of a job in any state, keeps what the crash theorems need |
| `QueueScripts.DiscardSound` | ha-addon/server/job_queue.py:1195-1264 | each step of a removal of finished jobs keeps what the crash theorems need |
| `QueueScripts.MarkSound` | ha-addon/server/job_queue.py:1266-1308 | an extra save between operations keeps what the crash theorems need |
| `QueueReplace.EnqueueSound` | ha-addon/server/job_queue.py:500-603 | each step of an enqueue keeps what the crash theorems need, although it records before it saves |
| `QueueReplace.RetrySound` | ha-addon/server/job_queue.py:1066-1116 | each step of a retry, of any list of ids, keeps what the crash theorems need |
| `QueueReplace.RestartKeepsBase` | ha-addon/server/job_queue.py:380-416 | a crash at any point, and the reload, keep what the crash theorems need |
| `QueueReplace.RecoverySound` | ha-addon/server/job_queue.py:380-416 | so do the history rows written while loading; after a restart between operations queue and history still agree |
| `QueueMachine.StepKeepsBase` | ha-addon/server/job_queue.py:320-337 | every single update, save, history write and acceptance keeps what the theorems below need |
| `QueueTheorems.HistoryMatchesDisk` | ha-addon/server/job_queue.py:794-800 | over all runs with crashes: a job with a history row is, on disk and in memory, finished with that state and time, or absent |
| `QueueTheorems.VerdictIsFinal` | ha-addon/server/job_queue.py:970-1003 | over all runs with crashes: a history row never changes its final state |
| `QueueVerdicts.VerdictIsFinalIfCrashesAreClean` | ha-addon/server/job_queue.py:331-337 | with any lost writes and any crashes a history row never changes its final state, as long as no crash comes while the latest queue.json write is a lost one |
| `QueueVerdicts.VerdictIsFinalIff` | ha-addon/server/job_queue.py:344-416 | after a restart, whatever was lost before, a row's state is final in all runs whose writes succeed if and only if the queue.json that was loaded does not contradict it |
| `QueueVerdicts.AnyRun` | ha-addon/server/job_queue.py:331-337 | a run with lost writes and crashes goes through the same queues as one that lost none, but for the rows that queue.json contradicts |
| `QueueVerdicts.BoundedExecution` | ha-addon/server/job_queue.py:944-990 | over all runs in which no crash comes while the latest queue.json write is a lost one: a job is handed to a worker at most MAX_RETRIES times plus once per restart |
| `QueueVerdicts.OneResultPerJob` | ha-addon/server/job_queue.py:733-769 | over the same runs: at most one compile result is accepted per job |
| `QueueVerdicts.ExecutionInAnyRun` | ha-addon/server/job_queue.py:331-337 | over all runs, whatever writes are lost: a job is handed out at most MAX_RETRIES * (restarts + 1) times and has at most restarts + 1 results accepted |
| `QueueTheorems.FinishedIsFinal` | ha-addon/server/job_queue.py:733-807 | a finished job keeps state and finish time while it exists, even through crashes once it is on disk |
| `QueueVerdicts.JobsAreCoherent` | ha-addon/server/job_queue.py:56-160 | in every reachable state, in memory and on disk, whatever writes are lost: ids are distinct, timestamps and assignee fit the state, TIMED_OUT does not occur, no running job is a follow-up, every follow-up compiles and each target has at most one that waits |
| `QueueTheorems.HistoryAgreesWithQueue` | ha-addon/server/job_queue.py:743-757 | without a crash inside an operation, every finished job in the queue has a row with the same state, time and OTA result |
| `QueueTheorems.EvictionIsRecorded` | ha-addon/server/job_queue.py:558-567 | even after crashes, enqueue and retry never evict a finished job whose row is missing or differs |
| `QueueTheorems.FollowupWaitsForItsPredecessor` | ha-addon/server/job_queue.py:651-669 | in every reachable state, the step that starts a follow-up finds no running job of its target |
| `OneActive.OneActiveOneFollowup` | ha-addon/server/job_queue.py:500-603 | in runs without retry, validate-only jobs, pins, filters or bypass, with rules that look at the target only, through any crashes: one primary, behind it one follow-up, and never two running jobs per target |
| `OneActive.ClaimDisciplined` | ha-addon/server/job_queue.py:651-711 | the claim step of that theorem: the order in the queue makes the primary go first |
| `OneActive.ClaimKeepsOneWorkingIff` | ha-addon/server/job_queue.py:660-669 | a claim keeps one running job per target if and only if none of the claimed job's target is running; the guard ensures this for follow-ups only |
| `QueueLimits.ExecutionBoundIsTight` | ha-addon/server/job_queue.py:944-990 | for every number of restarts some run reaches the bound of BoundedExecution |
| `QueueLimits.LossyBoundIsTight` | ha-addon/server/job_queue.py:331-337 | for every number of restarts some run that loses writes reaches the bound of ExecutionInAnyRun |
| `QueueLimits.LostWriteSplitsVerdict` | ha-addon/server/job_queue.py:331-337 | a run from the empty queue in which a lost queue.json write and a crash give one job two verdicts |
| `QueueLimits.ValidateOnlyRunsBeside` | ha-addon/server/job_queue.py:500-546 | a run from the empty queue in which a validate-only job runs beside a compile of its target |
| `QueueLimits.PinnedJobIsOvertaken` | ha-addon/server/job_queue.py:651-669 | a run from the empty queue in which a pinned job that timed out is overtaken by its follow-up and then runs beside it |
| `QueueLimits.FilteredJobIsOvertaken` | ha-addon/server/job_queue.py:670-686 | the same for a job with a tag filter |
| `QueueLimits.BypassingJobOvertakes` | ha-addon/server/job_queue.py:670-686 | the same for a follow-up that may bypass the rules |
| `QueueLimits.RetryRunsBeside` | ha-addon/server/job_queue.py:1066-1108 | a run from the empty queue in which a retried job runs beside the follow-up of the job it repeats |
| `Routing.FindBlockingRule` | ha-addon/server/routing.py:158-196 | the search over workers and rules gives the verdict whose meaning the next rows state, and which holds of the tags themselves |
| `Routing.VerdictExplains` | ha-addon/server/routing.py:94-196 | in sets of tags: eligible exactly if some worker meets all rules that apply to the device; otherwise the reason is the first rule that applies and that no worker meets, or the generic one if there is none |
| `Routing.EligibleIsQualified` | ha-addon/server/routing.py:94-141 | in sets of tags: a worker is eligible exactly if it meets every rule that applies to the device |
| `Routing.ExplanationIsTruthful` | ha-addon/server/routing.py:127-196 | eligible exactly when one worker passes every rule; a named rule applies, nobody satisfies it and it is the first such; the generic reason only when each applicable rule has a taker but no worker passes all |
| `Routing.EligibilityIsMonotone` | ha-addon/server/routing.py:127-156 | a further rule never makes a job eligible, a further worker never makes one ineligible |
| `Eligibility.RoutingPass.CheckFleet` | ha-addon/server/routing_eligibility.py:138-178 | the sweep's judgement, with its per-target cache, is the verdict the lemmas below speak about, and is explained by the tags of devices, workers and rules |
| `Eligibility.RoutingPass.CheckClaim` | ha-addon/server/routing_eligibility.py:272-334 | the claim predicate of one worker, with its cache, is the acceptance the lemmas below speak about, and is what the tags of filter, device, worker and rules say |
| `Eligibility.AcceptsInTags` | ha-addon/server/routing_eligibility.py:272-334 | in tags: a worker accepts a job exactly if the job's filter allows it and, unless the job may bypass the rules, it meets the fleet's rules and the device's own that apply |
| `Eligibility.FleetVerdictExplains` | ha-addon/server/routing_eligibility.py:138-178 | in tags: the sweep's verdict, the first applicable rule as the reason with nobody online included |
| `Eligibility.SweepAgreesWithClaims` | ha-addon/server/routing_eligibility.py:154-178 | with a worker online, the sweep calls a job eligible exactly when some online worker accepts it, filter aside, or with it if it excludes nobody |
| `Eligibility.NobodyOnline` | ha-addon/server/routing_eligibility.py:164-177 | with nobody online, exactly the jobs to which no rule applies stay eligible, and the reason names the first rule that applies |
| `Eligibility.FilteredJobIsStrandedIff` | ha-addon/server/routing_eligibility.py:309-315 | the sweep calls a job eligible that no online worker accepts if and only if some online worker would accept it but for its filter, and the filter excludes each such worker |
| `Eligibility.FilteredJobIsStranded` | ha-addon/server/routing_eligibility.py:309-315 | an instance: a job that asks for a GPU and may bypass the rules, with no such worker online |
| `Eligibility.WorkersOnlyHelp` | ha-addon/server/routing_eligibility.py:118-136 | one more worker online never blocks a job, from an empty fleet as well |
| `Eligibility.SweepSettles` | ha-addon/server/job_queue.py:830-864 | after a sweep a waiting job is PENDING exactly when eligible and otherwise BLOCKED with the reason, nothing else is touched, and a second sweep changes nothing |
| `Eligibility.PlainJobsAreJudgedAlike` | ha-addon/server/routing_eligibility.py:309-334 | jobs without pin, filter or bypass are judged by their target alone, which is what OneActiveOneFollowup supposes |
| `Scheduler.CollectMine` | ha-addon/server/api.py:407-413 | the primary PENDING jobs this worker may take, in queue order |
| `Scheduler.CountLoads` | ha-addon/server/api.py:438-443 | per worker, the number of running jobs assigned to it |
| `Scheduler.DecideDeferral` | ha-addon/server/api.py:430-498 | the loop over the registry defers exactly when other workers that go ahead have free slots for all primary jobs this worker may take, with loads counted by assignee and speeds compared by what the processors have left |
| `Scheduler.DefersIff` | ha-addon/server/api.py:430-498 | the condition of the row above, for every scene and queue |
| `Scheduler.IdlestNeverDefers` | ha-addon/server/api.py:463-498 | a worker that runs fewer jobs than every other fit worker with a free slot never defers |
| `Scheduler.DefersToTheIdler` | ha-addon/server/api.py:463-498 | a worker defers to a single one that runs fewer jobs, could take one of its jobs and has free slots for all of them |
| `Scheduler.TieGoesToTheLessLoaded` | ha-addon/server/api.py:434-437 | of two equally fast machines the less loaded one has the higher score |
| `Scheduler.TieGoesToTheFaster` | ha-addon/server/api.py:434-437 | of two equally loaded machines the faster one has the higher score |
| `Scheduler.Admit` | ha-addon/server/api.py:361-372 | disabled and disk-blocked workers get nothing, unknown callers never defer |
| `LiveServer.Server.GiveBack` | ha-addon/server/api.py:581-615 | a job whose bundle failed waits again, counted and without assignee, while the server installs, and is FAILED now, saved and recorded, otherwise or at the cap; the run goes on by a whole release, a whole failed result, or the one after the other |
| `LiveServer.Server.FailAt` | ha-addon/server/api.py:607-615 | the claimed job ends FAILED now, in the queue, in queue.json and in its row |
| `LiveServer.Server.GetNextJob` | ha-addon/server/api.py:351-615 | one poll: nothing for a worker that is disabled or disk-blocked; otherwise the first job it may have, said in fields and with the deferral of the rows above, is its own, saved, and answered if its bundle was built, or given back; the queue is the one of the poll function below, and the run continues by a whole claim and what giving back takes |
| `SchedulerTheorems.PoolIsHungry` | ha-addon/server/api.py:463-490 | whoever a worker defers to could take a job itself |
| `SchedulerTheorems.NoDeferralDeadlock` | ha-addon/server/api.py:407-506 | whenever a fit worker with a free slot may take some primary job, some such worker does not defer and gets a PENDING job |
| `SchedulerTheorems.PollLowers` | ha-addon/server/api.py:527-615 | every hand-out lowers what is left to do, however the bundle turns out, and a poll without one changes nothing |
| `SchedulerTheorems.OperationWanes` | ha-addon/server/job_queue.py:713-1139 | no result, cancel, timeout, release, OTA verdict, removal, mark or sweep adds to what is left to do; one that takes nothing off, and moves no job by a sweep, leaves every worker the same load and the same choice |
| `SchedulerTheorems.RoundMakesProgress` | ha-addon/server/api.py:407-506 | a round in which every worker asks, in any order and with such operations in between, lowers what is left to do if somebody was hungry when it began |
| `SchedulerTheorems.HungerEnds` | ha-addon/server/api.py:407-506 | over any rounds, with such operations between polls and rounds: at most 2 * MAX_RETRIES rounds per unfinished job begin with a fit worker that has a free slot and a primary job it may take |
| `SchedulerTheorems.MovingSweepsCanDodge` | ha-addon/server/job_queue.py:830-864 | without that restriction it fails: with two sweeps around its poll a job is hidden from the only worker in every round |
| `SchedulerTheorems.FollowupIsTakenIff` | ha-addon/server/api.py:407-498 | a worker with no primary job left takes a follow-up it may take if and only if one is pinned to it or no better placed worker is idle, whether or not that one may take it |
| `SchedulerTheorems.FollowupIsStranded` | ha-addon/server/api.py:407-413 | so for follow-ups there is no such promise: a worker that alone may take one defers for ever to an idle faster worker that may not |
| `DiskQuota.Disk.EvictEach` | ha-addon/client/disk_quota.py:394-406 | one category: pinned and kept entries are skipped, and nothing is removed once there is enough |
| `DiskQuota.Disk.EvictInOrder` | ha-addon/client/disk_quota.py:371-436 | the three loops, each with its own listing of the changed tree, carry out the plan made at the start |
| `DiskQuota.Disk.EnforceQuota` | ha-addon/client/disk_quota.py:439-466 | within the quota nothing happens; otherwise, in bytes, the plan's directories go one by one until the rest is within the quota or the plan is at its end; the counters are the bytes gone and the directories by kind that took some along |
| `DiskQuota.Disk.HostDiskFloor` | ha-addon/client/disk_quota.py:469-504 | the emergency run does nothing above the host's threshold or when free space is unknown, and otherwise evicts until then or to the end of the plan |
| `DiskQuota.Disk.PruneOrphans` | ha-addon/client/disk_quota.py:347-368 | exactly the directories of slots above the limit go, with their bytes and the number of slots counted |
| `DiskQuota.Disk.RunSweep` | ha-addon/client/client.py:1069-1131 | orphans, quota and floor in that order, each cut as its own row says; nothing without a quota; the bytes reported are the bytes gone |
| `DiskQuota.FreedIsGone` | ha-addon/client/disk_quota.py:284-294 | bytes before equal bytes after plus bytes freed |
| `DiskQuota.QuotaCuts` | ha-addon/client/disk_quota.py:371-466 | for every tree, quota and pins: the run removes the shortest prefix of the plan after which the bytes left are within the quota, or all of it, with exact counters |
| `DiskQuota.RunCuts` | ha-addon/client/disk_quota.py:371-436 | the same for any stopping condition and any list of directories |
| `DiskQuotaTheorems.ByAgeSorts` | ha-addon/client/disk_quota.py:194-206 | the listings are the same entries, oldest first |
| `DiskQuotaTheorems.PlanIsByAge` | ha-addon/client/disk_quota.py:371-436 | each part of the plan is the unpinned entries of its kind, oldest first, without the most recent venv |
| `DiskQuotaTheorems.PlanInFields` | ha-addon/client/disk_quota.py:371-436 | the plan by its entries: the unpinned venvs but for a newest one, the unpinned cached targets, the unpinned toolchains, each part by modification time |
| `DiskQuota.ShortestPrefix` | ha-addon/client/disk_quota.py:371-436 | a run removes the shortest prefix of the plan that is enough, or all of it if none is |
| `DiskQuotaTheorems.SweepSparesPinned` | ha-addon/client/client.py:1094-1119 | a pinned entry is lost in a sweep if and only if orphans are pruned and its slot is above the limit |
| `DiskQuotaTheorems.SecondCallDoesNothing` | ha-addon/client/disk_quota.py:439-466 | a second quota run with the same pins removes and counts nothing |
| `DiskQuotaTheorems.WhatRemainsOverQuota` | ha-addon/client/disk_quota.py:371-466 | if the quota cannot be met, exactly the pinned entries, the most recent venv, slot directories without cache entry and unmanaged directories are left |
| `ActiveJobs.ActiveJobSet.Enter` | ha-addon/client/disk_quota.py:126-131 | the counters stay equal to the number of open pins |
| `ActiveJobs.ActiveJobSet.Exit` | ha-addon/client/disk_quota.py:132-144 | the counters stay equal to the number of open pins when jobs leave, in any order |
| `ActiveJobs.ActiveJobSet.Snapshot` | ha-addon/client/disk_quota.py:146-152 | the snapshot holds exactly what some open pin holds |
| `ActiveJobs.SweepBesideJobs` | ha-addon/client/client.py:1094-1119 | a sweep deletes nothing that a running job in a valid slot uses, and no published venv; what it deletes is what orphans, quota and floor call for with exactly these pins |
| `VersionCache.EvictsAsFewAsPossible` | ha-addon/client/version_manager.py:286-306 | an eviction loop drops the oldest versions that may go, and as few as it takes |
| `VersionCache.DropOldestLeaves` | ha-addon/client/version_manager.py:295-306 | what is dropped is a prefix of the versions that may go; the others all stay, in order |
| `VersionCache.CapacityLoop` | ha-addon/client/version_manager.py:522-528 | afterwards the table is below its limit or holds only protected versions and the requested one; the number dropped is exact |
| `VersionCache.DiskSpaceLoop` | ha-addon/client/version_manager.py:318-332 | afterwards space is not short, or one version is left, or nothing may go; no eviction without need |
| `VersionCache.RoomIsMade` | ha-addon/client/version_manager.py:522-528 | the capacity loop never evicts a protected version or the one asked for, does nothing below the limit, and stops one below it or with only such versions left |
| `VersionCache.SpaceIsMade` | ha-addon/client/version_manager.py:318-332 | the disk-space loop never evicts such a version, and does nothing while space is not short or only one version is there |
| `VersionCache.VersionManager.EvictLru` | ha-addon/client/version_manager.py:286-306 | the first version of the table that may go goes; it is the least recently used one that may exactly when it was not rebuilt in place, or no version that may go has been idle since then; no victim exactly when there is none |
| `VersionCache.VictimIsLeastRecentIff` | ha-addon/client/version_manager.py:295-306 | the condition of the row above, for every table and use history; which versions have been idle since a rebuild is kept up by every operation of the manager |
| `VersionCache.JustRebuilt` | ha-addon/client/version_manager.py:295-306 | right after a rebuild in place, with no other rebuilt version in the table: the victim is the least recently used version that may go if and only if it is not the rebuilt one, or nothing else may go |
| `VersionCache.RebuildThenEvict` | ha-addon/client/version_manager.py:507-550 | for every table in which the version to be rebuilt stands first among several that may go: it is rebuilt in place, goes next, and is not the least recently used of them |
| `VersionCache.VersionManager.Reserve` | ha-addon/client/version_manager.py:507-533 | the locked part of ensure_version: used and moved to the end, joined, or claimed after making room |
| `VersionCache.VersionManager.Settle` | ha-addon/client/version_manager.py:548-554 | the locked part after an install: success is a use and keeps a version that was in the table in its place, failure is none |
| `VersionCache.VersionManager.GetPath` | ha-addon/client/version_manager.py:566-577 | using an installed version makes it the most recent |
| `InstallProtocol.StepKeepsInv` | ha-addon/client/version_manager.py:496-564 | every step of every thread keeps: events have one live owner, entries belong to it, file locks to their holder |
| `InstallProtocol.OneOwnerPerManager` | ha-addon/client/version_manager.py:515-533 | two threads of one manager never own installs of the same version, even without the file lock |
| `InstallProtocol.InstallsAreExclusive` | ha-addon/client/version_manager.py:453-490 | over all threads and managers, if file locks can be taken: at most one installs a version, and only while it is not installed |
| `InstallProtocol.WaitersAreServed` | ha-addon/client/version_manager.py:535-542 | a waiter's event is set or has a live owner that sets it on success and failure |
| `InstallProtocol.NoDeadlock` | ha-addon/client/version_manager.py:496-564 | while a call has not ended, some thread can move without a timeout |
| `InstallProtocol.OverlapNeedsAFailedLock` | ha-addon/client/version_manager.py:473-479 | in any run, of two threads that install one version at once one went on without the file lock |
| `InstallProtocol.EveryCallEnds` | ha-addon/client/version_manager.py:496-564 | under every interleaving the steps of the calls are bounded, quadratically in their number, and when no thread has one left without a timeout every call has ended |
| `InstallProtocol.AnswersAreTrue` | ha-addon/client/version_manager.py:496-564 | in every run: a call that returned had found its version installed or installed it, and one that raised had waited too long or failed to install it |
| `InstallProtocol.OnDiskIff` | ha-addon/client/version_manager.py:496-564 | in every run: a version is on disk exactly if it was installed, or was there at first, and no failed install, eviction or sweep has deleted it since |
| `InstallProtocol.UnserialisedInstalls` | ha-addon/client/version_manager.py:473-479 | when the file lock cannot be taken, two managers install one version at once |
| `LogShipping.LogCapture.Emit` | ha-addon/client/log_capture.py:45-57 | the ring stays the tail of the log, with contiguous, strictly increasing offsets |
| `LogShipping.LogCapture.DrainSince` | ha-addon/client/log_capture.py:59-80 | the text of the ring from an offset on, and the offset after the last line |
| `LogShipping.DrainFrom` | ha-addon/client/log_capture.py:59-80 | from a line boundary that is exactly the lines from there on that are still in the ring |
| `LogShipping.BytesAreUtf8` | ha-addon/client/log_capture.py:45-57 | offsets count bytes of UTF-8: the length of a text is that of its encoding |
| `LogShipping.Pusher.Push` | ha-addon/client/client.py:1185-1205 | one turn of the pusher, with lines arriving before and during the post, is drain and answer of the machine, and nothing else |
| `LogShipping.Pusher.Loop` | ha-addon/client/client.py:1169-1205 | the whole loop is a run of the machine that the next rows speak about |
| `LogShipping.ShipsInOrder` | ha-addon/client/client.py:1185-1205 | through any failed and accepted posts the acknowledged offset begins a line; the k-th accepted push takes up where the one before ended and carries, in order and once, the lines logged up to its drain but those that had left the ring by then |
| `LogShipping.NothingIsLostIff` | ha-addon/client/client.py:1181-1182 | the accepted text is the log up to the acknowledged line if and only if between the drains of consecutive accepted posts never more records were logged than the ring holds |
| `LogShipping.FailedPostCostsALine` | ha-addon/client/client.py:1185-1205 | drains whose post failed do not count: a run with one line between any two drains, and room for one, that loses a line |
| `LogShipping.DeclaredOffsetIsTrueIff` | ha-addon/client/client.py:1190-1194 | the offset a push declares is that of its first line if and only if the ring lost nothing |
| `LogBroker.ServerHasWhatWasAccepted` | ha-addon/server/worker_log_broker.py:107-152 | if no answer is lost the server has exactly the accepted pushes, none taken for a retry or a restart |
| `LogBroker.LostAnswer` | ha-addon/server/worker_log_broker.py:125-148 | in every run whose first lost answer is followed by any lines and an accepted retry: the retry carries the lines from the first unanswered one on that are still in the ring, and the worker counts them as arrived; past the beginning of the log the server drops the retry as a whole, at the beginning it adds a restart mark and the whole retry to what it has |
| `LogBroker.LostAnswerIsHarmlessIff` | ha-addon/server/worker_log_broker.py:125-148 | after that the server has exactly what the worker counts as arrived if and only if something was acknowledged before and the retry carries the same text; while the ring still has every line from the first unanswered one on, if and only if something was acknowledged before and nothing was logged between the two drains |
| `StreamLog.JobLog.Append` | ha-addon/server/job_queue.py:1150-1178 | for every sequence of chunks the log is all of it up to 524288 characters, and beyond that its beginning and the marker, or just its beginning if a chunk ended exactly at the limit |
| `StreamLog.FullLogIsFrozen` | ha-addon/server/job_queue.py:1161-1163 | the log never exceeds its limit and does not change after reaching it |
| `StreamLog.GrowingLogIsComplete` | ha-addon/server/job_queue.py:1164-1169 | a log below the limit holds everything |
| `Health.OneMoreReading` | ha-addon/server/registry.py:173-205 | a reading that is bad or good decides the gate, any other leaves it |
| `Health.Worker.EvaluateHealth` | ha-addon/server/registry.py:150-205 | the worker is blocked exactly when the last decisive reading was bad, by the numbers of the source; a change is reported exactly when there was one |
| `Health.Worker.Heartbeat` | ha-addon/server/registry.py:399-423 | the gate stays exact over any sequence of heartbeats, old and new payloads mixed |

## Left out

- Malformed queue.json, or entries of it: the loader skips them; the model starts from the entries that parse.
- LiveQueue.JobQueue.Persist: does not model the temporary file; the rename is taken as one atomic step.
- QueueTheorems.VerdictIsFinal: assumes that queue.json writes succeed, because the statement fails without it; QueueVerdicts has the exact conditions.
- QueueTheorems.HistoryMatchesDisk: assumes the same, for the same reason.
- QueueVerdicts.BoundedExecution: assumes that no crash comes while the latest queue.json write is a lost one, without which it fails (QueueLimits.LossyBoundIsTight); QueueVerdicts.ExecutionInAnyRun is what holds then. QueueVerdicts.OneResultPerJob assumes the same.
- LiveServer.Server.constructor: starts on files that a run without lost writes left; LiveQueue.JobQueue.constructor takes any.
- LiveServer.Server.Enqueue: requires a job id that was never drawn before, as uuid4 gives; so does LiveServer.Server.Retry.
- LiveQueue.JobQueue.MarkStored: does not model the firmware flag that it sets, only the save.
- LiveQueue.JobQueue.RecordHistory: does not model a history database that fails or is not there; its writes succeed.
- LiveQueue.JobQueue.SubmitResult: does not compare the submitting worker with the assignee, as the source does not.
- Job fields that no property needs: log text, run id, config hash, host name, OTA address, selection reason, trigger flags, download-only and firmware flags.
- History columns other than state, finish time and OTA result, and the retention task.
- LiveServer.Server.GetNextJob: makes claim and bundle one step, so a cancel or timeout while the bundle is made is not in this contract; the queue theorems do cover it.
- Scheduler.DecideDeferral: does not model the reason hint or an exception in the decision, which answers like no job.
- SchedulerTheorems.HungerEnds: assumes that no job is enqueued or retried, that the server does not restart, that a worker asks when it has a free slot, and that a sweep moves jobs between rounds only, without which it fails (SchedulerTheorems.MovingSweepsCanDodge).
- The rule store's editing, validation and file, and the parsing of device YAML; rules and tags are given.
- The gate before a server-side push starts (firmware present, address known, not download-only), and the push itself.
- Firmware upload and orphan-firmware clean-up, HTTP handlers, authentication, WebSockets, discovery and all UI.
- The disk engine's failed deletions, unreadable directories, deadline-bounded walks, and slot directory names that are not plain numbers.
- Files and directories inside a slot other than its targets; a directory is one kind of entry, so one that looks like a venv under another kind's name does not occur.
- DiskQuota.Disk.HostDiskFloor: takes free space as a function of the tree, so other programs do not change it during one run.
- VersionCache.VersionManager.EvictLru: does not model a failed deletion, which the source ignores as well.
- VersionCache.VersionManager.Reserve: takes the published versions and the free space as fixed while it holds the lock.
- InstallProtocol.EveryCallEnds: counts steps; how long an installation or a poll of the clock takes is not modelled, nor an exception that is not an Exception.
- InstallProtocol.InstallsAreExclusive: takes an installation as one atomic step, while in the source bin/esphome appears during pip (version_manager.py:346-405), so that another manager's check that finds a half-built venv is not modelled.
- The order in which installed versions are found on disk at start, and the diagnosis of pip failures.
- Several pushers at once, and a worker process that restarts while its log is shipped.
- LogBroker.ServerHasWhatWasAccepted: does not model the bounded server buffer, its subscribers and its timed eviction.
- Characters that UTF-8 cannot encode.
- Registration, disconnection and persistence of workers, apart from what a poll and a heartbeat read and write.
- The IDF install lock, cache self-healing, deferred cache cleaning, git versioning, the device poller, schedules, diagnostics and the event bus.
