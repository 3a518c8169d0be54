/** The queue operations as scripts. An operation runs under the queue's lock, but the
    process can die between any two of its steps, so each one is written out as the
    list of in-memory updates, queue.json writes and history writes it performs, in
    the source's order (job_queue.py). */
module QueueOps {
  import opened Common
  import opened Routing
  import opened Jobs

  type Queue = seq<Job>

  datatype Micro =
    | Update(to: Queue, claimed: Option<JobId>, discards: bool) // in memory
    | Persist                                                   // queue.json, by atomic rename
    | Record(job: Job)                                          // one history upsert
    | Ack(id: JobId)                                            // a compile result is accepted

  datatype Op =
    | Enqueue(req: Request, id: JobId)
    | Claim(client: string, now: int, defer: bool, eligible: Job -> bool)
    | Submit(id: JobId, success: bool, ota: Option<string>, needsServerOta: bool, now: int)
    | Sweep(check: Job -> Verdict)
    | Cancel(ids: seq<JobId>, now: int)
    | CheckTimeouts(now: int, online: Option<string -> bool>)
    | Release(id: JobId)
    | Retry(ids: seq<JobId>, newIds: seq<JobId>, versionFor: string -> string, timeout: int)
    | PatchOta(id: JobId, result: string)
    | Discard(pick: Job -> bool) // remove_jobs, clear and prune_old_terminal
    | MarkStored(id: JobId, force: bool) // mark_firmware_stored and its forced form

  // ---- lookups ----

  function Ids(q: Queue): set<JobId> { set j | j in q :: j.id }

  function IndexOf(q: Queue, id: JobId): nat { FirstIndex(q, (j: Job) => j.id == id) }

  predicate Has(q: Queue, id: JobId) { IndexOf(q, id) < |q| }

  predicate WorkingOn(q: Queue, target: string) {
    exists j | j in q :: j.target == target && j.state == WORKING
  }

  function Records(js: seq<Job>): seq<Micro> { seq(|js|, i requires 0 <= i < |js| => Record(js[i])) }

  /** Change the queue, write queue.json, and only then the history rows. */
  function Write(to: Queue, claimed: Option<JobId>, hits: seq<Job>): seq<Micro> {
    [Update(to, claimed, false), Persist] + Records(hits)
  }

  /** Record the jobs that go, then put the new job behind the ones that stay. */
  function Swap(kept: Queue, gone: Queue, j: Job): seq<Micro> {
    Records(gone) + [Update(kept + [j], None, false)]
  }

  // ---- enqueue ----

  predicate CountsAsActive(j: Job, target: string) {
    j.target == target && (j.state == WORKING || (j.state == PENDING && !j.followup))
  }

  predicate IsQueuedFollowup(j: Job, target: string) {
    j.target == target && j.state == PENDING && j.followup
  }

  /** Terminal jobs and unclaimable BLOCKED relics of the target. */
  predicate IsStale(j: Job, target: string) {
    j.target == target && (Terminal(j) || j.state == BLOCKED)
  }

  function ActiveIndex(q: Queue, target: string): int {
    LastIndex(q, (j: Job) => CountsAsActive(j, target))
  }

  function FollowupIndex(q: Queue, target: string): int {
    LastIndex(q, (j: Job) => IsQueuedFollowup(j, target))
  }

  function StaleJobs(q: Queue, target: string): Queue { Filter(q, (j: Job) => IsStale(j, target)) }

  function FreshJobs(q: Queue, target: string): Queue { Filter(q, (j: Job) => !IsStale(j, target)) }

  function EnqueueScript(q: Queue, req: Request, id: JobId): seq<Micro> {
    var a := ActiveIndex(q, req.target);
    var f := FollowupIndex(q, req.target);
    if !req.validateOnly && 0 <= f then
      Write(q[f := Redirect(q[f], req)], None, [])
    else if !req.validateOnly && 0 <= a && q[a].state == PENDING then []
    else
      var followup := 0 <= a && q[a].state == WORKING && !req.validateOnly;
      Swap(FreshJobs(q, req.target), StaleJobs(q, req.target), NewJob(id, req, followup)) + [Persist]
  }

  // ---- claim ----

  predicate Claimable(q: Queue, j: Job, client: string, defer: bool, eligible: Job -> bool) {
    && j.state == PENDING
    && !PinnedElsewhere(j, client)
    && (defer ==> IsPinned(j))
    && !(j.followup && WorkingOn(q, j.target))
    && (IsPinned(j) || eligible(j))
  }

  function ClaimIndex(q: Queue, client: string, defer: bool, eligible: Job -> bool): nat {
    FirstIndex(q, (j: Job) => Claimable(q, j, client, defer, eligible))
  }

  function ClaimScript(q: Queue, client: string, now: int, defer: bool, eligible: Job -> bool): seq<Micro> {
    var i := ClaimIndex(q, client, defer, eligible);
    if i == |q| then []
    else Write(q[i := Assign(q[i], client, now)], Some(q[i].id), [])
  }

  // ---- submit, release, patch: one job by id ----

  predicate TakesOtaPatch(j: Job, ota: Option<string>) {
    (j.state == SUCCESS || j.state == FAILED) && ota.Some?
  }

  function SubmitScript(q: Queue, id: JobId, success: bool, ota: Option<string>, needsServerOta: bool, now: int)
    : seq<Micro>
  {
    var i := IndexOf(q, id);
    if i == |q| then []
    else if TakesOtaPatch(q[i], ota) then
      var j := q[i].(ota := ota);
      Write(q[i := j], None, [j])
    else if q[i].state != WORKING then []
    else
      var j := Finish(q[i], success, ota, needsServerOta, now);
      Write(q[i := j], None, [j]) + [Ack(id)]
  }

  function BumpInMemory(q: Queue, i: nat): seq<Micro>
    requires i < |q|
  {
    [Update(q[i := q[i].(retries := q[i].retries + 1)], None, false)]
  }

  /** At the cap the counter is bumped in memory only, and the job stays WORKING. */
  function ReleaseScript(q: Queue, id: JobId): seq<Micro> {
    var i := IndexOf(q, id);
    if i == |q| || q[i].state != WORKING then []
    else if q[i].retries + 1 >= MAX_RETRIES then
      BumpInMemory(q, i)
    else Write(q[i := Requeue(q[i])], None, [])
  }

  function PatchScript(q: Queue, id: JobId, ota: string): seq<Micro> {
    var i := IndexOf(q, id);
    if i == |q| then []
    else
      var j := q[i].(ota := Some(ota));
      Write(q[i := j], None, [j])
  }

  /** The flag that is set is not part of the model, but the save is. */
  predicate Markable(q: Queue, id: JobId, force: bool) {
    var i := IndexOf(q, id);
    i < |q| && (force || q[i].state == WORKING)
  }

  function MarkScript(q: Queue, id: JobId, force: bool): seq<Micro> {
    if Markable(q, id, force) then [Persist] else []
  }

  // ---- whole-queue passes ----

  function SweepQueue(q: Queue, check: Job -> Verdict): (to: Queue)
    ensures |to| == |q|
  {
    seq(|q|, i requires 0 <= i < |q| => SweepOne(q[i], check(q[i])))
  }

  predicate Moves(j: Job, check: Job -> Verdict) { SweepOne(j, check(j)).state != j.state }

  /** How many of the first n jobs change state under the sweep. */
  function MoveCount(q: Queue, check: Job -> Verdict, n: nat): nat
    requires n <= |q|
  {
    if n == 0 then 0 else MoveCount(q, check, n - 1) + if Moves(q[n - 1], check) then 1 else 0
  }

  function SweepScript(q: Queue, check: Job -> Verdict): seq<Micro> {
    if MoveCount(q, check, |q|) != 0 then Write(SweepQueue(q, check), None, [])
    else [Update(SweepQueue(q, check), None, false)]
  }

  function ExpireQueue(q: Queue, now: int, online: Option<string -> bool>): (to: Queue)
    ensures |to| == |q|
  {
    seq(|q|, i requires 0 <= i < |q| => if Expired(q[i], now, online) then ExpireOne(q[i], now) else q[i])
  }

  function ExpiredJobs(q: Queue, now: int, online: Option<string -> bool>): Queue {
    Filter(q, (j: Job) => Expired(j, now, online))
  }

  /** The jobs the check touched, in queue order, as they are after it. */
  function Affected(q: Queue, now: int, online: Option<string -> bool>): Queue {
    var hits := ExpiredJobs(q, now, online);
    seq(|hits|, i requires 0 <= i < |hits| => ExpireOne(hits[i], now))
  }

  /** Those among them that hit the cap. */
  function FailedJobs(q: Queue, now: int, online: Option<string -> bool>): Queue {
    FailedIn(Affected(q, now, online))
  }

  function FailedIn(q: Queue): Queue { Filter(q, (j: Job) => j.state == FAILED) }

  function TimeoutScript(q: Queue, now: int, online: Option<string -> bool>): seq<Micro> {
    if Affected(q, now, online) == [] then []
    else Write(ExpireQueue(q, now, online), None, FailedJobs(q, now, online))
  }

  function Kept(q: Queue, pick: Job -> bool): Queue { Filter(q, (j: Job) => !(Terminal(j) && pick(j))) }

  function DiscardScript(q: Queue, pick: Job -> bool): seq<Micro> {
    var kept := Kept(q, pick);
    if |kept| == |q| then [] else [Update(kept, None, true), Persist]
  }

  // ---- lists of ids: cancel and retry ----

  datatype CancelRun = CancelRun(mem: Queue, hits: Queue)

  function CancelAll(q: Queue, ids: seq<JobId>, now: int): (r: CancelRun)
    ensures |r.mem| == |q|
  {
    if ids == [] then CancelRun(q, [])
    else
      var r := CancelAll(q, ids[..|ids| - 1], now);
      var i := IndexOf(r.mem, ids[|ids| - 1]);
      if i == |r.mem| || Terminal(r.mem[i]) then r
      else
        var j := CancelOne(r.mem[i], now);
        CancelRun(r.mem[i := j], r.hits + [j])
  }

  function CancelScript(q: Queue, ids: seq<JobId>, now: int): seq<Micro> {
    var r := CancelAll(q, ids, now);
    if r.hits == [] then [] else Write(r.mem, None, r.hits)
  }

  datatype RetryRun = RetryRun(mem: Queue, script: seq<Micro>)

  function FinishedOf(q: Queue, target: string): Queue {
    Filter(q, (j: Job) => j.target == target && Terminal(j))
  }

  function UnfinishedOf(q: Queue, target: string): Queue {
    Filter(q, (j: Job) => !(j.target == target && Terminal(j)))
  }

  /** One id of a retry request: replace the finished job, and every other finished
      job of its target, by a new one at the end of the queue. */
  function RetryOne(q: Queue, id: JobId, newId: JobId, versionFor: string -> string, timeout: int): RetryRun {
    var i := IndexOf(q, id);
    if i == |q| || !Terminal(q[i]) then RetryRun(q, [])
    else
      var prior := q[i];
      var kept, gone := UnfinishedOf(q, prior.target), FinishedOf(q, prior.target);
      var j := RetryJob(prior, newId, versionFor(prior.target), timeout);
      RetryRun(kept + [j], Swap(kept, gone, j))
  }

  function RetryAll(q: Queue, ids: seq<JobId>, newIds: seq<JobId>, versionFor: string -> string, timeout: int)
    : RetryRun
    requires |ids| == |newIds|
  {
    if ids == [] then RetryRun(q, [])
    else
      var n := |ids| - 1;
      var r := RetryAll(q, ids[..n], newIds[..n], versionFor, timeout);
      var one := RetryOne(r.mem, ids[n], newIds[n], versionFor, timeout);
      RetryRun(one.mem, r.script + one.script)
  }

  function RetryScript(q: Queue, ids: seq<JobId>, newIds: seq<JobId>, versionFor: string -> string, timeout: int)
    : seq<Micro>
    requires |ids| == |newIds|
  {
    var r := RetryAll(q, ids, newIds, versionFor, timeout);
    if r.script == [] then [] else r.script + [Persist]
  }

  // ---- all operations ----

  ghost predicate Distinct(ids: seq<JobId>) { forall i, j | 0 <= i < j < |ids| :: ids[i] != ids[j] }

  function FreshIds(op: Op): set<JobId> {
    match op
    case Enqueue(_, id) => {id}
    case Retry(_, newIds, _, _) => set id | id in newIds
    case _ => {}
  }

  /** uuid4 never repeats: the ids an operation brings are new and distinct. */
  ghost predicate BringsNewIds(op: Op, issued: set<JobId>) {
    && FreshIds(op) !! issued
    && (op.Retry? ==> |op.ids| == |op.newIds| && Distinct(op.newIds))
  }

  function Script(q: Queue, op: Op): seq<Micro>
    requires op.Retry? ==> |op.ids| == |op.newIds|
  {
    match op
    case Enqueue(req, id) => EnqueueScript(q, req, id)
    case Claim(client, now, defer, eligible) => ClaimScript(q, client, now, defer, eligible)
    case Submit(id, success, ota, needs, now) => SubmitScript(q, id, success, ota, needs, now)
    case Sweep(check) => SweepScript(q, check)
    case Cancel(ids, now) => CancelScript(q, ids, now)
    case CheckTimeouts(now, online) => TimeoutScript(q, now, online)
    case Release(id) => ReleaseScript(q, id)
    case Retry(ids, newIds, versionFor, timeout) => RetryScript(q, ids, newIds, versionFor, timeout)
    case PatchOta(id, ota) => PatchScript(q, id, ota)
    case Discard(pick) => DiscardScript(q, pick)
    case MarkStored(id, force) => MarkScript(q, id, force)
  }

  /** load: what a restart makes of queue.json, and the history writes it performs. */
  function Recovered(disk: Queue): Queue {
    seq(|disk|, i requires 0 <= i < |disk| => RecoverOne(disk[i]))
  }

  function RecoveryScript(disk: Queue): seq<Micro> {
    Records(StrandedJobs(disk))
  }

  function StrandedJobs(disk: Queue): Queue {
    var stranded := Filter(disk, (j: Job) => Stranded(j));
    seq(|stranded|, i requires 0 <= i < |stranded| => RecoverOne(stranded[i]))
  }
}
