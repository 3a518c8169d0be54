/** The queue's records as values: what to_dict writes, what a history row keeps,
    and the changes one operation makes to one job (job_queue.py). */
module Jobs {
  import opened Common
  import opened Routing

  const MAX_RETRIES := 3

  /** A uuid4, as its 128-bit number. */
  type JobId = nat

  datatype JobState = PENDING | WORKING | SUCCESS | FAILED | TIMED_OUT | CANCELLED | BLOCKED

  /** A per-job worker filter; an operator outside the three known ones constrains nothing. */
  datatype TagFilter = TagFilter(op: string, tags: seq<string>)

  datatype Job = Job(
    id: JobId,
    target: string,
    version: string,
    state: JobState,
    assignedTo: Option<string>,
    assignedAt: Option<int>,
    timeout: int,
    finishedAt: Option<int>,
    retries: nat,
    ota: Option<string>,
    otaOnly: bool,
    validateOnly: bool,
    serverOta: bool,
    pinned: Option<string>,
    followup: bool,
    blockedReason: Option<Reason>,
    tagFilter: Option<TagFilter>,
    bypass: bool)

  datatype Request = Request(
    target: string,
    version: string,
    timeout: int,
    validateOnly: bool,
    serverOta: bool,
    pinned: Option<string>,
    tagFilter: Option<TagFilter>,
    bypass: bool)

  /** The columns of a history row that a later upsert overwrites and a property needs. */
  datatype Row = Row(state: JobState, finishedAt: Option<int>, ota: Option<string>)

  type History = map<JobId, Row>

  predicate TerminalState(s: JobState) {
    s == SUCCESS || s == FAILED || s == TIMED_OUT || s == CANCELLED
  }

  predicate Terminal(j: Job) { TerminalState(j.state) }

  predicate Waiting(j: Job) { j.state == PENDING || j.state == BLOCKED }

  /** Neither a flash of firmware that is there already nor a check of the configuration. */
  predicate Compiles(j: Job) { !j.otaOnly && !j.validateOnly }

  predicate LiveFollowup(j: Job) { Waiting(j) && j.followup }

  /** An unset pin and an empty pin are the same to the source. */
  predicate IsPinned(j: Job) { j.pinned.Some? && j.pinned.value != "" }

  predicate PinnedElsewhere(j: Job, client: string) { IsPinned(j) && j.pinned.value != client }

  function RowOf(j: Job): Row { Row(j.state, j.finishedAt, j.ota) }

  /** JobHistoryDAO.record_terminal: a no-op for a job that is not terminal. */
  function Upsert(h: History, j: Job): History {
    if Terminal(j) then h[j.id := RowOf(j)] else h
  }

  function NewJob(id: JobId, r: Request, followup: bool): Job {
    Job(id, r.target, r.version, PENDING, None, None, r.timeout, None, 0, None, false, r.validateOnly,
        r.serverOta, r.pinned, followup, None, r.tagFilter, r.bypass)
  }

  function Redirect(j: Job, r: Request): Job {
    j.(version := r.version, pinned := r.pinned, serverOta := r.serverOta, timeout := r.timeout,
       tagFilter := r.tagFilter, bypass := r.bypass)
  }

  function Assign(j: Job, client: string, now: int): Job {
    j.(state := WORKING, followup := false, assignedTo := Some(client), assignedAt := Some(now))
  }

  function Finish(j: Job, success: bool, ota: Option<string>, needsServerOta: bool, now: int): Job {
    j.(state := if success then SUCCESS else FAILED,
       ota := if ota.Some? then ota else j.ota,
       serverOta := j.serverOta || (needsServerOta && success),
       finishedAt := Some(now))
  }

  function CancelOne(j: Job, now: int): Job {
    j.(state := CANCELLED, finishedAt := Some(now))
  }

  /** One job under a routing sweep. */
  function SweepOne(j: Job, v: Verdict): Job {
    if !Waiting(j) then j
    else match v
      case Eligible => j.(state := PENDING, blockedReason := None)
      case Blocked(reason) => j.(state := BLOCKED, blockedReason := Some(reason))
  }

  /** The worker is known to be offline: a liveness check was supplied and failed. */
  predicate Abandoned(j: Job, online: Option<string -> bool>) {
    online.Some? && j.assignedTo.Some? && !online.value(j.assignedTo.value)
  }

  predicate Expired(j: Job, now: int, online: Option<string -> bool>) {
    && j.state == WORKING
    && j.assignedAt.Some?
    && (now - j.assignedAt.value >= j.timeout || Abandoned(j, online))
  }

  /** One expired job under the timeout check: fail at the cap, otherwise requeue. */
  function ExpireOne(j: Job, now: int): Job {
    if j.retries + 1 >= MAX_RETRIES then
      j.(retries := j.retries + 1, state := FAILED, finishedAt := Some(now))
    else Requeue(j)
  }

  function Requeue(j: Job): Job {
    j.(retries := j.retries + 1, state := PENDING, assignedTo := None, assignedAt := None)
  }

  /** The job that replaces a finished one on retry. */
  function RetryJob(prior: Job, id: JobId, version: string, timeout: int): Job {
    var otaFailed := prior.state == SUCCESS && prior.ota == Some("failed");
    Job(id, prior.target, version, PENDING, None, None, timeout, None, 0, None, otaFailed, false,
        prior.serverOta, if otaFailed then prior.assignedTo else prior.pinned, false, None, None, false)
  }

  /** A server-side OTA push that was in flight when the process died. */
  predicate Stranded(j: Job) { j.state == SUCCESS && j.serverOta && j.ota == None }

  /** One entry of queue.json under restart recovery. */
  function RecoverOne(j: Job): Job {
    if j.state == WORKING then j.(state := PENDING, assignedTo := None, assignedAt := None)
    else if Stranded(j) then j.(ota := Some("failed"))
    else j
  }
}
