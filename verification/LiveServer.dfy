/** The server process around its queue: every call is a whole operation of the machine in
    QueueMachine, every restart a crash of it, so what holds of all runs holds of the queue. */
module LiveServer {
  import opened Common
  import opened Routing
  import opened Jobs
  import opened QueueOps
  import opened QueueInvariants
  import opened QueueMachine
  import opened QueueTheorems
  import opened QueueVerdicts
  import opened QueueStores
  import opened QueueEffects
  import opened QueueArrivals
  import opened LiveQueue
  import opened Eligibility
  import opened Scheduler

  function StoreOf(c: Core): Store { Store(c.mem, c.disk, c.hist) }

  /** A run of the machine, without lost writes, that is at rest with these stores. */
  ghost predicate Reaches(es: seq<Event>, st: Store) {
    WritesSucceed(es) && Run(es).todo == [] && StoreOf(Run(es).core) == st
  }

  /** Every row is still there and says the same. */
  predicate KeepsStates(before: History, after: History) {
    forall id | id in before :: id in after && after[id].state == before[id].state
  }

  lemma RowsStay(es: seq<Event>, more: seq<Event>)
    requires WritesSucceed(es) && WritesSucceed(more)
    ensures KeepsStates(Run(es).core.hist, Run(es + more).core.hist)
  {
    hide Run;
    forall id | id in Run(es).core.hist ensures RowStands(Run(es + more).core, id, Run(es).core.hist[id].state) {
      VerdictIsFinal(es, more, id);
    }
  }

  /** An operation that performs its script is the machine's operation. */
  lemma OperationIsRun(es: seq<Event>, op: Op, before: Store)
    requires Reaches(es, before) && BringsNewIds(op, Run(es).core.issued)
    ensures var after := Replay(before, Script(before.mem, op));
      Reaches(es + Whole(before.mem, op), after) && KeepsStates(before.hist, after.hist)
  {
    var s := Run(es);
    hide Script, Play, Replay, Next, KeepsStates;
    WholeRun(s, op);
    RunSplit(Sys(EMPTY, []), es, Whole(before.mem, op));
    PlayIsReplay(Begin(s.core, op), Script(before.mem, op));
    RowsStay(es, Whole(before.mem, op));
  }

  /** Loading is the machine's restart, wherever the crash hit it. */
  function Reload(disk: Queue): seq<Event> { [Crash] + Steps(|RecoveryScript(disk)|) }

  lemma LoadIsRun(es: seq<Event>)
    requires WritesSucceed(es)
    ensures var c := Run(es).core;
      var after := Replay(Store(Recovered(c.disk), c.disk, c.hist), RecoveryScript(c.disk));
      Reaches(es + Reload(c.disk), after) && KeepsStates(c.hist, after.hist)
  {
    var s := Run(es);
    var loading := Sys(Restart(s.core, s.todo == []), RecoveryScript(s.core.disk));
    hide Play, Replay, RecoveryScript, Recovered, KeepsStates;
    var n := |loading.todo|;
    RunSplit(Sys(EMPTY, []), es, Reload(s.core.disk));
    RunSplit(s, [Crash], Steps(n));
    assert [Crash][..0] == [];
    assert RunFrom(s, [Crash]) == loading;
    RunsToEnd(loading);
    PlayIsReplay(loading.core, loading.todo);
    RowsStay(es, Reload(s.core.disk));
  }

  // ---- a worker's poll ----

  function FailOp(id: JobId, now: int): Op { Op.Submit(id, false, None, false, now) }

  /** The events of giving back the claimed job at position k, whose bundle was not made. */
  function GiveBackRun(q: Queue, k: nat, b: Bundle, now: int): seq<Event>
    requires k < |q|
  {
    var id := q[k].id;
    if b != ServerInstalling then Whole(q, FailOp(id, now))
    else if q[k].retries + 1 < MAX_RETRIES then Whole(q, Op.Release(id))
    else Whole(q, Op.Release(id)) + Whole(q[k := q[k].(retries := q[k].retries + 1)], FailOp(id, now))
  }

  function ClaimOp(s: Scene, q: Queue, id: string): Op { Op.Claim(id, s.now, Defers(s, q, id), Judge(s, id)) }

  /** The events of one poll: nothing at the gate; otherwise a claim, and what becomes of
      the claimed job if its bundle is not made. */
  function PollRun(s: Scene, q: Queue, id: string, b: Bundle): seq<Event> {
    var i := Pick(s, q, id);
    if Gated(s, id) then []
    else if i == |q| || b == Built then Whole(q, ClaimOp(s, q, id))
    else Whole(q, ClaimOp(s, q, id)) + GiveBackRun(q[i := Jobs.Assign(q[i], id, s.now)], i, b, s.now)
  }

  /** The registry knows the worker, and its operator or its disk says no. */
  predicate TurnedAway(s: Scene, id: string) {
    exists w | w in s.workers :: w.id == id && (w.disabled || w.diskBlocked)
  }

  /** Other workers go ahead of this one and have room for all it could take. */
  ghost predicate Yields(s: Scene, q: Queue, id: string) {
    exists w | w in s.workers :: w.id == id && Covered(s, q, w)
  }

  /** The rules let the worker have the job; one that nobody knows has no tags. */
  function Allowed(s: Scene, id: string): Job -> bool {
    (j: Job) => if exists w | w in s.workers :: w.id == id
                then exists w | w in s.workers :: w.id == id && Accepts(s.fleet, w.tags, j)
                else Accepts(s.fleet, {}, j)
  }

  /** A claimed job whose bundle was not made: it waits again while the server installs, as
      long as it has a try left, and has failed otherwise. */
  ghost predicate GivenBack(s: Store, t: Store, k: nat, b: Bundle, now: int)
    requires k < |s.mem|
  {
    var j := if b == ServerInstalling then s.mem[k].(retries := s.mem[k].retries + 1) else s.mem[k];
    if b == ServerInstalling && j.retries < MAX_RETRIES then
      var w := j.(state := PENDING, assignedTo := None, assignedAt := None);
      t == Store(s.mem[k := w], s.mem[k := w], s.hist)
    else
      var f := j.(state := FAILED, finishedAt := Some(now));
      && t.mem == s.mem[k := f] && t.disk == t.mem
      && HasRow(t.hist, f) && forall x | x != f.id :: SameRow(s.hist, t.hist, x)
  }

  /** One poll: nothing for a worker that is turned away; otherwise the first job it may
      claim, taking care of deferral, is its own, or given back if its bundle is not made. */
  ghost predicate Polled(s: Store, t: Store, sc: Scene, id: string, b: Bundle, i: nat) {
    && i <= |s.mem|
    && (TurnedAway(sc, id) ==> i == |s.mem|)
    && (!TurnedAway(sc, id) ==>
          forall k | 0 <= k < i :: !MayClaim(s.mem, s.mem[k], id, Yields(sc, s.mem, id), Allowed(sc, id)))
    && (i == |s.mem| ==> t == s)
    && (i < |s.mem| ==>
          && MayClaim(s.mem, s.mem[i], id, Yields(sc, s.mem, id), Allowed(sc, id))
          && var j :=
            s.mem[i].(state := WORKING, followup := false, assignedTo := Some(id), assignedAt := Some(sc.now));
             var own := Store(s.mem[i := j], s.mem[i := j], s.hist);
             if b == Built then t == own else GivenBack(own, t, i, b, sc.now))
  }

  lemma WorkerById(s: Scene, id: string)
    requires Registry(s.workers)
    ensures var k := WorkerIndex(s, id);
      if k < |s.workers| then
        s.workers[k] in s.workers && forall w | w in s.workers :: w.id == id <==> w == s.workers[k]
      else forall w | w in s.workers :: w.id != id
  {
    var k := WorkerIndex(s, id);
    forall w | w in s.workers && w.id == id ensures k < |s.workers| && w == s.workers[k] {
      var m :| 0 <= m < |s.workers| && s.workers[m] == w;
    }
  }

  lemma PollTerms(s: Scene, q: Queue, id: string)
    requires Registry(s.workers)
    ensures Gated(s, id) == TurnedAway(s, id) && Defers(s, q, id) == Yields(s, q, id)
    ensures forall j :: Judge(s, id)(j) == Allowed(s, id)(j)
  {
    WorkerById(s, id);
    hide Registry, WorkerIndex, Accepts, Covered, ShouldDefer;
    var k := WorkerIndex(s, id);
    if k < |s.workers| {
      DefersIff(s, q, s.workers[k]);
    }
  }

  lemma PollRefused(s: Store, sc: Scene, id: string, b: Bundle)
    requires Gated(sc, id)
    ensures Registry(sc.workers) ==> Polled(s, s, sc, id, b, |s.mem|)
  {
    if Registry(sc.workers) {
      PollTerms(sc, s.mem, id);
    }
  }

  lemma SameClaims(s: Store, sc: Scene, id: string)
    requires Registry(sc.workers)
    ensures forall k | 0 <= k < |s.mem| ::
      MayClaim(s.mem, s.mem[k], id, Defers(sc, s.mem, id), Judge(sc, id))
        == MayClaim(s.mem, s.mem[k], id, Yields(sc, s.mem, id), Allowed(sc, id))
  {
    PollTerms(sc, s.mem, id);
    hide Registry, Defers, Judge, Yields, Allowed;
  }

  /** The claim of a poll, in its own terms. */
  lemma PollClaims(s: Store, t: Store, sc: Scene, id: string, i: nat)
    requires !Gated(sc, id) && Claimed(s, t, id, sc.now, Defers(sc, s.mem, id), Judge(sc, id), i)
    ensures Registry(sc.workers) ==> Polled(s, t, sc, id, Built, i)
    ensures Registry(sc.workers) && i == |s.mem| ==> forall b :: Polled(s, t, sc, id, b, i)
  {
    if Registry(sc.workers) {
      PollTerms(sc, s.mem, id);
      SameClaims(s, sc, id);
      hide Registry, Gated, Defers, Judge, Yields, TurnedAway, Allowed, GivenBack, MayClaim;
    }
  }

  lemma PollGivesBack(s: Store, own: Store, t: Store, sc: Scene, id: string, b: Bundle, i: nat)
    requires !Gated(sc, id) && Claimed(s, own, id, sc.now, Defers(sc, s.mem, id), Judge(sc, id), i) && i < |s.mem|
    requires b != Built && i < |own.mem| && GivenBack(own, t, i, b, sc.now)
    ensures Registry(sc.workers) ==> Polled(s, t, sc, id, b, i)
  {
    if Registry(sc.workers) {
      PollTerms(sc, s.mem, id);
      SameClaims(s, sc, id);
      hide Registry, Gated, Defers, Judge, Yields, TurnedAway, Allowed, GivenBack, MayClaim;
    }
  }

  lemma KeptTwice(a: History, b: History, c: History)
    requires KeepsStates(a, b) && KeepsStates(b, c)
    ensures KeepsStates(a, c)
  {}

  lemma IndexIs(q: Queue, k: nat)
    requires Pairwise(q, DistinctPair) && k < |q|
    ensures IndexOf(q, q[k].id) == k
  {
    forall m | 0 <= m < k ensures q[m].id != q[k].id {
      assert DistinctPair(q[m], q[k]);
    }
  }

  lemma DiskIsWellFormed(es: seq<Event>)
    requires WritesSucceed(es)
    ensures Pairwise(Run(es).core.disk, DistinctPair)
  {
    RunInv(es);
  }

  class Server {
    var queue: JobQueue
    ghost var events: seq<Event> // the machine's events, from an empty server on

    ghost function Stores(): Store
      reads this, queue, queue.jobs
    {
      queue.Stores()
    }

    /** The queue, queue.json and history are where a run of the machine got to. */
    ghost predicate Valid()
      reads this, queue, queue.jobs
    {
      queue.Valid() && Reaches(events, Stores())
    }

    /** Starts on what a run left on disk, wherever it was cut off. */
    constructor (stored: Queue, rows: History, ghost es: seq<Event>)
      requires WritesSucceed(es) && Run(es).core.disk == stored && Run(es).core.hist == rows
      ensures Valid() && fresh(queue) && fresh(queue.jobs)
      ensures events == es + Reload(stored) && KeepsStates(rows, queue.history)
      ensures Reloaded(stored, rows, Stores())
    {
      events := es + Reload(stored);
      queue := new JobQueue(stored, rows);
      new;
      DiskIsWellFormed(es);
      hide Run, Reload, Replay, Recovered, RecoveryScript, KeepsStates, Reloaded, Pairwise, WritesSucceed;
      hide JobQueue.Valid, JobQueue.Views;
      LoadIsRun(es);
      queue.AtRest();
    }

    /** The process ends between operations and starts again. */
    method Restart()
      requires Valid()
      modifies this
      ensures Valid() && fresh(queue) && fresh(queue.jobs)
      ensures events == old(events) + Reload(old(queue.disk)) && KeepsStates(old(queue.history), queue.history)
      ensures Reloaded(old(queue.disk), old(queue.history), Stores())
    {
      DiskIsWellFormed(events);
      hide Run, Reload, Replay, Recovered, RecoveryScript, KeepsStates, Reloaded, Pairwise, WritesSucceed;
      hide JobQueue.Valid, JobQueue.Views;
      LoadIsRun(events);
      events := events + Reload(queue.disk);
      queue := new JobQueue(queue.disk, queue.history);
      queue.AtRest();
    }

    /** What the theorems about runs say of the queue in use: its jobs are coherent, in
        memory and on disk; no history row contradicts one; each was handed out a bounded
        number of times and had at most one result accepted; and unless a crash hit an
        operation, every finished job has its row. */
    lemma WhatRunsGuarantee()
      requires Valid()
      ensures WellFormed(queue.Views()) && WellFormed(queue.disk)
      ensures forall j | (j in queue.Views() || j in queue.disk) && j.id in queue.history ::
        Terminal(j) && queue.history[j.id].state == j.state && queue.history[j.id].finishedAt == j.finishedAt
      ensures forall id :: Count(Run(events).core.claims, id) <= MAX_RETRIES + Run(events).core.restarts
      ensures forall id :: Count(Run(events).core.acks, id) <= 1
      ensures Run(events).core.clean ==>
        forall j | j in queue.Views() && Terminal(j) :: j.id in queue.history && queue.history[j.id] == RowOf(j)
    {
      HistoryMatchesDisk(events);
      JobsAreCoherent(events);
      NothingLost(events);
      if Run(events).core.clean {
        HistoryAgreesWithQueue(events);
      }
      hide Run, WellFormed, CleanCrashes;
      forall id ensures Count(Run(events).core.claims, id) <= MAX_RETRIES + Run(events).core.restarts
        && Count(Run(events).core.acks, id) <= 1
      {
        BoundedExecution(events, id);
        OneResultPerJob(events, id);
      }
    }

    lemma AtRest()
      requires Valid()
      ensures Replay(queue.origin, queue.trail) == Stores()
      ensures WellFormed(queue.Views()) && Ids(queue.Views()) <= Run(events).core.issued
    {
      hide Replay;
      queue.AtRest();
      RunInv(events);
    }

    /** Closes an operation: the machine has performed it as a whole. */
    ghost method Note(op: Op, before: Store, start: seq<Micro>)
      requires queue.Valid() && Reaches(events, before) && BringsNewIds(op, Run(events).core.issued)
      requires Replay(queue.origin, start) == before && queue.trail == start + Script(before.mem, op)
      modifies this`events
      ensures Valid() && events == old(events) + Whole(before.mem, op)
      ensures KeepsStates(before.hist, queue.history)
    {
      hide Replay, Script, Whole, Run, KeepsStates, Reaches;
      ReplaySplit(queue.origin, start, Script(before.mem, op));
      OperationIsRun(events, op, before);
      events := events + Whole(before.mem, op);
    }

    /** A uuid that was never drawn before. */
    method Enqueue(req: Request, id: JobId) returns (job: LiveJob?)
      requires Valid()
      requires BringsNewIds(Op.Enqueue(req, id), Run(events).core.issued)
      modifies this`events, queue, queue.jobs
      ensures Valid() && events == old(events) + Whole(old(queue.Views()), Op.Enqueue(req, id))
      ensures KeepsStates(old(queue.history), queue.history)
      ensures Enqueued(old(Stores()), Stores(), req, id) && (job == null <==> FoldedIn(old(queue.Views()), req))
      ensures (job != null
               && (req.validateOnly || forall j | j in old(queue.Views()) :: !QueuedFollowup(j, req.target))) ==>
        queue.jobs != [] && job == queue.jobs[|queue.jobs| - 1] && AskedFor(job.View(), req, id)
      ensures !req.validateOnly && (exists j | j in old(queue.Views()) :: QueuedFollowup(j, req.target)) ==>
        exists f | 0 <= f < |old(queue.Views())| == |queue.jobs| ::
          QueuedFollowup(old(queue.Views())[f], req.target) && job == queue.jobs[f]
      ensures forall j | j in old(queue.Views()) && j.state == PENDING
                && (req.validateOnly || !QueuedFollowup(j, req.target)) :: j in queue.Views()
    {
      hide Run, Reaches, Replay, KeepsStates, Whole, Pairwise, Coherent;
      hide EnqueueScript, JobQueue.Valid, JobQueue.Views, Enqueued, FoldedIn, AskedFor;
      AtRest();
      ghost var before, start := Stores(), queue.trail;
      job := queue.Enqueue(req, id);
      Note(Op.Enqueue(req, id), before, start);
      WaitingStay(before, Stores(), req, id);
      if job != null && (req.validateOnly || forall j | j in before.mem :: !QueuedFollowup(j, req.target)) {
        NewOneIsLast(before, Stores(), req, id);
        queue.ViewAt(|queue.jobs| - 1);
      }
    }

    method Claim(client: string, now: int, defer: bool, eligible: Job -> bool) returns (claimed: LiveJob?)
      requires Valid()
      modifies this`events, queue`disk, queue`trail, queue.jobs
      ensures Valid() && events == old(events) + Whole(old(queue.Views()), Op.Claim(client, now, defer, eligible))
      ensures KeepsStates(old(queue.history), queue.history)
      ensures Claimed(old(Stores()), Stores(), client, now, defer, eligible,
                      ClaimIndex(old(queue.Views()), client, defer, eligible))
      ensures var q := old(queue.Views());
        var i := ClaimIndex(q, client, defer, eligible);
        if i < |queue.jobs| then claimed == queue.jobs[i] && queue.Views() == q[i := Jobs.Assign(q[i], client, now)]
        else claimed == null && queue.Views() == q
    {
      hide Run, Reaches, Replay, KeepsStates, Whole, Pairwise, Coherent;
      hide ClaimScript, JobQueue.Valid, JobQueue.Views, Claimed;
      AtRest();
      ghost var before, start := Stores(), queue.trail;
      claimed := queue.ClaimNext(client, now, defer, eligible);
      Note(Op.Claim(client, now, defer, eligible), before, start);
    }

    method Submit(id: JobId, success: bool, ota: Option<string>, needs: bool, now: int) returns (ok: bool)
      requires Valid()
      modifies this`events, queue`disk, queue`history, queue`trail, queue.jobs
      ensures Valid() && events == old(events) + Whole(old(queue.Views()), Op.Submit(id, success, ota, needs, now))
      ensures KeepsStates(old(queue.history), queue.history)
      ensures Submitted(old(Stores()), Stores(), id, success, ota, needs, now, ok)
      ensures var q := old(queue.Views());
        var i := IndexOf(q, id);
        && (ok <==> i < |queue.jobs| && (q[i].state == WORKING || TakesOtaPatch(q[i], ota)))
        && queue.Views() == if !ok then q
                            else q[i := if q[i].state == WORKING then Jobs.Finish(q[i], success, ota, needs, now)
                                        else q[i].(ota := ota)]
    {
      hide Run, Reaches, Replay, KeepsStates, Whole, Pairwise, Coherent;
      hide SubmitScript, JobQueue.Valid, JobQueue.Views, Submitted;
      AtRest();
      ghost var before, start := Stores(), queue.trail;
      ok := queue.SubmitResult(id, success, ota, needs, now);
      Note(Op.Submit(id, success, ota, needs, now), before, start);
    }

    method Sweep(check: Job -> Verdict) returns (changed: nat)
      requires Valid()
      modifies this`events, queue, queue.jobs
      ensures Valid() && events == old(events) + Whole(old(queue.Views()), Op.Sweep(check))
      ensures KeepsStates(old(queue.history), queue.history)
      ensures Swept(old(Stores()), Stores(), check) && changed == Moved(old(queue.Views()), queue.Views())
    {
      hide Run, Reaches, Replay, KeepsStates, Whole, Pairwise, Coherent;
      hide SweepScript, JobQueue.Valid, JobQueue.Views, Swept;
      AtRest();
      ghost var before, start := Stores(), queue.trail;
      changed := queue.ReEvaluateRouting(check);
      Note(Op.Sweep(check), before, start);
    }

    method Cancel(ids: seq<JobId>, now: int) returns (cancelled: nat)
      requires Valid()
      modifies this`events, queue, queue.jobs
      ensures Valid() && events == old(events) + Whole(old(queue.Views()), Op.Cancel(ids, now))
      ensures KeepsStates(old(queue.history), queue.history)
      ensures Cancelled(old(Stores()), Stores(), ids, now)
      ensures cancelled == |Positions(old(queue.Views()), (j: Job) => Stops(j, ids))|
    {
      hide Run, Reaches, Replay, KeepsStates, Whole, Pairwise, Coherent;
      hide CancelScript, JobQueue.Valid, JobQueue.Views, Cancelled;
      AtRest();
      ghost var before, start := Stores(), queue.trail;
      cancelled := queue.Cancel(ids, now);
      Note(Op.Cancel(ids, now), before, start);
    }

    method CheckTimeouts(now: int, online: Option<string -> bool>) returns (affected: seq<LiveJob>)
      requires Valid()
      modifies this`events, queue, queue.jobs
      ensures Valid() && events == old(events) + Whole(old(queue.Views()), Op.CheckTimeouts(now, online))
      ensures KeepsStates(old(queue.history), queue.history)
      ensures TimedOut(old(Stores()), Stores(), now, online)
      ensures forall j | j in affected :: j in queue.jobs
      ensures forall k | 0 <= k < |queue.jobs| ::
        queue.jobs[k] in affected <==> RanOut(old(queue.Views())[k], now, online)
    {
      hide Run, Reaches, Replay, KeepsStates, Whole, Pairwise, Coherent;
      hide TimeoutScript, JobQueue.Valid, JobQueue.Views, TimedOut, RanOut;
      AtRest();
      ghost var before, start := Stores(), queue.trail;
      affected := queue.CheckTimeouts(now, online);
      Note(Op.CheckTimeouts(now, online), before, start);
    }

    method Release(id: JobId) returns (released: bool)
      requires Valid()
      modifies this`events, queue`disk, queue`history, queue`trail, queue.jobs
      ensures Valid() && events == old(events) + Whole(old(queue.Views()), Op.Release(id))
      ensures KeepsStates(old(queue.history), queue.history)
      ensures Released(old(Stores()), Stores(), id, released)
      ensures var q := old(queue.Views());
        var i := IndexOf(q, id);
        && (released <==> i < |queue.jobs| && q[i].state == WORKING && q[i].retries + 1 < MAX_RETRIES)
        && queue.Views() == if i == |queue.jobs| || q[i].state != WORKING then q
                            else q[i := if released then Jobs.Requeue(q[i]) else q[i].(retries := q[i].retries + 1)]
    {
      hide Run, Reaches, Replay, KeepsStates, Whole, Pairwise, Coherent;
      hide ReleaseScript, JobQueue.Valid, JobQueue.Views, Released;
      AtRest();
      ghost var before, start := Stores(), queue.trail;
      released := queue.ReleaseForRetry(id);
      Note(Op.Release(id), before, start);
    }

    method Retry(ids: seq<JobId>, newIds: seq<JobId>, versionFor: string -> string, timeout: int)
      returns (made: seq<LiveJob>)
      requires Valid()
      requires BringsNewIds(Op.Retry(ids, newIds, versionFor, timeout), Run(events).core.issued)
      modifies this`events, queue, queue.jobs
      ensures Valid()
      ensures events == old(events) + Whole(old(queue.Views()), Op.Retry(ids, newIds, versionFor, timeout))
      ensures KeepsStates(old(queue.history), queue.history)
      ensures Retried(old(Stores()), Stores(), ids, newIds, versionFor, timeout, ViewsOf(made))
    {
      hide Run, Reaches, Replay, KeepsStates, Whole, Pairwise, Coherent;
      hide RetryScript, JobQueue.Valid, JobQueue.Views, Retried;
      AtRest();
      ghost var before, start := Stores(), queue.trail;
      made := queue.Retry(ids, newIds, versionFor, timeout);
      Note(Op.Retry(ids, newIds, versionFor, timeout), before, start);
    }

    method PatchOta(id: JobId, result: string)
      requires Valid()
      modifies this`events, queue, queue.jobs
      ensures Valid() && events == old(events) + Whole(old(queue.Views()), Op.PatchOta(id, result))
      ensures KeepsStates(old(queue.history), queue.history)
      ensures Patched(old(Stores()), Stores(), id, result)
    {
      hide Run, Reaches, Replay, KeepsStates, Whole, Pairwise, Coherent;
      hide PatchScript, JobQueue.Valid, JobQueue.Views, Patched;
      AtRest();
      ghost var before, start := Stores(), queue.trail;
      queue.PatchOtaResult(id, result);
      Note(Op.PatchOta(id, result), before, start);
    }

    method Discard(pick: Job -> bool) returns (removed: nat)
      requires Valid()
      modifies this`events, queue, queue.jobs
      ensures Valid() && events == old(events) + Whole(old(queue.Views()), Op.Discard(pick))
      ensures KeepsStates(old(queue.history), queue.history)
      ensures Dropped(old(Stores()), Stores(), pick) && removed == |old(queue.Views())| - |queue.Views()|
    {
      hide Run, Reaches, Replay, KeepsStates, Whole, Pairwise, Coherent;
      hide DiscardScript, JobQueue.Valid, JobQueue.Views, Dropped;
      AtRest();
      ghost var before, start := Stores(), queue.trail;
      removed := queue.Discard(pick);
      Note(Op.Discard(pick), before, start);
    }

    method MarkStored(id: JobId, force: bool) returns (ok: bool)
      requires Valid()
      modifies this`events, queue, queue.jobs
      ensures Valid() && events == old(events) + Whole(old(queue.Views()), Op.MarkStored(id, force))
      ensures KeepsStates(old(queue.history), queue.history)
      ensures Marked(old(Stores()), Stores(), id, force, ok)
    {
      hide Run, Reaches, Replay, KeepsStates, Whole, Pairwise, Coherent;
      hide MarkScript, JobQueue.Valid, JobQueue.Views, Marked;
      AtRest();
      ghost var before, start := Stores(), queue.trail;
      ok := queue.MarkStored(id, force);
      Note(Op.MarkStored(id, force), before, start);
    }

    method FailAt(ghost k: nat, id: JobId, now: int)
      requires Valid() && k < |queue.jobs|
      requires queue.Views()[k].id == id && queue.Views()[k].state == WORKING
      modifies this`events, queue`disk, queue`history, queue`trail, queue.jobs
      ensures Valid() && events == old(events) + Whole(old(queue.Views()), FailOp(id, now))
      ensures queue.Views()
        == old(queue.Views())[k := Jobs.Finish(old(queue.Views())[k], false, None, false, now)]
      ensures KeepsStates(old(queue.history), queue.history)
      ensures FailedAt(old(Stores()), Stores(), k, now)
    {
      hide Valid, KeepsStates, Whole, JobQueue.Valid, JobQueue.Views, Pairwise, Finish, Submitted, FailedAt;
      AtRest();
      ghost var before := Stores();
      IndexIs(queue.Views(), k);
      var ok := Submit(id, false, None, false, now);
      FailureAt(before, Stores(), k, now);
    }

    method PutBack(ghost k: nat, id: JobId) returns (released: bool)
      requires Valid() && k < |queue.jobs|
      requires queue.Views()[k].id == id && queue.Views()[k].state == WORKING
      modifies this`events, queue`disk, queue`history, queue`trail, queue.jobs
      ensures Valid() && events == old(events) + Whole(old(queue.Views()), Op.Release(id))
      ensures var q := old(queue.Views());
        && released == (q[k].retries + 1 < MAX_RETRIES)
        && queue.Views() == q[k := if released then Jobs.Requeue(q[k]) else q[k].(retries := q[k].retries + 1)]
      ensures KeepsStates(old(queue.history), queue.history)
      ensures PutBackAt(old(Stores()), Stores(), k, released)
    {
      hide Valid, KeepsStates, Whole, JobQueue.Valid, JobQueue.Views, Pairwise, Requeue, Released, PutBackAt;
      AtRest();
      ghost var before := Stores();
      IndexIs(queue.Views(), k);
      released := Release(id);
      ReleaseAt(before, Stores(), k, released);
    }

    /** A bundle could not be made: put the job back if the server is still installing its
        own ESPHome and the job has attempts left, otherwise fail it. */
    method GiveBack(ghost k: nat, id: JobId, b: Bundle, now: int)
      requires Valid() && k < |queue.jobs| && b != Built
      requires queue.Views()[k].id == id && queue.Views()[k].state == WORKING
      modifies this`events, queue`disk, queue`history, queue`trail, queue.jobs
      ensures Valid() && events == old(events) + GiveBackRun(old(queue.Views()), k, b, now)
      ensures queue.Views() == old(queue.Views())[k := HandedOff(old(queue.Views())[k], b, now)]
      ensures KeepsStates(old(queue.history), queue.history)
      ensures GivenBack(old(Stores()), Stores(), k, b, now)
    {
      hide Valid, KeepsStates, Whole, JobQueue.Valid, JobQueue.Views, Finish, Requeue;
      ghost var start, q := events, queue.Views();
      if b == ServerInstalling {
        var released := PutBack(k, id);
        if released {
          return;
        }
        Assoc(start, Whole(q, Op.Release(id)), Whole(queue.Views(), FailOp(id, now)));
      }
      ghost var mid := queue.history;
      FailAt(k, id, now);
      if b == ServerInstalling {
        KeptTwice(old(queue.history), mid, queue.history);
      }
    }

    /** One poll of a worker. */
    method GetNextJob(s: Scene, id: string, b: Bundle) returns (job: LiveJob?)
      requires Valid()
      modifies this`events, queue`disk, queue`history, queue`trail, queue.jobs
      ensures Valid() && events == old(events) + PollRun(s, old(queue.Views()), id, b)
      ensures queue.Views() == Poll(s, old(queue.Views()), id, b)
      ensures job == if b == Built && Pick(s, old(queue.Views()), id) < |queue.jobs|
                     then queue.jobs[Pick(s, old(queue.Views()), id)] else null
      ensures KeepsStates(old(queue.history), queue.history)
      ensures Registry(s.workers) ==> Polled(old(Stores()), Stores(), s, id, b, Pick(s, old(queue.Views()), id))
    {
      hide Valid, Whole, GiveBackRun, JobQueue.Valid, JobQueue.Views;
      hide Gated, Defers, Judge, ClaimIndex, Finish, Requeue, Polled, Claimed, GivenBack, Registry;
      ghost var before, start, q := Stores(), events, queue.Views();
      ghost var i := Pick(s, q, id);
      var gated, defer := Admit(s, queue.Views(), id);
      if gated {
        assert start + [] == start;
        PollRefused(before, s, id, b);
        return null;
      }
      job := Claim(id, s.now, defer, Judge(s, id));
      ghost var own := Stores();
      PollClaims(before, own, s, id, i);
      if job == null || b == Built {
        return;
      }
      ghost var mid := queue.history;
      queue.ViewAt(i);
      Assoc(start, Whole(q, ClaimOp(s, q, id)), GiveBackRun(queue.Views(), i, b, s.now));
      GiveBack(i, job.id, b, s.now);
      PollGivesBack(before, own, Stores(), s, id, b, i);
      KeptTwice(old(queue.history), mid, queue.history);
      job := null;
    }
  }
}
