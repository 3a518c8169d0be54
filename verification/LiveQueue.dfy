/** The queue as the server runs it: job objects updated in place, an ordered table of
    them, queue.json and the history table. Every operation is proved to perform exactly
    the script that QueueOps gives for it, step by step and in that order (job_queue.py). */
module LiveQueue {
  import opened Common
  import opened Routing
  import opened Jobs
  import opened QueueOps
  import opened QueueInvariants
  import opened QueueMachine
  import opened QueueStores
  import opened QueueEffects
  import opened QueueArrivals

  class LiveJob {
    const id: JobId
    const target: string
    const otaOnly: bool
    const validateOnly: bool
    var version: string
    var state: JobState
    var assignedTo: Option<string>
    var assignedAt: Option<int>
    var timeout: int
    var finishedAt: Option<int>
    var retries: nat
    var ota: Option<string>
    var serverOta: bool
    var pinned: Option<string>
    var followup: bool
    var blockedReason: Option<Reason>
    var tagFilter: Option<TagFilter>
    var bypass: bool

    constructor (j: Job)
      ensures View() == j
    {
      id, target, otaOnly, validateOnly := j.id, j.target, j.otaOnly, j.validateOnly;
      version, state, assignedTo, assignedAt := j.version, j.state, j.assignedTo, j.assignedAt;
      timeout, finishedAt, retries, ota := j.timeout, j.finishedAt, j.retries, j.ota;
      serverOta, pinned, followup := j.serverOta, j.pinned, j.followup;
      blockedReason, tagFilter, bypass := j.blockedReason, j.tagFilter, j.bypass;
    }

    /** to_dict */
    function View(): (j: Job)
      reads this
      ensures j.id == id && j.target == target && j.state == state && j.retries == retries
    {
      Job(id, target, version, state, assignedTo, assignedAt, timeout, finishedAt, retries, ota, otaOnly,
          validateOnly, serverOta, pinned, followup, blockedReason, tagFilter, bypass)
    }

    method Assign(client: string, now: int)
      modifies this
      ensures View() == Jobs.Assign(old(View()), client, now)
      ensures View()
        == old(View()).(state := WORKING, followup := false, assignedTo := Some(client), assignedAt := Some(now))
    {
      state := WORKING;
      followup := false;
      assignedTo := Some(client);
      assignedAt := Some(now);
    }

    method Finish(success: bool, result: Option<string>, needsServerOta: bool, now: int)
      modifies this
      ensures View() == Jobs.Finish(old(View()), success, result, needsServerOta, now)
      ensures View() == old(View()).(state := if success then SUCCESS else FAILED,
                                     finishedAt := Some(now),
                                     ota := if result.Some? then result else old(ota),
                                     serverOta := old(serverOta) || (needsServerOta && success))
    {
      state := if success then SUCCESS else FAILED;
      if result.Some? {
        ota := result;
      }
      if needsServerOta && success {
        serverOta := true;
      }
      finishedAt := Some(now);
    }

    method Requeue()
      modifies this
      ensures View() == Jobs.Requeue(old(View()))
      ensures View()
        == old(View()).(retries := old(retries) + 1, state := PENDING, assignedTo := None, assignedAt := None)
    {
      retries := retries + 1;
      state := PENDING;
      assignedTo, assignedAt := None, None;
    }

    /** One job under the timeout check; tells whether it was affected. */
    method Expire(now: int, online: Option<string -> bool>) returns (hit: bool)
      modifies this
      ensures hit == Expired(old(View()), now, online)
      ensures View() == if hit then ExpireOne(old(View()), now) else old(View())
      ensures hit == RanOut(old(View()), now, online)
      ensures View() == if hit then NextTry(old(View()), now) else old(View())
    {
      if state != WORKING || assignedAt.None? {
        return false;
      }
      var timedOut := now - assignedAt.value >= timeout;
      var abandoned := !timedOut && online.Some? && assignedTo.Some? && !online.value(assignedTo.value);
      if !(timedOut || abandoned) {
        return false;
      }
      retries := retries + 1;
      if retries >= MAX_RETRIES {
        state := FAILED;
        finishedAt := Some(now);
      } else {
        state := PENDING;
        assignedTo, assignedAt := None, None;
      }
      return true;
    }

    /** One job under a routing sweep; tells whether its state changed. */
    method Sweep(v: Verdict) returns (changed: bool)
      modifies this
      ensures View() == SweepOne(old(View()), v) == Judged(old(View()), v)
      ensures changed == (state != old(state))
    {
      changed := false;
      if state != PENDING && state != BLOCKED {
        return;
      }
      if v.Eligible? {
        if state == BLOCKED {
          state := PENDING;
          blockedReason := None;
          changed := true;
        } else if blockedReason.Some? {
          blockedReason := None;
        }
      } else {
        if state == PENDING {
          state := BLOCKED;
          blockedReason := Some(v.reason);
          changed := true;
        } else if blockedReason != Some(v.reason) {
          blockedReason := Some(v.reason);
        }
      }
    }

    method Cancel(now: int)
      modifies this
      ensures View() == CancelOne(old(View()), now)
      ensures View() == old(View()).(state := CANCELLED, finishedAt := Some(now))
    {
      state := CANCELLED;
      finishedAt := Some(now);
    }

    /** Restart recovery of one entry; tells whether its history row must follow. */
    method Recover() returns (stranded: bool)
      modifies this
      ensures View() == RecoverOne(old(View())) == Resumed(old(View()))
      ensures stranded == Stranded(old(View())) == CutOff(old(View()))
    {
      stranded := false;
      if state == WORKING {
        state := PENDING;
        assignedTo, assignedAt := None, None;
      } else if state == SUCCESS && serverOta && ota.None? {
        ota := Some("failed");
        stranded := true;
      }
    }

    method SetOta(result: Option<string>)
      modifies this
      ensures View() == old(View()).(ota := result)
    {
      ota := result;
    }

    method Redirect(r: Request)
      modifies this
      ensures View() == Jobs.Redirect(old(View()), r) == Redirected(old(View()), r)
    {
      version, pinned, serverOta, timeout := r.version, r.pinned, r.serverOta, r.timeout;
      tagFilter, bypass := r.tagFilter, r.bypass;
    }
  }

  function ViewsOf(js: seq<LiveJob>): (q: Queue)
    reads js
    ensures |q| == |js|
    ensures forall i | 0 <= i < |js| :: q[i] == js[i].View()
  {
    seq(|js|, i requires 0 <= i < |js| reads js => js[i].View())
  }

  lemma ViewsSnoc(js: seq<LiveJob>, j: LiveJob)
    ensures ViewsOf(js + [j]) == ViewsOf(js) + [j.View()]
  {}

  class JobQueue {
    var jobs: seq<LiveJob>
    var disk: Queue
    var history: History
    ghost const origin: Store
    ghost var trail: seq<Micro>

    function Views(): (q: Queue)
      reads this`jobs, jobs
      ensures |q| == |jobs|
    {
      ViewsOf(jobs)
    }

    lemma ViewAt(i: nat)
      requires i < |jobs|
      ensures Views()[i] == jobs[i].View() && Views()[i].id == jobs[i].id
    {}

    ghost predicate Separate()
      reads this`jobs
    {
      forall i, k | 0 <= i < k < |jobs| :: jobs[i] != jobs[k]
    }

    /** queue.json and history are what the logged steps made of them. */
    ghost predicate Stored()
      reads this`disk, this`history, this`trail
    {
      Replay(origin, trail).disk == disk && Replay(origin, trail).hist == history
    }

    ghost predicate Valid()
      reads this, jobs
    {
      Separate() && Stored() && Replay(origin, trail).mem == Views()
    }

    ghost function Stores(): Store
      reads this, jobs
    {
      Store(Views(), disk, history)
    }

    /** Nothing but the script has happened since the trail was at start. */
    ghost predicate Since(before: Store, start: seq<Micro>, script: seq<Micro>)
      reads this, jobs
    {
      Valid() && Replay(origin, start) == before && trail == start + script
    }

    lemma AtRest()
      requires Valid()
      ensures Replay(origin, trail) == Stores()
    {}

    lemma Performed(before: Store, start: seq<Micro>, script: seq<Micro>)
      requires Since(before, start, script)
      ensures Stores() == Replay(before, script)
    {
      ReplaySplit(origin, start, script);
    }

    /** Declares the in-memory change since the last step as one update. */
    ghost method Commit(claimed: Option<JobId>, discards: bool)
      requires Separate() && Stored()
      modifies this`trail
      ensures Valid() && trail == old(trail) + [Update(Views(), claimed, discards)]
    {
      Logged(origin, trail, Update(Views(), claimed, discards));
      trail := trail + [Update(Views(), claimed, discards)];
    }

    method Persist()
      requires Valid()
      modifies this`disk, this`trail
      ensures Valid() && trail == old(trail) + [Micro.Persist]
    {
      var data: Queue := [];
      for i := 0 to |jobs|
        invariant data == Views()[..i]
      {
        data := data + [jobs[i].View()];
      }
      disk := data;
      Logged(origin, trail, Micro.Persist);
      trail := trail + [Micro.Persist];
    }

    method RecordHistory(j: LiveJob)
      requires Stored()
      modifies this`history, this`trail
      ensures Stored() && Replay(origin, trail).mem == old(Replay(origin, trail).mem)
      ensures trail == old(trail) + [Record(j.View())]
    {
      if TerminalState(j.state) {
        history := history[j.id := RowOf(j.View())];
      }
      Logged(origin, trail, Record(j.View()));
      trail := trail + [Record(j.View())];
    }

    method RecordEach(js: seq<LiveJob>)
      requires Valid()
      modifies this`history, this`trail
      ensures Valid() && trail == old(trail) + Records(ViewsOf(js))
    {
      hide LiveJob.View, Replay, Separate;
      for i := 0 to |js|
        invariant Valid() && trail == old(trail) + Records(ViewsOf(js))[..i]
        invariant jobs == old(jobs)
      {
        RecordHistory(js[i]);
      }
      assert Records(ViewsOf(js))[..|js|] == Records(ViewsOf(js));
    }

    static method Revive(j: Job) returns (job: LiveJob, stranded: bool)
      ensures fresh(job) && job.View() == RecoverOne(j) && stranded == Stranded(j)
    {
      job := new LiveJob(j);
      stranded := job.Recover();
    }

    method LoadOne(j: Job)
      requires Separate() && Stored()
      modifies this`jobs, this`history, this`trail
      ensures Separate() && Stored() && Replay(origin, trail).mem == old(Replay(origin, trail).mem)
      ensures |jobs| == |old(jobs)| + 1 && jobs[..|old(jobs)|] == old(jobs) && fresh(jobs[|old(jobs)|])
      ensures Views() == old(Views()) + [RecoverOne(j)]
      ensures trail == old(trail) + if Stranded(j) then [Record(RecoverOne(j))] else []
    {
      var job, stranded := Revive(j);
      if stranded {
        RecordHistory(job);
      }
      jobs := jobs + [job];
      ViewsSnoc(old(jobs), job);
    }

    /** Load from queue.json after a restart. */
    constructor (stored: Queue, rows: History)
      ensures Valid() && fresh(jobs) && origin == Store(Recovered(stored), stored, rows)
      ensures trail == RecoveryScript(stored)
      ensures Pairwise(stored, DistinctPair) ==> Reloaded(stored, rows, Stores())
    {
      jobs, disk, history := [], stored, rows;
      origin := Store(Recovered(stored), stored, rows);
      trail := [];
      new;
      hide LiveJob.View, Replay, Recovered, RecoveryScript;
      NothingLoaded(stored);
      for i := 0 to |stored|
        invariant fresh(jobs) && Separate()
        invariant Views() == Recovered(stored[..i])
        invariant Stored() && Replay(origin, trail).mem == Recovered(stored)
        invariant trail == RecoveryScript(stored[..i])
      {
        LoadOne(stored[i]);
        StrandedStep(stored, i);
      }
      assert stored[..|stored|] == stored;
      AtRest();
      if Pairwise(stored, DistinctPair) {
        LoadDoes(stored, rows);
      }
    }

    /** self._jobs.get(id), as a position. */
    method Find(id: JobId) returns (i: nat)
      ensures i == IndexOf(Views(), id)
    {
      i := 0;
      while i < |jobs| && jobs[i].id != id
        invariant 0 <= i <= |jobs|
        invariant forall k | 0 <= k < i :: jobs[k].id != id
      {
        i := i + 1;
      }
      ghost var q := Views();
      assert i < |q| ==> q[i].id == id;
    }

    /** The targets that have a WORKING job. */
    method BusyTargets() returns (busy: set<string>)
      ensures forall t :: t in busy <==> WorkingOn(Views(), t)
    {
      ghost var q := Views();
      busy := {};
      for i := 0 to |jobs|
        invariant forall t :: t in busy <==> WorkingOn(q[..i], t)
      {
        if jobs[i].state == WORKING {
          busy := busy + {jobs[i].target};
        }
        assert q[..i + 1] == q[..i] + [q[i]];
      }
      assert q[..|jobs|] == q;
    }

    /** Change the job at i and save the queue. */
    method Take(i: nat, client: string, now: int)
      requires Valid() && i < |jobs|
      modifies this`disk, this`trail, jobs[i]
      ensures Valid() && trail == old(trail)
        + Write(old(Views())[i := Jobs.Assign(old(Views())[i], client, now)], Some(jobs[i].id), [])
      ensures Views() == old(Views())[i := Jobs.Assign(old(Views())[i], client, now)]
    {
      hide LiveJob.View, Stored, Jobs.Assign, Write;
      jobs[i].Assign(client, now);
      assert Views() == old(Views())[i := Jobs.Assign(old(Views())[i], client, now)];
      SaveClaim(jobs[i].id);
    }

    method SaveClaim(id: JobId)
      requires Separate() && Stored()
      modifies this`disk, this`trail
      ensures Valid() && trail == old(trail) + Write(Views(), Some(id), [])
    {
      Commit(Some(id), false);
      Persist();
    }

    method ClaimNext(client: string, now: int, defer: bool, eligible: Job -> bool) returns (claimed: LiveJob?)
      requires Valid()
      modifies this`disk, this`trail, jobs
      ensures Valid()
      ensures trail == old(trail) + ClaimScript(old(Views()), client, now, defer, eligible)
      ensures var i := ClaimIndex(old(Views()), client, defer, eligible);
        if i < |jobs| then claimed == jobs[i] && Views() == old(Views())[i := Jobs.Assign(old(Views())[i], client, now)]
        else claimed == null && Views() == old(Views())
      ensures Claimed(old(Stores()), Stores(), client, now, defer, eligible,
                      ClaimIndex(old(Views()), client, defer, eligible))
    {
      AtRest();
      ghost var before, start := Stores(), trail;
      ghost var q := Views();
      var busy := BusyTargets();
      for i := 0 to |jobs|
        invariant forall k | 0 <= k < i :: !Claimable(q, q[k], client, defer, eligible)
      {
        var job := jobs[i];
        var pinned := job.pinned.Some? && job.pinned.value != "";
        if job.state != PENDING || (pinned && job.pinned.value != client) || (defer && !pinned)
           || (job.followup && job.target in busy) || (!pinned && !eligible(job.View())) {
          assert !Claimable(q, q[i], client, defer, eligible);
          continue;
        }
        assert Claimable(q, q[i], client, defer, eligible);
        assert ClaimIndex(q, client, defer, eligible) == i;
        Take(i, client, now);
        ClaimDone(before, start, client, now, defer, eligible);
        return job;
      }
      claimed := null;
      ClaimDone(before, start, client, now, defer, eligible);
    }

    lemma ClaimDone(before: Store, start: seq<Micro>, client: string, now: int, defer: bool, eligible: Job -> bool)
      requires Since(before, start, ClaimScript(before.mem, client, now, defer, eligible))
      ensures Claimed(before, Stores(), client, now, defer, eligible, ClaimIndex(before.mem, client, defer, eligible))
    {
      hide Since, ClaimScript, Claimed;
      Performed(before, start, ClaimScript(before.mem, client, now, defer, eligible));
      ClaimDoes(before, client, now, defer, eligible);
    }

    /** The tail shared by the operations on one job. */
    method Save(i: nat, record: bool)
      requires i < |jobs| && Separate() && Stored()
      modifies this`disk, this`history, this`trail
      ensures Valid()
      ensures trail == old(trail) + Write(Views(), None, if record then [Views()[i]] else [])
    {
      Commit(None, false);
      Persist();
      if record {
        RecordHistory(jobs[i]);
        assert Records([Views()[i]]) == [Record(Views()[i])];
      }
    }

    method SaveAll()
      requires Separate() && Stored()
      modifies this`disk, this`trail
      ensures Valid() && trail == old(trail) + Write(Views(), None, [])
    {
      Commit(None, false);
      Persist();
    }

    method SaveHits(hits: seq<LiveJob>)
      requires Separate() && Stored()
      modifies this`disk, this`history, this`trail
      ensures Valid() && trail == old(trail) + Write(Views(), None, ViewsOf(hits))
    {
      SaveAll();
      RecordEach(hits);
    }

    method SaveDrop()
      requires Separate() && Stored()
      modifies this`disk, this`trail
      ensures Valid() && trail == old(trail) + [Update(Views(), None, true), Micro.Persist]
    {
      Commit(None, true);
      Persist();
    }

    ghost method Acknowledge(id: JobId)
      requires Valid()
      modifies this`trail
      ensures Valid() && trail == old(trail) + [Ack(id)]
    {
      Logged(origin, trail, Ack(id));
      trail := trail + [Ack(id)];
    }

    method FinishAt(i: nat, success: bool, ota: Option<string>, needs: bool, now: int)
      requires Valid() && i < |jobs|
      modifies this`disk, this`history, this`trail, jobs[i]
      ensures Valid()
      ensures var j := Jobs.Finish(old(Views())[i], success, ota, needs, now);
        Views() == old(Views())[i := j] && trail == old(trail) + (Write(Views(), None, [j]) + [Ack(j.id)])
    {
      hide LiveJob.View, Stored, Replay, Write, Jobs.Finish;
      ghost var t := trail;
      jobs[i].Finish(success, ota, needs, now);
      assert Views() == old(Views())[i := Jobs.Finish(old(Views())[i], success, ota, needs, now)];
      Save(i, true);
      Assoc(t, Write(Views(), None, [Views()[i]]), [Ack(jobs[i].id)]);
      Acknowledge(jobs[i].id);
    }

    /** A late OTA verdict: it replaces the old one and reaches history as well. */
    method PatchAt(i: nat, result: Option<string>)
      requires Valid() && i < |jobs|
      modifies this`disk, this`history, this`trail, jobs[i]
      ensures Valid()
      ensures var j := old(Views())[i].(ota := result);
        Views() == old(Views())[i := j] && trail == old(trail) + Write(Views(), None, [j])
    {
      hide LiveJob.View, Stored, Write;
      jobs[i].SetOta(result);
      assert Views() == old(Views())[i := old(Views())[i].(ota := result)];
      Save(i, true);
    }

    method SubmitResult(id: JobId, success: bool, ota: Option<string>, needs: bool, now: int) returns (ok: bool)
      requires Valid()
      modifies this`disk, this`history, this`trail, jobs
      ensures Valid()
      ensures trail == old(trail) + SubmitScript(old(Views()), id, success, ota, needs, now)
      ensures var q := old(Views());
        var i := IndexOf(q, id);
        && (ok <==> i < |jobs| && (q[i].state == WORKING || TakesOtaPatch(q[i], ota)))
        && Views() == if !ok then q
                      else q[i := if q[i].state == WORKING then Jobs.Finish(q[i], success, ota, needs, now)
                                  else q[i].(ota := ota)]
      ensures Pairwise(old(Views()), DistinctPair) ==>
        Submitted(old(Stores()), Stores(), id, success, ota, needs, now, ok)
    {
      hide LiveJob.View, Separate, Stored, Replay, Write, Jobs.Finish, Submitted, Pairwise;
      AtRest();
      ghost var before, start := Stores(), trail;
      var i := Find(id);
      if i == |jobs| {
        SubmitDone(before, start, id, success, ota, needs, now);
        return false;
      }
      if (jobs[i].state == SUCCESS || jobs[i].state == FAILED) && ota.Some? {
        PatchAt(i, ota);
        SubmitDone(before, start, id, success, ota, needs, now);
        return true;
      }
      if jobs[i].state != WORKING {
        SubmitDone(before, start, id, success, ota, needs, now);
        return false;
      }
      FinishAt(i, success, ota, needs, now);
      SubmitDone(before, start, id, success, ota, needs, now);
      return true;
    }

    lemma SubmitDone(
      before: Store, start: seq<Micro>, id: JobId, success: bool, ota: Option<string>, needs: bool, now: int)
      requires Since(before, start, SubmitScript(before.mem, id, success, ota, needs, now))
      ensures Pairwise(before.mem, DistinctPair) ==> Submitted(before, Stores(), id, success, ota, needs, now,
        exists k | 0 <= k < |before.mem| :: TakesResult(before.mem[k], id, ota))
      ensures var i := IndexOf(before.mem, id);
        Pairwise(before.mem, DistinctPair) ==>
          ((exists k | 0 <= k < |before.mem| :: TakesResult(before.mem[k], id, ota))
           <==> i < |before.mem| && TakesResult(before.mem[i], id, ota))
    {
      hide Since, SubmitScript, Submitted, Pairwise;
      Performed(before, start, SubmitScript(before.mem, id, success, ota, needs, now));
      if Pairwise(before.mem, DistinctPair) {
        OnlyAt(before.mem, id);
        SubmitDoes(before, id, success, ota, needs, now);
      }
    }

    method PatchOtaResult(id: JobId, result: string)
      requires Valid()
      modifies this`disk, this`history, this`trail, jobs
      ensures Valid() && trail == old(trail) + PatchScript(old(Views()), id, result)
      ensures Pairwise(old(Views()), DistinctPair) ==> Patched(old(Stores()), Stores(), id, result)
    {
      AtRest();
      ghost var before, start := Stores(), trail;
      var i := Find(id);
      if i < |jobs| {
        PatchAt(i, Some(result));
      }
      PatchDone(before, start, id, result);
    }

    lemma PatchDone(before: Store, start: seq<Micro>, id: JobId, result: string)
      requires Since(before, start, PatchScript(before.mem, id, result))
      ensures Pairwise(before.mem, DistinctPair) ==> Patched(before, Stores(), id, result)
    {
      hide Since, PatchScript, Patched, Pairwise;
      Performed(before, start, PatchScript(before.mem, id, result));
      if Pairwise(before.mem, DistinctPair) {
        PatchDoes(before, id, result);
      }
    }

    method ReleaseForRetry(id: JobId) returns (released: bool)
      requires Valid()
      modifies this`disk, this`history, this`trail, jobs
      ensures Valid() && trail == old(trail) + ReleaseScript(old(Views()), id)
      ensures var q := old(Views());
        var i := IndexOf(q, id);
        && (released <==> i < |jobs| && q[i].state == WORKING && q[i].retries + 1 < MAX_RETRIES)
        && Views() == if i == |jobs| || q[i].state != WORKING then q
                      else q[i := if released then Jobs.Requeue(q[i]) else q[i].(retries := q[i].retries + 1)]
      ensures Pairwise(old(Views()), DistinctPair) ==> Released(old(Stores()), Stores(), id, released)
    {
      hide LiveJob.View, Separate, Stored, Replay, Write, BumpInMemory, Jobs.Requeue, Released, Pairwise;
      AtRest();
      ghost var before, start := Stores(), trail;
      var i := Find(id);
      if i == |jobs| || jobs[i].state != WORKING {
        ReleaseDone(before, start, id);
        return false;
      }
      if jobs[i].retries + 1 >= MAX_RETRIES {
        CountRetryAt(i);
        ReleaseDone(before, start, id);
        return false;
      }
      RequeueAt(i);
      ReleaseDone(before, start, id);
      return true;
    }

    lemma ReleaseDone(before: Store, start: seq<Micro>, id: JobId)
      requires Since(before, start, ReleaseScript(before.mem, id))
      ensures var i := IndexOf(before.mem, id);
        Pairwise(before.mem, DistinctPair) ==> Released(before, Stores(), id,
          i < |before.mem| && before.mem[i].state == WORKING && before.mem[i].retries + 1 < MAX_RETRIES)
    {
      hide Since, ReleaseScript, Released, Pairwise;
      Performed(before, start, ReleaseScript(before.mem, id));
      if Pairwise(before.mem, DistinctPair) {
        OnlyAt(before.mem, id);
        ReleaseDoes(before, id);
      }
    }

    method RequeueAt(i: nat)
      requires Valid() && i < |jobs|
      modifies this`disk, this`trail, jobs[i]
      ensures Valid()
      ensures Views() == old(Views())[i := Jobs.Requeue(old(Views())[i])]
      ensures trail == old(trail) + Write(Views(), None, [])
    {
      hide LiveJob.View, Stored, Write;
      jobs[i].Requeue();
      assert Views() == old(Views())[i := Jobs.Requeue(old(Views())[i])];
      SaveAll();
    }

    /** Past the cap the counter moves in memory and nothing is saved. */
    method CountRetryAt(i: nat)
      requires Valid() && i < |jobs|
      modifies this`trail, jobs[i]
      ensures Valid()
      ensures var j := old(Views())[i];
        && Views() == old(Views())[i := j.(retries := j.retries + 1)]
        && trail == old(trail) + BumpInMemory(old(Views()), i)
    {
      jobs[i].retries := jobs[i].retries + 1;
      assert Views() == old(Views())[i := old(Views())[i].(retries := old(Views())[i].retries + 1)];
      Commit(None, false);
    }

    method SweepAt(ghost q: Queue, i: nat, check: Job -> Verdict) returns (moved: bool)
      requires Separate() && i < |jobs| == |q| && Views() == Walked(SweepQueue(q, check), q, i)
      modifies jobs[i]
      ensures Views() == Walked(SweepQueue(q, check), q, i + 1)
      ensures moved == Moves(q[i], check)
    {
      WalkedStep(SweepQueue(q, check), q, i);
      moved := jobs[i].Sweep(check(jobs[i].View()));
      assert Views() == old(Views())[i := SweepQueue(q, check)[i]];
    }

    method SweepAll(check: Job -> Verdict) returns (changed: nat)
      requires Separate()
      modifies jobs
      ensures Views() == SweepQueue(old(Views()), check)
      ensures changed == MoveCount(old(Views()), check, |jobs|)
    {
      hide LiveJob.View, SweepQueue, Walked, Moves;
      ghost var q := Views();
      WalkedEnds(SweepQueue(q, check), q);
      changed := 0;
      for i := 0 to |jobs|
        invariant jobs == old(jobs) && Views() == Walked(SweepQueue(q, check), q, i)
        invariant changed == MoveCount(q, check, i)
      {
        var moved := SweepAt(q, i, check);
        if moved {
          changed := changed + 1;
        }
      }
    }

    method ReEvaluateRouting(check: Job -> Verdict) returns (changed: nat)
      requires Valid()
      modifies this`disk, this`trail, jobs
      ensures Valid() && Views() == SweepQueue(old(Views()), check)
      ensures trail == old(trail) + SweepScript(old(Views()), check)
      ensures changed == MoveCount(old(Views()), check, |jobs|)
      ensures Swept(old(Stores()), Stores(), check) && changed == Moved(old(Views()), Views())
    {
      SweepCounts(Views(), check);
      hide LiveJob.View, Replay, Write, SweepQueue, MoveCount, Swept, Moved;
      AtRest();
      ghost var before, start := Stores(), trail;
      changed := SweepAll(check);
      if changed != 0 {
        SaveAll();
      } else {
        Commit(None, false);
      }
      SweepDone(before, start, check);
    }

    lemma SweepDone(before: Store, start: seq<Micro>, check: Job -> Verdict)
      requires Since(before, start, SweepScript(before.mem, check))
      ensures Swept(before, Stores(), check)
    {
      hide Since, SweepScript, Swept;
      Performed(before, start, SweepScript(before.mem, check));
      SweepDoes(before, check);
    }

    lemma AppearsOnce(i: nat)
      requires Separate() && i < |jobs|
      ensures jobs[i] !in jobs[..i]
    {}

    method ExpireAt(ghost q: Queue, i: nat, now: int, online: Option<string -> bool>, hits: seq<LiveJob>)
      returns (more: seq<LiveJob>)
      requires Separate() && i < |jobs| == |q| && Views() == Walked(ExpireQueue(q, now, online), q, i)
      requires forall j | j in hits :: j in jobs[..i]
      requires ViewsOf(hits) == Affected(q[..i], now, online)
      modifies jobs[i]
      ensures Views() == Walked(ExpireQueue(q, now, online), q, i + 1)
      ensures forall j | j in more :: j in jobs[..i + 1]
      ensures forall j :: j in more <==> j in hits || (j == jobs[i] && Expired(q[i], now, online))
      ensures ViewsOf(more) == Affected(q[..i + 1], now, online)
    {
      hide Expired, ExpireOne, Affected;
      WalkedStep(ExpireQueue(q, now, online), q, i);
      AppearsOnce(i);
      var hit := jobs[i].Expire(now, online);
      assert Views() == old(Views())[i := ExpireQueue(q, now, online)[i]];
      AffectedStep(q, i, now, online);
      more := if hit then hits + [jobs[i]] else hits;
      assert ViewsOf(hits) == old(ViewsOf(hits));
    }

    method ExpireAll(now: int, online: Option<string -> bool>) returns (hits: seq<LiveJob>)
      requires Separate()
      modifies jobs
      ensures Views() == ExpireQueue(old(Views()), now, online)
      ensures ViewsOf(hits) == Affected(old(Views()), now, online) && forall j | j in hits :: j in jobs
      ensures forall k | 0 <= k < |jobs| :: jobs[k] in hits <==> Expired(old(Views())[k], now, online)
    {
      hide LiveJob.View, ExpireQueue, Affected, Walked, Expired;
      ghost var q := Views();
      WalkedEnds(ExpireQueue(q, now, online), q);
      AffectedNone(q, now, online);
      hits := [];
      for i := 0 to |jobs|
        invariant jobs == old(jobs) && Views() == Walked(ExpireQueue(q, now, online), q, i)
        invariant forall j | j in hits :: j in jobs[..i]
        invariant forall k | 0 <= k < i :: jobs[k] in hits <==> Expired(q[k], now, online)
        invariant ViewsOf(hits) == Affected(q[..i], now, online)
      {
        AppearsOnce(i);
        hits := ExpireAt(q, i, now, online, hits);
      }
      assert q[..|jobs|] == q;
    }

    /** Only the jobs that failed for good reach history. */
    method RecordIfFailed(j: LiveJob)
      requires Valid()
      modifies this`history, this`trail
      ensures Valid() && trail == old(trail) + if j.state == FAILED then [Record(j.View())] else []
    {
      if j.state == FAILED {
        RecordHistory(j);
      }
    }

    method RecordFailed(js: seq<LiveJob>)
      requires Valid()
      modifies this`history, this`trail
      ensures Valid()
      ensures trail == old(trail) + Records(FailedIn(ViewsOf(js)))
    {
      ghost var all := ViewsOf(js);
      for k := 0 to |js|
        invariant Valid() && trail == old(trail) + Records(FailedIn(all[..k]))
      {
        FailedInStep(all, k);
        RecordIfFailed(js[k]);
      }
      assert all[..|js|] == all;
    }

    method SaveExpired(hits: seq<LiveJob>)
      requires Separate() && Stored()
      modifies this`disk, this`history, this`trail
      ensures Valid() && trail == old(trail) + Write(Views(), None, FailedIn(ViewsOf(hits)))
    {
      SaveAll();
      RecordFailed(hits);
    }

    method ExpireAndSave(now: int, online: Option<string -> bool>) returns (affected: seq<LiveJob>)
      requires Valid()
      modifies this`disk, this`history, this`trail, jobs
      ensures Valid() && Views() == ExpireQueue(old(Views()), now, online)
      ensures trail == old(trail) + TimeoutScript(old(Views()), now, online)
      ensures ViewsOf(affected) == Affected(old(Views()), now, online) && forall j | j in affected :: j in jobs
      ensures forall k | 0 <= k < |jobs| :: jobs[k] in affected <==> Expired(old(Views())[k], now, online)
    {
      hide LiveJob.View, Stored, Separate, Write, Affected, Expired;
      ghost var q := Views();
      affected := ExpireAll(now, online);
      if |affected| > 0 {
        SaveExpired(affected);
      } else {
        NoneExpired(q, now, online);
      }
    }

    /** It answers with exactly the jobs that ran out. */
    method CheckTimeouts(now: int, online: Option<string -> bool>) returns (affected: seq<LiveJob>)
      requires Valid()
      modifies this`disk, this`history, this`trail, jobs
      ensures Valid() && Views() == ExpireQueue(old(Views()), now, online)
      ensures trail == old(trail) + TimeoutScript(old(Views()), now, online)
      ensures ViewsOf(affected) == Affected(old(Views()), now, online) && forall j | j in affected :: j in jobs
      ensures forall k | 0 <= k < |jobs| :: jobs[k] in affected <==> RanOut(old(Views())[k], now, online)
      ensures Pairwise(old(Views()), DistinctPair) ==> TimedOut(old(Stores()), Stores(), now, online)
    {
      hide TimeoutScript, ExpireQueue, Affected, TimedOut, Valid, Views, Pairwise;
      AtRest();
      ghost var before, start := Stores(), trail;
      affected := ExpireAndSave(now, online);
      TimeoutDone(before, start, now, online);
    }

    lemma TimeoutDone(before: Store, start: seq<Micro>, now: int, online: Option<string -> bool>)
      requires Since(before, start, TimeoutScript(before.mem, now, online))
      ensures Pairwise(before.mem, DistinctPair) ==> TimedOut(before, Stores(), now, online)
    {
      hide Since, TimeoutScript, TimedOut, Pairwise;
      Performed(before, start, TimeoutScript(before.mem, now, online));
      if Pairwise(before.mem, DistinctPair) {
        TimeoutDoes(before, now, online);
      }
    }

    /** The last active job and the last queued follow-up of a target, by position. */
    method Scan(target: string) returns (a: int, f: int)
      ensures a == ActiveIndex(Views(), target) && f == FollowupIndex(Views(), target)
    {
      ghost var q := Views();
      a, f := -1, -1;
      for i := 0 to |jobs|
        invariant -1 <= a < i && (0 <= a ==> CountsAsActive(q[a], target))
        invariant -1 <= f < i && (0 <= f ==> IsQueuedFollowup(q[f], target))
        invariant forall k | a < k < i :: !CountsAsActive(q[k], target)
        invariant forall k | f < k < i :: !IsQueuedFollowup(q[k], target)
      {
        var job := jobs[i];
        if job.target == target {
          if job.state == WORKING {
            a := i;
          } else if job.state == PENDING {
            if job.followup {
              f := i;
            } else {
              a := i;
            }
          }
        }
      }
    }

    /** The jobs that satisfy p, in queue order. */
    method Select(p: Job -> bool) returns (r: seq<LiveJob>)
      requires Separate()
      ensures ViewsOf(r) == Filter(Views(), p)
      ensures forall j | j in r :: j in jobs
      ensures forall i, k | 0 <= i < k < |r| :: r[i] != r[k]
    {
      hide LiveJob.View, Filter;
      ghost var q := Views();
      FilterStart(q, p);
      r := [];
      for i := 0 to |jobs|
        invariant ViewsOf(r) == Filter(q[..i], p)
        invariant forall j | j in r :: j in jobs[..i]
        invariant forall m, k | 0 <= m < k < |r| :: r[m] != r[k]
      {
        FilterStep(q, p, i);
        assert jobs[i] !in jobs[..i];
        if p(jobs[i].View()) {
          ViewsSnoc(r, jobs[i]);
          r := r + [jobs[i]];
        }
      }
      assert q[..|jobs|] == q;
    }

    /** Record the jobs that go, and put a new job behind the ones that stay. */
    method SwapIn(gone: seq<LiveJob>, kept: seq<LiveJob>, j: Job) returns (job: LiveJob)
      requires Valid() && (forall x | x in kept :: x in jobs)
      requires forall i, k | 0 <= i < k < |kept| :: kept[i] != kept[k]
      modifies this`jobs, this`history, this`trail
      ensures Valid() && fresh(job) && job.View() == j && jobs == kept + [job]
      ensures Views() == old(ViewsOf(kept)) + [j]
      ensures trail == old(trail) + Swap(old(ViewsOf(kept)), old(ViewsOf(gone)), j)
    {
      hide LiveJob.View, Stored;
      RecordEach(gone);
      job := new LiveJob(j);
      jobs := kept + [job];
      ViewsSnoc(kept, job);
      Commit(None, false);
    }

    method Create(req: Request, id: JobId, followup: bool) returns (job: LiveJob)
      requires Valid()
      modifies this`jobs, this`history, this`trail
      ensures Valid() && fresh(job) && job.View() == NewJob(id, req, followup) && job in jobs
      ensures job == jobs[|jobs| - 1]
      ensures forall j | j in jobs :: j in old(jobs) || fresh(j)
      ensures trail == old(trail)
        + Swap(FreshJobs(old(Views()), req.target), StaleJobs(old(Views()), req.target), NewJob(id, req, followup))
    {
      hide LiveJob.View, Stored, Filter, IsStale, NewJob, Swap;
      var gone := Select((j: Job) => IsStale(j, req.target));
      var kept := Select((j: Job) => !IsStale(j, req.target));
      job := SwapIn(gone, kept, NewJob(id, req, followup));
    }

    method CreateSaved(req: Request, id: JobId, followup: bool) returns (job: LiveJob)
      requires Valid()
      modifies this`jobs, this`disk, this`history, this`trail
      ensures Valid() && job in jobs && forall j | j in jobs :: j in old(jobs) || fresh(j)
      ensures job.target == req.target && job == jobs[|jobs| - 1]
      ensures trail == old(trail)
        + (Swap(FreshJobs(old(Views()), req.target), StaleJobs(old(Views()), req.target), NewJob(id, req, followup))
           + [Micro.Persist])
    {
      ghost var t := trail;
      ghost var swap :=
        Swap(FreshJobs(Views(), req.target), StaleJobs(Views(), req.target), NewJob(id, req, followup));
      job := Create(req, id, followup);
      Assoc(t, swap, [Micro.Persist]);
      Persist();
    }

    method RedirectAt(i: nat, req: Request)
      requires Valid() && i < |jobs|
      modifies this`disk, this`trail, jobs[i]
      ensures Valid()
      ensures Views() == old(Views())[i := Jobs.Redirect(old(Views())[i], req)]
      ensures trail == old(trail) + Write(Views(), None, [])
    {
      jobs[i].Redirect(req);
      assert Views() == old(Views())[i := Jobs.Redirect(old(Views())[i], req)];
      SaveAll();
    }

    /** The branches of a request. */
    method Coalesce(req: Request, id: JobId) returns (job: LiveJob?)
      requires Valid()
      modifies this`jobs, this`disk, this`history, this`trail, jobs
      ensures Valid() && forall j | j in jobs :: j in old(jobs) || fresh(j)
      ensures trail == old(trail) + EnqueueScript(old(Views()), req, id)
      ensures job == null <==> EnqueueScript(old(Views()), req, id) == []
      ensures job != null ==> job in jobs && job.target == req.target
      ensures job != null && (req.validateOnly || FollowupIndex(old(Views()), req.target) < 0) ==>
        job == jobs[|jobs| - 1]
      ensures !req.validateOnly && 0 <= FollowupIndex(old(Views()), req.target) ==>
        jobs == old(jobs) && job == jobs[FollowupIndex(old(Views()), req.target)]
    {
      hide LiveJob.View, Stored, Swap, NewJob, Redirect, FreshJobs, StaleJobs, Separate, Replay;
      var a, f := Scan(req.target);
      if !req.validateOnly {
        if 0 <= f {
          RedirectAt(f, req);
          return jobs[f];
        }
        if 0 <= a && jobs[a].state == PENDING {
          return null;
        }
      }
      var followup := 0 <= a && jobs[a].state == WORKING && !req.validateOnly;
      job := CreateSaved(req, id, followup);
    }

    method Enqueue(req: Request, id: JobId) returns (job: LiveJob?)
      requires Valid()
      modifies this`jobs, this`disk, this`history, this`trail, jobs
      ensures Valid() && forall j | j in jobs :: j in old(jobs) || fresh(j)
      ensures trail == old(trail) + EnqueueScript(old(Views()), req, id)
      ensures job == null <==> FoldedIn(old(Views()), req)
      ensures job != null ==> job in jobs && job.target == req.target
      ensures job != null && (req.validateOnly || forall j | j in old(Views()) :: !QueuedFollowup(j, req.target)) ==>
        job == jobs[|jobs| - 1]
      ensures !req.validateOnly && (exists j | j in old(Views()) :: QueuedFollowup(j, req.target)) ==>
        exists f | 0 <= f < |old(Views())| == |jobs| :: QueuedFollowup(old(Views())[f], req.target) && job == jobs[f]
      ensures WellFormed(old(Views())) ==> Enqueued(old(Stores()), Stores(), req, id)
    {
      hide EnqueueScript, FoldedIn, WellFormed, Enqueued, Valid, Views, FollowupIndex, QueuedFollowup;
      AtRest();
      ghost var before, start := Stores(), trail;
      FollowupIsThere(before.mem, req.target);
      job := Coalesce(req, id);
      EnqueueDone(before, start, req, id);
    }

    lemma EnqueueDone(before: Store, start: seq<Micro>, req: Request, id: JobId)
      requires Since(before, start, EnqueueScript(before.mem, req, id))
      ensures WellFormed(before.mem) ==> Enqueued(before, Stores(), req, id)
      ensures EnqueueScript(before.mem, req, id) == [] <==> FoldedIn(before.mem, req)
    {
      hide Since, EnqueueScript, Enqueued, WellFormed, FoldedIn;
      Performed(before, start, EnqueueScript(before.mem, req, id));
      EnqueueAnswers(before.mem, req, id);
      if WellFormed(before.mem) {
        EnqueueDoes(before, req, id);
      }
    }

    method CancelAt(i: nat, now: int, hits: seq<LiveJob>) returns (more: seq<LiveJob>)
      requires Separate() && i < |jobs| && !Terminal(Views()[i])
      requires forall h | h in hits :: TerminalState(h.state)
      modifies jobs[i]
      ensures Views() == old(Views())[i := CancelOne(old(Views())[i], now)]
      ensures ViewsOf(more) == old(ViewsOf(hits)) + [CancelOne(old(Views())[i], now)]
      ensures forall h | h in more :: TerminalState(h.state)
    {
      hide LiveJob.View;
      assert jobs[i] !in hits;
      jobs[i].Cancel(now);
      more := hits + [jobs[i]];
      ViewsSnoc(hits, jobs[i]);
    }

    /** One id of a cancel request; unknown and finished jobs are skipped. */
    method CancelId(id: JobId, now: int, hits: seq<LiveJob>) returns (more: seq<LiveJob>)
      requires Separate() && forall h | h in hits :: TerminalState(h.state)
      modifies jobs
      ensures forall h | h in more :: TerminalState(h.state)
      ensures var q := old(Views());
        var i := IndexOf(q, id);
        if i == |q| || Terminal(q[i]) then Views() == q && ViewsOf(more) == old(ViewsOf(hits))
        else Views() == q[i := CancelOne(q[i], now)] && ViewsOf(more) == old(ViewsOf(hits)) + [CancelOne(q[i], now)]
    {
      hide LiveJob.View;
      var i := Find(id);
      if i < |jobs| && (jobs[i].state == PENDING || jobs[i].state == WORKING || jobs[i].state == BLOCKED) {
        more := CancelAt(i, now, hits);
      } else {
        more := hits;
      }
    }

    method CancelEach(ids: seq<JobId>, now: int) returns (hits: seq<LiveJob>)
      requires Separate()
      modifies jobs
      ensures Views() == CancelAll(old(Views()), ids, now).mem
      ensures ViewsOf(hits) == CancelAll(old(Views()), ids, now).hits
    {
      hide LiveJob.View, CancelAll;
      ghost var q := Views();
      CancelNone(q, ids, now);
      hits := [];
      for k := 0 to |ids|
        invariant jobs == old(jobs) && Views() == CancelAll(q, ids[..k], now).mem
        invariant ViewsOf(hits) == CancelAll(q, ids[..k], now).hits
        invariant forall h | h in hits :: TerminalState(h.state)
      {
        CancelStep(q, ids, k, now);
        hits := CancelId(ids[k], now, hits);
      }
      assert ids[..|ids|] == ids;
    }

    method CancelAndSave(ids: seq<JobId>, now: int) returns (cancelled: nat)
      requires Valid()
      modifies this`disk, this`history, this`trail, jobs
      ensures Valid() && Views() == CancelAll(old(Views()), ids, now).mem
      ensures trail == old(trail) + CancelScript(old(Views()), ids, now)
      ensures cancelled == |CancelAll(old(Views()), ids, now).hits|
    {
      hide LiveJob.View, Stored, Separate, Write;
      var hits := CancelEach(ids, now);
      cancelled := |hits|;
      if cancelled > 0 {
        SaveHits(hits);
      } else {
        NoneCancelled(old(Views()), ids, now);
      }
    }

    /** It answers with the number of jobs that it stopped. */
    method Cancel(ids: seq<JobId>, now: int) returns (cancelled: nat)
      requires Valid()
      modifies this`disk, this`history, this`trail, jobs
      ensures Valid() && Views() == CancelAll(old(Views()), ids, now).mem
      ensures trail == old(trail) + CancelScript(old(Views()), ids, now)
      ensures cancelled == |CancelAll(old(Views()), ids, now).hits|
      ensures Pairwise(old(Views()), DistinctPair) ==> Cancelled(old(Stores()), Stores(), ids, now)
      ensures Pairwise(old(Views()), DistinctPair) ==>
        cancelled == |Positions(old(Views()), (j: Job) => Stops(j, ids))|
    {
      hide CancelScript, CancelAll, Stops, Cancelled, Valid, Views, Pairwise;
      AtRest();
      ghost var before, start := Stores(), trail;
      cancelled := CancelAndSave(ids, now);
      CancelDone(before, start, ids, now);
    }

    lemma CancelDone(before: Store, start: seq<Micro>, ids: seq<JobId>, now: int)
      requires Since(before, start, CancelScript(before.mem, ids, now))
      ensures Pairwise(before.mem, DistinctPair) ==>
        && Cancelled(before, Stores(), ids, now)
        && |CancelAll(before.mem, ids, now).hits| == |Positions(before.mem, (j: Job) => Stops(j, ids))|
    {
      hide Since, CancelScript, CancelAll, Cancelled, Stops, Pairwise;
      Performed(before, start, CancelScript(before.mem, ids, now));
      if Pairwise(before.mem, DistinctPair) {
        CancelDoes(before, ids, now);
        CancelCounts(before.mem, ids, now);
      }
    }

    method RetryAt(i: nat, newId: JobId, versionFor: string -> string, timeout: int) returns (job: LiveJob)
      requires Valid() && i < |jobs|
      modifies this`jobs, this`history, this`trail
      ensures Valid() && fresh(job) && forall j | j in jobs :: j in old(jobs) || fresh(j)
      ensures var q := old(Views());
        var prior := q[i];
        var kept, gone := UnfinishedOf(q, prior.target), FinishedOf(q, prior.target);
        var j := RetryJob(prior, newId, versionFor(prior.target), timeout);
        job.View() == j && Views() == kept + [j] && trail == old(trail) + Swap(kept, gone, j)
    {
      hide LiveJob.View, Stored, Filter, Terminal, RetryJob, Swap;
      var prior := jobs[i].View();
      var j := RetryJob(prior, newId, versionFor(prior.target), timeout);
      var gone := Select((x: Job) => x.target == prior.target && Terminal(x));
      var kept := Select((x: Job) => !(x.target == prior.target && Terminal(x)));
      job := SwapIn(gone, kept, j);
    }

    /** One id of a retry request. */
    method RetryId(id: JobId, newId: JobId, versionFor: string -> string, timeout: int) returns (job: LiveJob?)
      requires Valid()
      modifies this`jobs, this`history, this`trail
      ensures Valid() && forall j | j in jobs :: j in old(jobs) || fresh(j)
      ensures var one := RetryOne(old(Views()), id, newId, versionFor, timeout);
        Views() == one.mem && trail == old(trail) + one.script && (job == null <==> one.script == [])
      ensures var q := old(Views());
        var i := IndexOf(q, id);
        if i == |q| || !Terminal(q[i]) then job == null
        else job != null && fresh(job) && job.View() == RetryJob(q[i], newId, versionFor(q[i].target), timeout)
    {
      var i := Find(id);
      if i == |jobs| || !TerminalState(jobs[i].state) {
        return null;
      }
      job := RetryAt(i, newId, versionFor, timeout);
    }

    method RetryEach(ids: seq<JobId>, newIds: seq<JobId>, versionFor: string -> string, timeout: int)
      returns (made: seq<LiveJob>)
      requires Valid() && |ids| == |newIds|
      modifies this`jobs, this`history, this`trail
      ensures Valid() && forall j | j in jobs :: j in old(jobs) || fresh(j)
      ensures var r := RetryAll(old(Views()), ids, newIds, versionFor, timeout);
        Views() == r.mem && trail == old(trail) + r.script && (made == [] <==> r.script == [])
      ensures ViewsOf(made) == News(old(Views()), ids, newIds, versionFor, timeout)
    {
      hide LiveJob.View;
      hide RetryAll, RetryOne, Stored, Separate, News, RetryJob, Replay, IndexOf;
      ghost var q, t := Views(), trail;
      ghost var r := RetryRun(q, []);
      RetryNone(q, ids, newIds, versionFor, timeout);
      NewsNone(q, ids, newIds, versionFor, timeout);
      made := [];
      for k := 0 to |ids|
        invariant Valid() && forall j | j in jobs :: j in old(jobs) || fresh(j)
        invariant r == RetryAll(q, ids[..k], newIds[..k], versionFor, timeout)
        invariant Views() == r.mem && trail == t + r.script && (made == [] <==> r.script == [])
        invariant ViewsOf(made) == News(q, ids[..k], newIds[..k], versionFor, timeout)
      {
        RetryAllStep(q, ids, newIds, k, versionFor, timeout);
        assert ids[..k + 1] == ids[..k] + [ids[k]] && newIds[..k + 1] == newIds[..k] + [newIds[k]];
        NewsLast(q, ids[..k], newIds[..k], ids[k], newIds[k], versionFor, timeout);
        ghost var one := RetryOne(r.mem, ids[k], newIds[k], versionFor, timeout);
        var job := RetryId(ids[k], newIds[k], versionFor, timeout);
        Assoc(t, r.script, one.script);
        r := RetryRun(one.mem, r.script + one.script);
        if job != null {
          ViewsSnoc(made, job);
          made := made + [job];
        }
      }
      assert ids[..|ids|] == ids && newIds[..|ids|] == newIds;
    }

    method Retry(ids: seq<JobId>, newIds: seq<JobId>, versionFor: string -> string, timeout: int)
      returns (made: seq<LiveJob>)
      requires Valid() && |ids| == |newIds|
      modifies this`jobs, this`disk, this`history, this`trail
      ensures Valid() && forall j | j in jobs :: j in old(jobs) || fresh(j)
      ensures trail == old(trail) + RetryScript(old(Views()), ids, newIds, versionFor, timeout)
      ensures Pairwise(old(Views()), DistinctPair) && (forall x | x in newIds :: x !in Ids(old(Views()))) ==>
        Retried(old(Stores()), Stores(), ids, newIds, versionFor, timeout, ViewsOf(made))
    {
      hide RetryAll, Retried, Pairwise, Ids, News, LiveJob.View, Stored, Separate;
      AtRest();
      ghost var before := Stores();
      ghost var t, r := trail, RetryAll(Views(), ids, newIds, versionFor, timeout);
      made := RetryEach(ids, newIds, versionFor, timeout);
      if |made| > 0 {
        Persist();
        Assoc(t, r.script, [Micro.Persist]);
      }
      RetryDone(before, t, ids, newIds, versionFor, timeout);
    }

    lemma RetryDone(
      before: Store, start: seq<Micro>, ids: seq<JobId>, newIds: seq<JobId>, versionFor: string -> string, timeout: int)
      requires |ids| == |newIds| && Since(before, start, RetryScript(before.mem, ids, newIds, versionFor, timeout))
      ensures Pairwise(before.mem, DistinctPair) && (forall x | x in newIds :: x !in Ids(before.mem)) ==>
        Retried(before, Stores(), ids, newIds, versionFor, timeout, News(before.mem, ids, newIds, versionFor, timeout))
    {
      hide Since, RetryScript, Retried, Pairwise, Ids;
      Performed(before, start, RetryScript(before.mem, ids, newIds, versionFor, timeout));
      if Pairwise(before.mem, DistinctPair) && forall x | x in newIds :: x !in Ids(before.mem) {
        RetryDoes(before, ids, newIds, versionFor, timeout);
      }
    }

    /** An uploaded binary is noted on its job; the note itself is not part of the model. */
    method MarkStored(id: JobId, force: bool) returns (ok: bool)
      requires Valid()
      modifies this`disk, this`trail
      ensures Valid() && trail == old(trail) + MarkScript(Views(), id, force)
      ensures ok == Markable(Views(), id, force)
      ensures Pairwise(old(Views()), DistinctPair) ==> Marked(old(Stores()), Stores(), id, force, ok)
    {
      AtRest();
      ghost var before, start := Stores(), trail;
      var i := Find(id);
      ok := i < |jobs| && (force || jobs[i].state == WORKING);
      if ok {
        Persist();
      }
      MarkDone(before, start, id, force);
    }

    lemma MarkDone(before: Store, start: seq<Micro>, id: JobId, force: bool)
      requires Since(before, start, MarkScript(before.mem, id, force))
      ensures Pairwise(before.mem, DistinctPair) ==>
        Marked(before, Stores(), id, force, Markable(before.mem, id, force))
    {
      hide Since, MarkScript, Marked, Pairwise, Markable;
      Performed(before, start, MarkScript(before.mem, id, force));
      if Pairwise(before.mem, DistinctPair) {
        MarkDoes(before, id, force);
      }
    }

    /** remove_jobs, clear and prune: they drop finished jobs without recording them. */
    method Discard(pick: Job -> bool) returns (removed: nat)
      requires Valid()
      modifies this`jobs, this`disk, this`trail
      ensures Valid() && forall j | j in jobs :: j in old(jobs)
      ensures trail == old(trail) + DiscardScript(old(Views()), pick)
      ensures removed == |old(Views())| - |Kept(old(Views()), pick)|
      ensures Dropped(old(Stores()), Stores(), pick) && removed == |old(Views())| - |Views()|
    {
      hide LiveJob.View, Stored, Filter, Terminal;
      AtRest();
      ghost var before, start := Stores(), trail;
      var kept := Select((j: Job) => !(Terminal(j) && pick(j)));
      removed := |jobs| - |kept|;
      if removed > 0 {
        jobs := kept;
        SaveDrop();
      }
      DiscardDone(before, start, pick);
    }

    lemma DiscardDone(before: Store, start: seq<Micro>, pick: Job -> bool)
      requires Since(before, start, DiscardScript(before.mem, pick))
      ensures Dropped(before, Stores(), pick)
    {
      hide Since, DiscardScript, Dropped;
      Performed(before, start, DiscardScript(before.mem, pick));
      DiscardDoes(before, pick);
    }
  }

  lemma FailedInStep(q: Queue, k: nat)
    requires k < |q|
    ensures Records(FailedIn(q[..k + 1]))
      == Records(FailedIn(q[..k])) + if q[k].state == FAILED then [Record(q[k])] else []
  {
    FilterStep(q, (j: Job) => j.state == FAILED, k);
  }

  lemma NothingLoaded(stored: Queue)
    ensures Recovered(stored[..0]) == [] && RecoveryScript(stored[..0]) == []
    ensures forall s :: Replay(s, []) == s
  {}

  lemma NewsNone(q: Queue, ids: seq<JobId>, newIds: seq<JobId>, versionFor: string -> string, timeout: int)
    requires |ids| == |newIds|
    ensures News(q, ids[..0], newIds[..0], versionFor, timeout) == []
  {}

  lemma RetryNone(q: Queue, ids: seq<JobId>, newIds: seq<JobId>, versionFor: string -> string, timeout: int)
    requires |ids| == |newIds|
    ensures RetryAll(q, ids[..0], newIds[..0], versionFor, timeout) == RetryRun(q, [])
  {}

  lemma AffectedNone(q: Queue, now: int, online: Option<string -> bool>)
    ensures Affected(q[..0], now, online) == []
  {}

  lemma CancelNone(q: Queue, ids: seq<JobId>, now: int)
    ensures CancelAll(q, ids[..0], now) == CancelRun(q, [])
  {}

  lemma CancelStep(q: Queue, ids: seq<JobId>, k: nat, now: int)
    requires k < |ids|
    ensures var r := CancelAll(q, ids[..k], now);
      var i := IndexOf(r.mem, ids[k]);
      CancelAll(q, ids[..k + 1], now)
        == if i == |r.mem| || Terminal(r.mem[i]) then r
           else CancelRun(r.mem[i := CancelOne(r.mem[i], now)], r.hits + [CancelOne(r.mem[i], now)])
  {
    assert ids[..k + 1][..k] == ids[..k];
  }

  lemma FilterStart(q: Queue, p: Job -> bool)
    ensures Filter(q[..0], p) == []
  {}

  lemma RetryAllStep(q: Queue, ids: seq<JobId>, newIds: seq<JobId>, k: nat, versionFor: string -> string, timeout: int)
    requires k < |ids| == |newIds|
    ensures var r := RetryAll(q, ids[..k], newIds[..k], versionFor, timeout);
      var one := RetryOne(r.mem, ids[k], newIds[k], versionFor, timeout);
      RetryAll(q, ids[..k + 1], newIds[..k + 1], versionFor, timeout) == RetryRun(one.mem, r.script + one.script)
  {
    assert ids[..k + 1][..k] == ids[..k] && newIds[..k + 1][..k] == newIds[..k];
  }

  lemma {:induction false} NoneCancelled(q: Queue, ids: seq<JobId>, now: int)
    requires CancelAll(q, ids, now).hits == []
    ensures CancelAll(q, ids, now).mem == q
  {
    if ids != [] {
      NoneCancelled(q, ids[..|ids| - 1], now);
    }
  }

  lemma NoneExpired(q: Queue, now: int, online: Option<string -> bool>)
    requires Affected(q, now, online) == []
    ensures ExpireQueue(q, now, online) == q
  {
    forall i | 0 <= i < |q| ensures !Expired(q[i], now, online) {
      assert q[i] in q;
      assert |ExpiredJobs(q, now, online)| == 0;
      assert q[i] !in ExpiredJobs(q, now, online);
    }
  }

  lemma AffectedStep(q: Queue, i: nat, now: int, online: Option<string -> bool>)
    requires i < |q|
    ensures Affected(q[..i + 1], now, online)
      == Affected(q[..i], now, online) + if Expired(q[i], now, online) then [ExpireOne(q[i], now)] else []
  {
    FilterStep(q, (j: Job) => Expired(j, now, online), i);
  }

  lemma StrandedStep(disk: Queue, i: nat)
    requires i < |disk|
    ensures Recovered(disk[..i + 1]) == Recovered(disk[..i]) + [RecoverOne(disk[i])]
    ensures RecoveryScript(disk[..i + 1])
      == RecoveryScript(disk[..i]) + if Stranded(disk[i]) then [Record(RecoverOne(disk[i]))] else []
  {
    FilterStep(disk, (j: Job) => Stranded(j), i);
    var stranded := Filter(disk[..i], (j: Job) => Stranded(j));
    if Stranded(disk[i]) {
      assert StrandedJobs(disk[..i + 1]) == StrandedJobs(disk[..i]) + [RecoverOne(disk[i])];
    }
  }
}
