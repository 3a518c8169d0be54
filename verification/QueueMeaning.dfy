/** What the list-shaped operations achieve, said without their scripts. */
module QueueMeaning {
  import opened Common
  import opened Routing
  import opened Jobs
  import opened QueueOps
  import opened QueueInvariants
  import opened QueueMachine
  import opened QueueScripts

  /** The queue after an operation that no crash interrupts. */
  function After(q: Queue, op: Op): Queue
    requires op.Retry? ==> |op.ids| == |op.newIds|
  {
    Play(EMPTY.(mem := q), Script(q, op)).mem
  }

  lemma {:induction false} PlayRecords(c: Core, js: seq<Job>)
    ensures Play(c, Records(js)) == c.(hist := UpsertAll(c.hist, js))
    decreases |js|
  {
    if js != [] {
      var n := |js| - 1;
      PlayRecords(c, js[..n]);
      ScriptSplit(c, Records(js[..n]), [Record(js[n])]);
      ScriptOne(Play(c, Records(js[..n])), Record(js[n]));
      assert Records(js) == Records(js[..n]) + [Record(js[n])];
    }
  }

  /** An update that is saved and recorded, run to its end. */
  lemma PlayWrite(c: Core, to: Queue, claimed: Option<JobId>, hits: seq<Job>)
    ensures var e := Play(c, Write(to, claimed, hits));
      e.mem == to && e.disk == to && e.hist == UpsertAll(c.hist, hits) && e.issued == c.issued
  {
    var u := Update(to, claimed, false);
    ScriptTwo(c, u, Persist);
    ScriptSplit(c, [u, Persist], Records(hits));
    PlayRecords(Play(c, [u, Persist]), hits);
  }

  lemma NothingPlayed(c: Core)
    ensures Play(c, []) == c
  {}

  lemma SweptQueue(c: Core, check: Job -> Verdict)
    ensures Play(c, SweepScript(c.mem, check)).mem == SweepQueue(c.mem, check)
  {
    hide SweepQueue, MoveCount;
    PlayWrite(c, SweepQueue(c.mem, check), None, []);
    ScriptOne(c, Update(SweepQueue(c.mem, check), None, false));
  }

  lemma AfterWrite(c: Core, to: Queue, claimed: Option<JobId>)
    ensures Play(c, Write(to, claimed, [])).mem == to
  {
    PlayWrite(c, to, claimed, []);
  }

  lemma AfterSwap(c: Core, kept: Queue, gone: Queue, j: Job)
    ensures Play(c, Swap(kept, gone, j) + [Persist]).mem == kept + [j]
  {
    var u := Update(kept + [j], None, false);
    Assoc(Records(gone), [u], [Persist]);
    assert [u] + [Persist] == [u, Persist];
    ScriptSplit(c, Records(gone), [u, Persist]);
    PlayRecords(c, gone);
    ScriptTwo(Play(c, Records(gone)), u, Persist);
  }

  // ---- enqueue ----

  /** The job asks for what the request asks for. */
  predicate Carries(j: Job, r: Request) {
    && j.target == r.target && j.version == r.version && j.timeout == r.timeout && j.serverOta == r.serverOta
    && j.pinned == r.pinned && j.tagFilter == r.tagFilter && j.bypass == r.bypass
  }

  lemma EnqueueResult(q: Queue, req: Request, id: JobId)
    ensures var to, f, a := After(q, Enqueue(req, id)), FollowupIndex(q, req.target), ActiveIndex(q, req.target);
      to == if !req.validateOnly && 0 <= f then q[f := Redirect(q[f], req)]
            else if !req.validateOnly && 0 <= a && q[a].state == PENDING then q
            else FreshJobs(q, req.target) + [NewJob(id, req, 0 <= a && q[a].state == WORKING && !req.validateOnly)]
  {
    hide FreshJobs, StaleJobs, Redirect, NewJob, Write, Swap, ActiveIndex, FollowupIndex;
    var c := EMPTY.(mem := q);
    var a, f := ActiveIndex(q, req.target), FollowupIndex(q, req.target);
    FollowupInRange(q, req.target);
    if !req.validateOnly && 0 <= f {
      AfterWrite(c, q[f := Redirect(q[f], req)], None);
    } else if req.validateOnly || a < 0 || q[a].state != PENDING {
      AfterSwap(c, FreshJobs(q, req.target), StaleJobs(q, req.target),
                NewJob(id, req, 0 <= a && q[a].state == WORKING && !req.validateOnly));
    }
  }

  lemma FollowupInRange(q: Queue, target: string)
    ensures -1 <= FollowupIndex(q, target) < |q| && -1 <= ActiveIndex(q, target) < |q|
    ensures 0 <= FollowupIndex(q, target) ==> IsQueuedFollowup(q[FollowupIndex(q, target)], target)
    ensures 0 <= ActiveIndex(q, target) ==> CountsAsActive(q[ActiveIndex(q, target)], target)
  {}

  /** After an enqueue a PENDING job of the target carries the request, unless one was
      PENDING already and nothing changed; no other target's job and no running job is
      touched; and the queue grows by at most one job. */
  lemma EnqueueCovers(q: Queue, req: Request, id: JobId)
    ensures var to := After(q, Enqueue(req, id));
      && (exists j | j in to ::
            j.state == PENDING && j.target == req.target && (Carries(j, req) || (to == q && !j.followup)))
      && (forall x | x in q && (x.target != req.target || x.state == WORKING) :: x in to)
      && (forall x | x in to && x !in q :: x.state == PENDING && Carries(x, req))
      && (forall x | x in to && x.id !in Ids(q) ::
            && x.id == id && x.validateOnly == req.validateOnly && !x.otaOnly
            && x.assignedTo == None && x.retries == 0 && x.ota == None)
      && (WellFormed(q) ==> forall x | x in to && x !in q :: x.validateOnly == req.validateOnly && !x.otaOnly)
      && |to| <= |q| + 1
  {
    EnqueueResult(q, req, id);
    FollowupInRange(q, req.target);
    hide After, ActiveIndex, FollowupIndex;
    var a, f := ActiveIndex(q, req.target), FollowupIndex(q, req.target);
    if !req.validateOnly && 0 <= f {
      RedirectedOne(q, f, req);
      assert q[f] in q && (WellFormed(q) ==> Coherent(q[f]));
    } else if !req.validateOnly && 0 <= a && q[a].state == PENDING {
      assert q[a] in q;
    } else {
      CreatedOne(q, req, NewJob(id, req, 0 <= a && q[a].state == WORKING && !req.validateOnly));
    }
  }

  lemma OthersStay(q: Queue, f: nat, j: Job, x: Job)
    requires f < |q| && x in q && x != q[f]
    ensures x in q[f := j]
  {
    var k :| 0 <= k < |q| && q[k] == x;
    assert q[f := j][k] == x;
  }

  lemma RedirectedOne(q: Queue, f: nat, req: Request)
    requires f < |q| && IsQueuedFollowup(q[f], req.target)
    ensures var j, to := Redirect(q[f], req), q[f := Redirect(q[f], req)];
      && j in to && j.state == PENDING && Carries(j, req)
      && (forall x | x in q && (x.target != req.target || x.state == WORKING) :: x in to)
      && forall x | x in to && x !in q :: x == j
  {
    var to := q[f := Redirect(q[f], req)];
    assert to[f] in to;
    forall x | x in q && (x.target != req.target || x.state == WORKING) ensures x in to {
      OthersStay(q, f, Redirect(q[f], req), x);
    }
    forall x | x in to && x !in q ensures x == Redirect(q[f], req) {
      var k :| 0 <= k < |to| && to[k] == x;
      assert k != f ==> q[k] == x;
    }
  }

  lemma CreatedOne(q: Queue, req: Request, j: Job)
    requires Carries(j, req) && j.state == PENDING
    ensures var to := FreshJobs(q, req.target) + [j];
      && j in to && |to| <= |q| + 1
      && (forall x | x in q && (x.target != req.target || x.state == WORKING) :: x in to)
      && forall x | x in to && x !in q :: x == j
  {}

  /** A PENDING job of the target that will compile what its configuration is by then. */
  predicate CompileWaits(q: Queue, target: string) {
    exists j | j in q :: j.target == target && j.state == PENDING && Compiles(j)
  }

  /** The job an ordinary request is folded into is PENDING and will not compile: a repeated
      flash or a validation. */
  predicate FoldedIntoNothing(q: Queue, target: string) {
    var a := ActiveIndex(q, target);
    FollowupIndex(q, target) < 0 && 0 <= a < |q| && q[a].state == PENDING && !Compiles(q[a])
  }

  /** After an ordinary request some job of its target is waiting to compile, if and only
      if one was before, or the request was not folded into a flash or a validation. */
  lemma CompileWaitsIff(q: Queue, req: Request, id: JobId)
    requires WellFormed(q) && !req.validateOnly
    ensures CompileWaits(After(q, Enqueue(req, id)), req.target)
      <==> CompileWaits(q, req.target) || !FoldedIntoNothing(q, req.target)
  {
    EnqueueResult(q, req, id);
    FollowupInRange(q, req.target);
    hide After, ActiveIndex, FollowupIndex, FreshJobs, Pairwise;
    var to, f := After(q, Enqueue(req, id)), FollowupIndex(q, req.target);
    if 0 <= f {
      assert q[f] in q && Coherent(q[f]);
      assert to[f] in to;
    } else if 0 <= ActiveIndex(q, req.target) && q[ActiveIndex(q, req.target)].state == PENDING {
      assert q[ActiveIndex(q, req.target)] in q;
    } else {
      assert to[|to| - 1] in to;
    }
  }

  /** So a request can be dropped with nothing left that will carry it out: behind a queued
      flash or validation of its target. */
  lemma RequestDropped(j: Job, req: Request, id: JobId)
    requires j.target == req.target && j.state == PENDING && !j.followup && !Compiles(j) && !req.validateOnly
    ensures After([j], Enqueue(req, id)) == [j] && !CompileWaits([j], req.target)
  {
    EnqueueResult([j], req, id);
    FollowupInRange([j], req.target);
    assert CountsAsActive([j][0], req.target);
    hide After;
  }

  // ---- retry ----

  /** A retry of one finished job: its target's finished jobs are gone, everything else is
      as it was, and one new PENDING job repeats the old one. It only flashes again, on the
      worker that had compiled it, exactly when the compile had succeeded and the flash failed. */
  lemma RetryReplaces(q: Queue, prior: Job, newId: JobId, versionFor: string -> string, timeout: int)
    requires Pairwise(q, DistinctPair) && prior in q && Terminal(prior)
    ensures var to := After(q, Retry([prior.id], [newId], versionFor, timeout));
      && (forall x | x in q && !(x.target == prior.target && Terminal(x)) :: x in to)
      && (forall x | x in to && x !in q ::
            && x.id == newId && x.state == PENDING && x.target == prior.target && !x.followup
            && x.version == versionFor(prior.target) && x.serverOta == prior.serverOta && x.timeout == timeout
            && !x.validateOnly && x.tagFilter == None && !x.bypass && x.retries == 0 && x.ota == None
            && x.assignedTo == None && x.assignedAt == None && x.finishedAt == None
            && (x.otaOnly <==> prior.state == SUCCESS && prior.ota == Some("failed"))
            && x.pinned == if x.otaOnly then prior.assignedTo else prior.pinned)
      && (exists x | x in to :: x.id == newId && x.state == PENDING)
      && (forall x | x in to && x.target == prior.target :: !Terminal(x))
  {
    var j := RetryJob(prior, newId, versionFor(prior.target), timeout);
    var kept, gone := UnfinishedOf(q, prior.target), FinishedOf(q, prior.target);
    RetryScriptOfOne(q, prior, newId, versionFor, timeout);
    hide Script, RetryScript, Swap;
    AfterSwap(EMPTY.(mem := q), kept, gone, j);
    assert Script(q, Retry([prior.id], [newId], versionFor, timeout)) == Swap(kept, gone, j) + [Persist];
    assert j in kept + [j];
  }

  lemma RetryScriptOfOne(q: Queue, prior: Job, newId: JobId, versionFor: string -> string, timeout: int)
    requires Pairwise(q, DistinctPair) && prior in q && Terminal(prior)
    ensures Script(q, Retry([prior.id], [newId], versionFor, timeout))
      == Swap(UnfinishedOf(q, prior.target), FinishedOf(q, prior.target),
              RetryJob(prior, newId, versionFor(prior.target), timeout)) + [Persist]
  {
    hide UnfinishedOf, FinishedOf, RetryJob, Terminal, Records;
    FoundById(q, prior);
    var one := RetryOne(q, prior.id, newId, versionFor, timeout);
    assert [prior.id][..0] == [] && [newId][..0] == [];
    assert RetryAll(q, [], [], versionFor, timeout) == RetryRun(q, []);
    var all := RetryAll(q, [prior.id], [newId], versionFor, timeout);
    assert all.script == [] + one.script == one.script;
  }

  lemma FoundById(q: Queue, j: Job)
    requires Pairwise(q, DistinctPair) && j in q
    ensures IndexOf(q, j.id) < |q| && q[IndexOf(q, j.id)] == j
  {
    HasIffIds(q, j.id);
    assert j.id in Ids(q);
    SameJob(q, q[IndexOf(q, j.id)], j);
  }

  // ---- cancel ----

  /** The job is unfinished and one of those to cancel. */
  predicate Named(j: Job, ids: seq<JobId>) { j.id in ids && !Terminal(j) }

  /** The position that the last of the ids finds in a partly cancelled queue. */
  lemma LastOfIds(q: Queue, mem: Queue, ids: seq<JobId>)
    requires Pairwise(q, DistinctPair) && ids != [] && |mem| == |q|
    requires forall i | 0 <= i < |q| :: mem[i].id == q[i].id
    ensures var last, front := ids[|ids| - 1], ids[..|ids| - 1];
      var k := IndexOf(mem, last);
      && (k < |q| ==> q[k].id == last)
      && (forall i | 0 <= i < |q| :: q[i].id in ids <==> q[i].id in front || i == k)
  {
    var last, front := ids[|ids| - 1], ids[..|ids| - 1];
    var k := IndexOf(mem, last);
    assert ids == front + [last];
    forall i | 0 <= i < |q| ensures q[i].id == last <==> i == k {
      assert i < k ==> mem[i].id != last;
      if k < |q| && i != k {
        assert if i < k then DistinctPair(q[i], q[k]) else DistinctPair(q[k], q[i]);
      }
    }
  }

  lemma {:induction false} CancelledJobs(q: Queue, ids: seq<JobId>, now: int)
    requires Pairwise(q, DistinctPair)
    ensures forall i | 0 <= i < |q| ::
      CancelAll(q, ids, now).mem[i] == if Named(q[i], ids) then CancelOne(q[i], now) else q[i]
  {
    if ids != [] {
      var front := ids[..|ids| - 1];
      CancelledJobs(q, front, now);
      LastOfIds(q, CancelAll(q, front, now).mem, ids);
      hide Pairwise, IndexOf;
    }
  }

  lemma {:induction false} CancelledHits(q: Queue, ids: seq<JobId>, now: int)
    requires Pairwise(q, DistinctPair)
    ensures forall h :: h in CancelAll(q, ids, now).hits <==>
      exists i | 0 <= i < |q| :: Named(q[i], ids) && h == CancelOne(q[i], now)
  {
    if ids != [] {
      var front := ids[..|ids| - 1];
      CancelledHits(q, front, now);
      CancelledJobs(q, front, now);
      var prev := CancelAll(q, front, now);
      LastOfIds(q, prev.mem, ids);
      hide Pairwise, CancelOne;
      var k := IndexOf(prev.mem, ids[|ids| - 1]);
      hide IndexOf;
      forall i | 0 <= i < |q| && Named(q[i], ids) ensures Named(q[i], front) || i == k {}
    }
  }

  /** Exactly the unfinished jobs that are named are cancelled, and exactly they are
      reported and recorded. */
  lemma CancelsExactly(q: Queue, ids: seq<JobId>, now: int)
    requires Pairwise(q, DistinctPair)
    ensures var r := CancelAll(q, ids, now);
      && (forall i | 0 <= i < |q| :: r.mem[i] == if Named(q[i], ids) then CancelOne(q[i], now) else q[i])
      && (forall h :: h in r.hits <==> exists i | 0 <= i < |q| :: Named(q[i], ids) && h == CancelOne(q[i], now))
  {
    CancelledJobs(q, ids, now);
    CancelledHits(q, ids, now);
  }
}
