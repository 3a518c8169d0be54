/** One active job plus one follow-up per target: when it holds, when it does not. */
module OneActive {
  import opened Common
  import opened Routing
  import opened Jobs
  import opened QueueOps
  import opened QueueInvariants
  import opened QueueMachine
  import opened QueueScripts
  import opened QueueTheorems

  /** A live job that is not queued behind another one. */
  predicate Primary(j: Job) { (Waiting(j) || j.state == WORKING) && !j.followup }

  /** a stands before b in the queue: of one target there is one primary and, behind it,
      one follow-up, and the follow-up is not claimable while the primary is BLOCKED. */
  predicate ActivePair(a: Job, b: Job) {
    a.target == b.target ==>
      && !(Primary(a) && Primary(b))
      && !(LiveFollowup(a) && LiveFollowup(b))
      && !(LiveFollowup(a) && Primary(b))
      && !(Primary(a) && a.state == BLOCKED && LiveFollowup(b) && b.state == PENDING)
  }

  /** No pin, no tag filter, no bypass: nothing tells the jobs of one target apart. */
  predicate Plain(j: Job) { !IsPinned(j) && j.tagFilter == None && !j.bypass }

  ghost predicate Disciplined(q: Queue) {
    && Pairwise(q, ActivePair)
    && forall j | j in q :: Plain(j) && (j.state == WORKING ==> !j.followup)
  }

  predicate WorkingPair(a: Job, b: Job) { !(a.target == b.target && a.state == WORKING && b.state == WORKING) }

  /** The operations of a fleet that uses neither retry nor validate-only runs and whose
      rules look at the target only. */
  ghost predicate Uniform(op: Op) {
    match op
    case Enqueue(req, id) => !req.validateOnly && Plain(NewJob(id, req, false))
    case Claim(_, _, _, eligible) =>
      forall x, y | Plain(x) && Plain(y) && x.target == y.target :: eligible(x) == eligible(y)
    case Sweep(check) =>
      forall x, y | Plain(x) && Plain(y) && x.target == y.target :: check(x).Eligible? == check(y).Eligible?
    case Retry(_, _, _, _) => false
    case _ => true
  }

  ghost predicate UniformRun(es: seq<Event>) {
    forall e | e in es :: !e.LoseWrite? && (e.Start? ==> Uniform(e.op))
  }

  // ---- updates that keep the discipline ----

  /** The change moves b nowhere that a was not already. */
  predicate Tame(a: Job, b: Job) {
    && b.target == a.target
    && (Plain(a) ==> Plain(b))
    && (Primary(b) ==> Primary(a) && (b.state == BLOCKED ==> a.state == BLOCKED))
    && (LiveFollowup(b) ==> LiveFollowup(a) && (b.state == PENDING ==> a.state == PENDING))
    && (b.state == WORKING ==> !b.followup)
  }

  lemma TameKeeps(q: Queue, to: Queue)
    requires Disciplined(q) && |to| == |q| && forall i | 0 <= i < |q| :: Tame(q[i], to[i])
    ensures Disciplined(to)
  {
    forall i, k | 0 <= i < k < |to| ensures ActivePair(to[i], to[k]) {
      assert ActivePair(q[i], q[k]) && Tame(q[i], to[i]) && Tame(q[k], to[k]);
    }
    forall j | j in to ensures Plain(j) && (j.state == WORKING ==> !j.followup) {
      var k :| 0 <= k < |to| && to[k] == j;
      assert q[k] in q && Tame(q[k], to[k]);
    }
  }

  lemma TameOne(q: Queue, i: nat, j: Job)
    requires Disciplined(q) && i < |q| && Tame(q[i], j)
    ensures Disciplined(q[i := j])
  {
    forall k | 0 <= k < |q| ensures Tame(q[k], q[i := j][k]) {
      assert q[k] in q;
    }
    TameKeeps(q, q[i := j]);
  }

  lemma FilterDisciplined(q: Queue, p: Job -> bool)
    requires Disciplined(q)
    ensures Disciplined(Filter(q, p))
  {
    PairwiseFilter(q, p, ActivePair);
  }

  lemma ClaimDisciplined(q: Queue, client: string, now: int, defer: bool, eligible: Job -> bool)
    requires Disciplined(q) && Uniform(Claim(client, now, defer, eligible))
    requires ClaimIndex(q, client, defer, eligible) < |q|
    ensures var i := ClaimIndex(q, client, defer, eligible);
      Disciplined(q[i := Assign(q[i], client, now)])
  {
    var i := ClaimIndex(q, client, defer, eligible);
    var a, b := q[i], Assign(q[i], client, now);
    var to := q[i := b];
    assert a in q && Claimable(q, a, client, defer, eligible);
    if !a.followup {
      TameOne(q, i, b);
    } else {
      forall k | 0 <= k < |q| && k != i && q[k].target == a.target ensures !Primary(q[k]) && !LiveFollowup(q[k]) {
        assert q[k] in q;
        if k < i {
          assert ActivePair(q[k], q[i]);
          assert !Claimable(q, q[k], client, defer, eligible);
        } else {
          assert ActivePair(q[i], q[k]);
        }
      }
      forall k, m | 0 <= k < m < |to| ensures ActivePair(to[k], to[m]) {
        assert ActivePair(q[k], q[m]);
      }
      forall j | j in to ensures Plain(j) && (j.state == WORKING ==> !j.followup) {
        var k :| 0 <= k < |to| && to[k] == j;
        assert q[k] in q;
      }
    }
  }

  lemma CreateDisciplined(q: Queue, req: Request, id: JobId)
    requires Disciplined(q) && Uniform(Enqueue(req, id))
    requires FollowupIndex(q, req.target) < 0
    requires ActiveIndex(q, req.target) >= 0 ==> q[ActiveIndex(q, req.target)].state == WORKING
    ensures Disciplined(FreshJobs(q, req.target) + [NewJob(id, req, ActiveIndex(q, req.target) >= 0)])
  {
    var a := ActiveIndex(q, req.target);
    var kept, j := FreshJobs(q, req.target), NewJob(id, req, a >= 0);
    FilterDisciplined(q, (j: Job) => !IsStale(j, req.target));
    forall k | 0 <= k < |kept| ensures ActivePair(kept[k], j) {
      var x := kept[k];
      assert x in kept && x in q;
      if x.target == j.target {
        assert !IsStale(x, req.target) && !IsQueuedFollowup(x, req.target);
        assert a < 0 ==> !CountsAsActive(x, req.target);
      }
    }
    var to := kept + [j];
    forall i, k | 0 <= i < k < |to| ensures ActivePair(to[i], to[k]) {
      if k < |kept| { assert ActivePair(kept[i], kept[k]); }
    }
  }

  lemma SweepPair(a: Job, b: Job, va: Verdict, vb: Verdict)
    requires ActivePair(a, b) && (a.state == WORKING ==> !a.followup) && (b.state == WORKING ==> !b.followup)
    requires a.target == b.target ==> va.Eligible? == vb.Eligible?
    ensures ActivePair(SweepOne(a, va), SweepOne(b, vb))
  {}

  lemma SweepPlain(j: Job, v: Verdict)
    requires Plain(j) && (j.state == WORKING ==> !j.followup)
    ensures Plain(SweepOne(j, v)) && (SweepOne(j, v).state == WORKING ==> !SweepOne(j, v).followup)
  {}

  lemma SweepDisciplined(q: Queue, check: Job -> Verdict)
    requires Disciplined(q) && Uniform(Sweep(check))
    ensures Disciplined(SweepQueue(q, check))
  {
    hide SweepOne, Plain, ActivePair;
    var to := SweepQueue(q, check);
    forall i, k | 0 <= i < k < |to| ensures ActivePair(to[i], to[k]) {
      assert ActivePair(q[i], q[k]) && q[i] in q && q[k] in q;
      SweepPair(q[i], q[k], check(q[i]), check(q[k]));
    }
    forall j | j in to ensures Plain(j) && (j.state == WORKING ==> !j.followup) {
      var k :| 0 <= k < |to| && to[k] == j;
      assert q[k] in q;
      SweepPlain(q[k], check(q[k]));
    }
  }

  lemma CancelDisciplined(q: Queue, ids: seq<JobId>, now: int)
    requires Disciplined(q) && WellFormed(q)
    ensures Disciplined(CancelAll(q, ids, now).mem)
  {
    CancelHits(q, ids, now);
    var to := CancelAll(q, ids, now).mem;
    forall i | 0 <= i < |q| ensures Tame(q[i], to[i]) {
      assert q[i] in q;
    }
    TameKeeps(q, to);
  }

  lemma ExpireDisciplined(q: Queue, now: int, online: Option<string -> bool>)
    requires Disciplined(q)
    ensures Disciplined(ExpireQueue(q, now, online))
  {
    var to := ExpireQueue(q, now, online);
    forall i | 0 <= i < |q| ensures Tame(q[i], to[i]) {
      assert q[i] in q;
    }
    TameKeeps(q, to);
  }

  lemma RecoverDisciplined(disk: Queue)
    requires Disciplined(disk)
    ensures Disciplined(Recovered(disk))
  {
    forall i | 0 <= i < |disk| ensures Tame(disk[i], Recovered(disk)[i]) {
      assert disk[i] in disk;
    }
    TameKeeps(disk, Recovered(disk));
  }

  // ---- runs ----

  ghost predicate AllDisciplined(script: seq<Micro>) {
    forall m | m in script && m.Update? :: Disciplined(m.to)
  }

  lemma WriteDisciplined(to: Queue, claimed: Option<JobId>, hits: seq<Job>)
    requires Disciplined(to)
    ensures AllDisciplined(Write(to, claimed, hits))
  {}

  lemma EnqueueDisciplined(q: Queue, req: Request, id: JobId)
    requires Disciplined(q) && Uniform(Enqueue(req, id))
    ensures AllDisciplined(EnqueueScript(q, req, id))
  {
    var a, f := ActiveIndex(q, req.target), FollowupIndex(q, req.target);
    if 0 <= f {
      assert q[f] in q;
      TameOne(q, f, Redirect(q[f], req));
      WriteDisciplined(q[f := Redirect(q[f], req)], None, []);
    } else if a < 0 || q[a].state != PENDING {
      CreateDisciplined(q, req, id);
    }
  }

  lemma SubmitDisciplined(q: Queue, id: JobId, success: bool, ota: Option<string>, needs: bool, now: int)
    requires Disciplined(q)
    ensures AllDisciplined(SubmitScript(q, id, success, ota, needs, now))
  {
    var i := IndexOf(q, id);
    if i < |q| {
      assert q[i] in q;
      if TakesOtaPatch(q[i], ota) {
        TameOne(q, i, q[i].(ota := ota));
      } else if q[i].state == WORKING {
        TameOne(q, i, Finish(q[i], success, ota, needs, now));
      }
    }
  }

  lemma ReleaseDisciplined(q: Queue, id: JobId)
    requires Disciplined(q)
    ensures AllDisciplined(ReleaseScript(q, id))
  {
    var i := IndexOf(q, id);
    if i < |q| && q[i].state == WORKING {
      assert q[i] in q;
      TameOne(q, i, if q[i].retries + 1 >= MAX_RETRIES then q[i].(retries := q[i].retries + 1) else Requeue(q[i]));
    }
  }

  lemma PatchDisciplined(q: Queue, id: JobId, ota: string)
    requires Disciplined(q)
    ensures AllDisciplined(PatchScript(q, id, ota))
  {
    var i := IndexOf(q, id);
    if i < |q| {
      assert q[i] in q;
      TameOne(q, i, q[i].(ota := Some(ota)));
    }
  }

  lemma ScriptDisciplined(q: Queue, op: Op)
    requires Disciplined(q) && WellFormed(q) && Uniform(op)
    ensures AllDisciplined(Script(q, op))
  {
    hide Disciplined, WellFormed;
    match op
    case Enqueue(req, id) => EnqueueDisciplined(q, req, id);
    case Claim(client, now, defer, eligible) =>
      if ClaimIndex(q, client, defer, eligible) < |q| {
        ClaimDisciplined(q, client, now, defer, eligible);
      }
    case Submit(id, success, ota, needs, now) => SubmitDisciplined(q, id, success, ota, needs, now);
    case Sweep(check) => SweepDisciplined(q, check);
    case Cancel(ids, now) => CancelDisciplined(q, ids, now);
    case CheckTimeouts(now, online) => ExpireDisciplined(q, now, online);
    case Release(id) => ReleaseDisciplined(q, id);
    case PatchOta(id, result) => PatchDisciplined(q, id, result);
    case Discard(pick) => FilterDisciplined(q, (j: Job) => !(Terminal(j) && pick(j)));
    case MarkStored(_, _) =>
  }

  ghost predicate DisciplinedSys(s: Sys) {
    Disciplined(s.core.mem) && Disciplined(s.core.disk) && AllDisciplined(s.todo)
  }

  lemma DisciplinedNext(s: Sys, e: Event)
    requires Inv(s) && DisciplinedSys(s) && !e.LoseWrite? && (e.Start? ==> Uniform(e.op))
    ensures DisciplinedSys(Next(s, e))
  {
    match e
    case Start(op) =>
      if s.todo == [] && BringsNewIds(op, s.core.issued) {
        ScriptDisciplined(s.core.mem, op);
      }
    case Step =>
      if s.todo != [] { assert s.todo[0] in s.todo; }
    case Crash => RecoverDisciplined(s.core.disk);
    case LoseWrite =>
  }

  /** In every uniform run, through any crashes, each target has at most one live primary
      job, at most one live follow-up, placed behind it, and never two WORKING jobs. */
  lemma {:induction false} OneActiveOneFollowup(es: seq<Event>)
    requires UniformRun(es)
    ensures DisciplinedSys(Run(es))
    ensures Pairwise(Run(es).core.mem, WorkingPair)
  {
    if es != [] {
      var front := es[..|es| - 1];
      OneActiveOneFollowup(front);
      assert WritesSucceed(front);
      RunInv(front);
      DisciplinedNext(Run(front), es[|es| - 1]);
    }
    var q := Run(es).core.mem;
    forall i, k | 0 <= i < k < |q| ensures WorkingPair(q[i], q[k]) {
      assert ActivePair(q[i], q[k]) && q[i] in q && q[k] in q;
    }
  }

  // ---- without the discipline ----

  /** Exactly when a claim breaks "at most one WORKING job per target": when some job of
      the claimed job's target is WORKING already, which the guard tests for follow-ups only. */
  lemma ClaimKeepsOneWorkingIff(q: Queue, client: string, now: int, defer: bool, eligible: Job -> bool)
    requires Pairwise(q, WorkingPair) && ClaimIndex(q, client, defer, eligible) < |q|
    ensures var i := ClaimIndex(q, client, defer, eligible);
      && (Pairwise(q[i := Assign(q[i], client, now)], WorkingPair) <==> !WorkingOn(q, q[i].target))
      && (q[i].followup ==> Pairwise(q[i := Assign(q[i], client, now)], WorkingPair))
  {
    var i := ClaimIndex(q, client, defer, eligible);
    var to := q[i := Assign(q[i], client, now)];
    if WorkingOn(q, q[i].target) {
      var j :| j in q && j.target == q[i].target && j.state == WORKING;
      var k :| 0 <= k < |q| && q[k] == j;
      assert !WorkingPair(to[i], to[k]) && !WorkingPair(to[k], to[i]);
    } else {
      forall k, m | 0 <= k < m < |to| ensures WorkingPair(to[k], to[m]) {
        assert WorkingPair(q[k], q[m]) && q[k] in q && q[m] in q;
      }
    }
  }
}
