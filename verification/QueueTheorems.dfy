/** What holds of every run of the queue, over all operations, crashes and restarts.
    Except where a counterexample says otherwise, queue.json writes succeed. */
module QueueTheorems {
  import opened Common
  import opened Jobs
  import opened QueueOps
  import opened QueueInvariants
  import opened QueueMachine
  import opened QueueScripts
  import opened QueueReplace

  // ---- the invariant is inductive ----

  lemma BeginKeepsReady(c: Core, op: Op)
    requires Ready(c) && BringsNewIds(op, c.issued)
    ensures Ready(Begin(c, op))
  {
    hide Pairwise, Coherent, MemBound, DiskBound, SameVerdict, InSync, Count;
  }

  lemma StartSound(c: Core, op: Op)
    requires Ready(c) && BringsNewIds(op, c.issued)
    ensures Sound(Begin(c, op), Script(c.mem, op))
  {
    hide Ready, Sound, Base, StepsOk, Play, Settled;
    BeginKeepsReady(c, op);
    var b := Begin(c, op);
    match op
    case Enqueue(req, id) => EnqueueSound(b, req, id);
    case Claim(client, now, defer, eligible) => ClaimSound(b, client, now, defer, eligible);
    case Submit(id, success, ota, needs, now) => SubmitSound(b, id, success, ota, needs, now);
    case Sweep(check) => SweepSound(b, check);
    case Cancel(ids, now) => CancelSound(b, ids, now);
    case CheckTimeouts(now, online) => TimeoutSound(b, now, online);
    case Release(id) => ReleaseSound(b, id);
    case Retry(ids, newIds, versionFor, timeout) => RetrySound(b, ids, newIds, versionFor, timeout);
    case PatchOta(id, result) => PatchSound(b, id, result);
    case Discard(pick) => DiscardSound(b, pick);
    case MarkStored(id, force) => MarkSound(b, id, force);
  }

  lemma NextKeepsInv(s: Sys, e: Event)
    requires Inv(s) && !e.LoseWrite?
    ensures Inv(Next(s, e))
  {
    match e
    case Start(op) =>
      if s.todo == [] && BringsNewIds(op, s.core.issued) {
        StartSound(s.core, op);
        BeginKeepsReady(s.core, op);
      }
    case Step =>
      if s.todo != [] {
        StepKeepsBase(s.core, s.todo[0]);
      }
    case Crash =>
      RestartKeepsBase(s.core, s.todo == []);
      RecoverySound(s.core, s.todo == []);
    case LoseWrite =>
  }

  lemma {:induction false} RunKeepsInv(s: Sys, es: seq<Event>)
    requires Inv(s) && WritesSucceed(es)
    ensures Inv(RunFrom(s, es))
  {
    if es != [] {
      RunKeepsInv(s, es[..|es| - 1]);
      NextKeepsInv(RunFrom(s, es[..|es| - 1]), es[|es| - 1]);
    }
  }

  lemma RunInv(es: seq<Event>)
    requires WritesSucceed(es)
    ensures Inv(Run(es))
  {
    var start := Sys(EMPTY, []);
    assert Base(EMPTY) && Settled(EMPTY);
    assert Inv(start);
    RunKeepsInv(start, es);
  }

  lemma {:induction false} RunSplit(s: Sys, es: seq<Event>, more: seq<Event>)
    ensures RunFrom(s, es + more) == RunFrom(RunFrom(s, es), more)
  {
    if more == [] {
      assert es + more == es;
    } else {
      var n := |more| - 1;
      RunSplit(s, es, more[..n]);
      assert (es + more)[..|es + more| - 1] == es + more[..n];
    }
  }

  // ---- an operation from its start to its end ----

  function Steps(n: nat): seq<Event> { seq(n, i requires 0 <= i < n => Step) }

  /** Letting the machine step through what is left of an operation is playing it. */
  lemma {:induction false} RunsToEnd(s: Sys)
    ensures RunFrom(s, Steps(|s.todo|)) == Sys(Play(s.core, s.todo), [])
    decreases |s.todo|
  {
    hide Apply;
    if s.todo != [] {
      var n := |s.todo|;
      RunsToEnd(Next(s, Step));
      assert Steps(n) == [Step] + Steps(n - 1);
      RunSplit(s, [Step], Steps(n - 1));
      assert [Step][..0] == [];
      assert RunFrom(s, [Step]) == Next(s, Step);
    }
  }

  /** The events of an operation that no crash interrupts and whose writes succeed. */
  function Whole(q: Queue, op: Op): seq<Event>
    requires op.Retry? ==> |op.ids| == |op.newIds|
  {
    [Start(op)] + Steps(|Script(q, op)|)
  }

  lemma WholeRun(s: Sys, op: Op)
    requires s.todo == [] && BringsNewIds(op, s.core.issued)
    ensures WritesSucceed(Whole(s.core.mem, op))
    ensures RunFrom(s, Whole(s.core.mem, op)) == Sys(Play(Begin(s.core, op), Script(s.core.mem, op)), [])
  {
    var started := Sys(Begin(s.core, op), Script(s.core.mem, op));
    hide Script, Play, BringsNewIds;
    RunSplit(s, [Start(op)], Steps(|started.todo|));
    assert [Start(op)][..0] == [];
    assert RunFrom(s, [Start(op)]) == Next(s, Start(op));
    RunsToEnd(started);
  }

  // ---- 1. verdicts survive crashes ----

  /** Every history row's job is on disk, and in memory, in that same finished state, or absent. */
  lemma HistoryMatchesDisk(es: seq<Event>)
    requires WritesSucceed(es)
    ensures var c := Run(es).core;
      forall j | (j in c.disk || j in c.mem) && j.id in c.hist ::
        Terminal(j) && c.hist[j.id].state == j.state && c.hist[j.id].finishedAt == j.finishedAt
  {
    RunInv(es);
  }

  ghost predicate RowStands(c: Core, id: JobId, state: JobState) {
    id in c.hist && c.hist[id].state == state
  }

  lemma RowStandsNext(s: Sys, e: Event, id: JobId, state: JobState)
    requires Inv(s) && !e.LoseWrite? && RowStands(s.core, id, state)
    ensures RowStands(Next(s, e).core, id, state)
  {
    if e.Step? && s.todo != [] && s.todo[0].Record? {
      var j := s.todo[0].job;
      assert StepOk(s.core, Record(j));
      if Terminal(j) && j.id == id {
        var d :| d in s.core.disk && d.id == id;
        assert SameVerdict(j, d);
      }
    }
  }

  lemma RowStandsStep(es: seq<Event>, e: Event, id: JobId, state: JobState)
    requires WritesSucceed(es) && !e.LoseWrite? && RowStands(Run(es).core, id, state)
    ensures RowStands(Run(es + [e]).core, id, state)
  {
    hide Inv, Next, RowStands;
    RunInv(es);
    RunSplit(Sys(EMPTY, []), es, [e]);
    assert RunFrom(Run(es), [e]) == Next(Run(es), e) by {
      assert [e][..0] == [];
    }
    RowStandsNext(Run(es), e, id, state);
  }

  /** No job id ever gets two different final states in history, whatever crashes. */
  lemma {:induction false} VerdictIsFinal(es: seq<Event>, more: seq<Event>, id: JobId)
    requires WritesSucceed(es) && WritesSucceed(more) && id in Run(es).core.hist
    ensures RowStands(Run(es + more).core, id, Run(es).core.hist[id].state)
  {
    if more == [] {
      assert es + more == es;
    } else {
      var n := |more| - 1;
      hide Inv, Next, Run;
      VerdictIsFinal(es, more[..n], id);
      assert more[n] in more && es + more == (es + more[..n]) + [more[n]];
      RowStandsStep(es + more[..n], more[n], id, Run(es).core.hist[id].state);
    }
  }

  // ---- 2. finished jobs stay as they are ----

  /** No job with this id is, or will be, in another state than this one. */
  ghost predicate Fixed(c: Core, j: Job, crashes: bool) {
    && j.id in c.issued && j.id !in c.pending
    && (forall x | x in c.mem && x.id == j.id :: SameVerdict(j, x))
    && (crashes ==> forall x | x in c.disk && x.id == j.id :: SameVerdict(j, x))
  }

  lemma FixedUpdate(c: Core, u: Micro, j: Job, crashes: bool)
    requires u.Update? && StepOk(c, u) && Fixed(c, j, crashes)
    ensures Fixed(Apply(c, u), j, crashes)
  {
    forall x | x in u.to && x.id == j.id ensures SameVerdict(j, x) {
      assert x.id in Ids(u.to);
      var a :| a in c.mem && a.id == j.id;
      assert JobStep(a, x, u.claimed);
    }
  }

  lemma FixedNext(s: Sys, e: Event, j: Job, crashes: bool)
    requires Inv(s) && !e.LoseWrite? && (e.Crash? ==> crashes) && Fixed(s.core, j, crashes)
    ensures Fixed(Next(s, e).core, j, crashes)
  {
    hide Recovered, Base, Settled, SameVerdict;
    if e.Step? && s.todo != [] && s.todo[0].Update? {
      FixedUpdate(s.core, s.todo[0], j, crashes);
    }
    if e.Crash? {
      forall x | x in Recovered(s.core.disk) && x.id == j.id ensures SameVerdict(j, x) {
        RecoveredFrom(s.core.disk, x);
        var d :| d in s.core.disk && x == RecoverOne(d) && x.id == d.id;
        RecoverKeepsVerdict(j, d);
      }
    }
  }

  lemma RecoverKeepsVerdict(j: Job, d: Job)
    requires SameVerdict(j, d)
    ensures SameVerdict(j, RecoverOne(d))
  {}

  lemma {:induction false} FixedRun(s: Sys, more: seq<Event>, j: Job, crashes: bool)
    requires Inv(s) && WritesSucceed(more) && Fixed(s.core, j, crashes)
    requires !crashes ==> forall e | e in more :: !e.Crash?
    ensures Fixed(RunFrom(s, more).core, j, crashes)
  {
    hide Inv, Next, Fixed;
    if more != [] {
      var n := |more| - 1;
      FixedRun(s, more[..n], j, crashes);
      RunKeepsInv(s, more[..n]);
      FixedNext(RunFrom(s, more[..n]), more[n], j, crashes);
    }
  }

  /** A finished job keeps its state and finish time for as long as it exists, and an id
      that left the queue never comes back as something else. Once queue.json has it, not
      even crashes can change it; before that, only a crash can. */
  lemma FinishedIsFinal(es: seq<Event>, more: seq<Event>, j: Job)
    requires WritesSucceed(es) && WritesSucceed(more) && Terminal(j)
    ensures j in Run(es).core.disk ==>
      forall x | (x in Run(es + more).core.mem || x in Run(es + more).core.disk) && x.id == j.id :: SameVerdict(j, x)
    ensures j in Run(es).core.mem && (forall e | e in more :: !e.Crash?) ==>
      forall x | x in Run(es + more).core.mem && x.id == j.id :: SameVerdict(j, x)
  {
    RunInv(es);
    RunSplit(Sys(EMPTY, []), es, more);
    var s := Run(es);
    var c := s.core;
    if j in c.disk {
      assert j.id in Ids(c.disk);
      forall x | x in c.disk && x.id == j.id ensures SameVerdict(j, x) {
        SameJob(c.disk, x, j);
      }
      FixedRun(s, more, j, true);
    }
    if j in c.mem && forall e | e in more :: !e.Crash? {
      assert j.id in Ids(c.mem);
      forall x | x in c.mem && x.id == j.id ensures SameVerdict(j, x) {
        SameJob(c.mem, x, j);
      }
      FixedRun(s, more, j, false);
    }
  }

  // ---- 3. history and queue agree ----

  /** If no crash hit a running operation, then between operations every finished job in
      the queue has a history row with the same state, finish time and OTA result. */
  lemma HistoryAgreesWithQueue(es: seq<Event>)
    requires WritesSucceed(es) && Run(es).todo == [] && Run(es).core.clean
    ensures HistoryAgrees(Run(es).core)
  {
    RunInv(es);
  }

  /** Even after crashes, a step of enqueue or retry that drops a finished job finds its
      row already written. Only an explicit clear, remove or prune drops without one. */
  lemma EvictionIsRecorded(es: seq<Event>, j: Job)
    requires WritesSucceed(es)
    requires var s := Run(es); s.todo != [] && s.todo[0].Update? && !s.todo[0].discards
    requires j in Run(es).core.mem && Terminal(j) && j.id !in Ids(Run(es + [Step]).core.mem)
    ensures j.id in Run(es).core.hist && Run(es).core.hist[j.id] == RowOf(j)
  {
    RunInv(es);
    assert (es + [Step])[..|es + [Step]| - 1] == es;
    assert StepOk(Run(es).core, Run(es).todo[0]);
  }

  // ---- 4. claims of follow-ups ----

  predicate ClaimsNothing(m: Micro) { m.Update? ==> m.claimed == None }

  /** A job is handed out only in the first step of an operation, and a flagged one only
      if no job of its target is WORKING. */
  ghost predicate ClaimsFirst(q: Queue, script: seq<Micro>) {
    && (forall k | 0 < k < |script| :: ClaimsNothing(script[k]))
    && (script != [] && script[0].Update? && script[0].claimed.Some? ==>
          forall j | j in q && j.id == script[0].claimed.value && j.followup :: !WorkingOn(q, j.target))
  }

  lemma {:induction false} RetryClaimsNothing(
    q: Queue, ids: seq<JobId>, newIds: seq<JobId>, versionFor: string -> string, timeout: int)
    requires |ids| == |newIds|
    ensures forall m | m in RetryAll(q, ids, newIds, versionFor, timeout).script :: ClaimsNothing(m)
  {
    if ids != [] {
      var n := |ids| - 1;
      RetryClaimsNothing(q, ids[..n], newIds[..n], versionFor, timeout);
      hide FinishedOf, UnfinishedOf, RetryJob, Records;
    }
  }

  lemma ClaimClaimsFirst(q: Queue, client: string, now: int, defer: bool, eligible: Job -> bool)
    requires Pairwise(q, DistinctPair)
    ensures ClaimsFirst(q, ClaimScript(q, client, now, defer, eligible))
  {
    var i := ClaimIndex(q, client, defer, eligible);
    if i < |q| {
      forall j | j in q && j.id == q[i].id ensures j == q[i] {
        SameJob(q, j, q[i]);
      }
      hide Assign;
    }
  }

  lemma NoClaimsAtAll(q: Queue, script: seq<Micro>)
    requires forall m | m in script :: ClaimsNothing(m)
    ensures ClaimsFirst(q, script)
  {
    forall k | 0 <= k < |script| ensures ClaimsNothing(script[k]) {
      assert script[k] in script;
    }
  }

  lemma ScriptClaimsFirst(q: Queue, op: Op)
    requires Pairwise(q, DistinctPair) && (op.Retry? ==> |op.ids| == |op.newIds|)
    ensures ClaimsFirst(q, Script(q, op))
  {
    hide ClaimsFirst, ClaimScript, Pairwise;
    match op
    case Claim(client, now, defer, eligible) => ClaimClaimsFirst(q, client, now, defer, eligible);
    case Retry(ids, newIds, versionFor, timeout) =>
      RetryClaimsNothing(q, ids, newIds, versionFor, timeout);
      hide RetryAll;
      NoClaimsAtAll(q, Script(q, op));
    case _ =>
      OthersClaimNothing(q, op);
      hide Script;
      NoClaimsAtAll(q, Script(q, op));
  }

  lemma OthersClaimNothing(q: Queue, op: Op)
    requires !op.Claim? && !op.Retry?
    ensures forall m | m in Script(q, op) :: ClaimsNothing(m)
  {
    hide FreshJobs, StaleJobs, NewJob, Redirect, Finish, Requeue, SweepQueue, ExpireQueue, FailedJobs, Kept, CancelAll;
  }

  lemma {:induction false} RunClaimsFirst(es: seq<Event>)
    requires WritesSucceed(es)
    ensures ClaimsFirst(Run(es).core.mem, Run(es).todo)
  {
    if es != [] {
      var front, e := es[..|es| - 1], es[|es| - 1];
      RunClaimsFirst(front);
      RunInv(front);
      NextClaimsFirst(Run(front), e);
    }
  }

  lemma NextClaimsFirst(s: Sys, e: Event)
    requires Inv(s) && ClaimsFirst(s.core.mem, s.todo) && !e.LoseWrite?
    ensures ClaimsFirst(Next(s, e).core.mem, Next(s, e).todo)
  {
    hide Settled, Play, StepsOk, Verdicts, Bounds, Script;
    if e.Start? && s.todo == [] && BringsNewIds(e.op, s.core.issued) {
      ScriptClaimsFirst(s.core.mem, e.op);
    }
  }

  /** In every reachable state: the step that turns a job flagged as a follow-up WORKING is
      taken only while no job of its target is WORKING. */
  lemma FollowupWaitsForItsPredecessor(es: seq<Event>, j: Job)
    requires WritesSucceed(es)
    requires var s := Run(es);
      s.todo != [] && s.todo[0].Update? && s.todo[0].claimed == Some(j.id) && j in s.core.mem && j.followup
    ensures forall x | x in Run(es).core.mem && x.target == j.target :: x.state != WORKING
  {
    RunClaimsFirst(es);
  }
}
