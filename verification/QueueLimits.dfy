/** Where the queue's promises stop: tight bounds and concrete runs. */
module QueueLimits {
  import opened Common
  import opened Routing
  import opened Jobs
  import opened QueueOps
  import opened QueueMachine
  import opened QueueMeaning
  import opened Eligibility
  import opened OneActive

  const R := Request("kitchen", "2026.4", 600, false, false, None, None, false)

  // ---- stepping through a run ----

  lemma Then(s: Sys, es: seq<Event>, e: Event)
    ensures RunFrom(s, es + [e]) == Next(RunFrom(s, es), e)
  {
    assert (es + [e])[..|es|] == es;
  }

  /** An operation that only updates and persists, run to its end. */
  lemma Completes(es: seq<Event>, op: Op, to: Queue, claimed: Option<JobId>)
    requires var s := Run(es);
      && s.todo == [] && BringsNewIds(op, s.core.issued)
      && Script(s.core.mem, op) == Write(to, claimed, [])
    ensures Run(es + [Start(op)] + [Step] + [Step])
      == Sys(Apply(Apply(Begin(Run(es).core, op), Update(to, claimed, false)), Persist), [])
  {
    var s0 := Sys(EMPTY, []);
    Then(s0, es, Start(op));
    Then(s0, es + [Start(op)], Step);
    Then(s0, es + [Start(op)] + [Step], Step);
    assert Write(to, claimed, []) == [Update(to, claimed, false), Persist];
    assert [Update(to, claimed, false), Persist][1..] == [Persist];
  }

  function Anyone(): Job -> bool { (j: Job) => true }

  function DoClaim(now: int): Op { Claim("w", now, false, Anyone()) }

  /** One job in the queue and on disk, nothing running. */
  ghost predicate Holds(s: Sys, j: Job, claims: nat, restarts: nat) {
    && s.todo == [] && s.core.mem == [j] && s.core.disk == [j] && j.id == 0
    && 0 in s.core.issued && Count(s.core.claims, 0) == claims && s.core.restarts == restarts
  }

  lemma ClaimIt(es: seq<Event>, j: Job, claims: nat, restarts: nat)
    requires Run(es).todo == [] && Run(es).core.mem == [j] && j.id == 0 && 0 in Run(es).core.issued
    requires Count(Run(es).core.claims, 0) == claims && Run(es).core.restarts == restarts
    requires j.state == PENDING && !j.followup && !IsPinned(j)
    ensures Holds(Run(es + [Start(DoClaim(0))] + [Step] + [Step]), Assign(j, "w", 0), claims + 1, restarts)
  {
    assert [j][0] in [j] && Claimable([j], j, "w", false, Anyone());
    assert ClaimIndex([j], "w", false, Anyone()) == 0;
    assert [j][0 := Assign(j, "w", 0)] == [Assign(j, "w", 0)];
    Completes(es, DoClaim(0), [Assign(j, "w", 0)], Some(0));
  }

  lemma NoneFailed(q: Queue, j: Job, now: int)
    requires j in q && Expired(j, now, None)
    requires forall x | x in q && x.state == WORKING :: x.retries + 1 < MAX_RETRIES
    ensures Affected(q, now, None) != [] && FailedJobs(q, now, None) == []
  {
    var hits, all := ExpiredJobs(q, now, None), Affected(q, now, None);
    assert j in hits;
    forall x | x in all ensures x.state != FAILED {
      var k :| 0 <= k < |all| && all[k] == x;
      assert hits[k] in hits;
    }
    FilterNone(all, (x: Job) => x.state == FAILED);
  }

  lemma TimeOutIt(es: seq<Event>, j: Job, claims: nat, restarts: nat)
    requires Holds(Run(es), j, claims, restarts)
    requires j.state == WORKING && j.assignedAt == Some(0) && j.timeout == 600 && j.retries + 1 < MAX_RETRIES
    ensures Holds(Run(es + [Start(CheckTimeouts(600, None))] + [Step] + [Step]), Requeue(j), claims, restarts)
  {
    var op := CheckTimeouts(600, None);
    assert Expired(j, 600, None) && j in [j];
    assert ExpireQueue([j], 600, None) == [Requeue(j)];
    NoneFailed([j], j, 600);
    Completes(es, op, [Requeue(j)], None);
  }

  lemma EnqueueIt()
    ensures var es := [] + [Start(Enqueue(R, 0))] + [Step] + [Step];
      Holds(Run(es), NewJob(0, R, false), 0, 0)
  {
    var j, op := NewJob(0, R, false), Enqueue(R, 0);
    assert FreshJobs([], R.target) == [] && StaleJobs([], R.target) == [];
    assert [] + [j] == [j] && Records([]) == [];
    assert Swap([], [], j) == [Update([j], None, false)];
    assert Swap([], [], j) + [Persist] == Write([j], None, []);
    Completes([], op, [j], None);
  }

  lemma StartTight() returns (es: seq<Event>, j: Job)
    ensures WritesSucceed(es)
    ensures Holds(Run(es), j, MAX_RETRIES, 0) && j.state == WORKING && !j.followup && !IsPinned(j)
  {
    EnqueueIt();
    es := [] + [Start(Enqueue(R, 0))] + [Step] + [Step];
    j := NewJob(0, R, false);
    ClaimIt(es, j, 0, 0);
    es, j := es + [Start(DoClaim(0))] + [Step] + [Step], Assign(j, "w", 0);
    TimeOutIt(es, j, 1, 0);
    es, j := es + [Start(CheckTimeouts(600, None))] + [Step] + [Step], Requeue(j);
    ClaimIt(es, j, 1, 0);
    es, j := es + [Start(DoClaim(0))] + [Step] + [Step], Assign(j, "w", 0);
    TimeOutIt(es, j, 2, 0);
    es, j := es + [Start(CheckTimeouts(600, None))] + [Step] + [Step], Requeue(j);
    ClaimIt(es, j, 2, 0);
    es, j := es + [Start(DoClaim(0))] + [Step] + [Step], Assign(j, "w", 0);
  }

  lemma CrashIt(es: seq<Event>, j: Job)
    requires Run(es).todo == [] && Run(es).core.disk == [j] && j.state != SUCCESS
    ensures var s := Run(es + [Crash]);
      && s.todo == [] && s.core.mem == [RecoverOne(j)] && s.core.restarts == Run(es).core.restarts + 1
      && s.core.issued == Run(es).core.issued && s.core.claims == Run(es).core.claims
      && s.core.hist == Run(es).core.hist
  {
    Then(Sys(EMPTY, []), es, Crash);
    assert Recovered([j]) == [RecoverOne(j)];
    FilterNone([j], (x: Job) => Stranded(x));
    assert StrandedJobs([j]) == [] && RecoveryScript([j]) == [];
  }

  /** The bound of BoundedExecution is reached for every number of restarts. */
  lemma {:induction false} ExecutionBoundIsTight(restarts: nat) returns (es: seq<Event>, j: Job)
    ensures WritesSucceed(es)
    ensures Holds(Run(es), j, MAX_RETRIES + restarts, restarts)
    ensures j.state == WORKING && !j.followup && !IsPinned(j)
    decreases restarts
  {
    if restarts == 0 {
      es, j := StartTight();
    } else {
      es, j := ExecutionBoundIsTight(restarts - 1);
      CrashIt(es, j);
      ClaimIt(es + [Crash], RecoverOne(j), MAX_RETRIES + restarts - 1, restarts);
      es, j := es + [Crash] + [Start(DoClaim(0))] + [Step] + [Step], Assign(RecoverOne(j), "w", 0);
    }
  }

  // ---- when no write arrives ----

  /** One job in the queue, in queue.json as it was when it was enqueued, nothing running. */
  ghost predicate Unsaved(s: Sys, j: Job, claims: nat, restarts: nat) {
    && s.todo == [] && s.core.mem == [j] && s.core.disk == [NewJob(0, R, false)] && j.id == 0
    && 0 in s.core.issued && Count(s.core.claims, 0) == claims && s.core.restarts == restarts
  }

  /** The events of an operation that updates, and whose save fails. */
  function Failing(op: Op): seq<Event> { [Start(op)] + [Step] + [LoseWrite] }

  lemma CompletesUnsaved(es: seq<Event>, op: Op, to: Queue, claimed: Option<JobId>)
    requires var s := Run(es);
      && s.todo == [] && BringsNewIds(op, s.core.issued)
      && Script(s.core.mem, op) == Write(to, claimed, [])
    ensures Run(es + Failing(op)) == Sys(Apply(Begin(Run(es).core, op), Update(to, claimed, false)), [])
  {
    hide Next, Apply, Run, RunFrom, Script, BringsNewIds;
    assert Write(to, claimed, []) == [Update(to, claimed, false), Persist];
    StartOnce(es, op);
    StepOnce(es + [Start(op)], Update(to, claimed, false), [Persist], Step);
    StepOnce(es + [Start(op)] + [Step], Persist, [], LoseWrite);
    assert es + Failing(op) == es + [Start(op)] + [Step] + [LoseWrite];
  }

  lemma ClaimUnsaved(es: seq<Event>, j: Job, claims: nat, restarts: nat)
    requires Unsaved(Run(es), j, claims, restarts) && j.state == PENDING && !j.followup && !IsPinned(j)
    ensures Unsaved(Run(es + Failing(DoClaim(0))), Assign(j, "w", 0), claims + 1, restarts)
  {
    assert [j][0] in [j] && Claimable([j], j, "w", false, Anyone());
    assert ClaimIndex([j], "w", false, Anyone()) == 0;
    assert [j][0 := Assign(j, "w", 0)] == [Assign(j, "w", 0)];
    CompletesUnsaved(es, DoClaim(0), [Assign(j, "w", 0)], Some(0));
  }

  lemma TimeOutUnsaved(es: seq<Event>, j: Job, claims: nat, restarts: nat)
    requires Unsaved(Run(es), j, claims, restarts)
    requires j.state == WORKING && j.assignedAt == Some(0) && j.timeout == 600 && j.retries + 1 < MAX_RETRIES
    ensures Unsaved(Run(es + Failing(CheckTimeouts(600, None))), Requeue(j), claims, restarts)
  {
    assert Expired(j, 600, None) && j in [j];
    assert ExpireQueue([j], 600, None) == [Requeue(j)];
    NoneFailed([j], j, 600);
    CompletesUnsaved(es, CheckTimeouts(600, None), [Requeue(j)], None);
  }

  /** Between two restarts the job is handed out MAX_RETRIES times, and queue.json never
      learns of it. */
  lemma ThreeClaims(es: seq<Event>, claims: nat, restarts: nat) returns (more: seq<Event>, j: Job)
    requires Unsaved(Run(es), NewJob(0, R, false), claims, restarts)
    ensures Unsaved(Run(more), j, claims + MAX_RETRIES, restarts)
  {
    hide Run, Unsaved;
    more, j := es, NewJob(0, R, false);
    ClaimUnsaved(more, j, claims, restarts);
    more, j := more + Failing(DoClaim(0)), Assign(j, "w", 0);
    TimeOutUnsaved(more, j, claims + 1, restarts);
    more, j := more + Failing(CheckTimeouts(600, None)), Requeue(j);
    ClaimUnsaved(more, j, claims + 1, restarts);
    more, j := more + Failing(DoClaim(0)), Assign(j, "w", 0);
    TimeOutUnsaved(more, j, claims + 2, restarts);
    more, j := more + Failing(CheckTimeouts(600, None)), Requeue(j);
    ClaimUnsaved(more, j, claims + 2, restarts);
    more, j := more + Failing(DoClaim(0)), Assign(j, "w", 0);
  }

  /** The bound of ExecutionInAnyRun is reached for every number of restarts. */
  lemma {:induction false} LossyBoundIsTight(restarts: nat) returns (es: seq<Event>, j: Job)
    ensures Count(Run(es).core.claims, 0) == MAX_RETRIES * (restarts + 1) && Run(es).core.restarts == restarts
    ensures Unsaved(Run(es), j, MAX_RETRIES * (restarts + 1), restarts)
    decreases restarts
  {
    if restarts == 0 {
      EnqueueIt();
      es, j := ThreeClaims([] + [Start(Enqueue(R, 0))] + [Step] + [Step], 0, 0);
    } else {
      es, j := LossyBoundIsTight(restarts - 1);
      CrashIt(es, NewJob(0, R, false));
      es, j := ThreeClaims(es + [Crash], MAX_RETRIES * restarts, restarts);
    }
  }

  // ---- a lost queue.json write ----

  lemma FiveSteps(es: seq<Event>, op: Op, j: Job, persist: Event)
    requires Run(es).todo == [] && op.Submit? && persist in {Step, LoseWrite}
    requires Script(Run(es).core.mem, op) == Write([j], None, [j]) + [Ack(j.id)]
    ensures var c := Apply(Begin(Run(es).core, op), Update([j], None, false));
      Run(es + [Start(op)] + [Step] + [persist] + [Step] + [Step])
        == Sys(Apply(Apply(if persist == Step then Apply(c, Persist) else c, Record(j)), Ack(j.id)), [])
  {
    hide Next, Apply, Run, RunFrom;
    var u := Update([j], None, false);
    assert Records([j]) == [Record(j)];
    assert Script(Run(es).core.mem, op) == [u, Persist, Record(j), Ack(j.id)];
    StartOnce(es, op);
    StepOnce(es + [Start(op)], u, [Persist, Record(j), Ack(j.id)], Step);
    StepOnce(es + [Start(op)] + [Step], Persist, [Record(j), Ack(j.id)], persist);
    StepOnce(es + [Start(op)] + [Step] + [persist], Record(j), [Ack(j.id)], Step);
    StepOnce(es + [Start(op)] + [Step] + [persist] + [Step], Ack(j.id), [], Step);
  }

  lemma StartOnce(es: seq<Event>, op: Op)
    requires Run(es).todo == [] && BringsNewIds(op, Run(es).core.issued)
    ensures Run(es + [Start(op)]) == Sys(Begin(Run(es).core, op), Script(Run(es).core.mem, op))
  {
    Then(Sys(EMPTY, []), es, Start(op));
  }

  lemma StepOnce(es: seq<Event>, m: Micro, rest: seq<Micro>, e: Event)
    requires Run(es).todo == [m] + rest && (e == Step || (e == LoseWrite && m == Persist))
    ensures Run(es + [e]) == Sys(if e == Step then Apply(Run(es).core, m) else Run(es).core, rest)
  {
    Then(Sys(EMPTY, []), es, e);
    assert ([m] + rest)[1..] == rest;
  }

  function DoSubmit(success: bool): Op { Submit(0, success, None, false, 1) }

  lemma SubmitIt(q: Queue, j: Job, success: bool)
    requires q == [j] && j.id == 0 && j.state == WORKING
    ensures var k := Finish(j, success, None, false, 1);
      Script(q, DoSubmit(success)) == Write([k], None, [k]) + [Ack(0)]
  {
    assert IndexOf(q, 0) == 0;
    assert q[0 := Finish(j, success, None, false, 1)] == [Finish(j, success, None, false, 1)];
  }

  /** A failed compile whose queue.json write is lost: disk still says WORKING. */
  lemma LoseTheWrite() returns (es: seq<Event>, j: Job)
    ensures !WritesSucceed(es)
    ensures Run(es).todo == [] && Run(es).core.disk == [j] && j.id == 0 && 0 in Run(es).core.issued
    ensures j.state == WORKING && !j.followup && !IsPinned(j)
    ensures 0 in Run(es).core.hist && Run(es).core.hist[0].state == FAILED
  {
    EnqueueIt();
    es := [] + [Start(Enqueue(R, 0))] + [Step] + [Step];
    ClaimIt(es, NewJob(0, R, false), 0, 0);
    es := es + [Start(DoClaim(0))] + [Step] + [Step];
    j := Assign(NewJob(0, R, false), "w", 0);
    SubmitIt([j], j, false);
    FiveSteps(es, DoSubmit(false), Finish(j, false, None, false, 1), LoseWrite);
    es := es + [Start(DoSubmit(false))] + [Step] + [LoseWrite] + [Step] + [Step];
    assert LoseWrite in es;
  }

  /** After the crash the job runs again, and this time it succeeds. */
  lemma RunItAgain(es: seq<Event>, j: Job) returns (more: seq<Event>)
    requires Run(es).todo == [] && Run(es).core.disk == [j] && j.id == 0 && 0 in Run(es).core.issued
    requires j.state == WORKING && !j.followup && !IsPinned(j)
    ensures WritesSucceed(more)
    ensures 0 in Run(es + more).core.hist && Run(es + more).core.hist[0].state == SUCCESS
  {
    hide Next, Script, RunFrom, BringsNewIds;
    CrashIt(es, j);
    var c := Run(es + [Crash]).core;
    ClaimIt(es + [Crash], RecoverOne(j), Count(c.claims, 0), c.restarts);
    var k := Assign(RecoverOne(j), "w", 0);
    var claimed := es + [Crash] + [Start(DoClaim(0))] + [Step] + [Step];
    SubmitIt([k], k, true);
    FiveSteps(claimed, DoSubmit(true), Finish(k, true, None, false, 1), Step);
    more := [Crash, Start(DoClaim(0)), Step, Step, Start(DoSubmit(true)), Step, Step, Step, Step];
    assert es + more == claimed + [Start(DoSubmit(true))] + [Step] + [Step] + [Step] + [Step];
  }

  /** Why WritesSucceed is needed: a queue.json write that fails (it is logged, and the
      history row is written all the same) followed by a crash gives one job two verdicts. */
  lemma LostWriteSplitsVerdict() returns (es: seq<Event>, more: seq<Event>)
    ensures !WritesSucceed(es) && WritesSucceed(more)
    ensures 0 in Run(es).core.hist && Run(es).core.hist[0].state == FAILED
    ensures 0 in Run(es + more).core.hist && Run(es + more).core.hist[0].state == SUCCESS
  {
    var j;
    es, j := LoseTheWrite();
    more := RunItAgain(es, j);
  }

  // ---- two running jobs of one target ----

  lemma AfterClaim(q: Queue, i: nat, client: string, takes: Job -> bool)
    requires ClaimIndex(q, client, false, takes) == i < |q|
    ensures After(q, Claim(client, 0, false, takes)) == q[i := Assign(q[i], client, 0)]
  {
    AfterWrite(EMPTY.(mem := q), q[i := Assign(q[i], client, 0)], Some(q[i].id));
  }

  lemma AfterEnqueue(q: Queue, req: Request, id: JobId, followup: bool)
    requires forall j | j in q :: !Terminal(j) && j.state != BLOCKED
    requires req.validateOnly || (FollowupIndex(q, req.target) < 0
      && (ActiveIndex(q, req.target) >= 0 ==> q[ActiveIndex(q, req.target)].state == WORKING))
    requires var a := ActiveIndex(q, req.target);
      followup == (a >= 0 && q[a].state == WORKING && !req.validateOnly)
    ensures After(q, Enqueue(req, id)) == q + [NewJob(id, req, followup)]
  {
    FilterNone(q, (j: Job) => IsStale(j, req.target));
    FilterAll(q, (j: Job) => !IsStale(j, req.target));
    var j := NewJob(id, req, followup);
    assert Records([]) == [];
    assert Swap(q, [], j) + [Persist] == Write(q + [j], None, []);
    AfterWrite(EMPTY.(mem := q), q + [j], None);
  }

  /** A job of a request, handed to the worker that takes it. */
  function Running(id: JobId, req: Request, followup: bool, client: string): Job {
    Assign(NewJob(id, req, followup), client, 0)
  }

  /** A second request while the job of the first one runs: a follow-up, or a job beside it. */
  lemma TwoRequests(first: Request, second: Request, takes: Job -> bool)
    requires first.target == second.target && !first.validateOnly
    requires var j := NewJob(0, first, false); !PinnedElsewhere(j, "w") && (IsPinned(j) || takes(j))
    ensures var q1 := After([], Enqueue(first, 0));
      var q2 := After(q1, Claim("w", 0, false, takes));
      After(q2, Enqueue(second, 1)) == [Running(0, first, false, "w"), NewJob(1, second, !second.validateOnly)]
  {
    hide After, Script;
    var a, w := NewJob(0, first, false), Running(0, first, false, "w");
    AfterEnqueue([], first, 0, false);
    assert [] + [a] == [a];
    assert Claimable([a], [a][0], "w", false, takes);
    AfterClaim([a], 0, "w", takes);
    assert [a][0 := w] == [w];
    AfterEnqueue([w], second, 1, !second.validateOnly);
    assert [w] + [NewJob(1, second, !second.validateOnly)] == [w, NewJob(1, second, !second.validateOnly)];
  }

  lemma ClaimSecond(w: Job, b: Job, takes: Job -> bool)
    requires w.state == WORKING && b.state == PENDING && !b.followup && b.target == w.target
    requires !PinnedElsewhere(b, "x") && (IsPinned(b) || takes(b))
    ensures !Pairwise(After([w, b], Claim("x", 0, false, takes)), WorkingPair)
  {
    assert Claimable([w, b], [w, b][1], "x", false, takes);
    AfterClaim([w, b], 1, "x", takes);
    var q := [w, b][1 := Assign(b, "x", 0)];
    assert !WorkingPair(q[0], q[1]);
  }

  /** A validate-only run starts beside a running compile. */
  lemma ValidateOnlyRunsBeside()
    ensures var q1 := After([], Enqueue(R, 0));
      var q2 := After(q1, Claim("w", 0, false, Anyone()));
      var q3 := After(q2, Enqueue(R.(validateOnly := true), 1));
      !Pairwise(After(q3, Claim("x", 0, false, Anyone())), WorkingPair)
  {
    hide After;
    TwoRequests(R, R.(validateOnly := true), Anyone());
    ClaimSecond(Running(0, R, false, "w"), NewJob(1, R.(validateOnly := true), false), Anyone());
  }

  // ---- a primary overtaken by its own follow-up ----

  lemma TimeOutFirst(w: Job, b: Job)
    requires w.state == WORKING && w.assignedAt == Some(0) && w.timeout == 600 && w.retries == 0
    requires b.state == PENDING
    ensures After([w, b], CheckTimeouts(600, None)) == [Requeue(w), b]
  {
    var q := [w, b];
    assert w in q && Expired(w, 600, None);
    assert ExpireQueue(q, 600, None) == [Requeue(w), b];
    NoneFailed(q, w, 600);
    hide ExpireQueue, Affected, FailedJobs;
    AfterWrite(EMPTY.(mem := q), [Requeue(w), b], None);
  }

  /** x may take b, not a; w may take a. */
  lemma Overtake(a: Job, b: Job, takesW: Job -> bool, takesX: Job -> bool)
    requires a.state == PENDING && !a.followup && a.target == b.target && b.state == PENDING
    requires !PinnedElsewhere(a, "w") && (IsPinned(a) || takesW(a))
    requires PinnedElsewhere(a, "x") || (!IsPinned(a) && !takesX(a))
    requires !IsPinned(b) && takesX(b)
    ensures var q := After([a, b], Claim("x", 0, false, takesX));
      !Pairwise(After(q, Claim("w", 0, false, takesW)), WorkingPair)
  {
    var q := [a, b];
    assert !Claimable(q, q[0], "x", false, takesX) && Claimable(q, q[1], "x", false, takesX);
    AfterClaim(q, 1, "x", takesX);
    var q' := q[1 := Assign(b, "x", 0)];
    assert Claimable(q', q'[0], "w", false, takesW);
    AfterClaim(q', 0, "w", takesW);
    var end := q'[0 := Assign(q'[0], "w", 0)];
    assert !WorkingPair(end[0], end[1]);
  }

  /** From an empty queue: a job runs, a follow-up is queued, the job times out, another
      worker takes the follow-up, and then the first one takes the job again. */
  ghost predicate TwoRunAtOnce(first: Request, second: Request, takesW: Job -> bool, takesX: Job -> bool) {
    var q1 := After([], Enqueue(first, 0));
    var q2 := After(q1, Claim("w", 0, false, takesW));
    var q3 := After(q2, Enqueue(second, 1));
    var q4 := After(q3, CheckTimeouts(600, None));
    var q5 := After(q4, Claim("x", 0, false, takesX));
    !Pairwise(After(q5, Claim("w", 0, false, takesW)), WorkingPair)
  }

  lemma Overtaken(first: Request, second: Request, takesW: Job -> bool, takesX: Job -> bool)
    requires first.target == second.target && !first.validateOnly && !second.validateOnly && first.timeout == 600
    requires var j := NewJob(0, first, false); !PinnedElsewhere(j, "w") && (IsPinned(j) || takesW(j))
    requires var a := Requeue(Running(0, first, false, "w"));
      (IsPinned(a) || takesW(a)) && (PinnedElsewhere(a, "x") || (!IsPinned(a) && !takesX(a)))
    requires var b := NewJob(1, second, true); !IsPinned(b) && takesX(b)
    ensures TwoRunAtOnce(first, second, takesW, takesX)
  {
    hide After;
    var w, b := Running(0, first, false, "w"), NewJob(1, second, true);
    TwoRequests(first, second, takesW);
    TimeOutFirst(w, b);
    Overtake(Requeue(w), b, takesW, takesX);
  }

  function Taking(f: Fleet, tags: Tags): Job -> bool { (j: Job) => Accepts(f, tags, j) }

  const FREE := Fleet([], map[])

  /** Why OneActiveOneFollowup excludes pins. */
  lemma PinnedJobIsOvertaken()
    ensures TwoRunAtOnce(R.(pinned := Some("w")), R, Anyone(), Anyone())
  {
    Overtaken(R.(pinned := Some("w")), R, Anyone(), Anyone());
  }

  const GPU_ONLY := TagFilter("all_of", ["gpu"])

  /** Why it excludes tag filters: the first job is for workers with a tag that x lacks. */
  lemma FilteredJobIsOvertaken()
    ensures TwoRunAtOnce(R.(tagFilter := Some(GPU_ONLY)), R, Taking(FREE, {"gpu"}), Taking(FREE, {}))
  {
    var wanted := set t | t in GPU_ONLY.tags && t != "";
    assert wanted == {"gpu"} by {
      assert "gpu" in GPU_ONLY.tags;
    }
    Overtaken(R.(tagFilter := Some(GPU_ONLY)), R, Taking(FREE, {"gpu"}), Taking(FREE, {}));
  }

  const NEEDS_GPU := Rule("r", "gpu", [], [Clause(AllOf, ["gpu"])])
  const RULED := Fleet([NEEDS_GPU], map[])

  /** Why it excludes the bypass flag: x fails a rule that only the second job may ignore. */
  lemma BypassingJobOvertakes()
    ensures TwoRunAtOnce(R, R.(bypass := true), Taking(RULED, {"gpu"}), Taking(RULED, {}))
  {
    var rules := EffectiveRules(RULED, R.target);
    assert rules == [NEEDS_GPU];
    assert rules[0] in rules && NEEDS_GPU.workerMatch[0] in NEEDS_GPU.workerMatch;
    assert "gpu" in NEEDS_GPU.workerMatch[0].tags;
    assert !RulePasses(NEEDS_GPU, {}, {});
    Overtaken(R, R.(bypass := true), Taking(RULED, {"gpu"}), Taking(RULED, {}));
  }

  // ---- retry beside a live job ----

  lemma AfterSubmit(w: Job, b: Job)
    requires w.state == WORKING && w.id == 0 && w.ota == None
    ensures After([w, b], DoSubmit(true)) == [Finish(w, true, None, false, 1), b]
  {
    var c, q, j := EMPTY.(mem := [w, b]), [w, b], Finish(w, true, None, false, 1);
    assert q[0].id == 0;
    assert IndexOf(q, 0) == 0 && q[0 := j] == [j, b];
    PlayWrite(c, [j, b], None, [j]);
    ScriptSplit(c, Write([j, b], None, [j]), [Ack(0)]);
    ScriptOne(Play(c, Write([j, b], None, [j])), Ack(0));
  }

  lemma RetryScriptOfTwo(a: Job, f: Job, version: string -> string)
    requires Terminal(a) && a.id == 0 && a.target == f.target && !Terminal(f)
    ensures RetryScript([a, f], [0], [2], version, 600)
      == Swap([f], [a], RetryJob(a, 2, version(a.target), 600)) + [Persist]
  {
    var q, j := [a, f], RetryJob(a, 2, version(a.target), 600);
    assert q[0].id == 0;
    FilterTwo(a, f, (x: Job) => x.target == a.target && Terminal(x));
    FilterTwo(a, f, (x: Job) => !(x.target == a.target && Terminal(x)));
    assert FinishedOf(q, a.target) == [a] && UnfinishedOf(q, a.target) == [f];
    assert [0][..0] == [] && [2][..0] == [];
    var r := RetryOne(q, 0, 2, version, 600);
    assert r.script == Swap([f], [a], j);
    assert RetryAll(q, [0], [2], version, 600).script == [] + r.script == r.script;
  }

  lemma AfterRetry(a: Job, f: Job, version: string -> string)
    requires Terminal(a) && a.id == 0 && a.target == f.target && !Terminal(f)
    ensures After([a, f], Retry([0], [2], version, 600)) == [f, RetryJob(a, 2, version(a.target), 600)]
  {
    hide RetryScript;
    var j := RetryJob(a, 2, version(a.target), 600);
    RetryScriptOfTwo(a, f, version);
    AfterSwap(EMPTY.(mem := [a, f]), [f], [a], j);
    assert [f] + [j] == [f, j];
  }

  lemma ClaimBoth(f: Job, j: Job)
    requires f.state == PENDING && !IsPinned(f) && f.followup
    requires j.state == PENDING && !IsPinned(j) && !j.followup && j.target == f.target
    ensures var q := After([f, j], Claim("w", 0, false, Anyone()));
      !Pairwise(After(q, Claim("x", 0, false, Anyone())), WorkingPair)
  {
    assert Claimable([f, j], [f, j][0], "w", false, Anyone());
    AfterClaim([f, j], 0, "w", Anyone());
    assert [f, j][0 := Assign(f, "w", 0)] == [Assign(f, "w", 0), j];
    hide After;
    ClaimSecond(Assign(f, "w", 0), j, Anyone());
  }

  /** From an empty queue: a job finishes while its follow-up waits, is retried, and then
      both are handed out. */
  lemma RetryRunsBeside(version: string -> string)
    ensures var q1 := After([], Enqueue(R, 0));
      var q2 := After(q1, Claim("w", 0, false, Anyone()));
      var q3 := After(q2, Enqueue(R, 1));
      var q4 := After(q3, DoSubmit(true));
      var q5 := After(q4, Retry([0], [2], version, 600));
      var q6 := After(q5, Claim("w", 0, false, Anyone()));
      !Pairwise(After(q6, Claim("x", 0, false, Anyone())), WorkingPair)
  {
    hide After;
    var w, f := Running(0, R, false, "w"), NewJob(1, R, true);
    TwoRequests(R, R, Anyone());
    AfterSubmit(w, f);
    var a := Finish(w, true, None, false, 1);
    AfterRetry(a, f, version);
    ClaimBoth(f, RetryJob(a, 2, version(a.target), 600));
  }
}
