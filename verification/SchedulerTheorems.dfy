/** Deferring never strands a job: whenever some worker could take a primary job, some
    worker does, and a fleet that keeps polling runs out of such jobs. */
module SchedulerTheorems {
  import opened Common
  import opened Jobs
  import opened QueueMachine
  import opened QueueMeaning
  import opened QueueOps
  import opened QueueScripts
  import opened Routing
  import opened Eligibility
  import opened Scheduler

  /** The worker is fit, has a free slot, and there is a primary job it may take. */
  predicate Hungry(s: Scene, q: Queue, w: Worker) {
    w in s.workers && Available(s, w) && HasFreeSlot(q, w) && Mine(s, q, w) != []
  }

  ghost predicate SomebodyHungry(s: Scene, q: Queue) {
    exists w | w in s.workers :: Hungry(s, q, w)
  }

  // ---- the best placed hungry worker ----

  /** A worker we may defer to for our own jobs is hungry itself. */
  lemma PoolIsHungry(s: Scene, q: Queue, o: Worker, w: Worker)
    requires o in s.workers && Mine(s, q, w) != [] && InPool(s, q, o, w)
    ensures Hungry(s, q, o)
  {
    var j :| j in Mine(s, q, w) && Accepts(s.fleet, o.tags, j) && !PinnedElsewhere(j, o.id);
    assert j in Mine(s, q, o);
  }

  lemma {:induction false} NobodyAhead(s: Scene, q: Queue, w: Worker, n: nat)
    requires n <= |s.workers| && Mine(s, q, w) != []
    requires forall o | o in s.workers && Hungry(s, q, o) :: !Outranks(q, o, w)
    ensures Pool(s, q, w, n) == 0
  {
    if n > 0 {
      NobodyAhead(s, q, w, n - 1);
      if InPool(s, q, s.workers[n - 1], w) {
        PoolIsHungry(s, q, s.workers[n - 1], w);
      }
    }
  }

  lemma {:induction false} BestOf(s: Scene, q: Queue, n: nat, k: nat) returns (w: Worker)
    requires k < n <= |s.workers| && Hungry(s, q, s.workers[k])
    ensures Hungry(s, q, w)
    ensures forall i | 0 <= i < n && Hungry(s, q, s.workers[i]) :: !Outranks(q, s.workers[i], w)
  {
    hide Hungry, Score, Load;
    var o := s.workers[n - 1];
    if k == n - 1 && forall i | 0 <= i < n - 1 :: !Hungry(s, q, s.workers[i]) {
      w := o;
    } else {
      var k' := k;
      if k == n - 1 {
        k' :| 0 <= k' < n - 1 && Hungry(s, q, s.workers[k']);
      }
      w := BestOf(s, q, n - 1, k');
      if Hungry(s, q, o) && Outranks(q, o, w) {
        w := o;
      }
    }
  }

  lemma Best(s: Scene, q: Queue) returns (w: Worker)
    requires SomebodyHungry(s, q)
    ensures Hungry(s, q, w)
    ensures forall o | o in s.workers && Hungry(s, q, o) :: !Outranks(q, o, w)
  {
    var h :| h in s.workers && Hungry(s, q, h);
    var k :| 0 <= k < |s.workers| && s.workers[k] == h;
    w := BestOf(s, q, |s.workers|, k);
  }

  lemma KnownWorker(s: Scene, w: Worker)
    requires Registry(s.workers) && w in s.workers
    ensures WorkerIndex(s, w.id) < |s.workers| && s.workers[WorkerIndex(s, w.id)] == w
  {
    var k :| 0 <= k < |s.workers| && s.workers[k] == w;
  }

  lemma PicksUnlessDeferring(s: Scene, q: Queue, w: Worker)
    requires Registry(s.workers) && Hungry(s, q, w) && !ShouldDefer(s, q, w)
    ensures Pick(s, q, w.id) < |q|
  {
    KnownWorker(s, w);
    var mine := Mine(s, q, w);
    assert mine[0] in mine && mine[0] in q;
    var k :| 0 <= k < |q| && q[k] == mine[0];
    assert Suits(s.fleet, w, q[k]);
    assert Claimable(q, q[k], w.id, false, Judge(s, w.id));
  }

  /** Whenever some fit worker with a free slot may take some primary job, at least one
      such worker does not defer, and its poll hands out a PENDING job. */
  lemma NoDeferralDeadlock(s: Scene, q: Queue)
    requires Registry(s.workers) && SomebodyHungry(s, q)
    ensures exists w | w in s.workers ::
      && Hungry(s, q, w) && !ShouldDefer(s, q, w)
      && Pick(s, q, w.id) < |q| && q[Pick(s, q, w.id)].state == PENDING
  {
    var w := Best(s, q);
    NobodyAhead(s, q, w, |s.workers|);
    PicksUnlessDeferring(s, q, w);
    assert Claimable(q, q[Pick(s, q, w.id)], w.id, Defers(s, q, w.id), Judge(s, w.id));
  }

  // ---- what is left to do ----

  /** What can still happen to a job without somebody asking for more: a waiting job can be
      handed out, a running one can end or come back, up to the retry cap. */
  function Fuel(j: Job): nat {
    if Waiting(j) then 2 * (if j.retries < MAX_RETRIES then MAX_RETRIES - j.retries else 1)
    else if j.state == WORKING then 2 * (if j.retries < MAX_RETRIES then MAX_RETRIES - 1 - j.retries else 0) + 1
    else 0
  }

  function Left(q: Queue): nat {
    if q == [] then 0 else Left(q[..|q| - 1]) + Fuel(q[|q| - 1])
  }

  predicate Unfinished(j: Job) { Waiting(j) || j.state == WORKING }

  function UnfinishedCount(q: Queue): nat {
    if q == [] then 0 else UnfinishedCount(q[..|q| - 1]) + if Unfinished(q[|q| - 1]) then 1 else 0
  }

  lemma {:induction false} LeftBound(q: Queue)
    ensures Left(q) <= 2 * MAX_RETRIES * UnfinishedCount(q)
  {
    if q != [] {
      LeftBound(q[..|q| - 1]);
    }
  }

  /** The scheduler cannot tell a from b. */
  predicate Alike(a: Job, b: Job) {
    && b.state == a.state && b.target == a.target && b.assignedTo == a.assignedTo && b.followup == a.followup
    && b.pinned == a.pinned && b.tagFilter == a.tagFilter && b.bypass == a.bypass
  }

  /** The job moves on, or nothing about it changes that the scheduler looks at. */
  predicate Wanes(a: Job, b: Job) { Fuel(b) < Fuel(a) || (Fuel(b) == Fuel(a) && Alike(a, b)) }

  ghost predicate Waning(q: Queue, to: Queue) {
    |to| == |q| && forall i | 0 <= i < |q| :: Wanes(q[i], to[i])
  }

  predicate AnySuits(f: Fleet, w: Worker, q: Queue) { exists j | j in q :: Suits(f, w, j) }

  /** The same loads, and the same workers with something to take. */
  ghost predicate SameWork(q: Queue, to: Queue) {
    && (forall id :: Load(to, id) == Load(q, id))
    && (forall f, w :: AnySuits(f, w, to) == AnySuits(f, w, q))
  }

  lemma {:induction false} LeftFalls(q: Queue, to: Queue)
    requires |to| == |q| && forall i | 0 <= i < |q| :: Fuel(to[i]) <= Fuel(q[i])
    ensures Left(to) <= Left(q)
    ensures Left(to) == Left(q) ==> forall i | 0 <= i < |q| :: Fuel(to[i]) == Fuel(q[i])
  {
    hide Fuel;
    if q != [] {
      LeftFalls(q[..|q| - 1], to[..|q| - 1]);
    }
  }

  lemma {:induction false} AlikeLoads(q: Queue, to: Queue, id: string)
    requires |to| == |q| && forall i | 0 <= i < |q| :: Alike(q[i], to[i])
    ensures Load(to, id) == Load(q, id)
  {
    if q != [] {
      var n := |q| - 1;
      assert Alike(q[n], to[n]);
      AlikeLoads(q[..n], to[..n], id);
    }
  }

  lemma AlikeSuits(f: Fleet, w: Worker, a: Job, b: Job)
    requires Alike(a, b)
    ensures Suits(f, w, a) == Suits(f, w, b)
  {}

  lemma AlikeQueues(f: Fleet, w: Worker, q: Queue, to: Queue)
    requires |to| == |q| && forall i | 0 <= i < |q| :: Alike(q[i], to[i])
    ensures AnySuits(f, w, to) == AnySuits(f, w, q)
  {
    hide Suits;
    forall i | 0 <= i < |q| ensures Suits(f, w, q[i]) == Suits(f, w, to[i]) {
      assert Alike(q[i], to[i]);
      AlikeSuits(f, w, q[i], to[i]);
    }
  }

  lemma WaningWork(q: Queue, to: Queue)
    requires Waning(q, to)
    ensures Left(to) < Left(q) || (Left(to) == Left(q) && SameWork(q, to))
  {
    hide Fuel, Alike, AnySuits;
    assert forall i | 0 <= i < |q| :: Wanes(q[i], to[i]);
    LeftFalls(q, to);
    if Left(to) == Left(q) {
      assert forall i | 0 <= i < |q| :: Alike(q[i], to[i]);
      forall id ensures Load(to, id) == Load(q, id) {
        AlikeLoads(q, to, id);
      }
      forall f, w ensures AnySuits(f, w, to) == AnySuits(f, w, q) {
        AlikeQueues(f, w, q, to);
      }
    }
  }

  // ---- what the other operations do to it ----

  /** The operations that bring no new work. Claims are made by the polls themselves. */
  predicate BringsNoWork(op: Op) { !op.Enqueue? && !op.Retry? && !op.Claim? }

  /** A sweep that finds every job where the rules want it. */
  predicate Steady(q: Queue, op: Op) { op.Sweep? ==> MoveCount(q, op.check, |q|) == 0 }

  lemma OneWanes(q: Queue, i: nat, j: Job)
    requires i < |q| && Wanes(q[i], j)
    ensures Waning(q, q[i := j])
  {}

  lemma AllWane(q: Queue)
    ensures Waning(q, q)
  {}

  lemma FinishWanes(j: Job, success: bool, ota: Option<string>, needs: bool, now: int)
    requires j.state == WORKING
    ensures Wanes(j, Finish(j, success, ota, needs, now))
  {}

  lemma SubmitWanes(q: Queue, id: JobId, success: bool, ota: Option<string>, needs: bool, now: int)
    ensures Waning(q, After(q, Submit(id, success, ota, needs, now)))
  {
    var c, i := EMPTY.(mem := q), IndexOf(q, id);
    AllWane(q);
    NothingPlayed(c);
    if i < |q| {
      hide Play, Waning, Wanes, Finish, Write;
      if TakesOtaPatch(q[i], ota) {
        var j := q[i].(ota := ota);
        PlayWrite(c, q[i := j], None, [j]);
        assert Wanes(q[i], j) by {
          PatchWanes(q[i], ota);
        }
        OneWanes(q, i, j);
      } else if q[i].state == WORKING {
        var j := Finish(q[i], success, ota, needs, now);
        PlayWrite(c, q[i := j], None, [j]);
        ScriptSplit(c, Write(q[i := j], None, [j]), [Ack(id)]);
        AckedQueue(Play(c, Write(q[i := j], None, [j])), id);
        FinishWanes(q[i], success, ota, needs, now);
        OneWanes(q, i, j);
      }
    }
  }

  lemma AckedQueue(c: Core, id: JobId)
    ensures Play(c, [Ack(id)]).mem == c.mem
  {
    ScriptOne(c, Ack(id));
  }

  lemma PatchWanes(j: Job, ota: Option<string>)
    ensures Wanes(j, j.(ota := ota))
  {}

  lemma PatchOtaWanes(q: Queue, id: JobId, ota: string)
    ensures Waning(q, After(q, PatchOta(id, ota)))
  {
    var c, i := EMPTY.(mem := q), IndexOf(q, id);
    AllWane(q);
    NothingPlayed(c);
    if i < |q| {
      hide Play, Waning, Wanes, Write;
      var j := q[i].(ota := Some(ota));
      PlayWrite(c, q[i := j], None, [j]);
      PatchWanes(q[i], Some(ota));
      OneWanes(q, i, j);
    }
  }

  lemma RequeueWanes(j: Job)
    requires j.state == WORKING
    ensures j.retries + 1 < MAX_RETRIES ==> Wanes(j, Requeue(j))
    ensures j.retries + 1 >= MAX_RETRIES ==> Wanes(j, j.(retries := j.retries + 1))
  {}

  lemma ReleaseWanes(q: Queue, id: JobId)
    ensures Waning(q, After(q, Release(id)))
  {
    var c, i := EMPTY.(mem := q), IndexOf(q, id);
    AllWane(q);
    NothingPlayed(c);
    if i < |q| && q[i].state == WORKING {
      RequeueWanes(q[i]);
      hide Play, Waning, Wanes, Write, Requeue, BumpInMemory;
      if q[i].retries + 1 >= MAX_RETRIES {
        BumpedQueue(c, i);
        OneWanes(q, i, q[i].(retries := q[i].retries + 1));
      } else {
        PlayWrite(c, q[i := Requeue(q[i])], None, []);
        OneWanes(q, i, Requeue(q[i]));
      }
    }
  }

  lemma BumpedQueue(c: Core, i: nat)
    requires i < |c.mem|
    ensures Play(c, BumpInMemory(c.mem, i)).mem == c.mem[i := c.mem[i].(retries := c.mem[i].retries + 1)]
  {
    hide Play;
    UpdatedQueue(c, c.mem[i := c.mem[i].(retries := c.mem[i].retries + 1)]);
  }

  lemma UpdatedQueue(c: Core, to: Queue)
    ensures Play(c, [Update(to, None, false)]).mem == to
  {
    ScriptOne(c, Update(to, None, false));
  }

  lemma {:induction false} CancelWanes(q: Queue, ids: seq<JobId>, now: int)
    ensures forall i | 0 <= i < |q| :: Wanes(q[i], CancelAll(q, ids, now).mem[i])
  {
    if ids != [] {
      CancelWanes(q, ids[..|ids| - 1], now);
    }
  }

  lemma CancelOpWanes(q: Queue, ids: seq<JobId>, now: int)
    ensures Waning(q, After(q, Op.Cancel(ids, now)))
  {
    var c, r := EMPTY.(mem := q), CancelAll(q, ids, now);
    AllWane(q);
    NothingPlayed(c);
    CancelWanes(q, ids, now);
    hide Play, Wanes, Write, CancelAll;
    PlayWrite(c, r.mem, None, r.hits);
  }

  lemma TimeoutWanes(q: Queue, now: int, online: Option<string -> bool>)
    ensures Waning(q, After(q, CheckTimeouts(now, online)))
  {
    var c, to := EMPTY.(mem := q), ExpireQueue(q, now, online);
    AllWane(q);
    NothingPlayed(c);
    forall i | 0 <= i < |q| ensures Wanes(q[i], to[i]) {}
    hide Play, Wanes, Write, ExpireQueue, Affected, FailedJobs;
    PlayWrite(c, to, None, FailedJobs(q, now, online));
  }

  lemma SweepWanes(q: Queue, check: Job -> Verdict)
    requires MoveCount(q, check, |q|) == 0
    ensures Waning(q, SweepQueue(q, check))
  {
    NoMoves(q, check, |q|);
    hide Wanes, SweepOne;
    forall i | 0 <= i < |q| ensures Wanes(q[i], SweepQueue(q, check)[i]) {
      assert !Moves(q[i], check);
      QuietWanes(q[i], check(q[i]));
    }
  }

  lemma QuietWanes(j: Job, v: Verdict)
    requires SweepOne(j, v).state == j.state
    ensures Wanes(j, SweepOne(j, v))
  {}

  lemma SweptAfter(q: Queue, check: Job -> Verdict)
    ensures After(q, Op.Sweep(check)) == SweepQueue(q, check)
  {
    SweptQueue(EMPTY.(mem := q), check);
    hide SweepScript;
  }

  lemma SweepKeepsLeft(q: Queue, check: Job -> Verdict)
    ensures Left(SweepQueue(q, check)) <= Left(q)
  {
    LeftFalls(q, SweepQueue(q, check));
  }

  lemma LastCounts(q: Queue, j: Job, id: string)
    ensures Left(q + [j]) == Left(q) + Fuel(j)
    ensures Load(q + [j], id) == Load(q, id) + if RunsOn(j, id) then 1 else 0
  {
    assert (q + [j])[..|q|] == q;
  }

  lemma FinishedCountsNothing(j: Job, id: string)
    ensures Terminal(j) ==> Fuel(j) == 0 && !RunsOn(j, id)
  {}

  lemma {:induction false} DiscardKeeps(q: Queue, p: Job -> bool, id: string)
    requires forall j | j in q && !p(j) :: Terminal(j)
    ensures Left(Filter(q, p)) == Left(q) && Load(Filter(q, p), id) == Load(q, id)
  {
    if q == [] {
      FilterNone(q, p);
    } else {
      hide Filter, Left, Load, Fuel, RunsOn, Terminal;
      var front, j := q[..|q| - 1], q[|q| - 1];
      assert j in q && q == front + [j];
      FinishedCountsNothing(j, id);
      DiscardKeeps(front, p, id);
      FilterSnoc(front, j, p);
      LastCounts(front, j, id);
      if p(j) {
        LastCounts(Filter(front, p), j, id);
      }
    }
  }

  lemma DiscardWork(q: Queue, pick: Job -> bool)
    ensures Left(Kept(q, pick)) == Left(q) && SameWork(q, Kept(q, pick))
  {
    hide Left, Load;
    forall id ensures Left(Kept(q, pick)) == Left(q) && Load(Kept(q, pick), id) == Load(q, id) {
      DiscardKeeps(q, (j: Job) => !(Terminal(j) && pick(j)), id);
    }
    assert Load(Kept(q, pick), "") == Load(q, "");
    forall f, w ensures AnySuits(f, w, Kept(q, pick)) == AnySuits(f, w, q) {
      forall j | j in q && Suits(f, w, j) ensures j in Kept(q, pick) {}
    }
  }

  lemma DiscardedQueue(q: Queue, pick: Job -> bool)
    ensures After(q, Op.Discard(pick)) == Kept(q, pick) || After(q, Op.Discard(pick)) == q
  {
    var c := EMPTY.(mem := q);
    hide Kept;
    NothingPlayed(c);
    ScriptTwo(c, Update(Kept(q, pick), None, true), Persist);
  }

  lemma MarkedQueue(q: Queue, id: JobId, force: bool)
    ensures After(q, MarkStored(id, force)) == q
  {
    var c := EMPTY.(mem := q);
    hide Markable;
    NothingPlayed(c);
    ScriptOne(c, Persist);
  }

  /** No such operation adds to what is left, and one that takes nothing off leaves the
      scheduler the same work, unless it is a sweep that moves a job. */
  lemma OperationWanes(q: Queue, op: Op)
    requires BringsNoWork(op)
    ensures var to := After(q, op);
      && Left(to) <= Left(q)
      && (Steady(q, op) && Left(to) == Left(q) ==> SameWork(q, to))
  {
    hide After, Left, SameWork, Load, Waning;
    AllWane(q);
    match op
    case Submit(id, success, ota, needs, now) =>
      SubmitWanes(q, id, success, ota, needs, now);
      WaningWork(q, After(q, op));
    case Sweep(check) =>
      SweptAfter(q, check);
      SweepKeepsLeft(q, check);
      if Steady(q, op) {
        SweepWanes(q, check);
        WaningWork(q, SweepQueue(q, check));
      }
    case Cancel(ids, now) =>
      CancelOpWanes(q, ids, now);
      WaningWork(q, After(q, op));
    case CheckTimeouts(now, online) =>
      TimeoutWanes(q, now, online);
      WaningWork(q, After(q, op));
    case Release(id) =>
      ReleaseWanes(q, id);
      WaningWork(q, After(q, op));
    case PatchOta(id, ota) =>
      PatchOtaWanes(q, id, ota);
      WaningWork(q, After(q, op));
    case Discard(pick) =>
      DiscardedQueue(q, pick);
      DiscardWork(q, pick);
      WaningWork(q, q);
    case MarkStored(id, force) =>
      MarkedQueue(q, id, force);
      WaningWork(q, q);
  }

  // ---- everyone polls ----

  lemma {:induction false} LeftSet(q: Queue, k: nat, j: Job)
    requires k < |q|
    ensures Left(q[k := j]) == Left(q) - Fuel(q[k]) + Fuel(j)
    decreases |q|
  {
    hide Fuel;
    var n := |q| - 1;
    if k == n {
      assert q[k := j][..n] == q[..n];
    } else {
      LeftSet(q[..n], k, j);
      assert q[k := j][..n] == q[..n][k := j];
    }
  }

  /** Every hand-out takes something off, however making the bundle ends. */
  lemma PollLowers(s: Scene, q: Queue, id: string, b: Bundle)
    ensures Pick(s, q, id) < |q| ==> Left(Poll(s, q, id, b)) < Left(q)
    ensures Pick(s, q, id) == |q| ==> Poll(s, q, id, b) == q
  {
    var i := Pick(s, q, id);
    if i < |q| {
      assert Claimable(q, q[i], id, Defers(s, q, id), Judge(s, id));
      LeftSet(q, i, HandedOff(Assign(q[i], id, s.now), b, s.now));
      HandOffLowers(q[i], id, s.now, b);
    }
  }

  lemma HandOffLowers(j: Job, id: string, now: int, b: Bundle)
    requires j.state == PENDING
    ensures Fuel(HandedOff(Assign(j, id, now), b, now)) < Fuel(j)
  {}

  /** In a round, workers ask and other things happen, in any order. */
  datatype Doing = Ask(worker: Worker, bundle: Bundle) | Happen(op: Op)

  /** A worker asks only when it has a free slot. */
  function Do(s: Scene, q: Queue, d: Doing): Queue
    requires d.Happen? && d.op.Retry? ==> |d.op.ids| == |d.op.newIds|
  {
    match d
    case Ask(w, b) => if HasFreeSlot(q, w) then Poll(s, q, w.id, b) else q
    case Happen(op) => After(q, op)
  }

  predicate NoNewWork(ds: seq<Doing>) {
    forall k | 0 <= k < |ds| && ds[k].Happen? :: BringsNoWork(ds[k].op)
  }

  function Round(s: Scene, q: Queue, ds: seq<Doing>): Queue
    requires NoNewWork(ds)
  {
    if ds == [] then q else Do(s, Round(s, q, ds[..|ds| - 1]), ds[|ds| - 1])
  }

  /** No sweep moves a job while the round is on: rules, tags and the set of workers online
      change between rounds. */
  ghost predicate SteadyRound(s: Scene, q: Queue, ds: seq<Doing>)
    requires NoNewWork(ds)
  {
    forall k | 0 <= k < |ds| && ds[k].Happen? :: Steady(Round(s, q, ds[..k]), ds[k].op)
  }

  predicate Idle(s: Scene, q: Queue, d: Doing) {
    d.Ask? && HasFreeSlot(q, d.worker) ==> Pick(s, q, d.worker.id) == |q|
  }

  lemma DoingWanes(s: Scene, q: Queue, d: Doing)
    requires d.Happen? ==> BringsNoWork(d.op) && Steady(q, d.op)
    ensures Left(Do(s, q, d)) <= Left(q)
    ensures Left(Do(s, q, d)) == Left(q) ==> SameWork(q, Do(s, q, d)) && Idle(s, q, d)
  {
    hide Left, SameWork, Poll, After, Steady, HasFreeSlot, Pick;
    match d
    case Happen(op) => OperationWanes(q, op);
    case Ask(w, b) =>
      PollLowers(s, q, w.id, b);
      SameAsItself(q);
  }

  lemma SameAsItself(q: Queue)
    ensures SameWork(q, q)
  {}

  lemma SameTwice(a: Queue, b: Queue, c: Queue)
    requires SameWork(a, b) && SameWork(b, c)
    ensures SameWork(a, c)
  {}

  lemma {:induction false} RoundWanes(s: Scene, q: Queue, ds: seq<Doing>)
    requires NoNewWork(ds) && SteadyRound(s, q, ds)
    ensures Left(Round(s, q, ds)) <= Left(q)
    ensures Left(Round(s, q, ds)) == Left(q) ==>
      && SameWork(q, Round(s, q, ds))
      && forall k | 0 <= k < |ds| :: SameWork(q, Round(s, q, ds[..k])) && Idle(s, Round(s, q, ds[..k]), ds[k])
  {
    hide Left, SameWork, Do, Steady, Idle;
    SameAsItself(q);
    if ds != [] {
      var n := |ds| - 1;
      forall k | 0 <= k < n ensures ds[..n][..k] == ds[..k] {}
      RoundWanes(s, q, ds[..n]);
      DoingWanes(s, Round(s, q, ds[..n]), ds[n]);
      if Left(Round(s, q, ds)) == Left(q) {
        SameTwice(q, Round(s, q, ds[..n]), Round(s, q, ds));
      }
    }
  }

  ghost predicate Everyone(s: Scene, ds: seq<Doing>) {
    forall w | w in s.workers :: exists d | d in ds :: d.Ask? && d.worker == w
  }

  lemma SameHunger(s: Scene, q: Queue, to: Queue, w: Worker)
    requires SameWork(q, to)
    ensures Hungry(s, q, w) <==> Hungry(s, to, w)
  {
    MineOrNone(s, q, w);
    MineOrNone(s, to, w);
    hide AnySuits, Mine, Load;
  }

  lemma MineOrNone(s: Scene, q: Queue, w: Worker)
    ensures Mine(s, q, w) != [] <==> AnySuits(s.fleet, w, q)
  {
    var mine := Mine(s, q, w);
    assert mine != [] ==> mine[0] in mine;
  }

  /** A round in which every worker asks at least once takes something off what is left, if
      somebody was hungry when it began: results, releases, cancels, timeouts, OTA verdicts,
      removals and sweeps that move nothing may happen at any point of it. */
  lemma RoundMakesProgress(s: Scene, q: Queue, ds: seq<Doing>)
    requires Registry(s.workers) && SomebodyHungry(s, q) && Everyone(s, ds)
    requires NoNewWork(ds) && SteadyRound(s, q, ds)
    ensures Left(Round(s, q, ds)) < Left(q)
  {
    var w := Best(s, q);
    var d :| d in ds && d.Ask? && d.worker == w;
    var k :| 0 <= k < |ds| && ds[k] == d;
    hide Left, SameWork, HasFreeSlot, Pick, Hungry, Steady, Do, Outranks;
    if SameWork(q, Round(s, q, ds[..k])) {
      StillPicks(s, q, Round(s, q, ds[..k]), w);
    }
    RoundWanes(s, q, ds);
  }

  /** The best placed hungry worker stays so while the work stays the same. */
  lemma StillPicks(s: Scene, q: Queue, to: Queue, w: Worker)
    requires Registry(s.workers) && SameWork(q, to)
    requires Hungry(s, q, w) && forall o | o in s.workers && Hungry(s, q, o) :: !Outranks(q, o, w)
    ensures HasFreeSlot(to, w) && Pick(s, to, w.id) < |to|
  {
    SameHunger(s, q, to, w);
    forall o | o in s.workers && Hungry(s, to, o) ensures !Outranks(to, o, w) {
      SameHunger(s, q, to, o);
    }
    hide SameWork, Suits;
    NobodyAhead(s, to, w, |s.workers|);
    PicksUnlessDeferring(s, to, w);
  }

  // ---- round after round ----

  /** Before a round anything may happen that brings no new work, sweeps included, and
      clocks, health, tags and rules may all have changed. */
  datatype Lap = Lap(before: seq<Op>, scene: Scene, doings: seq<Doing>)

  ghost predicate ProperLap(l: Lap) {
    && Registry(l.scene.workers) && Everyone(l.scene, l.doings) && NoNewWork(l.doings)
    && NoNewOps(l.before)
  }

  predicate NoNewOps(ops: seq<Op>) { forall k | 0 <= k < |ops| :: BringsNoWork(ops[k]) }

  ghost predicate AllProper(laps: seq<Lap>) { forall k | 0 <= k < |laps| :: ProperLap(laps[k]) }

  function Happened(q: Queue, ops: seq<Op>): Queue
    requires NoNewOps(ops)
  {
    if ops == [] then q else After(Happened(q, ops[..|ops| - 1]), ops[|ops| - 1])
  }

  lemma {:induction false} HappenedWanes(q: Queue, ops: seq<Op>)
    requires NoNewOps(ops)
    ensures Left(Happened(q, ops)) <= Left(q)
  {
    hide After, Left;
    if ops != [] {
      HappenedWanes(q, ops[..|ops| - 1]);
      OperationWanes(Happened(q, ops[..|ops| - 1]), ops[|ops| - 1]);
    }
  }

  /** The queue as each round finds it, and as it leaves it. */
  ghost function Found(q: Queue, laps: seq<Lap>): Queue
    requires laps != [] && AllProper(laps)
    decreases |laps|, 0
  {
    Happened(Laps(q, laps[..|laps| - 1]), laps[|laps| - 1].before)
  }

  ghost function Laps(q: Queue, laps: seq<Lap>): Queue
    requires AllProper(laps)
    decreases |laps|, 1
  {
    if laps == [] then q else Round(laps[|laps| - 1].scene, Found(q, laps), laps[|laps| - 1].doings)
  }

  ghost predicate AllSteady(q: Queue, laps: seq<Lap>)
    requires AllProper(laps)
  {
    laps == []
    || (&& AllSteady(q, laps[..|laps| - 1])
        && SteadyRound(laps[|laps| - 1].scene, Found(q, laps), laps[|laps| - 1].doings))
  }

  /** How many of the rounds began with somebody hungry. */
  ghost function HungryRounds(q: Queue, laps: seq<Lap>): nat
    requires AllProper(laps)
  {
    if laps == [] then 0
    else
      HungryRounds(q, laps[..|laps| - 1]) + if SomebodyHungry(laps[|laps| - 1].scene, Found(q, laps)) then 1 else 0
  }

  lemma {:induction false} HungerIsPaidFor(q: Queue, laps: seq<Lap>)
    requires AllProper(laps) && AllSteady(q, laps)
    ensures Left(Laps(q, laps)) + HungryRounds(q, laps) <= Left(q)
  {
    hide Left, Round, SomebodyHungry, Everyone, Registry, SteadyRound, NoNewWork, Happened, BringsNoWork;
    if laps != [] {
      var n := |laps| - 1;
      var l := laps[n];
      HungerIsPaidFor(q, laps[..n]);
      HappenedWanes(Laps(q, laps[..n]), l.before);
      RoundWanes(l.scene, Found(q, laps), l.doings);
      if SomebodyHungry(l.scene, Found(q, laps)) {
        RoundMakesProgress(l.scene, Found(q, laps), l.doings);
      }
    }
  }

  /** As long as no new job is brought, at most 2 * MAX_RETRIES rounds per unfinished job
      begin with a fit worker that has a free slot and a primary job it may take, whatever
      else happens between the polls and between the rounds. */
  lemma HungerEnds(q: Queue, laps: seq<Lap>)
    requires AllProper(laps) && AllSteady(q, laps)
    ensures HungryRounds(q, laps) <= 2 * MAX_RETRIES * UnfinishedCount(q)
  {
    HungerIsPaidFor(q, laps);
    LeftBound(q);
  }

  /** Why no sweep may move a job while a round is on: rules that change between two polls
      can hide a job from everybody who asks, round after round. */
  lemma MovingSweepsCanDodge(s: Scene, w: Worker, j: Job, x: Bundle, reason: Reason)
    requires s.workers == [w] && Hungry(s, [j], w) && j.state == PENDING && j.blockedReason == None
    ensures var block := Happen(Op.Sweep((k: Job) => Blocked(reason)));
      var show := Happen(Op.Sweep((k: Job) => Eligible));
      Everyone(s, [block, Ask(w, x), show]) && Round(s, [j], [block, Ask(w, x), show]) == [j]
  {
    var hidden := j.(state := BLOCKED, blockedReason := Some(reason));
    var none, all := (k: Job) => Blocked(reason), (k: Job) => Eligible;
    var ds := [Happen(Op.Sweep(none)), Ask(w, x), Happen(Op.Sweep(all))];
    assert ds[1] in ds;
    SweptAfter([j], none);
    assert SweepQueue([j], none) == [hidden];
    assert !Claimable([hidden], [hidden][0], w.id, Defers(s, [hidden], w.id), Judge(s, w.id));
    PollLowers(s, [hidden], w.id, x);
    SweptAfter([hidden], all);
    assert SweepQueue([hidden], all) == [j];
    hide After, SweepQueue, Poll, HasFreeSlot;
    assert ds[..0] == [] && ds[..1] == [ds[0]] && ds[..2] == [ds[0], ds[1]] && ds[..2][..1] == ds[..1];
    assert Round(s, [j], ds[..1]) == [hidden];
    assert Round(s, [j], ds[..2]) == [hidden];
  }

  // ---- follow-ups ----

  lemma {:induction false} PoolIsEmptyIff(s: Scene, q: Queue, w: Worker, n: nat)
    requires n <= |s.workers|
    ensures Pool(s, q, w, n) == 0 <==> forall i | 0 <= i < n :: !InPool(s, q, s.workers[i], w)
  {
    if n > 0 {
      PoolIsEmptyIff(s, q, w, n - 1);
      assert InPool(s, q, s.workers[n - 1], w) ==> s.workers[n - 1].slots > Load(q, s.workers[n - 1].id);
    }
  }

  /** o could be given a job before w, whether or not it may take any. */
  predicate GoesBefore(s: Scene, q: Queue, o: Worker, w: Worker) {
    o.id != w.id && Available(s, o) && HasFreeSlot(q, o) && Outranks(q, o, w)
  }

  /** The count that decides deferral leaves follow-ups out. When nothing else is left for a
      worker, it takes a follow-up it may take exactly when one is pinned to it or no better
      placed worker is idle, even one that may not take it. */
  lemma FollowupIsTakenIff(s: Scene, q: Queue, w: Worker)
    requires Registry(s.workers) && w in s.workers && Available(s, w) && Mine(s, q, w) == []
    requires ClaimIndex(q, w.id, false, Judge(s, w.id)) < |q|
    ensures Pick(s, q, w.id) < |q|
      <==> (exists j | j in q :: IsPinned(j) && Claimable(q, j, w.id, false, Judge(s, w.id)))
           || forall o | o in s.workers :: !GoesBefore(s, q, o, w)
  {
    KnownWorker(s, w);
    PoolIsEmptyIff(s, q, w, |s.workers|);
    forall i | 0 <= i < |s.workers| ensures InPool(s, q, s.workers[i], w) == GoesBefore(s, q, s.workers[i], w) {}
    assert ShouldDefer(s, q, w) <==> exists o | o in s.workers :: GoesBefore(s, q, o, w);
    DeferringTakesPinned(q, w.id, Judge(s, w.id));
  }

  lemma DeferringTakesPinned(q: Queue, id: string, eligible: Job -> bool)
    ensures ClaimIndex(q, id, true, eligible) < |q|
      <==> exists j | j in q :: IsPinned(j) && Claimable(q, j, id, false, eligible)
  {
    var k := ClaimIndex(q, id, true, eligible);
    if k < |q| {
      assert q[k] in q && IsPinned(q[k]) && Claimable(q, q[k], id, false, eligible);
    } else {
      forall j | j in q ensures !(IsPinned(j) && Claimable(q, j, id, false, eligible)) {
        var m :| 0 <= m < |q| && q[m] == j;
        assert !Claimable(q, q[m], id, true, eligible);
      }
    }
  }

  const GPU := TagFilter("all_of", ["gpu"])

  /** So a follow-up can wait for ever: a worker that alone may take it defers to an idle,
      faster worker that may not. */
  lemma FollowupIsStranded(s: Scene, a: Worker, b: Worker, j: Job, x: Bundle)
    requires s.workers == [a, b] && a.id != b.id && a.id != "" && b.id != ""
    requires Available(s, a) && Available(s, b) && a.slots > 0 && b.slots > 0 && Score(a) > Score(b)
    requires "gpu" !in a.tags && "gpu" in b.tags
    requires j.state == PENDING && j.followup && !IsPinned(j) && j.bypass && j.tagFilter == Some(GPU)
    ensures Accepts(s.fleet, b.tags, j)
    ensures ClaimIndex([j], b.id, false, Judge(s, b.id)) == 0
    ensures Poll(s, [j], a.id, x) == [j] && Poll(s, [j], b.id, x) == [j]
  {
    var q := [j];
    var wanted := set t | t in GPU.tags && t != "";
    assert wanted == {"gpu"} by {
      assert "gpu" in GPU.tags;
    }
    assert s.workers[0] == a && s.workers[1] == b;
    KnownWorker(s, a);
    KnownWorker(s, b);
    assert q[0] == j && !WorkingOn(q, j.target);
    assert Claimable(q, q[0], b.id, false, Judge(s, b.id));
    assert Load([], a.id) == 0 && Load([], b.id) == 0 && q[..0] == [];
    assert Load(q, a.id) == 0 && Load(q, b.id) == 0;
    FilterNone(q, (x: Job) => Suits(s.fleet, b, x));
    assert InPool(s, q, a, b) && !InPool(s, q, b, b);
    assert Pool(s, q, b, 0) == 0 && Pool(s, q, b, 1) == a.slots && Pool(s, q, b, 2) == a.slots;
    assert ShouldDefer(s, q, b);
    assert !Claimable(q, q[0], a.id, Defers(s, q, a.id), Judge(s, a.id));
    assert !Claimable(q, q[0], b.id, Defers(s, q, b.id), Judge(s, b.id));
  }
}
