/** The scheduler that a worker's poll runs: defer to better placed workers or claim, then
    hand the job over (get_next_job in api.py, is_online in registry.py). */
module Scheduler {
  import opened Common
  import opened Routing
  import opened Jobs
  import opened QueueOps
  import opened QueueInvariants
  import opened Eligibility

  /** A registry entry; perf and cpu are as last reported, 0 when missing. */
  datatype Worker = Worker(
    id: string,
    tags: Tags,
    slots: int,
    perf: real,
    cpu: real,
    disabled: bool,
    diskBlocked: bool,
    stopped: bool,
    lastSeen: int)

  /** What one poll sees besides the queue. */
  datatype Scene = Scene(fleet: Fleet, workers: seq<Worker>, now: int, threshold: int)

  /** How making the config bundle for a claimed job ends. */
  datatype Bundle = Built | ServerInstalling | Broken

  /** The registry is a dictionary keyed by id. */
  ghost predicate Registry(workers: seq<Worker>) {
    forall i, k | 0 <= i < k < |workers| :: workers[i].id != workers[k].id
  }

  predicate Online(s: Scene, w: Worker) { !w.stopped && s.now - w.lastSeen <= s.threshold }

  function Score(w: Worker): real { w.perf * (1.0 - w.cpu / 100.0) }

  predicate RunsOn(j: Job, id: string) { j.state == WORKING && j.assignedTo == Some(id) && id != "" }

  /** How many jobs a worker is compiling, as far as the queue knows. */
  function Load(q: Queue, id: string): nat {
    if q == [] then 0 else Load(q[..|q| - 1], id) + if RunsOn(q[|q| - 1], id) then 1 else 0
  }

  /** A primary job the worker could take right now. */
  predicate Suits(f: Fleet, w: Worker, j: Job) {
    j.state == PENDING && !j.followup && !PinnedElsewhere(j, w.id) && Accepts(f, w.tags, j)
  }

  function Mine(s: Scene, q: Queue, w: Worker): Queue { Filter(q, (j: Job) => Suits(s.fleet, w, j)) }

  /** o could take at least one of these jobs. */
  predicate CouldTakeOne(f: Fleet, o: Worker, jobs: Queue) {
    jobs == [] || exists j | j in jobs :: Accepts(f, o.tags, j) && !PinnedElsewhere(j, o.id)
  }

  predicate Available(s: Scene, w: Worker) { !w.disabled && !w.diskBlocked && Online(s, w) }

  predicate HasFreeSlot(q: Queue, w: Worker) { Load(q, w.id) < w.slots }

  /** o should go first: fewer jobs, or as many on a faster or less loaded machine. */
  predicate Outranks(q: Queue, o: Worker, w: Worker) {
    Load(q, o.id) < Load(q, w.id) || (Load(q, o.id) == Load(q, w.id) && Score(o) > Score(w))
  }

  predicate InPool(s: Scene, q: Queue, o: Worker, w: Worker) {
    && o.id != w.id
    && Available(s, o)
    && HasFreeSlot(q, o)
    && CouldTakeOne(s.fleet, o, Mine(s, q, w))
    && Outranks(q, o, w)
  }

  /** Free slots of the first n workers that outrank w. */
  function Pool(s: Scene, q: Queue, w: Worker, n: nat): nat
    requires n <= |s.workers|
  {
    if n == 0 then 0
    else
      var o := s.workers[n - 1];
      Pool(s, q, w, n - 1) + if InPool(s, q, o, w) then o.slots - Load(q, o.id) else 0
  }

  predicate ShouldDefer(s: Scene, q: Queue, w: Worker) {
    var free := Pool(s, q, w, |s.workers|);
    0 < free && |Mine(s, q, w)| <= free
  }

  // ---- when a worker defers, counted out ----

  /** How many jobs this worker is compiling. */
  ghost function Running(q: Queue, id: string): nat {
    |Positions(q, (j: Job) => j.state == WORKING && j.assignedTo == Some(id) && id != "")|
  }

  predicate FreeFor(j: Job, id: string) { j.pinned.None? || j.pinned.value == "" || j.pinned.value == id }

  /** A primary job that waits, that is not kept for another worker, and that w accepts. */
  predicate PrimaryFor(s: Scene, j: Job, w: Worker) {
    j.state == PENDING && !j.followup && FreeFor(j, w.id) && Accepts(s.fleet, w.tags, j)
  }

  /** How many primary jobs w may take. */
  ghost function Takeable(s: Scene, q: Queue, w: Worker): nat {
    |Positions(q, (j: Job) => PrimaryFor(s, j, w))|
  }

  /** o is another worker that is enabled, healthy and online and has a free slot; it could
      take one of w's primary jobs, if there are any; and it runs fewer jobs than w, or as
      many with more of its speed unused. */
  ghost predicate GoesAhead(s: Scene, q: Queue, o: Worker, w: Worker) {
    && o.id != w.id
    && !o.disabled && !o.diskBlocked && !o.stopped && s.now - o.lastSeen <= s.threshold
    && Running(q, o.id) < o.slots
    && (Takeable(s, q, w) > 0 ==>
          exists j | j in q :: PrimaryFor(s, j, w) && FreeFor(j, o.id) && Accepts(s.fleet, o.tags, j))
    && (Running(q, o.id) < Running(q, w.id)
        || (Running(q, o.id) == Running(q, w.id) && o.perf * (100.0 - o.cpu) > w.perf * (100.0 - w.cpu)))
  }

  /** The free slots of these workers together. */
  ghost function Room(s: Scene, q: Queue, ns: seq<nat>): int
    requires forall i | 0 <= i < |ns| :: ns[i] < |s.workers|
  {
    if ns == [] then 0
    else
      var front, o := ns[..|ns| - 1], s.workers[ns[|ns| - 1]];
      Room(s, q, front) + o.slots - Running(q, o.id)
  }

  /** Some other workers that go ahead of w have room for all the primary jobs it may take. */
  ghost predicate Covered(s: Scene, q: Queue, w: Worker) {
    exists ns: seq<nat> :: ns != [] && AllAhead(s, q, w, ns, |s.workers|) && Takeable(s, q, w) <= Room(s, q, ns)
  }

  /** Different workers among the first n, each of which goes ahead of w. */
  ghost predicate AllAhead(s: Scene, q: Queue, w: Worker, ns: seq<nat>, n: nat)
    requires n <= |s.workers|
  {
    && (forall i | 0 <= i < |ns| :: ns[i] < n && GoesAhead(s, q, s.workers[ns[i]], w))
    && forall i, k | 0 <= i < k < |ns| :: ns[i] < ns[k]
  }

  lemma {:induction false} LoadFilters(q: Queue, id: string)
    ensures Load(q, id) == |Filter(q, (j: Job) => RunsOn(j, id))|
  {
    if q != [] {
      LoadFilters(q[..|q| - 1], id);
    }
  }

  lemma LoadCounts(q: Queue, id: string)
    ensures Load(q, id) == Running(q, id)
  {
    LoadFilters(q, id);
    FilterCounts(q, (j: Job) => RunsOn(j, id));
    assert Positions(q, (j: Job) => RunsOn(j, id))
      == Positions(q, (j: Job) => j.state == WORKING && j.assignedTo == Some(id) && id != "");
  }

  lemma MineCounts(s: Scene, q: Queue, w: Worker)
    ensures |Mine(s, q, w)| == Takeable(s, q, w)
    ensures forall j :: j in Mine(s, q, w) <==> j in q && PrimaryFor(s, j, w)
  {
    hide Accepts;
    FilterCounts(q, (j: Job) => Suits(s.fleet, w, j));
    assert Positions(q, (j: Job) => Suits(s.fleet, w, j)) == Positions(q, (j: Job) => PrimaryFor(s, j, w));
  }

  /** Scores compare as speeds weighed by what the processor has left. */
  lemma ScoreCompares(o: Worker, w: Worker)
    ensures Score(o) > Score(w) <==> o.perf * (100.0 - o.cpu) > w.perf * (100.0 - w.cpu)
  {
    ScoreInPercent(o);
    ScoreInPercent(w);
  }

  lemma ScoreInPercent(w: Worker)
    ensures 100.0 * Score(w) == w.perf * (100.0 - w.cpu)
  {
    assert 100.0 * (1.0 - w.cpu / 100.0) == 100.0 - w.cpu;
  }

  /** Of two equally fast machines the less loaded one goes first. */
  lemma TieGoesToTheLessLoaded(o: Worker, w: Worker)
    requires o.perf == w.perf > 0.0
    ensures Score(o) > Score(w) <==> o.cpu < w.cpu
  {
    ScoreCompares(o, w);
    hide Score;
    GrowsWith(o.perf, 100.0 - o.cpu, 100.0 - w.cpu);
  }

  /** Of two equally loaded machines the faster one goes first. */
  lemma TieGoesToTheFaster(o: Worker, w: Worker)
    requires o.cpu == w.cpu < 100.0
    ensures Score(o) > Score(w) <==> o.perf > w.perf
  {
    ScoreCompares(o, w);
    hide Score;
    GrowsWith(100.0 - o.cpu, o.perf, w.perf);
  }

  lemma GrowsWith(k: real, a: real, b: real)
    requires k > 0.0
    ensures k * a > k * b <==> a > b
  {}

  lemma GoesAheadIsInPool(s: Scene, q: Queue, o: Worker, w: Worker)
    ensures InPool(s, q, o, w) == GoesAhead(s, q, o, w)
  {
    LoadCounts(q, o.id);
    LoadCounts(q, w.id);
    MineCounts(s, q, w);
    ScoreCompares(o, w);
    hide Load, Running, Takeable, Score, Accepts, Mine;
    var mine := Mine(s, q, w);
    assert mine == [] <==> Takeable(s, q, w) == 0;
  }

  /** The workers of the pool among the first n. */
  lemma {:induction false} PoolMembers(s: Scene, q: Queue, w: Worker, n: nat) returns (ns: seq<nat>)
    requires n <= |s.workers|
    ensures AllAhead(s, q, w, ns, n)
    ensures Room(s, q, ns) == Pool(s, q, w, n) && (ns == [] ==> Pool(s, q, w, n) == 0)
  {
    hide GoesAhead, InPool, Load, Running;
    ns := [];
    if n > 0 {
      ns := PoolMembers(s, q, w, n - 1);
      var o := s.workers[n - 1];
      GoesAheadIsInPool(s, q, o, w);
      LoadCounts(q, o.id);
      if InPool(s, q, o, w) {
        var front := ns;
        ns := front + [n - 1];
        assert ns[..|ns| - 1] == front;
      }
    }
  }

  lemma {:induction false} PoolHasRoom(s: Scene, q: Queue, w: Worker, ns: seq<nat>, n: nat)
    requires n <= |s.workers| && AllAhead(s, q, w, ns, n)
    ensures Room(s, q, ns) <= Pool(s, q, w, n) && (ns != [] ==> Pool(s, q, w, n) > 0)
    decreases n
  {
    hide GoesAhead, InPool, Load, Running;
    if n > 0 {
      var o := s.workers[n - 1];
      GoesAheadIsInPool(s, q, o, w);
      LoadCounts(q, o.id);
      AheadHasRoom(s, q, o, w);
      if ns != [] && ns[|ns| - 1] == n - 1 {
        PoolHasRoom(s, q, w, ns[..|ns| - 1], n - 1);
      } else {
        PoolHasRoom(s, q, w, ns, n - 1);
      }
    }
  }

  lemma AheadHasRoom(s: Scene, q: Queue, o: Worker, w: Worker)
    ensures GoesAhead(s, q, o, w) || InPool(s, q, o, w) ==> o.slots - Running(q, o.id) > 0
  {
    GoesAheadIsInPool(s, q, o, w);
  }

  /** A worker defers exactly when other workers that go ahead of it have free slots for all
      the primary jobs it may take. */
  lemma DefersIff(s: Scene, q: Queue, w: Worker)
    ensures ShouldDefer(s, q, w) <==> Covered(s, q, w)
  {
    MineCounts(s, q, w);
    hide GoesAhead, Room, Pool, Takeable, Mine;
    var ns := PoolMembers(s, q, w, |s.workers|);
    if Covered(s, q, w) {
      var ms: seq<nat> :|
        ms != [] && AllAhead(s, q, w, ms, |s.workers|) && Takeable(s, q, w) <= Room(s, q, ms);
      PoolHasRoom(s, q, w, ms, |s.workers|);
    }
  }

  /** A worker that runs fewer jobs than every other fit worker with a free slot never defers. */
  lemma IdlestNeverDefers(s: Scene, q: Queue, w: Worker)
    requires forall o | o in s.workers && o.id != w.id && !o.disabled && !o.diskBlocked && Online(s, o)
               && Running(q, o.id) < o.slots :: Running(q, w.id) < Running(q, o.id)
    ensures !ShouldDefer(s, q, w)
  {
    DefersIff(s, q, w);
    hide Running, ShouldDefer, Room, Takeable;
    forall ns: seq<nat> | ns != [] ensures !AllAhead(s, q, w, ns, |s.workers|) {
      if ns[0] < |s.workers| {
        assert !GoesAhead(s, q, s.workers[ns[0]], w);
      }
    }
  }

  /** A worker defers to a single one that runs fewer jobs, could take one of its jobs, and
      has free slots for all of them. */
  lemma DefersToTheIdler(s: Scene, q: Queue, w: Worker, o: Worker)
    requires o in s.workers && o.id != w.id && !o.disabled && !o.diskBlocked && Online(s, o)
    requires Running(q, o.id) < Running(q, w.id) && Running(q, o.id) < o.slots
    requires exists j | j in q :: PrimaryFor(s, j, w) && FreeFor(j, o.id) && Accepts(s.fleet, o.tags, j)
    requires Takeable(s, q, w) <= o.slots - Running(q, o.id)
    ensures ShouldDefer(s, q, w)
  {
    DefersIff(s, q, w);
    var k :| 0 <= k < |s.workers| && s.workers[k] == o;
    var ns := [k];
    hide Running, Takeable, ShouldDefer;
    assert Room(s, q, ns[..0]) == 0 && Room(s, q, ns) == o.slots - Running(q, o.id);
    assert AllAhead(s, q, w, ns, |s.workers|);
  }

  // ---- one poll ----

  function WorkerIndex(s: Scene, id: string): nat { FirstIndex(s.workers, (w: Worker) => w.id == id) }

  predicate Gated(s: Scene, id: string) {
    var k := WorkerIndex(s, id);
    k < |s.workers| && (s.workers[k].disabled || s.workers[k].diskBlocked)
  }

  /** A caller the registry does not know has no tags. */
  function TagsOf(s: Scene, id: string): Tags {
    var k := WorkerIndex(s, id);
    if k < |s.workers| then s.workers[k].tags else {}
  }

  predicate Defers(s: Scene, q: Queue, id: string) {
    var k := WorkerIndex(s, id);
    k < |s.workers| && ShouldDefer(s, q, s.workers[k])
  }

  function Judge(s: Scene, id: string): Job -> bool { (j: Job) => Accepts(s.fleet, TagsOf(s, id), j) }

  /** The job a poll hands out, by position; |q| when it hands out none. */
  function Pick(s: Scene, q: Queue, id: string): (i: nat)
    ensures i <= |q|
  {
    if Gated(s, id) then |q| else ClaimIndex(q, id, Defers(s, q, id), Judge(s, id))
  }

  /** A claimed job after its bundle was made: gone to the worker, back in the queue while
      the server installs its own ESPHome, or failed. */
  function HandedOff(j: Job, b: Bundle, now: int): Job {
    match b
    case Built => j
    case ServerInstalling =>
      if j.retries + 1 < MAX_RETRIES then Requeue(j)
      else Finish(j.(retries := j.retries + 1), false, None, false, now)
    case Broken => Finish(j, false, None, false, now)
  }

  function Poll(s: Scene, q: Queue, id: string, b: Bundle): Queue {
    var i := Pick(s, q, id);
    if i == |q| then q else q[i := HandedOff(Assign(q[i], id, s.now), b, s.now)]
  }

  // ---- the poll as the server runs it ----

  method CollectMine(s: Scene, q: Queue, w: Worker) returns (mine: Queue)
    ensures mine == Mine(s, q, w)
  {
    mine := [];
    for i := 0 to |q|
      invariant mine == Mine(s, q[..i], w)
    {
      FilterStep(q, (j: Job) => Suits(s.fleet, w, j), i);
      if q[i].state == PENDING && !q[i].followup && !PinnedElsewhere(q[i], w.id) && Accepts(s.fleet, w.tags, q[i]) {
        mine := mine + [q[i]];
      }
    }
    assert q[..|q|] == q;
  }

  function Entry(counts: map<string, nat>, id: string): nat { if id in counts then counts[id] else 0 }

  method CountLoads(q: Queue) returns (counts: map<string, nat>)
    ensures forall id :: Entry(counts, id) == Load(q, id)
  {
    counts := map[];
    for i := 0 to |q|
      invariant forall id :: Entry(counts, id) == Load(q[..i], id)
    {
      var j := q[i];
      assert q[..i + 1][..i] == q[..i];
      if j.state == WORKING && j.assignedTo.Some? && j.assignedTo.value != "" {
        var id := j.assignedTo.value;
        counts := counts[id := Entry(counts, id) + 1];
      }
    }
    assert q[..|q|] == q;
  }

  method AnyTakeable(f: Fleet, o: Worker, jobs: Queue) returns (any: bool)
    ensures any <==> exists j | j in jobs :: Accepts(f, o.tags, j) && !PinnedElsewhere(j, o.id)
  {
    for i := 0 to |jobs|
      invariant forall j | j in jobs[..i] :: !(Accepts(f, o.tags, j) && !PinnedElsewhere(j, o.id))
    {
      if Accepts(f, o.tags, jobs[i]) && !PinnedElsewhere(jobs[i], o.id) {
        return true;
      }
    }
    assert jobs[..|jobs|] == jobs;
    any := false;
  }

  method DecideDeferral(s: Scene, q: Queue, w: Worker) returns (defer: bool)
    ensures defer == ShouldDefer(s, q, w)
    ensures defer <==> Covered(s, q, w)
  {
    DefersIff(s, q, w);
    hide Covered;
    var mine := CollectMine(s, q, w);
    var counts := CountLoads(q);
    var mineActive := Entry(counts, w.id);
    var free: int := 0;
    for n := 0 to |s.workers|
      invariant free == Pool(s, q, w, n)
    {
      var o := s.workers[n];
      if o.id == w.id || o.disabled || !Online(s, o) || o.diskBlocked {
        continue;
      }
      var active := Entry(counts, o.id);
      var eligible := true;
      if |mine| > 0 {
        eligible := AnyTakeable(s.fleet, o, mine);
      }
      if !(active < o.slots) || !eligible {
        continue;
      }
      if active < mineActive || (active == mineActive && Score(o) > Score(w)) {
        free := free + o.slots - active;
      }
    }
    defer := free > 0 && |mine| <= free;
  }

  method FindWorker(s: Scene, id: string) returns (k: nat)
    ensures k == WorkerIndex(s, id)
  {
    k := 0;
    while k < |s.workers| && s.workers[k].id != id
      invariant 0 <= k <= |s.workers|
      invariant forall m | 0 <= m < k :: s.workers[m].id != id
    {
      k := k + 1;
    }
  }

  /** The gate for disabled and disk-blocked workers, and the decision to defer. */
  method Admit(s: Scene, q: Queue, id: string) returns (gated: bool, defer: bool)
    ensures gated == Gated(s, id) && (!gated ==> defer == Defers(s, q, id))
  {
    hide ShouldDefer;
    var k := FindWorker(s, id);
    if k == |s.workers| {
      return false, false;
    }
    var w := s.workers[k];
    if w.disabled || w.diskBlocked {
      return true, false;
    }
    defer := DecideDeferral(s, q, w);
    gated := false;
  }
}
