/** The queue, queue.json and the history table under crashes. Operations start one at a
    time (the lock), their steps run one by one, and the process may die before any of
    them; a restart reloads queue.json. The invariant of this file is what makes the
    theorems of QueueTheorems true. */
module QueueMachine {
  import opened Common
  import opened Jobs
  import opened QueueOps
  import opened QueueInvariants

  type Counter = map<JobId, nat>

  /** mem, disk and hist are the program's; the rest only counts and remembers. */
  datatype Core = Core(
    mem: Queue,
    disk: Queue,             // what queue.json holds
    hist: History,
    issued: set<JobId>,      // every uuid ever drawn
    pending: set<JobId>,     // drawn by the running operation, not yet in the queue
    claims: Counter,         // how often a job id was handed to a worker
    acks: Counter,           // how often a compile result was accepted for a job id
    restarts: nat,
    clean: bool)             // no crash has hit a running operation

  datatype Sys = Sys(core: Core, todo: seq<Micro>)

  datatype Event =
    | Start(op: Op)
    | Step
    | Crash
    | LoseWrite // a queue.json write that fails; the source logs it and carries on

  const EMPTY := Core([], [], map[], {}, {}, map[], map[], 0, true)

  function Count(c: Counter, id: JobId): nat { if id in c then c[id] else 0 }

  function Bump(c: Counter, id: JobId): Counter { c[id := Count(c, id) + 1] }

  function Apply(c: Core, m: Micro): Core {
    match m
    case Update(to, claimed, _) =>
      c.(mem := to, pending := c.pending - Ids(to),
         claims := if claimed.Some? then Bump(c.claims, claimed.value) else c.claims)
    case Persist => c.(disk := c.mem)
    case Record(j) => c.(hist := Upsert(c.hist, j))
    case Ack(id) => c.(acks := Bump(c.acks, id))
  }

  function Begin(c: Core, op: Op): Core {
    c.(issued := c.issued + FreshIds(op), pending := FreshIds(op))
  }

  function Restart(c: Core, idle: bool): Core {
    c.(mem := Recovered(c.disk), pending := {}, restarts := c.restarts + 1, clean := c.clean && idle)
  }

  /** An event that is not possible in s leaves s as it is. */
  ghost function Next(s: Sys, e: Event): Sys {
    match e
    case Start(op) =>
      if s.todo == [] && BringsNewIds(op, s.core.issued)
      then Sys(Begin(s.core, op), Script(s.core.mem, op)) else s
    case Step => if s.todo == [] then s else Sys(Apply(s.core, s.todo[0]), s.todo[1..])
    case Crash => Sys(Restart(s.core, s.todo == []), RecoveryScript(s.core.disk))
    case LoseWrite => if s.todo != [] && s.todo[0].Persist? then s.(todo := s.todo[1..]) else s
  }

  ghost function RunFrom(s: Sys, es: seq<Event>): Sys {
    if es == [] then s else Next(RunFrom(s, es[..|es| - 1]), es[|es| - 1])
  }

  ghost function Run(es: seq<Event>): Sys { RunFrom(Sys(EMPTY, []), es) }

  /** Every queue.json write succeeds. */
  ghost predicate WritesSucceed(es: seq<Event>) { forall e | e in es :: !e.LoseWrite? }

  function Play(c: Core, script: seq<Micro>): Core
    decreases script
  {
    if script == [] then c else Play(Apply(c, script[0]), script[1..])
  }

  // ---- the invariant ----

  /** Requeues are counted, so a waiting job was claimed at most once per requeue or restart. */
  function Cap(retries: nat): nat { if retries < MAX_RETRIES then retries else MAX_RETRIES - 1 }

  predicate MemBound(n: nat, j: Job, restarts: nat) {
    if Waiting(j) then n <= Cap(j.retries) + restarts
    else if j.state == WORKING then n <= Cap(j.retries) + 1 + restarts
    else n <= MAX_RETRIES + restarts
  }

  predicate DiskBound(n: nat, j: Job, restarts: nat) {
    n <= (if Terminal(j) then MAX_RETRIES else Cap(j.retries) + 1) + restarts
  }

  ghost predicate MemBounded(q: Queue, claims: Counter, restarts: nat) {
    forall j | j in q :: MemBound(Count(claims, j.id), j, restarts)
  }

  ghost predicate DiskBounded(q: Queue, claims: Counter, restarts: nat) {
    forall j | j in q :: DiskBound(Count(claims, j.id), j, restarts)
  }

  predicate SameVerdict(a: Job, b: Job) {
    Terminal(b) && b.state == a.state && b.finishedAt == a.finishedAt
  }

  /** No history row and no accepted result contradicts a job of q. */
  ghost predicate NoContradiction(q: Queue, c: Core) {
    forall j | j in q ::
      && (j.id in c.hist ==> Terminal(j) && c.hist[j.id].state == j.state && c.hist[j.id].finishedAt == j.finishedAt)
      && (j.id in c.acks ==> Terminal(j))
  }

  ghost predicate Identities(c: Core) {
    && WellFormed(c.mem) && WellFormed(c.disk)
    && Ids(c.mem) + Ids(c.disk) + c.hist.Keys + c.claims.Keys + c.acks.Keys + c.pending <= c.issued
    && c.pending !! Ids(c.mem) + Ids(c.disk) + c.hist.Keys + c.claims.Keys + c.acks.Keys
  }

  ghost predicate Verdicts(c: Core) {
    && NoContradiction(c.mem, c) && NoContradiction(c.disk, c)
    && (forall id | id in c.hist :: TerminalState(c.hist[id].state))
    && (forall m, d | m in c.mem && d in c.disk && m.id == d.id && Terminal(d) :: SameVerdict(d, m))
    && (forall id | id in c.acks :: c.acks[id] <= 1)
  }

  ghost predicate Bounds(c: Core) {
    && MemBounded(c.mem, c.claims, c.restarts)
    && DiskBounded(c.disk, c.claims, c.restarts)
    && (forall id | id in c.claims :: c.claims[id] <= MAX_RETRIES + c.restarts)
  }

  /** What holds between any two steps, and therefore after a crash as well. */
  ghost predicate Base(c: Core) { Identities(c) && Verdicts(c) && Bounds(c) }

  /** Every finished job of q that the update drops already has its history row. */
  ghost predicate DropsOnlyRecorded(c: Core, to: Queue) {
    forall j | j in c.mem && Terminal(j) && j.id !in Ids(to) :: j.id in c.hist && c.hist[j.id] == RowOf(j)
  }

  ghost predicate StepOk(c: Core, m: Micro) {
    match m
    case Update(to, claimed, discards) =>
      && WellFormed(to)
      && Evolves(c.mem, to, claimed)
      && Ids(to) <= Ids(c.mem) + c.pending
      && (claimed.Some? ==> forall d | d in c.disk && d.id == claimed.value ::
            !Terminal(d) && Count(c.claims, d.id) <= Cap(d.retries) + c.restarts)
      && (!discards ==> DropsOnlyRecorded(c, to))
    case Persist => true
    case Record(j) =>
      Terminal(j) ==>
        && j.id in Ids(c.mem) && j.id in Ids(c.disk)
        && forall x | (x in c.mem || x in c.disk) && x.id == j.id :: SameVerdict(j, x)
    case Ack(id) =>
      && id in c.issued && id !in c.pending
      && Count(c.acks, id) == 0
      && forall x | (x in c.mem || x in c.disk) && x.id == id :: Terminal(x)
  }

  ghost predicate StepsOk(c: Core, script: seq<Micro>)
    decreases script
  {
    script == [] || (StepOk(c, script[0]) && StepsOk(Apply(c, script[0]), script[1..]))
  }

  predicate InSync(m: Job, d: Job) {
    && m.id == d.id
    && (Terminal(m) || Terminal(d) ==> SameVerdict(d, m) && (m.ota == d.ota || m.ota == RecoverOne(d).ota))
    && (Waiting(m) ==> m.retries == d.retries)
  }

  /** Between operations the queue and queue.json list the same jobs. */
  ghost predicate Synced(c: Core) {
    |c.mem| == |c.disk| && forall i | 0 <= i < |c.mem| :: InSync(c.mem[i], c.disk[i])
  }

  /** Every finished job still in the queue has a history row saying the same. */
  ghost predicate HistoryAgrees(c: Core) {
    forall j | j in c.mem && Terminal(j) :: j.id in c.hist && c.hist[j.id] == RowOf(j)
  }

  ghost predicate Settled(c: Core) { Synced(c) && (c.clean ==> HistoryAgrees(c)) }

  /** The state is good, and letting the running operation finish keeps it good. */
  ghost predicate Inv(s: Sys) {
    Base(s.core) && StepsOk(s.core, s.todo) && Settled(Play(s.core, s.todo))
  }

  // ---- scripts ----

  lemma {:induction false} ScriptSplit(c: Core, a: seq<Micro>, b: seq<Micro>)
    ensures Play(c, a + b) == Play(Play(c, a), b)
    ensures StepsOk(c, a) && StepsOk(Play(c, a), b) ==> StepsOk(c, a + b)
    decreases |a|
  {
    if a == [] {
      assert a + b == b;
    } else {
      assert (a + b)[0] == a[0] && (a + b)[1..] == a[1..] + b;
      ScriptSplit(Apply(c, a[0]), a[1..], b);
    }
  }

  lemma ScriptOne(c: Core, m: Micro)
    ensures Play(c, [m]) == Apply(c, m)
    ensures StepOk(c, m) ==> StepsOk(c, [m])
  {
    assert [m][1..] == [];
    assert StepsOk(Apply(c, m), [m][1..]);
  }

  lemma ScriptTwo(c: Core, m: Micro, n: Micro)
    ensures Play(c, [m, n]) == Apply(Apply(c, m), n)
    ensures StepOk(c, m) && StepOk(Apply(c, m), n) ==> StepsOk(c, [m, n])
  {
    ScriptOne(c, m);
    ScriptOne(Apply(c, m), n);
    ScriptSplit(c, [m], [n]);
    assert [m, n] == [m] + [n];
  }

  // ---- each step keeps Base ----

  lemma UpdateKeepsIdentities(c: Core, m: Micro)
    requires Identities(c) && m.Update? && StepOk(c, m)
    ensures Identities(Apply(c, m))
  {
    assert Apply(c, m).claims.Keys <= c.claims.Keys + Ids(c.mem);
  }

  lemma EvolvedVerdict(c: Core, m: Micro, j: Job)
    requires Identities(c) && Verdicts(c) && m.Update? && StepOk(c, m) && j in m.to
    ensures j.id in c.hist ==> Terminal(j) && c.hist[j.id].state == j.state && c.hist[j.id].finishedAt == j.finishedAt
    ensures j.id in c.acks ==> Terminal(j)
    ensures forall d | d in c.disk && j.id == d.id && Terminal(d) :: SameVerdict(d, j)
  {
    hide WellFormed, DropsOnlyRecorded;
    if j.id in Ids(c.mem) {
      var a :| a in c.mem && a.id == j.id;
      assert JobStep(a, j, m.claimed);
    } else {
      assert j.id in Ids(m.to) && j.id in c.pending;
      assert forall d | d in c.disk :: d.id in Ids(c.disk);
    }
  }

  lemma UpdateKeepsVerdicts(c: Core, m: Micro)
    requires Identities(c) && Verdicts(c) && m.Update? && StepOk(c, m)
    ensures Verdicts(Apply(c, m))
  {
    forall j | j in m.to
      ensures j.id in c.hist ==> Terminal(j) && c.hist[j.id].state == j.state && c.hist[j.id].finishedAt == j.finishedAt
      ensures j.id in c.acks ==> Terminal(j)
      ensures forall d | d in c.disk && j.id == d.id && Terminal(d) :: SameVerdict(d, j)
    {
      EvolvedVerdict(c, m, j);
    }
    hide Identities, StepOk, Terminal, SameVerdict;
  }

  lemma EvolvedBounds(q: Queue, to: Queue, claimed: Option<JobId>, claims: Counter, restarts: nat)
    requires Evolves(q, to, claimed) && MemBounded(q, claims, restarts)
    requires forall id | id in claims :: id !in Ids(to) - Ids(q)
    ensures MemBounded(to, if claimed.Some? then Bump(claims, claimed.value) else claims, restarts)
    ensures claimed.Some? ==> Count(claims, claimed.value) < MAX_RETRIES + restarts
  {
    var after := if claimed.Some? then Bump(claims, claimed.value) else claims;
    forall j | j in to ensures MemBound(Count(after, j.id), j, restarts) {
      if j.id in Ids(q) {
        var a :| a in q && a.id == j.id;
        assert JobStep(a, j, claimed) && MemBound(Count(claims, a.id), a, restarts);
      } else {
        assert j.id in Ids(to) - Ids(q);
      }
    }
    if claimed.Some? {
      var a :| a in q && a.id == claimed.value;
      var b :| b in to && b.id == claimed.value;
      assert JobStep(a, b, claimed) && MemBound(Count(claims, a.id), a, restarts);
    }
  }

  lemma UpdateKeepsBounds(c: Core, m: Micro)
    requires Identities(c) && Bounds(c) && m.Update? && StepOk(c, m)
    ensures Bounds(Apply(c, m))
  {
    EvolvedBounds(c.mem, m.to, m.claimed, c.claims, c.restarts);
    if m.claimed.Some? {
      var after := Bump(c.claims, m.claimed.value);
      forall d | d in c.disk ensures DiskBound(Count(after, d.id), d, c.restarts) {
        assert DiskBound(Count(c.claims, d.id), d, c.restarts);
      }
    }
  }

  lemma PersistKeepsBase(c: Core)
    requires Base(c)
    ensures Base(Apply(c, Persist))
  {
    forall a, b | a in c.mem && b in c.mem && a.id == b.id && Terminal(b) ensures SameVerdict(b, a) {
      SameJob(c.mem, a, b);
    }
    forall j | j in c.mem ensures DiskBound(Count(c.claims, j.id), j, c.restarts) {
      assert MemBound(Count(c.claims, j.id), j, c.restarts);
    }
  }

  lemma RecordKeepsVerdicts(c: Core, j: Job)
    requires Base(c) && StepOk(c, Record(j))
    ensures Verdicts(Apply(c, Record(j)))
  {
    hide WellFormed, Bounds;
  }

  lemma RecordKeepsBase(c: Core, j: Job)
    requires Base(c) && StepOk(c, Record(j))
    ensures Base(Apply(c, Record(j)))
  {
    RecordKeepsVerdicts(c, j);
    hide WellFormed, MemBounded, DiskBounded, Verdicts;
  }

  lemma AckKeepsBase(c: Core, id: JobId)
    requires Base(c) && StepOk(c, Ack(id))
    ensures Base(Apply(c, Ack(id)))
  {
    hide WellFormed, MemBounded, DiskBounded;
  }

  lemma StepKeepsBase(c: Core, m: Micro)
    requires Base(c) && StepOk(c, m)
    ensures Base(Apply(c, m))
  {
    match m
    case Update(_, _, _) =>
      UpdateKeepsIdentities(c, m);
      UpdateKeepsVerdicts(c, m);
      UpdateKeepsBounds(c, m);
    case Persist => PersistKeepsBase(c);
    case Record(j) => RecordKeepsBase(c, j);
    case Ack(id) => AckKeepsBase(c, id);
  }
}
