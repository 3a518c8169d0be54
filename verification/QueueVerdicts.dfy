/** What is left when queue.json writes may fail, and exactly when a verdict is final then:
    a failed write is only logged, and the history row is written all the same. */
module QueueVerdicts {
  import opened Common
  import opened Jobs
  import opened QueueOps
  import opened QueueInvariants
  import opened QueueMachine
  import opened QueueScripts
  import opened QueueReplace
  import opened QueueMeaning
  import opened QueueTheorems
  import opened Routing

  // ---- 1. crashes that find the latest write on disk ----

  predicate AtSave(s: Sys) { s.todo != [] && s.todo[0].Persist? }

  /** The latest queue.json write that was attempted was lost. */
  ghost predicate Dirty(es: seq<Event>) {
    if es == [] then false
    else
      var front, e := es[..|es| - 1], es[|es| - 1];
      if AtSave(Run(front)) && (e.LoseWrite? || e.Step?) then e.LoseWrite? else Dirty(front)
  }

  ghost predicate CleanCrashes(es: seq<Event>) {
    forall k | 0 <= k < |es| && es[k].Crash? :: !Dirty(es[..k])
  }

  predicate SameButDisk(s: Sys, t: Sys) { s.todo == t.todo && s.core == t.core.(disk := s.core.disk) }

  /** good is a run without lost writes that goes through the same states, but for what is
      on disk after a lost write. */
  ghost predicate Shadows(es: seq<Event>, good: seq<Event>) {
    && WritesSucceed(good)
    && SameButDisk(Run(es), Run(good))
    && (!Dirty(es) ==> Run(es) == Run(good))
  }

  lemma EventSnoc(es: seq<Event>, e: Event)
    ensures Run(es + [e]) == Next(Run(es), e)
    ensures Dirty(es + [e])
      == if AtSave(Run(es)) && (e.LoseWrite? || e.Step?) then e.LoseWrite? else Dirty(es)
  {
    assert (es + [e])[..|es|] == es;
  }

  lemma ShadowNext(s: Sys, t: Sys, e: Event)
    requires SameButDisk(s, t) && (e.Crash? ==> s == t)
    ensures e.LoseWrite? && AtSave(s) ==> SameButDisk(Next(s, e), Next(t, Step))
    ensures e.LoseWrite? && !AtSave(s) ==> Next(s, e) == s
    ensures !e.LoseWrite? ==> SameButDisk(Next(s, e), Next(t, e))
    ensures e.Step? && AtSave(s) ==> Next(s, e) == Next(t, e)
  {
    hide Script, BringsNewIds;
  }

  lemma ShadowStep(es: seq<Event>, good: seq<Event>, e: Event) returns (more: seq<Event>)
    requires Shadows(es, good) && (e.Crash? ==> !Dirty(es))
    ensures WritesSucceed(more) && Shadows(es + [e], good + more)
  {
    EventSnoc(es, e);
    ShadowNext(Run(es), Run(good), e);
    hide Next, SameButDisk, Run, Dirty;
    if !e.LoseWrite? {
      more := [e];
      EventSnoc(good, e);
    } else if AtSave(Run(es)) {
      more := [Step];
      EventSnoc(good, Step);
    } else {
      more := [];
      assert good + more == good;
    }
  }

  lemma {:induction false} ShadowOn(es: seq<Event>, good: seq<Event>, more: seq<Event>) returns (goodMore: seq<Event>)
    requires Shadows(es, good) && CleanCrashes(es + more)
    ensures WritesSucceed(goodMore) && Shadows(es + more, good + goodMore)
  {
    hide Shadows, Dirty;
    if more == [] {
      goodMore := [];
      assert es + more == es && good + goodMore == good;
    } else {
      var n := |more| - 1;
      var front := es + more[..n];
      assert (es + more)[..|front|] == front && (es + more)[|front|] == more[n];
      assert forall k | 0 <= k < |front| :: front[..k] == (es + more)[..k];
      var g := ShadowOn(es, good, more[..n]);
      var last := ShadowStep(front, good + g, more[n]);
      goodMore := g + last;
      assert front + [more[n]] == es + more;
      Assoc(good, g, last);
    }
  }

  /** A verdict is final, over any crashes and any lost writes, as long as no crash comes
      while the latest queue.json write is a lost one. */
  lemma VerdictIsFinalIfCrashesAreClean(es: seq<Event>, more: seq<Event>, id: JobId)
    requires CleanCrashes(es + more) && id in Run(es).core.hist
    ensures RowStands(Run(es + more).core, id, Run(es).core.hist[id].state)
  {
    ShadowOfNothing();
    hide Shadows, Dirty, Run;
    forall k | 0 <= k < |es| && es[k].Crash? ensures !Dirty(es[..k]) {
      assert (es + more)[k] == es[k] && (es + more)[..k] == es[..k];
    }
    assert [] + es == es;
    var good := ShadowOn([], [], es);
    assert [] + good == good;
    var goodMore := ShadowOn(es, good, more);
    SameRows(es, good);
    SameRows(es + more, good + goodMore);
    VerdictIsFinal(good, goodMore, id);
  }

  lemma ShadowOf(es: seq<Event>) returns (good: seq<Event>)
    requires CleanCrashes(es)
    ensures Shadows(es, good) && Inv(Run(good))
  {
    ShadowOfNothing();
    hide Shadows, Dirty, Run, Inv;
    assert [] + es == es;
    good := ShadowOn([], [], es);
    assert [] + good == good;
    WellShadowed(es, good);
  }

  lemma WellShadowed(es: seq<Event>, good: seq<Event>)
    requires Shadows(es, good)
    ensures Inv(Run(good))
  {
    RunInv(good);
  }

  /** A job id is handed out at most MAX_RETRIES times plus once per restart. */
  lemma BoundedExecution(es: seq<Event>, id: JobId)
    requires CleanCrashes(es)
    ensures Count(Run(es).core.claims, id) <= MAX_RETRIES + Run(es).core.restarts
  {
    var good := ShadowOf(es);
  }

  /** At most one compile result is ever accepted for a job id. */
  lemma OneResultPerJob(es: seq<Event>, id: JobId)
    requires CleanCrashes(es)
    ensures Count(Run(es).core.acks, id) <= 1
  {
    var good := ShadowOf(es);
  }

  /** Without lost writes every crash is clean. */
  lemma {:induction false} NothingLost(es: seq<Event>)
    requires WritesSucceed(es)
    ensures !Dirty(es) && CleanCrashes(es)
  {
    if es != [] {
      var front := es[..|es| - 1];
      NothingLost(front);
      forall k | 0 <= k < |es| && es[k].Crash? ensures !Dirty(es[..k]) {
        assert k < |front| ==> front[..k] == es[..k];
      }
    }
  }

  lemma ShadowOfNothing()
    ensures Shadows([], [])
  {}

  lemma SameRows(es: seq<Event>, good: seq<Event>)
    requires Shadows(es, good)
    ensures Run(es).core.hist == Run(good).core.hist && WritesSucceed(good)
  {}

  // ---- 2. any run ----

  /** Nothing about the queue depends on rows that queue.json contradicts, so such a system
      t keeps pace with s. */
  ghost predicate Twins(s: Sys, t: Sys) {
    && s.todo == t.todo && s.core.mem == t.core.mem
    && s.core.issued == t.core.issued && s.core.pending == t.core.pending
    && (forall id | id in t.core.hist :: id in s.core.hist && s.core.hist[id].state == t.core.hist[id].state)
  }

  /** What stays true of a system whatever is lost. */
  ghost predicate Sane(c: Core) {
    && WellFormed(c.disk) && Ids(c.disk) + c.hist.Keys <= c.issued
    && Ids(c.disk) !! c.pending
    && forall id | id in c.hist :: TerminalState(c.hist[id].state)
  }

  /** queue.json does not contradict the row. */
  predicate AgreesWithRow(disk: Queue, id: JobId, state: JobState) {
    forall j | j in disk && j.id == id :: Terminal(j) && j.state == state
  }

  /** The rows that queue.json does not contradict, as queue.json would have them. */
  function Believed(disk: Queue, hist: History): History {
    map id | id in hist && AgreesWithRow(disk, id, hist[id].state) ::
      if Has(disk, id) then RowOf(disk[IndexOf(disk, id)]) else hist[id]
  }

  /** A system that knows only this queue.json and the believable part of history. */
  function Reborn(c: Core): Core {
    Core(c.disk, c.disk, Believed(c.disk, c.hist), c.issued, {}, map[], map[], 0, false)
  }

  lemma BelievedRows(disk: Queue, hist: History, j: Job)
    requires Pairwise(disk, DistinctPair) && j in disk && j.id in Believed(disk, hist)
    ensures Terminal(j) && Believed(disk, hist)[j.id] == RowOf(j) && j.state == hist[j.id].state
  {
    FoundById(disk, j);
  }

  lemma BelievedStates(disk: Queue, hist: History)
    requires Pairwise(disk, DistinctPair)
    ensures forall id | id in Believed(disk, hist) :: Believed(disk, hist)[id].state == hist[id].state
  {
    forall id | id in Believed(disk, hist) ensures Believed(disk, hist)[id].state == hist[id].state {
      HasIffIds(disk, id);
      if Has(disk, id) {
        BelievedRows(disk, hist, disk[IndexOf(disk, id)]);
      }
    }
  }

  lemma RebornBase(c: Core)
    requires Sane(c)
    ensures Base(Reborn(c))
  {
    var r := Reborn(c);
    hide Believed, Coherent, MemBound, DiskBound;
    BelievedStates(c.disk, c.hist);
    BelievedKeys(c.disk, c.hist);
    forall j | j in c.disk ensures
      j.id in r.hist ==> Terminal(j) && r.hist[j.id].state == j.state && r.hist[j.id].finishedAt == j.finishedAt
    {
      if j.id in r.hist {
        BelievedRows(c.disk, c.hist, j);
      }
    }
    forall m, d | m in c.disk && d in c.disk && m.id == d.id && Terminal(d) ensures SameVerdict(d, m) {
      SameJob(c.disk, m, d);
    }
    RebornBounds(c.disk);
  }

  lemma BelievedKeys(disk: Queue, hist: History)
    ensures Believed(disk, hist).Keys <= hist.Keys
  {}

  lemma RebornBounds(q: Queue)
    ensures MemBounded(q, map[], 0) && DiskBounded(q, map[], 0)
  {}

  function Forgetful(c: Core): Core { c.(restarts := 0) }

  /** Recording does not depend on how often there was a restart. */
  lemma {:induction false} RecordsForget(c: Core, js: seq<Job>)
    requires StepsOk(c, Records(js))
    ensures StepsOk(Forgetful(c), Records(js)) && Play(Forgetful(c), Records(js)) == Forgetful(Play(c, Records(js)))
    decreases |js|
  {
    hide Base;
    if js != [] {
      assert Records(js)[1..] == Records(js[1..]);
      assert Apply(Forgetful(c), Record(js[0])) == Forgetful(Apply(c, Record(js[0])));
      RecordsForget(Apply(c, Record(js[0])), js[1..]);
    }
  }

  lemma ForgetfulBase(c: Core)
    requires Base(c) && c.claims == map[]
    ensures Base(Forgetful(c))
  {
    hide WellFormed;
    RebornBounds(c.mem);
    RebornBounds(c.disk);
  }

  lemma ForgetfulSettled(c: Core)
    requires Settled(c)
    ensures Settled(Forgetful(c))
  {
    hide InSync;
  }

  /** After a crash the reborn system, restarted as well, is a twin that never lost a write,
      and counts from there. */
  lemma CrashedTwin(c: Core, idle: bool) returns (t: Sys)
    requires Sane(c)
    ensures t == Sys(Forgetful(Restart(Reborn(c), false)), RecoveryScript(c.disk))
    ensures Inv(t) && Twins(Sys(Restart(c, idle), RecoveryScript(c.disk)), t)
  {
    var r := Restart(Reborn(c), false);
    t := Sys(Forgetful(r), RecoveryScript(c.disk));
    RebornBase(c);
    BelievedStates(c.disk, c.hist);
    BelievedKeys(c.disk, c.hist);
    RestartKeepsBase(Reborn(c), false);
    RecoverySound(Reborn(c), false);
    hide Believed, Base, Sound, Settled, StrandedJobs, StepsOk, Play;
    SoundSplit(r, t.todo);
    RecordsForget(r, StrandedJobs(c.disk));
    ForgetfulBase(r);
    ForgetfulSettled(Play(r, t.todo));
    assert Settled(Play(t.core, t.todo));
  }

  lemma SoundSplit(c: Core, script: seq<Micro>)
    requires Sound(c, script)
    ensures StepsOk(c, script) && Settled(Play(c, script))
  {}

  lemma TwinStart(s: Sys, t: Sys, op: Op)
    requires Twins(s, t) && Sane(s.core)
    ensures Twins(Next(s, Start(op)), Next(t, Start(op))) && Sane(Next(s, Start(op)).core)
  {
    hide Script, WellFormed;
  }

  lemma TwinStep(s: Sys, t: Sys)
    requires Inv(t) && Twins(s, t) && Sane(s.core)
    ensures Twins(Next(s, Step), Next(t, Step)) && Sane(Next(s, Step).core)
  {
    hide WellFormed, Settled, Play, Verdicts, Bounds;
    if s.todo != [] {
      match s.todo[0]
      case Update(_, _, _) =>
      case Persist =>
      case Record(j) => assert StepOk(t.core, Record(j));
      case Ack(_) =>
    }
  }

  lemma TwinLose(s: Sys, t: Sys)
    requires Inv(t) && Twins(s, t) && Sane(s.core) && AtSave(s)
    ensures Twins(Next(s, LoseWrite), Next(t, Step)) && Sane(Next(s, LoseWrite).core)
  {
    hide WellFormed, Settled, Play, StepsOk, Base;
  }

  /** Every run, whatever is lost in it, has such a twin. */
  lemma {:induction false} AnyRun(es: seq<Event>) returns (t: Sys)
    ensures Inv(t) && Twins(Run(es), t) && Sane(Run(es).core) && Counted(Run(es).core, t.core)
  {
    if es == [] {
      RunInv([]);
      t := Run([]);
    } else {
      var front, e := es[..|es| - 1], es[|es| - 1];
      t := AnyRun(front);
      hide Inv, Twins, Sane, Counted;
      match e
      case Start(op) =>
        TwinStart(Run(front), t, op);
        CountedNext(Run(front), t, e, e);
        NextKeepsInv(t, e);
        t := Next(t, e);
      case Step =>
        TwinStep(Run(front), t);
        CountedNext(Run(front), t, e, e);
        NextKeepsInv(t, e);
        t := Next(t, e);
      case Crash =>
        CrashSane(Run(front).core, Run(front).todo == []);
        var u := CrashedTwin(Run(front).core, Run(front).todo == []);
        CountedCrash(Run(front), t, u.core);
        t := u;
      case LoseWrite =>
        if AtSave(Run(front)) {
          TwinLose(Run(front), t);
          CountedNext(Run(front), t, e, Step);
          NextKeepsInv(t, Step);
          t := Next(t, Step);
        }
    }
  }

  // ---- counting in any run ----

  /** t has counted since the last restart of s. */
  ghost predicate Counted(s: Core, t: Core) {
    && t.restarts == 0
    && forall id: JobId ::
         && Count(s.claims, id) <= MAX_RETRIES * s.restarts + Count(t.claims, id)
         && Count(s.acks, id) <= s.restarts + Count(t.acks, id)
  }

  lemma CountedApply(s: Core, t: Core, m: Micro)
    requires Counted(s, t)
    ensures Counted(Apply(s, m), Apply(t, m))
  {
    hide Upsert, Ids;
    forall id: JobId
      ensures Count(Apply(s, m).claims, id) <= MAX_RETRIES * s.restarts + Count(Apply(t, m).claims, id)
      ensures Count(Apply(s, m).acks, id) <= s.restarts + Count(Apply(t, m).acks, id)
    {
      assert Count(s.claims, id) <= MAX_RETRIES * s.restarts + Count(t.claims, id);
    }
  }

  lemma CountedNext(s: Sys, t: Sys, e: Event, f: Event)
    requires Twins(s, t) && Counted(s.core, t.core) && !e.Crash?
    requires f == (if e.LoseWrite? then Step else e) && (e.LoseWrite? ==> AtSave(s))
    ensures Counted(Next(s, e).core, Next(t, f).core)
  {
    hide Script, Apply;
    if e.Step? && s.todo != [] {
      CountedApply(s.core, t.core, s.todo[0]);
    }
    if e.LoseWrite? {
      SavedAlike(t.core);
    }
  }

  lemma SavedAlike(c: Core)
    ensures Apply(c, Persist) == c.(disk := c.mem)
  {}

  lemma CountedCrash(s: Sys, t: Sys, u: Core)
    requires Inv(t) && Counted(s.core, t.core) && u.restarts == 0
    ensures Counted(Next(s, Crash).core, u)
  {
    hide Recovered, RecoveryScript, Identities, StepsOk, Settled, Play;
    forall id: JobId
      ensures Count(s.core.claims, id) <= MAX_RETRIES * (s.core.restarts + 1)
        && Count(s.core.acks, id) <= s.core.restarts + 1
    {
      assert Count(t.core.claims, id) <= MAX_RETRIES && Count(t.core.acks, id) <= 1;
    }
  }

  /** In every reachable state, whatever was lost: the fields of each job agree with its
      state, ids are distinct, no WORKING job is flagged as a follow-up, every follow-up
      compiles, and each target has at most one waiting job that is one. */
  lemma JobsAreCoherent(es: seq<Event>)
    ensures WellFormed(Run(es).core.mem) && WellFormed(Run(es).core.disk)
  {
    var t := AnyRun(es);
  }

  /** In every run, whatever is lost in it: the start and each restart allow MAX_RETRIES
      more hand-outs of a job id and one more accepted compile result, and no more. */
  lemma ExecutionInAnyRun(es: seq<Event>, id: JobId)
    ensures Count(Run(es).core.claims, id) <= MAX_RETRIES * (Run(es).core.restarts + 1)
    ensures Count(Run(es).core.acks, id) <= Run(es).core.restarts + 1
  {
    hide Run;
    var t := AnyRun(es);
    assert Count(t.core.claims, id) <= MAX_RETRIES && Count(t.core.acks, id) <= 1;
  }

  lemma CrashSane(c: Core, idle: bool)
    requires Sane(c)
    ensures Sane(Restart(c, idle))
  {}

  // ---- 3. after a restart ----

  ghost predicate Locked(s: Sys, t: Sys) { Twins(s, t) && s.core.disk == t.core.disk }

  lemma LockedApply(s: Sys, t: Sys)
    requires Locked(s, t) && s.todo != []
    ensures Locked(Next(s, Step), Next(t, Step))
  {
    hide Upsert, Bump, Ids;
    match s.todo[0]
    case Record(j) => UpsertState(s.core.hist, t.core.hist, j);
    case _ =>
  }

  lemma UpsertState(h: History, g: History, j: Job)
    requires forall id | id in g :: id in h && h[id].state == g[id].state
    ensures forall id | id in Upsert(g, j) :: id in Upsert(h, j) && Upsert(h, j)[id].state == Upsert(g, j)[id].state
  {}

  lemma LockedNext(s: Sys, t: Sys, e: Event)
    requires Locked(s, t) && !e.LoseWrite?
    ensures Locked(Next(s, e), Next(t, e))
  {
    hide Script, RecoveryScript, Recovered, Apply;
    if e.Step? && s.todo != [] {
      LockedApply(s, t);
    }
  }

  lemma {:induction false} LockedRun(s: Sys, t: Sys, more: seq<Event>, id: JobId, state: JobState)
    requires Inv(t) && Locked(s, t) && WritesSucceed(more) && RowStands(t.core, id, state)
    ensures var e, f := RunFrom(s, more), RunFrom(t, more); Inv(f) && Locked(e, f) && RowStands(f.core, id, state)
  {
    hide Inv, Locked, Next, RowStands;
    if more != [] {
      var n := |more| - 1;
      LockedRun(s, t, more[..n], id, state);
      LockedNext(RunFrom(s, more[..n]), RunFrom(t, more[..n]), more[n]);
      NextKeepsInv(RunFrom(t, more[..n]), more[n]);
      RowStandsNext(RunFrom(t, more[..n]), more[n], id, state);
    }
  }

  lemma AgreeingRowStands(es: seq<Event>, more: seq<Event>, id: JobId)
    requires WritesSucceed(more) && id in Run(es).core.hist
    requires AgreesWithRow(Run(es).core.disk, id, Run(es).core.hist[id].state)
    ensures RowStands(RunFrom(Run(es + [Crash]), more).core, id, Run(es).core.hist[id].state)
  {
    var c := Run(es).core;
    var live := AnyRun(es);
    EventSnoc(es, Crash);
    var t := CrashedTwin(c, Run(es).todo == []);
    BelievedStates(c.disk, c.hist);
    assert id in Believed(c.disk, c.hist);
    hide Inv, Run, Believed, Dirty, RecoveryScript;
    LockedRun(Next(Run(es), Crash), t, more, id, c.hist[id].state);
  }

  // ---- a row that queue.json contradicts ----

  /** Runs an operation that brings no ids, from rest, to its end. */
  lemma Perform(s: Sys, op: Op) returns (more: seq<Event>)
    requires s.todo == [] && FreshIds(op) == {} && !op.Retry?
    ensures WritesSucceed(more) && RunFrom(s, more) == Sys(Play(Begin(s.core, op), Script(s.core.mem, op)), [])
  {
    more := Whole(s.core.mem, op);
    WholeRun(s, op);
  }

  lemma OneRow(h: History, j: Job)
    ensures UpsertAll(h, [j]) == Upsert(h, j)
  {
    assert [j][..0] == [];
  }

  /** A finished job is recorded again by any late OTA verdict. */
  lemma RecordAgain(s: Sys, j: Job) returns (more: seq<Event>)
    requires s.todo == [] && Pairwise(s.core.mem, DistinctPair) && j in s.core.mem && Terminal(j)
    ensures WritesSucceed(more) && RowStands(RunFrom(s, more).core, j.id, j.state)
  {
    var op := PatchOta(j.id, "failed");
    var patched := j.(ota := Some("failed"));
    FoundById(s.core.mem, j);
    more := Perform(s, op);
    var to := s.core.mem[IndexOf(s.core.mem, j.id) := patched];
    PlayWrite(Begin(s.core, op), to, None, [patched]);
    OneRow(s.core.hist, patched);
  }

  /** A waiting job can be cancelled. */
  lemma CancelIt(s: Sys, j: Job) returns (more: seq<Event>)
    requires s.todo == [] && Pairwise(s.core.mem, DistinctPair) && j in s.core.mem && !Terminal(j)
    ensures WritesSucceed(more) && RowStands(RunFrom(s, more).core, j.id, CANCELLED)
  {
    var q, op := s.core.mem, Op.Cancel([j.id], 0);
    FoundById(q, j);
    more := Perform(s, op);
    CancelOnly(q, j);
    PlayWrite(Begin(s.core, op), q[IndexOf(q, j.id) := CancelOne(j, 0)], None, [CancelOne(j, 0)]);
    OneRow(s.core.hist, CancelOne(j, 0));
  }

  lemma CancelOnly(q: Queue, j: Job)
    requires !Terminal(j) && IndexOf(q, j.id) < |q| && q[IndexOf(q, j.id)] == j
    ensures CancelAll(q, [j.id], 0) == CancelRun(q[IndexOf(q, j.id) := CancelOne(j, 0)], [CancelOne(j, 0)])
  {
    assert [j.id][..0] == [];
    assert CancelAll(q, [], 0) == CancelRun(q, []);
  }

  // ---- one job alone among finished ones ----

  ghost predicate Alone(q: Queue, k: nat, id: JobId) {
    k < |q| && q[k].id == id && forall i | 0 <= i < |q| && i != k :: q[i].id != id && Terminal(q[i])
  }

  lemma AloneIndex(q: Queue, k: nat, id: JobId)
    requires Alone(q, k, id)
    ensures IndexOf(q, id) == k
  {}

  /** The ids of all jobs but the one at k. */
  lemma OtherIds(q: Queue, k: nat) returns (ids: seq<JobId>)
    requires Pairwise(q, DistinctPair) && k < |q|
    ensures forall i | 0 <= i < |q| :: q[i].id in ids <==> i != k
    ensures forall i | 0 <= i < |q| && i != k :: q[i].id != q[k].id
  {
    var others := Filter(q, (j: Job) => j.id != q[k].id);
    ids := seq(|others|, i requires 0 <= i < |others| => others[i].id);
    forall i | 0 <= i < |q| && i != k ensures q[i].id != q[k].id && q[i].id in ids {
      assert if i < k then DistinctPair(q[i], q[k]) else DistinctPair(q[k], q[i]);
      assert q[i] in q && q[i] in others;
      var m :| 0 <= m < |others| && others[m] == q[i];
      assert ids[m] == q[i].id;
    }
    forall m | 0 <= m < |ids| ensures ids[m] != q[k].id {
      assert others[m] in others;
    }
  }

  lemma CancelledQueue(c: Core, ids: seq<JobId>)
    requires Pairwise(c.mem, DistinctPair)
    ensures var e := Play(c, CancelScript(c.mem, ids, 0));
      |e.mem| == |c.mem| && forall i | 0 <= i < |c.mem| ::
        e.mem[i] == if Named(c.mem[i], ids) then CancelOne(c.mem[i], 0) else c.mem[i]
  {
    CancelsExactly(c.mem, ids, 0);
    var r := CancelAll(c.mem, ids, 0);
    hide Play, Named, CancelOne, CancelAll, Pairwise;
    if r.hits == [] {
      NothingPlayed(c);
      forall i | 0 <= i < |c.mem| ensures !Named(c.mem[i], ids) {
        assert CancelOne(c.mem[i], 0) !in r.hits;
      }
    } else {
      PlayWrite(c, r.mem, None, r.hits);
    }
  }

  lemma CancelOthers(s: Sys, k: nat) returns (more: seq<Event>)
    requires s.todo == [] && Pairwise(s.core.mem, DistinctPair) && k < |s.core.mem|
    ensures var e := RunFrom(s, more);
      WritesSucceed(more) && e.todo == [] && Alone(e.core.mem, k, s.core.mem[k].id) && e.core.mem[k] == s.core.mem[k]
  {
    var q := s.core.mem;
    var ids := OtherIds(q, k);
    var op := Op.Cancel(ids, 0);
    more := Perform(s, op);
    hide Play, CancelScript, CancelAll, Pairwise, RunFrom;
    CancelledQueue(Begin(s.core, op), ids);
    forall i | 0 <= i < |q| && i != k ensures Named(q[i], ids) || Terminal(q[i]) {}
  }

  function Anything(): Job -> Verdict { (j: Job) => Eligible }

  lemma SweptAlone(q: Queue, k: nat, id: JobId)
    requires Alone(q, k, id) && Waiting(q[k])
    ensures Alone(SweepQueue(q, Anything()), k, id) && SweepQueue(q, Anything())[k].state == PENDING
  {
    var to := SweepQueue(q, Anything());
    forall i | 0 <= i < |q| && i != k ensures to[i] == q[i] {}
  }

  lemma SweepAlone(s: Sys, k: nat, id: JobId) returns (more: seq<Event>)
    requires s.todo == [] && Alone(s.core.mem, k, id) && Waiting(s.core.mem[k])
    ensures var e := RunFrom(s, more);
      WritesSucceed(more) && e.todo == [] && Alone(e.core.mem, k, id) && e.core.mem[k].state == PENDING
  {
    var op := Op.Sweep(Anything());
    more := Perform(s, op);
    SweptAlone(s.core.mem, k, id);
    SweptQueue(Begin(s.core, op), Anything());
    hide Play, SweepQueue, SweepScript, Alone, RunFrom;
  }

  function Taker(j: Job): string { if IsPinned(j) then j.pinned.value else "w" }

  lemma ClaimableAlone(q: Queue, k: nat, id: JobId, any: Job -> bool)
    requires Alone(q, k, id) && q[k].state == PENDING && forall j :: any(j)
    ensures ClaimIndex(q, Taker(q[k]), false, any) == k
  {
    forall i | 0 <= i < |q| && i != k ensures !Claimable(q, q[i], Taker(q[k]), false, any) {}
    forall j | j in q ensures j.state != WORKING {
      var i :| 0 <= i < |q| && q[i] == j;
    }
    assert Claimable(q, q[k], Taker(q[k]), false, any);
  }

  lemma ClaimAlone(s: Sys, k: nat, id: JobId) returns (more: seq<Event>)
    requires s.todo == [] && Alone(s.core.mem, k, id) && s.core.mem[k].state == PENDING
    ensures var e := RunFrom(s, more);
      WritesSucceed(more) && e.todo == [] && Alone(e.core.mem, k, id) && e.core.mem[k].state == WORKING
  {
    var q, any := s.core.mem, (j: Job) => true;
    var op := Op.Claim(Taker(q[k]), 0, false, any);
    ClaimableAlone(q, k, id, any);
    more := Perform(s, op);
    hide RunFrom, ClaimIndex, Play;
    PlayWrite(Begin(s.core, op), q[k := Assign(q[k], Taker(q[k]), 0)], Some(q[k].id), []);
  }

  lemma SucceedAlone(s: Sys, k: nat, id: JobId) returns (more: seq<Event>)
    requires s.todo == [] && Alone(s.core.mem, k, id) && s.core.mem[k].state == WORKING
    ensures WritesSucceed(more) && RowStands(RunFrom(s, more).core, id, SUCCESS)
  {
    var q, op := s.core.mem, Op.Submit(id, true, None, false, 0);
    var j := Finish(q[k], true, None, false, 0);
    AloneIndex(q, k, id);
    more := Perform(s, op);
    var c := Begin(s.core, op);
    ScriptSplit(c, Write(q[k := j], None, [j]), [Ack(id)]);
    PlayWrite(c, q[k := j], None, [j]);
    ScriptOne(Play(c, Write(q[k := j], None, [j])), Ack(id));
    OneRow(s.core.hist, j);
  }

  /** A waiting job can be made to succeed. */
  lemma SucceedIt(s: Sys, j: Job) returns (more: seq<Event>)
    requires s.todo == [] && Pairwise(s.core.mem, DistinctPair) && j in s.core.mem && Waiting(j)
    ensures WritesSucceed(more) && RowStands(RunFrom(s, more).core, j.id, SUCCESS)
  {
    hide Alone, Next, RowStands;
    var k :| 0 <= k < |s.core.mem| && s.core.mem[k] == j;
    var a := CancelOthers(s, k);
    var s1 := RunFrom(s, a);
    var b := SweepAlone(s1, k, j.id);
    var s2 := RunFrom(s1, b);
    var c := ClaimAlone(s2, k, j.id);
    var d := SucceedAlone(RunFrom(s2, c), k, j.id);
    more := a + b + c + d;
    RunSplit(s, a + b + c, d);
    RunSplit(s, a + b, c);
    RunSplit(s, a, b);
  }

  // ---- the condition ----

  /** The restarted server, once loading has finished. */
  lemma Loaded(es: seq<Event>) returns (more: seq<Event>)
    ensures var s := RunFrom(Run(es + [Crash]), more);
      && WritesSucceed(more) && s.todo == []
      && s.core.mem == Recovered(Run(es).core.disk) && Pairwise(s.core.mem, DistinctPair)
  {
    var t := AnyRun(es);
    EventSnoc(es, Crash);
    var s := Run(es + [Crash]);
    RunsToEnd(s);
    more := Steps(|s.todo|);
    PlayRecords(s.core, StrandedJobs(Run(es).core.disk));
    RecoverWellFormed(Run(es).core.disk);
  }

  lemma ContradictedRowFalls(es: seq<Event>, id: JobId) returns (more: seq<Event>)
    requires id in Run(es).core.hist && !AgreesWithRow(Run(es).core.disk, id, Run(es).core.hist[id].state)
    ensures WritesSucceed(more)
    ensures !RowStands(RunFrom(Run(es + [Crash]), more).core, id, Run(es).core.hist[id].state)
  {
    hide Next, Run;
    var disk, state := Run(es).core.disk, Run(es).core.hist[id].state;
    var j :| j in disk && j.id == id && !(Terminal(j) && j.state == state);
    var start := Run(es + [Crash]);
    var a := Loaded(es);
    var s := RunFrom(start, a);
    var k :| 0 <= k < |disk| && disk[k] == j;
    var m := RecoverOne(j);
    assert s.core.mem[k] == m;
    if !RowStands(s.core, id, state) {
      more := a;
    } else {
      var b;
      if Terminal(m) {
        b := RecordAgain(s, m);
      } else if state != CANCELLED {
        b := CancelIt(s, m);
      } else {
        b := SucceedIt(s, m);
      }
      more := a + b;
      RunSplit(start, a, b);
    }
  }

  /** After a restart, whatever was lost before it, a verdict is final in all runs whose
      writes succeed if and only if the queue.json that was loaded does not contradict it. */
  lemma VerdictIsFinalIff(es: seq<Event>, id: JobId)
    requires id in Run(es).core.hist
    ensures var state := Run(es).core.hist[id].state;
      (forall more | WritesSucceed(more) :: RowStands(RunFrom(Run(es + [Crash]), more).core, id, state))
        <==> AgreesWithRow(Run(es).core.disk, id, state)
  {
    hide Run, RowStands, RunFrom, AgreesWithRow;
    var state := Run(es).core.hist[id].state;
    if AgreesWithRow(Run(es).core.disk, id, state) {
      forall more | WritesSucceed(more) ensures RowStands(RunFrom(Run(es + [Crash]), more).core, id, state) {
        AgreeingRowStands(es, more, id);
      }
    } else {
      var more := ContradictedRowFalls(es, id);
    }
  }
}
