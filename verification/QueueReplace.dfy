/** Enqueue and retry, which replace finished jobs by a new one, and restart recovery. */
module QueueReplace {
  import opened Common
  import opened Jobs
  import opened QueueOps
  import opened QueueInvariants
  import opened QueueMachine
  import opened QueueScripts

  /** Good in the middle of an operation that has written nothing to disk yet. */
  ghost predicate Open(c: Core) {
    && Base(c)
    && (forall j | j in c.mem && Terminal(j) :: StepOk(c, Record(j)))
    && (c.clean ==> HistoryAgrees(c))
  }

  lemma ReadyIsOpen(c: Core)
    requires Ready(c)
    ensures Open(c)
  {
    forall j | j in c.mem && Terminal(j) ensures StepOk(c, Record(j)) {
      RecordableWhenSynced(c, j);
    }
  }

  /** A split of the queue into the jobs that go and the jobs that stay. */
  ghost predicate Splits(q: Queue, kept: Queue, gone: Queue) {
    && (forall j | j in q :: j in kept || j in gone)
    && (forall j | j in kept :: j in q)
    && (forall j | j in gone :: j in q)
    && Pairwise(gone, DistinctPair)
  }

  lemma DropAfterRecord(c: Core, to: Queue, kept: Queue, gone: Queue)
    requires Open(c) && Splits(c.mem, kept, gone) && forall j | j in kept :: j in to
    ensures DropsOnlyRecorded(c.(hist := UpsertAll(c.hist, gone)), to)
    ensures c.clean ==> forall j | j in kept && Terminal(j) ::
      j.id in UpsertAll(c.hist, gone) && UpsertAll(c.hist, gone)[j.id] == RowOf(j)
  {
    UpsertAllRows(c.hist, gone);
    forall j | j in c.mem && Terminal(j) && j.id !in Ids(to) ensures j in gone {
      assert j in to ==> j.id in Ids(to);
    }
    if c.clean {
      forall j | j in kept && Terminal(j)
        ensures j.id in UpsertAll(c.hist, gone) && UpsertAll(c.hist, gone)[j.id] == RowOf(j)
      {
        if j.id in Ids(gone) {
          var g :| g in gone && g.id == j.id;
          SameJob(c.mem, g, j);
        }
      }
    }
  }

  lemma RecordKeepsOpen(c: Core, gone: Queue)
    requires Open(c) && forall j | j in gone :: j in c.mem
    ensures StepsOk(c, Records(gone))
    ensures Play(c, Records(gone)) == c.(hist := UpsertAll(c.hist, gone))
    ensures Base(c.(hist := UpsertAll(c.hist, gone)))
  {
    forall j | j in gone ensures StepOk(c, Record(j)) {
      if Terminal(j) { assert j in c.mem; }
    }
    RecordAll(c, gone);
    PlayKeepsBase(c, Records(gone));
  }

  lemma SwapOk(c: Core, kept: Queue, j: Job)
    requires Base(c) && WellFormed(kept + [j]) && Evolves(c.mem, kept + [j], None)
    requires (forall x | x in kept :: x in c.mem) && j.id in c.pending
    requires DropsOnlyRecorded(c, kept + [j])
    ensures StepOk(c, Update(kept + [j], None, false))
    ensures Apply(c, Update(kept + [j], None, false)) == c.(mem := kept + [j], pending := c.pending - {j.id})
  {
    var to := kept + [j];
    assert j in to;
    assert Ids(to) <= Ids(c.mem) + {j.id};
    assert c.pending - Ids(to) == c.pending - {j.id};
  }

  lemma RecordableAfterSwap(c: Core, end: Core, kept: Queue, j: Job, x: Job)
    requires Open(c) && x in kept && x in c.mem && Terminal(x)
    requires (forall y | y in kept :: y in c.mem) && j.id in c.pending
    requires end.mem == kept + [j] && end.disk == c.disk
    ensures StepOk(end, Record(x))
  {
    assert StepOk(c, Record(x));
    assert x in end.mem;
    assert x.id in Ids(c.mem) && j.id !in Ids(c.mem);
  }

  /** Record what goes, then swap in the new queue. */
  lemma Replace(c: Core, kept: Queue, gone: Queue, j: Job)
    requires Open(c) && Splits(c.mem, kept, gone)
    requires WellFormed(kept + [j]) && Evolves(c.mem, kept + [j], None)
    requires j.id in c.pending && j.state == PENDING
    ensures StepsOk(c, Swap(kept, gone, j))
    ensures Open(Play(c, Swap(kept, gone, j)))
    ensures Play(c, Swap(kept, gone, j))
      == c.(hist := UpsertAll(c.hist, gone), mem := kept + [j], pending := c.pending - {j.id})
  {
    var to, mid, u := kept + [j], c.(hist := UpsertAll(c.hist, gone)), Update(kept + [j], None, false);
    RecordKeepsOpen(c, gone);
    DropAfterRecord(c, to, kept, gone);
    SwapOk(mid, kept, j);
    ScriptOne(mid, u);
    ScriptSplit(c, Records(gone), [u]);
    StepKeepsBase(mid, u);
    var end := Apply(mid, u);
    forall x | x in to && Terminal(x) ensures StepOk(end, Record(x)) {
      RecordableAfterSwap(c, end, kept, j, x);
    }
  }

  // ---- enqueue ----

  lemma EnqueueKeeps(q: Queue, req: Request, id: JobId)
    requires WellFormed(q) && id !in Ids(q)
    requires req.validateOnly || FollowupIndex(q, req.target) < 0
    ensures var a := ActiveIndex(q, req.target);
      var followup := 0 <= a && q[a].state == WORKING && !req.validateOnly;
      var to := FreshJobs(q, req.target) + [NewJob(id, req, followup)];
      && WellFormed(to) && Evolves(q, to, None)
      && Splits(q, FreshJobs(q, req.target), StaleJobs(q, req.target))
  {
    var a := ActiveIndex(q, req.target);
    var followup := 0 <= a && q[a].state == WORKING && !req.validateOnly;
    var kept := FreshJobs(q, req.target);
    FilterWellFormed(q, (j: Job) => !IsStale(j, req.target));
    PairwiseFilter(q, (j: Job) => IsStale(j, req.target), DistinctPair);
    if followup {
      forall x | x in kept && x.target == req.target ensures !LiveFollowup(x) {
        assert x in q && !IsStale(x, req.target) && Coherent(x);
        assert !IsQueuedFollowup(x, req.target);
      }
    }
    AppendWellFormed(q, kept, NewJob(id, req, followup));
  }

  lemma RedirectSound(c: Core, i: nat, req: Request)
    requires Ready(c) && i < |c.mem| && c.mem[i].state == PENDING
    ensures Sound(c, Write(c.mem[i := Redirect(c.mem[i], req)], None, []))
  {
    assert c.mem[i] in c.mem;
    OneWritten(c, i, Redirect(c.mem[i], req), None, []);
  }

  lemma CreateSound(c: Core, req: Request, id: JobId)
    requires Ready(c) && id in c.pending
    requires req.validateOnly || FollowupIndex(c.mem, req.target) < 0
    ensures var a := ActiveIndex(c.mem, req.target);
      var followup := 0 <= a && c.mem[a].state == WORKING && !req.validateOnly;
      Sound(c, Swap(FreshJobs(c.mem, req.target), StaleJobs(c.mem, req.target), NewJob(id, req, followup)) + [Persist])
  {
    var a := ActiveIndex(c.mem, req.target);
    var followup := 0 <= a && c.mem[a].state == WORKING && !req.validateOnly;
    var kept, gone, j := FreshJobs(c.mem, req.target), StaleJobs(c.mem, req.target), NewJob(id, req, followup);
    EnqueueKeeps(c.mem, req, id);
    ReadyIsOpen(c);
    Replace(c, kept, gone, j);
    PersistAfter(c, Swap(kept, gone, j));
  }

  lemma EnqueueSound(c: Core, req: Request, id: JobId)
    requires Ready(c) && id in c.pending
    ensures Sound(c, EnqueueScript(c.mem, req, id))
  {
    var q := c.mem;
    var a := ActiveIndex(q, req.target);
    var f := FollowupIndex(q, req.target);
    if !req.validateOnly && 0 <= f {
      RedirectSound(c, f, req);
    } else if req.validateOnly || a < 0 || q[a].state != PENDING {
      CreateSound(c, req, id);
    }
  }

  lemma PersistAfter(c: Core, script: seq<Micro>)
    requires StepsOk(c, script) && Open(Play(c, script))
    ensures Sound(c, script + [Persist])
  {
    var end := Play(c, script);
    ScriptOne(end, Persist);
    ScriptSplit(c, script, [Persist]);
    PersistSyncs(Apply(end, Persist));
  }

  // ---- retry ----

  lemma RetryKeeps(q: Queue, prior: Job, id: JobId, version: string, timeout: int)
    requires WellFormed(q) && id !in Ids(q)
    ensures var to := UnfinishedOf(q, prior.target) + [RetryJob(prior, id, version, timeout)];
      && WellFormed(to) && Evolves(q, to, None)
      && Splits(q, UnfinishedOf(q, prior.target), FinishedOf(q, prior.target))
  {
    FilterWellFormed(q, (j: Job) => !(j.target == prior.target && Terminal(j)));
    PairwiseFilter(q, (j: Job) => j.target == prior.target && Terminal(j), DistinctPair);
    AppendWellFormed(q, UnfinishedOf(q, prior.target), RetryJob(prior, id, version, timeout));
  }

  lemma RetryOneSound(c: Core, r: RetryRun, id: JobId, newId: JobId, versionFor: string -> string, timeout: int)
    requires StepsOk(c, r.script) && Open(Play(c, r.script)) && Play(c, r.script).mem == r.mem
    requires newId in Play(c, r.script).pending
    ensures var one := RetryOne(r.mem, id, newId, versionFor, timeout);
      var script := r.script + one.script;
      && StepsOk(c, script) && Open(Play(c, script)) && Play(c, script).mem == one.mem
      && Play(c, r.script).pending - {newId} <= Play(c, script).pending
  {
    var i := IndexOf(r.mem, id);
    if i < |r.mem| && Terminal(r.mem[i]) {
      var prior, mid := r.mem[i], Play(c, r.script);
      var j := RetryJob(prior, newId, versionFor(prior.target), timeout);
      RetryKeeps(r.mem, prior, newId, versionFor(prior.target), timeout);
      var kept, gone := UnfinishedOf(r.mem, prior.target), FinishedOf(r.mem, prior.target);
      Replace(mid, kept, gone, j);
      ScriptSplit(c, r.script, Swap(kept, gone, j));
    } else {
      assert r.script + [] == r.script;
    }
  }

  lemma RetryNothing(c: Core)
    requires Ready(c)
    ensures StepsOk(c, []) && Open(Play(c, [])) && Play(c, []) == c
  {
    ReadyIsOpen(c);
  }

  lemma {:induction false} RetryAllSound(
    c: Core, ids: seq<JobId>, newIds: seq<JobId>, versionFor: string -> string, timeout: int)
    requires Ready(c) && |ids| == |newIds| && Distinct(newIds)
    requires forall id | id in newIds :: id in c.pending
    ensures var r := RetryAll(c.mem, ids, newIds, versionFor, timeout);
      && StepsOk(c, r.script) && Open(Play(c, r.script)) && Play(c, r.script).mem == r.mem
      && forall id | id in c.pending && id !in newIds :: id in Play(c, r.script).pending
  {
    hide Ready, Open, StepsOk, Play, RetryOne;
    if ids == [] {
      RetryNothing(c);
    } else {
      var n := |ids| - 1;
      RetryAllSound(c, ids[..n], newIds[..n], versionFor, timeout);
      var r := RetryAll(c.mem, ids[..n], newIds[..n], versionFor, timeout);
      assert newIds[n] in newIds && newIds[n] !in newIds[..n];
      RetryOneSound(c, r, ids[n], newIds[n], versionFor, timeout);
    }
  }

  lemma RetrySound(c: Core, ids: seq<JobId>, newIds: seq<JobId>, versionFor: string -> string, timeout: int)
    requires Ready(c) && |ids| == |newIds| && Distinct(newIds)
    requires forall id | id in newIds :: id in c.pending
    ensures Sound(c, RetryScript(c.mem, ids, newIds, versionFor, timeout))
  {
    var r := RetryAll(c.mem, ids, newIds, versionFor, timeout);
    RetryAllSound(c, ids, newIds, versionFor, timeout);
    if r.script != [] {
      PersistAfter(c, r.script);
    }
  }

  // ---- restart ----

  lemma RestartKeepsIdentities(c: Core, idle: bool)
    requires Identities(c)
    ensures Identities(Restart(c, idle))
  {
    RecoverWellFormed(c.disk);
  }

  lemma RecoveredFrom(disk: Queue, j: Job)
    requires j in Recovered(disk)
    ensures exists d | d in disk :: j == RecoverOne(d) && j.id == d.id
  {
    var k :| 0 <= k < |disk| && Recovered(disk)[k] == j;
    assert disk[k] in disk;
  }

  lemma RestartNoContradiction(c: Core)
    requires NoContradiction(c.disk, c)
    ensures NoContradiction(Recovered(c.disk), c)
  {
    hide Recovered;
    forall j | j in Recovered(c.disk)
      ensures j.id in c.hist ==> Terminal(j) && c.hist[j.id].state == j.state && c.hist[j.id].finishedAt == j.finishedAt
      ensures j.id in c.acks ==> Terminal(j)
    {
      RecoveredFrom(c.disk, j);
    }
  }

  lemma RestartKeepsVerdicts(c: Core, idle: bool)
    requires Identities(c) && Verdicts(c)
    ensures Verdicts(Restart(c, idle))
  {
    hide WellFormed, Recovered, NoContradiction;
    RecoverWellFormed(c.disk);
    RestartNoContradiction(c);
    assert NoContradiction(Recovered(c.disk), Restart(c, idle)) && NoContradiction(c.disk, Restart(c, idle)) by {
      SameHistory(Recovered(c.disk), c, idle);
      SameHistory(c.disk, c, idle);
    }
  }

  lemma SameHistory(q: Queue, c: Core, idle: bool)
    ensures NoContradiction(q, c) == NoContradiction(q, Restart(c, idle))
  {}

  lemma RestartKeepsBounds(c: Core, idle: bool)
    requires Bounds(c) && forall d | d in c.disk :: Coherent(d)
    ensures Bounds(Restart(c, idle))
  {
    var c' := Restart(c, idle);
    forall j | j in c'.mem ensures MemBound(Count(c.claims, j.id), j, c'.restarts) {
      var k :| 0 <= k < |c'.mem| && c'.mem[k] == j;
      assert c.disk[k] in c.disk && DiskBound(Count(c.claims, c.disk[k].id), c.disk[k], c.restarts);
    }
    forall d | d in c.disk ensures DiskBound(Count(c.claims, d.id), d, c'.restarts) {
      assert DiskBound(Count(c.claims, d.id), d, c.restarts);
    }
  }

  lemma RestartKeepsBase(c: Core, idle: bool)
    requires Base(c)
    ensures Base(Restart(c, idle))
  {
    RestartKeepsIdentities(c, idle);
    RestartKeepsVerdicts(c, idle);
    RestartKeepsBounds(c, idle);
  }

  lemma RestartSyncs(c: Core, idle: bool)
    requires Base(c)
    ensures Synced(Restart(c, idle))
  {
    forall k | 0 <= k < |c.disk| ensures InSync(RecoverOne(c.disk[k]), c.disk[k]) {
      assert c.disk[k] in c.disk;
    }
  }

  lemma StrandedHits(disk: Queue)
    requires WellFormed(disk)
    ensures Pairwise(StrandedJobs(disk), DistinctPair)
    ensures forall j | j in StrandedJobs(disk) :: j in Recovered(disk)
    ensures forall d | d in disk && Stranded(d) :: RecoverOne(d) in StrandedJobs(disk)
  {
    var stranded, hits := Filter(disk, (j: Job) => Stranded(j)), StrandedJobs(disk);
    PairwiseFilter(disk, (j: Job) => Stranded(j), DistinctPair);
    forall i, k | 0 <= i < k < |hits| ensures DistinctPair(hits[i], hits[k]) {
      assert DistinctPair(stranded[i], stranded[k]);
    }
    forall j | j in hits ensures j in Recovered(disk) {
      var k :| 0 <= k < |hits| && hits[k] == j;
      assert stranded[k] in stranded;
      var i :| 0 <= i < |disk| && disk[i] == stranded[k];
      assert Recovered(disk)[i] == j;
    }
    forall d | d in disk && Stranded(d) ensures RecoverOne(d) in hits {
      assert d in stranded;
      var k :| 0 <= k < |stranded| && stranded[k] == d;
      assert hits[k] == RecoverOne(d);
    }
  }

  lemma RecoveredRow(m: Job, d: Job)
    requires InSync(m, d) && Terminal(RecoverOne(d)) && !Stranded(d)
    ensures Terminal(m) && m.id == d.id && RowOf(m) == RowOf(RecoverOne(d))
  {}

  lemma RestartAgreesFor(c: Core, k: nat)
    requires Synced(c) && HistoryAgrees(c) && k < |c.disk|
    requires Terminal(RecoverOne(c.disk[k])) && !Stranded(c.disk[k])
    ensures c.disk[k].id in c.hist && c.hist[c.disk[k].id] == RowOf(RecoverOne(c.disk[k]))
  {
    assert InSync(c.mem[k], c.disk[k]) && c.mem[k] in c.mem;
    RecoveredRow(c.mem[k], c.disk[k]);
  }

  lemma NotAHit(disk: Queue, j: Job)
    requires WellFormed(disk) && j in Recovered(disk) && j !in StrandedJobs(disk)
    ensures j.id !in Ids(StrandedJobs(disk))
    ensures exists k | 0 <= k < |disk| :: j == RecoverOne(disk[k]) && !Stranded(disk[k])
  {
    RecoverWellFormed(disk);
    StrandedHits(disk);
    var k :| 0 <= k < |disk| && Recovered(disk)[k] == j;
    assert disk[k] in disk;
    if j.id in Ids(StrandedJobs(disk)) {
      var h :| h in StrandedJobs(disk) && h.id == j.id;
      SameJob(Recovered(disk), h, j);
    }
  }

  lemma RestartAgrees(c: Core)
    requires WellFormed(c.disk) && Synced(c) && HistoryAgrees(c)
    ensures var rows := UpsertAll(c.hist, StrandedJobs(c.disk));
      forall j | j in Recovered(c.disk) && Terminal(j) :: j.id in rows && rows[j.id] == RowOf(j)
  {
    StrandedHits(c.disk);
    UpsertAllRows(c.hist, StrandedJobs(c.disk));
    forall j | j in Recovered(c.disk) && Terminal(j) && j !in StrandedJobs(c.disk)
      ensures j.id in c.hist && c.hist[j.id] == RowOf(j) && j.id !in Ids(StrandedJobs(c.disk))
    {
      NotAHit(c.disk, j);
      var k :| 0 <= k < |c.disk| && j == RecoverOne(c.disk[k]) && !Stranded(c.disk[k]);
      RestartAgreesFor(c, k);
    }
  }

  lemma RecoverySound(c: Core, idle: bool)
    requires Base(c) && (idle ==> Settled(c))
    ensures Sound(Restart(c, idle), RecoveryScript(c.disk))
  {
    var c', hits := Restart(c, idle), StrandedJobs(c.disk);
    RestartKeepsBase(c, idle);
    RestartSyncs(c, idle);
    StrandedHits(c.disk);
    forall j | j in hits ensures StepOk(c', Record(j)) {
      RecordableWhenSynced(c', j);
    }
    RecordAll(c', hits);
    if c'.clean {
      RestartAgrees(c);
    }
  }
}
