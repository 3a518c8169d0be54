/** Every operation, started in a good state, stays good through each of its steps. */
module QueueScripts {
  import opened Common
  import opened Routing
  import opened Jobs
  import opened QueueOps
  import opened QueueInvariants
  import opened QueueMachine

  ghost predicate Ready(c: Core) { Base(c) && Settled(c) }

  /** The script runs from c without a bad step and ends in a settled state. */
  ghost predicate Sound(c: Core, script: seq<Micro>) {
    StepsOk(c, script) && Settled(Play(c, script))
  }

  // ---- runs of history writes ----

  function UpsertAll(h: History, js: seq<Job>): History {
    if js == [] then h else Upsert(UpsertAll(h, js[..|js| - 1]), js[|js| - 1])
  }

  lemma {:induction false} UpsertAllRows(h: History, js: seq<Job>)
    requires Pairwise(js, DistinctPair)
    ensures forall j | j in js && Terminal(j) :: j.id in UpsertAll(h, js) && UpsertAll(h, js)[j.id] == RowOf(j)
    ensures forall id | id in h && id !in Ids(js) :: id in UpsertAll(h, js) && UpsertAll(h, js)[id] == h[id]
  {
    if js != [] {
      var n := |js| - 1;
      UpsertAllRows(h, js[..n]);
      forall j | j in js && Terminal(j) ensures j.id in UpsertAll(h, js) && UpsertAll(h, js)[j.id] == RowOf(j) {
        var k :| 0 <= k < |js| && js[k] == j;
        if k < n {
          assert js[..n][k] == j;
          assert DistinctPair(js[k], js[n]);
        }
      }
      assert js[n] in js;
      assert Ids(js[..n]) <= Ids(js);
    }
  }

  lemma {:induction false} RecordAll(c: Core, js: seq<Job>)
    requires forall j | j in js :: StepOk(c, Record(j))
    ensures StepsOk(c, Records(js))
    ensures Play(c, Records(js)) == c.(hist := UpsertAll(c.hist, js))
  {
    if js != [] {
      var n := |js| - 1;
      RecordAll(c, js[..n]);
      var mid := c.(hist := UpsertAll(c.hist, js[..n]));
      assert StepOk(c, Record(js[n]));
      ScriptOne(mid, Record(js[n]));
      ScriptSplit(c, Records(js[..n]), [Record(js[n])]);
      assert Records(js) == Records(js[..n]) + [Record(js[n])];
    }
  }

  lemma RecordableWhenSynced(c: Core, j: Job)
    requires Base(c) && Synced(c) && j in c.mem
    ensures StepOk(c, Record(j))
  {
    var k :| 0 <= k < |c.mem| && c.mem[k] == j;
    assert c.disk[k] in c.disk && InSync(c.mem[k], c.disk[k]);
    forall x | (x in c.mem || x in c.disk) && x.id == j.id && Terminal(j) ensures SameVerdict(j, x) {
      if x in c.mem {
        SameJob(c.mem, x, j);
      } else {
        SameJob(c.disk, x, c.disk[k]);
      }
    }
  }

  lemma PersistSyncs(c: Core)
    requires c.mem == c.disk
    ensures Synced(c)
  {}

  // ---- update, persist, then record ----

  lemma ClaimBound(m: Job, b: Job, d: Job, n: nat, restarts: nat)
    requires JobStep(m, b, Some(m.id)) && MemBound(n, m, restarts) && InSync(m, d) && b.id == m.id
    ensures !Terminal(d) && n <= Cap(d.retries) + restarts
  {}

  lemma ClaimKeepsDiskBound(c: Core, to: Queue, id: JobId)
    requires Ready(c) && Evolves(c.mem, to, Some(id))
    ensures forall d | d in c.disk && d.id == id :: !Terminal(d) && Count(c.claims, id) <= Cap(d.retries) + c.restarts
  {
    hide JobStep, MemBound, InSync, Coherent, Cap, Count, Verdicts;
    var a :| a in c.mem && a.id == id;
    var b :| b in to && b.id == id;
    assert JobStep(a, b, Some(id)) && MemBound(Count(c.claims, id), a, c.restarts);
    var k :| 0 <= k < |c.mem| && c.mem[k] == a;
    assert InSync(c.mem[k], c.disk[k]);
    ClaimBound(a, b, c.disk[k], Count(c.claims, id), c.restarts);
    SyncedIds(c, k);
    forall d | d in c.disk && d.id == id ensures d == c.disk[k] {
      SameJob(c.disk, d, c.disk[k]);
    }
  }

  lemma SyncedIds(c: Core, k: nat)
    requires Synced(c) && k < |c.mem|
    ensures c.mem[k].id == c.disk[k].id
  {
    assert InSync(c.mem[k], c.disk[k]);
  }

  lemma UpdateThenPersist(c: Core, to: Queue, claimed: Option<JobId>)
    requires Ready(c)
    requires WellFormed(to) && Evolves(c.mem, to, claimed) && Ids(to) == Ids(c.mem)
    ensures var script := [Update(to, claimed, false), Persist];
      && StepsOk(c, script)
      && Play(c, script) == Apply(Apply(c, Update(to, claimed, false)), Persist)
      && Base(Play(c, script)) && Synced(Play(c, script))
  {
    var u := Update(to, claimed, false);
    if claimed.Some? {
      ClaimKeepsDiskBound(c, to, claimed.value);
    }
    assert forall j | j in c.mem :: j.id in Ids(c.mem);
    assert StepOk(c, u);
    ScriptTwo(c, u, Persist);
    StepKeepsBase(c, u);
    StepKeepsBase(Apply(c, u), Persist);
    PersistSyncs(Apply(Apply(c, u), Persist));
  }

  lemma RowsAgree(h: History, q: Queue, to: Queue, hits: seq<Job>)
    requires Pairwise(to, DistinctPair) && Pairwise(hits, DistinctPair)
    requires forall x | x in hits :: x in to
    requires forall x | x in to && Terminal(x) :: x in hits || x in q
    requires forall j | j in q && Terminal(j) :: j.id in h && h[j.id] == RowOf(j)
    ensures forall j | j in to && Terminal(j) :: j.id in UpsertAll(h, hits) && UpsertAll(h, hits)[j.id] == RowOf(j)
  {
    UpsertAllRows(h, hits);
    forall j | j in to && Terminal(j) ensures j.id in UpsertAll(h, hits) && UpsertAll(h, hits)[j.id] == RowOf(j) {
      if j !in hits && j.id in Ids(hits) {
        var x :| x in hits && x.id == j.id;
        SameJob(to, x, j);
      }
    }
  }

  /** The order that the comment at the timeout check asks for. */
  lemma PersistThenRecord(c: Core, to: Queue, claimed: Option<JobId>, hits: seq<Job>)
    requires Ready(c)
    requires WellFormed(to) && Evolves(c.mem, to, claimed) && Ids(to) == Ids(c.mem)
    requires Pairwise(hits, DistinctPair) && forall h | h in hits :: h in to
    requires forall x | x in to && Terminal(x) :: x in hits || x in c.mem
    ensures var script := Write(to, claimed, hits);
      && Sound(c, script)
      && Play(c, script).mem == to && Play(c, script).disk == to
      && Play(c, script).acks == c.acks && Play(c, script).issued == c.issued
      && Play(c, script).pending == c.pending - Ids(to) && Play(c, script).clean == c.clean
  {
    var start := [Update(to, claimed, false), Persist];
    UpdateThenPersist(c, to, claimed);
    var c2 := Play(c, start);
    forall h | h in hits ensures StepOk(c2, Record(h)) {
      RecordableWhenSynced(c2, h);
    }
    RecordAll(c2, hits);
    ScriptSplit(c, start, Records(hits));
    if c.clean {
      RowsAgree(c.hist, c.mem, to, hits);
    }
  }

  /** An update that is not written to disk must not need to be. */
  lemma MemoryOnly(c: Core, to: Queue)
    requires Ready(c)
    requires WellFormed(to) && Evolves(c.mem, to, None) && Ids(to) == Ids(c.mem)
    requires |to| == |c.disk| && forall i | 0 <= i < |to| :: InSync(to[i], c.disk[i])
    requires forall x | x in to && Terminal(x) :: x in c.mem
    ensures Sound(c, [Update(to, None, false)])
  {
    ScriptOne(c, Update(to, None, false));
  }

  lemma {:induction false} PlayKeepsBase(c: Core, script: seq<Micro>)
    requires Base(c) && StepsOk(c, script)
    ensures Base(Play(c, script))
    decreases |script|
  {
    if script != [] {
      StepKeepsBase(c, script[0]);
      PlayKeepsBase(Apply(c, script[0]), script[1..]);
    }
  }

  // ---- one lemma per operation ----

  lemma WellFormedMem(c: Core, i: nat)
    requires Base(c) && i < |c.mem|
    ensures WellFormed(c.mem) && Coherent(c.mem[i]) && c.mem[i].id in Ids(c.mem)
    ensures c.mem[i].id in c.acks ==> Terminal(c.mem[i])
  {
    assert c.mem[i] in c.mem;
  }

  lemma NothingSound(c: Core)
    requires Ready(c)
    ensures Sound(c, [])
  {}

  lemma OneWritten(c: Core, i: nat, j: Job, claimed: Option<JobId>, hits: seq<Job>)
    requires Ready(c) && i < |c.mem| && Coherent(j)
    requires JobStep(c.mem[i], j, claimed) && (LiveFollowup(j) ==> LiveFollowup(c.mem[i]))
    requires claimed.Some? ==> claimed.value == c.mem[i].id
    requires hits == [j] || (hits == [] && !Terminal(j))
    ensures Sound(c, Write(c.mem[i := j], claimed, hits))
  {
    hide Base, WellFormed, Evolves, Settled, Sound, JobStep, Coherent, LiveFollowup;
    WellFormedMem(c, i);
    OneStep(c.mem, i, j, claimed);
    assert c.mem[i := j][i] == j;
    PersistThenRecord(c, c.mem[i := j], claimed, hits);
  }

  lemma ClaimSound(c: Core, client: string, now: int, defer: bool, eligible: Job -> bool)
    requires Ready(c)
    ensures Sound(c, ClaimScript(c.mem, client, now, defer, eligible))
  {
    hide Base, WellFormed, Settled, Sound;
    NothingSound(c);
    var q, i := c.mem, ClaimIndex(c.mem, client, defer, eligible);
    if i < |q| {
      WellFormedMem(c, i);
      OneWritten(c, i, Assign(q[i], client, now), Some(q[i].id), []);
    }
  }

  lemma AckOk(c: Core, j: Job)
    requires Base(c) && j in c.mem && c.mem == c.disk && Terminal(j) && j.id !in c.acks
    ensures StepOk(c, Ack(j.id))
  {
    assert j.id in Ids(c.mem);
    forall x | (x in c.mem || x in c.disk) && x.id == j.id ensures Terminal(x) {
      SameJob(c.mem, x, j);
    }
  }

  lemma AckSound(c: Core, script: seq<Micro>, id: JobId)
    requires Sound(c, script) && StepOk(Play(c, script), Ack(id))
    ensures Sound(c, script + [Ack(id)])
  {
    ScriptOne(Play(c, script), Ack(id));
    ScriptSplit(c, script, [Ack(id)]);
  }

  lemma FinishSound(c: Core, i: nat, j: Job)
    requires Ready(c) && i < |c.mem| && Coherent(j)
    requires c.mem[i].state == WORKING && JobStep(c.mem[i], j, None) && Terminal(j)
    ensures Sound(c, Write(c.mem[i := j], None, [j]) + [Ack(j.id)])
  {
    hide Base, WellFormed, Evolves, Settled, Coherent;
    var to, script := c.mem[i := j], Write(c.mem[i := j], None, [j]);
    WellFormedMem(c, i);
    OneStep(c.mem, i, j, None);
    assert to[i] == j && j in to && c.mem[i] in c.mem;
    PersistThenRecord(c, to, None, [j]);
    assert Base(Play(c, script)) by {
      PlayKeepsBase(c, script);
    }
    AckOk(Play(c, script), j);
    AckSound(c, script, j.id);
  }

  lemma SubmitSound(c: Core, id: JobId, success: bool, ota: Option<string>, needs: bool, now: int)
    requires Ready(c)
    ensures Sound(c, SubmitScript(c.mem, id, success, ota, needs, now))
  {
    hide Base, WellFormed, Settled, Sound;
    NothingSound(c);
    var q, i := c.mem, IndexOf(c.mem, id);
    if i < |q| {
      WellFormedMem(c, i);
      if TakesOtaPatch(q[i], ota) {
        OneWritten(c, i, q[i].(ota := ota), None, [q[i].(ota := ota)]);
      } else if q[i].state == WORKING {
        FinishSound(c, i, Finish(q[i], success, ota, needs, now));
      }
    }
  }

  lemma RequeueStep(j: Job)
    requires Coherent(j) && j.state == WORKING && j.retries + 1 < MAX_RETRIES
    ensures JobStep(j, Requeue(j), None) && Coherent(Requeue(j)) && !LiveFollowup(Requeue(j)) && !Terminal(Requeue(j))
  {}

  lemma ReleaseAtCapSound(c: Core, i: nat)
    requires Ready(c) && i < |c.mem| && c.mem[i].state == WORKING
    ensures Sound(c, BumpInMemory(c.mem, i))
  {
    hide Base, WellFormed, Evolves;
    var q, j := c.mem, c.mem[i].(retries := c.mem[i].retries + 1);
    assert WellFormed(q) && Coherent(q[i]) by {
      WellFormedMem(c, i);
    }
    OneStep(q, i, j, None);
    forall k | 0 <= k < |q| ensures InSync(q[i := j][k], c.disk[k]) {
      assert InSync(q[k], c.disk[k]);
    }
    MemoryOnly(c, q[i := j]);
  }

  lemma RequeueSound(c: Core, i: nat)
    requires Ready(c) && i < |c.mem| && c.mem[i].state == WORKING && c.mem[i].retries + 1 < MAX_RETRIES
    ensures Sound(c, Write(c.mem[i := Requeue(c.mem[i])], None, []))
  {
    hide Base, WellFormed, Settled, Sound, Requeue;
    WellFormedMem(c, i);
    RequeueStep(c.mem[i]);
    OneWritten(c, i, Requeue(c.mem[i]), None, []);
  }

  lemma ReleaseSound(c: Core, id: JobId)
    requires Ready(c)
    ensures Sound(c, ReleaseScript(c.mem, id))
  {
    hide Base, WellFormed, Settled, Sound, Requeue, Write, BumpInMemory;
    NothingSound(c);
    var q, i := c.mem, IndexOf(c.mem, id);
    if i < |q| && q[i].state == WORKING {
      if q[i].retries + 1 >= MAX_RETRIES {
        ReleaseAtCapSound(c, i);
      } else {
        RequeueSound(c, i);
      }
    }
  }

  lemma PatchSound(c: Core, id: JobId, ota: string)
    requires Ready(c)
    ensures Sound(c, PatchScript(c.mem, id, ota))
  {
    hide Base, WellFormed, Settled, Sound;
    NothingSound(c);
    var q, i := c.mem, IndexOf(c.mem, id);
    if i < |q| {
      WellFormedMem(c, i);
      OneWritten(c, i, q[i].(ota := Some(ota)), None, [q[i].(ota := Some(ota))]);
    }
  }

  /** Saving between operations changes what is on disk at most to what is in memory. */
  lemma MarkSound(c: Core, id: JobId, force: bool)
    requires Ready(c)
    ensures Sound(c, MarkScript(c.mem, id, force))
  {
    hide Base, WellFormed;
    NothingSound(c);
    ScriptOne(c, Persist);
    PersistSyncs(Apply(c, Persist));
  }

  lemma SweepOneStep(j: Job, v: Verdict)
    requires Coherent(j)
    ensures JobStep(j, SweepOne(j, v), None) && Coherent(SweepOne(j, v))
    ensures LiveFollowup(SweepOne(j, v)) ==> LiveFollowup(j)
    ensures Terminal(SweepOne(j, v)) ==> SweepOne(j, v) == j
  {}

  lemma SweepKeeps(q: Queue, check: Job -> Verdict)
    requires WellFormed(q)
    ensures var to := SweepQueue(q, check);
      && WellFormed(to) && Evolves(q, to, None) && Ids(to) == Ids(q)
      && forall x | x in to && Terminal(x) :: x in q
  {
    var to := SweepQueue(q, check);
    forall i | 0 <= i < |q|
      ensures JobStep(q[i], to[i], None) && Coherent(to[i]) && (LiveFollowup(to[i]) ==> LiveFollowup(q[i]))
    {
      assert q[i] in q;
      SweepOneStep(q[i], check(q[i]));
    }
    PointwiseStep(q, to, None);
    forall x | x in to && Terminal(x) ensures x in q {
      var k :| 0 <= k < |to| && to[k] == x;
      SweepOneStep(q[k], check(q[k]));
    }
  }

  lemma {:induction false} NoMoves(q: Queue, check: Job -> Verdict, n: nat)
    requires n <= |q|
    ensures MoveCount(q, check, n) == 0 <==> forall i | 0 <= i < n :: !Moves(q[i], check)
  {
    if n > 0 {
      NoMoves(q, check, n - 1);
    }
  }

  lemma QuietInSync(m: Job, d: Job, v: Verdict)
    requires InSync(m, d) && SweepOne(m, v).state == m.state
    ensures InSync(SweepOne(m, v), d)
  {}

  lemma QuietSweepSound(c: Core, check: Job -> Verdict)
    requires Ready(c) && MoveCount(c.mem, check, |c.mem|) == 0
    ensures Sound(c, [Update(SweepQueue(c.mem, check), None, false)])
  {
    var q, to := c.mem, SweepQueue(c.mem, check);
    SweepKeeps(q, check);
    NoMoves(q, check, |q|);
    forall k | 0 <= k < |q| ensures InSync(to[k], c.disk[k]) {
      assert !Moves(q[k], check);
      QuietInSync(q[k], c.disk[k], check(q[k]));
    }
    MemoryOnly(c, to);
  }

  lemma SweepSound(c: Core, check: Job -> Verdict)
    requires Ready(c)
    ensures Sound(c, SweepScript(c.mem, check))
  {
    if MoveCount(c.mem, check, |c.mem|) != 0 {
      SweepKeeps(c.mem, check);
      PersistThenRecord(c, SweepQueue(c.mem, check), None, []);
    } else {
      QuietSweepSound(c, check);
    }
  }

  lemma TimeoutKeeps(q: Queue, now: int, online: Option<string -> bool>)
    requires WellFormed(q)
    ensures var to := ExpireQueue(q, now, online);
      WellFormed(to) && Evolves(q, to, None) && Ids(to) == Ids(q)
  {
    var to := ExpireQueue(q, now, online);
    forall i | 0 <= i < |q|
      ensures JobStep(q[i], to[i], None) && Coherent(to[i]) && (LiveFollowup(to[i]) ==> LiveFollowup(q[i]))
    {
      assert q[i] in q;
    }
    PointwiseStep(q, to, None);
  }

  lemma AffectedInQueue(q: Queue, now: int, online: Option<string -> bool>)
    requires Pairwise(q, DistinctPair)
    ensures var all := Affected(q, now, online);
      Pairwise(all, DistinctPair) && forall h | h in all :: h in ExpireQueue(q, now, online)
  {
    var to, all, before := ExpireQueue(q, now, online), Affected(q, now, online), ExpiredJobs(q, now, online);
    PairwiseFilter(q, (j: Job) => Expired(j, now, online), DistinctPair);
    forall i, k | 0 <= i < k < |all| ensures DistinctPair(all[i], all[k]) {
      assert DistinctPair(before[i], before[k]);
    }
    forall h | h in all ensures h in to {
      var k :| 0 <= k < |all| && all[k] == h;
      assert before[k] in before;
      var i :| 0 <= i < |q| && q[i] == before[k];
      assert to[i] == h;
    }
  }

  lemma ExpiredIsAffected(q: Queue, i: nat, now: int, online: Option<string -> bool>)
    requires i < |q| && Expired(q[i], now, online)
    ensures ExpireOne(q[i], now) in Affected(q, now, online)
  {
    var before, all := ExpiredJobs(q, now, online), Affected(q, now, online);
    assert q[i] in q && q[i] in before;
    var k :| 0 <= k < |before| && before[k] == q[i];
    assert all[k] == ExpireOne(q[i], now);
  }

  lemma TimeoutHits(q: Queue, now: int, online: Option<string -> bool>)
    requires WellFormed(q)
    ensures var to, hits := ExpireQueue(q, now, online), FailedJobs(q, now, online);
      && Pairwise(hits, DistinctPair)
      && (forall h | h in hits :: h in to)
      && (forall x | x in to && Terminal(x) :: x in hits || x in q)
  {
    var to, all := ExpireQueue(q, now, online), Affected(q, now, online);
    AffectedInQueue(q, now, online);
    PairwiseFilter(all, (j: Job) => j.state == FAILED, DistinctPair);
    forall x | x in to && Terminal(x) && x !in q ensures x in all && x.state == FAILED {
      var i :| 0 <= i < |to| && to[i] == x;
      assert q[i] in q;
      ExpiredIsAffected(q, i, now, online);
    }
  }

  lemma TimeoutSound(c: Core, now: int, online: Option<string -> bool>)
    requires Ready(c)
    ensures Sound(c, TimeoutScript(c.mem, now, online))
  {
    TimeoutKeeps(c.mem, now, online);
    TimeoutHits(c.mem, now, online);
    PersistThenRecord(c, ExpireQueue(c.mem, now, online), None, FailedJobs(c.mem, now, online));
  }

  lemma {:induction false} CancelHits(q: Queue, ids: seq<JobId>, now: int)
    requires WellFormed(q)
    ensures var r := CancelAll(q, ids, now);
      && (forall i | 0 <= i < |q| :: r.mem[i] == q[i] || (!Terminal(q[i]) && r.mem[i] == CancelOne(q[i], now)))
      && (forall i | 0 <= i < |q| && r.mem[i] != q[i] :: r.mem[i] in r.hits)
      && (forall h | h in r.hits :: h in r.mem && Terminal(h))
      && Pairwise(r.hits, DistinctPair)
  {
    if ids != [] {
      var prev := CancelAll(q, ids[..|ids| - 1], now);
      CancelHits(q, ids[..|ids| - 1], now);
      var i := IndexOf(prev.mem, ids[|ids| - 1]);
      var r := CancelAll(q, ids, now);
      if i < |q| && !Terminal(prev.mem[i]) {
        var j := CancelOne(prev.mem[i], now);
        assert prev.mem[i] == q[i] && r.mem == prev.mem[i := j] && r.hits == prev.hits + [j];
        forall h | h in prev.hits ensures h in r.mem && h.id != j.id {
          var k :| 0 <= k < |q| && prev.mem[k] == h;
          assert k != i;
          assert r.mem[k] == h;
          if k < i { assert DistinctPair(q[k], q[i]); } else { assert DistinctPair(q[i], q[k]); }
        }
        assert r.mem[i] == j;
      }
    }
  }

  lemma CancelKeeps(q: Queue, ids: seq<JobId>, now: int)
    requires WellFormed(q)
    ensures var r := CancelAll(q, ids, now);
      && WellFormed(r.mem) && Evolves(q, r.mem, None) && Ids(r.mem) == Ids(q)
      && forall x | x in r.mem && Terminal(x) :: x in r.hits || x in q
  {
    var r := CancelAll(q, ids, now);
    CancelHits(q, ids, now);
    forall i | 0 <= i < |q|
      ensures JobStep(q[i], r.mem[i], None) && Coherent(r.mem[i]) && (LiveFollowup(r.mem[i]) ==> LiveFollowup(q[i]))
    {
      assert q[i] in q;
    }
    PointwiseStep(q, r.mem, None);
    forall x | x in r.mem && Terminal(x) ensures x in r.hits || x in q {
      var k :| 0 <= k < |q| && r.mem[k] == x;
    }
  }

  lemma CancelSound(c: Core, ids: seq<JobId>, now: int)
    requires Ready(c)
    ensures Sound(c, CancelScript(c.mem, ids, now))
  {
    CancelHits(c.mem, ids, now);
    CancelKeeps(c.mem, ids, now);
    var r := CancelAll(c.mem, ids, now);
    PersistThenRecord(c, r.mem, None, r.hits);
  }

  lemma DiscardSound(c: Core, pick: Job -> bool)
    requires Ready(c)
    ensures Sound(c, DiscardScript(c.mem, pick))
  {
    var q, kept := c.mem, Kept(c.mem, pick);
    FilterWellFormed(q, (j: Job) => !(Terminal(j) && pick(j)));
    if |kept| < |q| {
      var u := Update(kept, None, true);
      ScriptTwo(c, u, Persist);
      PersistSyncs(Apply(Apply(c, u), Persist));
    }
  }
}
