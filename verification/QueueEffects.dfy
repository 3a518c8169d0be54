/** What each operation does to the jobs, to queue.json and to history, field by field and
    for every queue whose ids are distinct, without its script. */
module QueueEffects {
  import opened Common
  import opened Routing
  import opened Jobs
  import opened QueueOps
  import opened QueueInvariants
  import opened QueueMachine
  import opened QueueScripts
  import opened QueueMeaning
  import opened QueueStores

  predicate Ended(j: Job) { j.state in {SUCCESS, FAILED, TIMED_OUT, CANCELLED} }

  /** History says of the job what the queue says. */
  predicate HasRow(h: History, j: Job) { j.id in h && h[j.id] == Row(j.state, j.finishedAt, j.ota) }

  predicate SameRow(h: History, g: History, id: JobId) { (id in h <==> id in g) && (id in h ==> g[id] == h[id]) }

  // ---- scripts on stores ----

  lemma ReplayIsPlay(s: Store, script: seq<Micro>)
    ensures var e := Play(EMPTY.(mem := s.mem, disk := s.disk, hist := s.hist), script);
      Replay(s, script) == Store(e.mem, e.disk, e.hist)
  {
    hide Play, Replay;
    PlayIsReplay(EMPTY.(mem := s.mem, disk := s.disk, hist := s.hist), script);
  }

  /** An update that is saved and recorded. */
  lemma ReplayWrite(s: Store, to: Queue, claimed: Option<JobId>, hits: seq<Job>)
    ensures Replay(s, Write(to, claimed, hits)) == Store(to, to, UpsertAll(s.hist, hits))
  {
    hide Play, Replay, Write, UpsertAll;
    ReplayIsPlay(s, Write(to, claimed, hits));
    PlayWrite(EMPTY.(mem := s.mem, disk := s.disk, hist := s.hist), to, claimed, hits);
  }

  lemma ReplayNothing(s: Store)
    ensures Replay(s, []) == s
  {}

  lemma ReplayOne(s: Store, m: Micro)
    ensures Replay(s, [m]) == Do(s, m)
  {
    assert [m][..0] == [];
  }

  /** Rows after recording these finished jobs, none of which contradicts another. */
  lemma {:induction false} RowsAfter(h: History, js: seq<Job>)
    requires forall a, b | a in js && b in js && a.id == b.id :: a == b
    requires forall j | j in js :: Ended(j)
    ensures forall j | j in js :: HasRow(UpsertAll(h, js), j)
    ensures forall id | id !in Ids(js) :: SameRow(h, UpsertAll(h, js), id)
  {
    if js != [] {
      var front, last := js[..|js| - 1], js[|js| - 1];
      assert js == front + [last];
      RowsAfter(h, front);
      assert Ids(js) == Ids(front) + {last.id};
    }
  }

  lemma OneRow(h: History, j: Job)
    ensures Ended(j) ==> HasRow(UpsertAll(h, [j]), j)
    ensures forall id | id != j.id || !Ended(j) :: SameRow(h, UpsertAll(h, [j]), id)
  {
    assert [j][..0] == [];
    assert UpsertAll(h, []) == h;
  }

  /** The jobs that have just ended have their rows, and no other row has changed. */
  ghost predicate RowsFollow(s: Store, t: Store) {
    && (forall j | j in t.mem && j !in s.mem && Ended(j) :: HasRow(t.hist, j))
    && (forall id | (forall j | j in t.mem && j !in s.mem && j.id == id :: !Ended(j)) :: SameRow(s.hist, t.hist, id))
  }

  lemma NothingFollows(s: Store)
    ensures RowsFollow(s, s)
  {}

  /** The hits are the jobs that end between q and `to`. */
  ghost predicate NewlyEnded(q: Queue, to: Queue, hits: seq<Job>) {
    forall h :: (h in hits <==> h in to && h !in q && Ended(h))
  }

  lemma WriteFollows(s: Store, to: Queue, claimed: Option<JobId>, hits: seq<Job>)
    requires Pairwise(to, DistinctPair) && NewlyEnded(s.mem, to, hits)
    ensures Replay(s, Write(to, claimed, hits)) == Store(to, to, UpsertAll(s.hist, hits))
    ensures RowsFollow(s, Store(to, to, UpsertAll(s.hist, hits)))
  {
    ReplayWrite(s, to, claimed, hits);
    forall a, b | a in hits && b in hits && a.id == b.id ensures a == b {
      SameJob(to, a, b);
    }
    RowsAfter(s.hist, hits);
  }

  lemma OnlyAt(q: Queue, id: JobId)
    requires Pairwise(q, DistinctPair)
    ensures forall k | 0 <= k < |q| :: q[k].id == id <==> k == IndexOf(q, id)
  {
    var i := IndexOf(q, id);
    forall k | 0 <= k < |q| && k != i ensures q[k].id != id {
      if i < k {
        assert DistinctPair(q[i], q[k]);
      }
    }
  }

  // ---- a result ----

  predicate TakesResult(j: Job, id: JobId, ota: Option<string>) {
    j.id == id && (j.state == WORKING || ((j.state == SUCCESS || j.state == FAILED) && ota.Some?))
  }

  /** A running job ends as the result says; a finished one takes a late OTA verdict; queue.json
      and the history row follow. Anything else is refused and changes nothing. */
  ghost predicate Submitted(
    s: Store, t: Store, id: JobId, success: bool, ota: Option<string>, needs: bool, now: int, ok: bool)
  {
    && |t.mem| == |s.mem|
    && (forall k | 0 <= k < |s.mem| ::
          t.mem[k] == if !TakesResult(s.mem[k], id, ota) then s.mem[k]
                      else if s.mem[k].state == WORKING then
                        s.mem[k].(state := if success then SUCCESS else FAILED,
                                  finishedAt := Some(now),
                                  ota := if ota.Some? then ota else s.mem[k].ota,
                                  serverOta := s.mem[k].serverOta || (needs && success))
                      else s.mem[k].(ota := ota))
    && (ok <==> exists k | 0 <= k < |s.mem| :: TakesResult(s.mem[k], id, ota))
    && (!ok ==> t == s)
    && (ok ==> t.disk == t.mem)
    && (ok ==> forall k | 0 <= k < |t.mem| && t.mem[k].id == id :: HasRow(t.hist, t.mem[k]))
    && (forall x | x != id :: SameRow(s.hist, t.hist, x))
  }

  lemma SubmitDoes(s: Store, id: JobId, success: bool, ota: Option<string>, needs: bool, now: int)
    requires Pairwise(s.mem, DistinctPair)
    ensures Submitted(s, Replay(s, SubmitScript(s.mem, id, success, ota, needs, now)), id, success, ota, needs, now,
                      exists k | 0 <= k < |s.mem| :: TakesResult(s.mem[k], id, ota))
  {
    hide Replay, UpsertAll, Write, Pairwise, IndexOf;
    var i := IndexOf(s.mem, id);
    OnlyAt(s.mem, id);
    ReplayNothing(s);
    assert i <= |s.mem| by {
      IndexInRange(s.mem, id);
    }
    if i < |s.mem| {
      var j := s.mem[i];
      var k := if TakesOtaPatch(j, ota) then j.(ota := ota) else Finish(j, success, ota, needs, now);
      ReplayWrite(s, s.mem[i := k], None, [k]);
      Logged(s, Write(s.mem[i := k], None, [k]), Ack(id));
      OneRow(s.hist, k);
    }
  }

  lemma SameIds(q: Queue, to: Queue)
    requires Pairwise(q, DistinctPair) && |to| == |q| && forall k | 0 <= k < |q| :: to[k].id == q[k].id
    ensures Pairwise(to, DistinctPair)
  {
    forall i, k | 0 <= i < k < |to| ensures to[i].id != to[k].id {
      assert DistinctPair(q[i], q[k]);
    }
  }

  lemma IndexInRange(q: Queue, id: JobId)
    ensures IndexOf(q, id) <= |q|
  {}

  // ---- the timeout check ----

  /** The job ran out of time, or its worker is known to be offline. */
  predicate RanOut(j: Job, now: int, online: Option<string -> bool>) {
    && j.state == WORKING && j.assignedAt.Some?
    && (now - j.assignedAt.value >= j.timeout
        || (online.Some? && j.assignedTo.Some? && online.value(j.assignedTo.value) == false))
  }

  /** Tried once more, or failed at the cap. */
  function NextTry(j: Job, now: int): Job {
    if j.retries + 1 < MAX_RETRIES then
      j.(retries := j.retries + 1, state := PENDING, assignedTo := None, assignedAt := None)
    else j.(retries := j.retries + 1, state := FAILED, finishedAt := Some(now))
  }

  ghost predicate TriesTo(q: Queue, to: Queue, now: int, online: Option<string -> bool>) {
    |to| == |q|
    && forall k | 0 <= k < |q| :: to[k] == if RanOut(q[k], now, online) then NextTry(q[k], now) else q[k]
  }

  /** Exactly the running jobs that ran out are tried once more, or fail at the cap; those
      that fail get their rows. */
  ghost predicate TimedOut(s: Store, t: Store, now: int, online: Option<string -> bool>) {
    && TriesTo(s.mem, t.mem, now, online)
    && (if exists k | 0 <= k < |s.mem| :: RanOut(s.mem[k], now, online) then t.disk == t.mem else t == s)
    && RowsFollow(s, t)
  }

  lemma ExpiredIsRanOut(j: Job, now: int, online: Option<string -> bool>)
    ensures Expired(j, now, online) <==> RanOut(j, now, online)
  {}

  /** What the check reports, by position. */
  lemma AffectedOnes(q: Queue, now: int, online: Option<string -> bool>)
    ensures forall h :: (h in Affected(q, now, online)
                         <==> exists k | 0 <= k < |q| :: RanOut(q[k], now, online) && h == ExpireOne(q[k], now))
  {
    var hits, all := ExpiredJobs(q, now, online), Affected(q, now, online);
    forall m | 0 <= m < |all|
      ensures exists k | 0 <= k < |q| :: RanOut(q[k], now, online) && all[m] == ExpireOne(q[k], now)
    {
      assert hits[m] in hits;
      var k :| 0 <= k < |q| && q[k] == hits[m];
    }
    forall k | 0 <= k < |q| && RanOut(q[k], now, online) ensures ExpireOne(q[k], now) in all {
      assert q[k] in hits;
      var m :| 0 <= m < |hits| && hits[m] == q[k];
      assert all[m] == ExpireOne(q[k], now);
    }
  }

  lemma FailedByPosition(q: Queue, now: int, online: Option<string -> bool>)
    ensures var to := ExpireQueue(q, now, online);
      forall h :: (h in FailedJobs(q, now, online)
                   <==> exists k | 0 <= k < |q| :: RanOut(q[k], now, online) && h == to[k] && h.state == FAILED)
  {
    AffectedOnes(q, now, online);
    var to, failed := ExpireQueue(q, now, online), FailedJobs(q, now, online);
    assert forall k | 0 <= k < |q| && RanOut(q[k], now, online) :: to[k] == ExpireOne(q[k], now);
    hide Affected, ExpireQueue, RanOut, ExpireOne;
    forall h
      ensures h in failed <==> exists k | 0 <= k < |q| :: RanOut(q[k], now, online) && h == to[k] && h.state == FAILED
    {
      if h in failed {
        var k :| 0 <= k < |q| && RanOut(q[k], now, online) && h == ExpireOne(q[k], now);
        assert h == to[k];
      }
    }
  }

  lemma EndedByTry(q: Queue, to: Queue, now: int, online: Option<string -> bool>, h: Job)
    requires TriesTo(q, to, now, online) && h in to && h !in q && Ended(h)
    ensures exists k | 0 <= k < |q| :: RanOut(q[k], now, online) && h == to[k] && h.state == FAILED
  {
    var k :| 0 <= k < |to| && to[k] == h;
    assert q[k] in q;
    hide RanOut;
  }

  lemma TryEnds(q: Queue, to: Queue, now: int, online: Option<string -> bool>, k: nat)
    requires Pairwise(q, DistinctPair) && TriesTo(q, to, now, online)
    requires k < |q| && RanOut(q[k], now, online) && to[k].state == FAILED
    ensures to[k] in to && to[k] !in q && Ended(to[k])
  {
    OnlyAt(q, q[k].id);
    hide Pairwise;
  }

  /** Those that hit the cap are the jobs that have just ended. */
  lemma FailedOnes(q: Queue, now: int, online: Option<string -> bool>)
    requires Pairwise(q, DistinctPair)
    ensures NewlyEnded(q, ExpireQueue(q, now, online), FailedJobs(q, now, online))
  {
    FailedByPosition(q, now, online);
    ExpiresTo(q, now, online);
    var to, failed := ExpireQueue(q, now, online), FailedJobs(q, now, online);
    hide FailedJobs, ExpireQueue, Pairwise, RanOut, TriesTo, Ended;
    forall h ensures h in failed <==> h in to && h !in q && Ended(h) {
      if h in to && h !in q && Ended(h) {
        EndedByTry(q, to, now, online, h);
      }
      if h in failed {
        var k :| 0 <= k < |q| && RanOut(q[k], now, online) && h == to[k] && h.state == FAILED;
        TryEnds(q, to, now, online, k);
      }
    }
  }

  lemma ExpiresTo(q: Queue, now: int, online: Option<string -> bool>)
    ensures TriesTo(q, ExpireQueue(q, now, online), now, online)
    ensures forall k | 0 <= k < |q| :: ExpireQueue(q, now, online)[k].id == q[k].id
  {
    forall k | 0 <= k < |q| ensures ExpireOne(q[k], now) == NextTry(q[k], now) {}
    hide ExpireOne, NextTry;
  }

  lemma ExpiryKeepsIds(q: Queue, now: int, online: Option<string -> bool>)
    requires Pairwise(q, DistinctPair)
    ensures Pairwise(ExpireQueue(q, now, online), DistinctPair)
  {
    ExpiresTo(q, now, online);
    hide ExpireQueue, Pairwise, RanOut, NextTry;
    SameIds(q, ExpireQueue(q, now, online));
  }

  lemma SomethingExpires(q: Queue, now: int, online: Option<string -> bool>)
    ensures Affected(q, now, online) != [] <==> exists k | 0 <= k < |q| :: RanOut(q[k], now, online)
  {
    AffectedOnes(q, now, online);
    var all := Affected(q, now, online);
    hide Affected, RanOut, ExpireOne;
    if all != [] {
      assert all[0] in all;
    }
    if exists k | 0 <= k < |q| :: RanOut(q[k], now, online) {
      var k :| 0 <= k < |q| && RanOut(q[k], now, online);
      assert ExpireOne(q[k], now) in all;
    }
  }

  lemma TimeoutStores(s: Store, now: int, online: Option<string -> bool>)
    requires Pairwise(s.mem, DistinctPair)
    ensures var to, hits := ExpireQueue(s.mem, now, online), FailedJobs(s.mem, now, online);
      var t := Replay(s, TimeoutScript(s.mem, now, online));
      && t == (if Affected(s.mem, now, online) == [] then s else Store(to, to, UpsertAll(s.hist, hits)))
      && RowsFollow(s, t)
  {
    FailedOnes(s.mem, now, online);
    ExpiryKeepsIds(s.mem, now, online);
    hide Replay, UpsertAll, Write, FailedJobs, Affected, Pairwise, ExpireQueue, NewlyEnded, RowsFollow;
    if Affected(s.mem, now, online) == [] {
      NothingFollows(s);
      ReplayNothing(s);
    } else {
      WriteFollows(s, ExpireQueue(s.mem, now, online), None, FailedJobs(s.mem, now, online));
    }
  }

  lemma TimeoutDoes(s: Store, now: int, online: Option<string -> bool>)
    requires Pairwise(s.mem, DistinctPair)
    ensures TimedOut(s, Replay(s, TimeoutScript(s.mem, now, online)), now, online)
  {
    TimeoutStores(s, now, online);
    ExpiresTo(s.mem, now, online);
    SomethingExpires(s.mem, now, online);
    hide Replay, TimeoutScript, UpsertAll, FailedJobs, Affected, Pairwise, RanOut, ExpireQueue, RowsFollow, NextTry;
  }

  // ---- a claim ----

  /** The client may have the job: it waits, is kept for nobody else, and the rules allow it
      or it is pinned to the client; a deferring client only gets what is pinned to it, and a
      follow-up goes to nobody while a job of its target runs. */
  predicate MayClaim(q: Queue, j: Job, client: string, defer: bool, eligible: Job -> bool) {
    var pinned := j.pinned.Some? && j.pinned.value != "";
    && j.state == PENDING
    && (pinned ==> j.pinned.value == client)
    && (defer ==> pinned)
    && (j.followup ==> forall x | x in q && x.target == j.target :: x.state != WORKING)
    && (pinned || eligible(j))
  }

  /** The job at i, the first that the client may have, is now its own; none, if i is the end. */
  ghost predicate Claimed(s: Store, t: Store, client: string, now: int, defer: bool, eligible: Job -> bool, i: nat) {
    && i <= |s.mem|
    && (forall k | 0 <= k < i :: !MayClaim(s.mem, s.mem[k], client, defer, eligible))
    && (i == |s.mem| ==> t == s)
    && (i < |s.mem| ==>
          && MayClaim(s.mem, s.mem[i], client, defer, eligible)
          && t.mem == s.mem[i := s.mem[i].(state := WORKING, followup := false, assignedTo := Some(client),
                                           assignedAt := Some(now))]
          && t.disk == t.mem && t.hist == s.hist)
  }

  lemma ClaimableIsMayClaim(q: Queue, j: Job, client: string, defer: bool, eligible: Job -> bool)
    ensures Claimable(q, j, client, defer, eligible) <==> MayClaim(q, j, client, defer, eligible)
  {}

  lemma ClaimDoes(s: Store, client: string, now: int, defer: bool, eligible: Job -> bool)
    ensures Claimed(s, Replay(s, ClaimScript(s.mem, client, now, defer, eligible)), client, now, defer, eligible,
                    ClaimIndex(s.mem, client, defer, eligible))
  {
    var i := ClaimIndex(s.mem, client, defer, eligible);
    forall k | 0 <= k < |s.mem|
      ensures Claimable(s.mem, s.mem[k], client, defer, eligible)
        <==> MayClaim(s.mem, s.mem[k], client, defer, eligible)
    {
      ClaimableIsMayClaim(s.mem, s.mem[k], client, defer, eligible);
    }
    hide Replay, Write, MayClaim, Claimable;
    ReplayNothing(s);
    if i < |s.mem| {
      ReplayWrite(s, s.mem[i := Assign(s.mem[i], client, now)], Some(s.mem[i].id), []);
    }
  }

  // ---- a release ----

  /** A running job is counted once more and waits again, unless that was its last try; then
      only the count moves, and it is not saved. */
  ghost predicate Released(s: Store, t: Store, id: JobId, released: bool) {
    && |t.mem| == |s.mem|
    && (forall k | 0 <= k < |s.mem| ::
          t.mem[k] == if s.mem[k].id != id || s.mem[k].state != WORKING then s.mem[k]
                      else if s.mem[k].retries + 1 < MAX_RETRIES then
                        s.mem[k].(retries := s.mem[k].retries + 1, state := PENDING,
                                  assignedTo := None, assignedAt := None)
                      else s.mem[k].(retries := s.mem[k].retries + 1))
    && (released <==> exists k | 0 <= k < |s.mem| ::
          s.mem[k].id == id && s.mem[k].state == WORKING && s.mem[k].retries + 1 < MAX_RETRIES)
    && t.disk == (if released then t.mem else s.disk) && t.hist == s.hist
  }

  lemma ReleaseDoes(s: Store, id: JobId)
    requires Pairwise(s.mem, DistinctPair)
    ensures Released(s, Replay(s, ReleaseScript(s.mem, id)), id, exists k | 0 <= k < |s.mem| ::
      s.mem[k].id == id && s.mem[k].state == WORKING && s.mem[k].retries + 1 < MAX_RETRIES)
  {
    hide Replay, Write, Pairwise, IndexOf;
    var i := IndexOf(s.mem, id);
    OnlyAt(s.mem, id);
    IndexInRange(s.mem, id);
    ReplayNothing(s);
    if i < |s.mem| && s.mem[i].state == WORKING {
      ReplayWrite(s, s.mem[i := Requeue(s.mem[i])], None, []);
      ReplayOne(s, Update(s.mem[i := s.mem[i].(retries := s.mem[i].retries + 1)], None, false));
    }
  }

  // ---- giving a claimed job back ----

  /** The running job at k has failed, is saved and recorded. */
  ghost predicate FailedAt(s: Store, t: Store, k: nat, now: int)
    requires k < |s.mem|
  {
    var j := s.mem[k].(state := FAILED, finishedAt := Some(now));
    && t.mem == s.mem[k := j] && t.disk == t.mem
    && HasRow(t.hist, j) && forall id | id != j.id :: SameRow(s.hist, t.hist, id)
  }

  lemma FailureAt(s: Store, t: Store, k: nat, now: int)
    requires Pairwise(s.mem, DistinctPair) && k < |s.mem| && s.mem[k].state == WORKING
    requires Submitted(s, t, s.mem[k].id, false, None, false, now, true)
    ensures FailedAt(s, t, k, now)
  {
    OnlyAt(s.mem, s.mem[k].id);
    hide Pairwise, HasRow;
    assert t.mem == s.mem[k := s.mem[k].(state := FAILED, finishedAt := Some(now))];
  }

  /** The running job at k waits again, and is saved; or its last try is counted in memory. */
  ghost predicate PutBackAt(s: Store, t: Store, k: nat, released: bool)
    requires k < |s.mem|
  {
    var n := s.mem[k].retries + 1;
    && released == (n < MAX_RETRIES) && t.hist == s.hist
    && t.mem == s.mem[k := if !released then s.mem[k].(retries := n)
                           else s.mem[k].(retries := n, state := PENDING, assignedTo := None, assignedAt := None)]
    && t.disk == if released then t.mem else s.disk
  }

  lemma ReleaseAt(s: Store, t: Store, k: nat, released: bool)
    requires Pairwise(s.mem, DistinctPair) && k < |s.mem| && s.mem[k].state == WORKING
    requires Released(s, t, s.mem[k].id, released)
    ensures PutBackAt(s, t, k, released)
  {
    OnlyAt(s.mem, s.mem[k].id);
    hide Pairwise;
  }

  // ---- a late OTA verdict ----

  ghost predicate Patched(s: Store, t: Store, id: JobId, result: string) {
    && |t.mem| == |s.mem|
    && (forall k | 0 <= k < |s.mem| ::
          t.mem[k] == if s.mem[k].id == id then s.mem[k].(ota := Some(result)) else s.mem[k])
    && ((forall k | 0 <= k < |s.mem| :: s.mem[k].id != id) ==> t == s)
    && (forall k | 0 <= k < |t.mem| && t.mem[k].id == id ::
          t.disk == t.mem && if Ended(t.mem[k]) then HasRow(t.hist, t.mem[k]) else SameRow(s.hist, t.hist, id))
    && (forall x | x != id :: SameRow(s.hist, t.hist, x))
  }

  lemma PatchDoes(s: Store, id: JobId, result: string)
    requires Pairwise(s.mem, DistinctPair)
    ensures Patched(s, Replay(s, PatchScript(s.mem, id, result)), id, result)
  {
    hide Replay, Write, Pairwise, IndexOf, UpsertAll;
    var i := IndexOf(s.mem, id);
    OnlyAt(s.mem, id);
    IndexInRange(s.mem, id);
    ReplayNothing(s);
    if i < |s.mem| {
      var j := s.mem[i].(ota := Some(result));
      ReplayWrite(s, s.mem[i := j], None, [j]);
      OneRow(s.hist, j);
    }
  }

  // ---- a routing sweep ----

  function Judged(j: Job, v: Verdict): Job {
    if j.state != PENDING && j.state != BLOCKED then j
    else match v
      case Eligible => j.(state := PENDING, blockedReason := None)
      case Blocked(reason) => j.(state := BLOCKED, blockedReason := Some(reason))
  }

  /** Waiting jobs wait as the verdict says; the queue is saved if some state has changed. */
  ghost predicate Swept(s: Store, t: Store, check: Job -> Verdict) {
    && |t.mem| == |s.mem|
    && (forall k | 0 <= k < |s.mem| :: t.mem[k] == Judged(s.mem[k], check(s.mem[k])))
    && t.disk == (if exists k | 0 <= k < |s.mem| :: t.mem[k].state != s.mem[k].state then t.mem else s.disk)
    && t.hist == s.hist
  }

  lemma {:induction false} SomethingMoves(q: Queue, check: Job -> Verdict, n: nat)
    requires n <= |q|
    ensures MoveCount(q, check, n) != 0 <==> exists k | 0 <= k < n :: Moves(q[k], check)
  {
    hide Moves;
    if n > 0 {
      SomethingMoves(q, check, n - 1);
    }
  }

  lemma SweptJobs(q: Queue, check: Job -> Verdict)
    ensures var to := SweepQueue(q, check);
      && (forall k | 0 <= k < |q| :: to[k] == Judged(q[k], check(q[k])))
      && (MoveCount(q, check, |q|) != 0 <==> exists k | 0 <= k < |q| :: to[k].state != q[k].state)
  {
    SomethingMoves(q, check, |q|);
    forall j, v ensures SweepOne(j, v) == Judged(j, v) {}
    hide SweepOne, Judged, MoveCount;
  }

  /** How many jobs changed state. */
  ghost function Moved(q: Queue, to: Queue): nat
    requires |to| == |q|
  {
    |set k: nat | k < |q| && to[k].state != q[k].state|
  }

  lemma {:induction false} MovesCounted(q: Queue, check: Job -> Verdict, n: nat)
    requires n <= |q|
    ensures MoveCount(q, check, n) == |Positions(q[..n], (j: Job) => Moves(j, check))|
  {
    hide Moves;
    if n > 0 {
      var front, last := q[..n - 1], q[n - 1];
      MovesCounted(q, check, n - 1);
      assert q[..n] == front + [last];
      PositionsSnoc(front, last, (j: Job) => Moves(j, check));
      assert |front| !in Positions(front, (j: Job) => Moves(j, check));
      hide Positions;
    }
  }

  lemma SweepCounts(q: Queue, check: Job -> Verdict)
    ensures MoveCount(q, check, |q|) == Moved(q, SweepQueue(q, check))
  {
    var to := SweepQueue(q, check);
    MovesCounted(q, check, |q|);
    assert q[..|q|] == q;
    assert Positions(q, (j: Job) => Moves(j, check)) == set k: nat | k < |q| && to[k].state != q[k].state;
  }

  lemma SweepDoes(s: Store, check: Job -> Verdict)
    ensures Swept(s, Replay(s, SweepScript(s.mem, check)), check)
  {
    hide Replay, Write, MoveCount, SweepQueue, Judged;
    var to := SweepQueue(s.mem, check);
    SweptJobs(s.mem, check);
    ReplayWrite(s, to, None, []);
    ReplayOne(s, Update(to, None, false));
  }

  // ---- cancelling ----

  predicate Stops(j: Job, ids: seq<JobId>) { j.id in ids && j.state in {PENDING, WORKING, BLOCKED} }

  ghost predicate CancelsTo(q: Queue, to: Queue, ids: seq<JobId>, now: int) {
    |to| == |q|
    && forall k | 0 <= k < |q| ::
         to[k] == if Stops(q[k], ids) then q[k].(state := CANCELLED, finishedAt := Some(now)) else q[k]
  }

  /** The named jobs that had not ended are cancelled, saved and recorded. */
  ghost predicate Cancelled(s: Store, t: Store, ids: seq<JobId>, now: int) {
    && CancelsTo(s.mem, t.mem, ids, now)
    && (if exists k | 0 <= k < |s.mem| :: Stops(s.mem[k], ids) then t.disk == t.mem else t == s)
    && RowsFollow(s, t)
  }

  lemma CancelledOnes(q: Queue, ids: seq<JobId>, now: int)
    requires Pairwise(q, DistinctPair)
    ensures var r := CancelAll(q, ids, now);
      && CancelsTo(q, r.mem, ids, now) && Pairwise(r.mem, DistinctPair)
      && (forall h :: (h in r.hits <==> exists k | 0 <= k < |q| :: Stops(q[k], ids) && h == r.mem[k]))
  {
    var r := CancelAll(q, ids, now);
    CancelsExactly(q, ids, now);
    hide Pairwise, CancelAll;
    assert forall k | 0 <= k < |q| :: Named(q[k], ids) <==> Stops(q[k], ids);
    SameIds(q, r.mem);
    forall h ensures h in r.hits <==> exists k | 0 <= k < |q| :: Stops(q[k], ids) && h == r.mem[k] {
      if h in r.hits {
        var k :| 0 <= k < |q| && Named(q[k], ids) && h == CancelOne(q[k], now);
        assert r.mem[k] == h;
      }
    }
  }

  /** The hits are the cancelled jobs, and there are none exactly if nothing stops. */
  lemma CancelledHits(q: Queue, to: Queue, hits: seq<Job>, ids: seq<JobId>, now: int)
    requires Pairwise(q, DistinctPair) && CancelsTo(q, to, ids, now)
    requires forall h :: (h in hits <==> exists k | 0 <= k < |q| :: Stops(q[k], ids) && h == to[k])
    ensures NewlyEnded(q, to, hits)
    ensures hits == [] <==> forall k | 0 <= k < |q| :: !Stops(q[k], ids)
  {
    hide Pairwise;
    forall h ensures h in hits <==> h in to && h !in q && Ended(h) {
      if h in to && h !in q && Ended(h) {
        var k :| 0 <= k < |to| && to[k] == h;
        assert q[k] in q;
      }
      if h in hits {
        var k :| 0 <= k < |q| && Stops(q[k], ids) && h == to[k];
        OnlyAt(q, h.id);
      }
    }
    if hits != [] {
      assert hits[0] in hits;
    }
    if exists k | 0 <= k < |q| :: Stops(q[k], ids) {
      var k :| 0 <= k < |q| && Stops(q[k], ids);
      assert to[k] in hits;
    }
  }

  lemma {:induction false} CancelCounts(q: Queue, ids: seq<JobId>, now: int)
    requires Pairwise(q, DistinctPair)
    ensures |CancelAll(q, ids, now).hits| == |Positions(q, (j: Job) => Stops(j, ids))|
  {
    hide CancelAll;
    if ids == [] {
      NobodyNamed(q, ids, now);
    } else {
      CancelCounts(q, ids[..|ids| - 1], now);
      OneMoreCancelled(q, ids, now);
    }
  }

  lemma NobodyNamed(q: Queue, ids: seq<JobId>, now: int)
    requires ids == []
    ensures CancelAll(q, ids, now).hits == [] && Positions(q, (j: Job) => Stops(j, ids)) == {}
  {}

  lemma LastCancel(q: Queue, ids: seq<JobId>, now: int)
    requires ids != []
    ensures var r := CancelAll(q, ids[..|ids| - 1], now);
      var i := IndexOf(r.mem, ids[|ids| - 1]);
      |CancelAll(q, ids, now).hits| == |r.hits| + if i < |q| && !Terminal(r.mem[i]) then 1 else 0
  {
    hide Terminal, CancelOne;
    IndexInRange(CancelAll(q, ids[..|ids| - 1], now).mem, ids[|ids| - 1]);
  }

  /** The last id of a request stops at most one more job. */
  lemma OneMoreStops(q: Queue, ids: seq<JobId>, now: int)
    requires Pairwise(q, DistinctPair) && ids != []
    ensures var front := ids[..|ids| - 1];
      var mem := CancelAll(q, front, now).mem;
      var i := IndexOf(mem, ids[|ids| - 1]);
      && (forall k | 0 <= k < |q| :: Stops(q[k], ids) <==> Stops(q[k], front) || (k == i && !Terminal(mem[k])))
      && (i < |q| && !Terminal(mem[i]) ==> !Stops(q[i], front))
  {
    var front := ids[..|ids| - 1];
    CancelledJobs(q, front, now);
    LastOfIds(q, CancelAll(q, front, now).mem, ids);
    hide CancelAll, IndexOf, Pairwise;
    assert forall k | 0 <= k < |q| :: Named(q[k], front) <==> Stops(q[k], front);
  }

  lemma OneMorePosition(q: Queue, p: Job -> bool, more: Job -> bool, i: nat, grows: bool)
    requires forall k | 0 <= k < |q| :: more(q[k]) <==> p(q[k]) || (k == i && grows)
    requires grows ==> i < |q| && !p(q[i])
    ensures |Positions(q, more)| == |Positions(q, p)| + if grows then 1 else 0
  {
    if grows {
      assert Positions(q, more) == Positions(q, p) + {i} && i !in Positions(q, p);
    } else {
      assert Positions(q, more) == Positions(q, p);
    }
  }

  lemma OneMoreCancelled(q: Queue, ids: seq<JobId>, now: int)
    requires Pairwise(q, DistinctPair) && ids != []
    ensures var front := ids[..|ids| - 1];
      |CancelAll(q, ids, now).hits| - |CancelAll(q, front, now).hits|
        == |Positions(q, (j: Job) => Stops(j, ids))| - |Positions(q, (j: Job) => Stops(j, front))|
  {
    var front := ids[..|ids| - 1];
    var mem := CancelAll(q, front, now).mem;
    var i := IndexOf(mem, ids[|ids| - 1]);
    LastCancel(q, ids, now);
    OneMoreStops(q, ids, now);
    hide CancelAll, IndexOf, Pairwise, Stops, Terminal;
    OneMorePosition(q, (j: Job) => Stops(j, front), (j: Job) => Stops(j, ids), i, i < |q| && !Terminal(mem[i]));
  }

  lemma CancelDoes(s: Store, ids: seq<JobId>, now: int)
    requires Pairwise(s.mem, DistinctPair)
    ensures Cancelled(s, Replay(s, CancelScript(s.mem, ids, now)), ids, now)
  {
    var r := CancelAll(s.mem, ids, now);
    CancelledOnes(s.mem, ids, now);
    CancelledHits(s.mem, r.mem, r.hits, ids, now);
    hide Replay, Write, CancelAll, Pairwise, UpsertAll, Stops, NewlyEnded, RowsFollow;
    if r.hits == [] {
      NothingFollows(s);
      ReplayNothing(s);
    } else {
      hide CancelsTo;
      WriteFollows(s, r.mem, None, r.hits);
    }
  }

  // ---- dropping and marking ----

  /** The finished jobs that were picked are gone; no row changes. */
  ghost predicate Dropped(s: Store, t: Store, pick: Job -> bool) {
    && t.mem == Filter(s.mem, (j: Job) => !(j.state in {SUCCESS, FAILED, TIMED_OUT, CANCELLED} && pick(j)))
    && t.disk == (if t.mem == s.mem then s.disk else t.mem)
    && t.hist == s.hist
  }

  lemma DiscardDoes(s: Store, pick: Job -> bool)
    ensures Dropped(s, Replay(s, DiscardScript(s.mem, pick)), pick)
  {
    var stays := (j: Job) => !(j.state in {SUCCESS, FAILED, TIMED_OUT, CANCELLED} && pick(j));
    FilterSame(s.mem, (j: Job) => !(Terminal(j) && pick(j)), stays);
    var kept := Kept(s.mem, pick);
    assert kept == Filter(s.mem, stays);
    if |kept| == |s.mem| {
      AllKept(s.mem, stays);
    }
    hide Filter, Replay;
    ReplayNothing(s);
    assert [Update(kept, None, true), Persist] == [Update(kept, None, true)] + [Persist];
    Logged(s, [Update(kept, None, true)], Persist);
    ReplayOne(s, Update(kept, None, true));
  }

  lemma {:induction false} AllKept(q: Queue, p: Job -> bool)
    requires |Filter(q, p)| == |q|
    ensures Filter(q, p) == q
  {
    if q != [] {
      var front, x := q[..|q| - 1], q[|q| - 1];
      assert q == front + [x];
      FilterSnoc(front, x, p);
      assert |Filter(front, p)| <= |front|;
      hide Filter;
      AllKept(front, p);
    }
  }

  /** The queue is saved exactly if the job exists and runs, or the call is forced. */
  ghost predicate Marked(s: Store, t: Store, id: JobId, force: bool, ok: bool) {
    && t.mem == s.mem && t.hist == s.hist
    && (ok <==> exists j | j in s.mem :: j.id == id && (force || j.state == WORKING))
    && t.disk == if ok then s.mem else s.disk
  }

  lemma MarkDoes(s: Store, id: JobId, force: bool)
    requires Pairwise(s.mem, DistinctPair)
    ensures Marked(s, Replay(s, MarkScript(s.mem, id, force)), id, force, Markable(s.mem, id, force))
  {
    hide Replay, Pairwise;
    OnlyAt(s.mem, id);
    ReplayNothing(s);
    ReplayOne(s, Persist);
    if Markable(s.mem, id, force) {
      assert s.mem[IndexOf(s.mem, id)] in s.mem;
    } else {
      forall j | j in s.mem ensures !(j.id == id && (force || j.state == WORKING)) {
        var k :| 0 <= k < |s.mem| && s.mem[k] == j;
      }
    }
  }
}
