/** How jobs come into the queue: what a request, a retry and a restart do to the jobs, to
    queue.json and to history, field by field. */
module QueueArrivals {
  import opened Common
  import opened Routing
  import opened Jobs
  import opened QueueOps
  import opened QueueInvariants
  import opened QueueMachine
  import opened QueueScripts
  import opened QueueMeaning
  import opened QueueStores
  import opened QueueEffects

  // ---- scripts on stores ----

  lemma ReplayRecords(s: Store, js: seq<Job>)
    ensures Replay(s, Records(js)) == s.(hist := UpsertAll(s.hist, js))
  {
    hide Replay, Play, UpsertAll, Records;
    ReplayIsPlay(s, Records(js));
    PlayRecords(EMPTY.(mem := s.mem, disk := s.disk, hist := s.hist), js);
  }

  lemma ReplaySwap(s: Store, kept: Queue, gone: Queue, j: Job)
    ensures Replay(s, Swap(kept, gone, j)) == Store(kept + [j], s.disk, UpsertAll(s.hist, gone))
  {
    hide Replay, UpsertAll, Records;
    ReplayRecords(s, gone);
    Logged(s, Records(gone), Update(kept + [j], None, false));
  }

  lemma UpsertSnoc(h: History, js: seq<Job>, j: Job)
    ensures UpsertAll(h, js + [j]) == Upsert(UpsertAll(h, js), j)
  {
    assert (js + [j])[..|js|] == js;
  }

  /** Recording a job that has not ended does nothing. */
  lemma {:induction false} OnlyEnded(h: History, js: seq<Job>)
    ensures UpsertAll(h, js) == UpsertAll(h, Filter(js, (j: Job) => Ended(j)))
  {
    if js != [] {
      var front, last := js[..|js| - 1], js[|js| - 1];
      assert js == front + [last];
      OnlyEnded(h, front);
      FilterSnoc(front, last, (j: Job) => Ended(j));
      UpsertSnoc(h, front, last);
      UpsertSnoc(h, Filter(front, (j: Job) => Ended(j)), last);
      assert !Ended(last) ==> Upsert(UpsertAll(h, front), last) == UpsertAll(h, front);
      hide Filter, UpsertAll;
    }
  }

  /** These jobs have their rows as far as they had ended, and no other row has changed. */
  ghost predicate Recorded(h: History, g: History, gone: Job -> bool, q: Queue) {
    && (forall j | j in q && gone(j) && Ended(j) :: HasRow(g, j))
    && (forall id | (forall j | j in q && gone(j) && j.id == id :: !Ended(j)) :: SameRow(h, g, id))
  }

  lemma RecordedAll(h: History, q: Queue, gone: Job -> bool)
    requires Pairwise(q, DistinctPair)
    ensures Recorded(h, UpsertAll(h, Filter(q, gone)), gone, q)
  {
    var js := Filter(Filter(q, gone), (j: Job) => Ended(j));
    OnlyEnded(h, Filter(q, gone));
    forall a, b | a in js && b in js && a.id == b.id ensures a == b {
      SameJob(q, a, b);
    }
    RowsAfter(h, js);
    hide UpsertAll;
  }

  // ---- a request ----

  predicate QueuedFollowup(j: Job, target: string) { j.target == target && j.state == PENDING && j.followup }

  /** Done with, or never to be handed out. */
  function MakesRoom(target: string): Job -> bool {
    (j: Job) => j.target == target && (Ended(j) || j.state == BLOCKED)
  }

  function Remains(target: string): Job -> bool { (j: Job) => !MakesRoom(target)(j) }

  /** An ordinary request is dropped when nothing is queued behind the target's last live job
      and that job is still waiting. */
  predicate FoldedIn(q: Queue, req: Request) {
    && !req.validateOnly
    && (forall j | j in q :: !QueuedFollowup(j, req.target))
    && exists k | 0 <= k < |q| ::
         && q[k].target == req.target && q[k].state == PENDING
         && forall m | k < m < |q| && q[m].target == req.target :: q[m].state != PENDING && q[m].state != WORKING
  }

  /** The job asks for exactly what the request asks for, and nothing has happened to it. */
  predicate AskedFor(j: Job, req: Request, id: JobId) {
    && j.id == id && j.target == req.target && j.version == req.version && j.timeout == req.timeout
    && j.validateOnly == req.validateOnly && j.serverOta == req.serverOta && j.pinned == req.pinned
    && j.tagFilter == req.tagFilter && j.bypass == req.bypass
    && j.state == PENDING && !j.otaOnly && j.assignedTo == None && j.assignedAt == None && j.finishedAt == None
    && j.retries == 0 && j.ota == None && j.blockedReason == None
  }

  /** The queued follow-up, with what the request asks for. */
  function Redirected(j: Job, req: Request): Job {
    j.(version := req.version, timeout := req.timeout, serverOta := req.serverOta, pinned := req.pinned,
       tagFilter := req.tagFilter, bypass := req.bypass)
  }

  /** A request changes the queued follow-up, is dropped, or makes room for a new job at the
      end, which is a follow-up exactly if a job of its target runs. */
  ghost predicate Enqueued(s: Store, t: Store, req: Request, id: JobId) {
    if !req.validateOnly && exists j | j in s.mem :: QueuedFollowup(j, req.target) then
      && |t.mem| == |s.mem| && t.disk == t.mem && t.hist == s.hist
      && forall k | 0 <= k < |s.mem| ::
           t.mem[k] == if QueuedFollowup(s.mem[k], req.target) then Redirected(s.mem[k], req) else s.mem[k]
    else if FoldedIn(s.mem, req) then t == s
    else
      && t.mem != [] && t.mem[..|t.mem| - 1] == Filter(s.mem, Remains(req.target))
      && AskedFor(t.mem[|t.mem| - 1], req, id)
      && (t.mem[|t.mem| - 1].followup <==>
            !req.validateOnly && exists j | j in s.mem :: j.target == req.target && j.state == WORKING)
      && t.disk == t.mem && Recorded(s.hist, t.hist, MakesRoom(req.target), s.mem)
  }

  lemma FollowupIsThere(q: Queue, target: string)
    ensures 0 <= FollowupIndex(q, target) <==> exists j | j in q :: QueuedFollowup(j, target)
    ensures FollowupIndex(q, target) < |q|
    ensures 0 <= FollowupIndex(q, target) ==> QueuedFollowup(q[FollowupIndex(q, target)], target)
  {
    var f := FollowupIndex(q, target);
    if 0 <= f {
      assert q[f] in q;
    } else {
      forall j | j in q ensures !QueuedFollowup(j, target) {
        var k :| 0 <= k < |q| && q[k] == j;
      }
    }
  }

  lemma OneFollowup(q: Queue, target: string)
    requires WellFormed(q) && 0 <= FollowupIndex(q, target)
    ensures forall k | 0 <= k < |q| :: QueuedFollowup(q[k], target) <==> k == FollowupIndex(q, target)
  {
    var f := FollowupIndex(q, target);
    forall k | 0 <= k < |q| && k != f ensures !QueuedFollowup(q[k], target) {
      assert if k < f then FollowupPair(q[k], q[f]) else FollowupPair(q[f], q[k]);
    }
  }

  /** The last live job decides, when there is no queued follow-up. */
  lemma ActiveDecides(q: Queue, req: Request)
    requires FollowupIndex(q, req.target) < 0
    ensures var a := ActiveIndex(q, req.target);
      && (FoldedIn(q, req) <==> !req.validateOnly && 0 <= a && q[a].state == PENDING)
      && (!FoldedIn(q, req) && !req.validateOnly ==>
            (0 <= a && q[a].state == WORKING <==> exists j | j in q :: j.target == req.target && j.state == WORKING))
  {
    FollowupIsThere(q, req.target);
    var a := ActiveIndex(q, req.target);
    forall k | 0 <= k < |q| && q[k].target == req.target ensures !(q[k].state == PENDING && q[k].followup) {
      assert q[k] in q;
    }
    if 0 <= a {
      assert q[a] in q && CountsAsActive(q[a], req.target);
    }
    if exists j | j in q :: j.target == req.target && j.state == WORKING {
      var j :| j in q && j.target == req.target && j.state == WORKING;
      var k :| 0 <= k < |q| && q[k] == j;
      assert k <= a;
    }
  }

  lemma FoldedHasNone(q: Queue, req: Request)
    ensures FoldedIn(q, req) ==> !req.validateOnly && !exists j | j in q :: QueuedFollowup(j, req.target)
  {}

  lemma EnqueueDoes(s: Store, req: Request, id: JobId)
    requires WellFormed(s.mem)
    ensures Enqueued(s, Replay(s, EnqueueScript(s.mem, req, id)), req, id)
  {
    hide Replay, FollowupIndex, ActiveIndex, Pairwise, Coherent, Recorded, Filter, AskedFor, Redirected, FoldedIn;
    var f, a := FollowupIndex(s.mem, req.target), ActiveIndex(s.mem, req.target);
    FollowupIsThere(s.mem, req.target);
    FollowupInRange(s.mem, req.target);
    FoldedHasNone(s.mem, req);
    hide QueuedFollowup, IsQueuedFollowup, CountsAsActive, Swap, Write, NewJob, Redirect, Records;
    if f < 0 {
      ActiveDecides(s.mem, req);
    }
    if !req.validateOnly && 0 <= f {
      OneFollowup(s.mem, req.target);
      RedirectDoes(s, req, f);
    } else if FoldedIn(s.mem, req) {
      ReplayNothing(s);
    } else {
      CreateDoes(s, req, id, 0 <= a && s.mem[a].state == WORKING && !req.validateOnly);
    }
  }

  /** Nothing is done exactly when the request is dropped. */
  lemma EnqueueAnswers(q: Queue, req: Request, id: JobId)
    ensures EnqueueScript(q, req, id) == [] <==> FoldedIn(q, req)
  {
    FollowupIsThere(q, req.target);
    FollowupInRange(q, req.target);
    if FollowupIndex(q, req.target) < 0 {
      ActiveDecides(q, req);
    }
    hide FollowupIndex, ActiveIndex, NewJob, Redirect, FreshJobs, StaleJobs, Records;
  }

  lemma RedirectDoes(s: Store, req: Request, f: nat)
    requires f < |s.mem|
    ensures Replay(s, Write(s.mem[f := Redirect(s.mem[f], req)], None, []))
      == Store(s.mem[f := Redirected(s.mem[f], req)], s.mem[f := Redirected(s.mem[f], req)], s.hist)
  {
    hide Replay, Write;
    ReplayWrite(s, s.mem[f := Redirect(s.mem[f], req)], None, []);
  }

  lemma StaleMakesRoom(target: string)
    ensures forall j :: MakesRoom(target)(j) <==> IsStale(j, target)
    ensures forall j :: Remains(target)(j) <==> !IsStale(j, target)
  {}

  lemma CreateDoes(s: Store, req: Request, id: JobId, followup: bool)
    requires Pairwise(s.mem, DistinctPair)
    ensures var j := NewJob(id, req, followup);
      var t := Replay(s, Swap(FreshJobs(s.mem, req.target), StaleJobs(s.mem, req.target), j) + [Persist]);
      && t.mem == Filter(s.mem, Remains(req.target)) + [j] && t.disk == t.mem
      && Recorded(s.hist, t.hist, MakesRoom(req.target), s.mem)
      && AskedFor(j, req, id) && j.followup == followup
  {
    var j := NewJob(id, req, followup);
    StaleMakesRoom(req.target);
    FilterSame(s.mem, (j: Job) => !IsStale(j, req.target), Remains(req.target));
    FilterSame(s.mem, (j: Job) => IsStale(j, req.target), MakesRoom(req.target));
    RecordedAll(s.hist, s.mem, MakesRoom(req.target));
    hide Replay, Swap, Filter, Recorded, Pairwise, UpsertAll;
    ReplaySwap(s, FreshJobs(s.mem, req.target), StaleJobs(s.mem, req.target), j);
    Logged(s, Swap(FreshJobs(s.mem, req.target), StaleJobs(s.mem, req.target), j), Persist);
  }

  lemma WaitingStay(s: Store, t: Store, req: Request, id: JobId)
    requires Enqueued(s, t, req, id)
    ensures forall j | j in s.mem && j.state == PENDING && (req.validateOnly || !QueuedFollowup(j, req.target)) ::
      j in t.mem
  {
    hide FoldedIn, AskedFor, Recorded;
    forall j | j in s.mem && j.state == PENDING && (req.validateOnly || !QueuedFollowup(j, req.target))
      ensures j in t.mem
    {
      var k :| 0 <= k < |s.mem| && s.mem[k] == j;
      assert !Ended(j) && !MakesRoom(req.target)(j);
      assert j in Filter(s.mem, Remains(req.target));
    }
  }

  lemma NewOneIsLast(s: Store, t: Store, req: Request, id: JobId)
    requires Enqueued(s, t, req, id) && !FoldedIn(s.mem, req)
    requires req.validateOnly || forall j | j in s.mem :: !QueuedFollowup(j, req.target)
    ensures t.mem != [] && AskedFor(t.mem[|t.mem| - 1], req, id)
  {
    hide Filter, AskedFor, Recorded;
  }

  /** What a request can bring to any queue: a job that was not there is the one asked for, or
      the queued follow-up of an ordinary request, redirected. A validate-only request always
      brings its job, and every waiting job stays, but for that follow-up. */
  lemma EnqueueBrings(q: Queue, req: Request, id: JobId)
    ensures var to := After(q, Enqueue(req, id));
      && (forall x | x in to && x !in q ::
            AskedFor(x, req, id)
            || (!req.validateOnly && exists f | f in q :: QueuedFollowup(f, req.target) && x == Redirected(f, req)))
      && (req.validateOnly ==> exists x | x in to :: AskedFor(x, req, id) && !x.followup)
      && (forall x | x in q && (x.state == PENDING || x.state == WORKING)
             && (req.validateOnly || !QueuedFollowup(x, req.target)) :: x in to)
  {
    EnqueueResult(q, req, id);
    FollowupInRange(q, req.target);
    hide After, ActiveIndex, FollowupIndex;
    var to, a, f := After(q, Enqueue(req, id)), ActiveIndex(q, req.target), FollowupIndex(q, req.target);
    if !req.validateOnly && 0 <= f {
      RedirectedOne(q, f, req);
      assert q[f] in q;
      forall x | x in q && x != q[f] ensures x in to {
        OthersStay(q, f, Redirect(q[f], req), x);
      }
    } else if req.validateOnly || a < 0 || q[a].state != PENDING {
      var j := NewJob(id, req, 0 <= a && q[a].state == WORKING && !req.validateOnly);
      assert j in to && AskedFor(j, req, id);
    }
  }

  // ---- a retry ----

  /** Some id names this finished job. */
  predicate Picked(j: Job, q: Queue, ids: seq<JobId>) { j in q && Ended(j) && j.id in ids }

  /** A finished job whose target has a job that is retried. */
  function GivesWay(q: Queue, ids: seq<JobId>): Job -> bool {
    (j: Job) => Ended(j) && exists p | p in q :: Picked(p, q, ids) && p.target == j.target
  }

  function Stays(q: Queue, ids: seq<JobId>): Job -> bool { (j: Job) => !GivesWay(q, ids)(j) }

  /** j does again what p did: only the flash, on the worker that compiled, if p compiled and
      its flash failed; everything otherwise. It never only validates, and nothing has
      happened to it. */
  predicate Repeats(j: Job, p: Job, id: JobId, version: string, timeout: int) {
    && j.id == id && j.target == p.target && j.version == version && j.timeout == timeout
    && j.serverOta == p.serverOta && !j.validateOnly
    && (j.otaOnly <==> p.state == SUCCESS && p.ota == Some("failed"))
    && j.pinned == (if j.otaOnly then p.assignedTo else p.pinned)
    && j.tagFilter == None && !j.bypass && !j.followup
    && j.state == PENDING && j.assignedTo == None && j.assignedAt == None && j.finishedAt == None
    && j.retries == 0 && j.ota == None && j.blockedReason == None
  }

  /** j repeats a finished job that some id names, under the new id that goes with it. */
  ghost predicate Repetition(
    j: Job, q: Queue, ids: seq<JobId>, newIds: seq<JobId>, versionFor: string -> string, timeout: int)
    requires |ids| == |newIds|
  {
    exists k, p | 0 <= k < |ids| && p in q ::
      Ended(p) && p.id == ids[k] && Repeats(j, p, newIds[k], versionFor(p.target), timeout)
  }

  /** One new job for each target that is retried, in a list of its own. */
  ghost predicate Repetitions(
    news: Queue, q: Queue, ids: seq<JobId>, newIds: seq<JobId>, versionFor: string -> string, timeout: int)
    requires |ids| == |newIds|
  {
    && (forall m | 0 <= m < |news| :: Repetition(news[m], q, ids, newIds, versionFor, timeout))
    && (forall m, n | 0 <= m < n < |news| :: news[m].target != news[n].target)
    && (forall p | Picked(p, q, ids) :: exists m | 0 <= m < |news| :: news[m].target == p.target)
  }

  /** The finished jobs of the retried targets are recorded and gone, the repetitions are
      behind the jobs that stay, and the queue is saved if there are any. */
  ghost predicate Retried(
    s: Store, t: Store, ids: seq<JobId>, newIds: seq<JobId>, versionFor: string -> string, timeout: int, news: Queue)
    requires |ids| == |newIds|
  {
    && t.mem == Filter(s.mem, Stays(s.mem, ids)) + news
    && Repetitions(news, s.mem, ids, newIds, versionFor, timeout)
    && Recorded(s.hist, t.hist, GivesWay(s.mem, ids), s.mem)
    && (if exists p :: Picked(p, s.mem, ids) then t.disk == t.mem else t == s)
  }

  /** The new jobs, id by id. */
  function News(q: Queue, ids: seq<JobId>, newIds: seq<JobId>, versionFor: string -> string, timeout: int): Queue
    requires |ids| == |newIds|
  {
    if ids == [] then []
    else
      var n := |ids| - 1;
      var mem := RetryAll(q, ids[..n], newIds[..n], versionFor, timeout).mem;
      var i := IndexOf(mem, ids[n]);
      News(q, ids[..n], newIds[..n], versionFor, timeout)
      + if i == |mem| || !Terminal(mem[i]) then []
        else [RetryJob(mem[i], newIds[n], versionFor(mem[i].target), timeout)]
  }

  lemma NewsLast(
    q: Queue, ids: seq<JobId>, newIds: seq<JobId>, id: JobId, newId: JobId, versionFor: string -> string, timeout: int)
    requires |ids| == |newIds|
    ensures var mem := RetryAll(q, ids, newIds, versionFor, timeout).mem;
      var i := IndexOf(mem, id);
      News(q, ids + [id], newIds + [newId], versionFor, timeout)
        == News(q, ids, newIds, versionFor, timeout)
           + if i == |mem| || !Terminal(mem[i]) then []
             else [RetryJob(mem[i], newId, versionFor(mem[i].target), timeout)]
  {
    assert (ids + [id])[..|ids|] == ids && (newIds + [newId])[..|ids|] == newIds;
    hide RetryAll, RetryJob, Terminal;
  }

  /** A retry request part of the way through its ids. */
  ghost predicate PartlyRetried(
    s: Store, r: RetryRun, news: Queue,
    ids: seq<JobId>, newIds: seq<JobId>, versionFor: string -> string, timeout: int)
    requires |ids| == |newIds|
  {
    var t := Replay(s, r.script);
    && t.mem == r.mem == Filter(s.mem, Stays(s.mem, ids)) + news && t.disk == s.disk
    && Repetitions(news, s.mem, ids, newIds, versionFor, timeout)
    && Recorded(s.hist, t.hist, GivesWay(s.mem, ids), s.mem)
    && (r.script == [] <==> forall p :: !Picked(p, s.mem, ids))
  }

  lemma RecordedSame(h: History, g: History, q: Queue, gone: Job -> bool, same: Job -> bool)
    requires Recorded(h, g, gone, q) && forall j | j in q :: gone(j) == same(j)
    ensures Recorded(h, g, same, q)
  {}

  /** One more id, which names the finished job p. */
  lemma GivesWayMore(q: Queue, ids: seq<JobId>, id: JobId, p: Job)
    requires Pairwise(q, DistinctPair) && p in q && Ended(p) && p.id == id
    ensures forall j | j in q ::
      GivesWay(q, ids + [id])(j) <==> GivesWay(q, ids)(j) || (Ended(j) && j.target == p.target)
    ensures forall x :: Picked(x, q, ids + [id]) <==> Picked(x, q, ids) || x == p
  {
    forall x ensures Picked(x, q, ids + [id]) <==> Picked(x, q, ids) || x == p {
      if x in q && x.id == id {
        SameJob(q, x, p);
      }
    }
    hide Pairwise, Ended;
    assert Picked(p, q, ids + [id]);
    forall j | j in q
      ensures GivesWay(q, ids + [id])(j) <==> GivesWay(q, ids)(j) || (Ended(j) && j.target == p.target)
    {
      assert p in q && Picked(p, q, ids + [id]);
      forall x | x in q && Picked(x, q, ids) ensures Picked(x, q, ids + [id]) {}
    }
  }

  /** A repetition takes the place of a picked job. */
  lemma RepetitionOf(
    j: Job, q: Queue, ids: seq<JobId>, newIds: seq<JobId>, versionFor: string -> string, timeout: int)
    requires |ids| == |newIds| && Repetition(j, q, ids, newIds, versionFor, timeout)
    ensures exists p | p in q :: Picked(p, q, ids) && p.target == j.target
    ensures j.state == PENDING && j.id in newIds
  {
    var k, p :| 0 <= k < |ids| && p in q
      && Ended(p) && p.id == ids[k] && Repeats(j, p, newIds[k], versionFor(p.target), timeout);
    assert Picked(p, q, ids);
  }

  lemma RepetitionStays(
    j: Job, q: Queue, ids: seq<JobId>, newIds: seq<JobId>, versionFor: string -> string, timeout: int,
    id: JobId, newId: JobId)
    requires |ids| == |newIds| && Repetition(j, q, ids, newIds, versionFor, timeout)
    ensures Repetition(j, q, ids + [id], newIds + [newId], versionFor, timeout)
  {
    var more, moreIds := ids + [id], newIds + [newId];
    var k, p :| 0 <= k < |ids| && p in q
      && Ended(p) && p.id == ids[k] && Repeats(j, p, newIds[k], versionFor(p.target), timeout);
    assert p.id == more[k] && Repeats(j, p, moreIds[k], versionFor(p.target), timeout);
  }

  lemma NewRepetition(
    p: Job, q: Queue, ids: seq<JobId>, newIds: seq<JobId>, newId: JobId, versionFor: string -> string, timeout: int)
    requires |ids| == |newIds| && p in q && Ended(p)
    ensures var j := RetryJob(p, newId, versionFor(p.target), timeout);
      Repetition(j, q, ids + [p.id], newIds + [newId], versionFor, timeout) && j.target == p.target
  {
    var j, k := RetryJob(p, newId, versionFor(p.target), timeout), |ids|;
    var more, moreIds := ids + [p.id], newIds + [newId];
    assert p.id == more[k] && Repeats(j, p, moreIds[k], versionFor(p.target), timeout);
  }

  lemma RepetitionsMore(
    news: Queue, q: Queue, ids: seq<JobId>, newIds: seq<JobId>, versionFor: string -> string, timeout: int,
    p: Job, newId: JobId)
    requires |ids| == |newIds| && Repetitions(news, q, ids, newIds, versionFor, timeout)
    requires Pairwise(q, DistinctPair) && p in q && Ended(p) && !GivesWay(q, ids)(p)
    ensures Repetitions(news + [RetryJob(p, newId, versionFor(p.target), timeout)], q, ids + [p.id], newIds + [newId],
                        versionFor, timeout)
  {
    hide Picked, Repetition, RetryJob, Pairwise, Ended;
    var j := RetryJob(p, newId, versionFor(p.target), timeout);
    NewRepetition(p, q, ids, newIds, newId, versionFor, timeout);
    GivesWayMore(q, ids, p.id, p);
    forall m | 0 <= m < |news|
      ensures news[m].target != p.target
      ensures Repetition(news[m], q, ids + [p.id], newIds + [newId], versionFor, timeout)
    {
      AnotherTarget(news[m], q, ids, newIds, versionFor, timeout, p);
      RepetitionStays(news[m], q, ids, newIds, versionFor, timeout, p.id, newId);
    }
    hide GivesWay;
    forall x | Picked(x, q, ids + [p.id])
      ensures exists m | 0 <= m < |news + [j]| :: (news + [j])[m].target == x.target
    {
      AmongNews(news, j, x.target, x == p);
    }
  }

  lemma AnotherTarget(
    j: Job, q: Queue, ids: seq<JobId>, newIds: seq<JobId>, versionFor: string -> string, timeout: int, p: Job)
    requires |ids| == |newIds| && Repetition(j, q, ids, newIds, versionFor, timeout)
    requires Ended(p) && !GivesWay(q, ids)(p)
    ensures j.target != p.target
  {
    RepetitionOf(j, q, ids, newIds, versionFor, timeout);
    hide Repetition, Picked;
  }

  lemma AmongNews(news: Queue, j: Job, target: string, last: bool)
    requires if last then j.target == target else exists m | 0 <= m < |news| :: news[m].target == target
    ensures var all := news + [j]; exists m | 0 <= m < |all| :: all[m].target == target
  {
    var all := news + [j];
    if last {
      assert all[|news|].target == target;
    } else {
      var m :| 0 <= m < |news| && news[m].target == target;
      assert all[m].target == target;
    }
  }

  lemma RecordedMore(
    h: History, g: History, i: History, q: Queue, gone: Job -> bool, also: Job -> bool, all: Job -> bool)
    requires Pairwise(q, DistinctPair) && Recorded(h, g, gone, q) && Recorded(g, i, also, q)
    requires forall j | j in q :: all(j) == (gone(j) || also(j)) && !(gone(j) && also(j))
    ensures Recorded(h, i, all, q)
  {
    forall j | j in q && all(j) && Ended(j) ensures HasRow(i, j) {
      forall x | x in q && x.id == j.id ensures x == j {
        SameJob(q, x, j);
      }
      assert also(j) || SameRow(g, i, j.id);
    }
    forall id | forall j | j in q && all(j) && j.id == id :: !Ended(j) ensures SameRow(h, i, id) {
      assert forall j | j in q && gone(j) && j.id == id :: !Ended(j);
      assert forall j | j in q && also(j) && j.id == id :: !Ended(j);
      assert SameRow(h, g, id) && SameRow(g, i, id);
    }
  }

  function Left(target: string): Job -> bool { (j: Job) => !(j.target == target && Terminal(j)) }

  function Over(target: string): Job -> bool { (j: Job) => j.target == target && Terminal(j) }

  /** The finished jobs of the target that have not given way yet. */
  function Going(q: Queue, ids: seq<JobId>, target: string): Job -> bool {
    (j: Job) => j.target == target && Ended(j) && Stays(q, ids)(j)
  }

  lemma StaysMore(q: Queue, ids: seq<JobId>, p: Job)
    requires Pairwise(q, DistinctPair) && p in q && Ended(p)
    ensures forall j | j in q :: Stays(q, ids + [p.id])(j) == (Stays(q, ids)(j) && Left(p.target)(j))
    ensures forall j | j in q :: Going(q, ids, p.target)(j) == (Stays(q, ids)(j) && Over(p.target)(j))
    ensures forall j | j in q ::
      GivesWay(q, ids + [p.id])(j) == (GivesWay(q, ids)(j) || Going(q, ids, p.target)(j))
  {
    GivesWayMore(q, ids, p.id, p);
    hide GivesWay;
    assert forall j: Job :: Terminal(j) == Ended(j);
  }

  lemma ListsAreFilters(q: Queue, target: string)
    ensures UnfinishedOf(q, target) == Filter(q, Left(target)) && FinishedOf(q, target) == Filter(q, Over(target))
  {
    FilterSame(q, (j: Job) => !(j.target == target && Terminal(j)), Left(target));
    FilterSame(q, (j: Job) => j.target == target && Terminal(j), Over(target));
  }

  lemma LeftWhenRetried(q: Queue, ids: seq<JobId>, news: Queue, p: Job)
    requires forall j | j in q :: Stays(q, ids + [p.id])(j) == (Stays(q, ids)(j) && Left(p.target)(j))
    requires forall n | n in news :: Left(p.target)(n)
    ensures UnfinishedOf(Filter(q, Stays(q, ids)) + news, p.target) == Filter(q, Stays(q, ids + [p.id])) + news
  {
    hide Filter, Stays, Left, UnfinishedOf;
    var f := Filter(q, Stays(q, ids));
    ListsAreFilters(f + news, p.target);
    FilterConcat(f, news, Left(p.target));
    FilterAll(news, Left(p.target));
    FilterTwice(q, Stays(q, ids), Left(p.target), Stays(q, ids + [p.id]));
  }

  lemma OverWhenRetried(q: Queue, ids: seq<JobId>, news: Queue, p: Job)
    requires forall j | j in q :: Going(q, ids, p.target)(j) == (Stays(q, ids)(j) && Over(p.target)(j))
    requires forall n | n in news :: !Over(p.target)(n)
    ensures FinishedOf(Filter(q, Stays(q, ids)) + news, p.target) == Filter(q, Going(q, ids, p.target))
  {
    hide Filter, Stays, Over, Going, FinishedOf;
    var f := Filter(q, Stays(q, ids));
    ListsAreFilters(f + news, p.target);
    FilterConcat(f, news, Over(p.target));
    FilterNone(news, Over(p.target));
    FilterTwice(q, Stays(q, ids), Over(p.target), Going(q, ids, p.target));
  }

  /** The jobs that are left when a target is retried, and those that go. */
  lemma RetryLists(q: Queue, ids: seq<JobId>, news: Queue, p: Job)
    requires Pairwise(q, DistinctPair) && p in q && Ended(p)
    requires forall n | n in news :: n.state == PENDING
    ensures var mem := Filter(q, Stays(q, ids)) + news;
      && UnfinishedOf(mem, p.target) == Filter(q, Stays(q, ids + [p.id])) + news
      && FinishedOf(mem, p.target) == Filter(q, Going(q, ids, p.target))
  {
    hide Filter, Stays, GivesWay, Going, Pairwise, UnfinishedOf, FinishedOf, Ended;
    forall n | n in news ensures Left(p.target)(n) && !Over(p.target)(n) {}
    hide Left, Over;
    StaysMore(q, ids, p);
    LeftWhenRetried(q, ids, news, p);
    OverWhenRetried(q, ids, news, p);
  }

  lemma RetryStores(s: Store, script: seq<Micro>, kept: Queue, gone: Queue, j: Job)
    ensures var t := Replay(s, script);
      Replay(s, script + Swap(kept, gone, j)) == Store(kept + [j], t.disk, UpsertAll(t.hist, gone))
  {
    hide Replay, UpsertAll, Swap;
    ReplaySplit(s, script, Swap(kept, gone, j));
    ReplaySwap(Replay(s, script), kept, gone, j);
  }

  lemma RetryRows(h: History, g: History, q: Queue, ids: seq<JobId>, p: Job)
    requires Pairwise(q, DistinctPair) && p in q && Ended(p) && Recorded(h, g, GivesWay(q, ids), q)
    ensures Recorded(h, UpsertAll(g, Filter(q, Going(q, ids, p.target))), GivesWay(q, ids + [p.id]), q)
  {
    hide Recorded, UpsertAll, Filter;
    var also := Going(q, ids, p.target);
    StaysMore(q, ids, p);
    RecordedAll(g, q, also);
    forall j: Job ensures !(GivesWay(q, ids)(j) && also(j)) {
      assert also(j) ==> Stays(q, ids)(j);
    }
    hide GivesWay, Going;
    RecordedMore(h, g, UpsertAll(g, Filter(q, also)), q, GivesWay(q, ids), also, GivesWay(q, ids + [p.id]));
  }

  lemma NewsWait(
    news: Queue, q: Queue, ids: seq<JobId>, newIds: seq<JobId>, versionFor: string -> string, timeout: int)
    requires |ids| == |newIds| && Repetitions(news, q, ids, newIds, versionFor, timeout)
    ensures forall n | n in news :: n.state == PENDING && n.id in newIds
  {
    hide Repetition;
    forall n | n in news ensures n.state == PENDING && n.id in newIds {
      var m :| 0 <= m < |news| && news[m] == n;
      RepetitionOf(n, q, ids, newIds, versionFor, timeout);
    }
  }

  /** The id names a finished job of the queue that is left. */
  lemma RetryTakes(
    s: Store, r: RetryRun, news: Queue, ids: seq<JobId>, newIds: seq<JobId>, versionFor: string -> string, timeout: int,
    p: Job, newId: JobId)
    requires |ids| == |newIds| && PartlyRetried(s, r, news, ids, newIds, versionFor, timeout)
    requires Pairwise(s.mem, DistinctPair) && p in s.mem && Ended(p) && !GivesWay(s.mem, ids)(p)
    ensures var j := RetryJob(p, newId, versionFor(p.target), timeout);
      var kept, gone := UnfinishedOf(r.mem, p.target), FinishedOf(r.mem, p.target);
      PartlyRetried(s, RetryRun(kept + [j], r.script + Swap(kept, gone, j)), news + [j], ids + [p.id], newIds + [newId],
                    versionFor, timeout)
  {
    hide Filter, Stays, GivesWay, Going, Pairwise, Repetitions, RetryJob, UnfinishedOf, FinishedOf, Replay, Recorded;
    var q, j := s.mem, RetryJob(p, newId, versionFor(p.target), timeout);
    var kept, gone := UnfinishedOf(r.mem, p.target), FinishedOf(r.mem, p.target);
    assert Picked(p, q, ids + [p.id]);
    hide UpsertAll, Picked, Ended, Records;
    NewsWait(news, q, ids, newIds, versionFor, timeout);
    RetryLists(q, ids, news, p);
    RepetitionsMore(news, q, ids, newIds, versionFor, timeout, p, newId);
    RetryStores(s, r.script, kept, gone, j);
    Assoc(Filter(q, Stays(q, ids + [p.id])), news, [j]);
    RetryRows(s.hist, Replay(s, r.script).hist, q, ids, p);
  }

  lemma RepetitionsSkip(
    news: Queue, q: Queue, ids: seq<JobId>, newIds: seq<JobId>, versionFor: string -> string, timeout: int,
    id: JobId, newId: JobId)
    requires |ids| == |newIds| && Repetitions(news, q, ids, newIds, versionFor, timeout)
    requires forall p | Picked(p, q, ids + [id]) :: GivesWay(q, ids)(p)
    ensures Repetitions(news, q, ids + [id], newIds + [newId], versionFor, timeout)
  {
    forall m | 0 <= m < |news| ensures Repetition(news[m], q, ids + [id], newIds + [newId], versionFor, timeout) {
      RepetitionStays(news[m], q, ids, newIds, versionFor, timeout, id, newId);
    }
    hide Repetition, Picked;
    forall p | Picked(p, q, ids + [id]) ensures exists m | 0 <= m < |news| :: news[m].target == p.target {
      assert GivesWay(q, ids)(p);
      var x :| x in q && Picked(x, q, ids) && x.target == p.target;
    }
  }

  lemma PickedBefore(q: Queue, ids: seq<JobId>, id: JobId)
    requires forall p | Picked(p, q, ids + [id]) :: GivesWay(q, ids)(p)
    ensures (forall p :: !Picked(p, q, ids)) <==> forall p :: !Picked(p, q, ids + [id])
  {
    forall p | Picked(p, q, ids) ensures Picked(p, q, ids + [id]) {}
  }

  /** The id names nothing that can be retried, or a job of a target that has been already. */
  lemma RetrySkips(
    s: Store, r: RetryRun, news: Queue, ids: seq<JobId>, newIds: seq<JobId>, versionFor: string -> string, timeout: int,
    id: JobId, newId: JobId)
    requires |ids| == |newIds| && PartlyRetried(s, r, news, ids, newIds, versionFor, timeout)
    requires forall p | Picked(p, s.mem, ids + [id]) :: GivesWay(s.mem, ids)(p)
    ensures PartlyRetried(s, r, news, ids + [id], newIds + [newId], versionFor, timeout)
  {
    hide Filter, Replay, Recorded, Repetitions, Picked;
    var q := s.mem;
    RepetitionsSkip(news, q, ids, newIds, versionFor, timeout, id, newId);
    PickedBefore(q, ids, id);
    forall j | j in q ensures GivesWay(q, ids + [id])(j) == GivesWay(q, ids)(j) {
      SkippedAlready(q, ids, id, j);
    }
    hide GivesWay;
    FilterSame(q, Stays(q, ids), Stays(q, ids + [id]));
    RecordedSame(s.hist, Replay(s, r.script).hist, q, GivesWay(q, ids), GivesWay(q, ids + [id]));
  }

  lemma SkippedAlready(q: Queue, ids: seq<JobId>, id: JobId, j: Job)
    requires forall p | Picked(p, q, ids + [id]) :: GivesWay(q, ids)(p)
    ensures GivesWay(q, ids + [id])(j) == GivesWay(q, ids)(j)
  {
    if GivesWay(q, ids + [id])(j) {
      var p :| p in q && Picked(p, q, ids + [id]) && p.target == j.target;
      var x :| x in q && Picked(x, q, ids) && x.target == p.target;
    }
    if GivesWay(q, ids)(j) {
      var p :| p in q && Picked(p, q, ids) && p.target == j.target;
      assert Picked(p, q, ids + [id]);
    }
  }

  /** What the id finds in the queue that is left. */
  lemma RetryFinds(
    q: Queue, mem: Queue, news: Queue, ids: seq<JobId>, newIds: seq<JobId>, id: JobId)
    requires Pairwise(q, DistinctPair) && mem == Filter(q, Stays(q, ids)) + news
    requires forall n | n in news :: n.state == PENDING && n.id in newIds
    requires forall x | x in newIds :: x !in Ids(q)
    ensures var i := IndexOf(mem, id);
      if i < |mem| && Terminal(mem[i]) then mem[i] in q && mem[i].id == id && !GivesWay(q, ids)(mem[i])
      else forall p | p in q && Ended(p) && p.id == id :: GivesWay(q, ids)(p)
  {
    var i := IndexOf(mem, id);
    if i < |mem| && Terminal(mem[i]) {
      assert mem[i] in mem && mem[i] !in news;
    } else {
      forall p | p in q && Ended(p) && p.id == id ensures GivesWay(q, ids)(p) {
        assert Stays(q, ids)(p) ==> p in mem;
        if p in mem {
          FindsItself(q, mem, news, newIds, p);
        }
      }
    }
  }

  lemma FindsItself(q: Queue, mem: Queue, news: Queue, newIds: seq<JobId>, p: Job)
    requires Pairwise(q, DistinctPair) && p in q && p in mem && forall j | j in mem :: j in q || j in news
    requires (forall n | n in news :: n.id in newIds) && forall x | x in newIds :: x !in Ids(q)
    ensures IndexOf(mem, p.id) < |mem| && mem[IndexOf(mem, p.id)] == p
  {
    var i := IndexOf(mem, p.id);
    var k :| 0 <= k < |mem| && mem[k] == p;
    assert p.id in Ids(q) && mem[i] in mem;
    SameJob(q, mem[i], p);
  }

  lemma GivenOrPicked(q: Queue, ids: seq<JobId>, id: JobId)
    requires forall p | p in q && Ended(p) && p.id == id :: GivesWay(q, ids)(p)
    ensures forall p | Picked(p, q, ids + [id]) :: GivesWay(q, ids)(p)
  {
    forall p | Picked(p, q, ids + [id]) ensures GivesWay(q, ids)(p) {
      if p.id != id {
        assert Picked(p, q, ids);
      }
    }
  }

  lemma RetryAllLast(
    q: Queue, ids: seq<JobId>, newIds: seq<JobId>, id: JobId, newId: JobId, versionFor: string -> string, timeout: int)
    requires |ids| == |newIds|
    ensures var r := RetryAll(q, ids, newIds, versionFor, timeout);
      var i := IndexOf(r.mem, id);
      RetryAll(q, ids + [id], newIds + [newId], versionFor, timeout)
        == if i == |r.mem| || !Terminal(r.mem[i]) then r
           else
             var p := r.mem[i];
             var j := RetryJob(p, newId, versionFor(p.target), timeout);
             var kept, gone := UnfinishedOf(r.mem, p.target), FinishedOf(r.mem, p.target);
             RetryRun(kept + [j], r.script + Swap(kept, gone, j))
  {
    hide UnfinishedOf, FinishedOf, RetryJob, Swap, Terminal;
    assert (ids + [id])[..|ids|] == ids && (newIds + [newId])[..|ids|] == newIds;
    var r := RetryAll(q, ids, newIds, versionFor, timeout);
    assert r.script + [] == r.script;
  }

  lemma {:induction false} RetryAllDoes(
    s: Store, ids: seq<JobId>, newIds: seq<JobId>, versionFor: string -> string, timeout: int)
    requires |ids| == |newIds| && Pairwise(s.mem, DistinctPair) && forall x | x in newIds :: x !in Ids(s.mem)
    ensures PartlyRetried(s, RetryAll(s.mem, ids, newIds, versionFor, timeout),
                          News(s.mem, ids, newIds, versionFor, timeout), ids, newIds, versionFor, timeout)
  {
    hide PartlyRetried, Pairwise, RetryJob, GivesWay, Picked, Replay, Ids, IndexOf, UnfinishedOf, FinishedOf, Swap;
    if ids == [] {
      assert newIds == [];
      NothingRetried(s, versionFor, timeout);
    } else {
      hide RetryAll, News;
      var n := |ids| - 1;
      var front, newFront := ids[..n], newIds[..n];
      assert ids == front + [ids[n]] && newIds == newFront + [newIds[n]];
      RetryAllDoes(s, front, newFront, versionFor, timeout);
      var r := RetryAll(s.mem, front, newFront, versionFor, timeout);
      var some := News(s.mem, front, newFront, versionFor, timeout);
      RetryAllLast(s.mem, front, newFront, ids[n], newIds[n], versionFor, timeout);
      NewsLast(s.mem, front, newFront, ids[n], newIds[n], versionFor, timeout);
      PartsOf(s, r, some, front, newFront, versionFor, timeout);
      RetryFinds(s.mem, r.mem, some, front, newFront, ids[n]);
      IndexInRange(r.mem, ids[n]);
      var i := IndexOf(r.mem, ids[n]);
      if i < |r.mem| && Terminal(r.mem[i]) {
        RetryTakes(s, r, some, front, newFront, versionFor, timeout, r.mem[i], newIds[n]);
      } else {
        GivenOrPicked(s.mem, front, ids[n]);
        RetrySkips(s, r, some, front, newFront, versionFor, timeout, ids[n], newIds[n]);
        assert some + [] == some;
      }
    }
  }

  lemma PartsOf(
    s: Store, r: RetryRun, news: Queue, ids: seq<JobId>, newIds: seq<JobId>, versionFor: string -> string, timeout: int)
    requires |ids| == |newIds| && PartlyRetried(s, r, news, ids, newIds, versionFor, timeout)
    ensures r.mem == Filter(s.mem, Stays(s.mem, ids)) + news
    ensures forall n | n in news :: n.state == PENDING && n.id in newIds
  {
    hide Filter, Replay, Recorded, Repetitions, Stays, Picked;
    NewsWait(news, s.mem, ids, newIds, versionFor, timeout);
  }

  lemma NothingRetried(s: Store, versionFor: string -> string, timeout: int)
    ensures PartlyRetried(s, RetryRun(s.mem, []), [], [], [], versionFor, timeout)
  {
    ReplayNothing(s);
    forall j: Job ensures Stays(s.mem, [])(j) {
      forall p ensures !Picked(p, s.mem, []) {}
      assert !GivesWay(s.mem, [])(j);
    }
    FilterAll(s.mem, Stays(s.mem, []));
    assert s.mem + [] == s.mem;
  }

  lemma RetryDoes(s: Store, ids: seq<JobId>, newIds: seq<JobId>, versionFor: string -> string, timeout: int)
    requires |ids| == |newIds| && Pairwise(s.mem, DistinctPair) && forall x | x in newIds :: x !in Ids(s.mem)
    ensures var news := News(s.mem, ids, newIds, versionFor, timeout);
      var t := Replay(s, RetryScript(s.mem, ids, newIds, versionFor, timeout));
      Retried(s, t, ids, newIds, versionFor, timeout, news)
  {
    hide Filter, Stays, GivesWay, Repetitions, RetryAll, Replay, Recorded, Picked, News;
    RetryAllDoes(s, ids, newIds, versionFor, timeout);
    var r := RetryAll(s.mem, ids, newIds, versionFor, timeout);
    ReplayNothing(s);
    Logged(s, r.script, Persist);
  }

  // ---- a restart ----

  /** Its flash was under way when the process ended. */
  predicate CutOff(j: Job) { j.state == SUCCESS && j.serverOta && j.ota == None }

  /** A job as it comes back: running ones wait again, a flash that was cut off has failed. */
  function Resumed(j: Job): Job {
    if j.state == WORKING then j.(state := PENDING, assignedTo := None, assignedAt := None)
    else if CutOff(j) then j.(ota := Some("failed"))
    else j
  }

  /** The queue is what queue.json held, each job as it comes back; the failed flashes are in
      history, and queue.json is as it was. */
  ghost predicate Reloaded(disk: Queue, rows: History, t: Store) {
    && |t.mem| == |disk| && (forall k | 0 <= k < |disk| :: t.mem[k] == Resumed(disk[k]))
    && t.disk == disk
    && (forall k | 0 <= k < |disk| && CutOff(disk[k]) :: HasRow(t.hist, t.mem[k]))
    && (forall id | (forall j | j in disk && j.id == id :: !CutOff(j)) :: SameRow(rows, t.hist, id))
  }

  /** The rows that loading writes are those of the flashes that were cut off. */
  lemma StrandedOnes(disk: Queue)
    requires Pairwise(disk, DistinctPair)
    ensures var hits := StrandedJobs(disk);
      && (forall h | h in hits :: Ended(h) && exists j | j in disk :: CutOff(j) && h == Resumed(j))
      && (forall j | j in disk && CutOff(j) :: Resumed(j) in hits)
      && (forall a, b | a in hits && b in hits && a.id == b.id :: a == b)
  {
    var hits, cut := StrandedJobs(disk), Filter(disk, (j: Job) => Stranded(j));
    forall h | h in hits ensures Ended(h) && exists j | j in disk :: CutOff(j) && h == Resumed(j) {
      var k :| 0 <= k < |hits| && hits[k] == h;
      assert cut[k] in cut && CutOff(cut[k]) && h == Resumed(cut[k]);
    }
    forall j | j in disk && CutOff(j) ensures Resumed(j) in hits {
      assert j in cut;
      var m :| 0 <= m < |cut| && cut[m] == j;
      assert hits[m] == Resumed(j);
    }
    hide StrandedJobs, Pairwise;
    forall a, b | a in hits && b in hits && a.id == b.id ensures a == b {
      var x :| x in disk && CutOff(x) && a == Resumed(x);
      var y :| y in disk && CutOff(y) && b == Resumed(y);
      SameJob(disk, x, y);
    }
  }

  lemma RecoveredJobs(disk: Queue)
    ensures |Recovered(disk)| == |disk|
    ensures forall k | 0 <= k < |disk| :: Recovered(disk)[k] == Resumed(disk[k]) && Resumed(disk[k]).id == disk[k].id
  {}

  lemma LoadDoes(disk: Queue, rows: History)
    requires Pairwise(disk, DistinctPair)
    ensures Reloaded(disk, rows, Replay(Store(Recovered(disk), disk, rows), RecoveryScript(disk)))
  {
    var hits := StrandedJobs(disk);
    StrandedOnes(disk);
    RecoveredJobs(disk);
    hide StrandedJobs, Pairwise, Replay, UpsertAll, Resumed, RecoverOne, CutOff, Ended, Recovered, HasRow, SameRow;
    RowsAfter(rows, hits);
    ReplayRecords(Store(Recovered(disk), disk, rows), hits);
    forall id | forall j | j in disk && j.id == id :: !CutOff(j) ensures id !in Ids(hits) {}
  }
}
