/** What every operation keeps about the queue itself: coherent jobs, distinct ids,
    one live follow-up per target, and the way a single job may change. */
module QueueInvariants {
  import opened Common
  import opened Jobs
  import opened QueueOps

  /** The timestamps, the assignee and the follow-up flag agree with the state. */
  predicate Coherent(j: Job) {
    && j.state != TIMED_OUT
    && (Terminal(j) <==> j.finishedAt.Some?)
    && (j.state == WORKING ==> j.assignedTo.Some? && j.assignedAt.Some? && !j.followup)
    && (Waiting(j) ==> j.assignedTo == None && j.assignedAt == None)
    && (j.followup ==> Compiles(j))
  }

  predicate DistinctPair(a: Job, b: Job) { a.id != b.id }

  /** No two live follow-ups of one target. */
  predicate FollowupPair(a: Job, b: Job) {
    !(a.target == b.target && LiveFollowup(a) && LiveFollowup(b))
  }

  ghost predicate WellFormed(q: Queue) {
    && Pairwise(q, DistinctPair)
    && Pairwise(q, FollowupPair)
    && forall j | j in q :: Coherent(j)
  }

  /** How one update may change one job. */
  predicate JobStep(a: Job, b: Job, claimed: Option<JobId>) {
    && b.id == a.id
    && b.target == a.target
    && a.retries <= b.retries
    && (Terminal(a) ==> b.state == a.state && b.finishedAt == a.finishedAt)
    && (Waiting(a) ==> b.retries == a.retries)
    && (a.state == WORKING && Waiting(b) ==> b.retries == a.retries + 1 < MAX_RETRIES)
    && (claimed == Some(a.id) <==> a.state != WORKING && b.state == WORKING)
    && (claimed == Some(a.id) ==> Waiting(a))
  }

  /** One job of the new queue continues one of the old queue, or is brand new. */
  ghost predicate Evolves(q: Queue, to: Queue, claimed: Option<JobId>) {
    && (forall a, b | a in q && b in to && a.id == b.id :: JobStep(a, b, claimed))
    && (forall b | b in to && b.id !in Ids(q) :: b.state == PENDING && b.retries == 0)
    && (claimed.Some? ==> claimed.value in Ids(q) && claimed.value in Ids(to))
  }

  ghost predicate Pointwise(q: Queue, to: Queue, claimed: Option<JobId>) {
    && |to| == |q|
    && forall i | 0 <= i < |q| ::
         && JobStep(q[i], to[i], claimed)
         && Coherent(to[i])
         && (LiveFollowup(to[i]) ==> LiveFollowup(q[i]))
  }

  // ---- ids ----

  lemma SameJob(q: Queue, a: Job, b: Job)
    requires Pairwise(q, DistinctPair) && a in q && b in q && a.id == b.id
    ensures a == b
  {
    var i :| 0 <= i < |q| && q[i] == a;
    var k :| 0 <= k < |q| && q[k] == b;
    assert i == k;
  }

  lemma HasIffIds(q: Queue, id: JobId)
    ensures Has(q, id) <==> id in Ids(q)
    ensures Has(q, id) ==> q[IndexOf(q, id)] in q && q[IndexOf(q, id)].id == id
  {
    if id in Ids(q) {
      var j :| j in q && j.id == id;
      var k :| 0 <= k < |q| && q[k] == j;
    }
  }

  // ---- the three shapes of an update ----

  lemma PointwiseStep(q: Queue, to: Queue, claimed: Option<JobId>)
    requires WellFormed(q) && Pointwise(q, to, claimed)
    requires claimed.Some? ==> claimed.value in Ids(q)
    ensures WellFormed(to) && Evolves(q, to, claimed) && Ids(to) == Ids(q)
  {
    forall i, k | 0 <= i < k < |to| ensures DistinctPair(to[i], to[k]) && FollowupPair(to[i], to[k]) {
      assert DistinctPair(q[i], q[k]) && FollowupPair(q[i], q[k]);
      assert JobStep(q[i], to[i], claimed) && JobStep(q[k], to[k], claimed);
    }
    forall b | b in to ensures Coherent(b) && b.id in Ids(q) {
      var k :| 0 <= k < |to| && to[k] == b;
      assert q[k] in q && JobStep(q[k], to[k], claimed);
    }
    forall a, b | a in q && b in to && a.id == b.id ensures JobStep(a, b, claimed) {
      var k :| 0 <= k < |to| && to[k] == b;
      assert q[k] in q && JobStep(q[k], to[k], claimed);
      SameJob(q, a, q[k]);
    }
    forall a | a in q ensures a.id in Ids(to) {
      var k :| 0 <= k < |q| && q[k] == a;
      assert to[k] in to && JobStep(q[k], to[k], claimed);
    }
  }

  /** A change of the single job at position i. */
  lemma OneStep(q: Queue, i: nat, j: Job, claimed: Option<JobId>)
    requires WellFormed(q) && i < |q| && Coherent(j)
    requires JobStep(q[i], j, claimed) && (LiveFollowup(j) ==> LiveFollowup(q[i]))
    requires claimed.Some? ==> claimed.value == q[i].id
    ensures WellFormed(q[i := j]) && Evolves(q, q[i := j], claimed) && Ids(q[i := j]) == Ids(q)
  {
    var to := q[i := j];
    forall k | 0 <= k < |q|
      ensures JobStep(q[k], to[k], claimed) && Coherent(to[k]) && (LiveFollowup(to[k]) ==> LiveFollowup(q[k]))
    {
      assert q[k] in q;
      if k < i { assert DistinctPair(q[k], q[i]); }
      if i < k { assert DistinctPair(q[i], q[k]); }
    }
    assert q[i] in q;
    PointwiseStep(q, to, claimed);
  }

  lemma FilterWellFormed(q: Queue, p: Job -> bool)
    requires WellFormed(q)
    ensures WellFormed(Filter(q, p)) && Evolves(q, Filter(q, p), None) && Ids(Filter(q, p)) <= Ids(q)
  {
    PairwiseFilter(q, p, DistinctPair);
    PairwiseFilter(q, p, FollowupPair);
    forall a, b | a in q && b in Filter(q, p) && a.id == b.id ensures JobStep(a, b, None) {
      SameJob(q, a, b);
    }
  }

  lemma AppendWellFormed(q: Queue, kept: Queue, j: Job)
    requires WellFormed(kept) && Evolves(q, kept, None) && Ids(kept) <= Ids(q)
    requires Coherent(j) && j.state == PENDING && j.retries == 0 && j.id !in Ids(q)
    requires j.followup ==> forall x | x in kept && x.target == j.target :: !LiveFollowup(x)
    ensures WellFormed(kept + [j]) && Evolves(q, kept + [j], None) && Ids(kept + [j]) == Ids(kept) + {j.id}
  {
    var to := kept + [j];
    forall i, k | 0 <= i < k < |to| ensures DistinctPair(to[i], to[k]) && FollowupPair(to[i], to[k]) {
      assert to[i] in kept;
      if k < |kept| {
        assert DistinctPair(kept[i], kept[k]) && FollowupPair(kept[i], kept[k]);
      }
    }
    assert j in to;
    forall x | x in kept ensures x in to {}
  }

  // ---- a restart ----

  lemma RecoverWellFormed(disk: Queue)
    requires WellFormed(disk)
    ensures WellFormed(Recovered(disk)) && Ids(Recovered(disk)) == Ids(disk)
    ensures forall m, d | m in Recovered(disk) && d in disk && m.id == d.id :: m == RecoverOne(d)
  {
    var mem := Recovered(disk);
    forall i, k | 0 <= i < k < |mem| ensures DistinctPair(mem[i], mem[k]) && FollowupPair(mem[i], mem[k]) {
      assert DistinctPair(disk[i], disk[k]) && FollowupPair(disk[i], disk[k]);
      assert Coherent(disk[i]) && Coherent(disk[k]);
    }
    forall m | m in mem ensures Coherent(m) && m.id in Ids(disk) {
      var k :| 0 <= k < |mem| && mem[k] == m;
      assert disk[k] in disk;
    }
    forall d | d in disk ensures d.id in Ids(mem) {
      var k :| 0 <= k < |disk| && disk[k] == d;
      assert mem[k] in mem;
    }
    forall m, d | m in mem && d in disk && m.id == d.id ensures m == RecoverOne(d) {
      var k :| 0 <= k < |mem| && mem[k] == m;
      SameJob(disk, disk[k], d);
    }
  }
}
