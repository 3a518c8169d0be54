/** What the disk-quota sweep is worth: shortest prefix of the policy, nothing pinned is
    lost, bytes add up, and a second sweep finds nothing to do. */
module DiskQuotaTheorems {
  import opened Common
  import opened DiskQuota

  // ---- the listings are sorted ----

  predicate NotYounger(a: Entry, b: Entry) { a.mtime <= b.mtime }

  lemma InsertSnoc(q: Tree, last: Entry, e: Entry)
    ensures Insert(q + [last], e) == if last.mtime <= e.mtime then q + [last] + [e] else Insert(q, e) + [last]
  {
    assert (q + [last])[..|q|] == q;
  }

  lemma SortedSnoc(q: Tree, last: Entry)
    requires Pairwise(q + [last], NotYounger)
    ensures Pairwise(q, NotYounger) && forall x | x in q :: NotYounger(x, last)
  {
    var r := q + [last];
    forall i, k | 0 <= i < k < |q| ensures NotYounger(q[i], q[k]) {
      assert NotYounger(r[i], r[k]);
    }
    forall x | x in q ensures NotYounger(x, last) {
      var m :| 0 <= m < |q| && q[m] == x;
      assert NotYounger(r[m], r[|q|]);
    }
  }

  lemma {:induction false} InsertSorted(q: Tree, e: Entry)
    requires Pairwise(q, NotYounger)
    ensures Pairwise(Insert(q, e), NotYounger)
    ensures multiset(Insert(q, e)) == multiset(q) + multiset{e}
  {
    hide Insert;
    if q == [] {
      InsertNil(e);
    } else {
      var front, last := q[..|q| - 1], q[|q| - 1];
      assert q == front + [last];
      SortedSnoc(front, last);
      InsertSnoc(front, last, e);
      InsertSorted(front, e);
      AppendOldest(if last.mtime <= e.mtime then q else Insert(front, e), if last.mtime <= e.mtime then e else last);
    }
  }

  lemma InsertNil(e: Entry)
    ensures Insert([], e) == [e]
  {}

  lemma AppendOldest(q: Tree, e: Entry)
    requires Pairwise(q, NotYounger) && forall x | x in q :: NotYounger(x, e)
    ensures Pairwise(q + [e], NotYounger)
  {}

  lemma {:induction false} InsertFilter(q: Tree, e: Entry, p: Entry -> bool)
    requires Pairwise(q, NotYounger)
    ensures Filter(Insert(q, e), p) == if p(e) then Insert(Filter(q, p), e) else Filter(q, p)
  {
    hide Insert, Filter;
    if q == [] {
      InsertNil(e);
      FilterSnoc([], e, p);
      assert [] + [e] == [e];
    } else {
      var front, last := q[..|q| - 1], q[|q| - 1];
      assert q == front + [last];
      SortedSnoc(front, last);
      InsertSnoc(front, last, e);
      FilterSnoc(front, last, p);
      if last.mtime <= e.mtime {
        FilterSnoc(q, e, p);
        InsertLast(Filter(q, p), e);
      } else {
        InsertFilter(front, e, p);
        FilterSnoc(Insert(front, e), last, p);
        InsertSnoc(Filter(front, p), last, e);
      }
    }
  }

  lemma InsertLast(q: Tree, e: Entry)
    requires forall x | x in q :: NotYounger(x, e)
    ensures Insert(q, e) == q + [e]
  {
    if q != [] {
      assert q[|q| - 1] in q;
    }
  }

  /** ByAge orders the same entries by modification time. */
  lemma {:induction false} ByAgeSorts(q: Tree)
    ensures Pairwise(ByAge(q), NotYounger)
    ensures multiset(ByAge(q)) == multiset(q)
  {
    if q != [] {
      var front, e := q[..|q| - 1], q[|q| - 1];
      assert q == front + [e];
      ByAgeSorts(front);
      InsertSorted(ByAge(front), e);
    }
  }

  /** Sorting and filtering commute, so evictions do not reorder what is left. */
  lemma {:induction false} ByAgeFilter(q: Tree, p: Entry -> bool)
    ensures ByAge(Filter(q, p)) == Filter(ByAge(q), p)
  {
    if q != [] {
      var front, e := q[..|q| - 1], q[|q| - 1];
      assert q == front + [e];
      ByAgeFilter(front, p);
      ByAgeSorts(front);
      InsertFilter(ByAge(front), e, p);
      FilterSnoc(front, e, p);
      if p(e) {
        assert (Filter(front, p) + [e])[..|Filter(front, p)|] == Filter(front, p);
      }
    }
  }

  // ---- the plan ----

  /** Each part of the plan lists exactly the evictable directories of its kind, oldest
      first; of the venvs the most recently used one is never evictable. */
  lemma PlanIsByAge(t: Tree, pins: PinnedSet)
    ensures Pairwise(VenvPlan(t, pins), NotYounger)
    ensures Pairwise(CachePlan(t, pins), NotYounger)
    ensures Pairwise(PioPlan(t, pins), NotYounger)
    ensures forall e :: e in CachePlan(t, pins) <==> e in t && e.item.Cache? && !IsPinned(pins, e)
    ensures forall e :: e in PioPlan(t, pins) <==> e in t && e.item.Pio? && !IsPinned(pins, e)
    ensures forall e :: e in VenvPlan(t, pins) <==> e in ButLast(Venvs(t)) && !IsPinned(pins, e)
  {
    hide ByAge;
    ByAgeSorts(Filter(t, (e: Entry) => e.item.Venv?));
    ByAgeSorts(Filter(t, (e: Entry) => e.item.Cache?));
    ByAgeSorts(Filter(t, (e: Entry) => e.item.Pio?));
    PairwiseFilter(ButLast(Venvs(t)), (e: Entry) => !IsPinned(pins, e), NotYounger);
    PairwiseFilter(Caches(t), (e: Entry) => !IsPinned(pins, e), NotYounger);
    PairwiseFilter(PioSlots(t), (e: Entry) => !IsPinned(pins, e), NotYounger);
  }

  lemma ByMtime(q: Tree)
    requires Pairwise(q, NotYounger)
    ensures forall i, k | 0 <= i < k < |q| :: q[i].mtime <= q[k].mtime
  {
    forall i, k | 0 <= i < k < |q| ensures q[i].mtime <= q[k].mtime {
      assert NotYounger(q[i], q[k]);
    }
  }

  /** The venv that is listed last when they are listed by age. */
  ghost predicate NewestVenv(t: Tree, m: Entry) {
    m in t && m.item.Venv? && forall e | e in t && e.item.Venv? :: e.mtime <= m.mtime
  }

  /** The plan by its entries: the unpinned venvs but for a newest one, then the unpinned
      cached targets, then the unpinned toolchains, each part oldest first. */
  lemma PlanInFields(t: Tree, pins: PinnedSet) returns (a: Tree, b: Tree, c: Tree, newest: Option<Entry>)
    requires UniquePaths(t)
    ensures Plan(t, pins) == a + b + c
    ensures forall i, k | 0 <= i < k < |a| :: a[i].mtime <= a[k].mtime
    ensures forall i, k | 0 <= i < k < |b| :: b[i].mtime <= b[k].mtime
    ensures forall i, k | 0 <= i < k < |c| :: c[i].mtime <= c[k].mtime
    ensures if newest.Some? then NewestVenv(t, newest.value) else forall e | e in t :: !e.item.Venv?
    ensures forall e :: e in a <==> e in t && e.item.Venv? && e.item.version !in pins.venvs && Some(e) != newest
    ensures forall e :: e in b <==> e in t && e.item.Cache? && e.item.stem !in pins.stems
    ensures forall e :: e in c <==> e in t && e.item.Pio? && e.item.slot !in pins.slots
  {
    a, b, c := VenvPlan(t, pins), CachePlan(t, pins), PioPlan(t, pins);
    PlanIsByAge(t, pins);
    hide ByAge, Unpinned, CachePlan, PioPlan, VenvPlan;
    ByMtime(a);
    ByMtime(b);
    ByMtime(c);
    hide Pairwise;
    forall e | e in t && e.item.Venv? ensures e in Venvs(t) {}
    newest := None;
    if Venvs(t) != [] {
      newest := Some(Venvs(t)[|Venvs(t)| - 1]);
      MostRecent(t);
      NewestIsLast(t);
    }
  }

  lemma NewestIsLast(t: Tree)
    requires Venvs(t) != []
    ensures NewestVenv(t, Venvs(t)[|Venvs(t)| - 1])
  {
    var l := Venvs(t);
    ByAgeSorts(Filter(t, (e: Entry) => e.item.Venv?));
    hide ByAge;
    assert l[|l| - 1] in l;
    forall e | e in t && e.item.Venv? ensures e.mtime <= l[|l| - 1].mtime {
      assert e in l;
      var k :| 0 <= k < |l| && l[k] == e;
      assert k < |l| - 1 ==> NotYounger(l[k], l[|l| - 1]);
    }
  }

  // ---- what a run can lose ----

  lemma {:induction false} Survivors(r: Run, dirs: Tree, enough: Tree -> bool)
    ensures forall e | e in EvictList(r, dirs, enough).tree :: e in r.tree
    ensures forall e | e in r.tree && (forall d | d in dirs :: !GoesWith(e, d)) :: e in EvictList(r, dirs, enough).tree
  {
    var k := ShortestPrefix(r, dirs, enough);
    forall d | d in dirs[..k] ensures d in dirs {}
  }

  lemma PinnedIsNotPlanned(t: Tree, pins: PinnedSet, e: Entry, d: Entry)
    requires IsPinned(pins, e) && d in Plan(t, pins)
    ensures !GoesWith(e, d)
  {
    PlanKinds(t, pins);
  }

  lemma UntilSparesPinned(r: Run, pins: PinnedSet, enough: Tree -> bool)
    ensures forall e | e in r.tree && IsPinned(pins, e) :: e in EvictUntil(r, pins, enough).tree
    ensures forall e | e in EvictUntil(r, pins, enough).tree :: e in r.tree
  {
    hide Plan, GoesWith, IsPinned, EvictList;
    forall e, d | IsPinned(pins, e) && d in Plan(r.tree, pins) ensures !GoesWith(e, d) {
      PinnedIsNotPlanned(r.tree, pins, e, d);
    }
    Survivors(r, Plan(r.tree, pins), enough);
  }

  /** A pinned entry is lost in a sweep if and only if orphans are pruned first and its
      slot number is above the slot limit; the quota and the floor never touch it. */
  lemma SweepSparesPinned(t: Tree, pins: PinnedSet, l: Limits, e: Entry)
    requires e in t && IsPinned(pins, e)
    ensures e !in SweepTree(t, pins, l) <==> l.pruneFirst && Orphaned(e, l.maxSlots)
  {
    hide EvictUntil;
    var t1 := if l.pruneFirst then Prune(t, l.maxSlots) else t;
    UntilSparesPinned(Run(t1, NOTHING), pins, WithinQuota(l.quota));
    UntilSparesPinned(Run(QuotaRun(t1, l.quota, pins).tree, NOTHING), pins, l.floor);
  }

  // ---- a second call ----

  lemma {:induction false} KeepsPaths(r: Run, dirs: Tree, enough: Tree -> bool)
    requires UniquePaths(r.tree)
    ensures UniquePaths(EvictList(r, dirs, enough).tree)
  {
    if dirs != [] {
      var n := |dirs| - 1;
      KeepsPaths(r, dirs[..n], enough);
      PairwiseFilter(EvictList(r, dirs[..n], enough).tree, (e: Entry) => !GoesWith(e, dirs[n]), OtherPath);
    }
  }

  lemma SamePath(t: Tree, a: Entry, b: Entry)
    requires UniquePaths(t) && a in t && b in t && a.item == b.item
    ensures a == b
  {
    var i :| 0 <= i < |t| && t[i] == a;
    var k :| 0 <= k < |t| && t[k] == b;
    assert i == k;
  }

  lemma MostRecent(t: Tree)
    requires UniquePaths(t) && Venvs(t) != []
    ensures var mru := Venvs(t)[|Venvs(t)| - 1];
      && mru in t && mru.item.Venv? && mru !in ButLast(Venvs(t)) && Venvs(t) == ButLast(Venvs(t)) + [mru]
      && forall e :: e in ButLast(Venvs(t)) <==> e in t && e.item.Venv? && e != mru
  {
    hide ByAge, Pairwise;
    var venvs, l := Filter(t, (e: Entry) => e.item.Venv?), Venvs(t);
    PairwiseFilter(t, (e: Entry) => e.item.Venv?, OtherPath);
    ByAgeSorts(venvs);
    OnlyOnce(venvs, l[|l| - 1]);
    LastOnce(l);
  }

  lemma LastOnce(l: Tree)
    requires l != [] && multiset(l)[l[|l| - 1]] <= 1
    ensures var last := l[|l| - 1];
      && last in l && last !in ButLast(l) && l == ButLast(l) + [last]
      && forall e :: e in ButLast(l) <==> e in l && e != last
  {
    var last := l[|l| - 1];
    assert l == ButLast(l) + [last];
    assert multiset(l) == multiset(ButLast(l)) + multiset{last};
  }

  lemma {:induction false} OnlyOnce(t: Tree, e: Entry)
    requires UniquePaths(t)
    ensures multiset(t)[e] <= 1
  {
    if t != [] {
      var n := |t| - 1;
      assert t == t[..n] + [t[n]];
      OnlyOnce(t[..n], e);
      forall k | 0 <= k < n ensures t[k] != t[n] {
        assert OtherPath(t[k], t[n]);
      }
    }
  }

  /** The directory that made the most recent venv keeps it. */
  lemma MostRecentStays(t: Tree, pins: PinnedSet)
    requires UniquePaths(t) && Venvs(t) != []
    ensures forall d | d in Plan(t, pins) :: !GoesWith(Venvs(t)[|Venvs(t)| - 1], d)
  {
    hide ByAge, Venvs;
    MostRecent(t);
    PlanKinds(t, pins);
    PlanIsByAge(t, pins);
    var mru := Venvs(t)[|Venvs(t)| - 1];
    forall d | d in Plan(t, pins) ensures !GoesWith(mru, d) {
      if d in VenvPlan(t, pins) && d.item == mru.item {
        SamePath(t, d, mru);
      }
    }
  }

  function Spared(dirs: Tree): Entry -> bool { (e: Entry) => forall d | d in dirs :: !GoesWith(e, d) }

  /** Listing the venvs that are left is filtering the list of venvs. */
  lemma VenvsLeft(t: Tree, dirs: Tree)
    ensures Venvs(RemoveAll(t, dirs)) == Filter(Venvs(t), Spared(dirs))
  {
    hide ByAge, GoesWith;
    var venv, both := (e: Entry) => e.item.Venv?, (e: Entry) => e.item.Venv? && Spared(dirs)(e);
    FilterTwice(t, Spared(dirs), venv, both);
    FilterTwice(t, venv, Spared(dirs), both);
    FilterSame(t, (e: Entry) => forall d | d in dirs :: !GoesWith(e, d), Spared(dirs));
    ByAgeFilter(Filter(t, venv), Spared(dirs));
  }

  lemma StaleVenvsLeft(t: Tree, pins: PinnedSet)
    requires UniquePaths(t)
    ensures forall e | e in ButLast(Venvs(RemoveAll(t, Plan(t, pins)))) :: IsPinned(pins, e)
  {
    var plan, l := Plan(t, pins), Venvs(t);
    VenvsLeft(t, plan);
    if l != [] {
      MostRecent(t);
      MostRecentStays(t, pins);
      PlanIsByAge(t, pins);
      hide Venvs, ByAge;
      FilterSnoc(ButLast(l), l[|l| - 1], Spared(plan));
      forall e | e in Filter(ButLast(l), Spared(plan)) ensures IsPinned(pins, e) {
        assert !IsPinned(pins, e) ==> e in plan && GoesWith(e, e);
      }
    }
  }

  /** Once the whole plan is gone, a new listing makes an empty plan. */
  lemma NothingLeftToPlan(t: Tree, pins: PinnedSet)
    requires UniquePaths(t)
    ensures Plan(RemoveAll(t, Plan(t, pins)), pins) == []
  {
    var rest := RemoveAll(t, Plan(t, pins));
    StaleVenvsLeft(t, pins);
    CachesLeft(t, pins);
    hide ByAge, ButLast, Venvs, RemoveAll;
    FilterNone(ButLast(Venvs(rest)), (e: Entry) => !IsPinned(pins, e));
    FilterNone(Caches(rest), (e: Entry) => !IsPinned(pins, e));
    FilterNone(PioSlots(rest), (e: Entry) => !IsPinned(pins, e));
  }

  lemma CachesLeft(t: Tree, pins: PinnedSet)
    ensures forall d | d in RemoveAll(t, Plan(t, pins)) && (d.item.Cache? || d.item.Pio?) :: IsPinned(pins, d)
  {
    PlanIsByAge(t, pins);
    hide ByAge, VenvPlan, CachePlan, PioPlan;
    var plan := Plan(t, pins);
    forall d | d in RemoveAll(t, plan) && (d.item.Cache? || d.item.Pio?) ensures IsPinned(pins, d) {
      assert !IsPinned(pins, d) ==> d in plan && GoesWith(d, d);
    }
  }

  /** A second call with the same pins and quota does nothing at all. */
  lemma SecondCallDoesNothing(t: Tree, quota: nat, pins: PinnedSet)
    requires UniquePaths(t)
    ensures var once := QuotaRun(t, quota, pins).tree; QuotaRun(once, quota, pins) == Run(once, NOTHING)
  {
    hide Plan, RemoveAll;
    var once := QuotaRun(t, quota, pins).tree;
    var k := ShortestPrefix(Run(t, NOTHING), Plan(t, pins), WithinQuota(quota));
    if WithinQuota(quota)(once) {
      EnoughStays(Run(once, NOTHING), Plan(once, pins), WithinQuota(quota));
    } else {
      assert Plan(t, pins)[..k] == Plan(t, pins);
      NothingLeftToPlan(t, pins);
    }
  }

  // ---- what is left when the quota cannot be met ----

  predicate Irremovable(t: Tree, pins: PinnedSet, e: Entry) {
    match e.item
    case Venv(v) => v in pins.venvs || (Venvs(t) != [] && e == Venvs(t)[|Venvs(t)| - 1])
    case Cache(s) => s in pins.stems
    case SlotTarget(_, s) => s in pins.stems || forall c | c in t :: c.item != Cache(s)
    case Pio(n) => n in pins.slots
    case Other(_) => true
  }

  /** If usage still exceeds the quota, exactly these are left: what is pinned, the most
      recently used venv, slot directories of targets that have no cache entry, and the
      directories the engine does not manage. */
  lemma WhatRemainsOverQuota(t: Tree, quota: nat, pins: PinnedSet, e: Entry)
    requires UniquePaths(t) && Total(QuotaRun(t, quota, pins).tree) > quota
    ensures e in QuotaRun(t, quota, pins).tree <==> e in t && Irremovable(t, pins, e)
  {
    var k := ShortestPrefix(Run(t, NOTHING), Plan(t, pins), WithinQuota(quota));
    assert Plan(t, pins)[..k] == Plan(t, pins);
    if e in t {
      PlannedExactly(t, pins, e);
    }
  }

  lemma PlannedExactly(t: Tree, pins: PinnedSet, e: Entry)
    requires UniquePaths(t) && e in t
    ensures (forall d | d in Plan(t, pins) :: !GoesWith(e, d)) <==> Irremovable(t, pins, e)
  {
    if Irremovable(t, pins, e) {
      NoCulprit(t, pins, e);
    } else {
      var d := Culprit(t, pins, e);
    }
  }

  lemma NoCulprit(t: Tree, pins: PinnedSet, e: Entry)
    requires UniquePaths(t) && e in t && Irremovable(t, pins, e)
    ensures forall d | d in Plan(t, pins) :: !GoesWith(e, d)
  {
    PlanKinds(t, pins);
    if Venvs(t) != [] && e == Venvs(t)[|Venvs(t)| - 1] {
      MostRecentStays(t, pins);
    }
    hide Plan, Venvs;
  }

  /** The planned directory that takes e with it. */
  lemma Culprit(t: Tree, pins: PinnedSet, e: Entry) returns (d: Entry)
    requires UniquePaths(t) && e in t && !Irremovable(t, pins, e)
    ensures d in Plan(t, pins) && GoesWith(e, d)
  {
    PlanIsByAge(t, pins);
    hide ByAge;
    if e.item.SlotTarget? {
      d :| d in t && d.item == Cache(e.item.stem);
    } else {
      d := e;
      if Venvs(t) != [] {
        MostRecent(t);
      }
    }
  }
}
