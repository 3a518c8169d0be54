/** The worker's disk-quota engine: what may be evicted, in which order, and when to stop
    (disk_quota.py, _run_disk_quota_sweep in client.py). Deletions are taken to succeed. */
module DiskQuota {
  import opened Common

  /** A directory under the worker's base directory; paths are unique. */
  datatype Item =
    | Venv(version: string)
    | Cache(stem: string)
    | SlotTarget(slot: int, stem: string)
    | Pio(slot: int)
    | Other(name: string)

  datatype Entry = Entry(item: Item, mtime: int, bytes: nat)

  /** The entries in directory-listing order. */
  type Tree = seq<Entry>

  datatype PinnedSet = PinnedSet(venvs: set<string>, stems: set<string>, slots: set<int>)

  datatype SweepResult = SweepResult(freed: nat, orphans: nat, venvs: nat, targets: nat, pioSlots: nat)

  const NOTHING := SweepResult(0, 0, 0, 0, 0)

  predicate OtherPath(a: Entry, b: Entry) { a.item != b.item }

  ghost predicate UniquePaths(t: Tree) { Pairwise(t, OtherPath) }

  function Total(t: Tree): nat {
    if t == [] then 0 else Total(t[..|t| - 1]) + t[|t| - 1].bytes
  }

  // ---- listings, oldest first ----

  /** Into a list sorted by age, behind every entry that is not younger. */
  function Insert(q: Tree, e: Entry): (r: Tree)
    ensures forall x :: x in r <==> x in q || x == e
  {
    if q == [] || q[|q| - 1].mtime <= e.mtime then q + [e]
    else
      assert q == q[..|q| - 1] + [q[|q| - 1]];
      Insert(q[..|q| - 1], e) + [q[|q| - 1]]
  }

  /** A stable sort by modification time. */
  function ByAge(q: Tree): (r: Tree)
    ensures forall x :: x in r <==> x in q
  {
    if q == [] then []
    else
      assert q == q[..|q| - 1] + [q[|q| - 1]];
      Insert(ByAge(q[..|q| - 1]), q[|q| - 1])
  }

  function Venvs(t: Tree): Tree { ByAge(Filter(t, (e: Entry) => e.item.Venv?)) }

  function Caches(t: Tree): Tree { ByAge(Filter(t, (e: Entry) => e.item.Cache?)) }

  function PioSlots(t: Tree): Tree { ByAge(Filter(t, (e: Entry) => e.item.Pio?)) }

  /** All but the last, which for venvs is the most recently used one. */
  function ButLast(q: Tree): Tree { if q == [] then [] else q[..|q| - 1] }

  // ---- one eviction ----

  predicate IsPinned(pins: PinnedSet, e: Entry) {
    match e.item
    case Venv(v) => v in pins.venvs
    case Cache(s) => s in pins.stems
    case SlotTarget(_, s) => s in pins.stems
    case Pio(n) => n in pins.slots
    case Other(_) => false
  }

  /** Evicting the listed directory d deletes e: a cached target goes as a whole, with the
      working directories of its stem in every slot. */
  predicate GoesWith(e: Entry, d: Entry) {
    match d.item
    case Venv(v) => e.item == Venv(v)
    case Cache(s) => e.item == Cache(s) || (e.item.SlotTarget? && e.item.stem == s)
    case Pio(n) => e.item == Pio(n)
    case SlotTarget(_, _) => false
    case Other(_) => false
  }

  function Remove(t: Tree, d: Entry): Tree { Filter(t, (e: Entry) => !GoesWith(e, d)) }

  /** An eviction that frees nothing is not counted. */
  function Credit(r: SweepResult, d: Entry, freed: nat): SweepResult {
    if freed == 0 then r
    else
      var s := r.(freed := r.freed + freed);
      match d.item
      case Venv(_) => s.(venvs := s.venvs + 1)
      case Pio(_) => s.(pioSlots := s.pioSlots + 1)
      case _ => s.(targets := s.targets + 1)
  }

  datatype Run = Run(tree: Tree, result: SweepResult)

  function Evict(r: Run, d: Entry): Run {
    var after := Remove(r.tree, d);
    Run(after, if Total(after) <= Total(r.tree) then Credit(r.result, d, Total(r.tree) - Total(after)) else r.result)
  }

  /** Evict the listed directories in order until the tree is good enough. */
  function EvictList(r: Run, dirs: Tree, enough: Tree -> bool): Run {
    if dirs == [] then r
    else
      var s := EvictList(r, dirs[..|dirs| - 1], enough);
      if enough(s.tree) then s else Evict(s, dirs[|dirs| - 1])
  }

  // ---- the policy ----

  function Unpinned(pins: PinnedSet, dirs: Tree): Tree { Filter(dirs, (e: Entry) => !IsPinned(pins, e)) }

  function VenvPlan(t: Tree, pins: PinnedSet): Tree { Unpinned(pins, ButLast(Venvs(t))) }

  function CachePlan(t: Tree, pins: PinnedSet): Tree { Unpinned(pins, Caches(t)) }

  function PioPlan(t: Tree, pins: PinnedSet): Tree { Unpinned(pins, PioSlots(t)) }

  /** Stale venvs first, then cached targets, then toolchains; each oldest first. */
  function Plan(t: Tree, pins: PinnedSet): Tree {
    VenvPlan(t, pins) + CachePlan(t, pins) + PioPlan(t, pins)
  }

  function EvictUntil(r: Run, pins: PinnedSet, enough: Tree -> bool): Run {
    EvictList(r, Plan(r.tree, pins), enough)
  }

  function WithinQuota(quota: nat): Tree -> bool { (t: Tree) => Total(t) <= quota }

  function QuotaRun(t: Tree, quota: nat, pins: PinnedSet): Run {
    EvictUntil(Run(t, NOTHING), pins, WithinQuota(quota))
  }

  // ---- orphaned slots ----

  predicate InSlot(e: Entry, n: int) { (e.item.SlotTarget? || e.item.Pio?) && e.item.slot == n }

  predicate Orphaned(e: Entry, maxSlots: int) {
    (e.item.SlotTarget? || e.item.Pio?) && e.item.slot > maxSlots
  }

  function SlotIds(t: Tree): set<int> { set e | e in t && (e.item.SlotTarget? || e.item.Pio?) :: e.item.slot }

  function Prune(t: Tree, maxSlots: int): Tree { Filter(t, (e: Entry) => !Orphaned(e, maxSlots)) }

  // ---- what one call of the sweep does ----

  datatype Limits = Limits(quota: nat, maxSlots: int, pruneFirst: bool, floor: Tree -> bool)

  /** Orphans, then the quota, then the host's free-space floor. */
  function SweepTree(t: Tree, pins: PinnedSet, l: Limits): Tree {
    var t1 := if l.pruneFirst then Prune(t, l.maxSlots) else t;
    var t2 := QuotaRun(t1, l.quota, pins).tree;
    EvictUntil(Run(t2, NOTHING), pins, l.floor).tree
  }

  // ---- lemmas about filtering and totals ----

  lemma {:induction false} FilterTotal(t: Tree, p: Entry -> bool)
    ensures Total(Filter(t, p)) + Total(Filter(t, (e: Entry) => !p(e))) == Total(t)
    ensures Total(Filter(t, p)) <= Total(t)
  {
    if t != [] {
      var front, e := t[..|t| - 1], t[|t| - 1];
      FilterTotal(front, p);
      TotalSnoc(Filter(front, p), e);
      TotalSnoc(Filter(front, (e: Entry) => !p(e)), e);
    }
  }

  lemma TotalSnoc(t: Tree, e: Entry)
    ensures Total(t + [e]) == Total(t) + e.bytes
    ensures t + [] == t && Total([]) == 0
  {
    assert (t + [e])[..|t|] == t;
  }

  lemma RemoveShrinks(t: Tree, d: Entry)
    ensures Total(Remove(t, d)) <= Total(t)
  {
    FilterTotal(t, (e: Entry) => !GoesWith(e, d));
  }

  // ---- runs of evictions ----

  lemma {:induction false} EvictSplit(r: Run, a: Tree, b: Tree, enough: Tree -> bool)
    ensures EvictList(r, a + b, enough) == EvictList(EvictList(r, a, enough), b, enough)
  {
    if b == [] {
      assert a + b == a;
    } else {
      var n := |b| - 1;
      EvictSplit(r, a, b[..n], enough);
      assert (a + b)[..|a + b| - 1] == a + b[..n];
    }
  }

  lemma {:induction false} EnoughStays(r: Run, dirs: Tree, enough: Tree -> bool)
    requires enough(r.tree)
    ensures EvictList(r, dirs, enough) == r
  {
    if dirs != [] {
      EnoughStays(r, dirs[..|dirs| - 1], enough);
    }
  }

  function RemoveAll(t: Tree, dirs: Tree): Tree {
    Filter(t, (e: Entry) => forall d | d in dirs :: !GoesWith(e, d))
  }

  lemma RemoveAllSnoc(t: Tree, dirs: Tree, d: Entry)
    ensures Remove(RemoveAll(t, dirs), d) == RemoveAll(t, dirs + [d])
  {
    FilterTwice(t, (e: Entry) => forall d | d in dirs :: !GoesWith(e, d), (e: Entry) => !GoesWith(e, d),
                (e: Entry) => forall x | x in dirs + [d] :: !GoesWith(e, x));
  }

  lemma RemoveNone(t: Tree)
    ensures RemoveAll(t, []) == t
  {
    FilterAll(t, (e: Entry) => forall d | d in [] :: !GoesWith(e, d));
  }

  // ---- the shortest prefix ----

  /** The eviction removes exactly the first k directories of the plan, where k is the
      smallest number that is enough, or all of them if no number is. */
  lemma {:induction false} ShortestPrefix(r: Run, dirs: Tree, enough: Tree -> bool) returns (k: nat)
    ensures k <= |dirs|
    ensures EvictList(r, dirs, enough).tree == RemoveAll(r.tree, dirs[..k])
    ensures forall m | 0 <= m < k :: !enough(RemoveAll(r.tree, dirs[..m]))
    ensures k == |dirs| || enough(RemoveAll(r.tree, dirs[..k]))
  {
    hide Remove, RemoveAll, Credit;
    if dirs == [] {
      k := 0;
      RemoveNone(r.tree);
    } else {
      var n := |dirs| - 1;
      k := ShortestPrefix(r, dirs[..n], enough);
      assert forall m | 0 <= m <= n :: dirs[..n][..m] == dirs[..m];
      if !enough(EvictList(r, dirs[..n], enough).tree) {
        RemoveAllSnoc(r.tree, dirs[..n], dirs[n]);
        assert dirs[..n] + [dirs[n]] == dirs[..n + 1];
        k := n + 1;
      }
    }
  }

  // ---- what an eviction run comes to ----

  /** d takes e along: itself, and with a cached target its directories in the slots. */
  predicate Takes(d: Item, e: Item) { e == d || (d.Cache? && e.SlotTarget? && e.stem == d.stem) }

  function Remaining(t: Tree, dirs: Tree): Tree {
    Filter(t, (e: Entry) => forall d | d in dirs :: !Takes(d.item, e.item))
  }

  /** The first k listed directories have gone: k is the smallest number after which the
      tree is good, or all of them if there is none. */
  ghost predicate CutTo(before: Tree, after: Tree, dirs: Tree, good: Tree -> bool, k: nat) {
    && k <= |dirs| && after == Remaining(before, dirs[..k])
    && (forall m | 0 <= m < k :: !good(Remaining(before, dirs[..m])))
    && (k == |dirs| || good(after))
  }

  /** The i-th directory took some bytes with it. */
  predicate FreesSome(t: Tree, dirs: Tree, i: nat)
    requires i < |dirs|
  {
    Total(Remaining(t, dirs[..i + 1])) < Total(Remaining(t, dirs[..i]))
  }

  /** How many of the first k listed directories of a kind took some bytes with them. */
  ghost function Paying(t: Tree, dirs: Tree, k: nat, kind: Item -> bool): nat
    requires k <= |dirs|
  {
    |set i: nat | i < k && kind(dirs[i].item) && FreesSome(t, dirs, i)|
  }

  /** The counters of a run: the bytes that are gone, and by kind the directories that took
      some bytes with them. */
  ghost predicate Tallied(before: Tree, after: Tree, dirs: Tree, k: nat, r: SweepResult) {
    && k <= |dirs| && r.orphans == 0 && r.freed == Total(before) - Total(after)
    && r.venvs == Paying(before, dirs, k, (d: Item) => d.Venv?)
    && r.targets == Paying(before, dirs, k, (d: Item) => d.Cache?)
    && r.pioSlots == Paying(before, dirs, k, (d: Item) => d.Pio?)
  }

  /** CutTo for the quota, in bytes, with its counters. */
  ghost predicate CutToQuota(before: Tree, after: Tree, dirs: Tree, quota: nat, k: nat, r: SweepResult) {
    && k <= |dirs| && after == Remaining(before, dirs[..k])
    && (forall m | 0 <= m < k :: Total(Remaining(before, dirs[..m])) > quota)
    && (k == |dirs| || Total(after) <= quota)
    && Tallied(before, after, dirs, k, r)
  }

  ghost predicate Evictable(dirs: Tree) { forall d | d in dirs :: d.item.Venv? || d.item.Cache? || d.item.Pio? }

  lemma RemoveAllIsRemaining(t: Tree, dirs: Tree)
    requires Evictable(dirs)
    ensures RemoveAll(t, dirs) == Remaining(t, dirs)
  {
    forall d, e | d in dirs ensures GoesWith(e, d) <==> Takes(d.item, e.item) {}
    hide GoesWith, Takes;
    FilterSame(t, (e: Entry) => forall d | d in dirs :: !GoesWith(e, d),
               (e: Entry) => forall d | d in dirs :: !Takes(d.item, e.item));
  }

  lemma RemainingAll(t: Tree, dirs: Tree)
    requires Evictable(dirs)
    ensures forall m | 0 <= m <= |dirs| :: RemoveAll(t, dirs[..m]) == Remaining(t, dirs[..m])
  {
    forall m | 0 <= m <= |dirs| ensures RemoveAll(t, dirs[..m]) == Remaining(t, dirs[..m]) {
      RemoveAllIsRemaining(t, dirs[..m]);
    }
  }

  lemma OneMorePays(t: Tree, dirs: Tree, k: nat, kind: Item -> bool)
    requires k < |dirs|
    ensures Paying(t, dirs, k + 1, kind)
      == Paying(t, dirs, k, kind) + if kind(dirs[k].item) && FreesSome(t, dirs, k) then 1 else 0
  {
    hide FreesSome;
    var some := set i: nat | i < k && kind(dirs[i].item) && FreesSome(t, dirs, i);
    var more := set i: nat | i < k + 1 && kind(dirs[i].item) && FreesSome(t, dirs, i);
    assert more == if kind(dirs[k].item) && FreesSome(t, dirs, k) then some + {k} else some;
  }

  lemma PaysTheSame(t: Tree, dirs: Tree, n: nat, k: nat, kind: Item -> bool)
    requires k <= n <= |dirs|
    ensures Paying(t, dirs[..n], k, kind) == Paying(t, dirs, k, kind)
  {
    forall i: nat | i < k ensures dirs[..n][i] == dirs[i] && FreesSome(t, dirs[..n], i) == FreesSome(t, dirs, i) {
      assert dirs[..n][..i] == dirs[..i] && dirs[..n][..i + 1] == dirs[..i + 1];
    }
    hide FreesSome;
    assert (set i: nat | i < k && kind(dirs[..n][i].item) && FreesSome(t, dirs[..n], i))
      == set i: nat | i < k && kind(dirs[i].item) && FreesSome(t, dirs, i);
  }

  lemma TalliedSame(t: Tree, after: Tree, dirs: Tree, n: nat, k: nat, r: SweepResult)
    requires n <= |dirs| && Tallied(t, after, dirs[..n], k, r)
    ensures Tallied(t, after, dirs, k, r)
  {
    PaysTheSame(t, dirs, n, k, (d: Item) => d.Venv?);
    PaysTheSame(t, dirs, n, k, (d: Item) => d.Cache?);
    PaysTheSame(t, dirs, n, k, (d: Item) => d.Pio?);
    hide Paying, Total;
  }

  lemma EvictTallies(r: Run, d: Entry)
    requires d.item.Venv? || d.item.Cache? || d.item.Pio?
    ensures var e := Evict(r, d);
      var some := Total(e.tree) < Total(r.tree);
      && e.tree == Remove(r.tree, d) && e.result.orphans == r.result.orphans
      && e.result.freed == r.result.freed + Total(r.tree) - Total(e.tree)
      && e.result.venvs == r.result.venvs + (if d.item.Venv? && some then 1 else 0)
      && e.result.targets == r.result.targets + (if d.item.Cache? && some then 1 else 0)
      && e.result.pioSlots == r.result.pioSlots + if d.item.Pio? && some then 1 else 0
  {
    RemoveShrinks(r.tree, d);
    hide Remove, Total;
  }

  lemma TalliedMore(t: Tree, dirs: Tree, k: nat, r: Run)
    requires k < |dirs| && (dirs[k].item.Venv? || dirs[k].item.Cache? || dirs[k].item.Pio?)
    requires r.tree == Remaining(t, dirs[..k]) && Remove(r.tree, dirs[k]) == Remaining(t, dirs[..k + 1])
    requires Tallied(t, r.tree, dirs, k, r.result)
    ensures Tallied(t, Evict(r, dirs[k]).tree, dirs, k + 1, Evict(r, dirs[k]).result)
  {
    hide Paying, Total, Remaining, Remove, Evict;
    EvictTallies(r, dirs[k]);
    OneMorePays(t, dirs, k, (d: Item) => d.Venv?);
    OneMorePays(t, dirs, k, (d: Item) => d.Cache?);
    OneMorePays(t, dirs, k, (d: Item) => d.Pio?);
  }

  lemma NonePays(t: Tree, dirs: Tree, k: nat, kind: Item -> bool)
    requires k <= |dirs|
    ensures k == 0 ==> Paying(t, dirs, k, kind) == 0
  {
    hide FreesSome;
    var some := set i: nat | i < k && kind(dirs[i].item) && FreesSome(t, dirs, i);
    assert k == 0 ==> some == {};
  }

  lemma NothingTallied(t: Tree, dirs: Tree)
    ensures Tallied(t, t, dirs, 0, NOTHING)
  {
    NonePays(t, dirs, 0, (d: Item) => d.Venv?);
    NonePays(t, dirs, 0, (d: Item) => d.Cache?);
    NonePays(t, dirs, 0, (d: Item) => d.Pio?);
    hide Paying;
  }

  /** A run stops as soon as the tree is good, and its counters are right. */
  lemma {:induction false} RunCuts(t: Tree, dirs: Tree, enough: Tree -> bool) returns (k: nat)
    requires Evictable(dirs)
    ensures var r := EvictList(Run(t, NOTHING), dirs, enough);
      CutTo(t, r.tree, dirs, enough, k) && Tallied(t, r.tree, dirs, k, r.result)
  {
    hide Remaining, Tallied, Evict;
    if dirs == [] {
      k := 0;
      RemoveNone(t);
      RemoveAllIsRemaining(t, []);
      NothingTallied(t, []);
    } else {
      var n := |dirs| - 1;
      k := RunCuts(t, dirs[..n], enough);
      var s := EvictList(Run(t, NOTHING), dirs[..n], enough);
      forall m | 0 <= m <= n ensures dirs[..n][..m] == dirs[..m] {}
      TalliedSame(t, s.tree, dirs, n, k, s.result);
      if !enough(s.tree) {
        assert dirs[n] in dirs && dirs[..n] + [dirs[n]] == dirs[..n + 1] && dirs[..n + 1] == dirs;
        RemoveAllIsRemaining(t, dirs[..n]);
        RemoveAllIsRemaining(t, dirs[..n + 1]);
        RemoveAllSnoc(t, dirs[..n], dirs[n]);
        hide RemoveAll, Remove;
        TalliedMore(t, dirs, n, s);
        EvictTallies(s, dirs[n]);
        k := n + 1;
      }
    }
  }

  lemma QuotaCuts(t: Tree, quota: nat, pins: PinnedSet) returns (k: nat)
    ensures CutToQuota(t, QuotaRun(t, quota, pins).tree, Plan(t, pins), quota, k, QuotaRun(t, quota, pins).result)
  {
    hide Plan, Remaining, Tallied, Total, EvictList;
    PlanIsEvictable(t, pins);
    k := RunCuts(t, Plan(t, pins), WithinQuota(quota));
    forall m | 0 <= m < k ensures Total(Remaining(t, Plan(t, pins)[..m])) > quota {
      assert !WithinQuota(quota)(Remaining(t, Plan(t, pins)[..m]));
    }
  }

  lemma PlanIsEvictable(t: Tree, pins: PinnedSet)
    ensures Evictable(Plan(t, pins))
  {
    PlanKinds(t, pins);
    hide VenvPlan, CachePlan, PioPlan;
  }

  /** The tree without the slots above the limit. */
  function WithoutOrphans(t: Tree, maxSlots: int): Tree {
    Filter(t, (e: Entry) => (e.item.SlotTarget? || e.item.Pio?) ==> e.item.slot <= maxSlots)
  }

  lemma PruneInFields(t: Tree, maxSlots: int)
    ensures Prune(t, maxSlots) == WithoutOrphans(t, maxSlots)
    ensures PrunedSlots(t, maxSlots, {})
      == set e | e in t && (e.item.SlotTarget? || e.item.Pio?) && e.item.slot > maxSlots :: e.item.slot
  {
    FilterSame(t, (e: Entry) => !Orphaned(e, maxSlots),
               (e: Entry) => (e.item.SlotTarget? || e.item.Pio?) ==> e.item.slot <= maxSlots);
  }

  /** A sweep: without the slots above the limit, if they are pruned; then cut to the quota;
      then until the host has enough free space or does not say. */
  ghost predicate SweptDown(before: Tree, after: Tree, pins: PinnedSet, l: Limits) {
    CutDown(if l.pruneFirst then WithoutOrphans(before, l.maxSlots) else before, after, pins, l)
  }

  ghost predicate CutDown(before: Tree, after: Tree, pins: PinnedSet, l: Limits) {
    exists t2: Tree, k: nat, m: nat, r: SweepResult :: CutTwice(before, t2, after, pins, l, k, m, r)
  }

  ghost predicate CutTwice(t1: Tree, t2: Tree, t3: Tree, pins: PinnedSet, l: Limits, k: nat, m: nat, r: SweepResult) {
    CutToQuota(t1, t2, Plan(t1, pins), l.quota, k, r) && CutTo(t2, t3, Plan(t2, pins), l.floor, m)
  }

  lemma SweepCuts(t: Tree, pins: PinnedSet, l: Limits)
    ensures SweptDown(t, SweepTree(t, pins, l), pins, l)
  {
    hide Plan, Prune, WithoutOrphans, EvictList, CutTo, CutToQuota, Tallied;
    PruneInFields(t, l.maxSlots);
    var t1 := if l.pruneFirst then Prune(t, l.maxSlots) else t;
    var k := QuotaCuts(t1, l.quota, pins);
    var t2 := QuotaRun(t1, l.quota, pins).tree;
    PlanIsEvictable(t2, pins);
    var m := RunCuts(t2, Plan(t2, pins), l.floor);
    assert SweepTree(t, pins, l) == EvictList(Run(t2, NOTHING), Plan(t2, pins), l.floor).tree;
    assert CutTwice(t1, t2, SweepTree(t, pins, l), pins, l, k, m, QuotaRun(t1, l.quota, pins).result);
  }

  // ---- the engine as the worker runs it ----

  lemma {:induction false} SameListing(r: Run, dirs: Tree, enough: Tree -> bool, kind: Entry -> bool)
    requires forall e, d | d in dirs && GoesWith(e, d) :: !kind(e)
    ensures Filter(EvictList(r, dirs, enough).tree, kind) == Filter(r.tree, kind)
  {
    if dirs != [] {
      var n := |dirs| - 1;
      assert dirs[n] in dirs;
      SameListing(r, dirs[..n], enough, kind);
      var s := EvictList(r, dirs[..n], enough).tree;
      FilterTwice(s, (e: Entry) => !GoesWith(e, dirs[n]), kind, kind);
    }
  }

  class Disk {
    var tree: Tree
    var result: SweepResult

    constructor (t: Tree)
      ensures tree == t && result == NOTHING
    {
      tree, result := t, NOTHING;
    }

    method Count(d: Entry, freed: nat)
      modifies this`result
      ensures result == Credit(old(result), d, freed)
    {
      if freed > 0 {
        result := result.(freed := result.freed + freed);
        match d.item {
          case Venv(_) => result := result.(venvs := result.venvs + 1);
          case Pio(_) => result := result.(pioSlots := result.pioSlots + 1);
          case _ => result := result.(targets := result.targets + 1);
        }
      }
    }

    method EvictOne(d: Entry)
      modifies this
      ensures Run(tree, result) == Evict(old(Run(tree, result)), d)
    {
      hide Remove, Total, Credit;
      var before := Total(tree);
      RemoveShrinks(tree, d);
      tree := Remove(tree, d);
      Count(d, before - Total(tree));
    }

    /** One category: skip the kept position and what is pinned, stop as soon as there is enough. */
    method EvictEach(dirs: Tree, keep: int, pins: PinnedSet, enough: Tree -> bool)
      requires keep == |dirs| || keep == |dirs| - 1
      modifies this
      ensures Run(tree, result)
        == EvictList(old(Run(tree, result)), Unpinned(pins, if keep < |dirs| then ButLast(dirs) else dirs), enough)
    {
      hide At, Evict, EvictList, Unpinned, IsPinned;
      ghost var start := Run(tree, result);
      ghost var all := if keep < |dirs| then ButLast(dirs) else dirs;
      AtEnds(start, pins, all, enough);
      var i := 0;
      while i < |dirs|
        invariant 0 <= i <= |dirs|
        invariant Run(tree, result) == At(start, pins, all, if i <= |all| then i else |all|, enough)
      {
        if i != keep {
          AtStep(start, pins, all, i, enough);
          if !IsPinned(pins, dirs[i]) {
            if enough(tree) {
              AtStays(start, pins, all, i, enough);
              return;
            }
            EvictOne(dirs[i]);
          }
        }
        i := i + 1;
      }
    }

    method EvictInOrder(pins: PinnedSet, enough: Tree -> bool)
      modifies this
      ensures Run(tree, result) == EvictUntil(old(Run(tree, result)), pins, enough)
    {
      ghost var start := Run(tree, result);
      PlanSteps(start, pins, enough);
      if enough(tree) {
        EnoughStays(start, Plan(tree, pins), enough);
        return;
      }
      var venvs := Venvs(tree);
      EvictEach(venvs, |venvs| - 1, pins, enough);
      if enough(tree) {
        return;
      }
      var caches := Caches(tree);
      EvictEach(caches, |caches|, pins, enough);
      if enough(tree) {
        return;
      }
      var pios := PioSlots(tree);
      EvictEach(pios, |pios|, pins, enough);
    }

    method EnforceQuota(quota: nat, pins: PinnedSet) returns (r: SweepResult)
      modifies this
      ensures Run(tree, r) == QuotaRun(old(tree), quota, pins)
      ensures Total(old(tree)) <= quota ==> tree == old(tree) && r == NOTHING
      ensures exists k: nat :: CutToQuota(old(tree), tree, Plan(old(tree), pins), quota, k, r)
    {
      result := NOTHING;
      ghost var k := QuotaCuts(tree, quota, pins);
      if Total(tree) <= quota {
        EnoughStays(Run(tree, NOTHING), Plan(tree, pins), WithinQuota(quota));
      }
      hide EvictList, Plan, CutToQuota, Total;
      EvictInOrder(pins, WithinQuota(quota));
      r := result;
    }

    /** The floor function tells whether the host has enough free space, or does not say. */
    method HostDiskFloor(floor: Tree -> bool, pins: PinnedSet) returns (r: SweepResult)
      modifies this
      ensures Run(tree, r) == EvictUntil(Run(old(tree), NOTHING), pins, floor)
      ensures floor(old(tree)) ==> tree == old(tree) && r == NOTHING
      ensures exists k: nat ::
        CutTo(old(tree), tree, Plan(old(tree), pins), floor, k) && Tallied(old(tree), tree, Plan(old(tree), pins), k, r)
    {
      PlanIsEvictable(tree, pins);
      ghost var k := RunCuts(tree, Plan(tree, pins), floor);
      hide EvictList, Plan, CutTo, Tallied;
      result := NOTHING;
      if floor(tree) {
        EnoughStays(Run(tree, NOTHING), Plan(tree, pins), floor);
        return NOTHING;
      }
      EvictInOrder(pins, floor);
      r := result;
    }

    method DropSlot(n: int) returns (freed: nat)
      modifies this`tree
      ensures tree == Filter(old(tree), (e: Entry) => !InSlot(e, n))
      ensures freed == Total(old(tree)) - Total(tree)
    {
      FilterTotal(tree, (e: Entry) => !InSlot(e, n));
      var before := Total(tree);
      tree := Filter(tree, (e: Entry) => !InSlot(e, n));
      freed := before - Total(tree);
    }

    method PruneOrphans(maxSlots: int) returns (r: SweepResult)
      modifies this`tree
      ensures tree == Prune(old(tree), maxSlots) == WithoutOrphans(old(tree), maxSlots)
      ensures r.freed == Total(old(tree)) - Total(tree)
      ensures r == NOTHING.(freed := r.freed, orphans := |PrunedSlots(old(tree), maxSlots, {})|)
      ensures r.orphans
        == |set e | e in old(tree) && (e.item.SlotTarget? || e.item.Pio?) && e.item.slot > maxSlots :: e.item.slot|
    {
      PruneInFields(tree, maxSlots);
      hide Total, PruneExcept, PrunedSlots;
      ghost var t := tree;
      r := NOTHING;
      var ids := SlotIds(tree);
      PruneNone(t, maxSlots);
      while ids != {}
        invariant ids <= SlotIds(t)
        invariant tree == PruneExcept(t, maxSlots, ids)
        invariant r.freed == Total(t) - Total(tree)
        invariant r == NOTHING.(freed := r.freed, orphans := |PrunedSlots(t, maxSlots, ids)|)
        decreases |ids|
      {
        var n :| n in ids;
        PruneSlot(t, maxSlots, ids, n);
        if n > maxSlots {
          var freed := DropSlot(n);
          r := r.(freed := r.freed + freed, orphans := r.orphans + 1);
        }
        ids := ids - {n};
      }
      PruneAll(t, maxSlots);
    }

    /** The sweep that runs at startup, between jobs and when the quota drops; without a
        quota it does nothing. */
    method RunSweep(pins: PinnedSet, quota: Option<nat>, l: Limits) returns (freed: nat)
      requires quota.Some? ==> l.quota == quota.value
      modifies this
      ensures tree == if quota.None? then old(tree) else SweepTree(old(tree), pins, l)
      ensures freed == Total(old(tree)) - Total(tree)
      ensures quota.Some? ==> SweptDown(old(tree), tree, pins, l)
    {
      if quota.Some? {
        SweepCuts(tree, pins, l);
      }
      hide Total, Prune, Plan, EvictList, SweptDown;
      freed := 0;
      if quota.None? {
        return;
      }
      if l.pruneFirst {
        var orphans := PruneOrphans(l.maxSlots);
        freed := freed + orphans.freed;
      }
      FreedIsGone(Run(tree, NOTHING), Plan(tree, pins), WithinQuota(quota.value));
      var kept := EnforceQuota(quota.value, pins);
      freed := freed + kept.freed;
      FreedIsGone(Run(tree, NOTHING), Plan(tree, pins), l.floor);
      var floor := HostDiskFloor(l.floor, pins);
      freed := freed + floor.freed;
    }
  }

  /** Bytes before are bytes after plus bytes reported as freed. */
  lemma {:induction false} FreedIsGone(r: Run, dirs: Tree, enough: Tree -> bool)
    ensures var s := EvictList(r, dirs, enough); s.result.freed + Total(s.tree) == r.result.freed + Total(r.tree)
  {
    hide Evict, Total;
    if dirs != [] {
      var n := |dirs| - 1;
      FreedIsGone(r, dirs[..n], enough);
      EvictFrees(EvictList(r, dirs[..n], enough), dirs[n]);
    }
  }

  lemma EvictFrees(r: Run, d: Entry)
    ensures Evict(r, d).result.freed + Total(Evict(r, d).tree) == r.result.freed + Total(r.tree)
  {
    hide Remove, Total;
    RemoveShrinks(r.tree, d);
  }

  /** Pruning that has not come to the slots in ids yet. */
  function PruneExcept(t: Tree, maxSlots: int, ids: set<int>): Tree {
    Filter(t, (e: Entry) => !(Orphaned(e, maxSlots) && e.item.slot !in ids))
  }

  /** The orphaned slot numbers, without those in ids. */
  function PrunedSlots(t: Tree, maxSlots: int, ids: set<int>): set<int> {
    set n | n in SlotIds(t) && n > maxSlots && n !in ids
  }

  lemma PruneNone(t: Tree, maxSlots: int)
    ensures PruneExcept(t, maxSlots, SlotIds(t)) == t
    ensures PrunedSlots(t, maxSlots, SlotIds(t)) == {}
  {
    FilterAll(t, (e: Entry) => !(Orphaned(e, maxSlots) && e.item.slot !in SlotIds(t)));
  }

  lemma PruneAll(t: Tree, maxSlots: int)
    ensures PruneExcept(t, maxSlots, {}) == Prune(t, maxSlots)
  {
    var ids: set<int> := {};
    FilterSame(t, (e: Entry) => !(Orphaned(e, maxSlots) && e.item.slot !in ids), (e: Entry) => !Orphaned(e, maxSlots));
  }

  lemma PruneSlot(t: Tree, maxSlots: int, ids: set<int>, n: int)
    requires n in ids && ids <= SlotIds(t)
    ensures |PrunedSlots(t, maxSlots, ids - {n})| == |PrunedSlots(t, maxSlots, ids)| + if n > maxSlots then 1 else 0
    ensures PruneExcept(t, maxSlots, ids - {n})
      == if n > maxSlots then Filter(PruneExcept(t, maxSlots, ids), (e: Entry) => !InSlot(e, n))
         else PruneExcept(t, maxSlots, ids)
  {
    assert PrunedSlots(t, maxSlots, ids - {n})
      == PrunedSlots(t, maxSlots, ids) + if n > maxSlots then {n} else {};
    var p, r := (e: Entry) => !(Orphaned(e, maxSlots) && e.item.slot !in ids), (e: Entry) => !InSlot(e, n);
    var both := (e: Entry) => !(Orphaned(e, maxSlots) && e.item.slot !in ids - {n});
    if n > maxSlots {
      FilterTwice(t, p, r, both);
    } else {
      FilterSame(t, p, both);
    }
  }

  /** A category after its first i directories. */
  function At(start: Run, pins: PinnedSet, all: Tree, i: nat, enough: Tree -> bool): Run
    requires i <= |all|
  {
    EvictList(start, Unpinned(pins, all[..i]), enough)
  }

  lemma AtEnds(start: Run, pins: PinnedSet, all: Tree, enough: Tree -> bool)
    ensures At(start, pins, all, 0, enough) == start
    ensures At(start, pins, all, |all|, enough) == EvictList(start, Unpinned(pins, all), enough)
  {
    assert all[..|all|] == all;
  }

  lemma AtStep(start: Run, pins: PinnedSet, all: Tree, i: nat, enough: Tree -> bool)
    requires i < |all|
    ensures var r := At(start, pins, all, i, enough);
      At(start, pins, all, i + 1, enough) == if IsPinned(pins, all[i]) || enough(r.tree) then r else Evict(r, all[i])
  {
    hide Evict, IsPinned;
    assert all[..i + 1] == all[..i] + [all[i]];
    FilterSnoc(all[..i], all[i], (e: Entry) => !IsPinned(pins, e));
    if !IsPinned(pins, all[i]) {
      EvictSnoc(start, Unpinned(pins, all[..i]), all[i], enough);
    }
  }

  lemma AtStays(start: Run, pins: PinnedSet, all: Tree, i: nat, enough: Tree -> bool)
    requires i <= |all| && enough(At(start, pins, all, i, enough).tree)
    ensures At(start, pins, all, |all|, enough) == At(start, pins, all, i, enough)
    decreases |all| - i
  {
    hide At;
    if i < |all| {
      AtStep(start, pins, all, i, enough);
      AtStays(start, pins, all, i + 1, enough);
    }
  }

  lemma EvictSnoc(r: Run, dirs: Tree, d: Entry, enough: Tree -> bool)
    ensures var s := EvictList(r, dirs, enough);
      EvictList(r, dirs + [d], enough) == if enough(s.tree) then s else Evict(s, d)
  {
    assert (dirs + [d])[..|dirs|] == dirs;
  }

  /** The later categories are listed again after the earlier ones were evicted; the lists
      are the ones of the plan, and a run that is done stays done. */
  lemma PlanSteps(r: Run, pins: PinnedSet, enough: Tree -> bool)
    ensures var a := EvictList(r, VenvPlan(r.tree, pins), enough);
      var b := EvictList(a, CachePlan(a.tree, pins), enough);
      var c := EvictList(b, PioPlan(b.tree, pins), enough);
      && EvictUntil(r, pins, enough) == c
      && (enough(a.tree) ==> c == a)
      && (enough(b.tree) ==> c == b)
  {
    var venvs, caches, pios := VenvPlan(r.tree, pins), CachePlan(r.tree, pins), PioPlan(r.tree, pins);
    var a, b := EvictList(r, venvs, enough), EvictList(EvictList(r, venvs, enough), caches, enough);
    CategoriesKept(r, pins, enough);
    hide EvictList, VenvPlan, CachePlan, PioPlan;
    EvictSplit(r, venvs, caches, enough);
    EvictSplit(r, venvs + caches, pios, enough);
    if enough(a.tree) {
      EnoughStays(a, caches, enough);
      EnoughStays(a, pios, enough);
    }
    if enough(b.tree) {
      EnoughStays(b, pios, enough);
    }
  }

  lemma PlanKinds(t: Tree, pins: PinnedSet)
    ensures forall d | d in VenvPlan(t, pins) :: d in t && d.item.Venv? && !IsPinned(pins, d)
    ensures forall d | d in CachePlan(t, pins) :: d in t && d.item.Cache? && !IsPinned(pins, d)
    ensures forall d | d in PioPlan(t, pins) :: d in t && d.item.Pio? && !IsPinned(pins, d)
  {
    forall d | d in ButLast(Venvs(t)) ensures d in Venvs(t) {}
  }

  lemma CategoriesKept(r: Run, pins: PinnedSet, enough: Tree -> bool)
    ensures var a := EvictList(r, VenvPlan(r.tree, pins), enough);
      var b := EvictList(a, CachePlan(r.tree, pins), enough);
      CachePlan(a.tree, pins) == CachePlan(r.tree, pins) && PioPlan(b.tree, pins) == PioPlan(r.tree, pins)
  {
    var venvs, caches := VenvPlan(r.tree, pins), CachePlan(r.tree, pins);
    var a := EvictList(r, venvs, enough);
    PlanKinds(r.tree, pins);
    hide EvictList, ByAge, Unpinned, ButLast;
    SameListing(r, venvs, enough, (e: Entry) => e.item.Cache?);
    SameListing(r, venvs, enough, (e: Entry) => e.item.Pio?);
    SameListing(a, caches, enough, (e: Entry) => e.item.Pio?);
  }
}
