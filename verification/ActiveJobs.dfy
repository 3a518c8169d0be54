/** The refcounted pins of running jobs, and the sweep that respects them
    (ActiveJobSet in disk_quota.py, _run_disk_quota_sweep in client.py). */
module ActiveJobs {
  import opened Common
  import opened DiskQuota
  import opened DiskQuotaTheorems

  /** What one running job holds. */
  datatype Pin = Pin(version: string, stem: string, slot: int)

  function Get<T(!new)>(m: map<T, nat>, x: T): nat { if x in m then m[x] else 0 }

  /** m counts how often each element occurs in q, and has no entry for the others. */
  ghost predicate Counts<T(!new)>(m: map<T, nat>, q: seq<T>) {
    forall x :: Get(m, x) == multiset(q)[x] && (x in m ==> m[x] > 0)
  }

  function Up<T(!new)>(m: map<T, nat>, x: T): map<T, nat> { m[x := Get(m, x) + 1] }

  function Down<T(!new)>(m: map<T, nat>, x: T): map<T, nat>
    requires x in m
  {
    if m[x] <= 1 then m - {x} else m[x := m[x] - 1]
  }

  lemma UpCounts<T(!new)>(m: map<T, nat>, q: seq<T>, x: T)
    requires Counts(m, q)
    ensures Counts(Up(m, x), q + [x])
  {}

  lemma DownCounts<T(!new)>(m: map<T, nat>, q: seq<T>, i: nat)
    requires Counts(m, q) && i < |q|
    ensures q[i] in m && Counts(Down(m, q[i]), Without(q, i))
  {
    assert q == q[..i] + [q[i]] + q[i + 1..];
    assert multiset(q) == multiset(Without(q, i)) + multiset{q[i]};
    assert Get(m, q[i]) == multiset(q)[q[i]];
  }

  lemma CountedKeys<T(!new)>(m: map<T, nat>, q: seq<T>)
    requires Counts(m, q)
    ensures forall x :: x in m <==> x in q
  {
    forall x ensures x in m <==> x in q {
      assert Get(m, x) == multiset(q)[x];
    }
  }

  function Versions(open: seq<Pin>): seq<string> { seq(|open|, i requires 0 <= i < |open| => open[i].version) }

  function Stems(open: seq<Pin>): seq<string> { seq(|open|, i requires 0 <= i < |open| => open[i].stem) }

  function Slots(open: seq<Pin>): seq<int> { seq(|open|, i requires 0 <= i < |open| => open[i].slot) }

  lemma Projections(open: seq<Pin>, p: Pin)
    ensures Versions(open + [p]) == Versions(open) + [p.version]
    ensures Stems(open + [p]) == Stems(open) + [p.stem]
    ensures Slots(open + [p]) == Slots(open) + [p.slot]
  {}

  lemma ProjectionsWithout(open: seq<Pin>, i: nat)
    requires i < |open|
    ensures Versions(Without(open, i)) == Without(Versions(open), i)
    ensures Stems(Without(open, i)) == Without(Stems(open), i)
    ensures Slots(Without(open, i)) == Without(Slots(open), i)
  {}

  /** What the open pins hold, and the published venvs. */
  ghost function HeldBy(open: seq<Pin>, published: set<string>): PinnedSet {
    PinnedSet((set p | p in open :: p.version) + published, set p | p in open :: p.stem, set p | p in open :: p.slot)
  }

  lemma HeldExactly(open: seq<Pin>, s: PinnedSet, published: set<string>)
    requires forall v :: v in s.venvs <==> exists p | p in open :: p.version == v
    requires forall t :: t in s.stems <==> exists p | p in open :: p.stem == t
    requires forall n :: n in s.slots <==> exists p | p in open :: p.slot == n
    ensures s.(venvs := s.venvs + published) == HeldBy(open, published)
  {
    var h := HeldBy(open, {});
    assert h.venvs == s.venvs && h.stems == s.stems;
    forall n ensures n in h.slots <==> n in s.slots {
      if n in s.slots {
        var p :| p in open && p.slot == n;
      }
    }
  }

  class ActiveJobSet {
    var venvs: map<string, nat>
    var stems: map<string, nat>
    var slots: map<int, nat>
    ghost var open: seq<Pin> // the pins entered and not yet left

    /** The three counters are exact. */
    ghost predicate Valid()
      reads this
    {
      Counts(venvs, Versions(open)) && Counts(stems, Stems(open)) && Counts(slots, Slots(open))
    }

    constructor ()
      ensures Valid() && open == []
    {
      venvs, stems, slots, open := map[], map[], map[], [];
    }

    method Enter(p: Pin)
      requires Valid()
      modifies this
      ensures Valid() && open == old(open) + [p]
    {
      hide Counts, Up;
      UpCounts(venvs, Versions(open), p.version);
      UpCounts(stems, Stems(open), p.stem);
      UpCounts(slots, Slots(open), p.slot);
      Projections(open, p);
      venvs := Up(venvs, p.version);
      stems := Up(stems, p.stem);
      slots := Up(slots, p.slot);
      open := open + [p];
    }

    /** A job leaves, in whatever order; i says which open pin is its own. */
    method Exit(p: Pin, ghost i: nat)
      requires Valid() && i < |open| && open[i] == p
      modifies this
      ensures Valid() && open == Without(old(open), i)
    {
      hide Counts, Down;
      DownCounts(venvs, Versions(open), i);
      DownCounts(stems, Stems(open), i);
      DownCounts(slots, Slots(open), i);
      ProjectionsWithout(open, i);
      venvs := Down(venvs, p.version);
      stems := Down(stems, p.stem);
      slots := Down(slots, p.slot);
      open := Without(open, i);
    }

    /** Exactly what some open pin holds. */
    method Snapshot() returns (s: PinnedSet)
      requires Valid()
      ensures forall v :: v in s.venvs <==> exists p | p in open :: p.version == v
      ensures forall t :: t in s.stems <==> exists p | p in open :: p.stem == t
      ensures forall n :: n in s.slots <==> exists p | p in open :: p.slot == n
    {
      CountedKeys(venvs, Versions(open));
      CountedKeys(stems, Stems(open));
      CountedKeys(slots, Slots(open));
      Held(open);
      s := PinnedSet(venvs.Keys, stems.Keys, slots.Keys);
    }
  }

  lemma Held(open: seq<Pin>)
    ensures forall v :: v in Versions(open) <==> exists p | p in open :: p.version == v
    ensures forall t :: t in Stems(open) <==> exists p | p in open :: p.stem == t
    ensures forall n :: n in Slots(open) <==> exists p | p in open :: p.slot == n
  {
    forall p | p in open ensures p.version in Versions(open) && p.stem in Stems(open) && p.slot in Slots(open) {
      var k :| 0 <= k < |open| && open[k] == p;
      assert Versions(open)[k] == p.version && Stems(open)[k] == p.stem && Slots(open)[k] == p.slot;
    }
  }

  /** The running job needs this directory. */
  predicate Uses(p: Pin, e: Entry) {
    match e.item
    case Venv(v) => v == p.version
    case Cache(s) => s == p.stem
    case SlotTarget(_, s) => s == p.stem
    case Pio(n) => n == p.slot
    case Other(_) => false
  }

  /** One sweep over a shared directory: nothing that a running job uses, and no venv the
      server has published as active, is deleted, unless it lies in an orphaned slot. */
  method SweepBesideJobs(jobs: ActiveJobSet, disk: Disk, published: set<string>, quota: Option<nat>, l: Limits)
    returns (freed: nat)
    requires jobs.Valid() && (quota.Some? ==> l.quota == quota.value)
    modifies disk
    ensures freed == Total(old(disk.tree)) - Total(disk.tree)
    ensures forall e | e in old(disk.tree)
        && ((exists p | p in jobs.open :: Uses(p, e)) || (e.item.Venv? && e.item.version in published)) ::
      e !in disk.tree <==> quota.Some? && l.pruneFirst && Orphaned(e, l.maxSlots)
    ensures forall e, p | e in old(disk.tree) && p in jobs.open && p.slot <= l.maxSlots && Uses(p, e)
        && (e.item.SlotTarget? ==> e.item.slot == p.slot) :: e in disk.tree
    ensures if quota.None? then disk.tree == old(disk.tree)
      else SweptDown(old(disk.tree), disk.tree, HeldBy(jobs.open, published), l)
  {
    hide SweepTree, Counts, Total, SweptDown, HeldBy;
    ghost var before := disk.tree;
    var pins := jobs.Snapshot();
    HeldExactly(jobs.open, pins, published);
    pins := pins.(venvs := pins.venvs + published);
    freed := disk.RunSweep(pins, quota, l);
    forall e | e in before && IsPinned(pins, e)
      ensures e !in disk.tree <==> quota.Some? && l.pruneFirst && Orphaned(e, l.maxSlots)
    {
      if quota.Some? {
        SweepSparesPinned(before, pins, l, e);
      }
    }
  }
}
