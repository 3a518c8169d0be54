/** The table of installed ESPHome versions: what is under the manager's lock, least
    recently used first out (version_manager.py). Deletions are taken to succeed. */
module VersionCache {
  import opened Common

  // ---- evicting from the table ----

  /** Neither the version being asked for nor one the server has published as active. */
  predicate Evictable(v: string, keep: string, protected: set<string>) { v != keep && v !in protected }

  function Evictables(keep: string, protected: set<string>): string -> bool {
    (v: string) => Evictable(v, keep, protected)
  }

  /** While more is wanted, drop the oldest version that may go. */
  function EvictWhile(lru: seq<string>, free: string -> bool, more: seq<string> -> bool): seq<string>
    decreases |lru|
  {
    var i := FirstIndex(lru, free);
    if more(lru) && i < |lru| then EvictWhile(Without(lru, i), free, more) else lru
  }

  /** The k oldest of the versions that may go are gone. */
  function DropOldest(lru: seq<string>, free: string -> bool, k: nat): seq<string>
    decreases k
  {
    var i := FirstIndex(lru, free);
    if k == 0 || i == |lru| then lru else DropOldest(Without(lru, i), free, k - 1)
  }

  function AtCapacity(max: int): seq<string> -> bool { (lru: seq<string>) => |lru| >= max }

  /** low tells whether free space is known to be below the threshold with these versions on disk. */
  function ShortOfSpace(low: seq<string> -> bool): seq<string> -> bool {
    (lru: seq<string>) => |lru| > 1 && low(lru)
  }

  /** Both loops that run before an install. */
  function MadeRoom(lru: seq<string>, max: int, low: seq<string> -> bool, free: string -> bool): seq<string> {
    EvictWhile(EvictWhile(lru, free, AtCapacity(max)), free, ShortOfSpace(low))
  }

  lemma AroundOne(a: seq<string>, x: string, b: seq<string>, p: string -> bool)
    ensures Filter(a + [x] + b, p) == (if p(x) then Filter(a, p) + [x] else Filter(a, p)) + Filter(b, p)
    ensures Filter(a + b, p) == Filter(a, p) + Filter(b, p)
  {
    hide Filter;
    FilterSnoc(a, x, p);
    FilterConcat(a + [x], b, p);
    FilterConcat(a, b, p);
  }

  lemma WithoutOne(a: seq<string>, x: string, b: seq<string>, free: string -> bool, held: string -> bool)
    requires free(x) && !held(x) && forall v | v in a :: !free(v)
    ensures Filter(a + [x] + b, free) == [x] + Filter(a + b, free)
    ensures Filter(a + b, held) == Filter(a + [x] + b, held)
  {
    hide Filter;
    AroundOne(a, x, b, free);
    AroundOne(a, x, b, held);
    FilterNone(a, free);
  }

  lemma Parts(lru: seq<string>, i: nat) returns (a: seq<string>, b: seq<string>)
    requires i < |lru|
    ensures lru == a + [lru[i]] + b && Without(lru, i) == a + b
    ensures |a| == i && forall k | 0 <= k < i :: a[k] == lru[k]
  {
    a, b := lru[..i], lru[i + 1..];
  }

  lemma WithoutFirst(lru: seq<string>, free: string -> bool, held: string -> bool)
    requires FirstIndex(lru, free) < |lru| && forall v | v in lru :: held(v) == !free(v)
    ensures var rest := Without(lru, FirstIndex(lru, free));
      && Filter(lru, free) == [lru[FirstIndex(lru, free)]] + Filter(rest, free)
      && Filter(rest, held) == Filter(lru, held)
  {
    hide Filter, FirstIndex, Without;
    var i := FirstIndex(lru, free);
    var a, b := Parts(lru, i);
    assert lru[i] in lru;
    WithoutOne(a, lru[i], b, free, held);
  }

  /** What DropOldest leaves: every version that may not go, and all but the k oldest of
      those that may, in their order. */
  lemma {:induction false} DropOldestLeaves(lru: seq<string>, free: string -> bool, held: string -> bool, k: nat)
    requires k <= |Filter(lru, free)| && forall v | v in lru :: held(v) == !free(v)
    ensures Filter(DropOldest(lru, free, k), free) == Filter(lru, free)[k..]
    ensures Filter(DropOldest(lru, free, k), held) == Filter(lru, held)
    ensures |DropOldest(lru, free, k)| == |lru| - k
    decreases k
  {
    hide Filter;
    var i := FirstIndex(lru, free);
    if k > 0 {
      if i == |lru| {
        FilterNone(lru, free);
      } else {
        WithoutFirst(lru, free, held);
        DropOldestLeaves(Without(lru, i), free, held, k - 1);
      }
    }
  }

  lemma DropOneMore(lru: seq<string>, free: string -> bool, k: nat)
    requires FirstIndex(lru, free) < |lru|
    ensures DropOldest(lru, free, k + 1) == DropOldest(Without(lru, FirstIndex(lru, free)), free, k)
  {}

  /** The loop drops exactly the k oldest evictable versions, for the smallest k after
      which nothing more is wanted, or all of them if no such k exists. */
  lemma {:induction false} EvictsAsFewAsPossible(lru: seq<string>, free: string -> bool, more: seq<string> -> bool)
    returns (k: nat)
    ensures k <= |Filter(lru, free)|
    ensures EvictWhile(lru, free, more) == DropOldest(lru, free, k)
    ensures forall m | 0 <= m < k :: more(DropOldest(lru, free, m))
    ensures k == |Filter(lru, free)| || !more(DropOldest(lru, free, k))
    decreases |lru|
  {
    hide Filter, FirstIndex;
    var i := FirstIndex(lru, free);
    if i == |lru| {
      FilterNone(lru, free);
      k := 0;
    } else if !more(lru) {
      k := 0;
    } else {
      WithoutFirst(lru, free, (v: string) => !free(v));
      var less := EvictsAsFewAsPossible(Without(lru, i), free, more);
      k := less + 1;
      forall m | 0 <= m < k ensures more(DropOldest(lru, free, m)) {
        if m > 0 {
          DropOneMore(lru, free, m - 1);
        }
      }
    }
  }

  function Min(a: int, b: int): int { if a < b then a else b }

  /** After the capacity loop the table is below its limit, or nothing in it may go; and it
      lost exactly as many versions as that took. */
  lemma CapacityLoop(lru: seq<string>, max: int, keep: string, protected: set<string>)
    ensures var free := Evictables(keep, protected);
      var after := EvictWhile(lru, free, AtCapacity(max));
      var need := if |lru| < max then 0 else |lru| - max + 1;
      && after == DropOldest(lru, free, Min(need, |Filter(lru, free)|))
      && (|after| < max || forall v | v in after :: v == keep || v in protected)
  {
    hide Filter, DropOldest, EvictWhile;
    var free := Evictables(keep, protected);
    var held := (v: string) => !free(v);
    var k := EvictsAsFewAsPossible(lru, free, AtCapacity(max));
    DropOldestLeaves(lru, free, held, k);
    if k > 0 {
      DropOldestLeaves(lru, free, held, k - 1);
      assert AtCapacity(max)(DropOldest(lru, free, k - 1));
    }
    if k == |Filter(lru, free)| {
      NothingFree(DropOldest(lru, free, k), keep, protected);
    }
  }

  lemma NothingFree(lru: seq<string>, keep: string, protected: set<string>)
    requires Filter(lru, Evictables(keep, protected)) == []
    ensures forall v | v in lru :: v == keep || v in protected
  {
    forall v | v in lru ensures !Evictable(v, keep, protected) {
      assert Evictables(keep, protected)(v) ==> v in Filter(lru, Evictables(keep, protected));
    }
  }

  /** After the disk-space loop space is not known to be short, or one version is left, or
      nothing may go; each eviction happened while space was short, and a table that was
      not empty never becomes so. */
  lemma DiskSpaceLoop(lru: seq<string>, keep: string, protected: set<string>, low: seq<string> -> bool)
    returns (k: nat)
    ensures var after := EvictWhile(lru, Evictables(keep, protected), ShortOfSpace(low));
      && after == DropOldest(lru, Evictables(keep, protected), k)
      && (|after| <= 1 || !low(after) || forall v | v in after :: v == keep || v in protected)
      && (lru != [] ==> after != [])
    ensures forall m | 0 <= m < k :: low(DropOldest(lru, Evictables(keep, protected), m))
  {
    hide Filter, DropOldest, EvictWhile;
    var free := Evictables(keep, protected);
    var held := (v: string) => !free(v);
    k := EvictsAsFewAsPossible(lru, free, ShortOfSpace(low));
    forall m | 0 <= m < k ensures low(DropOldest(lru, free, m)) {
      assert ShortOfSpace(low)(DropOldest(lru, free, m));
    }
    DropOldestLeaves(lru, free, held, k);
    if k > 0 {
      DropOldestLeaves(lru, free, held, k - 1);
      assert ShortOfSpace(low)(DropOldest(lru, free, k - 1));
    }
    if k == |Filter(lru, free)| {
      NothingFree(DropOldest(lru, free, k), keep, protected);
    }
  }

  // ---- the manager ----

  datatype Reservation = Found | Wait(ev: nat) | Own

  /** Assigning to a key that is there already leaves it in its place. */
  function Put(lru: seq<string>, v: string): seq<string> { if v in lru then lru else lru + [v] }

  function IndexOf(lru: seq<string>, v: string): nat { FirstIndex(lru, (u: string) => u == v) }

  function MoveToEnd(lru: seq<string>, v: string): seq<string>
    requires v in lru
  {
    Without(lru, IndexOf(lru, v)) + [v]
  }

  /** The versions of `from` that are not in `to`. */
  function Gone(from: seq<string>, to: seq<string>): set<string> { set v | v in from && v !in to }

  lemma EvictStep(lru: seq<string>, free: string -> bool, more: seq<string> -> bool)
    requires more(lru)
    ensures var i := FirstIndex(lru, free);
      EvictWhile(lru, free, more) == if i == |lru| then lru else EvictWhile(Without(lru, i), free, more)
  {}

  lemma EvictDone(lru: seq<string>, free: string -> bool, more: seq<string> -> bool)
    requires !more(lru)
    ensures EvictWhile(lru, free, more) == lru
  {}

  /** When a version was put in its place in the table, and when it was last used. */
  datatype Stamps = Stamps(placed: map<string, nat>, used: map<string, nat>, clock: nat)

  /** A version rebuilt in place maps to the versions that the table had then and that were
      not used since: any use of x takes it out of every such set, and a use that moves x
      to the end ends its own. */
  type Idle = map<string, set<string>>

  function Forget(idle: Idle, x: string): Idle { map v | v in idle && v != x :: idle[v] - {x} }

  function Others(lru: seq<string>, v: string): set<string> { set u | u in lru && u != v }

  function RebuiltInPlace(idle: Idle, lru: seq<string>, v: string): Idle { Forget(idle, v)[v := Others(lru, v)] }

  /** The table is in the order in which its versions were placed, and lists nothing twice.
      A version was last used when it was placed, unless it was rebuilt in place since; the
      versions it has been used after are then those that stayed idle. */
  ghost predicate Ordered(lru: seq<string>, st: Stamps, idle: Idle) {
    && (forall v | v in lru ::
          && v in st.placed && v in st.used && st.placed[v] <= st.used[v] < st.clock
          && (st.placed[v] < st.used[v] <==> v in idle))
    && (forall i, k | 0 <= i < k < |lru| :: st.placed[lru[i]] < st.placed[lru[k]])
    && (forall u, v | u in lru && v in lru && v in idle :: u in idle[v] <==> st.used[u] < st.used[v])
  }

  /** Of the versions that may go, none was used longer ago. */
  ghost predicate LeastRecent(v: string, lru: seq<string>, st: Stamps, keep: string, protected: set<string>)
    requires v in st.used && forall u | u in lru :: u in st.used
  {
    forall u | u in lru && Evictable(u, keep, protected) :: st.used[v] <= st.used[u]
  }

  /** Every version that may go was used since v was rebuilt in place. */
  predicate NoneIdle(v: string, lru: seq<string>, idle: Idle, keep: string, protected: set<string>)
    requires v in idle
  {
    forall u | u in lru && Evictable(u, keep, protected) :: u !in idle[v]
  }

  /** The version that goes is the least recently used one that may go if and only if it
      was not rebuilt in place, or no version that may go has been idle since it was. */
  lemma VictimIsLeastRecentIff(lru: seq<string>, st: Stamps, idle: Idle, keep: string, protected: set<string>)
    requires Ordered(lru, st, idle) && FirstIndex(lru, Evictables(keep, protected)) < |lru|
    ensures var v := lru[FirstIndex(lru, Evictables(keep, protected))];
      LeastRecent(v, lru, st, keep, protected) <==> (v !in idle || NoneIdle(v, lru, idle, keep, protected))
  {
    hide Ordered;
    var i := FirstIndex(lru, Evictables(keep, protected));
    var v := lru[i];
    UsedWhenPlaced(lru, st, idle, i);
    forall u | u in lru && u != v && Evictable(u, keep, protected) ensures st.placed[v] < st.used[u] {
      var k :| 0 <= k < |lru| && lru[k] == u;
      assert Evictables(keep, protected)(lru[k]);
    }
  }

  /** Right after a rebuild in place of v, in a table where nothing else was rebuilt: the
      version that goes is the least recently used one that may go if and only if it is not
      v, or nothing but v may go. */
  lemma JustRebuilt(lru: seq<string>, st: Stamps, idle: Idle, v: string, keep: string, protected: set<string>)
    requires Ordered(lru, st, idle) && FirstIndex(lru, Evictables(keep, protected)) < |lru|
    requires v in idle && idle[v] == Others(lru, v) && forall u | u in lru && u in idle :: u == v
    ensures var victim := lru[FirstIndex(lru, Evictables(keep, protected))];
      LeastRecent(victim, lru, st, keep, protected) <==>
        (victim != v || forall u | u in lru && Evictable(u, keep, protected) :: u == v)
  {
    var victim := lru[FirstIndex(lru, Evictables(keep, protected))];
    VictimIsLeastRecentIff(lru, st, idle, keep, protected);
    hide Ordered, LeastRecent;
    assert victim in lru;
  }

  lemma UsedWhenPlaced(lru: seq<string>, st: Stamps, idle: Idle, i: nat)
    requires Ordered(lru, st, idle) && i < |lru|
    ensures forall u | u in lru :: u in st.placed && u in st.used
    ensures st.placed[lru[i]] < st.used[lru[i]] <==> lru[i] in idle
    ensures st.placed[lru[i]] <= st.used[lru[i]]
    ensures lru[i] in idle ==> forall u | u in lru :: u in idle[lru[i]] <==> st.used[u] < st.used[lru[i]]
    ensures forall k | i < k < |lru| :: st.placed[lru[i]] < st.used[lru[k]]
  {}

  lemma OrderedWithout(lru: seq<string>, st: Stamps, idle: Idle, i: nat)
    requires Ordered(lru, st, idle) && i < |lru|
    ensures Ordered(Without(lru, i), st, idle) && lru[i] !in Without(lru, i)
  {
    var rest := Without(lru, i);
    forall m, k | 0 <= m < k < |rest| ensures st.placed[rest[m]] < st.placed[rest[k]] {
      assert rest[m] == lru[if m < i then m else m + 1] && rest[k] == lru[if k < i then k else k + 1];
    }
    forall k | 0 <= k < |rest| ensures rest[k] != lru[i] {
      assert rest[k] == lru[if k < i then k else k + 1];
    }
  }

  /** No version that is asked for or protected has gone. */
  ghost predicate KeepsHeld(before: seq<string>, after: seq<string>, keep: string, protected: set<string>) {
    (forall v | v in after :: v in before)
    && forall v | v in before && (v == keep || v in protected) :: v in after
  }

  ghost predicate OnlyHeld(lru: seq<string>, keep: string, protected: set<string>) {
    forall v | v in lru :: v == keep || v in protected
  }

  lemma {:induction false} EvictKeepsHeld(
    lru: seq<string>, keep: string, protected: set<string>, more: seq<string> -> bool)
    ensures KeepsHeld(lru, EvictWhile(lru, Evictables(keep, protected), more), keep, protected)
    decreases |lru|
  {
    var free := Evictables(keep, protected);
    var i := FirstIndex(lru, free);
    if more(lru) && i < |lru| {
      var rest := Without(lru, i);
      EvictKeepsHeld(rest, keep, protected, more);
      forall v | v in lru && v != lru[i] ensures v in rest {
        var k :| 0 <= k < |lru| && lru[k] == v;
        assert rest[if k < i then k else k - 1] == v;
      }
      assert Evictable(lru[i], keep, protected);
      hide EvictWhile, FirstIndex;
    }
  }

  lemma RoomIsMade(lru: seq<string>, max: int, keep: string, protected: set<string>)
    ensures var after := EvictWhile(lru, Evictables(keep, protected), AtCapacity(max));
      && KeepsHeld(lru, after, keep, protected)
      && (|after| < max || OnlyHeld(after, keep, protected))
      && (|lru| < max ==> after == lru)
      && (|after| < |lru| ==> |after| >= max - 1)
  {
    var free := Evictables(keep, protected);
    EvictKeepsHeld(lru, keep, protected, AtCapacity(max));
    CapacityLoop(lru, max, keep, protected);
    var need := if |lru| < max then 0 else |lru| - max + 1;
    DropOldestLeaves(lru, free, (v: string) => !free(v), Min(need, |Filter(lru, free)|));
    hide EvictWhile, Filter;
  }

  lemma SpaceIsMade(lru: seq<string>, keep: string, protected: set<string>, low: seq<string> -> bool)
    ensures var after := EvictWhile(lru, Evictables(keep, protected), ShortOfSpace(low));
      && KeepsHeld(lru, after, keep, protected)
      && (|after| <= 1 || !low(after) || OnlyHeld(after, keep, protected))
      && (|lru| <= 1 || !low(lru) ==> after == lru)
  {
    EvictKeepsHeld(lru, keep, protected, ShortOfSpace(low));
    var k := DiskSpaceLoop(lru, keep, protected, low);
    hide DropOldest;
  }

  lemma HeldTwice(a: seq<string>, b: seq<string>, c: seq<string>, keep: string, protected: set<string>)
    requires KeepsHeld(a, b, keep, protected) && KeepsHeld(b, c, keep, protected)
    ensures KeepsHeld(a, c, keep, protected)
    ensures OnlyHeld(b, keep, protected) ==> OnlyHeld(c, keep, protected)
  {}

  lemma {:induction false} EvictShortens(lru: seq<string>, free: string -> bool, more: seq<string> -> bool)
    ensures |EvictWhile(lru, free, more)| <= |lru|
    decreases |lru|
  {
    var i := FirstIndex(lru, free);
    if more(lru) && i < |lru| {
      EvictShortens(Without(lru, i), free, more);
    }
  }

  class VersionManager {
    const max: int
    var lru: seq<string>             // oldest first
    var disk: set<string>            // versions with a usable venv
    var installing: map<string, nat> // install in flight, by its event
    ghost var stamps: Stamps
    ghost var idle: Idle

    ghost predicate Valid()
      reads this
    {
      Ordered(lru, stamps, idle)
    }

    constructor (max: int)
      ensures Valid() && lru == [] && disk == {} && installing == map[] && this.max == max
    {
      this.max := max;
      lru, disk, installing, stamps, idle := [], {}, map[], Stamps(map[], map[], 0), map[];
    }

    /** The victim is the first version in the table that may go; that is the least recently
        used such version exactly as VictimIsLeastRecentIff says. */
    method EvictLru(keep: string, protected: set<string>) returns (evicted: bool)
      requires Valid()
      modifies this`lru, this`disk
      ensures Valid()
      ensures var i := FirstIndex(old(lru), Evictables(keep, protected));
        && (forall k | 0 <= k < i :: old(lru)[k] == keep || old(lru)[k] in protected)
        && (i < |old(lru)| ==> old(lru)[i] != keep && old(lru)[i] !in protected)
        && (evicted <==> i < |old(lru)|)
        && (!evicted ==> lru == old(lru) && disk == old(disk))
        && (evicted ==>
             && lru == Without(old(lru), i) && disk == old(disk) - {old(lru)[i]} && old(lru)[i] !in lru
             && old(lru)[i] in stamps.used && (forall v | v in old(lru) :: v in stamps.used)
             && (LeastRecent(old(lru)[i], old(lru), stamps, keep, protected) <==>
                   (old(lru)[i] !in idle || NoneIdle(old(lru)[i], old(lru), idle, keep, protected))))
    {
      for i := 0 to |lru|
        invariant forall k | 0 <= k < i :: !Evictable(lru[k], keep, protected)
      {
        if lru[i] == keep || lru[i] in protected {
          continue;
        }
        assert FirstIndex(lru, Evictables(keep, protected)) == i;
        VictimIsLeastRecentIff(lru, stamps, idle, keep, protected);
        OrderedWithout(lru, stamps, idle, i);
        disk := disk - {lru[i]};
        lru := Without(lru, i);
        return true;
      }
      evicted := false;
    }

    method EvictToCapacity(keep: string, protected: set<string>)
      requires Valid()
      modifies this`lru, this`disk
      ensures Valid() && lru == EvictWhile(old(lru), Evictables(keep, protected), AtCapacity(max))
      ensures disk == old(disk) - Gone(old(lru), lru)
      ensures KeepsHeld(old(lru), lru, keep, protected)
      ensures |lru| < max || OnlyHeld(lru, keep, protected)
      ensures |old(lru)| < max ==> lru == old(lru)
      ensures |lru| < |old(lru)| ==> |lru| >= max - 1
    {
      hide KeepsHeld, OnlyHeld, Ordered, Evictables, FirstIndex, Evictable, LeastRecent, NoneIdle;
      RoomIsMade(lru, max, keep, protected);
      hide EvictWhile;
      ghost var free := Evictables(keep, protected);
      while |lru| >= max
        invariant Valid() && forall v | v in lru :: v in old(lru)
        invariant disk == old(disk) - Gone(old(lru), lru)
        invariant EvictWhile(lru, free, AtCapacity(max)) == EvictWhile(old(lru), free, AtCapacity(max))
        decreases |lru|
      {
        EvictStep(lru, free, AtCapacity(max));
        ghost var before := lru;
        var evicted := EvictLru(keep, protected);
        if !evicted {
          return;
        }
        GoneStep(old(lru), before, FirstIndex(before, free));
      }
      EvictDone(lru, free, AtCapacity(max));
    }

    method EnsureDiskSpace(keep: string, protected: set<string>, low: seq<string> -> bool)
      requires Valid()
      modifies this`lru, this`disk
      ensures Valid() && lru == EvictWhile(old(lru), Evictables(keep, protected), ShortOfSpace(low))
      ensures disk == old(disk) - Gone(old(lru), lru)
      ensures KeepsHeld(old(lru), lru, keep, protected)
      ensures |lru| <= 1 || !low(lru) || OnlyHeld(lru, keep, protected)
      ensures |old(lru)| <= 1 || !low(old(lru)) ==> lru == old(lru)
    {
      hide KeepsHeld, OnlyHeld, Ordered, Evictables, FirstIndex, Evictable, LeastRecent, NoneIdle;
      SpaceIsMade(lru, keep, protected, low);
      hide EvictWhile;
      ghost var free := Evictables(keep, protected);
      while |lru| > 1
        invariant Valid() && forall v | v in lru :: v in old(lru)
        invariant disk == old(disk) - Gone(old(lru), lru)
        invariant EvictWhile(lru, free, ShortOfSpace(low)) == EvictWhile(old(lru), free, ShortOfSpace(low))
        decreases |lru|
      {
        if !low(lru) {
          EvictDone(lru, free, ShortOfSpace(low));
          return;
        }
        EvictStep(lru, free, ShortOfSpace(low));
        ghost var before := lru;
        var evicted := EvictLru(keep, protected);
        if !evicted {
          return;
        }
        GoneStep(old(lru), before, FirstIndex(before, free));
      }
      EvictDone(lru, free, ShortOfSpace(low));
    }

    /** A use that moves the version to the end. */
    method Touch(v: string)
      requires Valid() && v in lru
      modifies this`lru, this`stamps, this`idle
      ensures Valid() && lru == MoveToEnd(old(lru), v)
      ensures Used(old(stamps), stamps, v) && idle == Forget(old(idle), v)
    {
      var i := IndexOf(lru, v);
      assert lru[i] == v;
      OrderedWithout(lru, stamps, idle, i);
      lru := Without(lru, i) + [v];
      stamps := Stamps(stamps.placed[v := stamps.clock], stamps.used[v := stamps.clock], stamps.clock + 1);
      idle := Forget(idle, v);
    }

    /** A use that leaves a version of the table in its place. */
    method Insert(v: string)
      requires Valid()
      modifies this`lru, this`stamps, this`idle
      ensures Valid() && lru == Put(old(lru), v)
      ensures Used(old(stamps), stamps, v)
      ensures idle == if v in old(lru) then RebuiltInPlace(old(idle), lru, v) else Forget(old(idle), v)
    {
      if v !in lru {
        lru := lru + [v];
        stamps := stamps.(placed := stamps.placed[v := stamps.clock]);
        idle := Forget(idle, v);
      } else {
        idle := RebuiltInPlace(idle, lru, v);
      }
      stamps := stamps.(used := stamps.used[v := stamps.clock], clock := stamps.clock + 1);
    }

    /** The locked part of ensure_version: report an installed version as used, join an
        install in flight, or make room and claim the install under a new event. */
    method Reserve(version: string, protected: set<string>, low: seq<string> -> bool, ev: nat)
      returns (r: Reservation)
      requires Valid()
      modifies this
      ensures Valid()
      ensures version in old(disk) ==>
        (&& r == Found && disk == old(disk) && installing == old(installing)
         && Used(old(stamps), stamps, version) && idle == Forget(old(idle), version)
         && lru == if version in old(lru) then MoveToEnd(old(lru), version) else old(lru) + [version])
      ensures version !in old(disk) && version in old(installing) ==>
        (&& r == Wait(old(installing)[version])
         && stamps == old(stamps) && idle == old(idle)
         && lru == old(lru) && disk == old(disk) && installing == old(installing))
      ensures version !in old(disk) && version !in old(installing) ==>
        (&& r == Own && installing == old(installing)[version := ev]
         && stamps == old(stamps) && idle == old(idle)
         && lru == MadeRoom(old(lru), max, low, Evictables(version, protected))
         && disk == old(disk) - Gone(old(lru), lru)
         && KeepsHeld(old(lru), lru, version, protected)
         && (|lru| < max || OnlyHeld(lru, version, protected))
         && (|lru| <= 1 || !low(lru) || OnlyHeld(lru, version, protected))
         && (|old(lru)| < max && (|old(lru)| <= 1 || !low(old(lru))) ==> lru == old(lru)))
    {
      hide Ordered, EvictWhile, Evictables, AtCapacity, ShortOfSpace, KeepsHeld, OnlyHeld, Gone;
      if version in disk {
        if version in lru {
          Touch(version);
        } else {
          Insert(version);
        }
        return Found;
      }
      if version in installing {
        return Wait(installing[version]);
      }
      EvictToCapacity(version, protected);
      ghost var mid := lru;
      EnsureDiskSpace(version, protected, low);
      GoneTwice(old(lru), mid, lru, Evictables(version, protected), AtCapacity(max), ShortOfSpace(low));
      EvictShortens(mid, Evictables(version, protected), ShortOfSpace(low));
      HeldTwice(old(lru), mid, lru, version, protected);
      installing := installing[version := ev];
      r := Own;
    }

    /** The locked part after the install ran; built says whether it left a usable venv. */
    method Settle(version: string, built: bool)
      requires Valid()
      modifies this
      ensures Valid() && installing == old(installing) - {version}
      ensures built ==> Used(old(stamps), stamps, version)
      ensures !built ==> stamps == old(stamps)
      ensures idle == if !built then old(idle)
                      else if version in old(lru) then RebuiltInPlace(old(idle), old(lru), version)
                      else Forget(old(idle), version)
      ensures lru == if built then Put(old(lru), version) else old(lru)
      ensures lru == if built && version !in old(lru) then old(lru) + [version] else old(lru)
      ensures disk == if built then old(disk) + {version} else old(disk) - {version}
    {
      if built {
        Insert(version);
        disk := disk + {version};
      } else {
        disk := disk - {version};
      }
      installing := installing - {version};
    }

    /** Using an installed version marks it as used. */
    method GetPath(version: string) returns (found: bool)
      requires Valid()
      modifies this`lru, this`stamps, this`idle
      ensures Valid() && (found <==> version in disk)
      ensures if version in disk && version in old(lru)
        then Used(old(stamps), stamps, version) && idle == Forget(old(idle), version)
        else stamps == old(stamps) && idle == old(idle)
      ensures lru == if version in disk && version in old(lru) then MoveToEnd(old(lru), version) else old(lru)
    {
      found := version in disk;
      if found && version in lru {
        Touch(version);
      }
    }
  }

  /** The version was used just now, and nothing else was. */
  predicate Used(before: Stamps, after: Stamps, v: string) {
    after.used == before.used[v := before.clock] && after.clock == before.clock + 1
  }

  /** A version whose venv was built by another Python is asked for, rebuilt in place, and
      then goes before a version that has been idle since, whenever it stood first among
      several that may go. */
  method RebuildThenEvict(m: VersionManager, v: string, keep: string, protected: set<string>, ev: nat)
    requires m.Valid() && v in m.lru && v !in m.disk && v !in m.installing && |m.lru| < m.max
    requires FirstIndex(m.lru, Evictables(keep, protected)) == IndexOf(m.lru, v)
    requires exists u | u in m.lru :: u != v && Evictable(u, keep, protected)
    modifies m
    ensures m.Valid() && v !in m.lru && v !in m.disk
    ensures v in m.stamps.used && forall u | u in old(m.lru) :: u in m.stamps.used
    ensures !LeastRecent(v, old(m.lru), m.stamps, keep, protected)
  {
    hide Ordered;
    ghost var before, start, idle := m.lru, m.stamps, m.idle;
    ghost var p := IndexOf(before, v);
    var never := (lru: seq<string>) => false;
    EvictDone(before, Evictables(v, protected), AtCapacity(m.max));
    EvictDone(before, Evictables(v, protected), ShortOfSpace(never));
    var r := m.Reserve(v, protected, never, ev);
    assert m.lru == before;
    m.Settle(v, true);
    assert m.lru == before;
    UsedLast(before, start, m.stamps, idle, v);
    var evicted := m.EvictLru(keep, protected);
    assert before[p] == v;
  }

  lemma UsedLast(lru: seq<string>, before: Stamps, after: Stamps, idle: Idle, v: string)
    requires Ordered(lru, before, idle) && Used(before, after, v)
    ensures forall u | u in lru && u != v :: u in after.used && after.used[u] < after.used[v]
  {}

  lemma GoneStep(start: seq<string>, lru: seq<string>, i: nat)
    requires i < |lru| && (forall v | v in lru :: v in start) && lru[i] !in Without(lru, i)
    ensures Gone(start, Without(lru, i)) == Gone(start, lru) + {lru[i]}
  {}

  lemma {:induction false} EvictKeepsIn(lru: seq<string>, free: string -> bool, more: seq<string> -> bool)
    ensures forall v | v in EvictWhile(lru, free, more) :: v in lru
    decreases |lru|
  {
    var i := FirstIndex(lru, free);
    if more(lru) && i < |lru| {
      EvictKeepsIn(Without(lru, i), free, more);
    }
  }

  lemma GoneTwice(a: seq<string>, b: seq<string>, c: seq<string>, free: string -> bool,
                  more: seq<string> -> bool, again: seq<string> -> bool)
    requires b == EvictWhile(a, free, more) && c == EvictWhile(b, free, again)
    ensures Gone(a, b) + Gone(b, c) == Gone(a, c)
  {
    EvictKeepsIn(a, free, more);
    EvictKeepsIn(b, free, again);
  }
}
