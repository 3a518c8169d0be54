/** Many threads, in several managers that share one versions directory, asking for ESPHome
    versions at once (ensure_version and _install_file_lock in version_manager.py). Every
    step between two points where another thread may run is one action. */
module InstallProtocol {

  /** Where a call to ensure_version stands. ev is the event it created or waits for, held
      says whether it got the file lock or went on without it. */
  datatype Stage =
    | Checking
    | Waiting(ev: nat)
    | Owning(ev: nat)
    | Locked(ev: nat, held: bool)
    | Installing(ev: nat, held: bool)
    | Unlocking(ev: nat, held: bool, ok: bool)
    | Popping(ev: nat, ok: bool)
    | Waking(ev: nat, ok: bool)
    | Returned
    | Raised

  datatype Thread = Thread(manager: nat, version: string, stage: Stage)

  type Slot = (nat, string) // one manager's entry for one version

  datatype State = State(
    threads: seq<Thread>,
    installing: map<Slot, nat>, // each manager's installs in flight, by event
    owners: seq<nat>,           // which thread created each event
    fired: set<nat>,            // the events that were set
    locks: map<string, nat>,    // who holds each version's file lock
    disk: set<string>)          // versions with a usable venv

  datatype Action =
    | Check(t: nat, evicted: set<string>) // the section under the manager's lock
    | TakeLock(t: nat)
    | LockFails(t: nat)                   // an OSError; the source goes on unserialised
    | Recheck(t: nat)
    | Install(t: nat, ok: bool)
    | Unlock(t: nat)
    | Pop(t: nat)
    | Wake(t: nat)
    | Resume(t: nat)
    | TimeOut(t: nat)
    | Vanish(version: string)             // some sweep or eviction deletes a venv

  function Key(t: Thread): Slot { (t.manager, t.version) }

  /** Its entry in installing is still there. */
  predicate Owner(st: Stage) {
    st.Owning? || st.Locked? || st.Installing? || st.Unlocking? || st.Popping?
  }

  /** It will still set its event. */
  predicate Live(st: Stage) { Owner(st) || st.Waking? }

  predicate Finished(st: Stage) { st.Returned? || st.Raised? }

  predicate InLock(st: Stage) { st.Locked? || st.Installing? || st.Unlocking? }

  predicate Enabled(s: State, a: Action) {
    match a
    case Vanish(_) => true
    case Check(t, evicted) =>
      t < |s.threads| && s.threads[t].stage.Checking? && s.threads[t].version !in evicted
    case TakeLock(t) => t < |s.threads| && s.threads[t].stage.Owning? && s.threads[t].version !in s.locks
    case LockFails(t) => t < |s.threads| && s.threads[t].stage.Owning?
    case Recheck(t) => t < |s.threads| && s.threads[t].stage.Locked?
    case Install(t, _) => t < |s.threads| && s.threads[t].stage.Installing?
    case Unlock(t) => t < |s.threads| && s.threads[t].stage.Unlocking?
    case Pop(t) => t < |s.threads| && s.threads[t].stage.Popping?
    case Wake(t) => t < |s.threads| && s.threads[t].stage.Waking?
    case Resume(t) => t < |s.threads| && s.threads[t].stage.Waiting? && s.threads[t].stage.ev in s.fired
    case TimeOut(t) => t < |s.threads| && s.threads[t].stage.Waiting?
  }

  function To(s: State, t: nat, st: Stage): State
    requires t < |s.threads|
  {
    s.(threads := s.threads[t := s.threads[t].(stage := st)])
  }

  /** An installed version is returned, an install in flight is joined, otherwise the
      caller becomes the owner under a new event and may evict other versions. */
  function AfterCheck(s: State, t: nat, evicted: set<string>): State
    requires t < |s.threads|
  {
    var key := Key(s.threads[t]);
    if s.threads[t].version in s.disk then To(s, t, Returned)
    else if key in s.installing then To(s, t, Waiting(s.installing[key]))
    else
      var ev := |s.owners|;
      To(s, t, Owning(ev)).(installing := s.installing[key := ev], owners := s.owners + [t], disk := s.disk - evicted)
  }

  function Next(s: State, a: Action): State
    requires Enabled(s, a)
  {
    match a
    case Vanish(v) => s.(disk := s.disk - {v})
    case Check(t, evicted) => AfterCheck(s, t, evicted)
    case TakeLock(t) =>
      To(s, t, Locked(s.threads[t].stage.ev, true)).(locks := s.locks[s.threads[t].version := t])
    case LockFails(t) => To(s, t, Locked(s.threads[t].stage.ev, false))
    case Recheck(t) =>
      var st := s.threads[t].stage;
      To(s, t, if s.threads[t].version in s.disk then Unlocking(st.ev, st.held, true) else Installing(st.ev, st.held))
    case Install(t, ok) =>
      var v, st := s.threads[t].version, s.threads[t].stage;
      To(s, t, Unlocking(st.ev, st.held, ok)).(disk := if ok then s.disk + {v} else s.disk - {v})
    case Unlock(t) =>
      var st := s.threads[t].stage;
      To(s, t, Popping(st.ev, st.ok)).(locks := if st.held then s.locks - {s.threads[t].version} else s.locks)
    case Pop(t) =>
      var st := s.threads[t].stage;
      To(s, t, Waking(st.ev, st.ok)).(installing := s.installing - {Key(s.threads[t])})
    case Wake(t) =>
      var st := s.threads[t].stage;
      To(s, t, if st.ok then Returned else Raised).(fired := s.fired + {st.ev})
    case Resume(t) => To(s, t, Checking)
    case TimeOut(t) => To(s, t, Raised)
  }

  function Step(s: State, a: Action): State { if Enabled(s, a) then Next(s, a) else s }

  function Run(s: State, acts: seq<Action>): State {
    if acts == [] then s else Step(Run(s, acts[..|acts| - 1]), acts[|acts| - 1])
  }

  /** Any number of calls, by any threads of any managers, none of them begun. */
  predicate Fresh(s: State) {
    && (forall t | t in s.threads :: t.stage == Checking)
    && s.installing == map[] && s.owners == [] && s.fired == {} && s.locks == map[]
  }

  // ---- the invariant ----

  /** A live owner's event is its own and not set; its table entry names that event. */
  predicate OwnerOk(s: State, t: nat) {
    t < |s.threads| && Live(s.threads[t].stage) ==>
      var ev := s.threads[t].stage.ev;
      && ev < |s.owners| && s.owners[ev] == t && ev !in s.fired
      && (Owner(s.threads[t].stage) ==> Key(s.threads[t]) in s.installing && s.installing[Key(s.threads[t])] == ev)
  }

  /** A table entry belongs to a live owner of that version in that manager. */
  predicate EntryOk(s: State, key: Slot) {
    key in s.installing ==>
      && s.installing[key] < |s.owners| && s.owners[s.installing[key]] < |s.threads|
      && var o := s.threads[s.owners[s.installing[key]]];
         Owner(o.stage) && Key(o) == key && o.stage.ev == s.installing[key]
  }

  /** The event is set, or its owner is alive and will set it. */
  predicate Served(s: State, ev: nat) {
    ev in s.fired
    || (ev < |s.owners| && s.owners[ev] < |s.threads|
        && Live(s.threads[s.owners[ev]].stage) && s.threads[s.owners[ev]].stage.ev == ev)
  }

  predicate WaiterOk(s: State, t: nat) {
    t < |s.threads| && s.threads[t].stage.Waiting? ==> Served(s, s.threads[t].stage.ev)
  }

  predicate Holds(s: State, t: nat) {
    t < |s.threads| && InLock(s.threads[t].stage) && s.threads[t].stage.held
  }

  predicate LockOk(s: State, v: string) {
    v in s.locks ==> Holds(s, s.locks[v]) && s.threads[s.locks[v]].version == v
  }

  predicate HolderOk(s: State, t: nat) {
    Holds(s, t) ==> s.threads[t].version in s.locks && s.locks[s.threads[t].version] == t
  }

  ghost predicate Inv(s: State) {
    && (forall ev | ev in s.fired :: ev < |s.owners|)
    && (forall t: nat :: OwnerOk(s, t) && WaiterOk(s, t) && HolderOk(s, t))
    && (forall key :: EntryOk(s, key))
    && (forall v :: LockOk(s, v))
  }

  lemma FreshInv(s: State)
    requires Fresh(s)
    ensures Inv(s)
  {
    forall t | 0 <= t < |s.threads| ensures s.threads[t].stage == Checking {
      assert s.threads[t] in s.threads;
    }
  }

  /** What the acting thread brings. */
  predicate ActorOk(s: State, a: Action) {
    !a.Vanish? && a.t < |s.threads| ==>
      OwnerOk(s, a.t) && HolderOk(s, a.t) && EntryOk(s, Key(s.threads[a.t])) && LockOk(s, s.threads[a.t].version)
  }

  lemma ActorKeepsOwner(s: State, a: Action)
    requires !a.Vanish? && ActorOk(s, a) && forall ev | ev in s.fired :: ev < |s.owners|
    ensures OwnerOk(Step(s, a), a.t)
  {
    hide WaiterOk, HolderOk, LockOk, Served;
  }

  lemma OthersKeepOwner(s: State, a: Action, u: nat)
    requires OwnerOk(s, u) && ActorOk(s, a) && (a.Vanish? || a.t != u)
    ensures OwnerOk(Step(s, a), u)
  {
    hide WaiterOk, HolderOk, LockOk, Served;
  }

  lemma StepKeepsEntry(s: State, a: Action, key: Slot)
    requires EntryOk(s, key) && ActorOk(s, a)
    ensures EntryOk(Step(s, a), key)
  {
    hide WaiterOk, HolderOk, LockOk, Served;
  }

  lemma ActorKeepsWaiter(s: State, a: Action)
    requires !a.Vanish? && WaiterOk(s, a.t) && ActorOk(s, a)
    ensures WaiterOk(Step(s, a), a.t)
  {
    hide HolderOk, LockOk;
  }

  lemma OthersKeepWaiter(s: State, a: Action, u: nat)
    requires WaiterOk(s, u) && ActorOk(s, a) && (a.Vanish? || a.t != u)
    ensures WaiterOk(Step(s, a), u)
  {
    hide HolderOk, LockOk, EntryOk;
  }

  lemma StepKeepsWaiter(s: State, a: Action, u: nat)
    requires WaiterOk(s, u) && ActorOk(s, a)
    ensures WaiterOk(Step(s, a), u)
  {
    hide WaiterOk, ActorOk, Step;
    if !a.Vanish? && a.t == u {
      ActorKeepsWaiter(s, a);
    } else {
      OthersKeepWaiter(s, a, u);
    }
  }

  lemma StepKeepsHolder(s: State, a: Action, u: nat)
    requires HolderOk(s, u) && ActorOk(s, a)
    ensures HolderOk(Step(s, a), u)
  {
    hide OwnerOk, WaiterOk, EntryOk, LockOk, Served;
  }

  lemma StepKeepsLock(s: State, a: Action, v: string)
    requires LockOk(s, v) && ActorOk(s, a)
    ensures LockOk(Step(s, a), v)
  {
    hide OwnerOk, WaiterOk, EntryOk, Served;
  }

  lemma StepKeepsInv(s: State, a: Action)
    requires Inv(s)
    ensures Inv(Step(s, a))
  {
    forall t: nat ensures OwnerOk(Step(s, a), t) && WaiterOk(Step(s, a), t) && HolderOk(Step(s, a), t) {
      if !a.Vanish? && a.t == t {
        ActorKeepsOwner(s, a);
      } else {
        OthersKeepOwner(s, a, t);
      }
      StepKeepsWaiter(s, a, t);
      StepKeepsHolder(s, a, t);
    }
    forall key ensures EntryOk(Step(s, a), key) {
      StepKeepsEntry(s, a, key);
    }
    forall v ensures LockOk(Step(s, a), v) {
      StepKeepsLock(s, a, v);
    }
    KnownEvents(s, a);
    hide Step, OwnerOk, WaiterOk, HolderOk, EntryOk, LockOk;
  }

  lemma KnownEvents(s: State, a: Action)
    requires Inv(s)
    ensures forall ev | ev in Step(s, a).fired :: ev < |Step(s, a).owners|
  {
    if !a.Vanish? {
      assert OwnerOk(s, a.t);
    }
    hide WaiterOk, HolderOk, EntryOk, LockOk;
  }

  lemma {:induction false} RunInv(s: State, acts: seq<Action>)
    requires Fresh(s)
    ensures Inv(Run(s, acts)) && |Run(s, acts).threads| == |s.threads|
  {
    hide Inv;
    if acts == [] {
      FreshInv(s);
    } else {
      RunInv(s, acts[..|acts| - 1]);
      StepKeepsInv(Run(s, acts[..|acts| - 1]), acts[|acts| - 1]);
    }
  }

  // ---- 1. one install at a time ----

  /** Threads of one manager share an install, whatever happens to the file lock. */
  lemma OneOwnerPerManager(s: State, acts: seq<Action>, t: nat, u: nat)
    requires Fresh(s) && t < |s.threads| && u < |s.threads|
    ensures var e := Run(s, acts);
      |e.threads| == |s.threads| &&
      (Owner(e.threads[t].stage) && Owner(e.threads[u].stage) && Key(e.threads[t]) == Key(e.threads[u]) ==> t == u)
  {
    RunInv(s, acts);
    assert OwnerOk(Run(s, acts), t) && OwnerOk(Run(s, acts), u);
  }

  /** Every file lock could be taken. */
  ghost predicate Serialised(acts: seq<Action>) { forall a | a in acts :: !a.LockFails? }

  /** A thread past the lock holds it, and one that installs does so because the version
      is not there. */
  predicate SerialOk(s: State, t: nat) {
    t < |s.threads| ==>
      && (InLock(s.threads[t].stage) ==> s.threads[t].stage.held)
      && (s.threads[t].stage.Installing? ==> s.threads[t].version !in s.disk)
  }

  lemma StepKeepsSerial(s: State, a: Action, u: nat)
    requires SerialOk(s, u) && HolderOk(s, u) && ActorOk(s, a) && !a.LockFails?
    requires !a.Vanish? ==> SerialOk(s, a.t)
    ensures SerialOk(Step(s, a), u)
  {
    hide OwnerOk, EntryOk, LockOk;
  }

  lemma {:induction false} RunSerial(s: State, acts: seq<Action>)
    requires Fresh(s) && Serialised(acts)
    ensures forall t: nat :: SerialOk(Run(s, acts), t)
  {
    if acts == [] {
      forall t: nat ensures SerialOk(s, t) {
        assert t < |s.threads| ==> s.threads[t] in s.threads;
      }
    } else {
      var front, a := acts[..|acts| - 1], acts[|acts| - 1];
      RunSerial(s, front);
      RunInv(s, front);
      var e := Run(s, front);
      hide SerialOk, OwnerOk, HolderOk, EntryOk, LockOk, Step;
      forall t: nat ensures SerialOk(Step(e, a), t) {
        assert SerialOk(e, t) && HolderOk(e, t);
        StepKeepsSerial(e, a, t);
      }
    }
  }

  /** If every file lock can be taken, then over all threads of all managers at most one is
      installing a version, and only while that version is not installed: an owner that
      finds it there after taking the lock does not install it again. */
  lemma InstallsAreExclusive(s: State, acts: seq<Action>, t: nat, u: nat)
    requires Fresh(s) && Serialised(acts) && t < |s.threads| && u < |s.threads|
    ensures var e := Run(s, acts);
      && |e.threads| == |s.threads|
      && (e.threads[t].stage.Installing? ==> e.threads[t].version !in e.disk)
      && ((e.threads[t].stage.Installing? && e.threads[u].stage.Installing?
           && e.threads[t].version == e.threads[u].version) ==> t == u)
  {
    RunInv(s, acts);
    RunSerial(s, acts);
    var e := Run(s, acts);
    assert SerialOk(e, t) && SerialOk(e, u) && HolderOk(e, t) && HolderOk(e, u);
  }

  /** In any run: if two threads install one version at once, one of them went on without
      the file lock. */
  lemma OverlapNeedsAFailedLock(s: State, acts: seq<Action>, t: nat, u: nat)
    requires Fresh(s) && t < |s.threads| && u < |s.threads| && t != u
    ensures var e := Run(s, acts);
      && |e.threads| == |s.threads|
      && (e.threads[t].stage.Installing? && e.threads[u].stage.Installing?
          && e.threads[t].version == e.threads[u].version
          ==> !e.threads[t].stage.held || !e.threads[u].stage.held)
  {
    RunInv(s, acts);
    var e := Run(s, acts);
    assert HolderOk(e, t) && HolderOk(e, u);
  }

  // ---- 2. nobody waits in vain ----

  /** A waiting thread's event is set already, or a live owner will set it. */
  lemma WaitersAreServed(s: State, acts: seq<Action>, t: nat)
    requires Fresh(s) && t < |s.threads|
    ensures var e := Run(s, acts);
      |e.threads| == |s.threads| && (e.threads[t].stage.Waiting? ==> Served(e, e.threads[t].stage.ev))
  {
    RunInv(s, acts);
    assert WaiterOk(Run(s, acts), t);
  }

  /** A step a thread takes on its own account, without a timeout or a failing lock. */
  predicate Regular(a: Action) { !a.Vanish? && !a.TimeOut? && !a.LockFails? }

  function OwnStep(st: Stage, t: nat): Action {
    match st
    case Checking => Check(t, {})
    case Owning(_) => TakeLock(t)
    case Locked(_, _) => Recheck(t)
    case Installing(_, _) => Install(t, true)
    case Unlocking(_, _, _) => Unlock(t)
    case Popping(_, _) => Pop(t)
    case Waking(_, _) => Wake(t)
    case Waiting(_) => Resume(t)
    case _ => Vanish("")
  }

  lemma LiveCanMove(s: State, t: nat) returns (a: Action)
    requires t < |s.threads| && (Live(s.threads[t].stage) || s.threads[t].stage.Checking?)
    requires forall v :: LockOk(s, v)
    ensures Regular(a) && Enabled(s, a)
  {
    var v := s.threads[t].version;
    if s.threads[t].stage.Owning? && v in s.locks {
      assert LockOk(s, v);
      a := OwnStep(s.threads[s.locks[v]].stage, s.locks[v]);
    } else {
      a := OwnStep(s.threads[t].stage, t);
    }
  }

  /** No deadlock: as long as one call has not ended, some thread has a regular step. */
  lemma NoDeadlock(s: State, acts: seq<Action>, t: nat)
    requires Fresh(s) && t < |s.threads|
    ensures var e := Run(s, acts);
      |e.threads| == |s.threads| && (!Finished(e.threads[t].stage) ==> exists a :: Regular(a) && Enabled(e, a))
  {
    RunInv(s, acts);
    var e := Run(s, acts);
    if !Finished(e.threads[t].stage) {
      assert WaiterOk(e, t);
      var st := e.threads[t].stage;
      var a;
      if st.Waiting? {
        if st.ev in e.fired {
          a := Resume(t);
        } else {
          a := LiveCanMove(e, e.owners[st.ev]);
        }
      } else {
        a := LiveCanMove(e, t);
      }
      assert Regular(a) && Enabled(e, a);
    }
  }

  // ---- 3. every call ends ----

  /** How far a thread is from its end; an event that fires sends its waiters back to the start. */
  function Rank(n: nat, t: Thread, fired: set<nat>): nat {
    match t.stage
    case Returned => 0
    case Raised => 0
    case Waiting(ev) => 20 * n + if ev in fired then 13 else 1
    case Checking => 20 * n + 12
    case Owning(_) => 20 * n + 11
    case Locked(_, _) => 20 * n + 10
    case Installing(_, _) => 20 * n + 9
    case Unlocking(_, _, _) => 20 * n + 8
    case Popping(_, _) => 20 * n + 7
    case Waking(_, _) => 20 * n + 6
  }

  function Ranks(n: nat, ts: seq<Thread>, fired: set<nat>): nat {
    if ts == [] then 0 else Ranks(n, ts[..|ts| - 1], fired) + Rank(n, ts[|ts| - 1], fired)
  }

  function Distance(s: State): nat { Ranks(|s.threads|, s.threads, s.fired) }

  lemma {:induction false} RanksSet(n: nat, ts: seq<Thread>, fired: set<nat>, t: nat, x: Thread)
    requires t < |ts|
    ensures Ranks(n, ts[t := x], fired) == Ranks(n, ts, fired) - Rank(n, ts[t], fired) + Rank(n, x, fired)
    decreases |ts|
  {
    hide Rank;
    var m := |ts| - 1;
    if t == m {
      assert ts[t := x][..m] == ts[..m];
    } else {
      RanksSet(n, ts[..m], fired, t, x);
      assert ts[t := x][..m] == ts[..m][t := x];
    }
  }

  lemma {:induction false} RanksFire(n: nat, ts: seq<Thread>, fired: set<nat>, ev: nat)
    ensures Ranks(n, ts, fired + {ev}) <= Ranks(n, ts, fired) + 12 * |ts|
  {
    if ts != [] {
      RanksFire(n, ts[..|ts| - 1], fired, ev);
    }
  }

  /** Every step of a thread brings the calls closer to their end. */
  lemma StepsCloser(s: State, a: Action)
    requires Inv(s) && Enabled(s, a) && !a.Vanish?
    ensures Distance(Step(s, a)) < Distance(s)
  {
    var n, x := |s.threads|, Step(s, a).threads[a.t];
    RanksSet(n, s.threads, s.fired, a.t, x);
    assert Step(s, a).threads == s.threads[a.t := x];
    if a.Wake? {
      RanksFire(n, s.threads[a.t := x], s.fired, s.threads[a.t].stage.ev);
    } else {
      JoinsLiveInstall(s, a);
    }
  }

  lemma JoinsLiveInstall(s: State, a: Action)
    requires Inv(s) && Enabled(s, a) && !a.Vanish? && !a.Wake?
    ensures Rank(|s.threads|, Step(s, a).threads[a.t], s.fired) < Rank(|s.threads|, s.threads[a.t], s.fired)
  {
    if a.Check? {
      var key := Key(s.threads[a.t]);
      assert EntryOk(s, key);
      if key in s.installing {
        assert OwnerOk(s, s.owners[s.installing[key]]);
      }
    }
  }

  /** How many actions of the run were steps of a thread. */
  function Moves(s: State, acts: seq<Action>): nat {
    if acts == [] then 0
    else
      var a := acts[|acts| - 1];
      Moves(s, acts[..|acts| - 1]) + if !a.Vanish? && Enabled(Run(s, acts[..|acts| - 1]), a) then 1 else 0
  }

  lemma {:induction false} MovesAreBounded(s: State, acts: seq<Action>)
    requires Fresh(s)
    ensures Distance(Run(s, acts)) + Moves(s, acts) <= Distance(s)
  {
    hide Distance, Inv;
    if acts != [] {
      var front, a := acts[..|acts| - 1], acts[|acts| - 1];
      MovesAreBounded(s, front);
      RunInv(s, front);
      if !a.Vanish? && Enabled(Run(s, front), a) {
        StepsCloser(Run(s, front), a);
      } else {
        IdleStep(Run(s, front), a);
      }
    }
  }

  lemma IdleStep(s: State, a: Action)
    requires a.Vanish? || !Enabled(s, a)
    ensures Distance(Step(s, a)) == Distance(s)
  {}

  lemma {:induction false} FreshDistance(n: nat, ts: seq<Thread>, fired: set<nat>)
    requires forall t | t in ts :: t.stage == Checking
    ensures Ranks(n, ts, fired) == |ts| * (20 * n + 12)
  {
    if ts != [] {
      assert ts[|ts| - 1] in ts;
      FreshDistance(n, ts[..|ts| - 1], fired);
    }
  }

  /** Whatever the interleaving, n calls take at most n * (20 n + 12) steps between them. */
  lemma StepsAreBounded(s: State, acts: seq<Action>)
    requires Fresh(s)
    ensures Moves(s, acts) <= |s.threads| * (20 * |s.threads| + 12)
  {
    MovesAreBounded(s, acts);
    FreshDistance(|s.threads|, s.threads, s.fired);
  }

  /** No thread has a regular step. */
  ghost predicate Quiet(s: State) { forall a | Regular(a) :: !Enabled(s, a) }

  lemma QuietMeansEnded(s: State, acts: seq<Action>, t: nat)
    requires Fresh(s) && t < |s.threads| && Quiet(Run(s, acts))
    ensures |Run(s, acts).threads| == |s.threads| && Finished(Run(s, acts).threads[t].stage)
  {
    hide Finished, Regular, Enabled, Run, Fresh;
    NoDeadlock(s, acts, t);
  }

  /** All calls end: their steps are bounded, and when none is left that a thread could
      take on its own account, every call has ended. */
  lemma EveryCallEnds(s: State, acts: seq<Action>, t: nat)
    requires Fresh(s) && t < |s.threads|
    ensures Moves(s, acts) <= |s.threads| * (20 * |s.threads| + 12)
    ensures Quiet(Run(s, acts)) ==>
      |Run(s, acts).threads| == |s.threads| && Finished(Run(s, acts).threads[t].stage)
  {
    hide Quiet, Finished, Run, Moves, Fresh;
    StepsAreBounded(s, acts);
    if Quiet(Run(s, acts)) {
      QuietMeansEnded(s, acts, t);
    }
  }

  // ---- 4. when the lock cannot be taken ----

  lemma RunSnoc(s: State, acts: seq<Action>, a: Action)
    ensures Run(s, acts + [a]) == Step(Run(s, acts), a)
  {
    assert (acts + [a])[..|acts|] == acts;
  }

  /** Two managers whose file lock fails install one version at the same time. */
  lemma UnserialisedInstalls() returns (s: State, acts: seq<Action>)
    ensures Fresh(s) && !Serialised(acts)
    ensures var e := Run(s, acts);
      && |e.threads| == 2 && e.threads[0].version == e.threads[1].version
      && e.threads[0].stage.Installing? && e.threads[1].stage.Installing?
  {
    var a, b := Thread(0, "2026.4", Checking), Thread(1, "2026.4", Checking);
    s := State([a, b], map[], [], {}, map[], {});
    acts := [] + [Check(0, {})] + [Check(1, {})] + [LockFails(0)] + [LockFails(1)] + [Recheck(0)] + [Recheck(1)];
    assert LockFails(0) in acts;
    RunSnoc(s, [], Check(0, {}));
    RunSnoc(s, [] + [Check(0, {})], Check(1, {}));
    RunSnoc(s, [] + [Check(0, {})] + [Check(1, {})], LockFails(0));
    RunSnoc(s, [] + [Check(0, {})] + [Check(1, {})] + [LockFails(0)], LockFails(1));
    RunSnoc(s, [] + [Check(0, {})] + [Check(1, {})] + [LockFails(0)] + [LockFails(1)], Recheck(0));
    RunSnoc(s, [] + [Check(0, {})] + [Check(1, {})] + [LockFails(0)] + [LockFails(1)] + [Recheck(0)], Recheck(1));
  }

  // ---- 5. what the answers mean, and what is on disk ----

  /** In step k the thread found its version installed, or installed it. */
  predicate Succeeds(s: State, acts: seq<Action>, t: nat, k: nat)
    requires t < |s.threads| && k < |acts|
  {
    var e, a := Run(s, acts[..k]), acts[k];
    && Enabled(e, a) && t < |e.threads|
    && (((a.Check? || a.Recheck?) && a.t == t && e.threads[t].version in e.disk) || (a.Install? && a.t == t && a.ok))
  }

  /** In step k the thread gave up waiting, or its installation failed. */
  predicate GivesUp(s: State, acts: seq<Action>, t: nat, k: nat)
    requires t < |s.threads| && k < |acts|
  {
    var e, a := Run(s, acts[..k]), acts[k];
    Enabled(e, a) && ((a.TimeOut? && a.t == t) || (a.Install? && a.t == t && !a.ok))
  }

  ghost predicate HasSucceeded(s: State, acts: seq<Action>, t: nat)
    requires t < |s.threads|
  {
    exists k | 0 <= k < |acts| :: Succeeds(s, acts, t, k)
  }

  ghost predicate HasGivenUp(s: State, acts: seq<Action>, t: nat)
    requires t < |s.threads|
  {
    exists k | 0 <= k < |acts| :: GivesUp(s, acts, t, k)
  }

  predicate GoingWell(st: Stage) {
    st.Returned? || ((st.Unlocking? || st.Popping? || st.Waking?) && st.ok)
  }

  predicate GoingBadly(st: Stage) {
    st.Raised? || ((st.Unlocking? || st.Popping? || st.Waking?) && !st.ok)
  }

  lemma HistoryGrows(s: State, acts: seq<Action>, a: Action, t: nat)
    requires t < |s.threads|
    ensures HasSucceeded(s, acts, t) ==> HasSucceeded(s, acts + [a], t)
    ensures HasGivenUp(s, acts, t) ==> HasGivenUp(s, acts + [a], t)
    ensures Succeeds(s, acts + [a], t, |acts|) ==> HasSucceeded(s, acts + [a], t)
    ensures GivesUp(s, acts + [a], t, |acts|) ==> HasGivenUp(s, acts + [a], t)
    ensures (acts + [a])[..|acts|] == acts && (acts + [a])[|acts|] == a
  {
    var more := acts + [a];
    assert forall k | 0 <= k <= |acts| :: more[..k] == acts[..k];
    assert acts[..|acts|] == acts;
    hide Run, Enabled;
    if HasSucceeded(s, acts, t) {
      var k :| 0 <= k < |acts| && Succeeds(s, acts, t, k);
      assert Succeeds(s, more, t, k);
    }
    if HasGivenUp(s, acts, t) {
      var k :| 0 <= k < |acts| && GivesUp(s, acts, t, k);
      assert GivesUp(s, more, t, k);
    }
  }

  /** One step changes how the thread is going only by one of the four events. */
  lemma StepTells(e: State, a: Action, t: nat)
    requires t < |e.threads|
    ensures |Step(e, a).threads| == |e.threads|
    ensures var before, after := e.threads[t].stage, Step(e, a).threads[t].stage;
      && (GoingWell(after) ==>
            GoingWell(before)
            || (Enabled(e, a)
                && (((a.Check? || a.Recheck?) && a.t == t && e.threads[t].version in e.disk)
                    || (a.Install? && a.t == t && a.ok))))
      && (GoingBadly(after) ==>
            GoingBadly(before)
            || (Enabled(e, a) && ((a.TimeOut? && a.t == t) || (a.Install? && a.t == t && !a.ok))))
  {}

  lemma {:induction false} AnswersSoFar(s: State, acts: seq<Action>, t: nat)
    requires Fresh(s) && t < |s.threads|
    ensures var e := Run(s, acts);
      && |e.threads| == |s.threads|
      && (GoingWell(e.threads[t].stage) ==> HasSucceeded(s, acts, t))
      && (GoingBadly(e.threads[t].stage) ==> HasGivenUp(s, acts, t))
  {
    if acts == [] {
      assert s.threads[t] in s.threads;
    } else {
      var front, a := acts[..|acts| - 1], acts[|acts| - 1];
      assert acts == front + [a];
      AnswersSoFar(s, front, t);
      RunSnoc(s, front, a);
      StepTells(Run(s, front), a, t);
      HistoryGrows(s, front, a, t);
      hide Fresh, Run, Step, Enabled, GoingWell, GoingBadly, HasSucceeded, HasGivenUp;
    }
  }

  /** Every answer is true: a call that returned has found its version installed or installed
      it, and one that raised has waited too long or failed to install it. */
  lemma AnswersAreTrue(s: State, acts: seq<Action>, t: nat)
    requires Fresh(s) && t < |s.threads|
    ensures var e := Run(s, acts);
      && |e.threads| == |s.threads|
      && (e.threads[t].stage == Returned ==> HasSucceeded(s, acts, t))
      && (e.threads[t].stage == Raised ==> HasGivenUp(s, acts, t))
  {
    AnswersSoFar(s, acts, t);
  }

  /** Step k leaves the version installed. */
  predicate PutsThere(s: State, acts: seq<Action>, v: string, k: nat)
    requires k < |acts|
  {
    var e, a := Run(s, acts[..k]), acts[k];
    Enabled(e, a) && a.Install? && a.ok && e.threads[a.t].version == v
  }

  /** Step k deletes the version: its installation fails, a sweep comes by, or a thread that
      becomes the owner of another one evicts it. */
  predicate TakesAway(s: State, acts: seq<Action>, v: string, k: nat)
    requires k < |acts|
  {
    var e, a := Run(s, acts[..k]), acts[k];
    Enabled(e, a)
    && (a == Vanish(v)
        || (a.Install? && !a.ok && e.threads[a.t].version == v)
        || (a.Check? && v in a.evicted && e.threads[a.t].version !in e.disk && Key(e.threads[a.t]) !in e.installing))
  }

  ghost predicate Lasts(s: State, acts: seq<Action>, v: string, from: nat) {
    forall m | from <= m < |acts| :: !TakesAway(s, acts, v, m)
  }

  ghost predicate PutToStay(s: State, acts: seq<Action>, v: string) {
    exists k | 0 <= k < |acts| :: PutsThere(s, acts, v, k) && Lasts(s, acts, v, k + 1)
  }

  lemma StepOnDisk(e: State, a: Action, v: string)
    ensures v in Step(e, a).disk <==>
      if Enabled(e, a) && a.Install? && a.ok && e.threads[a.t].version == v then true
      else
        && v in e.disk
        && !(Enabled(e, a)
             && (a == Vanish(v)
                 || (a.Install? && !a.ok && e.threads[a.t].version == v)
                 || (a.Check? && v in a.evicted && e.threads[a.t].version !in e.disk
                     && Key(e.threads[a.t]) !in e.installing)))
  {}

  lemma StaysPut(s: State, acts: seq<Action>, a: Action, v: string)
    ensures var more := acts + [a];
      && (Lasts(s, more, v, 0) <==> Lasts(s, acts, v, 0) && !TakesAway(s, more, v, |acts|))
      && (PutToStay(s, more, v) <==>
            PutsThere(s, more, v, |acts|) || (PutToStay(s, acts, v) && !TakesAway(s, more, v, |acts|)))
  {
    var more := acts + [a];
    assert forall k | 0 <= k <= |acts| :: more[..k] == acts[..k];
    hide Run, Enabled;
    forall k | 0 <= k < |acts|
      ensures TakesAway(s, more, v, k) == TakesAway(s, acts, v, k)
      ensures PutsThere(s, more, v, k) == PutsThere(s, acts, v, k)
    {}
    hide TakesAway, PutsThere;
    forall k | 0 <= k <= |acts|
      ensures Lasts(s, more, v, k) <==> Lasts(s, acts, v, k) && !TakesAway(s, more, v, |acts|)
    {}
    if PutToStay(s, acts, v) && !TakesAway(s, more, v, |acts|) {
      var k :| 0 <= k < |acts| && PutsThere(s, acts, v, k) && Lasts(s, acts, v, k + 1);
      assert PutsThere(s, more, v, k) && Lasts(s, more, v, k + 1);
    }
    if PutToStay(s, more, v) {
      var k :| 0 <= k < |more| && PutsThere(s, more, v, k) && Lasts(s, more, v, k + 1);
      assert k < |acts| ==> Lasts(s, acts, v, k + 1);
    }
    if PutsThere(s, more, v, |acts|) {
      assert Lasts(s, more, v, |acts| + 1);
    }
  }

  /** A version is on disk exactly if it was put there, or was there to begin with, and nothing
      has taken it away since. */
  lemma {:induction false} OnDiskIff(s: State, acts: seq<Action>, v: string)
    ensures v in Run(s, acts).disk <==> PutToStay(s, acts, v) || (v in s.disk && Lasts(s, acts, v, 0))
  {
    if acts != [] {
      var front, a := acts[..|acts| - 1], acts[|acts| - 1];
      assert acts == front + [a] && acts[..|front|] == front;
      OnDiskIff(s, front, v);
      RunSnoc(s, front, a);
      StepOnDisk(Run(s, front), a, v);
      StaysPut(s, front, a, v);
      hide Run, Step, Enabled, Lasts, PutToStay;
    }
  }
}
