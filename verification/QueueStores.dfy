/** The three places where the queue's state lives, and what a script does to them. */
module QueueStores {
  import opened Common
  import opened Jobs
  import opened QueueOps
  import opened QueueMachine

  /** The three places where the queue's state lives. */
  datatype Store = Store(mem: Queue, disk: Queue, hist: History)

  function Do(s: Store, m: Micro): Store {
    match m
    case Update(to, _, _) => s.(mem := to)
    case Persist => s.(disk := s.mem)
    case Record(j) => s.(hist := Upsert(s.hist, j))
    case Ack(_) => s
  }

  function Replay(s: Store, trail: seq<Micro>): Store {
    if trail == [] then s else Do(Replay(s, trail[..|trail| - 1]), trail[|trail| - 1])
  }

  lemma Logged(s: Store, trail: seq<Micro>, m: Micro)
    ensures Replay(s, trail + [m]) == Do(Replay(s, trail), m)
  {
    assert (trail + [m])[..|trail|] == trail;
  }

  lemma {:induction false} ReplaySplit(s: Store, a: seq<Micro>, b: seq<Micro>)
    ensures Replay(s, a + b) == Replay(Replay(s, a), b)
  {
    if b == [] {
      assert a + b == a;
    } else {
      var n := |b| - 1;
      ReplaySplit(s, a, b[..n]);
      assert (a + b)[..|a + b| - 1] == a + b[..n];
    }
  }

  /** The machine of QueueMachine goes through the same stores. */
  lemma ApplyIsDo(c: Core, m: Micro)
    ensures var e := Apply(c, m); Store(e.mem, e.disk, e.hist) == Do(Store(c.mem, c.disk, c.hist), m)
  {}

  lemma {:induction false} PlayIsReplay(c: Core, trail: seq<Micro>)
    ensures var e := Play(c, trail); Store(e.mem, e.disk, e.hist) == Replay(Store(c.mem, c.disk, c.hist), trail)
  {
    hide Apply, Do;
    if trail != [] {
      var n := |trail| - 1;
      ApplyIsDo(Play(c, trail[..n]), trail[n]);
      PlayIsReplay(c, trail[..n]);
      ScriptOne(Play(c, trail[..n]), trail[n]);
      ScriptSplit(c, trail[..n], [trail[n]]);
      assert trail == trail[..n] + [trail[n]];
    }
  }
}
