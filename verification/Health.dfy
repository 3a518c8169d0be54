/** The gate that stops a worker with a full disk from taking jobs (evaluate_health and
    heartbeat in registry.py). */
module Health {
  import opened Common

  const ENTER_PCT := 95
  const EXIT_PCT := 90
  const FREE_FLOOR := 15 * 1024 * 1024 * 1024

  /** What a heartbeat reports about the disk; a missing or unreadable number is None. Old
      workers report no free bytes. */
  datatype Reading = Reading(usedPct: Option<int>, freeBytes: Option<int>)

  /** Bad enough to block. */
  predicate Enters(r: Reading) {
    r.usedPct.Some? && r.usedPct.value >= ENTER_PCT && (r.freeBytes.Some? ==> r.freeBytes.value < FREE_FLOOR)
  }

  /** Good enough to unblock. */
  predicate Exits(r: Reading) {
    r.usedPct.Some?
    && (r.usedPct.value <= EXIT_PCT || (r.freeBytes.Some? && r.freeBytes.value >= FREE_FLOOR))
  }

  /** The most recent reading that was either was bad. */
  predicate LastDecisiveWasBad(history: seq<Reading>) {
    exists k | 0 <= k < |history| ::
      Enters(history[k]) && forall m | k < m < |history| :: !Enters(history[m]) && !Exits(history[m])
  }

  /** A new reading decides if it is decisive, and changes nothing otherwise. */
  lemma OneMoreReading(history: seq<Reading>, r: Reading)
    ensures LastDecisiveWasBad(history + [r]) <==> Enters(r) || (!Exits(r) && LastDecisiveWasBad(history))
  {
    var more := history + [r];
    if LastDecisiveWasBad(more) {
      var k :| 0 <= k < |more| && Enters(more[k]) && forall m | k < m < |more| :: !Enters(more[m]) && !Exits(more[m]);
      if k < |history| {
        assert more[|history|] == r && !Exits(r);
        assert Enters(history[k]) && forall m | k < m < |history| :: history[m] == more[m];
      }
    }
    if Enters(r) {
      assert more[|history|] == r;
    } else if !Exits(r) && LastDecisiveWasBad(history) {
      var k :| 0 <= k < |history| && Enters(history[k])
        && forall m | k < m < |history| :: !Enters(history[m]) && !Exits(history[m]);
      assert more[k] == history[k];
    }
  }

  class Worker {
    var blocked: bool
    var lastSeen: int
    var stopped: bool
    ghost var history: seq<Reading> // one entry per heartbeat that carried system info

    /** The gate is what its history of readings says. */
    ghost predicate Valid()
      reads this
    {
      blocked == LastDecisiveWasBad(history)
    }

    constructor (now: int)
      ensures Valid() && !blocked && history == [] && lastSeen == now && !stopped
    {
      blocked, lastSeen, stopped, history := false, now, false, [];
    }

    method EvaluateHealth(r: Reading) returns (changed: bool)
      requires Valid()
      modifies this`blocked, this`history
      ensures Valid() && history == old(history) + [r]
      ensures changed <==> blocked != old(blocked)
      ensures blocked == if r.usedPct.None? then old(blocked)
        else if r.usedPct.value >= 95 && (r.freeBytes.Some? ==> r.freeBytes.value < 16106127360) then true
        else if r.usedPct.value <= 90 || (r.freeBytes.Some? && r.freeBytes.value >= 16106127360) then false
        else old(blocked)
    {
      hide LastDecisiveWasBad;
      OneMoreReading(history, r);
      history := history + [r];
      if r.usedPct.None? {
        return false;
      }
      var previous := blocked;
      var pct := r.usedPct.value;
      if r.freeBytes.None? {
        if !previous && pct >= ENTER_PCT {
          blocked := true;
        } else if previous && pct <= EXIT_PCT {
          blocked := false;
        }
      } else {
        var lowFree := r.freeBytes.value < FREE_FLOOR;
        if !previous && pct >= ENTER_PCT && lowFree {
          blocked := true;
        } else if previous && (pct <= EXIT_PCT || !lowFree) {
          blocked := false;
        }
      }
      changed := blocked != previous;
    }

    /** A heartbeat revives a stopped worker and, if it carries system info, re-evaluates the gate. */
    method Heartbeat(info: Option<Reading>, now: int)
      requires Valid()
      modifies this
      ensures Valid() && lastSeen == now && !stopped
      ensures history == if info.Some? then old(history) + [info.value] else old(history)
    {
      lastSeen := now;
      stopped := false;
      if info.Some? {
        var changed := EvaluateHealth(info.value);
      }
    }
  }
}
