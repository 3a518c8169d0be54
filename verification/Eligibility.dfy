/** Which jobs the fleet's rules let run: the predicate a polling worker is judged by,
    the verdict the routing sweep gives, and how the two agree (routing_eligibility.py). */
module Eligibility {
  import opened Common
  import opened Routing
  import opened Jobs
  import opened QueueOps
  import opened QueueScripts
  import opened OneActive

  /** What a device's YAML says: its tags and its own additional rules. */
  datatype Meta = Meta(tags: Tags, extra: seq<Rule>)

  datatype Fleet = Fleet(rules: seq<Rule>, devices: map<string, Meta>)

  const UNREADABLE := Meta({}, [])

  /** A device whose YAML cannot be read has neither tags nor rules. */
  function MetaOf(f: Fleet, target: string): Meta {
    if target in f.devices then f.devices[target] else UNREADABLE
  }

  function EffectiveRules(f: Fleet, target: string): seq<Rule> { f.rules + MetaOf(f, target).extra }

  // ---- one worker ----

  /** A filter without tags, or with an unknown operator, constrains nothing. */
  predicate FilterMatches(filter: TagFilter, worker: Tags) {
    var wanted := set t | t in filter.tags && t != "";
    wanted == {}
    || (if filter.op == "all_of" then wanted <= worker
        else if filter.op == "any_of" then wanted * worker != {}
        else if filter.op == "none_of" then wanted * worker == {}
        else true)
  }

  predicate PassesFilter(worker: Tags, j: Job) {
    j.tagFilter.Some? ==> FilterMatches(j.tagFilter.value, worker)
  }

  predicate Accepts(f: Fleet, worker: Tags, j: Job) {
    && PassesFilter(worker, j)
    && (j.bypass || IsEligible(MetaOf(f, j.target).tags, worker, EffectiveRules(f, j.target)))
  }

  // ---- the whole fleet ----

  predicate Applies(r: Rule, device: Tags) { MatchesSide(r.deviceMatch, device) }

  function OfflineReason(r: Rule): Reason {
    Reason(r.id, if r.name == "" then "(unnamed rule)" else r.name, NoWorkersOnline)
  }

  /** With nobody online, the first rule that applies to the device is the blocker. */
  function OfflineVerdict(device: Tags, rules: seq<Rule>): Verdict {
    var k := FirstIndex(rules, (r: Rule) => Applies(r, device));
    if k < |rules| then Blocked(OfflineReason(rules[k])) else Eligible
  }

  /** The sweep's verdict; workers holds the tags of the online, enabled workers. */
  function FleetVerdict(f: Fleet, workers: seq<Tags>, j: Job): Verdict {
    var device, rules := MetaOf(f, j.target).tags, EffectiveRules(f, j.target);
    if j.bypass || rules == [] then Eligible
    else if workers == [] then OfflineVerdict(device, rules)
    else BlockingVerdict(device, workers, rules)
  }

  // ---- the same, in tags ----

  function DeviceTags(f: Fleet, target: string): Tags {
    if target in f.devices then f.devices[target].tags else {}
  }

  /** The fleet's rules, then the device's own. */
  function RulesFor(f: Fleet, target: string): seq<Rule> {
    if target in f.devices then f.rules + f.devices[target].extra else f.rules
  }

  /** The worker has all, one, or none of the tags the job's own filter names; empty tags do
      not count, and an unknown operator or no tag at all constrains nothing. */
  predicate FilterAllows(filter: TagFilter, worker: Tags) {
    && (filter.op == "all_of" ==> forall t | t in filter.tags && t != "" :: t in worker)
    && (filter.op == "any_of" ==>
          (exists t | t in filter.tags :: t != "") ==> exists t | t in filter.tags :: t != "" && t in worker)
    && (filter.op == "none_of" ==> forall t | t in filter.tags && t != "" :: t !in worker)
  }

  predicate Welcomes(f: Fleet, worker: Tags, j: Job) {
    && (j.tagFilter.Some? ==> FilterAllows(j.tagFilter.value, worker))
    && (!j.bypass ==> Qualifies(DeviceTags(f, j.target), worker, RulesFor(f, j.target)))
  }

  lemma FilterInTags(filter: TagFilter, worker: Tags)
    ensures FilterMatches(filter, worker) <==> FilterAllows(filter, worker)
  {
    var wanted := set t | t in filter.tags && t != "";
    if wanted == {} {
      assert forall t | t in filter.tags :: t == "" || t in wanted;
    } else {
      var t :| t in wanted;
      assert t in filter.tags && t != "";
    }
    if x :| x in wanted * worker {
      assert x in filter.tags && x in worker;
    } else {
      assert forall t | t in filter.tags && t != "" :: t in wanted && t !in wanted * worker;
    }
  }

  lemma AcceptsInTags(f: Fleet, worker: Tags, j: Job)
    ensures Accepts(f, worker, j) <==> Welcomes(f, worker, j)
  {
    if j.tagFilter.Some? {
      FilterInTags(j.tagFilter.value, worker);
    }
    DeviceTerms(f, j.target);
    EligibleIsQualified(DeviceTags(f, j.target), worker, RulesFor(f, j.target));
    hide FilterMatches, FilterAllows, IsEligible, Qualifies, DeviceTags, RulesFor, MetaOf, EffectiveRules;
  }

  /** The sweep's verdict: a job that may bypass the rules, or has none, is eligible; with
      nobody online the first rule that applies to the device is the reason; otherwise the
      verdict is the one that Explains describes. */
  ghost predicate FleetExplains(v: Verdict, f: Fleet, workers: seq<Tags>, j: Job) {
    var device, rules := DeviceTags(f, j.target), RulesFor(f, j.target);
    if j.bypass || rules == [] then v == Eligible
    else if workers != [] then Explains(v, device, workers, rules)
    else if forall r | r in rules :: !Meets(r.deviceMatch, device) then v == Eligible
    else exists k | 0 <= k < |rules| ::
      && Meets(rules[k].deviceMatch, device) && (forall m | 0 <= m < k :: !Meets(rules[m].deviceMatch, device))
      && v == Blocked(Reason(rules[k].id, if rules[k].name == "" then "(unnamed rule)" else rules[k].name,
                             NoWorkersOnline))
  }

  lemma DeviceTerms(f: Fleet, target: string)
    ensures EffectiveRules(f, target) == RulesFor(f, target) && MetaOf(f, target).tags == DeviceTags(f, target)
  {
    assert f.rules + [] == f.rules;
  }

  lemma OfflineExplains(device: Tags, rules: seq<Rule>)
    ensures var v := OfflineVerdict(device, rules);
      if forall r | r in rules :: !Meets(r.deviceMatch, device) then v == Eligible
      else exists k | 0 <= k < |rules| ::
        && Meets(rules[k].deviceMatch, device) && (forall m | 0 <= m < k :: !Meets(rules[m].deviceMatch, device))
        && v == Blocked(Reason(rules[k].id, if rules[k].name == "" then "(unnamed rule)" else rules[k].name,
                               NoWorkersOnline))
  {
    forall r | r in rules ensures Applies(r, device) <==> Meets(r.deviceMatch, device) {
      MatchesIsMeets(r.deviceMatch, device);
    }
    hide Applies, Meets;
    var k := FirstIndex(rules, (r: Rule) => Applies(r, device));
    if k < |rules| {
      assert rules[k] in rules && forall m | 0 <= m < k :: rules[m] in rules;
    } else {
      forall r | r in rules ensures !Applies(r, device) {
        var m :| 0 <= m < |rules| && rules[m] == r;
      }
    }
  }

  lemma FleetVerdictExplains(f: Fleet, workers: seq<Tags>, j: Job)
    ensures FleetExplains(FleetVerdict(f, workers, j), f, workers, j)
  {
    hide Explains, Meets, BlockingVerdict, OfflineVerdict, DeviceTags, RulesFor, MetaOf, EffectiveRules;
    var device, rules := DeviceTags(f, j.target), RulesFor(f, j.target);
    DeviceTerms(f, j.target);
    VerdictExplains(device, workers, rules);
    OfflineExplains(device, rules);
  }

  // ---- as the source computes them, reading each device's YAML once per pass ----

  class RoutingPass {
    const fleet: Fleet
    var cache: map<string, (Tags, seq<Rule>)>

    ghost predicate Valid()
      reads this
    {
      forall t | t in cache :: cache[t] == (MetaOf(fleet, t).tags, EffectiveRules(fleet, t))
    }

    constructor (fleet: Fleet)
      ensures Valid() && this.fleet == fleet
    {
      this.fleet := fleet;
      cache := map[];
    }

    method Resolve(target: string) returns (device: Tags, rules: seq<Rule>)
      requires Valid()
      modifies this
      ensures Valid() && device == MetaOf(fleet, target).tags && rules == EffectiveRules(fleet, target)
    {
      if target in cache {
        return cache[target].0, cache[target].1;
      }
      var meta := if target in fleet.devices then fleet.devices[target] else UNREADABLE;
      device, rules := meta.tags, fleet.rules + meta.extra;
      cache := cache[target := (device, rules)];
    }

    method CheckClaim(worker: Tags, j: Job) returns (ok: bool)
      requires Valid()
      modifies this
      ensures Valid() && ok == Accepts(fleet, worker, j) == Welcomes(fleet, worker, j)
    {
      AcceptsInTags(fleet, worker, j);
      hide Welcomes;
      if j.tagFilter.Some? && !FilterMatches(j.tagFilter.value, worker) {
        return false;
      }
      if j.bypass {
        return true;
      }
      var device, rules := Resolve(j.target);
      ok := rules == [] || IsEligible(device, worker, rules);
    }

    method CheckFleet(workers: seq<Tags>, j: Job) returns (v: Verdict)
      requires Valid()
      modifies this
      ensures Valid() && v == FleetVerdict(fleet, workers, j)
      ensures FleetExplains(v, fleet, workers, j)
    {
      FleetVerdictExplains(fleet, workers, j);
      hide FleetExplains;
      if j.bypass {
        return Eligible;
      }
      var device, rules := Resolve(j.target);
      if rules == [] {
        return Eligible;
      }
      if workers == [] {
        for k := 0 to |rules|
          invariant forall m | 0 <= m < k :: !Applies(rules[m], device)
        {
          if Applies(rules[k], device) {
            return Blocked(Reason(rules[k].id, if rules[k].name != "" then rules[k].name else "(unnamed rule)",
                                  NoWorkersOnline));
          }
        }
        return Eligible;
      }
      v := FindBlockingRule(device, workers, rules);
    }
  }

  // ---- the two judgements agree ----

  /** With a worker online, the sweep calls a job eligible exactly when some online worker
      would accept it, the job's own tag filter aside; and exactly when one accepts it as it
      is, if its filter excludes none of them. */
  lemma SweepAgreesWithClaims(f: Fleet, workers: seq<Tags>, j: Job)
    requires workers != []
    ensures FleetVerdict(f, workers, j) == Eligible
        <==> exists w | w in workers :: Accepts(f, w, j.(tagFilter := None))
    ensures (forall w | w in workers :: PassesFilter(w, j)) ==>
        (FleetVerdict(f, workers, j) == Eligible <==> exists w | w in workers :: Accepts(f, w, j))
    ensures (exists w | w in workers :: Accepts(f, w, j)) ==> FleetVerdict(f, workers, j) == Eligible
  {
    var bare := j.(tagFilter := None);
    assert workers[0] in workers;
    assert bare.bypass || EffectiveRules(f, j.target) == [] ==> Accepts(f, workers[0], bare);
    assert forall w :: Accepts(f, w, j) <==> PassesFilter(w, j) && Accepts(f, w, bare);
  }

  /** With nobody online, exactly the jobs to which no rule applies stay eligible, and the
      reason given names the first rule that does. */
  lemma NobodyOnline(f: Fleet, j: Job)
    ensures var v, device, rules := FleetVerdict(f, [], j), MetaOf(f, j.target).tags, EffectiveRules(f, j.target);
      && (v == Eligible <==> j.bypass || forall r | r in rules :: !Applies(r, device))
      && (v.Blocked? ==> exists k | 0 <= k < |rules| ::
            v.reason == OfflineReason(rules[k]) && Applies(rules[k], device)
            && forall m | 0 <= m < k :: !Applies(rules[m], device))
  {
    var device, rules := MetaOf(f, j.target).tags, EffectiveRules(f, j.target);
    var k := FirstIndex(rules, (r: Rule) => Applies(r, device));
    if k < |rules| {
      assert rules[k] in rules;
    } else {
      forall r | r in rules ensures !Applies(r, device) {
        var m :| 0 <= m < |rules| && rules[m] == r;
      }
    }
  }

  /** The sweep does not look at a job's tag filter. It calls a job eligible that nobody
      online accepts exactly when some worker would take the job but for its filter, and the
      filter excludes each such worker. */
  lemma FilteredJobIsStrandedIff(f: Fleet, workers: seq<Tags>, j: Job)
    requires workers != []
    ensures var bare := j.(tagFilter := None);
      (FleetVerdict(f, workers, j) == Eligible && !exists w | w in workers :: Accepts(f, w, j))
      <==> ((exists w | w in workers :: Accepts(f, w, bare))
            && forall w | w in workers && Accepts(f, w, bare) :: !PassesFilter(w, j))
  {
    SweepAgreesWithClaims(f, workers, j);
    var bare := j.(tagFilter := None);
    forall w ensures Accepts(f, w, j) <==> PassesFilter(w, j) && Accepts(f, w, bare) {}
  }

  /** It does happen: a job for workers with a GPU is swept to PENDING when there is none. */
  lemma FilteredJobIsStranded(f: Fleet, workers: seq<Tags>, j: Job)
    requires workers != [] && j.bypass && j.tagFilter == Some(TagFilter("any_of", ["gpu"]))
    requires forall w | w in workers :: "gpu" !in w
    ensures FleetVerdict(f, workers, j) == Eligible
    ensures forall w | w in workers :: !Accepts(f, w, j)
  {
    var filter := TagFilter("any_of", ["gpu"]);
    var wanted := set t | t in filter.tags && t != "";
    assert wanted == {"gpu"} by {
      assert "gpu" in filter.tags;
    }
  }

  /** One more worker online never blocks a job. */
  lemma WorkersOnlyHelp(f: Fleet, workers: seq<Tags>, w: Tags, j: Job)
    requires FleetVerdict(f, workers, j) == Eligible
    ensures FleetVerdict(f, workers + [w], j) == Eligible
  {
    var device, rules := MetaOf(f, j.target).tags, EffectiveRules(f, j.target);
    if workers == [] {
      NobodyOnline(f, j);
      assert w in [w];
      assert IsEligible(device, w, rules) ==> SomeWorkerEligible(device, workers + [w], rules);
    } else if rules != [] {
      EligibilityIsMonotone(device, workers, rules, rules[0], w);
    }
  }

  // ---- one sweep settles the queue ----

  function FleetCheck(f: Fleet, workers: seq<Tags>): Job -> Verdict {
    (j: Job) => FleetVerdict(f, workers, j)
  }

  lemma VerdictIgnoresState(f: Fleet, workers: seq<Tags>, j: Job, v: Verdict)
    ensures FleetVerdict(f, workers, SweepOne(j, v)) == FleetVerdict(f, workers, j)
  {}

  /** After a sweep a waiting job is PENDING exactly when eligible, and BLOCKED with the
      verdict's reason otherwise; no other job is touched; a second sweep changes nothing. */
  lemma SweepSettles(f: Fleet, workers: seq<Tags>, q: Queue)
    ensures var check, to := FleetCheck(f, workers), SweepQueue(q, FleetCheck(f, workers));
      && |to| == |q|
      && (forall i | 0 <= i < |q| && !Waiting(q[i]) :: to[i] == q[i])
      && (forall i | 0 <= i < |q| && Waiting(q[i]) ::
            && Waiting(to[i])
            && (to[i].state == PENDING <==> FleetVerdict(f, workers, q[i]) == Eligible)
            && to[i].blockedReason == match FleetVerdict(f, workers, q[i]) {
                 case Eligible => None
                 case Blocked(reason) => Some(reason)
               })
      && SweepQueue(to, check) == to
      && MoveCount(to, check, |to|) == 0
  {
    var check, to := FleetCheck(f, workers), SweepQueue(q, FleetCheck(f, workers));
    forall i | 0 <= i < |q| ensures SweepOne(to[i], check(to[i])) == to[i] {
      VerdictIgnoresState(f, workers, q[i], check(q[i]));
    }
    assert SweepQueue(to, check) == to;
    NoMoves(to, check, |to|);
  }

  /** Jobs without pin, filter or bypass are judged by their target alone, so a fleet that
      uses none of the three runs under the hypotheses of OneActiveOneFollowup. */
  lemma PlainJobsAreJudgedAlike(f: Fleet, workers: seq<Tags>, w: Tags, client: string, now: int, defer: bool)
    ensures Uniform(Sweep(FleetCheck(f, workers)))
    ensures Uniform(Claim(client, now, defer, (j: Job) => Accepts(f, w, j)))
  {
    forall x: Job, y: Job | Plain(x) && Plain(y) && x.target == y.target
      ensures Accepts(f, w, x) == Accepts(f, w, y)
      ensures FleetVerdict(f, workers, x) == FleetVerdict(f, workers, y)
    {}
  }
}
