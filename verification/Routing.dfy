/** Routing rules: tag clauses, conditional rules, and the search for the rule
    that blocks a device (routing.py). */
module Routing {
  import opened Common

  type Tags = set<string>

  datatype ClauseOp = AllOf | AnyOf | NoneOf

  datatype Clause = Clause(op: ClauseOp, tags: seq<string>)

  datatype Rule = Rule(id: string, name: string, deviceMatch: seq<Clause>, workerMatch: seq<Clause>)

  /** What the queue tooltip shows. The one-line text of a clause list is kept as the list. */
  datatype Summary = NoWorkersOnline | Unmatched(clauses: seq<Clause>) | NoSingleWorker

  datatype Reason = Reason(ruleId: string, ruleName: string, summary: Summary)

  datatype Verdict = Eligible | Blocked(reason: Reason)

  const COMBINED := Reason("", "(combined rules)", NoSingleWorker)

  predicate ClauseHolds(c: Clause, tags: Tags) {
    match c.op
    case AllOf => forall t | t in c.tags :: t in tags
    case AnyOf => exists t | t in c.tags :: t in tags
    case NoneOf => !exists t | t in c.tags :: t in tags
  }

  predicate MatchesSide(clauses: seq<Clause>, tags: Tags) {
    forall c | c in clauses :: ClauseHolds(c, tags)
  }

  /** A rule that does not apply to the device passes for every worker. */
  predicate RulePasses(r: Rule, device: Tags, worker: Tags) {
    MatchesSide(r.deviceMatch, device) ==> MatchesSide(r.workerMatch, worker)
  }

  predicate IsEligible(device: Tags, worker: Tags, rules: seq<Rule>) {
    forall r | r in rules :: RulePasses(r, device, worker)
  }

  predicate SomeWorkerEligible(device: Tags, workers: seq<Tags>, rules: seq<Rule>) {
    exists w | w in workers :: IsEligible(device, w, rules)
  }

  /** The rule applies to the device and no worker satisfies it. */
  predicate Blocks(r: Rule, device: Tags, workers: seq<Tags>) {
    && MatchesSide(r.deviceMatch, device)
    && forall w | w in workers :: !MatchesSide(r.workerMatch, w)
  }

  function BlockReason(r: Rule): Reason {
    Reason(r.id, r.name, Unmatched(r.workerMatch))
  }

  function BlockingVerdict(device: Tags, workers: seq<Tags>, rules: seq<Rule>): Verdict {
    if SomeWorkerEligible(device, workers, rules) then Eligible
    else
      var k := FirstIndex(rules, (r: Rule) => Blocks(r, device, workers));
      if k < |rules| then Blocked(BlockReason(rules[k])) else Blocked(COMBINED)
  }

  // ---- the same, in sets of tags ----

  /** Every tag of the clause is there, or at least one, or none. */
  predicate Met(c: Clause, tags: Tags) {
    var wanted := set t | t in c.tags;
    && (c.op == AllOf ==> wanted <= tags)
    && (c.op == AnyOf ==> wanted * tags != {})
    && (c.op == NoneOf ==> wanted * tags == {})
  }

  predicate Meets(clauses: seq<Clause>, tags: Tags) { forall c | c in clauses :: Met(c, tags) }

  /** The worker meets every rule that applies to the device. */
  predicate Qualifies(device: Tags, worker: Tags, rules: seq<Rule>) {
    forall r | r in rules && Meets(r.deviceMatch, device) :: Meets(r.workerMatch, worker)
  }

  /** The rule applies to the device, and no worker meets it. */
  predicate ShutsOut(r: Rule, device: Tags, workers: seq<Tags>) {
    Meets(r.deviceMatch, device) && forall w | w in workers :: !Meets(r.workerMatch, w)
  }

  /** The verdict says whether some worker qualifies, and if none does, names the first rule
      that shuts all of them out, or says that no single worker meets them all. */
  ghost predicate Explains(v: Verdict, device: Tags, workers: seq<Tags>, rules: seq<Rule>) {
    && (v == Eligible <==> exists w | w in workers :: Qualifies(device, w, rules))
    && (v.Blocked? ==>
          if exists r | r in rules :: ShutsOut(r, device, workers) then
            exists k | 0 <= k < |rules| ::
              && ShutsOut(rules[k], device, workers)
              && (forall m | 0 <= m < k :: !ShutsOut(rules[m], device, workers))
              && v.reason == Reason(rules[k].id, rules[k].name, Unmatched(rules[k].workerMatch))
          else v.reason == Reason("", "(combined rules)", NoSingleWorker))
  }

  lemma HoldsIsMet(c: Clause, tags: Tags)
    ensures ClauseHolds(c, tags) <==> Met(c, tags)
  {
    var wanted := set t | t in c.tags;
    if t :| t in c.tags && t in tags {
      assert t in wanted * tags;
    } else {
      assert wanted * tags == {};
    }
  }

  lemma MatchesIsMeets(clauses: seq<Clause>, tags: Tags)
    ensures MatchesSide(clauses, tags) <==> Meets(clauses, tags)
  {
    forall c | c in clauses ensures ClauseHolds(c, tags) <==> Met(c, tags) {
      HoldsIsMet(c, tags);
    }
    hide ClauseHolds, Met;
  }

  lemma EligibleIsQualified(device: Tags, worker: Tags, rules: seq<Rule>)
    ensures IsEligible(device, worker, rules) <==> Qualifies(device, worker, rules)
  {
    forall r | r in rules
      ensures RulePasses(r, device, worker) <==> (Meets(r.deviceMatch, device) ==> Meets(r.workerMatch, worker))
    {
      MatchesIsMeets(r.deviceMatch, device);
      MatchesIsMeets(r.workerMatch, worker);
    }
    hide MatchesSide, Meets, RulePasses;
  }

  lemma BlocksIsShutsOut(r: Rule, device: Tags, workers: seq<Tags>)
    ensures Blocks(r, device, workers) <==> ShutsOut(r, device, workers)
  {
    MatchesIsMeets(r.deviceMatch, device);
    forall w | w in workers ensures MatchesSide(r.workerMatch, w) <==> Meets(r.workerMatch, w) {
      MatchesIsMeets(r.workerMatch, w);
    }
    hide MatchesSide, Meets;
  }

  lemma VerdictExplains(device: Tags, workers: seq<Tags>, rules: seq<Rule>)
    ensures Explains(BlockingVerdict(device, workers, rules), device, workers, rules)
  {
    forall w | w in workers ensures IsEligible(device, w, rules) <==> Qualifies(device, w, rules) {
      EligibleIsQualified(device, w, rules);
    }
    forall r | r in rules ensures Blocks(r, device, workers) <==> ShutsOut(r, device, workers) {
      BlocksIsShutsOut(r, device, workers);
    }
    hide IsEligible, Qualifies, Blocks, ShutsOut;
    var k := FirstIndex(rules, (r: Rule) => Blocks(r, device, workers));
    if k < |rules| {
      assert rules[k] in rules && forall m | 0 <= m < k :: rules[m] in rules;
    } else {
      forall r | r in rules ensures !Blocks(r, device, workers) {
        var m :| 0 <= m < |rules| && rules[m] == r;
      }
    }
  }

  /** The search as the source runs it: any() over the workers, then the first
      applicable rule that no worker matches. */
  method FindBlockingRule(device: Tags, workers: seq<Tags>, rules: seq<Rule>) returns (v: Verdict)
    ensures v == BlockingVerdict(device, workers, rules)
    ensures Explains(v, device, workers, rules)
  {
    VerdictExplains(device, workers, rules);
    hide Explains;
    for i := 0 to |workers|
      invariant forall w | w in workers[..i] :: !IsEligible(device, w, rules)
    {
      if IsEligible(device, workers[i], rules) {
        return Eligible;
      }
    }
    assert workers == workers[..|workers|];
    for k := 0 to |rules|
      invariant forall m | 0 <= m < k :: !Blocks(rules[m], device, workers)
    {
      if MatchesSide(rules[k].deviceMatch, device) {
        var i := 0;
        while i < |workers| && !MatchesSide(rules[k].workerMatch, workers[i])
          invariant 0 <= i <= |workers|
          invariant forall w | w in workers[..i] :: !MatchesSide(rules[k].workerMatch, w)
        {
          i := i + 1;
        }
        if i == |workers| {
          assert workers == workers[..i];
          assert Blocks(rules[k], device, workers);
          return Blocked(BlockReason(rules[k]));
        }
      }
    }
    v := Blocked(COMBINED);
  }

  // ---- what the explanation is worth ----

  /** A named rule is the first applicable rule that nobody satisfies; the generic
      reason appears exactly when every applicable rule has a taker but no worker
      passes them all; eligible means that one worker passes every rule. */
  lemma ExplanationIsTruthful(device: Tags, workers: seq<Tags>, rules: seq<Rule>)
    ensures var v := BlockingVerdict(device, workers, rules);
      && (v == Eligible <==> exists w | w in workers :: forall r | r in rules :: RulePasses(r, device, w))
      && (v.Blocked? ==>
           || (exists k | 0 <= k < |rules| ::
                && v.reason == BlockReason(rules[k])
                && Blocks(rules[k], device, workers)
                && forall m | 0 <= m < k :: !Blocks(rules[m], device, workers))
           || (v.reason == COMBINED && !exists r | r in rules :: Blocks(r, device, workers)))
      && ((v.Blocked? && workers != [] && forall r | r in rules :: !Blocks(r, device, workers)) ==>
           && v.reason == COMBINED
           && (forall r | r in rules && MatchesSide(r.deviceMatch, device) ::
                 exists w | w in workers :: MatchesSide(r.workerMatch, w))
           && (forall w | w in workers :: exists r | r in rules :: !RulePasses(r, device, w)))
  {
    var v := BlockingVerdict(device, workers, rules);
    if v.Blocked? {
      var k := FirstIndex(rules, (r: Rule) => Blocks(r, device, workers));
      if k < |rules| {
        assert rules[k] in rules;
        assert Blocks(rules[k], device, workers);
      } else {
        forall r | r in rules ensures !Blocks(r, device, workers) {
          var m :| 0 <= m < |rules| && rules[m] == r;
        }
      }
    }
  }

  /** More rules never help, more workers never hurt. */
  lemma EligibilityIsMonotone(device: Tags, workers: seq<Tags>, rules: seq<Rule>, r: Rule, w: Tags)
    ensures BlockingVerdict(device, workers, rules + [r]) == Eligible ==>
              BlockingVerdict(device, workers, rules) == Eligible
    ensures BlockingVerdict(device, workers, rules) == Eligible ==>
              BlockingVerdict(device, workers + [w], rules) == Eligible
  {
    if SomeWorkerEligible(device, workers, rules + [r]) {
      var x :| x in workers && IsEligible(device, x, rules + [r]);
      forall q | q in rules ensures RulePasses(q, device, x) {
        assert q in rules + [r];
      }
      assert IsEligible(device, x, rules);
    }
    if SomeWorkerEligible(device, workers, rules) {
      var x :| x in workers && IsEligible(device, x, rules);
      assert x in workers + [w];
    }
  }
}
