/**
 What every pass of the agent loop guarantees, whatever the providers, the tools and the recorded history are.
 */
module LoopSafety {
  import opened Wrappers
  import opened AgentTypes
  import opened PlanState
  import opened GroundedAnswer
  import opened AgentLoop

  /** Executed plan positions strictly increase, so no (plan version, step index) pair repeats. */
  ghost predicate Ordered(steps: seq<SafeStep>) {
    forall i, j :: 0 <= i < j < |steps| ==>
      Before(steps[i].planVersion, steps[i].stepIndex, steps[j].planVersion, steps[j].stepIndex)
  }

  ghost predicate DistinctKeys(steps: seq<SafeStep>) {
    forall i, j :: 0 <= i < j < |steps| ==> steps[i].key != steps[j].key
  }

  function Searches(steps: seq<SafeStep>): nat {
    if steps == [] then 0
    else Searches(steps[..|steps| - 1]) + (if steps[|steps| - 1].tool == SEARCH_DOCUMENTS then 1 else 0)
  }

  ghost predicate Numbered(plans: seq<Plan>) {
    forall i :: 0 <= i < |plans| ==> plans[i].Valid() && plans[i].version == i + 1
  }

  /** The recorded observations of a run that is still going are all successes of bounded size. */
  ghost predicate AllSucceeded(observations: seq<SafeObservation>) {
    forall i :: 0 <= i < |observations| ==> observations[i].status == Success && Small(observations[i])
  }

  ghost predicate Small(o: SafeObservation) {
    |o.documents| == |o.chunks| == |o.citations| <= MAX_OBSERVED_EVIDENCE && o.retries <= 1
  }

  /** Steps refer to existing plan versions and approved tools, in strictly increasing plan order, without repeats. */
  ghost predicate GoodSteps(steps: seq<SafeStep>, plans: seq<Plan>) {
    && Ordered(steps)
    && DistinctKeys(steps)
    && forall i :: 0 <= i < |steps| ==>
         && 1 <= steps[i].planVersion <= |plans| && steps[i].stepIndex <= 2
         && steps[i].tool in APPROVED_TOOLS && steps[i].key.name == Some(steps[i].tool)
  }

  /** The invariant of the loop after an observation, when the next decision is still to be taken. */
  ghost predicate Resting(limits: Limits, c: Core) {
    && Progressing(c.plan)
    && c.plans == c.plan.versions
    && |c.plan.versions| == c.replans + 1 <= limits.maxReplans + 1
    && |c.safeSteps| == |c.safeObservations| == c.steps <= limits.maxSteps
    && c.retrievals == Searches(c.safeSteps) <= 1 + limits.maxRewrites
    && GoodSteps(c.safeSteps, c.plan.versions)
    && (forall i :: 0 <= i < |c.safeSteps| ==>
          && Before(c.safeSteps[i].planVersion, c.safeSteps[i].stepIndex, c.plan.current.version,
                    FirstPending(c.plan.current.steps))
          && c.safeSteps[i].key in c.plan.executed)
    && AllSucceeded(c.safeObservations)
    && DistinctIds(c.evidence)
    && (forall e :: e in c.evidence ==> Observed(c.safeObservations, e.id))
  }

  /** The invariant at the head of the loop: the decided action is the next one of the plan. */
  ghost predicate Sane(limits: Limits, c: Core) {
    Resting(limits, c) && Validate(c.plan, c.decision.next).Ok?
  }

  /** The identifier was reported by a successful observation. */
  ghost predicate Observed(observations: seq<SafeObservation>, id: nat) {
    exists i :: 0 <= i < |observations| && observations[i].status == Success && id in observations[i].citations
  }

  /**
   What persistence asks of an outcome, and more: sizes, contiguous versions, ordered and unique steps, one
   observation per step except possibly the last, and claims backed by successful observations only.
   */
  ghost predicate Persistable(limits: Limits, o: Outcome) {
    && |o.safeObservations| <= |o.safeSteps| <= |o.safeObservations| + 1
    && |o.safeSteps| <= limits.maxSteps
    && Numbered(o.plans) && |o.plans| <= 1 + limits.maxReplans && o.replans <= 1 + limits.maxReplans
    && GoodSteps(o.safeSteps, o.plans)
    && Searches(o.safeSteps) <= 1 + limits.maxRewrites
    && (forall i :: 0 <= i < |o.safeObservations| ==> Small(o.safeObservations[i]))
    && (forall i :: 0 <= i < |o.safeObservations| - 1 ==> o.safeObservations[i].status == Success)
    && (o.status != RunCompleted ==> o.claims == [] && o.citations == [])
    && Cites(o.claims, o.citations)
    && (forall e :: e in o.citations ==> Observed(o.safeObservations, e.id))
  }

  ghost predicate Cites(claims: seq<Claim>, citations: seq<Evidence>) {
    && (forall i :: 0 <= i < |claims| ==> claims[i].ids != [])
    && (forall x :: x in Ids(citations) <==> exists i :: 0 <= i < |claims| && x in claims[i].ids)
  }

  /** A pause happens between steps: everything before it succeeded and its action is new. */
  ghost predicate CleanPause(limits: Limits, p: Pause) {
    && |p.safeSteps| == |p.safeObservations| == p.proposed - 1 < limits.maxSteps
    && Numbered(p.plans) && p.planVersion == |p.plans| <= 1 + limits.maxReplans && 1 <= p.planVersion
    && GoodSteps(p.safeSteps, p.plans)
    && AllSucceeded(p.safeObservations)
    && Searches(p.safeSteps) <= 1 + limits.maxRewrites
    && p.tool in APPROVED_TOOLS && p.key.name == Some(p.tool)
    && forall i :: 0 <= i < |p.safeSteps| ==> p.safeSteps[i].key != p.key
  }

  /** Storing replaces the item with the same identifier or appends a new one. */
  lemma StoreShape(evidence: seq<Evidence>, item: Evidence) returns (k: nat)
    ensures k <= |evidence|
    ensures k < |evidence| ==> evidence[k].id == item.id && Store(evidence, item) == evidence[k := item]
    ensures k == |evidence| ==> item.id !in Ids(evidence) && Store(evidence, item) == evidence + [item]
  {
    if evidence == [] || evidence[0].id == item.id {
      k := 0;
    } else {
      var rest := evidence[1..];
      var j := StoreShape(rest, item);
      k := j + 1;
      if k == |evidence| {
        forall i | 0 <= i < |evidence| ensures evidence[i].id != item.id {
          if i > 0 { assert rest[i - 1].id in Ids(rest); }
        }
      }
    }
  }

  lemma {:induction false} StoreProperties(evidence: seq<Evidence>, item: Evidence)
    requires DistinctIds(evidence)
    ensures DistinctIds(Store(evidence, item))
    ensures forall e :: e in Store(evidence, item) ==> e in evidence || e == item
    ensures item.id !in Ids(evidence) ==> Store(evidence, item) == evidence + [item]
  {
    var k := StoreShape(evidence, item);
    if k == |evidence| {
      forall i | 0 <= i < |evidence| ensures evidence[i].id != item.id {
        assert evidence[i].id in Ids(evidence);
      }
    } else {
      assert evidence[k].id in Ids(evidence);
    }
  }

  lemma {:induction false} StoreAllProperties(evidence: seq<Evidence>, items: seq<Evidence>)
    requires DistinctIds(evidence)
    ensures DistinctIds(StoreAll(evidence, items))
    ensures forall e :: e in StoreAll(evidence, items) ==> e in evidence || e in items
    decreases |items|
  {
    if items != [] {
      StoreProperties(evidence, items[0]);
      StoreAllProperties(Store(evidence, items[0]), items[1..]);
    }
  }

  lemma OpenSane(limits: Limits, env: Env)
    ensures Open(env).Opened? ==> Sane(limits, Open(env).core) && Open(env).core.steps == 0
    ensures Open(env).Refused? ==> Persistable(limits, Open(env).outcome)
  {
    if Open(env).Opened? {
      InitialProgresses(Open(env).core.decision);
    }
  }

  lemma StopPersistable(limits: Limits, c: Core, status: TerminalStatus, reason: StoppingReason)
    requires Resting(limits, c)
    ensures Persistable(limits, Stop(c, status, reason))
    ensures Persistable(limits, Stop(c, status, reason).(proposal := true))
  {
  }

  lemma FinalizePersistable(limits: Limits, env: Env, c: Core)
    requires Sane(limits, c)
    ensures FinalizeAnswer(env, c).Halt? ==> Persistable(limits, FinalizeAnswer(env, c).outcome)
  {
    if c.evidence != [] && env.finalize(c.evidence).Replied? {
      var draft := env.finalize(c.evidence).value;
      if Judge(draft, c.evidence).Validated? {
        AcceptedIsSound(draft, c.evidence);
      }
    }
  }

  lemma GatePersistable(limits: Limits, env: Env, c: Core)
    requires Sane(limits, c)
    ensures Gate(limits, env, c).Halt? ==> Persistable(limits, Gate(limits, env, c).outcome)
  {
    hide Persistable, Resting;
    var g := Gate(limits, env, c);
    if g.Halt? {
      if c.decision.next.kind.Finalize? {
        FinalizePersistable(limits, env, c);
      } else {
        assert g.outcome == Stop(c, g.outcome.status, g.outcome.reason);
        StopPersistable(limits, c, g.outcome.status, g.outcome.reason);
      }
    }
  }

  /** A tool call that is due: its step is the next position of the plan and its key is new. */
  ghost predicate Due(limits: Limits, env: Env, c: Core, tool: string, step: Step) {
    Sane(limits, c) && env.permitted <= APPROVED_TOOLS && Gate(limits, env, c) == Act(tool, step)
  }

  lemma GateNames(limits: Limits, env: Env, c: Core)
    ensures Gate(limits, env, c).Act? ==> c.decision.next.name == Some(Gate(limits, env, c).tool)
    ensures Gate(limits, env, c).Act? ==> c.steps < limits.maxSteps
  {
    hide Validate, FinalizeAnswer;
  }

  /** One more step at the next position keeps the step list good. */
  lemma AppendStep(limits: Limits, env: Env, c: Core, tool: string, step: Step, safe: SafeStep)
    requires Due(limits, env, c, tool, step)
    requires safe.planVersion == c.plan.current.version && safe.stepIndex == step.index
    requires safe.tool == tool && safe.key == c.decision.next.Key()
    ensures GoodSteps(c.safeSteps + [safe], c.plan.versions)
    ensures step.index == FirstPending(c.plan.current.steps)
    ensures Searches(c.safeSteps + [safe]) == c.retrievals + (if tool == SEARCH_DOCUMENTS then 1 else 0)
              <= 1 + limits.maxRewrites
    ensures c.decision.next.Key() !in c.plan.executed
  {
    var steps := c.safeSteps + [safe];
    assert c.plan.versions[|c.plan.versions| - 1].Valid();
    assert steps[..|steps| - 1] == c.safeSteps;
  }

  lemma FailedCallPersistable(limits: Limits, env: Env, c: Core, tool: string, step: Step, timedOut: bool)
    requires Due(limits, env, c, tool, step)
    ensures Persistable(limits, FailedCall(c, tool, step, timedOut))
  {
    var o := FailedCall(c, tool, step, timedOut);
    AppendStep(limits, env, c, tool, step, o.safeSteps[|o.safeSteps| - 1]);
  }

  /** Recording an observation, before its status is looked at. */
  lemma RecordKeeps(limits: Limits, env: Env, c: Core, tool: string, step: Step, o: Observation)
    requires Due(limits, env, c, tool, step) && |o.evidence| <= MAX_OBSERVED_EVIDENCE
    ensures var r := Record(c, tool, step, o);
            && GoodSteps(r.safeSteps, c.plan.versions)
            && |r.safeSteps| == |r.safeObservations| == r.steps == c.steps + 1 <= limits.maxSteps
            && r.retrievals == Searches(r.safeSteps) <= 1 + limits.maxRewrites
            && (forall i :: 0 <= i < |c.safeSteps| ==> r.safeSteps[i] == c.safeSteps[i])
            && (forall i :: 0 <= i < |c.safeObservations| ==> r.safeObservations[i] == c.safeObservations[i])
            && Small(r.safeObservations[c.steps]) && r.safeObservations[c.steps].status == o.status
            && (forall id :: Observed(c.safeObservations, id) ==> Observed(r.safeObservations, id))
            && (o.status == Success ==> forall e :: e in o.evidence ==> Observed(r.safeObservations, e.id))
  {
    var r := Record(c, tool, step, o);
    SaneSizes(limits, c);
    GateNames(limits, env, c);
    SnapshotSmall(o);
    ObservedStays(c.safeObservations, o);
    AppendStep(limits, env, c, tool, step, r.safeSteps[|c.safeSteps|]);
    hide Due, Searches, GoodSteps, Observed, Small, Snapshot;
  }

  lemma SaneSizes(limits: Limits, c: Core)
    requires Sane(limits, c)
    ensures |c.safeSteps| == |c.safeObservations| == c.steps
  {
  }

  lemma SnapshotSmall(o: Observation)
    requires |o.evidence| <= MAX_OBSERVED_EVIDENCE
    ensures Small(Snapshot(o)) && Snapshot(o).status == o.status
  {
  }

  /** What was observed stays observed, and a success adds its own evidence. */
  lemma ObservedStays(observations: seq<SafeObservation>, o: Observation)
    ensures forall id :: Observed(observations, id) ==> Observed(observations + [Snapshot(o)], id)
    ensures o.status == Success ==> forall e :: e in o.evidence ==> Observed(observations + [Snapshot(o)], e.id)
  {
    var all := observations + [Snapshot(o)];
    forall id | Observed(observations, id) ensures Observed(all, id) {
      var i :| 0 <= i < |observations| && observations[i].status == Success && id in observations[i].citations;
      assert all[i] == observations[i];
    }
    if o.status == Success {
      forall e | e in o.evidence ensures Observed(all, e.id) {
        var j :| 0 <= j < |o.evidence| && o.evidence[j] == e;
        assert all[|observations|].citations[j] == e.id;
      }
    }
  }

  /** The state after a successful observation, before the next decision is taken. */
  function Advanced(c: Core, tool: string, step: Step, o: Observation): Core
    requires c.plan.versions != [] && CompleteNext(c.plan, c.decision.next).Ok?
  {
    var plan := CompleteNext(c.plan, c.decision.next).value;
    Record(c, tool, step, o).(evidence := StoreAll(c.evidence, o.evidence), plan := plan, plans := plan.versions)
  }

  lemma AdvanceRests(limits: Limits, env: Env, c: Core, tool: string, step: Step, o: Observation)
    requires Due(limits, env, c, tool, step) && |o.evidence| <= MAX_OBSERVED_EVIDENCE && o.status == Success
    ensures Progressing(c.plan) && Validate(c.plan, c.decision.next).Ok?
    ensures CompleteNext(c.plan, c.decision.next).Ok?
    ensures Resting(limits, Advanced(c, tool, step, o))
    ensures forall e :: e in o.evidence ==> Observed(Advanced(c, tool, step, o).safeObservations, e.id)
  {
    CompleteProgresses(c.plan, c.decision.next);
    RecordKeeps(limits, env, c, tool, step, o);
    StoreAllProperties(c.evidence, o.evidence);
    var a := Advanced(c, tool, step, o);
    AppendStep(limits, env, c, tool, step, a.safeSteps[c.steps]);
    forall i | 0 <= i < |a.safeSteps|
      ensures Before(a.safeSteps[i].planVersion, a.safeSteps[i].stepIndex, a.plan.current.version,
                     FirstPending(a.plan.current.steps))
      ensures a.safeSteps[i].key in a.plan.executed
    {
      if i < c.steps { assert a.safeSteps[i] == c.safeSteps[i]; }
    }
    forall i | 0 <= i < |a.safeObservations|
      ensures a.safeObservations[i].status == Success && Small(a.safeObservations[i])
    {
      if i < c.steps { assert a.safeObservations[i] == c.safeObservations[i]; }
    }
  }

  lemma CalculationsPersistable(limits: Limits, c: Core, o: Observation)
    requires Resting(limits, c) && forall e :: e in o.evidence ==> Observed(c.safeObservations, e.id)
    ensures Persistable(limits, FinalizeCalculations(c, o))
    ensures FinalizeCalculations(c, o).status == RunCompleted ==> FinalizeCalculations(c, o).citations == o.evidence
  {
    var f := FinalizeCalculations(c, o);
    StopPersistable(limits, c, RunCompleted, Finished);
    if f.status == RunCompleted {
      assert f.claims[0].ids != [] by { assert |f.claims[0].ids| == |o.calculations[0].inputs|; }
      forall x | x in f.claims[0].ids ensures x in Ids(f.citations) {
        var i :| 0 <= i < |f.claims[0].ids| && f.claims[0].ids[i] == x;
        assert f.citations[i].id == x;
      }
      forall x | x in Ids(f.citations) ensures x in f.claims[0].ids {
        var i :| 0 <= i < |f.citations| && f.citations[i].id == x;
        assert f.claims[0].ids[i] == x;
      }
    }
  }

  /** The outcome carries exactly this history. */
  predicate Keeps(c: Core, o: Outcome) {
    o.safeSteps == c.safeSteps && o.safeObservations == c.safeObservations
  }

  lemma FinalizeKeepsSteps(c: Core, o: Observation)
    ensures Keeps(c, FinalizeCalculations(c, o))
  {
  }

  lemma DeliberateSane(limits: Limits, env: Env, c: Core, o: Observation)
    requires Resting(limits, c)
    ensures var a := Deliberate(limits, env, c, o);
            && (a.Broken? <==> Upsets(limits, env, c, o))
            && (a.Halted? ==> Persistable(limits, a.outcome) && Keeps(c, a.outcome))
            && (a.Continue? ==> Sane(limits, a.core) && a.core.steps == c.steps && a.core.safeSteps == c.safeSteps &&
                                a.core.plan.executed == c.plan.executed &&
                                a.core.evidence == c.evidence && a.core.safeObservations == c.safeObservations)
  {
    hide ApplyDecision, Observed, Searches;
    var a := Deliberate(limits, env, c, o);
    if a.Halted? {
      StopPersistable(limits, c, a.outcome.status, a.outcome.reason);
      assert a.outcome == Stop(c, a.outcome.status, a.outcome.reason).(replans := a.outcome.replans);
    } else if a.Continue? {
      ApplyProgresses(c.plan, a.core.decision);
    }
  }

  lemma RecordStops(limits: Limits, env: Env, c: Core, tool: string, step: Step, o: Observation,
                    status: TerminalStatus, reason: StoppingReason)
    requires Due(limits, env, c, tool, step) && |o.evidence| <= MAX_OBSERVED_EVIDENCE
    ensures Persistable(limits, Stop(Record(c, tool, step, o), status, reason))
  {
    RecordKeeps(limits, env, c, tool, step, o);
  }

  /** How an iteration leaves the loop variables when it goes on. */
  predicate Extends(c: Core, tool: string, step: Step, o: Observation, c': Core) {
    && c'.steps == c.steps + 1
    && c'.safeSteps == Record(c, tool, step, o).safeSteps
    && c'.safeObservations == c.safeObservations + [Snapshot(o)]
    && c'.evidence == StoreAll(c.evidence, o.evidence)
    && c'.plan.executed == c.plan.executed + {c.decision.next.Key()}
  }

  /** A run goes on after this result of the tool, if the providers let it. */
  predicate AsksProviders(tool: string, o: Observation) {
    o.status == Success && o.calculations == [] && tool != SEARCH_MEMORY && tool != PROPOSE_MEMORY
  }

  /** After this observation a provider is asked, and raises something unexpected. */
  predicate UpsetBy(limits: Limits, env: Env, c: Core, tool: string, step: Step, o: Observation) {
    && AsksProviders(tool, o) && c.plan.versions != [] && CompleteNext(c.plan, c.decision.next).Ok?
    && Upsets(limits, env, Advanced(c, tool, step, o), o)
  }

  lemma SuccessSane(limits: Limits, env: Env, c: Core, tool: string, step: Step, o: Observation)
    requires Due(limits, env, c, tool, step) && |o.evidence| <= MAX_OBSERVED_EVIDENCE && o.status == Success
    ensures var a := Absorb(limits, env, c, tool, step, o);
            && (a.Broken? <==> UpsetBy(limits, env, c, tool, step, o))
            && (a.Halted? ==> Persistable(limits, a.outcome) && Keeps(Record(c, tool, step, o), a.outcome))
            && (a.Continue? ==> Sane(limits, a.core) && Extends(c, tool, step, o, a.core))
  {
    hide Persistable, Resting, Gate, Validate, Deliberate, FinalizeCalculations, StoreAll, Snapshot, Observed;
    AdvanceRests(limits, env, c, tool, step, o);
    CompleteProgresses(c.plan, c.decision.next);
    var d := Advanced(c, tool, step, o);
    var a := Absorb(limits, env, c, tool, step, o);
    if o.calculations != [] {
      CalculationsPersistable(limits, d, o);
      FinalizeKeepsSteps(d, o);
      assert a == Halted(FinalizeCalculations(d, o));
    } else if tool == SEARCH_MEMORY {
      StopPersistable(limits, d, RunCompleted, Finished);
      assert a == Halted(Stop(d, RunCompleted, Finished));
    } else if tool == PROPOSE_MEMORY {
      GateNames(limits, env, c);
      StopPersistable(limits, d, RunCompleted, Finished);
      assert a == Halted(Stop(d, RunCompleted, Finished).(proposal := true));
    } else {
      DeliberateSane(limits, env, d, o);
      assert a == Deliberate(limits, env, d, o);
    }
  }

  /**
   The tail of an iteration breaks only on an oversized observation or a provider's unexpected exception; otherwise all
   guarantees carry over.
   */
  lemma AbsorbSane(limits: Limits, env: Env, c: Core, tool: string, step: Step, o: Observation)
    requires Due(limits, env, c, tool, step)
    ensures var a := Absorb(limits, env, c, tool, step, o);
            && (a.Broken? <==> |o.evidence| > MAX_OBSERVED_EVIDENCE || UpsetBy(limits, env, c, tool, step, o))
            && (a.Halted? ==> Persistable(limits, a.outcome) && Keeps(Record(c, tool, step, o), a.outcome))
            && (a.Continue? ==> Sane(limits, a.core) && o.status == Success && Extends(c, tool, step, o, a.core))
  {
    if |o.evidence| <= MAX_OBSERVED_EVIDENCE {
      if o.status == Success {
        SuccessSane(limits, env, c, tool, step, o);
      } else {
        var a := Absorb(limits, env, c, tool, step, o);
        RecordStops(limits, env, c, tool, step, o, a.outcome.status, a.outcome.reason);
        assert a == Halted(Stop(Record(c, tool, step, o), a.outcome.status, a.outcome.reason));
      }
    }
  }
}
