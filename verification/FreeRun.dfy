/**
 The run that is never interrupted, and how resumed passes follow it step by step.
 */
module FreeRun {
  import opened Wrappers
  import opened AgentTypes
  import opened Gateway
  import opened PlanState
  import opened AgentLoop
  import opened LoopSafety
  import opened PassSafety
  import opened RunHistory
  import opened Approvals

  /** One iteration without replay and without pausing. */
  function FreeTurn(limits: Limits, env: Env, c: Core, n: nat): TurnResult {
    match Gate(limits, env, c)
    case Halt(outcome) => Ends(Terminal(outcome), [])
    case Broke => Ends(Crash, [])
    case Act(tool, step) => Call(limits, env, c, Cursor(0, None, n), tool, step)
  }

  lemma FreeTurnSteps(limits: Limits, env: Env, c: Core, n: nat)
    ensures var t := FreeTurn(limits, env, c, n);
            t.Goes? ==> c.steps < limits.maxSteps && t.core.steps == c.steps + 1
  {
    hide Absorb, FailedCall, Observe, FinalizeAnswer;
    GateNames(limits, env, c);
    var gate := Gate(limits, env, c);
    if gate.Act? && env.tool(c.decision.next).Answered? {
      AbsorbSteps(limits, env, c, gate.tool, gate.step, Observe(env.tool(c.decision.next).result, n));
    }
  }

  function FreeFrom(limits: Limits, env: Env, c: Core, n: nat): Pass
    decreases limits.maxSteps - c.steps
  {
    FreeTurnSteps(limits, env, c, n);
    match FreeTurn(limits, env, c, n)
    case Ends(ending, executed) => Pass(ending, executed)
    case Goes(core, cursor, executed) =>
      var rest := FreeFrom(limits, env, core, cursor.numbering);
      Pass(rest.ending, executed + rest.executed)
  }

  /** The whole uninterrupted run. */
  function Unattended(limits: Limits, env: Env): Pass {
    match Open(env)
    case Refused(outcome) => Pass(Terminal(outcome), [])
    case Unopened => Pass(Crash, [])
    case Opened(core) => FreeFrom(limits, env, core, 0)
  }

  datatype Point = Point(core: Core, numbering: nat)

  /** The uninterrupted run after `k` more steps, if it gets that far. */
  function After(limits: Limits, env: Env, p: Point, k: nat): Option<Point>
    decreases k
  {
    if k == 0 then Some(p)
    else
      var t := FreeTurn(limits, env, p.core, p.numbering);
      if t.Goes? then After(limits, env, Point(t.core, t.cursor.numbering), k - 1) else None
  }

  /** Results after which the run goes on at all. */
  predicate MayContinue(action: Action, result: ToolResult) {
    && result.status == Success
    && !(result.payload.Results? && result.payload.calculations != [])
    && action.name != Some(SEARCH_MEMORY) && action.name != Some(PROPOSE_MEMORY)
  }

  function RowsOf(plans: seq<Plan>): seq<PlanRow> {
    NewRows(plans, 0)
  }

  /** The stored form of the history of a run in progress. */
  function HistoryAt(c: Core): History {
    History(RowsOf(c.plan.versions), NewSteps(c.safeSteps, c.safeObservations, 0), |c.plan.versions|)
  }

  /** The later history continues the earlier one. */
  predicate Continues(c: Core, steps: seq<SafeStep>, observations: seq<SafeObservation>, plans: seq<Plan>) {
    c.safeSteps <= steps && c.safeObservations <= observations && RowsOf(c.plans) <= RowsOf(plans)
  }

  // ---------------------------------------------------------------- one step

  lemma CompleteKeepsRows(s: State, action: Action)
    requires Progressing(s) && Validate(s, action).Ok?
    ensures CompleteNext(s, action).Ok? && RowsOf(CompleteNext(s, action).value.versions) == RowsOf(s.versions)
  {
    CompleteProgresses(s, action);
    var s' := CompleteNext(s, action).value;
    var n := |s.versions|;
    assert s'.versions == s.versions[..n - 1] + [s'.current];
    assert RowOf(s'.current) == RowOf(s.versions[n - 1]);
  }

  lemma AppliedRows(s: State, decision: Decision)
    requires Progressing(s) && ApplyDecision(s, decision).Ok?
    ensures RowsOf(s.versions) <= RowsOf(ApplyDecision(s, decision).value.0.versions)
  {
    ApplyProgresses(s, decision);
  }

  lemma DeliberateContinues(limits: Limits, env: Env, c: Core, o: Observation)
    requires Resting(limits, c)
    ensures var a := Deliberate(limits, env, c, o);
            && (a.Halted? ==> Continues(c, a.outcome.safeSteps, a.outcome.safeObservations, a.outcome.plans))
            && (a.Continue? ==> Continues(c, a.core.safeSteps, a.core.safeObservations, a.core.plans))
  {
    hide ApplyDecision, Progressing, RowsOf, GoodSteps;
    var a := Deliberate(limits, env, c, o);
    if a.Continue? {
      assert ApplyDecision(c.plan, a.core.decision).Ok?;
      AppliedRows(c.plan, a.core.decision);
    }
  }

  /** What an iteration does to the history: one more step, one more observation, plan rows only added. */
  lemma AbsorbContinues(limits: Limits, env: Env, c: Core, tool: string, step: Step, o: Observation)
    requires Due(limits, env, c, tool, step)
    ensures var a := Absorb(limits, env, c, tool, step, o);
            && (a.Halted? ==> Continues(c, a.outcome.safeSteps, a.outcome.safeObservations, a.outcome.plans))
            && (a.Continue? ==> Continues(c, a.core.safeSteps, a.core.safeObservations, a.core.plans))
  {
    hide Persistable, Resting, Gate, Deliberate, FinalizeCalculations, StoreAll, Snapshot, RowsOf, Validate;
    if |o.evidence| <= MAX_OBSERVED_EVIDENCE && o.status == Success {
      AdvanceRests(limits, env, c, tool, step, o);
      CompleteKeepsRows(c.plan, c.decision.next);
      var d := Advanced(c, tool, step, o);
      DeliberateContinues(limits, env, d, o);
      CalculationsKeep(d, o);
      SanePlans(limits, c);
    }
  }

  lemma SanePlans(limits: Limits, c: Core)
    requires Sane(limits, c)
    ensures c.plans == c.plan.versions
  {
  }

  lemma CalculationsKeep(c: Core, o: Observation)
    ensures Keeps(c, FinalizeCalculations(c, o)) && FinalizeCalculations(c, o).plans == c.plans
  {
  }

  /** The tool result and the observation behind a step that goes on. */
  ghost predicate StepBy(env: Env, c: Core, n: nat, tool: string, result: ToolResult, c': Core) {
    && env.tool(c.decision.next) == Answered(result) && MayContinue(c.decision.next, result)
    && c.decision.next.name == Some(tool)
    && |c'.safeSteps| == |c.safeSteps| + 1
    && c'.safeSteps[|c.safeSteps|].tool == tool && c'.safeSteps[|c.safeSteps|].key == c.decision.next.Key()
    && c'.safeSteps == c.safeSteps + [c'.safeSteps[|c.safeSteps|]]
    && c'.safeObservations == c.safeObservations + [Snapshot(Observe(result, n))]
  }

  lemma FreeTurnGoes(limits: Limits, env: Env, c: Core, n: nat) returns (tool: string, step: Step, result: ToolResult)
    requires Sane(limits, c) && env.permitted <= APPROVED_TOOLS && FreeTurn(limits, env, c, n).Goes?
    ensures var t := FreeTurn(limits, env, c, n);
            && Gate(limits, env, c) == Act(tool, step)
            && Sane(limits, t.core) && Continues(c, t.core.safeSteps, t.core.safeObservations, t.core.plans)
            && StepBy(env, c, n, tool, result, t.core)
            && t.executed == [c.decision.next.Key()]
            && t.cursor.numbering == n + |Observe(result, n).evidence|
            && Absorb(limits, env, c, tool, step, Observe(result, n)) == Continue(t.core)
  {
    hide Persistable, Resting, Validate, FinalizeAnswer, Absorb, Observe, FailedCall, Continues, Snapshot;
    var gate := Gate(limits, env, c);
    tool, step, result := gate.tool, gate.step, env.tool(c.decision.next).result;
    var o := Observe(result, n);
    AbsorbSane(limits, env, c, tool, step, o);
    AbsorbContinues(limits, env, c, tool, step, o);
    ContinuesOnlyThen(limits, env, c, tool, step, o);
    ObserveParts(result, n);
    GateNames(limits, env, c);
    var safe := StepFor(c, tool, step, SafeStatus(o.status), o.status != Denied, o.reason);
    assert FreeTurn(limits, env, c, n).core.safeSteps == c.safeSteps + [safe];
  }

  lemma ObserveParts(result: ToolResult, n: nat)
    ensures Observe(result, n).status == result.status
    ensures Observe(result, n).calculations == if result.payload.Results? then result.payload.calculations else []
  {
  }

  lemma FreeTurnEnds(limits: Limits, env: Env, c: Core, n: nat)
    requires Sane(limits, c) && env.permitted <= APPROVED_TOOLS && FreeTurn(limits, env, c, n).Ends?
    ensures var t := FreeTurn(limits, env, c, n);
            && (t.ending.Terminal? || t.ending.Crash?)
            && (t.ending.Terminal? ==>
                  && Persistable(limits, t.ending.outcome)
                  && Continues(c, t.ending.outcome.safeSteps, t.ending.outcome.safeObservations, t.ending.outcome.plans))
  {
    hide Persistable, Resting, Validate, Absorb, Observe, RowsOf, FinalizeAnswer;
    var gate := Gate(limits, env, c);
    GatePersistable(limits, env, c);
    GateKeepsSteps(limits, env, c);
    GateKeepsPlans(limits, env, c);
    if gate.Act? {
      match env.tool(c.decision.next)
      case DeadlineExceeded => FailedCallPersistable(limits, env, c, gate.tool, gate.step, true);
      case Raised => FailedCallPersistable(limits, env, c, gate.tool, gate.step, false);
      case Answered(result) =>
        AbsorbSane(limits, env, c, gate.tool, gate.step, Observe(result, n));
        AbsorbContinues(limits, env, c, gate.tool, gate.step, Observe(result, n));
    }
  }

  lemma GateKeepsPlans(limits: Limits, env: Env, c: Core)
    ensures Gate(limits, env, c).Halt? ==> Gate(limits, env, c).outcome.plans == c.plans
  {
    hide Validate;
  }

  // ---------------------------------------------------------------- many steps

  /** The records that the next `k` steps of the uninterrupted run would leave. */
  function Trail(limits: Limits, env: Env, p: Point, k: nat): seq<Recorded>
    decreases k
  {
    var t := FreeTurn(limits, env, p.core, p.numbering);
    var action := p.core.decision.next;
    if k == 0 || !t.Goes? || !env.tool(action).Answered? then []
    else
      [Recorded(action.Key(), Observe(env.tool(action).result, p.numbering))] +
      Trail(limits, env, Point(t.core, t.cursor.numbering), k - 1)
  }

  /** Every excerpt behind the observation can be read again as it was. */
  predicate Rereadable(o: Observation, fetch: Fetch) {
    forall i :: 0 <= i < |o.evidence| ==>
      fetch(o.evidence[i].source.document, o.evidence[i].source.chunk) == Some(o.evidence[i].source)
  }

  predicate AllRereadable(trail: seq<Recorded>, fetch: Fetch) {
    forall i :: 0 <= i < |trail| ==> Rereadable(trail[i].observation, fetch)
  }

  /** The excerpts that the uninterrupted run observes before it ends are still there, unchanged, when it is resumed. */
  ghost predicate Faithful(limits: Limits, env: Env, fetch: Fetch) {
    Open(env).Opened? ==> forall k: nat :: AllRereadable(Trail(limits, env, Point(Open(env).core, 0), k), fetch)
  }

  lemma ContinuesTransitive(c: Core, d: Core, steps: seq<SafeStep>, observations: seq<SafeObservation>, plans: seq<Plan>)
    requires Continues(c, d.safeSteps, d.safeObservations, d.plans) && Continues(d, steps, observations, plans)
    ensures Continues(c, steps, observations, plans)
  {
  }

  /** The remaining steps start at `next`, after `x` was recorded. */
  ghost predicate Leads(limits: Limits, env: Env, p: Point, k: nat, next: Point, x: Recorded)
    requires k > 0
  {
    && (var t := FreeTurn(limits, env, p.core, p.numbering);
        t.Goes? && next == Point(t.core, t.cursor.numbering) && t.executed == [x.key])
    && After(limits, env, next, k - 1) == After(limits, env, p, k)
    && Trail(limits, env, p, k) == [x] + Trail(limits, env, next, k - 1)
  }

  /** The first of several steps: where it leads and what it records. */
  lemma FirstStep(limits: Limits, env: Env, p: Point, k: nat)
    returns (next: Point, x: Recorded, tool: string, result: ToolResult)
    requires Sane(limits, p.core) && env.permitted <= APPROVED_TOOLS && k > 0 && After(limits, env, p, k).Some?
    ensures Sane(limits, next.core) && next.core.steps == p.core.steps + 1
    ensures Continues(p.core, next.core.safeSteps, next.core.safeObservations, next.core.plans)
    ensures StepBy(env, p.core, p.numbering, tool, result, next.core)
    ensures x == Recorded(p.core.decision.next.Key(), Observe(result, p.numbering))
    ensures next.numbering == p.numbering + |x.observation.evidence|
    ensures Leads(limits, env, p, k, next, x)
  {
    hide Resting, FreeTurn, Observe, Continues, Snapshot;
    FreeTurnSteps(limits, env, p.core, p.numbering);
    var step: Step;
    tool, step, result := FreeTurnGoes(limits, env, p.core, p.numbering);
    var t := FreeTurn(limits, env, p.core, p.numbering);
    next, x := Point(t.core, t.cursor.numbering), Recorded(p.core.decision.next.Key(), Observe(result, p.numbering));
  }

  /** Along the uninterrupted run the invariant holds and histories only grow. */
  lemma {:induction false} AfterSane(limits: Limits, env: Env, p: Point, k: nat)
    requires Sane(limits, p.core) && env.permitted <= APPROVED_TOOLS && After(limits, env, p, k).Some?
    ensures var q := After(limits, env, p, k).value;
            && Sane(limits, q.core) && q.core.steps == p.core.steps + k
            && Continues(p.core, q.core.safeSteps, q.core.safeObservations, q.core.plans)
    decreases k
  {
    hide Sane, FreeTurn, StepBy, Continues, Trail, Observe, Leads;
    if k == 0 {
      ContinuesItself(p.core);
    } else {
      var next, x, tool, result := FirstStep(limits, env, p, k);
      LeadsOn(limits, env, p, k, next, x);
      AfterSane(limits, env, next, k - 1);
      var q := After(limits, env, p, k).value;
      ContinuesTransitive(p.core, next.core, q.core.safeSteps, q.core.safeObservations, q.core.plans);
    }
  }

  lemma {:induction false} LeadsOn(limits: Limits, env: Env, p: Point, k: nat, next: Point, x: Recorded)
    requires k > 0 && Leads(limits, env, p, k, next, x)
    ensures After(limits, env, next, k - 1) == After(limits, env, p, k)
  {
    hide FreeTurn, Trail;
  }

  lemma ContinuesItself(c: Core)
    ensures Continues(c, c.safeSteps, c.safeObservations, c.plans)
  {
  }

  lemma {:induction false} HeadRecord(x: Recorded, tail: seq<Recorded>)
    ensures RecordedKeys([x] + tail) == [x.key] + RecordedKeys(tail)
    ensures EvidenceCount([x] + tail) == |x.observation.evidence| + EvidenceCount(tail)
  {
    HeadKey(x, tail);
    hide RecordedKeys;
    assert ([x] + tail)[1..] == tail;
  }

  lemma HeadKey(x: Recorded, tail: seq<Recorded>)
    ensures RecordedKeys([x] + tail) == [x.key] + RecordedKeys(tail)
  {
  }

  lemma NoEvidence()
    ensures EvidenceCount([]) == 0
  {
  }

  /** The trail accounts for the new steps and the evidence numbers they used. */
  lemma {:induction false} AfterAccounts(limits: Limits, env: Env, p: Point, k: nat)
    requires Sane(limits, p.core) && env.permitted <= APPROVED_TOOLS && After(limits, env, p, k).Some?
    ensures var q, trail := After(limits, env, p, k).value, Trail(limits, env, p, k);
            && Keys(q.core.safeSteps) == Keys(p.core.safeSteps) + RecordedKeys(trail)
            && q.numbering == p.numbering + EvidenceCount(trail)
            && |trail| == k
    decreases k
  {
    hide Sane, FreeTurn, Continues, Observe, Snapshot, MayContinue, EvidenceCount, Vet;
    if k == 0 {
      assert EvidenceCount([]) == 0 by { NoEvidence(); }
    } else {
      var next, x, tool, result := FirstStep(limits, env, p, k);
      AfterAccounts(limits, env, next, k - 1);
      HeadRecord(x, Trail(limits, env, next, k - 1));
      assert Keys(next.core.safeSteps) == Keys(p.core.safeSteps) + [x.key];
      hide Trail, After, RecordedKeys, Keys, Leads;
    }
  }

  lemma SnapshotParts(o: Observation)
    ensures var s := Snapshot(o);
            && |s.documents| == |s.chunks| == |s.citations| == |o.evidence|
            && forall i :: 0 <= i < |o.evidence| ==>
                 s.documents[i] == o.evidence[i].source.document && s.chunks[i] == o.evidence[i].source.chunk && s.citations[i] == o.evidence[i].id
  {
  }

  /** How fetching unfolds when the next excerpt is there. */
  lemma {:induction false} FetchUnfolds(s: SafeObservation, fetch: Fetch, from: nat, source: Source, rest: seq<Evidence>)
    requires |s.documents| == |s.chunks| == |s.citations| && from < |s.citations|
    requires fetch(s.documents[from], s.chunks[from]) == Some(source) && FetchAll(s, fetch, from + 1) == Some(rest)
    ensures FetchAll(s, fetch, from) == Some([Evidence(s.citations[from], source)] + rest)
  {
  }

  lemma TailUnfolds(evidence: seq<Evidence>, from: nat)
    requires from < |evidence|
    ensures [Evidence(evidence[from].id, evidence[from].source)] + evidence[from + 1..] == evidence[from..]
  {
  }

  lemma {:induction false} FetchSnapshot(o: Observation, fetch: Fetch, from: nat)
    requires from <= |o.evidence|
    requires forall i :: 0 <= i < |o.evidence| ==>
               fetch(o.evidence[i].source.document, o.evidence[i].source.chunk) == Some(o.evidence[i].source)
    ensures |Snapshot(o).documents| == |Snapshot(o).chunks| == |Snapshot(o).citations| == |o.evidence|
    ensures FetchAll(Snapshot(o), fetch, from) == Some(o.evidence[from..])
    decreases |o.evidence| - from
  {
    SnapshotParts(o);
    hide Snapshot;
    if from < |o.evidence| {
      FetchSnapshot(o, fetch, from + 1);
      FetchUnfolds(Snapshot(o), fetch, from, o.evidence[from].source, o.evidence[from + 1..]);
      TailUnfolds(o.evidence, from);
    } else {
      assert o.evidence[from..] == [];
    }
  }

  /** The record rebuilt from a stored step is the record the step would have left. */
  lemma RebuildExact(env: Env, fetch: Fetch, c: Core, n: nat, tool: string, result: ToolResult, c': Core, safe: SafeStep)
    requires StepBy(env, c, n, tool, result, c') && Rereadable(Observe(result, n), fetch)
    requires safe.tool == tool && safe.key == c.decision.next.Key()
    ensures Rebuild(StoredStep(safe, Some(Snapshot(Observe(result, n)))), fetch)
         == Some(Recorded(c.decision.next.Key(), Observe(result, n)))
  {
    var o := Observe(result, n);
    OnlyExcerptsContinue(env, c.decision.next);
    FetchSnapshot(o, fetch, 0);
    assert o.evidence[0..] == o.evidence;
  }

  lemma HeadRereadable(x: Recorded, rest: seq<Recorded>, fetch: Fetch)
    requires AllRereadable([x] + rest, fetch)
    ensures Rereadable(x.observation, fetch) && AllRereadable(rest, fetch)
  {
    var all := [x] + rest;
    assert Rereadable(all[0].observation, fetch);
    forall i | 0 <= i < |rest| ensures Rereadable(rest[i].observation, fetch) {
      assert all[i + 1] == rest[i];
    }
  }

  lemma {:induction false} ReconstructAppend(steps: seq<StoredStep>, s: StoredStep, fetch: Fetch, r: seq<Recorded>, x: Recorded)
    requires Reconstruct(steps, fetch) == Some(r) && Rebuild(s, fetch) == Some(x)
    ensures Reconstruct(steps + [s], fetch) == Some(r + [x])
  {
    hide Rebuild;
    assert (steps + [s])[..|steps|] == steps;
  }

  lemma HistoryAppend(limits: Limits, c: Core, c': Core, safe: SafeStep, o: SafeObservation)
    requires Sane(limits, c)
    requires c'.safeSteps == c.safeSteps + [safe] && c'.safeObservations == c.safeObservations + [o]
    ensures HistoryAt(c').steps == HistoryAt(c).steps + [StoredStep(safe, Some(o))]
  {
  }

  /** Reconstruction of the stored history gives exactly the trail of the uninterrupted run. */
  lemma {:induction false} TrailRebuilt(limits: Limits, env: Env, fetch: Fetch, p: Point, k: nat, r: seq<Recorded>)
    requires Sane(limits, p.core) && env.permitted <= APPROVED_TOOLS && AllRereadable(Trail(limits, env, p, k), fetch)
    requires After(limits, env, p, k).Some? && Reconstruct(HistoryAt(p.core).steps, fetch) == Some(r)
    ensures Reconstruct(HistoryAt(After(limits, env, p, k).value.core).steps, fetch)
         == Some(r + Trail(limits, env, p, k))
    decreases k
  {
    hide Resting, FreeTurn, Observe, Rebuild, Reconstruct, HistoryAt, Snapshot, AllRereadable, Rereadable, MayContinue, Continues;
    if k == 0 {
      assert r + [] == r;
    } else {
      var next, x, tool, result := FirstStep(limits, env, p, k);
      var safe, o := next.core.safeSteps[|p.core.safeSteps|], Snapshot(x.observation);
      HeadRereadable(x, Trail(limits, env, next, k - 1), fetch);
      RebuildExact(env, fetch, p.core, p.numbering, tool, result, next.core, safe);
      HistoryAppend(limits, p.core, next.core, safe, o);
      ReconstructAppend(HistoryAt(p.core).steps, StoredStep(safe, Some(o)), fetch, r, x);
      TrailRebuilt(limits, env, fetch, next, k - 1, r + [x]);
      assert r + [x] + Trail(limits, env, next, k - 1) == r + ([x] + Trail(limits, env, next, k - 1));
    }
  }

  // ---------------------------------------------------------------- passes along the uninterrupted run

  /** Replaying the trail brings a resumed pass exactly to where the uninterrupted run is. */
  lemma {:induction false} ReplayFollows(limits: Limits, env: Env, ticket: Ticket, p: Point, cursor: Cursor, k: nat)
    requires Sane(limits, p.core) && env.permitted <= APPROVED_TOOLS && After(limits, env, p, k).Some?
    requires cursor.replayed + k == |ticket.recorded|
    requires ticket.recorded[cursor.replayed..] == Trail(limits, env, p, k)
    ensures RunFrom(limits, env, ticket, p.core, cursor)
         == RunFrom(limits, env, ticket, After(limits, env, p, k).value.core, cursor.(replayed := |ticket.recorded|))
    decreases k
  {
    hide Sane, FreeTurn, Observe, Absorb, Gate, Snapshot, Continues, MayContinue, Vet, RunFrom, Turn, StepBy, Trail, After;
    if k == 0 {
      NowOrNever(limits, env, p);
    } else {
      var next, x := ReplayStep(limits, env, ticket, p, cursor, k);
      ReplayFollows(limits, env, ticket, next, cursor.(replayed := cursor.replayed + 1), k - 1);
    }
  }

  lemma RecordsShift(recorded: seq<Recorded>, i: nat, x: Recorded, rest: seq<Recorded>)
    requires i < |recorded| && recorded[i..] == [x] + rest
    ensures recorded[i] == x && recorded[i + 1..] == rest
  {
    assert recorded[i] == recorded[i..][0];
    assert recorded[i + 1..] == recorded[i..][1..];
  }

  /** Replaying one record takes the pass where the uninterrupted run goes. */
  lemma ReplayStep(limits: Limits, env: Env, ticket: Ticket, p: Point, cursor: Cursor, k: nat) returns (next: Point, x: Recorded)
    requires Sane(limits, p.core) && env.permitted <= APPROVED_TOOLS && k > 0 && After(limits, env, p, k).Some?
    requires cursor.replayed + k == |ticket.recorded| && ticket.recorded[cursor.replayed..] == Trail(limits, env, p, k)
    ensures Sane(limits, next.core) && After(limits, env, next, k - 1) == After(limits, env, p, k)
    ensures ticket.recorded[cursor.replayed + 1..] == Trail(limits, env, next, k - 1)
    ensures RunFrom(limits, env, ticket, p.core, cursor)
         == RunFrom(limits, env, ticket, next.core, cursor.(replayed := cursor.replayed + 1))
  {
    hide Sane, FreeTurn, Observe, Absorb, Gate, Snapshot, Continues, MayContinue, Vet, StepBy;
    var tool, step, result := FreeTurnGoes(limits, env, p.core, p.numbering);
    var t := FreeTurn(limits, env, p.core, p.numbering);
    next := Point(t.core, t.cursor.numbering);
    x := Recorded(p.core.decision.next.Key(), Observe(result, p.numbering));
    FreeAnswered(env, p.core, p.numbering, tool, result, t.core);
    RecordsShift(ticket.recorded, cursor.replayed, x, Trail(limits, env, next, k - 1));
    assert Turn(limits, env, ticket, p.core, cursor) == Goes(next.core, cursor.(replayed := cursor.replayed + 1), []);
    Nothing(RunFrom(limits, env, ticket, next.core, cursor.(replayed := cursor.replayed + 1)));
  }

  lemma FreeAnswered(env: Env, c: Core, n: nat, tool: string, result: ToolResult, c': Core)
    requires StepBy(env, c, n, tool, result, c')
    ensures env.tool(c.decision.next) == Answered(result)
  {
  }

  lemma {:induction false} FreeSplit(limits: Limits, env: Env, p: Point, k: nat)
    requires Sane(limits, p.core) && env.permitted <= APPROVED_TOOLS && After(limits, env, p, k).Some?
    ensures var q := After(limits, env, p, k).value;
            FreeFrom(limits, env, p.core, p.numbering) ==
            Pass(FreeFrom(limits, env, q.core, q.numbering).ending,
                 RecordedKeys(Trail(limits, env, p, k)) + FreeFrom(limits, env, q.core, q.numbering).executed)
    decreases k
  {
    hide Sane, FreeTurn, Observe, Absorb, Gate, Snapshot, After, Trail, FreeFrom, RecordedKeys, Continues, MayContinue, StepBy;
    if k == 0 {
      NowOrNever(limits, env, p);
      Nothing(FreeFrom(limits, env, p.core, p.numbering));
    } else {
      var next := FreeStep(limits, env, p, k);
      PrependStep(limits, env, p, k - 1);
      FreeSplit(limits, env, next, k - 1);
      Regrouped([p.core.decision.next.Key()], RecordedKeys(Trail(limits, env, next, k - 1)),
                FreeFrom(limits, env, After(limits, env, p, k).value.core, After(limits, env, p, k).value.numbering).executed);
    }
  }

  lemma Nothing(pass: Pass)
    ensures Pass(pass.ending, [] + pass.executed) == pass
  {
    assert [] + pass.executed == pass.executed;
  }

  lemma Regrouped(a: seq<ActionKey>, b: seq<ActionKey>, c: seq<ActionKey>)
    ensures a + (b + c) == a + b + c
  {
  }

  /** The first of several steps, as the uninterrupted run takes it. */
  lemma FreeStep(limits: Limits, env: Env, p: Point, k: nat) returns (next: Point)
    requires Sane(limits, p.core) && env.permitted <= APPROVED_TOOLS && k > 0 && After(limits, env, p, k).Some?
    ensures var t := FreeTurn(limits, env, p.core, p.numbering); t.Goes? && next == Point(t.core, t.cursor.numbering)
    ensures Sane(limits, next.core) && After(limits, env, next, k - 1) == After(limits, env, p, k)
    ensures var rest := FreeFrom(limits, env, next.core, next.numbering);
            FreeFrom(limits, env, p.core, p.numbering) == Pass(rest.ending, [p.core.decision.next.Key()] + rest.executed)
  {
    hide Sane, FreeTurn, Observe, Absorb, Gate, Snapshot, Continues, MayContinue, StepBy;
    FreeTurnSteps(limits, env, p.core, p.numbering);
    var tool, step, result := FreeTurnGoes(limits, env, p.core, p.numbering);
    var t := FreeTurn(limits, env, p.core, p.numbering);
    next := Point(t.core, t.cursor.numbering);
  }

  /** A pass is at the end of its records and holds no approval, or one for the action that is due. */
  predicate Caught(ticket: Ticket, c: Core, cursor: Cursor) {
    && cursor.replayed == |ticket.recorded|
    && (cursor.approved.Some? ==> cursor.approved == Some(c.decision.next.Key()))
  }

  /**
   From there on the pass either does everything the uninterrupted run does, or follows it for `j` steps and
   pauses before the next one; with an approval in hand it takes at least one step first.
   */
  lemma {:induction false} RunOrPause(limits: Limits, env: Env, ticket: Ticket, c: Core, cursor: Cursor) returns (j: nat)
    requires Sane(limits, c) && env.permitted <= APPROVED_TOOLS && Caught(ticket, c, cursor)
    ensures var pass, p := RunFrom(limits, env, ticket, c, cursor), Point(c, cursor.numbering);
            && (!pass.ending.Paused? ==> pass == FreeFrom(limits, env, c, cursor.numbering))
            && (pass.ending.Paused? ==>
                  && After(limits, env, p, j).Some?
                  && (cursor.approved.Some? ==> j >= 1)
                  && var q := After(limits, env, p, j).value;
                     && Gate(limits, env, q.core).Act?
                     && pass.ending.pause == PauseFor(q.core, Gate(limits, env, q.core).tool)
                     && pass.executed == RecordedKeys(Trail(limits, env, p, j)))
    decreases limits.maxSteps - c.steps
  {
    hide Sane, Observe, Absorb, Gate, Snapshot, Call, Continues, MayContinue, After, Trail, RecordedKeys, Vet;
    if Gate(limits, env, c).Act? {
      NowOrNever(limits, env, Point(c, cursor.numbering));
    }
    var t := Turn(limits, env, ticket, c, cursor);
    var free := FreeTurn(limits, env, c, cursor.numbering);
    TurnSteps(limits, env, ticket, c, cursor);
    j := 0;
    if Gate(limits, env, c).Act? {
      var tool, step := Gate(limits, env, c).tool, Gate(limits, env, c).step;
      if !MustPause(ticket.mode, tool, c.decision.next.Key(), cursor.approved) {
        CallIgnoresReplay(limits, env, c, cursor.(approved := None), Cursor(0, None, cursor.numbering), tool, step);
        if t.Goes? {
          var tool', step', result := FreeTurnGoes(limits, env, c, cursor.numbering);
          var i := RunOrPause(limits, env, ticket, t.core, t.cursor);
          j := i + 1;
          var rest := RunFrom(limits, env, ticket, t.core, t.cursor);
          PrependStep(limits, env, Point(c, cursor.numbering), i);
        }
      }
    }
  }

  lemma {:induction false} NowOrNever(limits: Limits, env: Env, p: Point)
    ensures After(limits, env, p, 0) == Some(p) && Trail(limits, env, p, 0) == [] && RecordedKeys([]) == []
  {
  }

  /** One step of the uninterrupted run in front of more. */
  lemma {:induction false} PrependStep(limits: Limits, env: Env, p: Point, i: nat)
    requires Sane(limits, p.core) && env.permitted <= APPROVED_TOOLS && FreeTurn(limits, env, p.core, p.numbering).Goes?
    ensures var t := FreeTurn(limits, env, p.core, p.numbering);
            var next := Point(t.core, t.cursor.numbering);
            && After(limits, env, p, i + 1) == After(limits, env, next, i)
            && t.executed == [p.core.decision.next.Key()]
            && RecordedKeys(Trail(limits, env, p, i + 1)) == t.executed + RecordedKeys(Trail(limits, env, next, i))
  {
    hide Sane, FreeTurn, Observe, Continues, Snapshot, MayContinue, Absorb, Gate, Vet;
    var tool, step, result := FreeTurnGoes(limits, env, p.core, p.numbering);
  }

  /** A gateway call depends on the cursor only through the evidence counter. */
  lemma CallIgnoresReplay(limits: Limits, env: Env, c: Core, a: Cursor, b: Cursor, tool: string, step: Step)
    requires a.numbering == b.numbering
    ensures var s, t := Call(limits, env, c, a, tool, step), Call(limits, env, c, b, tool, step);
            && s.executed == t.executed
            && (s.Ends? ==> s == t && !s.ending.Paused?)
            && (s.Goes? ==> t.Goes? && s.core == t.core && s.cursor.numbering == t.cursor.numbering &&
                            s.cursor == a.(numbering := s.cursor.numbering))
  {
    hide Absorb, Observe, FailedCall;
  }
}
