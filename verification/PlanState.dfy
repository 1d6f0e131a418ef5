/**
 Plan versions, progression and the immutable record of executed actions.
 */
module PlanState {
  import opened Wrappers
  import opened AgentTypes

  datatype PlanError = Exhausted | Contract

  datatype CompletedStep = CompletedStep(planVersion: nat, stepIndex: nat, kind: ActionKind, name: Option<string>)

  datatype State = State(current: Plan, versions: seq<Plan>, completed: seq<CompletedStep>, executed: set<ActionKey>)

  /** Position of the first pending step, or the number of steps when none is pending. */
  function FirstPending(steps: seq<Step>): (k: nat)
    ensures k <= |steps|
    ensures k < |steps| ==> steps[k].status == Pending
    ensures forall i :: 0 <= i < k ==> steps[i].status != Pending
  {
    if steps == [] || steps[0].status == Pending then 0 else 1 + FirstPending(steps[1..])
  }

  function Initial(decision: Decision): Result<State, PlanError> {
    if decision.plan.version != 1 || decision.replan then
      Err(Contract)
    else if exists i :: 0 <= i < |decision.plan.steps| && decision.plan.steps[i].status != Pending then
      Err(Contract)
    else
      var state := State(decision.plan, [decision.plan], [], {});
      match Validate(state, decision.next)
      case Ok(_) => Ok(state)
      case Err(e) => Err(e)
  }

  function Validate(s: State, action: Action): Result<Step, PlanError> {
    var k := FirstPending(s.current.steps);
    if k == |s.current.steps| then
      Err(Exhausted)
    else if s.current.steps[k].kind != action.kind || s.current.steps[k].name != action.name then
      Err(Contract)
    else if action.Key() in s.executed then
      Err(Contract)
    else
      Ok(s.current.steps[k])
  }

  function MarkCompleted(steps: seq<Step>, index: nat): (r: seq<Step>)
    ensures |r| == |steps|
    ensures forall i :: 0 <= i < |steps| ==>
              r[i] == if steps[i].index == index then steps[i].(status := Completed, reason := "TOOL_COMPLETED")
                      else steps[i]
  {
    seq(|steps|, i requires 0 <= i < |steps| =>
      if steps[i].index == index then steps[i].(status := Completed, reason := "TOOL_COMPLETED") else steps[i])
  }

  function CompleteNext(s: State, action: Action): Result<State, PlanError>
    requires s.versions != []
  {
    match Validate(s, action)
    case Err(e) => Err(e)
    case Ok(step) =>
      var plan := s.current.(steps := MarkCompleted(s.current.steps, step.index));
      Ok(State(plan, s.versions[..|s.versions| - 1] + [plan],
               s.completed + [CompletedStep(plan.version, step.index, step.kind, step.name)],
               s.executed + {action.Key()}))
  }

  /** What two plans must share to count as the same plan. */
  predicate SameSignature(a: Plan, b: Plan) {
    && a.text == b.text
    && |a.steps| == |b.steps|
    && forall i :: 0 <= i < |a.steps| ==>
         && a.steps[i].index == b.steps[i].index
         && a.steps[i].kind == b.steps[i].kind
         && a.steps[i].name == b.steps[i].name
         && a.steps[i].status == b.steps[i].status
  }

  function ApplyDecision(s: State, decision: Decision): Result<(State, bool), PlanError> {
    var candidate := decision.plan;
    if !SameSignature(candidate, s.current) then
      if candidate.version != s.current.version + 1 then
        Err(Contract)
      else if exists i :: 0 <= i < |candidate.steps| && candidate.steps[i].status != Pending then
        Err(Contract)
      else
        var state := s.(current := candidate, versions := s.versions + [candidate]);
        match Validate(state, decision.next)
        case Ok(_) => Ok((state, true))
        case Err(e) => Err(e)
    else if candidate.version != s.current.version || decision.replan then
      Err(Contract)
    else
      match Validate(s, decision.next)
      case Ok(_) => Ok((s, false))
      case Err(e) => Err(e)
  }

  /** Strict lexicographic order on (plan version, step index). */
  predicate Before(v: nat, i: nat, w: nat, j: nat) {
    v < w || (v == w && i < j)
  }

  /**
   The invariant of plan progression: versions are numbered from one and the last one is current, completed
   steps form a prefix of the current plan, and executed positions increase and all lie before the next one.
   */
  ghost predicate Progressing(s: State) {
    && 1 <= |s.versions|
    && s.versions[|s.versions| - 1] == s.current
    && (forall i :: 0 <= i < |s.versions| ==> s.versions[i].Valid() && s.versions[i].version == i + 1)
    && CompletedPrefix(s.current.steps)
    && (forall i :: 0 <= i < |s.completed| ==>
          Before(s.completed[i].planVersion, s.completed[i].stepIndex, s.current.version,
                 FirstPending(s.current.steps)))
    && (forall i, j :: 0 <= i < j < |s.completed| ==>
          Before(s.completed[i].planVersion, s.completed[i].stepIndex,
                 s.completed[j].planVersion, s.completed[j].stepIndex))
  }

  ghost predicate CompletedPrefix(steps: seq<Step>) {
    forall i :: 0 <= i < |steps| ==>
      steps[i].status == if i < FirstPending(steps) then Completed else Pending
  }

  lemma {:induction false} FirstPendingUnique(steps: seq<Step>, k: nat)
    requires k <= |steps|
    requires k < |steps| ==> steps[k].status == Pending
    requires forall i :: 0 <= i < k ==> steps[i].status != Pending
    ensures FirstPending(steps) == k
  {
  }

  lemma InitialProgresses(decision: Decision)
    requires Initial(decision).Ok?
    ensures var s := Initial(decision).value;
            && Progressing(s) && s.completed == [] && s.executed == {} && |s.versions| == 1
            && Validate(s, decision.next).Ok?
  {
    FirstPendingUnique(decision.plan.steps, 0);
  }

  /** Completing the validated step never fails and moves the next position by exactly one. */
  lemma CompleteProgresses(s: State, action: Action)
    requires Progressing(s) && Validate(s, action).Ok?
    ensures CompleteNext(s, action).Ok?
    ensures var s' := CompleteNext(s, action).value;
            && Progressing(s')
            && |s'.versions| == |s.versions|
            && s'.current.version == s.current.version
            && FirstPending(s'.current.steps) == FirstPending(s.current.steps) + 1
            && s'.executed == s.executed + {action.Key()} && action.Key() !in s.executed
            && |s'.completed| == |s.completed| + 1
  {
    hide FirstPending, CompletedPrefix, MarkCompleted;
    var k, n := FirstPending(s.current.steps), |s.versions| - 1;
    var s' := CompleteNext(s, action).value;
    assert s.versions[n].Valid();
    assert s.current.steps[k].index == k;
    MarkNext(s.current.steps, k);
    PositionsExtend(s.completed, CompletedStep(s.current.version, k, s.current.steps[k].kind, s.current.steps[k].name));
    assert s'.current.Valid();
    assert forall i :: 0 <= i < n ==> s'.versions[i] == s.versions[i];
  }

  /** Completing the first pending step makes the one after it the first. */
  lemma {:induction false} MarkNext(steps: seq<Step>, k: nat)
    requires CompletedPrefix(steps) && k == FirstPending(steps) < |steps| && forall i :: 0 <= i < |steps| ==> steps[i].index == i
    ensures FirstPending(MarkCompleted(steps, k)) == k + 1 && CompletedPrefix(MarkCompleted(steps, k))
    ensures forall i :: 0 <= i < |steps| ==> MarkCompleted(steps, k)[i].index == i
  {
    hide FirstPending, MarkCompleted;
    FirstPendingUnique(MarkCompleted(steps, k), k + 1);
  }

  lemma PositionsExtend(completed: seq<CompletedStep>, x: CompletedStep)
    requires forall i :: 0 <= i < |completed| ==>
               Before(completed[i].planVersion, completed[i].stepIndex, x.planVersion, x.stepIndex)
    requires forall i, j :: 0 <= i < j < |completed| ==>
               Before(completed[i].planVersion, completed[i].stepIndex, completed[j].planVersion, completed[j].stepIndex)
    ensures var all := completed + [x];
            && (forall i :: 0 <= i < |all| ==> Before(all[i].planVersion, all[i].stepIndex, x.planVersion, x.stepIndex + 1))
            && (forall i, j :: 0 <= i < j < |all| ==>
                  Before(all[i].planVersion, all[i].stepIndex, all[j].planVersion, all[j].stepIndex))
  {
  }

  /** A decision that is accepted either keeps the plan or starts the next version from its first step. */
  lemma ApplyProgresses(s: State, decision: Decision)
    requires Progressing(s) && ApplyDecision(s, decision).Ok?
    ensures var (s', changed) := ApplyDecision(s, decision).value;
            && Progressing(s')
            && s'.executed == s.executed && s'.completed == s.completed
            && Validate(s', decision.next).Ok?
            && (!changed ==> s' == s)
            && (changed ==> s'.versions == s.versions + [decision.plan] &&
                            s'.current.version == s.current.version + 1 &&
                            FirstPending(s'.current.steps) == 0)
  {
    var (s', changed) := ApplyDecision(s, decision).value;
    if changed {
      FirstPendingUnique(s'.current.steps, 0);
    }
  }

  // ---------------------------------------------------------------- which decisions are accepted

  /** The step at `k` is the first that is still to be done. */
  predicate NextDue(steps: seq<Step>, k: nat) {
    k < |steps| && steps[k].status == Pending && forall i :: 0 <= i < k ==> steps[i].status != Pending
  }

  /** The action does what the step says, and is new. */
  predicate Fits(step: Step, action: Action, executed: set<ActionKey>) {
    step.kind == action.kind && step.name == action.name && action.Key() !in executed
  }

  /** An action is valid if and only if it fits the next step that is due; without such a step the plan is exhausted. */
  lemma ValidateExactly(s: State, action: Action)
    ensures forall step :: Validate(s, action) == Ok(step) <==>
              exists k: nat :: NextDue(s.current.steps, k) && step == s.current.steps[k] && Fits(step, action, s.executed)
    ensures Validate(s, action) == Err(Exhausted) <==>
              forall i :: 0 <= i < |s.current.steps| ==> s.current.steps[i].status != Pending
  {
    hide FirstPending;
    var steps := s.current.steps;
    var k := FirstPending(steps);
    if k < |steps| {
      assert NextDue(steps, k);
      forall j: nat | NextDue(steps, j) ensures j == k {
      }
    }
  }

  /** Completing an action that fits the step at `k` marks that step alone and records its position and its key. */
  lemma CompleteExactly(s: State, action: Action, k: nat)
    requires Progressing(s) && NextDue(s.current.steps, k) && Fits(s.current.steps[k], action, s.executed)
    ensures Validate(s, action) == Ok(s.current.steps[k])
    ensures var plan := s.current.(steps := s.current.steps[k := s.current.steps[k].(status := Completed, reason := "TOOL_COMPLETED")]);
            CompleteNext(s, action) ==
              Ok(State(plan, s.versions[|s.versions| - 1 := plan],
                       s.completed + [CompletedStep(s.current.version, k, action.kind, action.name)], s.executed + {action.Key()}))
  {
    hide CompletedPrefix;
    FirstPendingUnique(s.current.steps, k);
    var step := s.current.steps[k].(status := Completed, reason := "TOOL_COMPLETED");
    assert s.versions[|s.versions| - 1].Valid();
    assert MarkCompleted(s.current.steps, k) == s.current.steps[k := step];
    var plan := s.current.(steps := s.current.steps[k := step]);
    assert s.versions[..|s.versions| - 1] + [plan] == s.versions[|s.versions| - 1 := plan];
  }

  ghost predicate AllPending(plan: Plan) {
    forall i :: 0 <= i < |plan.steps| ==> plan.steps[i].status == Pending
  }

  /** The action is the next one of the plan, and new. */
  ghost predicate GoesOn(plan: Plan, action: Action, executed: set<ActionKey>) {
    exists k: nat :: NextDue(plan.steps, k) && Fits(plan.steps[k], action, executed)
  }

  /** The initial decision is accepted if and only if it starts version one afresh with its first step. */
  lemma InitialExactly(decision: Decision)
    ensures Initial(decision).Ok? <==>
              decision.plan.version == 1 && !decision.replan && AllPending(decision.plan) && Fits(decision.plan.steps[0], decision.next, {})
    ensures Initial(decision) == if Initial(decision).Ok? then Ok(State(decision.plan, [decision.plan], [], {})) else Err(Contract)
  {
    var s := State(decision.plan, [decision.plan], [], {});
    ValidateExactly(s, decision.next);
    if AllPending(decision.plan) {
      assert NextDue(decision.plan.steps, 0);
      assert decision.plan.steps[0].status == Pending;
    }
  }

  /** The two plans say the same, step by step, apart from the reasons they give. */
  ghost predicate SaysTheSame(a: Plan, b: Plan) {
    a.text == b.text && |a.steps| == |b.steps| &&
    forall i :: 0 <= i < |a.steps| ==> a.steps[i].(reason := "") == b.steps[i].(reason := "")
  }

  /**
   A later decision is accepted if and only if it goes on with the same plan, or starts the next version afresh with its
   first step. The new state has that plan and nothing else new; a plan with nothing left to do is exhausted.
   */
  lemma ApplyExactly(s: State, d: Decision)
    ensures ApplyDecision(s, d).Ok? <==>
              if SaysTheSame(d.plan, s.current)
              then d.plan.version == s.current.version && !d.replan && GoesOn(s.current, d.next, s.executed)
              else d.plan.version == s.current.version + 1 && AllPending(d.plan) && Fits(d.plan.steps[0], d.next, s.executed)
    ensures ApplyDecision(s, d).Ok? ==>
              ApplyDecision(s, d).value == if SaysTheSame(d.plan, s.current) then (s, false)
                                           else (State(d.plan, s.versions + [d.plan], s.completed, s.executed), true)
    ensures ApplyDecision(s, d) == Err(Exhausted) <==>
              && SaysTheSame(d.plan, s.current) && d.plan.version == s.current.version && !d.replan
              && forall i :: 0 <= i < |s.current.steps| ==> s.current.steps[i].status != Pending
  {
    hide Validate;
    assert SaysTheSame(d.plan, s.current) <==> SameSignature(d.plan, s.current);
    if SaysTheSame(d.plan, s.current) {
      ValidateExactly(s, d.next);
      if Validate(s, d.next).Ok? {
        assert Validate(s, d.next) == Ok(Validate(s, d.next).value);
      }
      if k: nat :| NextDue(s.current.steps, k) && Fits(s.current.steps[k], d.next, s.executed) {
        assert Validate(s, d.next) == Ok(s.current.steps[k]);
      }
    } else {
      var next := s.(current := d.plan, versions := s.versions + [d.plan]);
      ValidateExactly(next, d.next);
      if AllPending(d.plan) {
        assert NextDue(d.plan.steps, 0);
        assert d.plan.steps[0].status == Pending;
      }
    }
  }
}
