/**
 The bounded perceive-decide-act-observe loop.

 Providers, tools and the finalizer are arbitrary oracles (`Env`). One pass of the loop is `RunPass`; a pass may
 be a resumption, in which case recorded observations stand in for the tool calls already made (`Ticket`).
 */
module AgentLoop {
  import opened Wrappers
  import opened AgentTypes
  import opened Gateway
  import opened PlanState
  import opened GroundedAnswer

  /** A provider answers, runs out of time, reports a model error or raises anything else. */
  datatype Reply<+T> = Replied(value: T) | ProviderDeadline | ProviderFailed | ProviderRaised

  datatype Budgets = Budgets(toolSteps: nat, rewrites: nat, replans: nat, toolRetries: nat)

  /**
   Everything a pass consults. Within one pass no provider is asked twice about the same completed history and
   no action executes twice, so these functions stand for arbitrary, even stateful, providers.
   */
  datatype Env = Env(
    permitted: set<string>,
    perceiveQuery: Reply<Perception>,
    decideInitial: Perception -> Reply<Decision>,
    perceiveStep: (Perception, Plan, seq<CompletedStep>, Observation, Budgets) -> Reply<Perception>,
    decideNext: (Perception, Plan, seq<CompletedStep>) -> Reply<Decision>,
    invoke: Action -> ToolReply,
    finalize: seq<Evidence> -> Reply<Draft>
  ) {
    /** What the gateway makes of an adapter's answer. */
    function tool(action: Action): ToolReply {
      Vet(action.name, invoke(action))
    }
  }

  /** Loop variables that depend only on the decisions taken and the observations made. */
  datatype Core = Core(
    decision: Decision,
    perception: Perception,
    plan: State,
    plans: seq<Plan>,
    steps: nat,
    retrievals: nat,
    replans: nat,
    retries: nat,
    evidence: seq<Evidence>,
    safeSteps: seq<SafeStep>,
    safeObservations: seq<SafeObservation>
  )

  datatype Outcome = Outcome(
    status: TerminalStatus,
    reason: StoppingReason,
    claims: seq<Claim>,
    citations: seq<Evidence>,
    proposal: bool,
    steps: nat,
    replans: nat,
    retries: nat,
    plans: seq<Plan>,
    safeSteps: seq<SafeStep>,
    safeObservations: seq<SafeObservation>
  )

  datatype Recorded = Recorded(key: ActionKey, observation: Observation)

  /** The authority under which a pass runs. */
  datatype Ticket = Ticket(mode: ControlMode, approved: Option<ActionKey>, recorded: seq<Recorded>)

  /** Replay position, the approval still unused, and the evidence counter of the gateway adapter. */
  datatype Cursor = Cursor(replayed: nat, approved: Option<ActionKey>, numbering: nat)

  datatype Pause = Pause(key: ActionKey, tool: string, planVersion: nat, proposed: nat, plans: seq<Plan>,
                         safeSteps: seq<SafeStep>, safeObservations: seq<SafeObservation>)

  /** `Mismatch` and `Crash` are the two exceptions that leave the loop besides the pause. */
  datatype Ending = Terminal(outcome: Outcome) | Paused(pause: Pause) | Mismatch | Crash

  /** How a pass ended, and the actions that reached the gateway during it. */
  datatype Pass = Pass(ending: Ending, executed: seq<ActionKey>)

  function Stop(c: Core, status: TerminalStatus, reason: StoppingReason): Outcome {
    Outcome(status, reason, [], [], false, c.steps, c.replans, c.retries, c.plans, c.safeSteps, c.safeObservations)
  }

  function StopBare(status: TerminalStatus, reason: StoppingReason): Outcome {
    Outcome(status, reason, [], [], false, 0, 0, 0, [], [], [])
  }

  function PlanFailure(e: PlanError): StoppingReason {
    if e.Exhausted? then PlanExhausted else MalformedAction
  }

  function ProviderFailure<T>(c: Core, r: Reply<T>): Outcome
    requires r.ProviderDeadline? || r.ProviderFailed?
  {
    if r.ProviderDeadline? then Stop(c, LimitReached, MaxDuration) else Stop(c, RunFailed, ModelError)
  }

  predicate MustPause(mode: ControlMode, tool: string, key: ActionKey, approved: Option<ActionKey>) {
    if approved == Some(key) then false
    else tool !in LOW_RISK_TOOLS || mode == Guided
  }

  /** The final answer; the run breaks if drafting it raises anything unexpected. */
  function FinalizeAnswer(env: Env, c: Core): (r: GateResult)
    ensures !r.Act?
  {
    if c.evidence == [] then
      Halt(Stop(c, InsufficientEvidence, NoAuthorizedEvidence))
    else
      match env.finalize(c.evidence)
      case ProviderDeadline => Halt(Stop(c, LimitReached, MaxDuration))
      case ProviderFailed => Halt(Stop(c, RunFailed, ModelError))
      case ProviderRaised => Broke
      case Replied(draft) =>
        match Judge(draft, c.evidence)
        case Rejected(_) => Halt(Stop(c, InsufficientEvidence, CitationInvalid))
        case Validated(claims, citations) =>
          Halt(Stop(c, RunCompleted, Finished).(claims := claims, citations := citations))
  }

  function FinalizeCalculations(c: Core, observation: Observation): Outcome {
    if |observation.calculations| != 1 || |observation.evidence| != |observation.calculations[0].inputs| then
      Stop(c, RunFailed, ToolError)
    else
      var ids := seq(|observation.evidence|, i requires 0 <= i < |observation.evidence| => observation.evidence[i].id);
      Stop(c, RunCompleted, Finished).(claims := [Claim("", ids)], citations := observation.evidence)
  }

  datatype GateResult = Halt(outcome: Outcome) | Act(tool: string, step: Step) | Broke

  /** The head of an iteration: either the run halts or a permitted tool call is due. */
  function Gate(limits: Limits, env: Env, c: Core): GateResult {
    var action := c.decision.next;
    match Validate(c.plan, action)
    case Err(e) => Halt(Stop(c, RunFailed, PlanFailure(e)))
    case Ok(step) =>
      match action.kind
      case Clarify => Halt(Stop(c, NeedsClarification, ClarificationRequired))
      case Refuse => Halt(Stop(c, RunRefused, RequestRefused))
      case Finalize => FinalizeAnswer(env, c)
      case ToolCall =>
        var tool := action.name.value;
        if c.steps >= limits.maxSteps then Halt(Stop(c, LimitReached, MaxSteps))
        else if tool == SEARCH_DOCUMENTS && c.retrievals >= 1 + limits.maxRewrites then
          Halt(Stop(c, LimitReached, MaxRewrites))
        else if tool !in env.permitted then Halt(Stop(c, RunRefused, ScopeDenied))
        else Act(tool, step)
  }

  function StepFor(c: Core, tool: string, step: Step, status: SafeStepStatus, allowed: bool, reason: string): SafeStep {
    SafeStep(c.plan.current.version, step.index, tool, c.decision.next.Key(), status, allowed, reason)
  }

  /** A tool call that timed out or raised leaves a step without an observation. */
  function FailedCall(c: Core, tool: string, step: Step, timedOut: bool): Outcome {
    var safe := if timedOut then StepFor(c, tool, step, StepTimeout, true, "TOOL_TIMEOUT")
                else StepFor(c, tool, step, StepError, true, "TOOL_ERROR");
    Stop(c.(safeSteps := c.safeSteps + [safe]), RunFailed, if timedOut then ToolTimeout else ToolError)
  }

  function SafeStatus(status: ObservationStatus): SafeStepStatus {
    match status
    case Success => StepCompleted
    case Denied => StepDenied
    case Timeout => StepTimeout
    case Error => StepError
  }

  function Snapshot(o: Observation): SafeObservation {
    SafeObservation(
      o.status, o.reason,
      seq(|o.evidence|, i requires 0 <= i < |o.evidence| => o.evidence[i].source.document),
      seq(|o.evidence|, i requires 0 <= i < |o.evidence| => o.evidence[i].source.chunk),
      seq(|o.evidence|, i requires 0 <= i < |o.evidence| => o.evidence[i].id),
      o.retries)
  }

  const MAX_OBSERVED_EVIDENCE := 8

  /** The counters and the safe history after an observation. */
  function Record(c: Core, tool: string, step: Step, o: Observation): Core {
    c.(steps := c.steps + 1,
       retrievals := c.retrievals + (if tool == SEARCH_DOCUMENTS then 1 else 0),
       retries := c.retries + o.retries,
       safeSteps := c.safeSteps + [StepFor(c, tool, step, SafeStatus(o.status), o.status != Denied, o.reason)],
       safeObservations := c.safeObservations + [Snapshot(o)])
  }

  /** `evidence_by_id[item.evidence_id] = item`, keeping insertion order. */
  function Store(evidence: seq<Evidence>, item: Evidence): seq<Evidence> {
    if evidence == [] then [item]
    else if evidence[0].id == item.id then [item] + evidence[1..]
    else [evidence[0]] + Store(evidence[1..], item)
  }

  function StoreAll(evidence: seq<Evidence>, items: seq<Evidence>): seq<Evidence>
    decreases |items|
  {
    if items == [] then evidence else StoreAll(Store(evidence, items[0]), items[1..])
  }

  function Sub(a: nat, b: nat): nat {
    if a < b then 0 else a - b
  }

  datatype Absorbed = Halted(outcome: Outcome) | Continue(core: Core) | Broken

  function BudgetsLeft(limits: Limits, c: Core, o: Observation): Budgets {
    Budgets(Sub(limits.maxSteps, c.steps), Sub(limits.maxRewrites, Sub(c.retrievals, 1)),
            Sub(limits.maxReplans, c.replans), Sub(1, o.retries))
  }

  /** Perceiving the observation or deciding on it raises something unexpected. */
  predicate Upsets(limits: Limits, env: Env, c: Core, o: Observation) {
    var perceived := env.perceiveStep(c.perception, c.plan.current, c.plan.completed, o, BudgetsLeft(limits, c, o));
    || perceived.ProviderRaised?
    || (perceived.Replied? && env.decideNext(perceived.value, c.plan.current, c.plan.completed).ProviderRaised?)
  }

  /** Perceive the observation, take the next decision and fold it into the plan. */
  function Deliberate(limits: Limits, env: Env, c: Core, o: Observation): Absorbed {
    var perceived := env.perceiveStep(c.perception, c.plan.current, c.plan.completed, o, BudgetsLeft(limits, c, o));
    if perceived.ProviderRaised? then Broken
    else if !perceived.Replied? then Halted(ProviderFailure(c, perceived))
    else
      var decided := env.decideNext(perceived.value, c.plan.current, c.plan.completed);
      if decided.ProviderRaised? then Broken
      else if !decided.Replied? then Halted(ProviderFailure(c, decided))
      else
        match ApplyDecision(c.plan, decided.value)
        case Err(e) => Halted(Stop(c, RunFailed, PlanFailure(e)))
        case Ok((plan, changed)) =>
          var replans := c.replans + (if changed then 1 else 0);
          if changed && replans > limits.maxReplans then
            Halted(Stop(c.(replans := replans), LimitReached, MaxReplans))
          else
            Continue(c.(decision := decided.value, perception := perceived.value, plan := plan,
                        plans := plan.versions, replans := replans))
  }

  /** The tail of an iteration, from the observation to the next decision. */
  function Absorb(limits: Limits, env: Env, c: Core, tool: string, step: Step, o: Observation): Absorbed {
    if |o.evidence| > MAX_OBSERVED_EVIDENCE then Broken
    else
      var recorded := Record(c, tool, step, o);
      match o.status
      case Denied => Halted(Stop(recorded, RunRefused, ScopeDenied))
      case Timeout => Halted(Stop(recorded, RunFailed, ToolTimeout))
      case Error => Halted(Stop(recorded, RunFailed, ToolError))
      case Success =>
        if c.plan.versions == [] then Broken
        else match CompleteNext(c.plan, c.decision.next)
          case Err(_) => Broken
          case Ok(plan) =>
            var done := recorded.(evidence := StoreAll(c.evidence, o.evidence), plan := plan, plans := plan.versions);
            if o.calculations != [] then Halted(FinalizeCalculations(done, o))
            else if tool == SEARCH_MEMORY then Halted(Stop(done, RunCompleted, Finished))
            else if tool == PROPOSE_MEMORY then
              if c.decision.next.arguments.ProposeMemoryInput? then
                Halted(Stop(done, RunCompleted, Finished).(proposal := true))
              else
                Halted(Stop(done, RunFailed, ToolError))
            else
              Deliberate(limits, env, done, o)
  }

  /** What one iteration does. */
  datatype TurnResult = Ends(ending: Ending, executed: seq<ActionKey>) | Goes(core: Core, cursor: Cursor, executed: seq<ActionKey>)

  function Settle(a: Absorbed, cursor: Cursor, executed: seq<ActionKey>): TurnResult {
    match a
    case Halted(outcome) => Ends(Terminal(outcome), executed)
    case Broken => Ends(Crash, executed)
    case Continue(core) => Goes(core, cursor, executed)
  }

  /** A call to the gateway and what follows from it. */
  function Call(limits: Limits, env: Env, c: Core, cursor: Cursor, tool: string, step: Step): TurnResult {
    var key := c.decision.next.Key();
    match env.tool(c.decision.next)
    case DeadlineExceeded => Ends(Terminal(FailedCall(c, tool, step, true)), [key])
    case Raised => Ends(Terminal(FailedCall(c, tool, step, false)), [key])
    case Answered(result) =>
      var o := Observe(result, cursor.numbering);
      Settle(Absorb(limits, env, c, tool, step, o), cursor.(numbering := cursor.numbering + |o.evidence|), [key])
  }

  function PauseFor(c: Core, tool: string): Pause {
    Pause(c.decision.next.Key(), tool, c.plan.current.version, c.steps + 1, c.plan.versions, c.safeSteps,
          c.safeObservations)
  }

  function Turn(limits: Limits, env: Env, ticket: Ticket, c: Core, cursor: Cursor): TurnResult {
    match Gate(limits, env, c)
    case Halt(outcome) => Ends(Terminal(outcome), [])
    case Broke => Ends(Crash, [])
    case Act(tool, step) =>
      var key := c.decision.next.Key();
      if cursor.replayed < |ticket.recorded| then
        var recorded := ticket.recorded[cursor.replayed];
        if recorded.key != key then Ends(Mismatch, [])
        else Settle(Absorb(limits, env, c, tool, step, recorded.observation),
                    cursor.(replayed := cursor.replayed + 1), [])
      else if cursor.approved.Some? && cursor.approved != Some(key) then Ends(Mismatch, [])
      else if MustPause(ticket.mode, tool, key, cursor.approved) then Ends(Paused(PauseFor(c, tool)), [])
      else Call(limits, env, c, cursor.(approved := None), tool, step)
  }

  lemma AbsorbSteps(limits: Limits, env: Env, c: Core, tool: string, step: Step, o: Observation)
    ensures var a := Absorb(limits, env, c, tool, step, o); a.Continue? ==> a.core.steps == c.steps + 1
  {
    hide CompleteNext, ApplyDecision, FinalizeCalculations, StoreAll, Snapshot, StepFor;
  }

  /** Every iteration that goes on has taken one more step. */
  lemma TurnSteps(limits: Limits, env: Env, ticket: Ticket, c: Core, cursor: Cursor)
    ensures var t := Turn(limits, env, ticket, c, cursor);
            t.Goes? ==> c.steps < limits.maxSteps && t.core.steps == c.steps + 1
  {
    hide Absorb, Validate, FinalizeAnswer, FailedCall, MustPause, Observe;
    var gate := Gate(limits, env, c);
    if gate.Act? {
      if cursor.replayed < |ticket.recorded| {
        AbsorbSteps(limits, env, c, gate.tool, gate.step, ticket.recorded[cursor.replayed].observation);
      } else if env.tool(c.decision.next).Answered? {
        AbsorbSteps(limits, env, c, gate.tool, gate.step, Observe(env.tool(c.decision.next).result, cursor.numbering));
      }
    }
  }

  /** The rest of a pass from a given point. */
  function RunFrom(limits: Limits, env: Env, ticket: Ticket, c: Core, cursor: Cursor): Pass
    decreases limits.maxSteps - c.steps
  {
    TurnSteps(limits, env, ticket, c, cursor);
    match Turn(limits, env, ticket, c, cursor)
    case Ends(ending, executed) => Pass(ending, executed)
    case Goes(core, cursor', executed) =>
      var rest := RunFrom(limits, env, ticket, core, cursor');
      Pass(rest.ending, executed + rest.executed)
  }

  function EvidenceCount(recorded: seq<Recorded>): nat {
    if recorded == [] then 0 else |recorded[0].observation.evidence| + EvidenceCount(recorded[1..])
  }

  datatype Opening = Refused(outcome: Outcome) | Opened(core: Core) | Unopened

  /** Perception of the query, the initial decision and the initial plan. */
  function Open(env: Env): Opening {
    match env.perceiveQuery
    case ProviderDeadline => Refused(StopBare(LimitReached, MaxDuration))
    case ProviderFailed => Refused(StopBare(RunFailed, ModelError))
    case ProviderRaised => Unopened
    case Replied(perception) =>
      match env.decideInitial(perception)
      case ProviderDeadline => Refused(StopBare(LimitReached, MaxDuration))
      case ProviderFailed => Refused(StopBare(RunFailed, ModelError))
      case ProviderRaised => Unopened
      case Replied(decision) =>
        match Initial(decision)
        case Err(e) => Refused(StopBare(RunFailed, PlanFailure(e)))
        case Ok(plan) => Opened(Core(decision, perception, plan, plan.versions, 0, 0, 0, 0, [], [], []))
  }

  function StartCursor(ticket: Ticket): Cursor {
    Cursor(0, ticket.approved, EvidenceCount(ticket.recorded))
  }

  /** One whole pass of the loop. */
  function RunPass(limits: Limits, env: Env, ticket: Ticket): Pass {
    if EvidenceCount(ticket.recorded) > MAX_EVIDENCE_SEQUENCE then
      Pass(Crash, [])
    else
      match Open(env)
      case Refused(outcome) => Pass(Terminal(outcome), [])
      case Unopened => Pass(Crash, [])
      case Opened(core) => RunFrom(limits, env, ticket, core, StartCursor(ticket))
  }

  /** One iteration as it runs, calling the adapter for a fresh tool result. */
  method Iterate(limits: Limits, env: Env, ticket: Ticket, core: Core, replayed: nat, approved: Option<ActionKey>,
                 adapter: Adapter)
    returns (t: TurnResult)
    modifies adapter
    ensures t == Turn(limits, env, ticket, core, Cursor(replayed, approved, old(adapter.evidenceSequence)))
    ensures t.Goes? ==> t.cursor.numbering == adapter.evidenceSequence
  {
    hide Gate, Absorb, Observe, MustPause, FailedCall, Vet;
    var gate := Gate(limits, env, core);
    if gate.Halt? {
      return Ends(Terminal(gate.outcome), []);
    }
    if gate.Broke? {
      return Ends(Crash, []);
    }
    var key := core.decision.next.Key();
    var observation: Observation;
    var executed, replayed', approved' := [], replayed, approved;
    if replayed < |ticket.recorded| {
      if ticket.recorded[replayed].key != key {
        return Ends(Mismatch, []);
      }
      observation := ticket.recorded[replayed].observation;
      replayed' := replayed + 1;
    } else {
      if approved.Some? && approved != Some(key) {
        return Ends(Mismatch, []);
      }
      if MustPause(ticket.mode, gate.tool, key, approved) {
        return Ends(Paused(PauseFor(core, gate.tool)), []);
      }
      approved' := None;
      executed := [key];
      var reply := env.tool(core.decision.next);
      if !reply.Answered? {
        return Ends(Terminal(FailedCall(core, gate.tool, gate.step, reply.DeadlineExceeded?)), executed);
      }
      observation := adapter.Execute(reply.result);
    }
    var absorbed := Absorb(limits, env, core, gate.tool, gate.step, observation);
    t := Settle(absorbed, Cursor(replayed', approved', adapter.evidenceSequence), executed);
  }

  /** The loop as it runs, with the gateway adapter it owns. */
  method Run(limits: Limits, env: Env, ticket: Ticket) returns (ending: Ending, executed: seq<ActionKey>)
    ensures Pass(ending, executed) == RunPass(limits, env, ticket)
  {
    hide Turn, Open;
    executed := [];
    var adapter := new Adapter();
    var total := 0;
    for i := 0 to |ticket.recorded|
      invariant total + EvidenceCount(ticket.recorded[i..]) == EvidenceCount(ticket.recorded)
    {
      assert ticket.recorded[i..][1..] == ticket.recorded[i + 1..];
      total := total + |ticket.recorded[i].observation.evidence|;
    }
    var accepted := adapter.SetEvidenceSequence(total);
    if !accepted {
      return Crash, [];
    }
    var opening := Open(env);
    if opening.Refused? {
      return Terminal(opening.outcome), [];
    }
    if opening.Unopened? {
      return Crash, [];
    }
    var core, replayed, approved := opening.core, 0, ticket.approved;
    while true
      invariant var rest := RunFrom(limits, env, ticket, core, Cursor(replayed, approved, adapter.evidenceSequence));
                RunPass(limits, env, ticket) == Pass(rest.ending, executed + rest.executed)
      invariant fresh(adapter)
      decreases limits.maxSteps - core.steps
    {
      TurnSteps(limits, env, ticket, core, Cursor(replayed, approved, adapter.evidenceSequence));
      var t := Iterate(limits, env, ticket, core, replayed, approved, adapter);
      executed := executed + t.executed;
      if t.Ends? {
        return t.ending, executed;
      }
      core, replayed, approved := t.core, t.cursor.replayed, t.cursor.approved;
    }
  }
}
