/**
 Values exchanged between the bounded agent loop, its providers and the run history.

 SHA-256 is taken to be injective, so the action fingerprint and the canonical action hash are both
 represented by the triple they digest (`ActionKey`). Durations and trace events are not represented.
 */
module AgentTypes {
  import opened Wrappers

  /** Tool arguments, up to the JSON text that the digests see. */
  datatype Arguments = NoArguments | ProposeMemoryInput(json: string) | ToolInput(json: string)

  datatype ActionKind = ToolCall | Finalize | Clarify | Refuse

  datatype RawAction = Action(kind: ActionKind, name: Option<string>, arguments: Arguments, reason: string) {
    /** What the model validator of an action enforces. */
    predicate Valid() {
      if kind.ToolCall? then
        name.Some? && (name == Some(PROPOSE_MEMORY) ==> arguments.ProposeMemoryInput?)
      else
        name.None? && arguments.NoArguments?
    }

    /** The digested payload: type, name and arguments, but not the reason code. */
    function Key(): ActionKey {
      ActionKey(kind, name, if arguments.NoArguments? then "{}" else arguments.json)
    }
  }

  type Action = a: RawAction | a.Valid() witness Action(Clarify, None, NoArguments, "")

  datatype ActionKey = ActionKey(kind: ActionKind, name: Option<string>, json: string)

  datatype StepStatus = Pending | Completed | StepFailed

  datatype Step = Step(index: nat, kind: ActionKind, name: Option<string>, status: StepStatus, reason: string)

  datatype Plan = Plan(version: nat, text: seq<string>, steps: seq<Step>, changeReason: string) {
    predicate Valid() {
      && 1 <= version
      && 1 <= |steps| <= 3
      && |text| == |steps|
      && forall i :: 0 <= i < |steps| ==> steps[i].index == i
    }
  }

  datatype RawDecision = Decision(plan: Plan, next: Action, replan: bool)

  /** Providers only ever hand over decisions that passed validation. */
  type Decision = d: RawDecision | d.plan.Valid()
    witness Decision(Plan(1, [""], [Step(0, Clarify, None, Pending, "")], ""),
                     Action(Clarify, None, NoArguments, ""), false)

  datatype Perception = Perception(content: string)

  /** One authorized excerpt: its identity and the text it carries. */
  datatype Source = Source(document: string, chunk: string, excerpt: string)

  /** Evidence identifiers read `ev_<n>`; the number stands for the identifier. */
  datatype Evidence = Evidence(id: nat, source: Source)

  datatype RawCalculation = Calculation(inputs: seq<Source>)

  /** A calculation result has at least one trusted input. */
  type Calculation = c: RawCalculation | c.inputs != [] witness Calculation([Source("", "", "")])

  datatype ObservationStatus = Success | Denied | Timeout | Error

  datatype RawObservation = Observation(
    status: ObservationStatus,
    evidence: seq<Evidence>,
    calculations: seq<Calculation>,
    memories: seq<string>,
    notified: bool,
    retries: nat,
    reason: string
  ) {
    predicate Valid() {
      && (status != Success ==> evidence == [] && calculations == [] && memories == [] && !notified)
      && retries <= 1
    }
  }

  type Observation = o: RawObservation | o.Valid() witness Observation(Success, [], [], [], false, 0, "")

  datatype SafeStepStatus = StepCompleted | StepDenied | StepTimeout | StepError

  /** Content-free step metadata kept for persistence. */
  datatype SafeStep = SafeStep(planVersion: nat, stepIndex: nat, tool: string, key: ActionKey,
                               status: SafeStepStatus, allowed: bool, reason: string)

  /** Identifiers of the evidence of one observation; the excerpts are not kept. */
  datatype SafeObservation = SafeObservation(status: ObservationStatus, reason: string, documents: seq<string>,
                                             chunks: seq<string>, citations: seq<nat>, retries: nat)

  datatype RawLimits = Limits(maxSteps: nat, maxRewrites: nat, maxReplans: nat)

  type Limits = l: RawLimits | 1 <= l.maxSteps <= 4 && l.maxRewrites <= 1 && l.maxReplans <= 1
    witness Limits(4, 1, 1)

  datatype ControlMode = Guided | Balanced | Autonomous

  const SEARCH_DOCUMENTS := "portfolio.search_authorized_documents"
  const SEARCH_MEMORY := "portfolio.search_memory"
  const PROPOSE_MEMORY := "portfolio.propose_memory"
  const GET_EXCERPT := "portfolio.get_document_excerpt"
  const CALCULATE_PREFIX := "portfolio.calculate_"

  /** Tools that may run without an approval outside the guided mode. */
  const LOW_RISK_TOOLS: set<string> := {
    SEARCH_DOCUMENTS,
    GET_EXCERPT,
    "portfolio.calculate_ebitda_margin",
    "portfolio.calculate_revenue_growth",
    "portfolio.calculate_net_profit_margin",
    "portfolio.query_financial_metrics",
    "portfolio.calculate_debt_to_equity",
    "portfolio.calculate_cash_runway",
    "portfolio.calculate_cagr",
    SEARCH_MEMORY
  }

  const APPROVED_TOOLS: set<string> := LOW_RISK_TOOLS + {PROPOSE_MEMORY}

  /** Tools whose results cannot be rebuilt from stored identifiers. */
  predicate IsCalculation(tool: string) {
    CALCULATE_PREFIX <= tool
  }

  datatype TerminalStatus =
    | RunCompleted | RunRefused | NeedsClarification | InsufficientEvidence | LimitReached | RunFailed

  datatype StoppingReason =
    | Finished | RequestRefused | ClarificationRequired | NoAuthorizedEvidence | ScopeDenied | MaxSteps
    | MaxRewrites | MaxReplans | MaxDuration | ToolTimeout | ToolError | ModelError | MalformedAction
    | PlanExhausted | CitationInvalid
}
