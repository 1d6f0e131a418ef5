/**
 The adapter in front of the tool gateway: it turns one tool result into an observation and numbers the
 evidence of a run.
 */
module Gateway {
  import opened Wrappers
  import opened AgentTypes

  /** A tool result carries at most one kind of payload. */
  datatype Payload =
    | NoPayload
    | Excerpts(items: seq<Source>)
    | Results(calculations: seq<Calculation>)
    | Memories(summaries: seq<string>)
    | Proposal

  datatype RawToolResult = ToolResult(status: ObservationStatus, payload: Payload, retries: nat, reason: string)

  type ToolResult = r: RawToolResult | (r.status != Success ==> r.payload == NoPayload) && r.retries <= 1
    witness ToolResult(Success, NoPayload, 0, "")

  /** What awaiting the gateway can give: an answer, an elapsed deadline or an exception. */
  datatype ToolReply = Answered(result: ToolResult) | DeadlineExceeded | Raised

  const MAX_TOP_K := 20
  const MAX_MEMORIES := 5

  /**
   What each tool may return: its output model allows evidence, memories, a proposal or exactly one calculation; reading
   an excerpt yields that one excerpt, and only a search may find none or many.
   */
  predicate Conforms(tool: string, payload: Payload) {
    if tool == SEARCH_DOCUMENTS then payload.Excerpts? && |payload.items| <= MAX_TOP_K
    else if tool == GET_EXCERPT then payload.Excerpts? && |payload.items| == 1
    else if tool == SEARCH_MEMORY then payload.Memories? && |payload.summaries| <= MAX_MEMORIES
    else if tool == PROPOSE_MEMORY then payload.Proposal?
    else payload.Results? && |payload.calculations| == 1
  }

  /** The gateway reports a success only after the output passed the tool's model. */
  function Vet(tool: Option<string>, reply: ToolReply): ToolReply {
    if reply.Answered? && reply.result.status == Success && tool.Some? && !Conforms(tool.value, reply.result.payload)
    then Answered(ToolResult(Error, NoPayload, reply.result.retries, "OUTPUT_SCHEMA_REJECTED"))
    else reply
  }

  /** A calculation tool that succeeded brings exactly one calculation. */
  lemma CalculationConforms(tool: string, reply: ToolReply)
    requires IsCalculation(tool)
    ensures var vetted := Vet(Some(tool), reply);
            vetted.Answered? && vetted.result.status == Success ==>
              vetted.result.payload.Results? && |vetted.result.payload.calculations| == 1
  {
    assert tool[10] == 'c' && SEARCH_DOCUMENTS[10] == 's' && GET_EXCERPT[10] == 'g';
    assert SEARCH_MEMORY[10] == 's' && PROPOSE_MEMORY[10] == 'p';
  }

  const MAX_EVIDENCE_SEQUENCE := 32

  function Inputs(calculations: seq<Calculation>): seq<Source> {
    if calculations == [] then [] else calculations[0].inputs + Inputs(calculations[1..])
  }

  /** The sources that become evidence, in the order in which the observation lists them. */
  function Sources(payload: Payload): seq<Source> {
    match payload
    case Excerpts(items) => items
    case Results(calculations) => Inputs(calculations)
    case _ => []
  }

  function Number(sources: seq<Source>, from: nat): (r: seq<Evidence>)
    ensures |r| == |sources|
    ensures forall i :: 0 <= i < |r| ==> r[i] == Evidence(from + i + 1, sources[i])
  {
    seq(|sources|, i requires 0 <= i < |sources| => Evidence(from + i + 1, sources[i]))
  }

  function Observe(result: ToolResult, from: nat): Observation {
    Observation(
      result.status,
      Number(Sources(result.payload), from),
      if result.payload.Results? then result.payload.calculations else [],
      if result.payload.Memories? then result.payload.summaries else [],
      result.payload.Proposal?,
      result.retries,
      result.reason)
  }

  class Adapter {
    var evidenceSequence: nat

    constructor ()
      ensures evidenceSequence == 0
    {
      evidenceSequence := 0;
    }

    /** Continues the numbering of a resumed run; it can neither go back nor exceed the limit. */
    method SetEvidenceSequence(value: nat) returns (ok: bool)
      modifies this
      ensures ok <==> old(evidenceSequence) <= value <= MAX_EVIDENCE_SEQUENCE
      ensures evidenceSequence == if ok then value else old(evidenceSequence)
    {
      if value < evidenceSequence || value > MAX_EVIDENCE_SEQUENCE {
        return false;
      }
      evidenceSequence := value;
      return true;
    }

    /** Numbers the evidence of one tool result, one item at a time. */
    method Execute(result: ToolResult) returns (observation: Observation)
      modifies this
      ensures observation == Observe(result, old(evidenceSequence))
      ensures evidenceSequence == old(evidenceSequence) + |observation.evidence|
    {
      var sources := Sources(result.payload);
      var evidence: seq<Evidence> := [];
      for i := 0 to |sources|
        invariant evidenceSequence == old(evidenceSequence) + i
        invariant evidence == Number(sources[..i], old(evidenceSequence))
      {
        evidenceSequence := evidenceSequence + 1;
        evidence := evidence + [Evidence(evidenceSequence, sources[i])];
      }
      assert sources[..|sources|] == sources;
      observation := Observation(
        result.status,
        evidence,
        if result.payload.Results? then result.payload.calculations else [],
        if result.payload.Memories? then result.payload.summaries else [],
        result.payload.Proposal?,
        result.retries,
        result.reason);
    }
  }
}
