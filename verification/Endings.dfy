/**
 How every pass of the loop ends: which status, reason and history each decision, each tool result and each provider's
 reply leads to, told without the functions that compute it.
 */
module Endings {
  import opened Wrappers
  import opened AgentTypes
  import opened Gateway
  import opened PlanState
  import opened GroundedAnswer
  import opened AgentLoop
  import opened LoopSafety
  import opened PassSafety
  import opened PassFailures
  import opened EvidenceNumbering

  /** An outcome without an answer: the counters and the history of the run so far. */
  function Bare(c: Core, status: TerminalStatus, reason: StoppingReason): Outcome {
    Outcome(status, reason, [], [], false, c.steps, c.replans, c.retries, c.plans, c.safeSteps, c.safeObservations)
  }

  function Quits(c: Core, status: TerminalStatus, reason: StoppingReason, executed: seq<ActionKey>): Pass {
    Pass(Terminal(Bare(c, status, reason)), executed)
  }

  // ---------------------------------------------------------------- decisions that end a pass

  /** The tool call that is decided on may be made: a step and a search are left for it, and the caller may use the tool. */
  predicate Callable(limits: Limits, env: Env, c: Core) {
    && c.decision.next.kind.ToolCall?
    && c.steps < limits.maxSteps
    && (c.decision.next.name == Some(SEARCH_DOCUMENTS) ==> c.retrievals <= limits.maxRewrites)
    && c.decision.next.name.value in env.permitted
  }

  /** A point at which the loop asks for the final answer, clarifies, refuses or may not make the call it decided on. */
  lemma {:induction false} DecisionEnds(limits: Limits, env: Env, ticket: Ticket, s: Spot)
    requires Sane(limits, s.core)
    ensures var c, action, pass := s.core, s.core.decision.next, RunFrom(limits, env, ticket, s.core, s.cursor);
            && (action.kind.Clarify? ==> pass == Quits(c, NeedsClarification, ClarificationRequired, []))
            && (action.kind.Refuse? ==> pass == Quits(c, RunRefused, RequestRefused, []))
            && (action.kind.ToolCall? && !Callable(limits, env, c) ==>
                  pass == if c.steps == limits.maxSteps then Quits(c, LimitReached, MaxSteps, [])
                          else if action.name == Some(SEARCH_DOCUMENTS) && c.retrievals == 1 + limits.maxRewrites
                          then Quits(c, LimitReached, MaxRewrites, [])
                          else Quits(c, RunRefused, ScopeDenied, []))
  {
    hide Progressing, GoodSteps, Searches, Observed, FinalizeAnswer, Absorb, Call, Before, FirstPending, Validate;
  }

  /**
   When the answer is due, a pass completes with it if and only if there is evidence and the provider drafts a supported
   answer on it; the answer then says what the draft says. Without evidence, with a draft that is not supported and with
   every other reply the pass ends without an answer.
   */
  lemma {:induction false} AnswerEnds(limits: Limits, env: Env, ticket: Ticket, s: Spot)
    requires Sane(limits, s.core) && s.core.decision.next.kind.Finalize?
    ensures var c, pass := s.core, RunFrom(limits, env, ticket, s.core, s.cursor);
            var reply := env.finalize(c.evidence);
            if c.evidence == [] then pass == Quits(c, InsufficientEvidence, NoAuthorizedEvidence, [])
            else if reply.ProviderDeadline? then pass == Quits(c, LimitReached, MaxDuration, [])
            else if reply.ProviderFailed? then pass == Quits(c, RunFailed, ModelError, [])
            else if reply.ProviderRaised? then pass == Pass(Crash, [])
            else if !Supported(reply.value, c.evidence) then pass == Quits(c, InsufficientEvidence, CitationInvalid, [])
            else
              && pass.ending.Terminal? && pass.executed == []
              && pass.ending.outcome ==
                   Bare(c, RunCompleted, Finished).(claims := pass.ending.outcome.claims, citations := pass.ending.outcome.citations)
              && Answers(pass.ending.outcome.claims, pass.ending.outcome.citations, reply.value, c.evidence)
  {
    var c := s.core;
    if env.finalize(c.evidence).Replied? {
      JudgedExactly(env.finalize(c.evidence).value, c.evidence);
    }
    hide Progressing, GoodSteps, Searches, Observed, Absorb, Call, Before, FirstPending, Validate, Judge, Supported, Answers;
  }

  // ---------------------------------------------------------------- calls

  /** The action may run at once: it is the approved one, or nothing is approved and the mode lets it run. */
  predicate MayRun(ticket: Ticket, cursor: Cursor, action: Action) {
    || cursor.approved == Some(action.Key())
    || (cursor.approved.None? && ticket.mode != Guided && action.name.Some? && action.name.value in LOW_RISK_TOOLS)
  }

  /** The step of a call that gave no result. */
  function Unanswered(c: Core, k: nat, status: SafeStepStatus, reason: string): Core
    requires c.decision.next.name.Some?
  {
    c.(safeSteps := c.safeSteps +
         [SafeStep(c.plan.current.version, k, c.decision.next.name.value, c.decision.next.Key(), status, true, reason)])
  }

  /**
   A call that may be made: a record of another action and an approval of another action are mismatches; what may not run
   at once pauses; a call without a result fails the run and leaves a step without an observation.
   */
  lemma {:induction false} CallEnds(limits: Limits, env: Env, ticket: Ticket, s: Spot, k: nat)
    requires Sane(limits, s.core) && Callable(limits, env, s.core) && NextDue(s.core.plan.current.steps, k)
    ensures var c, action, pass := s.core, s.core.decision.next, RunFrom(limits, env, ticket, s.core, s.cursor);
            if s.cursor.replayed < |ticket.recorded| then
              ticket.recorded[s.cursor.replayed].key != action.Key() ==> pass == Pass(Mismatch, [])
            else if s.cursor.approved.Some? && s.cursor.approved != Some(action.Key()) then pass == Pass(Mismatch, [])
            else if !MayRun(ticket, s.cursor, action) then
              pass == Pass(Paused(Pause(action.Key(), action.name.value, c.plan.current.version, c.steps + 1, c.plans,
                                        c.safeSteps, c.safeObservations)), [])
            else
              && (env.invoke(action).DeadlineExceeded? ==>
                    pass == Quits(Unanswered(c, k, StepTimeout, "TOOL_TIMEOUT"), RunFailed, ToolTimeout, [action.Key()]))
              && (env.invoke(action).Raised? ==>
                    pass == Quits(Unanswered(c, k, StepError, "TOOL_ERROR"), RunFailed, ToolError, [action.Key()]))
  {
    FirstPendingUnique(s.core.plan.current.steps, k);
    assert s.core.plan.versions[|s.core.plan.versions| - 1].Valid();
    hide Progressing, GoodSteps, Searches, Observed, FinalizeAnswer, Absorb, Before, FirstPending;
  }

  // ---------------------------------------------------------------- observations

  /** The observation shows the answer of a tool, its evidence numbered on from `n`. */
  ghost predicate Shows(result: ToolResult, tool: string, n: nat, o: Observation) {
    if result.status == Success && !Conforms(tool, result.payload) then
      o == Observation(Error, [], [], [], false, result.retries, "OUTPUT_SCHEMA_REJECTED")
    else
      && o.status == result.status && o.retries == result.retries && o.reason == result.reason
      && (o.notified <==> result.payload.Proposal?)
      && o.memories == (if result.payload.Memories? then result.payload.summaries else [])
      && o.calculations == (if result.payload.Results? then result.payload.calculations else [])
      && (result.payload.Excerpts? ==> NumberedFrom(n, result.payload.items, o.evidence))
      && (result.payload.Results? && |result.payload.calculations| == 1 ==>
            NumberedFrom(n, result.payload.calculations[0].inputs, o.evidence))
      && (!result.payload.Excerpts? && !result.payload.Results? ==> o.evidence == [])
  }

  ghost predicate NumberedFrom(n: nat, sources: seq<Source>, evidence: seq<Evidence>) {
    && |evidence| == |sources|
    && forall i :: 0 <= i < |sources| ==> evidence[i] == Evidence(n + 1 + i, sources[i])
  }

  /** The observation the loop comes to: the recorded one, or what the call it makes shows. */
  ghost predicate Comes(env: Env, ticket: Ticket, s: Spot, o: Observation) {
    var action := s.core.decision.next;
    if s.cursor.replayed < |ticket.recorded| then ticket.recorded[s.cursor.replayed] == Recorded(action.Key(), o)
    else
      && MayRun(ticket, s.cursor, action) && env.invoke(action).Answered?
      && action.name.Some? && Shows(env.invoke(action).result, action.name.value, s.cursor.numbering, o)
  }

  /** The actions that reach the gateway at this point. */
  function Ran(ticket: Ticket, s: Spot): seq<ActionKey> {
    if s.cursor.replayed < |ticket.recorded| then [] else [s.core.decision.next.Key()]
  }

  /** The history with one more step and its observation. */
  function Noted(c: Core, k: nat, o: Observation): Core
    requires c.decision.next.name.Some?
  {
    var action := c.decision.next;
    var status := if o.status.Success? then StepCompleted else if o.status.Denied? then StepDenied
                  else if o.status.Timeout? then StepTimeout else StepError;
    var n := |o.evidence|;
    c.(steps := c.steps + 1,
       retrievals := if action.name == Some(SEARCH_DOCUMENTS) then c.retrievals + 1 else c.retrievals,
       retries := c.retries + o.retries,
       safeSteps := c.safeSteps +
         [SafeStep(c.plan.current.version, k, action.name.value, action.Key(), status, !o.status.Denied?, o.reason)],
       safeObservations := c.safeObservations +
         [SafeObservation(o.status, o.reason, seq(n, i requires 0 <= i < n => o.evidence[i].source.document),
                          seq(n, i requires 0 <= i < n => o.evidence[i].source.chunk),
                          seq(n, i requires 0 <= i < n => o.evidence[i].id), o.retries)])
  }

  /** The same, with the step of the plan marked as done and the evidence gathered so far. */
  function Done(c: Core, k: nat, o: Observation, evidence: seq<Evidence>): Core
    requires c.decision.next.name.Some? && k < |c.plan.current.steps| && c.plan.versions != []
  {
    var action := c.decision.next;
    var steps := c.plan.current.steps[k := c.plan.current.steps[k].(status := Completed, reason := "TOOL_COMPLETED")];
    var plan := c.plan.current.(steps := steps);
    var versions := c.plan.versions[|c.plan.versions| - 1 := plan];
    Noted(c, k, o).(plan := State(plan, versions, c.plan.completed + [CompletedStep(plan.version, k, action.kind, action.name)],
                                  c.plan.executed + {action.Key()}),
                    plans := versions, evidence := evidence)
  }

  /** Later items replace earlier ones with their identifier; fresh items are appended in their order. */
  ghost predicate Gathered(before: seq<Evidence>, items: seq<Evidence>, after: seq<Evidence>) {
    && DistinctIds(after)
    && Ids(after) == Ids(before) + Ids(items)
    && (forall e :: e in after ==> e in items || (e in before && e.id !in Ids(items)))
    && (DistinctIds(before + items) ==> after == before + items)
  }

  /** Storing items one by one gathers them. */
  lemma {:induction false} StoreAllGathers(before: seq<Evidence>, items: seq<Evidence>)
    requires DistinctIds(before)
    ensures Gathered(before, items, StoreAll(before, items))
    decreases |items|
  {
    StoreAllProperties(before, items);
    if DistinctIds(before + items) {
      StoreAllFresh(before, items);
    }
    if items != [] {
      var next := Store(before, items[0]);
      StoreProperties(before, items[0]);
      StoreGathers(before, items[0]);
      StoreAllGathers(next, items[1..]);
      assert items == [items[0]] + items[1..];
      IdsSplit([items[0]], items[1..]);
      OneId(items[0]);
      forall e | e in StoreAll(before, items) ensures e in items || (e in before && e.id !in Ids(items)) {
        if e !in items[1..] && e !in items {
          assert e in next && e.id !in Ids(items[1..]);
        }
      }
    }
  }

  lemma OneId(e: Evidence)
    ensures Ids([e]) == {e.id}
  {
    assert [e][0] == e;
  }

  lemma IdsSplit(a: seq<Evidence>, b: seq<Evidence>)
    ensures Ids(a + b) == Ids(a) + Ids(b)
  {
    forall x | x in Ids(a) + Ids(b) ensures x in Ids(a + b) {
      if x in Ids(a) {
        var i :| 0 <= i < |a| && a[i].id == x;
        assert (a + b)[i].id == x;
      } else {
        var i :| 0 <= i < |b| && b[i].id == x;
        assert (a + b)[|a| + i].id == x;
      }
    }
  }

  lemma {:induction false} StoreGathers(before: seq<Evidence>, item: Evidence)
    requires DistinctIds(before)
    ensures Ids(Store(before, item)) == Ids(before) + {item.id}
    ensures forall e :: e in Store(before, item) && e != item ==> e in before && e.id != item.id
  {
    var k := StoreShape(before, item);
    var after := Store(before, item);
    if k == |before| {
      IdsSplit(before, [item]);
      OneId(item);
      forall e | e in after && e != item ensures e in before && e.id != item.id {
        var i :| 0 <= i < |after| && after[i] == e;
        assert before[i].id in Ids(before);
      }
    } else {
      forall x | x in Ids(before) ensures x in Ids(after) {
        var i :| 0 <= i < |before| && before[i].id == x;
        assert after[i].id == x;
      }
      assert item.id in Ids(before);
      forall x | x in Ids(after) ensures x in Ids(before) {
        var i :| 0 <= i < |after| && after[i].id == x;
        assert before[i].id == x;
      }
      forall e | e in after && e != item ensures e in before && e.id != item.id {
        var i :| 0 <= i < |after| && after[i] == e;
        assert i != k && before[i] == e;
      }
    }
  }

  /** What a call shows is what the loop observes. */
  lemma ShownIsObserved(env: Env, action: Action, n: nat, o: Observation)
    requires action.name.Some? && env.invoke(action).Answered? && Shows(env.invoke(action).result, action.name.value, n, o)
    ensures env.tool(action).Answered? && o == Observe(env.tool(action).result, n)
  {
    hide Conforms;
    var vetted := env.tool(action).result;
    if vetted.payload.Results? {
      OneCalculation(action.name.value, vetted.payload);
    }
    assert o.evidence == Observe(vetted, n).evidence;
  }

  lemma OneCalculation(tool: string, payload: Payload)
    requires payload.Results? && Conforms(tool, payload)
    ensures |payload.calculations| == 1 && Inputs(payload.calculations) == payload.calculations[0].inputs
  {
    assert payload.calculations[1..] == [];
  }

  function Moved(ticket: Ticket, s: Spot, o: Observation): Cursor {
    if s.cursor.replayed < |ticket.recorded| then s.cursor.(replayed := s.cursor.replayed + 1)
    else Cursor(s.cursor.replayed, None, s.cursor.numbering + |o.evidence|)
  }

  lemma CallGates(limits: Limits, env: Env, c: Core, k: nat)
    requires Sane(limits, c) && Callable(limits, env, c) && NextDue(c.plan.current.steps, k)
    ensures Gate(limits, env, c) == Act(c.decision.next.name.value, c.plan.current.steps[k])
    ensures c.plan.current.steps[k].index == k && Progressing(c.plan) && c.plan.versions != []
    ensures Fits(c.plan.current.steps[k], c.decision.next, c.plan.executed)
  {
    FirstPendingUnique(c.plan.current.steps, k);
    assert c.plan.versions[|c.plan.versions| - 1].Valid();
    hide GoodSteps, Searches, Observed, FinalizeAnswer, Before, FirstPending;
  }

  lemma NotesIt(c: Core, k: nat, o: Observation)
    requires c.decision.next.name.Some? && k < |c.plan.current.steps| && c.plan.current.steps[k].index == k
    ensures Record(c, c.decision.next.name.value, c.plan.current.steps[k], o) == Noted(c, k, o)
  {
    var noted := Noted(c, k, o);
    var i := |c.safeObservations|;
    assert Snapshot(o).documents == noted.safeObservations[i].documents;
    assert Snapshot(o).chunks == noted.safeObservations[i].chunks;
    assert Snapshot(o).citations == noted.safeObservations[i].citations;
    assert Snapshot(o) == noted.safeObservations[i];
  }

  lemma TurnComes(limits: Limits, env: Env, ticket: Ticket, s: Spot, k: nat, o: Observation)
    requires Sane(limits, s.core) && Callable(limits, env, s.core) && NextDue(s.core.plan.current.steps, k)
    requires Comes(env, ticket, s, o)
    ensures Turn(limits, env, ticket, s.core, s.cursor) ==
              Settle(Absorb(limits, env, s.core, s.core.decision.next.name.value, s.core.plan.current.steps[k], o),
                     Moved(ticket, s, o), Ran(ticket, s))
  {
    hide Sane, Gate, Absorb, Shows, Vet, Observe, Callable, NextDue, Fits, Progressing, FailedCall;
    CallGates(limits, env, s.core, k);
    if s.cursor.replayed >= |ticket.recorded| {
      ShownIsObserved(env, s.core.decision.next, s.cursor.numbering, o);
    }
  }

  /** What the loop tells the provider about its budgets. */
  function Left(limits: Limits, d: Core, o: Observation): Budgets
    requires d.steps <= limits.maxSteps && d.retrievals <= 1 + limits.maxRewrites && d.replans <= limits.maxReplans
  {
    Budgets(limits.maxSteps - d.steps, if d.retrievals == 0 then limits.maxRewrites else limits.maxRewrites - (d.retrievals - 1),
            limits.maxReplans - d.replans, 1 - o.retries)
  }

  /** The decision goes on with the plan, or starts the next version afresh. */
  ghost predicate Acceptable(s: State, d: Decision) {
    if SaysTheSame(d.plan, s.current) then d.plan.version == s.current.version && !d.replan && GoesOn(s.current, d.next, s.executed)
    else d.plan.version == s.current.version + 1 && AllPending(d.plan) && Fits(d.plan.steps[0], d.next, s.executed)
  }

  /** The decision keeps a plan that has nothing left to do. */
  ghost predicate NothingLeft(s: State, d: Decision) {
    && SaysTheSame(d.plan, s.current) && d.plan.version == s.current.version && !d.replan
    && forall i :: 0 <= i < |s.current.steps| ==> s.current.steps[i].status != Pending
  }

  /** The loop variables with the decision taken. */
  ghost function Decided(d: Core, perception: Perception, decision: Decision): Core {
    if SaysTheSame(decision.plan, d.plan.current) then d.(decision := decision, perception := perception)
    else
      var versions := d.plan.versions + [decision.plan];
      d.(decision := decision, perception := perception, plans := versions, replans := d.replans + 1,
         plan := State(decision.plan, versions, d.plan.completed, d.plan.executed))
  }

  /** What follows from asking the providers about the observation: a bare end, a crash or the next decision. */
  ghost function Deliberated(limits: Limits, env: Env, d: Core, o: Observation): Absorbed
    requires d.steps <= limits.maxSteps && d.retrievals <= 1 + limits.maxRewrites && d.replans <= limits.maxReplans
  {
    var perceived := env.perceiveStep(d.perception, d.plan.current, d.plan.completed, o, Left(limits, d, o));
    match perceived
    case ProviderDeadline => Halted(Bare(d, LimitReached, MaxDuration))
    case ProviderFailed => Halted(Bare(d, RunFailed, ModelError))
    case ProviderRaised => Broken
    case Replied(perception) =>
      match env.decideNext(perception, d.plan.current, d.plan.completed)
      case ProviderDeadline => Halted(Bare(d, LimitReached, MaxDuration))
      case ProviderFailed => Halted(Bare(d, RunFailed, ModelError))
      case ProviderRaised => Broken
      case Replied(decision) =>
        var next := Decided(d, perception, decision);
        if !Acceptable(d.plan, decision) then
          Halted(Bare(d, RunFailed, if NothingLeft(d.plan, decision) then PlanExhausted else MalformedAction))
        else if next.replans > limits.maxReplans then Halted(Bare(d.(replans := d.replans + 1), LimitReached, MaxReplans))
        else Continue(next)
  }

  lemma DeliberateExactly(limits: Limits, env: Env, d: Core, o: Observation)
    requires Resting(limits, d)
    ensures Deliberate(limits, env, d, o) == Deliberated(limits, env, d, o)
  {
    assert BudgetsLeft(limits, d, o) == Left(limits, d, o);
    var p := env.perceiveStep(d.perception, d.plan.current, d.plan.completed, o, Left(limits, d, o));
    if p.Replied? {
      var q := env.decideNext(p.value, d.plan.current, d.plan.completed);
      if q.Replied? {
        ApplyExactly(d.plan, q.value);
        hide Resting, ApplyDecision, SaysTheSame, GoesOn, AllPending, Fits;
        if ApplyDecision(d.plan, q.value).Err? {
          assert NothingLeft(d.plan, q.value) <==> ApplyDecision(d.plan, q.value).error.Exhausted?;
        }
      }
    }
  }

  /** The answer that a calculation gives. */
  function Calculated(d: Core, o: Observation): Outcome {
    if |o.calculations| == 1 && |o.evidence| == |o.calculations[0].inputs| then
      var n := |o.evidence|;
      Bare(d, RunCompleted, Finished).(claims := [Claim("", seq(n, i requires 0 <= i < n => o.evidence[i].id))], citations := o.evidence)
    else Bare(d, RunFailed, ToolError)
  }

  /** How a pass goes on after the providers were asked: it ends, breaks, or comes to the next point. */
  ghost predicate GoesOnWith(limits: Limits, env: Env, ticket: Ticket, s: Spot, o: Observation, a: Absorbed, pass: Pass) {
    match a
    case Halted(outcome) => pass == Pass(Terminal(outcome), Ran(ticket, s))
    case Broken => pass == Pass(Crash, Ran(ticket, s))
    case Continue(next) =>
      var rest := RunFrom(limits, env, ticket, next, Moved(ticket, s, o));
      && Onward(limits, env, ticket, s, 1) == Some(Spot(next, Moved(ticket, s, o)))
      && pass == Pass(rest.ending, Ran(ticket, s) + rest.executed)
  }

  /**
   What an observation leads to: one of more than eight items breaks the pass; every status but success ends it; so do
   calculations, a memory search and a proposal. Everything else is left to the providers.
   */
  ghost predicate LeadsTo(limits: Limits, env: Env, ticket: Ticket, s: Spot, k: nat, o: Observation, evidence: seq<Evidence>, pass: Pass)
    requires Sane(limits, s.core) && Callable(limits, env, s.core) && k < |s.core.plan.current.steps|
  {
    var c, tool, ran := s.core, s.core.decision.next.name.value, Ran(ticket, s);
    var noted, d := Noted(c, k, o), Done(c, k, o, evidence);
    if |o.evidence| > 8 then pass == Pass(Crash, ran)
    else if o.status.Denied? then pass == Quits(noted, RunRefused, ScopeDenied, ran)
    else if o.status.Timeout? then pass == Quits(noted, RunFailed, ToolTimeout, ran)
    else if o.status.Error? then pass == Quits(noted, RunFailed, ToolError, ran)
    else if o.calculations != [] then pass == Pass(Terminal(Calculated(d, o)), ran)
    else if tool == SEARCH_MEMORY then pass == Quits(d, RunCompleted, Finished, ran)
    else if tool == PROPOSE_MEMORY then pass == Pass(Terminal(Bare(d, RunCompleted, Finished).(proposal := true)), ran)
    else GoesOnWith(limits, env, ticket, s, o, Deliberated(limits, env, d, o), pass)
  }

  /** Every observation leads to where it should, with the evidence gathered, and the pass goes on only with an acceptable decision. */
  lemma ObservationEnds(limits: Limits, env: Env, ticket: Ticket, s: Spot, k: nat, o: Observation) returns (evidence: seq<Evidence>)
    requires Sane(limits, s.core) && Callable(limits, env, s.core) && env.permitted <= APPROVED_TOOLS
    requires NextDue(s.core.plan.current.steps, k) && Comes(env, ticket, s, o)
    ensures Gathered(s.core.evidence, o.evidence, evidence)
    ensures LeadsTo(limits, env, ticket, s, k, o, evidence, RunFrom(limits, env, ticket, s.core, s.cursor))
  {
    var c := s.core;
    var tool, step := c.decision.next.name.value, c.plan.current.steps[k];
    hide Turn, Absorb, Comes, Gathered, StoreAll, Noted, Done, Deliberated, Calculated, Resting, RunFrom, Onward;
    evidence := StoreAll(c.evidence, o.evidence);
    EvidenceDistinct(limits, c);
    StoreAllGathers(c.evidence, o.evidence);
    TurnComes(limits, env, ticket, s, k, o);
    AbsorbExactly(limits, env, c, k, o);
    RunUnfolds(limits, env, ticket, s, o, Absorb(limits, env, c, tool, step, o));
  }

  /** How a pass goes on is what one iteration comes to. */
  lemma {:induction false} RunUnfolds(limits: Limits, env: Env, ticket: Ticket, s: Spot, o: Observation, a: Absorbed)
    requires Turn(limits, env, ticket, s.core, s.cursor) == Settle(a, Moved(ticket, s, o), Ran(ticket, s))
    ensures GoesOnWith(limits, env, ticket, s, o, a, RunFrom(limits, env, ticket, s.core, s.cursor))
  {
    hide Turn, Moved, Ran;
    ReachesNext(limits, env, ticket, s);
  }

  lemma EvidenceDistinct(limits: Limits, c: Core)
    requires Sane(limits, c)
    ensures DistinctIds(c.evidence) && Progressing(c.plan) && c.plan.versions != []
    ensures c.steps <= limits.maxSteps && c.retrievals <= 1 + limits.maxRewrites && c.replans <= limits.maxReplans
  {
  }

  lemma {:induction false} ReachesNext(limits: Limits, env: Env, ticket: Ticket, s: Spot)
    ensures var t := Turn(limits, env, ticket, s.core, s.cursor);
            t.Goes? ==> Onward(limits, env, ticket, s, 1) == Some(Spot(t.core, t.cursor))
  {
    hide Turn;
    var t := Turn(limits, env, ticket, s.core, s.cursor);
    if t.Goes? {
      assert Onward(limits, env, ticket, Spot(t.core, t.cursor), 0) == Some(Spot(t.core, t.cursor));
    }
  }

  lemma AbsorbExactly(limits: Limits, env: Env, c: Core, k: nat, o: Observation)
    requires Sane(limits, c) && Callable(limits, env, c) && env.permitted <= APPROVED_TOOLS && NextDue(c.plan.current.steps, k)
    ensures var tool, a := c.decision.next.name.value, Absorb(limits, env, c, c.decision.next.name.value, c.plan.current.steps[k], o);
            var noted, d := Noted(c, k, o), Done(c, k, o, StoreAll(c.evidence, o.evidence));
            if |o.evidence| > 8 then a == Broken
            else if o.status.Denied? then a == Halted(Bare(noted, RunRefused, ScopeDenied))
            else if o.status.Timeout? then a == Halted(Bare(noted, RunFailed, ToolTimeout))
            else if o.status.Error? then a == Halted(Bare(noted, RunFailed, ToolError))
            else if o.calculations != [] then a == Halted(Calculated(d, o))
            else if tool == SEARCH_MEMORY then a == Halted(Bare(d, RunCompleted, Finished))
            else if tool == PROPOSE_MEMORY then a == Halted(Bare(d, RunCompleted, Finished).(proposal := true))
            else a == Deliberated(limits, env, d, o)
  {
    hide Sane, Resting, Gate, Deliberate, Deliberated, FinalizeCalculations, Calculated, StoreAll, Record, Noted, Fits, Progressing,
         CompleteNext;
    var tool, step := c.decision.next.name.value, c.plan.current.steps[k];
    CallGates(limits, env, c, k);
    NotesIt(c, k, o);
    if |o.evidence| <= 8 && o.status == Success {
      CompleteExactly(c.plan, c.decision.next, k);
      AdvanceRests(limits, env, c, tool, step, o);
      assert Advanced(c, tool, step, o) == Done(c, k, o, StoreAll(c.evidence, o.evidence));
      CalculatesIt(Advanced(c, tool, step, o), o);
      DeliberateExactly(limits, env, Advanced(c, tool, step, o), o);
    }
  }

  lemma CalculatesIt(d: Core, o: Observation)
    ensures o.calculations != [] ==> FinalizeCalculations(d, o) == Calculated(d, o)
  {
    if |o.calculations| == 1 && |o.evidence| == |o.calculations[0].inputs| {
      assert FinalizeCalculations(d, o).claims[0].ids == Calculated(d, o).claims[0].ids;
    }
  }

  // ---------------------------------------------------------------- whole passes

  /** Every point of a pass is sane, and the pass ends as the rest of it from that point. */
  lemma {:induction false} OnwardEnding(limits: Limits, env: Env, ticket: Ticket, s: Spot, k: nat)
    requires Sane(limits, s.core) && env.permitted <= APPROVED_TOOLS && s.cursor.replayed <= |ticket.recorded|
    ensures var t := Onward(limits, env, ticket, s, k);
            t.Some? ==>
              && Sane(limits, t.value.core) && t.value.cursor.replayed <= |ticket.recorded|
              && RunFrom(limits, env, ticket, t.value.core, t.value.cursor).ending ==
                   RunFrom(limits, env, ticket, s.core, s.cursor).ending
    decreases k
  {
    hide Turn, Sane, Persistable, CleanPause;
    if k > 0 {
      TurnSane(limits, env, ticket, s.core, s.cursor);
      var t := Turn(limits, env, ticket, s.core, s.cursor);
      if t.Goes? {
        OnwardEnding(limits, env, ticket, Spot(t.core, t.cursor), k - 1);
      }
    }
  }

  /** The pass gets to this point. */
  ghost predicate Reaches(limits: Limits, env: Env, ticket: Ticket, s: Spot) {
    && EvidenceCount(ticket.recorded) <= 32 && Open(env).Opened?
    && exists k: nat :: Onward(limits, env, ticket, Spot(Open(env).core, StartCursor(ticket)), k) == Some(s)
  }

  lemma {:induction false} PassReaches(limits: Limits, env: Env, ticket: Ticket, s: Spot)
    requires env.permitted <= APPROVED_TOOLS && Reaches(limits, env, ticket, s)
    ensures Sane(limits, s.core) && s.cursor.replayed <= |ticket.recorded|
    ensures RunPass(limits, env, ticket).ending == RunFrom(limits, env, ticket, s.core, s.cursor).ending
  {
    hide Sane, RunFrom, Persistable;
    var start := Spot(Open(env).core, StartCursor(ticket));
    OpenSane(limits, env);
    var k: nat :| Onward(limits, env, ticket, start, k) == Some(s);
    OnwardEnding(limits, env, ticket, start, k);
  }

  /** The answer is due and the provider drafts a supported one on the evidence there is. */
  ghost predicate AnswerReady(env: Env, c: Core) {
    && c.decision.next.kind.Finalize? && c.evidence != []
    && env.finalize(c.evidence).Replied? && Supported(env.finalize(c.evidence).value, c.evidence)
  }

  /** This observation completes the run: its one calculation has all its inputs, or it found memories or proposed one. */
  predicate Completing(tool: string, o: Observation) {
    && |o.evidence| <= 8 && o.status.Success?
    && if o.calculations != [] then |o.calculations| == 1 && |o.evidence| == |o.calculations[0].inputs|
       else tool == SEARCH_MEMORY || tool == PROPOSE_MEMORY
  }

  ghost predicate ResultReady(limits: Limits, env: Env, ticket: Ticket, s: Spot) {
    Callable(limits, env, s.core) && exists o :: Comes(env, ticket, s, o) && Completing(s.core.decision.next.name.value, o)
  }

  predicate IsCompleted(e: Ending) {
    e.Terminal? && e.outcome.status == RunCompleted
  }

  lemma DueStep(limits: Limits, c: Core) returns (k: nat)
    requires Sane(limits, c)
    ensures NextDue(c.plan.current.steps, k)
  {
    k := FirstPending(c.plan.current.steps);
  }

  /** An action that may run and is answered shows exactly one observation. */
  lemma ComesOnly(limits: Limits, env: Env, ticket: Ticket, s: Spot) returns (o: Observation)
    requires s.core.decision.next.kind.ToolCall?
    ensures forall x :: Comes(env, ticket, s, x) ==> x == o
    ensures s.cursor.replayed < |ticket.recorded| && ticket.recorded[s.cursor.replayed].key == s.core.decision.next.Key() ==>
              Comes(env, ticket, s, o)
    ensures s.cursor.replayed >= |ticket.recorded| && MayRun(ticket, s.cursor, s.core.decision.next) ==>
              env.invoke(s.core.decision.next).Answered? ==> Comes(env, ticket, s, o)
  {
    var action := s.core.decision.next;
    if s.cursor.replayed < |ticket.recorded| {
      o := ticket.recorded[s.cursor.replayed].observation;
    } else if env.invoke(action).Answered? {
      o := Observe(env.tool(action).result, s.cursor.numbering);
      forall x | Comes(env, ticket, s, x) ensures x == o {
        ShownIsObserved(env, action, s.cursor.numbering, x);
      }
      ObservedShows(env, action, s.cursor.numbering);
    } else {
      o := Observation(Error, [], [], [], false, 0, "");
    }
  }

  lemma ObservedShows(env: Env, action: Action, n: nat)
    requires action.name.Some? && env.invoke(action).Answered?
    ensures Shows(env.invoke(action).result, action.name.value, n, Observe(env.tool(action).result, n))
  {
    hide Conforms;
    var result := env.invoke(action).result;
    if result.payload.Results? && Conforms(action.name.value, result.payload) {
      OneCalculation(action.name.value, result.payload);
    }
  }

  ghost predicate Ready(limits: Limits, env: Env, ticket: Ticket, s: Spot) {
    AnswerReady(env, s.core) || ResultReady(limits, env, ticket, s)
  }

  lemma DeliberatedOpen(limits: Limits, env: Env, d: Core, o: Observation)
    requires d.steps <= limits.maxSteps && d.retrievals <= 1 + limits.maxRewrites && d.replans <= limits.maxReplans
    ensures var a := Deliberated(limits, env, d, o); a.Halted? ==> a.outcome.status != RunCompleted
  {
    hide Acceptable, NothingLeft, Decided, Left;
  }

  /** A result completes the pass if and only if it is a completing one, or the pass goes on after it and completes later. */
  lemma {:induction false} ResultCompletes(limits: Limits, env: Env, ticket: Ticket, s: Spot, k: nat, o: Observation)
    requires Sane(limits, s.core) && Callable(limits, env, s.core) && env.permitted <= APPROVED_TOOLS
    requires NextDue(s.core.plan.current.steps, k) && Comes(env, ticket, s, o)
    ensures var completed := IsCompleted(RunFrom(limits, env, ticket, s.core, s.cursor).ending);
            var completing := Completing(s.core.decision.next.name.value, o);
            && (completing ==> completed)
            && (completed && Onward(limits, env, ticket, s, 1).None? ==> completing)
  {
    hide Resting, Turn, RunFrom, Onward, Comes, Noted, Done, Deliberated, Gathered;
    var evidence := ObservationEnds(limits, env, ticket, s, k, o);
    EvidenceDistinct(limits, s.core);
    DoneBounds(limits, env, s.core, k, o, evidence);
    DeliberatedOpen(limits, env, Done(s.core, k, o, evidence), o);
  }

  lemma DoneBounds(limits: Limits, env: Env, c: Core, k: nat, o: Observation, evidence: seq<Evidence>)
    requires Sane(limits, c) && Callable(limits, env, c) && k < |c.plan.current.steps|
    ensures c.plan.versions != []
    ensures var d := Done(c, k, o, evidence);
            d.steps <= limits.maxSteps && d.retrievals <= 1 + limits.maxRewrites && d.replans <= limits.maxReplans
  {
    hide Progressing, GoodSteps, Searches, Observed;
  }

  /** A pass completes at a point that is ready, and if it does not go on, only there. */
  lemma {:induction false} CompletesHere(limits: Limits, env: Env, ticket: Ticket, s: Spot)
    requires Sane(limits, s.core) && env.permitted <= APPROVED_TOOLS && s.cursor.replayed <= |ticket.recorded|
    ensures var completed := IsCompleted(RunFrom(limits, env, ticket, s.core, s.cursor).ending);
            && (Ready(limits, env, ticket, s) ==> completed)
            && (completed && Onward(limits, env, ticket, s, 1).None? ==> Ready(limits, env, ticket, s))
  {
    hide Sane, RunFrom, Onward, Supported, Answers, Comes, NextDue, Turn, MayRun, Completing;
    var c, action := s.core, s.core.decision.next;
    DecisionEnds(limits, env, ticket, s);
    if action.kind.Finalize? {
      AnswerEnds(limits, env, ticket, s);
    }
    if Callable(limits, env, c) {
      var k := DueStep(limits, c);
      var o := ComesOnly(limits, env, ticket, s);
      CallEnds(limits, env, ticket, s, k);
      if Comes(env, ticket, s, o) {
        ResultCompletes(limits, env, ticket, s, k, o);
      }
    }
  }

  /** From any sane point, a pass completes if and only if it gets to a point that is ready. */
  lemma {:induction false} CompletesFrom(limits: Limits, env: Env, ticket: Ticket, s: Spot)
    requires Sane(limits, s.core) && env.permitted <= APPROVED_TOOLS && s.cursor.replayed <= |ticket.recorded|
    ensures IsCompleted(RunFrom(limits, env, ticket, s.core, s.cursor).ending) <==>
              exists k: nat :: ReadyAt(limits, env, ticket, Onward(limits, env, ticket, s, k))
    decreases limits.maxSteps - s.core.steps
  {
    hide Sane, RunFrom, Turn, Ready, IsCompleted, Persistable, CleanPause;
    assert Onward(limits, env, ticket, s, 0) == Some(s);
    CompletesHere(limits, env, ticket, s);
    forall k: nat | ReadyAt(limits, env, ticket, Onward(limits, env, ticket, s, k))
      ensures IsCompleted(RunFrom(limits, env, ticket, s.core, s.cursor).ending)
    {
      OnwardEnding(limits, env, ticket, s, k);
      CompletesHere(limits, env, ticket, Onward(limits, env, ticket, s, k).value);
    }
    if IsCompleted(RunFrom(limits, env, ticket, s.core, s.cursor).ending) && !Ready(limits, env, ticket, s) {
      OnwardEnding(limits, env, ticket, s, 1);
      TurnSteps(limits, env, ticket, s.core, s.cursor);
      var t := Turn(limits, env, ticket, s.core, s.cursor);
      var next := Spot(t.core, t.cursor);
      ReachesNext(limits, env, ticket, s);
      assert Onward(limits, env, ticket, s, 1) == Some(next) by {
        assert t.Goes?;
      }
      CompletesFrom(limits, env, ticket, next);
      var k: nat :| ReadyAt(limits, env, ticket, Onward(limits, env, ticket, next, k));
      assert Onward(limits, env, ticket, s, k + 1) == Onward(limits, env, ticket, next, k);
      assert ReadyAt(limits, env, ticket, Onward(limits, env, ticket, s, k + 1));
    } else if Ready(limits, env, ticket, s) {
      assert ReadyAt(limits, env, ticket, Onward(limits, env, ticket, s, 0));
    }
  }

  ghost predicate ReadyAt(limits: Limits, env: Env, ticket: Ticket, s: Option<Spot>) {
    s.Some? && Ready(limits, env, ticket, s.value)
  }

  /**
   A whole pass completes if and only if it gets to a point where a supported answer is drafted on evidence or a tool's
   result completes it; nothing else may stand in for them and nothing may get lost there.
   */
  lemma CompletesExactly(limits: Limits, env: Env, ticket: Ticket)
    requires env.permitted <= APPROVED_TOOLS
    ensures IsCompleted(RunPass(limits, env, ticket).ending) <==>
              exists s :: Reaches(limits, env, ticket, s) && Ready(limits, env, ticket, s)
  {
    hide Sane, RunFrom, Ready, Persistable;
    OpenSane(limits, env);
    if Open(env).Opened? && EvidenceCount(ticket.recorded) <= 32 {
      var start := Spot(Open(env).core, StartCursor(ticket));
      CompletesFrom(limits, env, ticket, start);
      if k: nat :| ReadyAt(limits, env, ticket, Onward(limits, env, ticket, start, k)) {
        var s := Onward(limits, env, ticket, start, k).value;
        assert Onward(limits, env, ticket, start, k) == Some(s);
        assert Reaches(limits, env, ticket, s) && Ready(limits, env, ticket, s);
      }
    }
    forall s | Reaches(limits, env, ticket, s) && Ready(limits, env, ticket, s)
      ensures IsCompleted(RunPass(limits, env, ticket).ending)
    {
      PassReaches(limits, env, ticket, s);
      CompletesHere(limits, env, ticket, s);
    }
  }

  /** A pass that ends before anything happened. */
  function Unstarted(status: TerminalStatus, reason: StoppingReason): Pass {
    Pass(Terminal(Outcome(status, reason, [], [], false, 0, 0, 0, [], [], [])), [])
  }

  /** A pass that cannot open: no provider's reply, no plan from the first decision, or too much recorded evidence. */
  lemma OpeningEnds(limits: Limits, env: Env, ticket: Ticket)
    requires EvidenceCount(ticket.recorded) <= 32 ==> !Open(env).Opened?
    ensures var pass, p := RunPass(limits, env, ticket), env.perceiveQuery;
            if EvidenceCount(ticket.recorded) > 32 || p.ProviderRaised? then pass == Pass(Crash, [])
            else if p.ProviderDeadline? then pass == Unstarted(LimitReached, MaxDuration)
            else if p.ProviderFailed? then pass == Unstarted(RunFailed, ModelError)
            else
              match env.decideInitial(p.value)
              case ProviderRaised => pass == Pass(Crash, [])
              case ProviderDeadline => pass == Unstarted(LimitReached, MaxDuration)
              case ProviderFailed => pass == Unstarted(RunFailed, ModelError)
              case Replied(_) => pass == Unstarted(RunFailed, MalformedAction)
  {
    if env.perceiveQuery.Replied? && env.decideInitial(env.perceiveQuery.value).Replied? {
      InitialExactly(env.decideInitial(env.perceiveQuery.value).value);
    }
    hide Initial, RunFrom;
  }

  /** A pass opens if and only if its first decision starts version one afresh, with empty counters and history. */
  lemma OpensExactly(env: Env)
    ensures Open(env).Opened? <==>
              && env.perceiveQuery.Replied? && env.decideInitial(env.perceiveQuery.value).Replied?
              && var d := env.decideInitial(env.perceiveQuery.value).value;
                 d.plan.version == 1 && !d.replan && AllPending(d.plan) && Fits(d.plan.steps[0], d.next, {})
    ensures Open(env).Opened? ==>
              var d := env.decideInitial(env.perceiveQuery.value).value;
              Open(env).core == Core(d, env.perceiveQuery.value, State(d.plan, [d.plan], [], {}), [d.plan], 0, 0, 0, 0, [], [], [])
  {
    if env.perceiveQuery.Replied? && env.decideInitial(env.perceiveQuery.value).Replied? {
      InitialExactly(env.decideInitial(env.perceiveQuery.value).value);
    }
    hide Initial;
  }
}
