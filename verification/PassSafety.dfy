/**
 Guarantees of a whole pass: bounded and persistable outcomes, every execution covered by its authority,
 no action executed twice, and evidence numbered without gaps across resumptions.
 */
module PassSafety {
  import opened Wrappers
  import opened AgentTypes
  import opened Gateway
  import opened PlanState
  import opened GroundedAnswer
  import opened AgentLoop
  import opened LoopSafety

  function Keys(steps: seq<SafeStep>): (r: seq<ActionKey>)
    ensures |r| == |steps| && forall i :: 0 <= i < |steps| ==> r[i] == steps[i].key
  {
    seq(|steps|, i requires 0 <= i < |steps| => steps[i].key)
  }

  function RecordedKeys(recorded: seq<Recorded>): (r: seq<ActionKey>)
    ensures |r| == |recorded| && forall i :: 0 <= i < |recorded| ==> r[i] == recorded[i].key
  {
    seq(|recorded|, i requires 0 <= i < |recorded| => recorded[i].key)
  }

  /** Actions that may not run on the loop's own authority. */
  predicate NeedsApproval(mode: ControlMode, key: ActionKey) {
    mode == Guided || key.name.None? || key.name.value !in LOW_RISK_TOOLS
  }

  /** At most the first execution needs an approval, and it is the approved action; an approval is never bypassed. */
  ghost predicate Authorized(mode: ControlMode, approved: Option<ActionKey>, executed: seq<ActionKey>) {
    && (forall i :: 0 <= i < |executed| && NeedsApproval(mode, executed[i]) ==> i == 0 && approved == Some(executed[0]))
    && (approved.Some? && executed != [] ==> approved == Some(executed[0]))
  }

  ghost predicate Distinct(keys: seq<ActionKey>) {
    forall i, j :: 0 <= i < j < |keys| ==> keys[i] != keys[j]
  }

  /**
   The steps in the resulting history are the earlier ones, then the recorded ones (`before`), then the executed
   ones. Only a pass that ends while still replaying may end with fewer.
   */
  ghost predicate Accounted(before: seq<ActionKey>, replaying: bool, pass: Pass) {
    match pass.ending
    case Paused(p) => Keys(p.safeSteps) == before + pass.executed
    case Terminal(o) =>
      if replaying && pass.executed == [] then Keys(o.safeSteps) <= before
      else Keys(o.safeSteps) == before + pass.executed
    case _ => true
  }

  /** Keys of the steps already in the history followed by those still to be replayed. */
  function Expected(ticket: Ticket, c: Core, cursor: Cursor): seq<ActionKey>
    requires cursor.replayed <= |ticket.recorded|
  {
    Keys(c.safeSteps) + RecordedKeys(ticket.recorded[cursor.replayed..])
  }

  lemma AccountedPrepend(before: seq<ActionKey>, executed: seq<ActionKey>, rest: Pass)
    requires Accounted(before + executed, false, rest)
    ensures Accounted(before, false, Pass(rest.ending, executed + rest.executed))
  {
    assert before + executed + rest.executed == before + (executed + rest.executed);
  }

  /** How one iteration treats the invariants. */
  lemma TurnSane(limits: Limits, env: Env, ticket: Ticket, c: Core, cursor: Cursor)
    requires Sane(limits, c) && env.permitted <= APPROVED_TOOLS && cursor.replayed <= |ticket.recorded|
    ensures var t := Turn(limits, env, ticket, c, cursor);
            && (t.Ends? && t.ending.Terminal? ==> Persistable(limits, t.ending.outcome))
            && (t.Ends? && t.ending.Paused? ==> CleanPause(limits, t.ending.pause))
            && (t.Goes? ==>
                  && Sane(limits, t.core) && t.cursor.replayed <= |ticket.recorded|
                  && t.core.plan.executed == c.plan.executed + {c.decision.next.Key()})
  {
    hide Persistable, Resting, CleanPause, Validate, FinalizeAnswer, Absorb, Observe, FailedCall, MustPause;
    var gate := Gate(limits, env, c);
    GatePersistable(limits, env, c);
    if gate.Act? {
      var tool, step := gate.tool, gate.step;
      if cursor.replayed < |ticket.recorded| {
        AbsorbSane(limits, env, c, tool, step, ticket.recorded[cursor.replayed].observation);
      } else {
        PauseClean(limits, env, c, tool, step);
        match env.tool(c.decision.next)
        case DeadlineExceeded => FailedCallPersistable(limits, env, c, tool, step, true);
        case Raised => FailedCallPersistable(limits, env, c, tool, step, false);
        case Answered(result) => AbsorbSane(limits, env, c, tool, step, Observe(result, cursor.numbering));
      }
    }
  }

  lemma PauseClean(limits: Limits, env: Env, c: Core, tool: string, step: Step)
    requires Due(limits, env, c, tool, step)
    ensures CleanPause(limits, PauseFor(c, tool))
  {
    assert c.decision.next.Key() !in c.plan.executed;
  }

  /** No executed action is one of the recorded ones. */
  ghost predicate NotReplayed(recorded: seq<Recorded>, from: nat, executed: seq<ActionKey>) {
    forall i, j :: 0 <= i < |executed| && from <= j < |recorded| ==> executed[i] != recorded[j].key
  }

  /** Every terminal outcome of the rest of a pass is persistable, every pause is clean, and no key repeats. */
  lemma {:induction false} RunFromSane(limits: Limits, env: Env, ticket: Ticket, c: Core, cursor: Cursor)
    requires Sane(limits, c) && env.permitted <= APPROVED_TOOLS && cursor.replayed <= |ticket.recorded|
    ensures var pass := RunFrom(limits, env, ticket, c, cursor);
            && (pass.ending.Terminal? ==> Persistable(limits, pass.ending.outcome))
            && (pass.ending.Paused? ==> CleanPause(limits, pass.ending.pause))
            && Distinct(pass.executed) && (forall i :: 0 <= i < |pass.executed| ==> pass.executed[i] !in c.plan.executed)
            && NotReplayed(ticket.recorded, cursor.replayed, pass.executed)
    decreases limits.maxSteps - c.steps
  {
    hide Persistable, Resting, CleanPause, Turn;
    TurnSane(limits, env, ticket, c, cursor);
    TurnSteps(limits, env, ticket, c, cursor);
    TurnAuthorized(limits, env, ticket, c, cursor);
    var t := Turn(limits, env, ticket, c, cursor);
    if t.Goes? {
      RunFromSane(limits, env, ticket, t.core, t.cursor);
    }
    if t.executed != [] {
      NextIsNew(limits, c);
    }
  }

  lemma NextIsNew(limits: Limits, c: Core)
    requires Sane(limits, c)
    ensures c.decision.next.Key() !in c.plan.executed
  {
  }

  /** How one iteration treats its authority: it executes nothing, or exactly the action it was allowed to. */
  lemma TurnAuthorized(limits: Limits, env: Env, ticket: Ticket, c: Core, cursor: Cursor)
    requires cursor.replayed <= |ticket.recorded|
    ensures var t := Turn(limits, env, ticket, c, cursor);
            && (t.executed != [] ==>
                  && cursor.replayed == |ticket.recorded| && t.executed == [c.decision.next.Key()]
                  && c.steps < limits.maxSteps && Authorized(ticket.mode, cursor.approved, t.executed))
            && (t.Ends? && t.ending.Paused? ==>
                  cursor.replayed == |ticket.recorded| && cursor.approved.None? && t.executed == [])
            && (t.Goes? && t.executed == [] ==>
                  && cursor.replayed < |ticket.recorded| && t.cursor == cursor.(replayed := cursor.replayed + 1)
                  && ticket.recorded[cursor.replayed].key == c.decision.next.Key())
            && (t.Goes? && t.executed != [] ==> t.cursor.replayed == cursor.replayed && t.cursor.approved.None?)
  {
    hide Absorb, Validate, FinalizeAnswer, FailedCall, Observe;
    GateNames(limits, env, c);
  }

  lemma {:induction false} RunFromAuthorized(limits: Limits, env: Env, ticket: Ticket, c: Core, cursor: Cursor)
    requires cursor.replayed <= |ticket.recorded|
    ensures var pass := RunFrom(limits, env, ticket, c, cursor);
            && Authorized(ticket.mode, cursor.approved, pass.executed)
            && (pass.ending.Paused? && cursor.approved.Some? ==> pass.executed != [])
            && (pass.executed != [] ==>
                  |ticket.recorded| - cursor.replayed + |pass.executed| <= limits.maxSteps - c.steps)
    decreases limits.maxSteps - c.steps
  {
    hide Turn;
    TurnSteps(limits, env, ticket, c, cursor);
    TurnAuthorized(limits, env, ticket, c, cursor);
    var t := Turn(limits, env, ticket, c, cursor);
    if t.Goes? {
      RunFromAuthorized(limits, env, ticket, t.core, t.cursor);
    }
  }

  /** How one iteration extends the list of steps. */
  lemma TurnAccounted(limits: Limits, env: Env, ticket: Ticket, c: Core, cursor: Cursor)
    requires Sane(limits, c) && env.permitted <= APPROVED_TOOLS && cursor.replayed <= |ticket.recorded|
    ensures var t := Turn(limits, env, ticket, c, cursor);
            && (t.Ends? && t.ending.Paused? ==> t.ending.pause.safeSteps == c.safeSteps)
            && (t.Ends? && t.ending.Terminal? ==>
                  || Keys(t.ending.outcome.safeSteps) == Keys(c.safeSteps) + t.executed
                  || (t.executed == [] && cursor.replayed < |ticket.recorded| &&
                      Keys(t.ending.outcome.safeSteps) == Keys(c.safeSteps) + [ticket.recorded[cursor.replayed].key]))
            && (t.Goes? ==>
                  Keys(t.core.safeSteps) == Keys(c.safeSteps) +
                    (if t.executed == [] && cursor.replayed < |ticket.recorded| then [ticket.recorded[cursor.replayed].key]
                     else t.executed))
  {
    hide Persistable, Resting, Validate, Absorb, Observe, MustPause;
    var gate := Gate(limits, env, c);
    if gate.Act? {
      var tool, step := gate.tool, gate.step;
      if cursor.replayed < |ticket.recorded| {
        AbsorbSane(limits, env, c, tool, step, ticket.recorded[cursor.replayed].observation);
      } else if env.tool(c.decision.next).Answered? {
        AbsorbSane(limits, env, c, tool, step, Observe(env.tool(c.decision.next).result, cursor.numbering));
      }
    } else {
      GateKeepsSteps(limits, env, c);
    }
  }

  lemma GateKeepsSteps(limits: Limits, env: Env, c: Core)
    ensures Gate(limits, env, c).Halt? ==> Keeps(c, Gate(limits, env, c).outcome)
  {
    hide Validate, Judge;
  }

  lemma ReplayedKey(ticket: Ticket, c: Core, cursor: Cursor, c': Core)
    requires cursor.replayed < |ticket.recorded|
    requires Keys(c'.safeSteps) == Keys(c.safeSteps) + [ticket.recorded[cursor.replayed].key]
    ensures Expected(ticket, c, cursor) == Expected(ticket, c', cursor.(replayed := cursor.replayed + 1))
  {
    var rest := ticket.recorded[cursor.replayed..];
    assert RecordedKeys(rest) == [rest[0].key] + RecordedKeys(ticket.recorded[cursor.replayed + 1..]);
  }

  lemma {:induction false} RunFromAccounted(limits: Limits, env: Env, ticket: Ticket, c: Core, cursor: Cursor)
    requires Sane(limits, c) && env.permitted <= APPROVED_TOOLS && cursor.replayed <= |ticket.recorded|
    ensures Accounted(Expected(ticket, c, cursor), cursor.replayed < |ticket.recorded|,
                      RunFrom(limits, env, ticket, c, cursor))
    decreases limits.maxSteps - c.steps
  {
    hide Persistable, Resting, CleanPause, Turn, Authorized;
    TurnSane(limits, env, ticket, c, cursor);
    TurnSteps(limits, env, ticket, c, cursor);
    TurnAuthorized(limits, env, ticket, c, cursor);
    TurnAccounted(limits, env, ticket, c, cursor);
    var t := Turn(limits, env, ticket, c, cursor);
    if t.Goes? {
      var rest := RunFrom(limits, env, ticket, t.core, t.cursor);
      assert Accounted(Expected(ticket, t.core, t.cursor), t.cursor.replayed < |ticket.recorded|, rest) by {
        RunFromAccounted(limits, env, ticket, t.core, t.cursor);
      }
      if t.executed == [] {
        ReplayedKey(ticket, c, cursor, t.core);
        assert t.executed + rest.executed == rest.executed;
      } else {
        assert Expected(ticket, t.core, t.cursor) == Expected(ticket, c, cursor) + t.executed;
        AccountedPrepend(Expected(ticket, c, cursor), t.executed, rest);
      }
    }
  }

  // ---------------------------------------------------------------- searches and calculations

  predicate IsSearch(key: ActionKey) {
    key.name == Some(SEARCH_DOCUMENTS)
  }

  function SearchCount(keys: seq<ActionKey>): nat {
    if keys == [] then 0 else (if IsSearch(keys[0]) then 1 else 0) + SearchCount(keys[1..])
  }

  lemma {:induction false} SearchCountAppend(a: seq<ActionKey>, b: seq<ActionKey>)
    ensures SearchCount(a + b) == SearchCount(a) + SearchCount(b)
  {
    if a == [] {
      assert a + b == b;
    } else {
      assert (a + b)[1..] == a[1..] + b;
      SearchCountAppend(a[1..], b);
    }
  }

  lemma {:induction false} SearchCountPrefix(keys: seq<ActionKey>, n: nat)
    requires n <= |keys|
    ensures SearchCount(keys[..n]) <= SearchCount(keys)
  {
    assert keys == keys[..n] + keys[n..];
    SearchCountAppend(keys[..n], keys[n..]);
  }

  lemma AbsorbRetrievals(limits: Limits, env: Env, c: Core, tool: string, step: Step, o: Observation)
    ensures var a := Absorb(limits, env, c, tool, step, o);
            a.Continue? ==> a.core.retrievals == c.retrievals + (if tool == SEARCH_DOCUMENTS then 1 else 0)
  {
    hide CompleteNext, ApplyDecision, FinalizeCalculations, StoreAll, Snapshot, StepFor;
  }

  lemma ContinuesOnlyThen(limits: Limits, env: Env, c: Core, tool: string, step: Step, o: Observation)
    requires Absorb(limits, env, c, tool, step, o).Continue?
    ensures o.status == Success && o.calculations == [] && tool != SEARCH_MEMORY && tool != PROPOSE_MEMORY
  {
    hide CompleteNext, Deliberate, FinalizeCalculations, StoreAll, Snapshot, StepFor;
  }

  /** A run goes on only after excerpts: every other kind of result ends it. */
  lemma OnlyExcerptsContinue(env: Env, action: Action)
    requires action.name.Some? && env.tool(action).Answered?
    requires var result := env.tool(action).result;
             && result.status == Success && !(result.payload.Results? && result.payload.calculations != [])
             && action.name != Some(SEARCH_MEMORY) && action.name != Some(PROPOSE_MEMORY)
    ensures env.tool(action).result.payload.Excerpts? && !IsCalculation(action.name.value)
  {
    if IsCalculation(action.name.value) {
      CalculationConforms(action.name.value, env.invoke(action));
    }
  }

  /** How one iteration treats the search budget. */
  lemma TurnSearches(limits: Limits, env: Env, ticket: Ticket, c: Core, cursor: Cursor)
    requires c.retrievals <= 1 + limits.maxRewrites
    ensures var t := Turn(limits, env, ticket, c, cursor);
            var one := if IsSearch(c.decision.next.Key()) then 1 else 0;
            && (t.Goes? ==> t.core.retrievals == c.retrievals + one)
            && (t.executed != [] ==> t.executed == [c.decision.next.Key()])
            && (t.executed != [] || t.Goes? ==> c.retrievals + one <= 1 + limits.maxRewrites)
  {
    hide Absorb, Validate, FinalizeAnswer, FailedCall, MustPause, Observe, Vet;
    var gate := Gate(limits, env, c);
    GateNames(limits, env, c);
    if gate.Act? {
      GateSearches(limits, env, c);
      if cursor.replayed < |ticket.recorded| {
        AbsorbRetrievals(limits, env, c, gate.tool, gate.step, ticket.recorded[cursor.replayed].observation);
      } else if env.tool(c.decision.next).Answered? {
        AbsorbRetrievals(limits, env, c, gate.tool, gate.step, Observe(env.tool(c.decision.next).result, cursor.numbering));
      }
    }
  }

  lemma GateSearches(limits: Limits, env: Env, c: Core)
    ensures var gate := Gate(limits, env, c);
            gate.Act? && gate.tool == SEARCH_DOCUMENTS ==> c.retrievals < 1 + limits.maxRewrites
  {
    hide Validate, FinalizeAnswer;
  }

  lemma SearchCountHead(recorded: seq<Recorded>, i: nat)
    requires i < |recorded|
    ensures SearchCount(RecordedKeys(recorded[i..])) ==
            (if IsSearch(recorded[i].key) then 1 else 0) + SearchCount(RecordedKeys(recorded[i + 1..]))
  {
    assert RecordedKeys(recorded[i..])[1..] == RecordedKeys(recorded[i + 1..]);
  }

  /** The searches of the records still to be replayed and of the executions stay within what is left of the budget. */
  lemma {:induction false} RunFromSearches(limits: Limits, env: Env, ticket: Ticket, c: Core, cursor: Cursor)
    requires cursor.replayed <= |ticket.recorded| && c.retrievals <= 1 + limits.maxRewrites
    ensures var executed := RunFrom(limits, env, ticket, c, cursor).executed;
            executed != [] ==>
              c.retrievals + SearchCount(RecordedKeys(ticket.recorded[cursor.replayed..])) + SearchCount(executed)
              <= 1 + limits.maxRewrites
    decreases limits.maxSteps - c.steps
  {
    hide Turn, Authorized;
    TurnSteps(limits, env, ticket, c, cursor);
    TurnAuthorized(limits, env, ticket, c, cursor);
    TurnSearches(limits, env, ticket, c, cursor);
    var t := Turn(limits, env, ticket, c, cursor);
    if t.executed == [] && t.Goes? {
      SearchCountHead(ticket.recorded, cursor.replayed);
      var rest := RunFrom(limits, env, ticket, t.core, t.cursor);
      assert t.executed + rest.executed == rest.executed;
    } else if t.Goes? {
      SearchCountAppend(t.executed, RunFrom(limits, env, ticket, t.core, t.cursor).executed);
      NoSearches();
    }
    if t.executed != [] {
      assert RecordedKeys(ticket.recorded[cursor.replayed..]) == [];
      OneSearch(c.decision.next.Key());
    }
    if t.Goes? {
      RunFromSearches(limits, env, ticket, t.core, t.cursor);
    }
  }

  lemma NoSearches()
    ensures SearchCount([]) == 0
  {
  }

  lemma OneSearch(key: ActionKey)
    ensures SearchCount([key]) == if IsSearch(key) then 1 else 0
  {
    assert [key][1..] == [];
  }

  /** A fresh call after which the pass goes on was not a calculation. */
  lemma TurnGoesOnExcerpts(limits: Limits, env: Env, ticket: Ticket, c: Core, cursor: Cursor)
    ensures var t := Turn(limits, env, ticket, c, cursor);
            t.Goes? && t.executed != [] ==> NotCalculation(c.decision.next.Key())
  {
    hide Absorb, Validate, FinalizeAnswer, FailedCall, MustPause, Vet;
    var gate, t := Gate(limits, env, c), Turn(limits, env, ticket, c, cursor);
    GateNames(limits, env, c);
    if t.Goes? && t.executed != [] {
      var o := Observe(env.tool(c.decision.next).result, cursor.numbering);
      ContinuesOnlyThen(limits, env, c, gate.tool, gate.step, o);
      OnlyExcerptsContinue(env, c.decision.next);
    }
  }

  predicate NotCalculation(key: ActionKey) {
    key.name.Some? && !IsCalculation(key.name.value)
  }

  predicate NoCalculations(keys: seq<ActionKey>) {
    forall i :: 0 <= i < |keys| ==> NotCalculation(keys[i])
  }

  lemma NoCalculationsAppend(a: seq<ActionKey>, b: seq<ActionKey>)
    requires NoCalculations(a) && NoCalculations(b)
    ensures NoCalculations(a + b)
  {
  }

  /** What a pass executed before it paused can be rebuilt: no calculation is among it. */
  lemma {:induction false} PausedWithoutCalculations(limits: Limits, env: Env, ticket: Ticket, c: Core, cursor: Cursor)
    requires cursor.replayed <= |ticket.recorded|
    ensures var pass := RunFrom(limits, env, ticket, c, cursor);
            pass.ending.Paused? ==> NoCalculations(pass.executed)
    decreases limits.maxSteps - c.steps
  {
    hide Turn, Authorized, NotCalculation;
    TurnSteps(limits, env, ticket, c, cursor);
    TurnAuthorized(limits, env, ticket, c, cursor);
    TurnGoesOnExcerpts(limits, env, ticket, c, cursor);
    var t := Turn(limits, env, ticket, c, cursor);
    if t.Goes? {
      PausedWithoutCalculations(limits, env, ticket, t.core, t.cursor);
      var rest := RunFrom(limits, env, ticket, t.core, t.cursor);
      if rest.ending.Paused? {
        NoCalculationsAppend(t.executed, rest.executed);
      }
    }
  }

  /**
   Main guarantees of a pass, for every oracle, every recorded history and every approval: at most `maxSteps`
   executions, at most `1 + maxRewrites` searches, a persistable outcome or a clean pause, and a history accounted for
   by records and executions.
   */
  lemma PassSafe(limits: Limits, env: Env, ticket: Ticket)
    requires env.permitted <= APPROVED_TOOLS
    ensures var pass := RunPass(limits, env, ticket);
            && (pass.ending.Terminal? ==> Persistable(limits, pass.ending.outcome))
            && (pass.ending.Paused? ==>
                  && CleanPause(limits, pass.ending.pause)
                  && Keys(pass.ending.pause.safeSteps) == RecordedKeys(ticket.recorded) + pass.executed
                  && (ticket.approved.Some? ==> pass.executed != []))
            && (pass.ending.Terminal? && pass.executed != [] ==>
                  Keys(pass.ending.outcome.safeSteps) == RecordedKeys(ticket.recorded) + pass.executed)
            && (pass.ending.Terminal? && pass.executed == [] ==>
                  Keys(pass.ending.outcome.safeSteps) <= RecordedKeys(ticket.recorded))
            && Authorized(ticket.mode, ticket.approved, pass.executed)
            && (pass.executed != [] ==>
                  && |ticket.recorded| + |pass.executed| <= limits.maxSteps
                  && SearchCount(RecordedKeys(ticket.recorded)) + SearchCount(pass.executed) <= 1 + limits.maxRewrites)
            && (pass.ending.Paused? ==> NoCalculations(pass.executed))
            && Distinct(pass.executed)
            && NotReplayed(ticket.recorded, 0, pass.executed)
  {
    hide Persistable, Resting, CleanPause, RunFrom, Authorized, Distinct, NotCalculation, SearchCount;
    NothingExecuted(ticket);
    OpenSane(limits, env);
    if Open(env).Opened? {
      var c, cursor := Open(env).core, StartCursor(ticket);
      RunFromSane(limits, env, ticket, c, cursor);
      RunFromAuthorized(limits, env, ticket, c, cursor);
      RunFromAccounted(limits, env, ticket, c, cursor);
      RunFromSearches(limits, env, ticket, c, cursor);
      PausedWithoutCalculations(limits, env, ticket, c, cursor);
      assert ticket.recorded[0..] == ticket.recorded;
      assert Expected(ticket, c, cursor) == RecordedKeys(ticket.recorded) by {
        assert ticket.recorded[0..] == ticket.recorded;
      }
    }
  }

  lemma NothingExecuted(ticket: Ticket)
    ensures Authorized(ticket.mode, ticket.approved, []) && Distinct([])
  {
  }
}
