/**
 Runs in which something expected fails: two in which a replay does not repeat the decisions of the pass before it, and
 one whose search finds too much. All consist of valid events only, and no tool or provider fails in them.
 */
module ReplayHazards {
  import opened Wrappers
  import opened AgentTypes
  import opened Gateway
  import opened PlanState
  import opened AgentLoop
  import opened LoopSafety
  import opened PassSafety
  import opened RunHistory
  import opened Approvals
  import opened Protocol
  import opened Resumption

  const LIMITS: Limits := Limits(4, 1, 1)

  const TEXT := ["Search for the revenue", "Search for the margins", "Recall the format"]

  /** Two searches of the documents, then one of the memory. */
  function Tool(n: nat): string {
    if n <= 1 then SEARCH_DOCUMENTS else SEARCH_MEMORY
  }

  function Topic(n: nat): string {
    if n == 0 then "revenue" else if n == 1 then "margins" else "format"
  }

  function Input(n: nat): string {
    if n <= 1 then "{\"query\":\"" + Topic(n) + "\",\"top_k\":20}"
    else "{\"mode\":\"relevant\",\"query\":\"" + Topic(n) + "\",\"top_k\":5}"
  }

  lemma InputsDiffer()
    ensures Input(0) != Input(1) && Input(0) != Input(2) && Input(1) != Input(2)
  {
    assert Topic(0)[0] == 'r' && Topic(1)[0] == 'm';
    hide Topic;
    assert Input(0)[10] == Topic(0)[0] && Input(1)[10] == Topic(1)[0];
    assert Input(0)[2] == 'q' && Input(1)[2] == 'q' && Input(2)[2] == 'm';
  }

  /** The `n`-th of the three looks. */
  function Look(n: nat): Action {
    Action(ToolCall, Some(Tool(n)), ToolInput(Input(n)), "EVIDENCE_NEEDED")
  }

  function StepAt(n: nat, done: bool): Step {
    Step(n, ToolCall, Some(Tool(n)), if done then Completed else Pending, if done then "TOOL_COMPLETED" else "PLANNED")
  }

  /** The plan for all three, with the first `n` steps completed. */
  function FullPlan(version: nat, reason: string, n: nat): Plan {
    Plan(version, TEXT, [StepAt(0, n > 0), StepAt(1, n > 1), StepAt(2, n > 2)], reason)
  }

  /** Keeps the plan it is shown and goes on, or replaces it by a second version once. */
  function Next(replans: bool, plan: Plan, done: nat): Reply<Decision> {
    if !plan.Valid() then ProviderFailed
    else if replans then Replied(Decision(FullPlan(2, "EVIDENCE_MISSING", 0), Look(1), true))
    else Replied(Decision(plan, Look(done), false))
  }

  const FOUND: ToolReply := Answered(ToolResult(Success, Excerpts([]), 0, "TOOL_COMPLETED"))

  /** Providers that explain their plan by `reason`, in a world where searches find nothing. */
  function World(reason: string, replans: bool): Env {
    Env(APPROVED_TOOLS, Replied(Perception("")), p => Replied(Decision(FullPlan(1, reason, 0), Look(0), false)),
        (p, plan, done, o, budgets) => Replied(p), (p, plan, done: seq<CompletedStep>) => Next(replans, plan, |done|),
        action => FOUND, evidence => ProviderFailed)
  }

  const EMPTY: Observation := Observation(Success, [], [], [], false, 0, "TOOL_COMPLETED")

  function Taken(n: nat): SafeStep {
    SafeStep(1, n, Tool(n), Look(n).Key(), StepCompleted, true, "TOOL_COMPLETED")
  }

  /** The loop after `n` searches under the first plan. */
  function At(reason: string, n: nat): Core
    requires n <= 2
  {
    var plan := FullPlan(1, reason, n);
    Core(Decision(plan, Look(n), false), Perception(""),
         State(plan, [plan],
               if n == 0 then [] else if n == 1 then [Done(0)] else [Done(0), Done(1)],
               if n == 0 then {} else if n == 1 then {Look(0).Key()} else {Look(0).Key(), Look(1).Key()}),
         [plan], n, n, 0, 0, [],
         if n == 0 then [] else if n == 1 then [Taken(0)] else [Taken(0), Taken(1)],
         if n == 0 then [] else if n == 1 then [Snapshot(EMPTY)] else [Snapshot(EMPTY), Snapshot(EMPTY)])
  }

  function Done(n: nat): CompletedStep {
    CompletedStep(1, n, ToolCall, Some(Tool(n)))
  }

  /** The loop after one search, when the plan was replaced. */
  function Replanned(reason: string): Core {
    var first, plan := FullPlan(1, reason, 1), FullPlan(2, "EVIDENCE_MISSING", 0);
    Core(Decision(plan, Look(1), true), Perception(""), State(plan, [first, plan], [Done(0)], {Look(0).Key()}),
         [first, plan], 1, 1, 1, 0, [], [Taken(0)], [Snapshot(EMPTY)])
  }

  // ---------------------------------------------------------------- single steps

  lemma NextStep(reason: string, n: nat)
    requires n <= 2
    ensures FirstPending(FullPlan(1, reason, n).steps) == n && FullPlan(1, reason, n).Valid()
    ensures Validate(At(reason, n).plan, Look(n)) == Ok(StepAt(n, false))
  {
    hide Input;
    FirstPendingUnique(FullPlan(1, reason, n).steps, n);
    InputsDiffer();
  }

  lemma GateAt(reason: string, n: nat, replans: bool)
    requires n <= 2
    ensures Gate(LIMITS, World(reason, replans), At(reason, n)) == Act(Tool(n), StepAt(n, false))
  {
    hide Validate, Input;
    NextStep(reason, n);
    Names();
  }

  lemma Names()
    ensures SEARCH_DOCUMENTS != SEARCH_MEMORY && SEARCH_DOCUMENTS != PROPOSE_MEMORY
  {
    assert SEARCH_DOCUMENTS[10] == 's' && PROPOSE_MEMORY[10] == 'p';
    assert SEARCH_MEMORY[17] == 'm' && SEARCH_DOCUMENTS[17] == 'a';
  }

  lemma Completes(reason: string, n: nat)
    requires n <= 1
    ensures CompleteNext(At(reason, n).plan, Look(n)) == Ok(At(reason, n + 1).plan)
  {
    hide Validate, FirstPending, Input;
    NextStep(reason, n);
    var s := At(reason, n).plan;
    var s' := CompleteNext(s, Look(n)).value;
    assert s'.current.steps == FullPlan(1, reason, n + 1).steps;
    assert s'.versions == [s'.current];
    assert s'.completed == At(reason, n + 1).plan.completed;
    assert s'.executed == At(reason, n + 1).plan.executed;
  }

  /** The loop after the search, before the providers are asked. */
  function AfterLook(reason: string, n: nat): Core
    requires n <= 1
  {
    At(reason, n + 1).(decision := At(reason, n).decision)
  }

  lemma AbsorbsLook(reason: string, n: nat, replans: bool)
    requires n <= 1
    ensures Absorb(LIMITS, World(reason, replans), At(reason, n), Tool(n), StepAt(n, false), EMPTY)
         == Deliberate(LIMITS, World(reason, replans), AfterLook(reason, n), EMPTY)
  {
    hide CompleteNext, Snapshot, Deliberate, World;
    Names();
    Completes(reason, n);
    var c, c' := At(reason, n), At(reason, n + 1);
    assert Record(c, Tool(n), StepAt(n, false), EMPTY).safeSteps == c'.safeSteps;
    assert Record(c, Tool(n), StepAt(n, false), EMPTY).safeObservations == c'.safeObservations;
    assert StoreAll([], []) == [];
  }

  /** After a search the providers go on with the plan. */
  lemma LooksOn(reason: string, n: nat)
    requires n <= 1
    ensures Absorb(LIMITS, World(reason, false), At(reason, n), Tool(n), StepAt(n, false), EMPTY)
         == Continue(At(reason, n + 1))
  {
    hide Validate, FirstPending, Snapshot, Absorb;
    AbsorbsLook(reason, n, false);
    NextStep(reason, n + 1);
    var c' := At(reason, n + 1);
    assert ApplyDecision(c'.plan, c'.decision) == Ok((c'.plan, false));
  }

  /** After the first search the providers replace the plan. */
  lemma LooksAndReplans(reason: string)
    ensures Absorb(LIMITS, World(reason, true), At(reason, 0), Tool(0), StepAt(0, false), EMPTY)
         == Continue(Replanned(reason))
    ensures Gate(LIMITS, World(reason, true), Replanned(reason)) == Act(Tool(1), StepAt(0, false))
  {
    hide Snapshot, Absorb, Validate, FirstPending;
    Names();
    AbsorbsLook(reason, 0, true);
    NextStep(reason, 1);
    var c', s := Replanned(reason), At(reason, 1).plan;
    ValidatesNew(reason);
    assert s.current.steps[0].status != FullPlan(2, "EVIDENCE_MISSING", 0).steps[0].status;
    assert s.versions + [FullPlan(2, "EVIDENCE_MISSING", 0)] == c'.plan.versions;
    assert ApplyDecision(s, c'.decision) == Ok((c'.plan, true));
  }

  lemma ValidatesNew(reason: string)
    ensures Validate(Replanned(reason).plan, Look(1)) == Ok(StepAt(0, false))
  {
    hide Input;
    FirstPendingUnique(FullPlan(2, "EVIDENCE_MISSING", 0).steps, 0);
    InputsDiffer();
  }

  // ---------------------------------------------------------------- passes

  /** In the guided mode a call that is due and not approved pauses the pass. */
  lemma {:induction false} Pauses(env: Env, ticket: Ticket, c: Core, n: nat, tool: string, step: Step)
    requires ticket.mode == Guided && Gate(LIMITS, env, c) == Act(tool, step)
    ensures RunFrom(LIMITS, env, ticket, c, Cursor(|ticket.recorded|, None, n)) == Pass(Paused(PauseFor(c, tool)), [])
  {
    hide Gate, Absorb;
  }

  lemma Finds(reason: string, replans: bool, n: nat, from: nat)
    requires n <= 1
    ensures World(reason, replans).tool(Look(n)) == FOUND && Observe(FOUND.result, from) == EMPTY
  {
    assert Number([], from) == [];
  }

  /** The approved search is made, and the pass goes on from `next`. */
  lemma {:induction false} LooksApproved(reason: string, replans: bool, ticket: Ticket, n: nat, next: Core)
    requires n <= 1 && Absorb(LIMITS, World(reason, replans), At(reason, n), Tool(n), StepAt(n, false), EMPTY) == Continue(next)
    requires next.steps == n + 1
    ensures var env, from := World(reason, replans), |ticket.recorded|;
            var rest := RunFrom(LIMITS, env, ticket, next, Cursor(from, None, 0));
            RunFrom(LIMITS, env, ticket, At(reason, n), Cursor(from, Some(Look(n).Key()), 0))
            == Pass(rest.ending, [Look(n).Key()] + rest.executed)
  {
    hide Gate, Absorb, World, Observe;
    GateAt(reason, n, replans);
    Finds(reason, replans, n, 0);
  }

  lemma Opens(reason: string, replans: bool)
    ensures Open(World(reason, replans)) == Opened(At(reason, 0)) && World(reason, replans).permitted <= APPROVED_TOOLS
  {
    hide Validate;
    NextStep(reason, 0);
  }

  /** The first pass pauses before the first search. */
  lemma FirstPause(reason: string)
    ensures RunPass(LIMITS, World(reason, false), Ticket(Guided, None, []))
         == Pass(Paused(PauseFor(At(reason, 0), Tool(0))), [])
  {
    hide RunFrom, World, Open, Gate;
    Opens(reason, false);
    GateAt(reason, 0, false);
    Pauses(World(reason, false), Ticket(Guided, None, []), At(reason, 0), 0, Tool(0), StepAt(0, false));
  }

  /** A resumed pass makes the first search and pauses before the second, under the old plan or a new one. */
  lemma SecondPause(reason: string, replans: bool)
    ensures RunPass(LIMITS, World(reason, replans), Ticket(Guided, Some(Look(0).Key()), []))
         == Pass(Paused(PauseFor(if replans then Replanned(reason) else At(reason, 1), Tool(1))), [Look(0).Key()])
  {
    hide RunFrom, World, Open, Gate, Absorb;
    var ticket, next := Ticket(Guided, Some(Look(0).Key()), []), if replans then Replanned(reason) else At(reason, 1);
    Opens(reason, replans);
    if replans {
      LooksAndReplans(reason);
    } else {
      LooksOn(reason, 0);
      GateAt(reason, 1, false);
    }
    LooksApproved(reason, replans, ticket, 0, next);
    Pauses(World(reason, replans), ticket, next, 0, Tool(1), StepAt(if replans then 0 else 1, false));
    assert [Look(0).Key()] + [] == [Look(0).Key()];
  }

  /** A pass that replays the first search under the first plan makes the second and pauses before the third. */
  lemma ThirdPause(reason: string)
    ensures RunPass(LIMITS, World(reason, false), Ticket(Guided, Some(Look(1).Key()), [Recorded(Look(0).Key(), EMPTY)]))
         == Pass(Paused(PauseFor(At(reason, 2), Tool(2))), [Look(1).Key()])
  {
    hide RunFrom, World, Open, Gate, Absorb;
    var env, ticket := World(reason, false), Ticket(Guided, Some(Look(1).Key()), [Recorded(Look(0).Key(), EMPTY)]);
    Opens(reason, false);
    NoEvidenceYet();
    Replays0(reason, ticket);
    LooksOn(reason, 1);
    GateAt(reason, 2, false);
    LooksApproved(reason, false, ticket, 1, At(reason, 2));
    Pauses(env, ticket, At(reason, 2), 0, Tool(2), StepAt(2, false));
    assert [Look(1).Key()] + [] == [Look(1).Key()];
  }

  lemma NoEvidenceYet()
    ensures EvidenceCount([Recorded(Look(0).Key(), EMPTY)]) == 0
  {
    assert [Recorded(Look(0).Key(), EMPTY)][1..] == [];
  }

  lemma {:induction false} Replays0(reason: string, ticket: Ticket)
    requires ticket.recorded == [Recorded(Look(0).Key(), EMPTY)]
    ensures RunFrom(LIMITS, World(reason, false), ticket, At(reason, 0), Cursor(0, ticket.approved, 0))
         == RunFrom(LIMITS, World(reason, false), ticket, At(reason, 1), Cursor(1, ticket.approved, 0))
  {
    hide World, Gate, Absorb;
    GateAt(reason, 0, false);
    LooksOn(reason, 0);
    var rest := RunFrom(LIMITS, World(reason, false), ticket, At(reason, 1), Cursor(1, ticket.approved, 0));
    assert [] + rest.executed == rest.executed;
  }

  // ---------------------------------------------------------------- stored rows

  const SCOPE := "scope"

  function Ask(n: nat, version: nat, at: int, status: ApprovalStatus): Approval {
    Approval(Look(n).Key(), Tool(n), version, n + 1, SCOPE, at + APPROVAL_LIFETIME, status)
  }

  function Kept(n: nat): StoredStep {
    StoredStep(Taken(n), Some(Snapshot(EMPTY)))
  }

  const INITIAL := "INITIAL_PLAN"
  const OTHER := "OTHER_WORDING"

  const FIRST_PLAN: PlanRow := PlanRow(INITIAL, 3)
  const SECOND_PLAN: PlanRow := PlanRow("EVIDENCE_MISSING", 3)

  /** Waiting for the first search. */
  function Waiting1(reason: string): Run {
    Run(Row(AwaitingApproval, Guided, History([PlanRow(reason, 3)], [], 1), [Ask(0, 1, 0, PendingApproval)]), [], None)
  }

  /** Waiting for the second search under the second plan. */
  function Waiting2(): Run {
    Run(Row(AwaitingApproval, Guided, History([FIRST_PLAN, SECOND_PLAN], [Kept(0)], 2),
            [Ask(0, 1, 0, Consumed), Ask(1, 2, 2, PendingApproval)]),
        [Execution(Look(0).Key(), SCOPE)], None)
  }

  /** Waiting to search the memory under the first plan again. */
  function Waiting3(): Run {
    Run(Row(AwaitingApproval, Guided, History([FIRST_PLAN, SECOND_PLAN], [Kept(0), Kept(1)], 1),
            [Ask(0, 1, 0, Consumed), Ask(1, 2, 2, Consumed), Ask(2, 1, 4, PendingApproval)]),
        [Execution(Look(0).Key(), SCOPE), Execution(Look(1).Key(), SCOPE)], None)
  }

  lemma PauseIsClean(reason: string, replans: bool, ticket: Ticket, p: Pause, executed: seq<ActionKey>)
    requires RunPass(LIMITS, World(reason, replans), ticket) == Pass(Paused(p), executed)
    ensures CleanPause(LIMITS, p)
  {
    hide RunPass, CleanPause, World;
    Opens(reason, replans);
    PassSafe(LIMITS, World(reason, replans), ticket);
  }

  lemma Stage1(reason: string)
    ensures Apply(LIMITS, Apply(LIMITS, NewRun(Guided), Begin(SCOPE)), Landing(World(reason, false), true, 0)) == Waiting1(reason)
  {
    hide RunPass, World, Persist, CleanPause;
    FirstPause(reason);
    var c := At(reason, 0);
    var p := PauseFor(c, Tool(0));
    PauseIsClean(reason, false, Ticket(Guided, None, []), p, []);
    Stored(EMPTY_HISTORY, p);
    assert NewRows(p.plans, 0) == [PlanRow(reason, 3)];
    assert Log([], SCOPE) == [];
  }

  /** Storing a clean pause that replays what is stored. */
  lemma Stored(h: History, p: Pause)
    requires CleanPause(LIMITS, p) && Replays(h, p)
    ensures Persist(h, p.plans, p.safeSteps, p.safeObservations, true)
         == Some(History(h.planRows + NewRows(p.plans, |h.planRows|), h.steps + NewSteps(p.safeSteps, p.safeObservations, |h.steps|), |p.plans|))
  {
    hide CleanPause;
    PauseExactly(LIMITS, Row(Running, Guided, h, []), p, SCOPE, true, 0);
  }

  /** The pending approval of the first search is accepted. */
  lemma Approve1(reason: string, fetch: Fetch)
    ensures Apply(LIMITS, Waiting1(reason), Approving(0, 1, SCOPE, true, fetch))
         == Run(Row(Running, Guided, Waiting1(reason).row.history, [Ask(0, 1, 0, Consumed)]), [],
                Some(Flight(Ticket(Guided, Some(Look(0).Key()), []), SCOPE)))
  {
    var row := Waiting1(reason).row;
    assert row.approvals[0 := row.approvals[0].(status := Consumed)] == [Ask(0, 1, 0, Consumed)];
  }

  /** The resumed pass replaces the plan and waits for the second search. */
  lemma Stage2(fetch: Fetch)
    ensures Apply(LIMITS, Apply(LIMITS, Waiting1(INITIAL), Approving(0, 1, SCOPE, true, fetch)), Landing(World(INITIAL, true), true, 2)) == Waiting2()
  {
    hide RunPass, World, Persist, CleanPause, Input;
    Approve1(INITIAL, fetch);
    SecondPause(INITIAL, true);
    var p, h := PauseFor(Replanned(INITIAL), Tool(1)), Waiting1(INITIAL).row.history;
    PauseIsClean(INITIAL, true, Ticket(Guided, Some(Look(0).Key()), []), p, [Look(0).Key()]);
    Stored(h, p);
    assert h.planRows + NewRows(p.plans, 1) == [FIRST_PLAN, SECOND_PLAN];
    assert [] + NewSteps(p.safeSteps, p.safeObservations, 0) == [Kept(0)];
    assert [] + Log([Look(0).Key()], SCOPE) == Waiting2().executions;
    assert [Ask(0, 1, 0, Consumed)] + [Ask(1, 2, 2, PendingApproval)] == Waiting2().row.approvals;
  }

  lemma Rebuilt(fetch: Fetch)
    ensures Reconstruct([Kept(0)], fetch) == Some([Recorded(Look(0).Key(), EMPTY)])
  {
    assert [Kept(0)][..0] == [];
    assert !IsCalculation(Tool(0)) by { assert SEARCH_DOCUMENTS[10] == 's' && CALCULATE_PREFIX[10] == 'c'; }
    assert FetchAll(Snapshot(EMPTY), fetch, 0) == Some([]);
    assert Rebuild(Kept(0), fetch) == Some(Recorded(Look(0).Key(), EMPTY));
    assert Reconstruct([], fetch) == Some([]);
    assert [] + [Recorded(Look(0).Key(), EMPTY)] == [Recorded(Look(0).Key(), EMPTY)];
  }

  lemma Approve2(fetch: Fetch)
    ensures Apply(LIMITS, Waiting2(), Approving(1, 3, SCOPE, true, fetch))
         == Run(Row(Running, Guided, Waiting2().row.history, [Ask(0, 1, 0, Consumed), Ask(1, 2, 2, Consumed)]), Waiting2().executions,
                Some(Flight(Ticket(Guided, Some(Look(1).Key()), [Recorded(Look(0).Key(), EMPTY)]), SCOPE)))
  {
    hide Reconstruct;
    Rebuilt(fetch);
    var row := Waiting2().row;
    assert row.approvals[1 := row.approvals[1].(status := Consumed)] == [Ask(0, 1, 0, Consumed), Ask(1, 2, 2, Consumed)];
  }

  /** The next replay keeps the first plan and waits to search the memory. */
  lemma Stage3(fetch: Fetch)
    ensures Apply(LIMITS, Apply(LIMITS, Waiting2(), Approving(1, 3, SCOPE, true, fetch)), Landing(World(INITIAL, false), true, 4)) == Waiting3()
  {
    hide RunPass, World, Persist, CleanPause, Input;
    Approve2(fetch);
    ThirdPause(INITIAL);
    var p, h := PauseFor(At(INITIAL, 2), Tool(2)), Waiting2().row.history;
    PauseIsClean(INITIAL, false, Ticket(Guided, Some(Look(1).Key()), [Recorded(Look(0).Key(), EMPTY)]), p, [Look(1).Key()]);
    SameAsItself(Some(Snapshot(EMPTY)));
    Stored(h, p);
    assert h.planRows + NewRows(p.plans, 2) == [FIRST_PLAN, SECOND_PLAN];
    assert h.steps + NewSteps(p.safeSteps, p.safeObservations, 1) == [Kept(0), Kept(1)];
    assert Waiting2().executions + Log([Look(1).Key()], SCOPE) == Waiting3().executions;
    assert [Ask(0, 1, 0, Consumed), Ask(1, 2, 2, Consumed)] + [Ask(2, 1, 4, PendingApproval)] == Waiting3().row.approvals;
  }

  // ---------------------------------------------------------------- the two runs

  lemma {:induction false} PlaySnoc(run: Run, events: seq<Event>, a: Event, b: Event)
    ensures Play(LIMITS, run, events + [a, b]) == Apply(LIMITS, Apply(LIMITS, Play(LIMITS, run, events), a), b)
  {
    hide Apply;
    var all := events + [a, b];
    assert all[..|all| - 1] == events + [a];
    assert (events + [a])[..|events|] == events;
    assert Play(LIMITS, run, events + [a]) == Apply(LIMITS, Play(LIMITS, run, events), a);
  }

  /**
   Three passes: the second replaces the plan, the third does not. The approval that the third asks for is stale from
   the start, and approving it in time, under the same scope, fails the run.
   */
  lemma BindingCanBeStale(fetch: Fetch)
    ensures var events := [Begin(SCOPE), Landing(World(INITIAL, false), true, 0)] +
                          [Approving(0, 1, SCOPE, true, fetch), Landing(World(INITIAL, true), true, 2)] +
                          [Approving(1, 3, SCOPE, true, fetch), Landing(World(INITIAL, false), true, 4)];
            var row := Play(LIMITS, NewRun(Guided), events).row;
            && (forall i :: 0 <= i < |events| ==> Valid(events[i]))
            && Answerable(row, 2) && !BindingIsCurrent(row, row.approvals[2])
            && Approve(row, 2, 5, SCOPE, true, fetch).row.status == Ended(RunFailed)
  {
    hide Apply, World, RunPass, Waiting1, Waiting2, Waiting3, Play, BindingIsCurrent, Approve;
    var a := [Begin(SCOPE), Landing(World(INITIAL, false), true, 0)];
    var b := [Approving(0, 1, SCOPE, true, fetch), Landing(World(INITIAL, true), true, 2)];
    var c := [Approving(1, 3, SCOPE, true, fetch), Landing(World(INITIAL, false), true, 4)];
    PlayFirst(NewRun(Guided), a[0], a[1]);
    PlaySnoc(NewRun(Guided), a, b[0], b[1]);
    PlaySnoc(NewRun(Guided), a + b, c[0], c[1]);
    Stage1(INITIAL);
    Stage2(fetch);
    Stage3(fetch);
    Opens(INITIAL, false);
    Opens(INITIAL, true);
    StaleInThird(fetch);
  }

  lemma StaleInThird(fetch: Fetch)
    ensures var row := Waiting3().row;
            && Answerable(row, 2) && !BindingIsCurrent(row, row.approvals[2])
            && Approve(row, 2, 5, SCOPE, true, fetch).row.status == Ended(RunFailed)
  {
    hide Reconstruct, Look, Taken, Snapshot;
  }

  lemma {:induction false} PlayFirst(run: Run, a: Event, b: Event)
    ensures Play(LIMITS, run, [a, b]) == Apply(LIMITS, Apply(LIMITS, run, a), b)
  {
    hide Apply;
    PlaySnoc(run, [], a, b);
    assert [] + [a, b] == [a, b];
  }

  /**
   Two passes that explain the same plan differently: the second makes the approved call, cannot store its pause, and
   leaves the run RUNNING with nothing in flight and the call it made unrecorded.
   */
  lemma PauseCanBeLost(fetch: Fetch)
    ensures var events := [Begin(SCOPE), Landing(World(INITIAL, false), true, 0)] +
                          [Approving(0, 1, SCOPE, true, fetch), Landing(World(OTHER, false), true, 2)];
            var run := Play(LIMITS, NewRun(Guided), events);
            && (forall i :: 0 <= i < |events| ==> Valid(events[i]))
            && run.row.status == Running && run.flight.None?
            && run.executions == [Execution(Look(0).Key(), SCOPE)] && run.row.history.steps == []
  {
    hide Apply, World, RunPass;
    var a := [Begin(SCOPE), Landing(World(INITIAL, false), true, 0)];
    var b := [Approving(0, 1, SCOPE, true, fetch), Landing(World(OTHER, false), true, 2)];
    PlayFirst(NewRun(Guided), a[0], a[1]);
    PlaySnoc(NewRun(Guided), a, b[0], b[1]);
    Stage1(INITIAL);
    Lost(fetch);
    Opens(INITIAL, false);
    Opens(OTHER, false);
  }

  lemma Lost(fetch: Fetch)
    ensures Apply(LIMITS, Apply(LIMITS, Waiting1(INITIAL), Approving(0, 1, SCOPE, true, fetch)), Landing(World(OTHER, false), true, 2))
         == Run(Row(Running, Guided, Waiting1(INITIAL).row.history, [Ask(0, 1, 0, Consumed)]), [Execution(Look(0).Key(), SCOPE)], None)
  {
    hide RunPass, World, CleanPause, PauseRow;
    Approve1(INITIAL, fetch);
    SecondPause(OTHER, false);
    var p := PauseFor(At(OTHER, 1), Tool(1));
    PauseIsClean(OTHER, false, Ticket(Guided, Some(Look(0).Key()), []), p, [Look(0).Key()]);
    var row := Row(Running, Guided, Waiting1(INITIAL).row.history, [Ask(0, 1, 0, Consumed)]);
    assert INITIAL != OTHER by { assert INITIAL[0] == 'I' && OTHER[0] == 'O'; }
    assert row.history.planRows[0] != RowOf(p.plans[0]);
    PauseExactly(LIMITS, row, p, SCOPE, true, 2);
    assert [] + Log([Look(0).Key()], SCOPE) == [Execution(Look(0).Key(), SCOPE)];
  }

  // ---------------------------------------------------------------- too much evidence

  const NINE: Payload := Excerpts(seq(9, i requires 0 <= i < 9 => Source("annual report", ["123456789"[i]], "Revenue grew.")))

  /** The same providers, but searches find nine excerpts; up to twenty are asked for. */
  function Crowded(): Env {
    World(INITIAL, false).(invoke := action => Answered(ToolResult(Success, NINE, 0, "TOOL_COMPLETED")))
  }

  lemma CrowdedGate()
    ensures Open(Crowded()) == Opened(At(INITIAL, 0)) && Crowded().permitted <= APPROVED_TOOLS
    ensures Gate(LIMITS, Crowded(), At(INITIAL, 0)) == Act(Tool(0), StepAt(0, false))
  {
    hide Validate, FinalizeAnswer;
    Opens(INITIAL, false);
    NextStep(INITIAL, 0);
    GateAt(INITIAL, 0, false);
  }

  lemma CrowdedTool()
    ensures Crowded().tool(Look(0)) == Answered(ToolResult(Success, NINE, 0, "TOOL_COMPLETED"))
    ensures |Observe(Crowded().tool(Look(0)).result, 0).evidence| == 9
  {
    Names();
  }

  /** Nine excerpts break the pass, and the run fails. */
  lemma NineBreakAPass()
    ensures var run := Apply(LIMITS, NewRun(Autonomous), Begin(SCOPE));
            && Valid(Landing(Crowded(), true, 0))
            && RunPass(LIMITS, Crowded(), run.flight.value.ticket).ending.Crash?
            && Play(LIMITS, NewRun(Autonomous), [Begin(SCOPE), Landing(Crowded(), true, 0)]).row.status == Ended(RunFailed)
  {
    hide Gate, Observe, Open, Crowded;
    CrowdedGate();
    CrowdedTool();
    PlayFirst(NewRun(Autonomous), Begin(SCOPE), Landing(Crowded(), true, 0));
  }
}
