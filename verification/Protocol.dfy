/**
 One run under every interleaving of passes, approvals, rejections, changes, stops, crashes and cancellations.

 Every locked transaction is one event. The pass that follows an approval is in flight between two transactions;
 it may land, be refused, or be aborted after any number of its executions.
 */
module Protocol {
  import opened Wrappers
  import opened AgentTypes
  import opened Gateway
  import opened AgentLoop
  import opened LoopSafety
  import opened PassSafety
  import opened EvidenceNumbering
  import opened RunHistory
  import opened Approvals

  /** A call that reached the gateway, with the scope fingerprint it ran under. */
  datatype Execution = Execution(key: ActionKey, scope: string)

  datatype Flight = Flight(ticket: Ticket, scope: string)

  datatype Run = Run(row: Row, executions: seq<Execution>, flight: Option<Flight>)

  /** What an aborted pass leaves behind; an error while pausing leaves the run `RUNNING`. */
  datatype Fate = LeftRunning | MarkedFailed | MarkedCancelled

  datatype Event =
    | Begin(scope: string)
    | Approving(id: nat, now: int, scope: string, messageOk: bool, fetch: Fetch)
    | Rejecting(id: nat)
    | Changing(id: nat)
    | Stopping
    | Landing(env: Env, authorized: bool, now: int)
    | RefusedScope(authorized: bool)
    | Aborting(env: Env, reached: nat, fate: Fate)

  /** Tools are offered from the approved names only. */
  predicate Valid(e: Event) {
    match e
    case Landing(env, _, _) => env.permitted <= APPROVED_TOOLS
    case Aborting(env, _, _) => env.permitted <= APPROVED_TOOLS
    case _ => true
  }

  function NewRun(mode: ControlMode): Run {
    Run(Row(Created, mode, EMPTY_HISTORY, []), [], None)
  }

  function Log(keys: seq<ActionKey>, scope: string): (r: seq<Execution>)
    ensures |r| == |keys| && forall i :: 0 <= i < |r| ==> r[i] == Execution(keys[i], scope)
  {
    seq(|keys|, i requires 0 <= i < |keys| => Execution(keys[i], scope))
  }

  function Land(run: Run, f: Flight, pass: Pass, authorized: bool, now: int): Run {
    var executions := run.executions + Log(pass.executed, f.scope);
    match pass.ending
    case Terminal(o) => Run(FinishRow(run.row, o, authorized), executions, None)
    case Paused(p) =>
      var row := PauseRow(run.row, p, f.scope, authorized, now);
      Run(if row.Some? then row.value else run.row, executions, None)
    case _ => Run(run.row.(status := Ended(RunFailed)), executions, None)
  }

  function AfterFate(status: RunStatus, fate: Fate): RunStatus {
    match fate
    case LeftRunning => status
    case MarkedFailed => Ended(RunFailed)
    case MarkedCancelled => Cancelled
  }

  function Apply(limits: Limits, run: Run, e: Event): Run {
    match e
    case Begin(scope) =>
      if run.row.status == Created then
        run.(row := run.row.(status := Running), flight := Some(Flight(Ticket(run.row.mode, None, []), scope)))
      else run
    case Approving(id, now, scope, messageOk, fetch) =>
      var approved := Approve(run.row, id, now, scope, messageOk, fetch);
      run.(row := approved.row,
           flight := if approved.ticket.Some? then Some(Flight(approved.ticket.value, scope)) else run.flight)
    case Rejecting(id) => run.(row := Reject(run.row, id))
    case Changing(id) => run.(row := Change(run.row, id))
    case Stopping => run.(row := StopRun(run.row))
    case Landing(env, authorized, now) =>
      if run.flight.None? then run
      else Land(run, run.flight.value, RunPass(limits, env, run.flight.value.ticket), authorized, now)
    case RefusedScope(authorized) =>
      if run.row.status == Created || run.flight.Some? then
        run.(row := FinishRow(run.row, StopBare(RunRefused, ScopeDenied), authorized), flight := None)
      else run
    case Aborting(env, reached, fate) =>
      if run.flight.None? then run
      else
        var executed := RunPass(limits, env, run.flight.value.ticket).executed;
        var done := if reached < |executed| then executed[..reached] else executed;
        Run(run.row.(status := AfterFate(run.row.status, fate)),
            run.executions + Log(done, run.flight.value.scope), None)
  }

  function Play(limits: Limits, run: Run, events: seq<Event>): Run {
    if events == [] then run else Apply(limits, Play(limits, run, events[..|events| - 1]), events[|events| - 1])
  }

  // ---------------------------------------------------------------- invariants

  /** Awaiting means that exactly one approval is pending, the latest; otherwise none is. */
  ghost predicate OnePending(row: Row) {
    && (row.status == AwaitingApproval <==>
          row.approvals != [] && row.approvals[|row.approvals| - 1].status == PendingApproval)
    && forall i :: 0 <= i < |row.approvals| - 1 ==> row.approvals[i].status != PendingApproval
  }

  /** Proposed step numbers strictly increase and never exceed the step limit. */
  ghost predicate Climbing(limits: Limits, row: Row) {
    && (forall i :: 0 <= i < |row.approvals| ==> 1 <= row.approvals[i].proposed <= limits.maxSteps)
    && (forall i, j :: 0 <= i < j < |row.approvals| ==> row.approvals[i].proposed < row.approvals[j].proposed)
    && (row.status == AwaitingApproval && row.approvals != [] ==>
          row.approvals[|row.approvals| - 1].proposed == |row.history.steps| + 1)
  }

  function ExecutedKeys(executions: seq<Execution>): (r: seq<ActionKey>)
    ensures |r| == |executions| && forall i :: 0 <= i < |r| ==> r[i] == executions[i].key
  {
    seq(|executions|, i requires 0 <= i < |executions| => executions[i].key)
  }

  /** The execution at `i` used the approval at `g[i]`: consumed, for the same action, under the same scope. */
  ghost predicate Covers(a: Approval, e: Execution) {
    a.status == Consumed && a.key == e.key && a.scope == e.scope
  }

  /** `g` sends every execution that needs an approval to an approval of its own. */
  ghost predicate Granted(mode: ControlMode, executions: seq<Execution>, approvals: seq<Approval>, bound: nat, g: seq<nat>) {
    && |g| == |executions| && bound <= |approvals|
    && (forall i :: 0 <= i < |g| && NeedsApproval(mode, executions[i].key) ==>
          g[i] < bound && Covers(approvals[g[i]], executions[i]))
    && (forall i, j :: 0 <= i < j < |g| && NeedsApproval(mode, executions[i].key) && NeedsApproval(mode, executions[j].key) ==>
          g[i] != g[j])
  }

  /** Approvals that may already have been used: all but the one the pass in flight holds. */
  function Used(run: Run): nat
    requires run.flight.Some? && run.flight.value.ticket.approved.Some? ==> run.row.approvals != []
  {
    if run.flight.Some? && run.flight.value.ticket.approved.Some? then |run.row.approvals| - 1 else |run.row.approvals|
  }

  /** The pass in flight holds the authority it claims and replays exactly what is stored. */
  ghost predicate FlightHolds(run: Run) {
    run.flight.Some? ==>
      var f := run.flight.value;
      && run.row.status == Running
      && f.ticket.mode == run.row.mode
      && RecordedKeys(f.ticket.recorded) == Keys(StepsOf(run.row.history.steps))
      && RecordedIds(f.ticket.recorded) == UpTo(EvidenceCount(f.ticket.recorded))
      && EvidenceCount(f.ticket.recorded) <= MAX_EVIDENCE_SEQUENCE
      && (f.ticket.approved.None? ==> run.row.approvals == [])
      && (f.ticket.approved.Some? ==>
            && run.row.approvals != []
            && var a := run.row.approvals[|run.row.approvals| - 1];
               a.status == Consumed && Some(a.key) == f.ticket.approved && a.scope == f.scope &&
               a.proposed == |run.row.history.steps| + 1)
  }

  function StoredCitations(steps: seq<StoredStep>): seq<nat> {
    if steps == [] then []
    else
      var last := steps[|steps| - 1].observation;
      StoredCitations(steps[..|steps| - 1]) + (if last.Some? then last.value.citations else [])
  }

  /** Stored positions and keys never repeat, and the stored evidence is numbered without gaps up to 32. */
  ghost predicate SoundHistory(limits: Limits, h: History) {
    && |h.steps| <= limits.maxSteps
    && Ordered(StepsOf(h.steps)) && DistinctKeys(StepsOf(h.steps))
    && StoredCitations(h.steps) == UpTo(|StoredCitations(h.steps)|)
    && |StoredCitations(h.steps)| <= MAX_EVIDENCE_SEQUENCE
  }

  predicate Live(run: Run) {
    run.row.status == AwaitingApproval || run.flight.Some?
  }

  /**
   No action is executed twice, nor more actions than the step limit or more searches than the search limit allows;
   while a run can still go on, its stored steps are exactly its executions, in order.
   */
  ghost predicate ExactlyOnce(limits: Limits, run: Run) {
    && |run.executions| <= limits.maxSteps
    && Distinct(ExecutedKeys(run.executions))
    && SearchCount(ExecutedKeys(run.executions)) <= 1 + limits.maxRewrites
    && (Live(run) ==> ExecutedKeys(run.executions) == Keys(StepsOf(run.row.history.steps)))
  }

  /** A stored step that can be rebuilt as long as its excerpts are there. */
  ghost predicate Restorable(s: StoredStep) {
    && s.observation.Some? && s.observation.value.status == Success && Small(s.observation.value)
    && s.step.key.name == Some(s.step.tool) && !IsCalculation(s.step.tool)
  }

  /** While a run can still go on, every stored step is restorable. */
  ghost predicate Rebuildable(run: Run) {
    Live(run) ==> forall i :: 0 <= i < |run.row.history.steps| ==> Restorable(run.row.history.steps[i])
  }

  ghost predicate Fresh(run: Run) {
    run.row.status == Created ==>
      run.row.approvals == [] && run.row.history == EMPTY_HISTORY && run.executions == [] && run.flight.None?
  }

  ghost predicate Inv(limits: Limits, run: Run) {
    && Fresh(run) && OnePending(run.row) && Climbing(limits, run.row) && FlightHolds(run)
    && SoundHistory(limits, run.row.history) && ExactlyOnce(limits, run) && Rebuildable(run)
    && exists g :: Granted(run.row.mode, run.executions, run.row.approvals, Used(run), g)
  }
}
