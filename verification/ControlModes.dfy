/**
 The control modes differ only in when they ask: a run that is approved at every pause ends exactly as the run
 that is never interrupted.
 */
module ControlModes {
  import opened Wrappers
  import opened AgentTypes
  import opened Gateway
  import opened PlanState
  import opened AgentLoop
  import opened LoopSafety
  import opened PassSafety
  import opened EvidenceNumbering
  import opened RunHistory
  import opened Approvals
  import opened Protocol
  import opened ProtocolSafety
  import opened FreeRun

  /** The pending approval, if any, is approved under the same scope, and the resumed pass lands. */
  function Answered(limits: Limits, env: Env, fetch: Fetch, scope: string, run: Run, now: int): Run {
    if run.row.status != AwaitingApproval || run.row.approvals == [] then run
    else
      var resumed := Apply(limits, run, Approving(|run.row.approvals| - 1, now, scope, true, fetch));
      Apply(limits, resumed, Landing(env, true, now))
  }

  /** A run after its first pass and `n` rounds of approval; `clock` gives the time of each round. */
  function Attended(limits: Limits, env: Env, fetch: Fetch, scope: string, mode: ControlMode, clock: nat -> int, n: nat): Run {
    if n == 0 then Apply(limits, Apply(limits, NewRun(mode), Begin(scope)), Landing(env, true, clock(0)))
    else Answered(limits, env, fetch, scope, Attended(limits, env, fetch, scope, mode, clock, n - 1), clock(n))
  }

  /** Every answer arrives before the approval expires. */
  ghost predicate InTime(clock: nat -> int) {
    forall n: nat :: clock(n + 1) < clock(n) + APPROVAL_LIFETIME
  }

  /** The run waits for an approval at the point the uninterrupted run reaches after `k` steps. */
  ghost predicate WaitingAt(limits: Limits, env: Env, scope: string, run: Run, start: Core, k: nat, now: int) {
    && After(limits, env, Point(start, 0), k).Some?
    && var c := After(limits, env, Point(start, 0), k).value.core;
       && Gate(limits, env, c).Act?
       && run.row.status == AwaitingApproval && run.row.history == HistoryAt(c) && run.flight.None?
       && run.executions == Log(Keys(c.safeSteps), scope)
       && run.row.approvals != []
       && run.row.approvals[|run.row.approvals| - 1]
          == Approval(c.decision.next.Key(), Gate(limits, env, c).tool, c.plan.current.version, k + 1, scope,
                      now + APPROVAL_LIFETIME, PendingApproval)
  }

  /** The run ended as the uninterrupted run does: same status, same executions and, if it has an outcome, same history. */
  ghost predicate SettledAs(run: Run, scope: string, free: Pass) {
    && run.flight.None?
    && run.executions == Log(free.executed, scope)
    && match free.ending
       case Terminal(o) => run.row.status == Ended(o.status) && run.row.history == HistoryOfOutcome(o)
       case _ => run.row.status == Ended(RunFailed)
  }

  function HistoryOfOutcome(o: Outcome): History {
    History(RowsOf(o.plans), NewSteps(o.safeSteps, o.safeObservations, 0), |o.plans|)
  }

  // ---------------------------------------------------------------- persistence along the run

  /** The stored rows are a part of the history of `c` that includes all its steps. */
  ghost predicate StoredUpTo(h: History, c: Core) {
    h.steps == HistoryAt(c).steps && h.planRows <= RowsOf(c.plans)
  }

  lemma PersistFrom(h: History, c: Core, plans: seq<Plan>, steps: seq<SafeStep>, observations: seq<SafeObservation>)
    requires StoredUpTo(h, c) && Continues(c, steps, observations, plans)
    requires |c.safeSteps| == |c.safeObservations|
    requires Acceptable(EMPTY_HISTORY, plans, steps, observations)
    ensures Persist(h, plans, steps, observations, true)
         == Some(History(RowsOf(plans), NewSteps(steps, observations, 0), |plans|))
  {
    hide InOrder, UniquePositions;
    forall i | 0 <= i < |h.steps| ensures SameStep(h.steps[i], steps[i], ObservationAt(observations, i)) {
      assert c.safeSteps[i] == steps[i] && c.safeObservations[i] == observations[i];
    }
    forall i | 0 <= i < |plans| && i < |h.planRows| ensures h.planRows[i] == RowOf(plans[i]) {
      assert h.planRows[i] == RowsOf(c.plans)[i] == RowsOf(plans)[i];
    }
    assert |h.planRows| <= |plans|;
    assert Storable(steps, |h.steps|, |plans|);
    assert h.planRows + NewRows(plans, |h.planRows|) == RowsOf(plans);
    assert h.steps + NewSteps(steps, observations, |h.steps|) == NewSteps(steps, observations, 0) by {
      forall i | 0 <= i < |h.steps| ensures h.steps[i] == NewSteps(steps, observations, 0)[i] {
        assert c.safeSteps[i] == steps[i] && c.safeObservations[i] == observations[i];
      }
    }
  }

  lemma OutcomeAcceptable(limits: Limits, o: Outcome)
    requires Persistable(limits, o)
    ensures Acceptable(EMPTY_HISTORY, o.plans, o.safeSteps, o.safeObservations)
  {
    OrderedIsUnique(o.safeSteps);
  }

  lemma PauseAcceptable(limits: Limits, p: Pause)
    requires CleanPause(limits, p)
    ensures Acceptable(EMPTY_HISTORY, p.plans, p.safeSteps, p.safeObservations)
  {
    OrderedIsUnique(p.safeSteps);
  }

  /** How the uninterrupted run ends. */
  lemma {:induction false} FreeFromEnds(limits: Limits, env: Env, c: Core, n: nat)
    requires Sane(limits, c) && env.permitted <= APPROVED_TOOLS
    ensures var ending := FreeFrom(limits, env, c, n).ending;
            && (ending.Terminal? || ending.Crash?)
            && (ending.Terminal? ==>
                  && Persistable(limits, ending.outcome)
                  && Continues(c, ending.outcome.safeSteps, ending.outcome.safeObservations, ending.outcome.plans))
    decreases limits.maxSteps - c.steps
  {
    hide Sane, Persistable, Continues, FreeTurn, Gate, Absorb;
    FreeTurnSteps(limits, env, c, n);
    var t := FreeTurn(limits, env, c, n);
    if t.Ends? {
      FreeTurnEnds(limits, env, c, n);
    } else {
      var tool, step, result := FreeTurnGoes(limits, env, c, n);
      FreeFromEnds(limits, env, t.core, t.cursor.numbering);
      var ending := FreeFrom(limits, env, c, n).ending;
      if ending.Terminal? {
        ContinuesTransitive(c, t.core, ending.outcome.safeSteps, ending.outcome.safeObservations, ending.outcome.plans);
      }
    }
  }

  lemma {:induction false} AfterCompose(limits: Limits, env: Env, p: Point, k: nat, j: nat)
    requires After(limits, env, p, k).Some?
    ensures After(limits, env, p, k + j) == After(limits, env, After(limits, env, p, k).value, j)
    decreases k
  {
    hide FreeTurn;
    if k > 0 {
      var t := FreeTurn(limits, env, p.core, p.numbering);
      AfterCompose(limits, env, Point(t.core, t.cursor.numbering), k - 1, j);
    }
  }

  // ---------------------------------------------------------------- landing

  /** A pass in flight that has caught up with the uninterrupted run after `k` steps. */
  ghost predicate Level(limits: Limits, env: Env, scope: string, run: Run, start: Core, k: nat) {
    && Open(env) == Opened(start)
    && After(limits, env, Point(start, 0), k).Some? && run.flight.Some?
    && var q := After(limits, env, Point(start, 0), k).value;
       var ticket := run.flight.value.ticket;
       && run.flight.value.scope == scope
       && RunPass(limits, env, ticket) == RunFrom(limits, env, ticket, q.core, Cursor(|ticket.recorded|, ticket.approved, q.numbering))
       && Caught(ticket, q.core, Cursor(|ticket.recorded|, ticket.approved, q.numbering))
       && StoredUpTo(run.row.history, q.core)
       && run.executions == Log(Keys(q.core.safeSteps), scope)
  }

  lemma StartIsSane(limits: Limits, env: Env, start: Core)
    requires Open(env) == Opened(start)
    ensures Sane(limits, start) && start.safeSteps == [] && start.safeObservations == [] && start.steps == 0
  {
    hide Resting;
    OpenSane(limits, env);
  }

  lemma LogAppend(a: seq<ActionKey>, b: seq<ActionKey>, scope: string)
    ensures Log(a, scope) + Log(b, scope) == Log(a + b, scope)
  {
  }

  /** Landing without another pause settles the run as the uninterrupted one. */
  lemma LandSettles(limits: Limits, env: Env, scope: string, run: Run, start: Core, k: nat, now: int)
    requires env.permitted <= APPROVED_TOOLS && Level(limits, env, scope, run, start, k)
    requires !RunPass(limits, env, run.flight.value.ticket).ending.Paused?
    ensures SettledAs(Apply(limits, run, Landing(env, true, now)), scope, Unattended(limits, env))
  {
    hide Resting, Persistable, RunFrom, FreeFrom, After, Continues, Persist, Acceptable, RowsOf, StoredUpTo, Unattended;
    var q := After(limits, env, Point(start, 0), k).value;
    var ticket := run.flight.value.ticket;
    StartIsSane(limits, env, start);
    AfterSane(limits, env, Point(start, 0), k);
    FreeAccounts(limits, env, start, k);
    var j := RunOrPause(limits, env, ticket, q.core, Cursor(|ticket.recorded|, ticket.approved, q.numbering));
    var free := FreeFrom(limits, env, q.core, q.numbering);
    LogAppend(Keys(q.core.safeSteps), free.executed, scope);
    FreeFromEnds(limits, env, q.core, q.numbering);
    if free.ending.Terminal? {
      var o := free.ending.outcome;
      OutcomeAcceptable(limits, o);
      SaneLengths(limits, q.core);
      PersistFrom(run.row.history, q.core, o.plans, o.safeSteps, o.safeObservations);
    }
  }

  /** The uninterrupted run, seen from the point it reaches after `k` steps. */
  lemma {:induction false} FreeAccounts(limits: Limits, env: Env, start: Core, k: nat)
    requires env.permitted <= APPROVED_TOOLS && Open(env) == Opened(start)
    requires After(limits, env, Point(start, 0), k).Some?
    ensures var q := After(limits, env, Point(start, 0), k).value;
            var rest := FreeFrom(limits, env, q.core, q.numbering);
            Unattended(limits, env) == Pass(rest.ending, Keys(q.core.safeSteps) + rest.executed)
  {
    hide Resting, FreeFrom, After, Trail, FreeTurn;
    var p := Point(start, 0);
    StartIsSane(limits, env, start);
    AfterAccounts(limits, env, p, k);
    FreeSplit(limits, env, p, k);
    assert Keys(After(limits, env, p, k).value.core.safeSteps) == RecordedKeys(Trail(limits, env, p, k));
  }

  lemma SaneLengths(limits: Limits, c: Core)
    requires Sane(limits, c)
    ensures |c.safeSteps| == |c.safeObservations| == c.steps
    ensures c.plans == c.plan.versions && c.plan.versions != [] && c.plan.current.version == |c.plan.versions|
  {
  }

  /** Landing in another pause leaves the run waiting further along. */
  lemma LandWaits(limits: Limits, env: Env, scope: string, run: Run, start: Core, k: nat, now: int) returns (k': nat)
    requires env.permitted <= APPROVED_TOOLS && Level(limits, env, scope, run, start, k)
    requires RunPass(limits, env, run.flight.value.ticket).ending.Paused?
    ensures WaitingAt(limits, env, scope, Apply(limits, run, Landing(env, true, now)), start, k', now)
    ensures k' >= k && (run.flight.value.ticket.approved.Some? ==> k' >= k + 1)
  {
    hide Resting, Persistable, RunFrom, FreeFrom, After, Trail, Continues, Persist, Acceptable, FreeTurn, RowsOf, Gate,
         StoredUpTo, CleanPause, Keys, RecordedKeys, Sane;
    var p := Point(start, 0);
    var q := After(limits, env, p, k).value;
    var ticket := run.flight.value.ticket;
    var cursor := Cursor(|ticket.recorded|, ticket.approved, q.numbering);
    StartIsSane(limits, env, start);
    AfterSane(limits, env, p, k);
    var j := RunOrPause(limits, env, ticket, q.core, cursor);
    k' := k + j;
    AfterCompose(limits, env, p, k, j);
    AfterSane(limits, env, q, j);
    AfterAccounts(limits, env, q, j);
    var c := After(limits, env, q, j).value.core;
    var gate := Gate(limits, env, c);
    PauseClean(limits, env, c, gate.tool, gate.step);
    PauseAcceptable(limits, PauseFor(c, gate.tool));
    SaneLengths(limits, q.core);
    SaneLengths(limits, c);
    PersistFrom(run.row.history, q.core, c.plan.versions, c.safeSteps, c.safeObservations);
    LogAppend(Keys(q.core.safeSteps), RecordedKeys(Trail(limits, env, q, j)), scope);
  }

  // ---------------------------------------------------------------- resuming

  lemma EmptyReconstructs(start: Core, fetch: Fetch)
    requires start.safeSteps == []
    ensures Reconstruct(HistoryAt(start).steps, fetch) == Some([])
  {
  }

  /** The stored history of a waiting run is rebuilt as the trail of the uninterrupted run. */
  lemma {:induction false} WaitingReconstructs(limits: Limits, env: Env, fetch: Fetch, run: Run, start: Core, k: nat)
    requires env.permitted <= APPROVED_TOOLS && Faithful(limits, env, fetch) && Open(env) == Opened(start)
    requires After(limits, env, Point(start, 0), k).Some? && SoundHistory(limits, run.row.history)
    requires run.row.history == HistoryAt(After(limits, env, Point(start, 0), k).value.core)
    ensures Reconstruct(run.row.history.steps, fetch) == Some(Trail(limits, env, Point(start, 0), k))
    ensures EvidenceCount(Trail(limits, env, Point(start, 0), k)) <= MAX_EVIDENCE_SEQUENCE
  {
    hide Resting, Trail, FreeTurn, Reconstruct, After, AllRereadable, HistoryAt, Ordered, DistinctKeys;
    var trail := Trail(limits, env, Point(start, 0), k);
    StartIsSane(limits, env, start);
    EmptyReconstructs(start, fetch);
    TrailRebuilt(limits, env, fetch, Point(start, 0), k, []);
    assert [] + trail == trail;
    ReconstructFaithful(run.row.history.steps, fetch);
    EvidenceCountIsIds(trail);
  }

  lemma WaitingBinds(limits: Limits, env: Env, scope: string, run: Run, start: Core, k: nat, was: int)
    requires env.permitted <= APPROVED_TOOLS && Open(env) == Opened(start)
    requires WaitingAt(limits, env, scope, run, start, k, was)
    ensures run.row.approvals != [] && BindingIsCurrent(run.row, run.row.approvals[|run.row.approvals| - 1])
  {
    hide Resting, After, Gate, Continues;
    var c := After(limits, env, Point(start, 0), k).value.core;
    StartIsSane(limits, env, start);
    AfterSane(limits, env, Point(start, 0), k);
    SaneLengths(limits, c);
    ToolApproved(limits, env, c);
  }

  lemma HistoryStored(limits: Limits, c: Core)
    requires Sane(limits, c)
    ensures StoredUpTo(HistoryAt(c), c)
  {
    SaneLengths(limits, c);
  }

  /** Approving in time, under the same scope, is never refused and brings the pass level with the run. */
  lemma ResumeLevels(limits: Limits, env: Env, fetch: Fetch, scope: string, run: Run, start: Core, k: nat, was: int, now: int)
    requires env.permitted <= APPROVED_TOOLS && Faithful(limits, env, fetch) && Open(env) == Opened(start)
    requires SoundHistory(limits, run.row.history)
    requires WaitingAt(limits, env, scope, run, start, k, was) && now < was + APPROVAL_LIFETIME
    requires run.row.approvals != []
    ensures var run' := Apply(limits, run, Approving(|run.row.approvals| - 1, now, scope, true, fetch));
            Level(limits, env, scope, run', start, k) && run'.flight.value.ticket.approved.Some?
  {
    hide Resting, RunFrom, RunPass, Trail, FreeTurn, Reconstruct, After, Faithful, Continues, Gate, HistoryAt, StoredUpTo,
         BindingIsCurrent, SoundHistory;
    var q := After(limits, env, Point(start, 0), k).value;
    StartIsSane(limits, env, start);
    AfterSane(limits, env, Point(start, 0), k);
    WaitingReconstructs(limits, env, fetch, run, start, k);
    WaitingBinds(limits, env, scope, run, start, k, was);
    HistoryStored(limits, q.core);
    ResumedPass(limits, env, Ticket(run.row.mode, Some(q.core.decision.next.Key()), Trail(limits, env, Point(start, 0), k)), start, k);
  }

  lemma ToolApproved(limits: Limits, env: Env, c: Core)
    requires env.permitted <= APPROVED_TOOLS && Gate(limits, env, c).Act?
    ensures Gate(limits, env, c).tool in APPROVED_TOOLS
  {
    hide Validate, FinalizeAnswer;
  }

  lemma {:induction false} ResumedPass(limits: Limits, env: Env, ticket: Ticket, start: Core, k: nat)
    requires env.permitted <= APPROVED_TOOLS && Open(env) == Opened(start) && Sane(limits, start)
    requires After(limits, env, Point(start, 0), k).Some? && ticket.recorded == Trail(limits, env, Point(start, 0), k)
    requires EvidenceCount(ticket.recorded) <= MAX_EVIDENCE_SEQUENCE
    ensures var q := After(limits, env, Point(start, 0), k).value;
            RunPass(limits, env, ticket) == RunFrom(limits, env, ticket, q.core, Cursor(|ticket.recorded|, ticket.approved, q.numbering))
  {
    hide Resting, RunFrom, Trail, FreeTurn, After;
    AfterAccounts(limits, env, Point(start, 0), k);
    assert ticket.recorded[0..] == ticket.recorded;
    ReplayFollows(limits, env, ticket, Point(start, 0), StartCursor(ticket), k);
  }

  // ---------------------------------------------------------------- the theorem

  /** Where an attended run is after `n` rounds: settled, or waiting at least `n` steps along. */
  ghost predicate Progress(limits: Limits, env: Env, scope: string, run: Run, n: nat, now: int) {
    || SettledAs(run, scope, Unattended(limits, env))
    || (Open(env).Opened? && exists k :: k >= n && WaitingAt(limits, env, scope, run, Open(env).core, k, now))
  }

  lemma LandProgresses(limits: Limits, env: Env, scope: string, run: Run, start: Core, k: nat, n: nat, now: int)
    requires env.permitted <= APPROVED_TOOLS && Level(limits, env, scope, run, start, k)
    requires n <= k || (n <= k + 1 && run.flight.value.ticket.approved.Some?)
    ensures Progress(limits, env, scope, Apply(limits, run, Landing(env, true, now)), n, now)
  {
    hide Level, SettledAs, WaitingAt, RunPass, Apply;
    assert Open(env) == Opened(start) && run.flight.Some? by { LevelOpens(limits, env, scope, run, start, k); }
    if RunPass(limits, env, run.flight.value.ticket).ending.Paused? {
      var k' := LandWaits(limits, env, scope, run, start, k, now);
    } else {
      LandSettles(limits, env, scope, run, start, k, now);
    }
  }

  lemma LevelOpens(limits: Limits, env: Env, scope: string, run: Run, start: Core, k: nat)
    requires Level(limits, env, scope, run, start, k)
    ensures Open(env) == Opened(start) && run.flight.Some?
  {
    hide After, RunFrom, RunPass, StoredUpTo;
  }

  lemma FirstPass(limits: Limits, env: Env, scope: string, mode: ControlMode, now: int)
    requires env.permitted <= APPROVED_TOOLS
    ensures Progress(limits, env, scope, Apply(limits, Apply(limits, NewRun(mode), Begin(scope)), Landing(env, true, now)), 0, now)
  {
    hide Resting, RunFrom, Persistable;
    var run := Apply(limits, NewRun(mode), Begin(scope));
    match Open(env) {
      case Opened(start) =>
        StartIsSane(limits, env, start);
        assert After(limits, env, Point(start, 0), 0) == Some(Point(start, 0));
        assert Level(limits, env, scope, run, start, 0);
        LandProgresses(limits, env, scope, run, start, 0, 0, now);
      case Refused(o) =>
        RefusedSettles(limits, env, scope, mode, now);
      case Unopened =>
        UnopenedSettles(limits, env, scope, mode, now);
    }
  }

  lemma UnopenedSettles(limits: Limits, env: Env, scope: string, mode: ControlMode, now: int)
    requires Open(env).Unopened?
    ensures SettledAs(Apply(limits, Apply(limits, NewRun(mode), Begin(scope)), Landing(env, true, now)), scope, Unattended(limits, env))
  {
    hide RunFrom, FreeFrom, PauseRow, FinishRow;
    assert RunPass(limits, env, Ticket(mode, None, [])) == Pass(Crash, []);
  }

  /** A run whose query is not understood settles at once. */
  lemma RefusedSettles(limits: Limits, env: Env, scope: string, mode: ControlMode, now: int)
    requires Open(env).Refused?
    ensures SettledAs(Apply(limits, Apply(limits, NewRun(mode), Begin(scope)), Landing(env, true, now)), scope, Unattended(limits, env))
  {
    hide Persistable, RunFrom, Persist, FreeFrom, PauseRow;
    var o := Open(env).outcome;
    OpenSane(limits, env);
    BareOutcome(env);
    assert RunPass(limits, env, Ticket(mode, None, [])) == Pass(Terminal(o), []);
    BarePersists(o);
  }

  lemma BareOutcome(env: Env)
    requires Open(env).Refused?
    ensures var o := Open(env).outcome; o.plans == [] && o.safeSteps == [] && o.safeObservations == []
  {
  }

  lemma BarePersists(o: Outcome)
    requires o.plans == [] && o.safeSteps == [] && o.safeObservations == []
    ensures Persist(EMPTY_HISTORY, o.plans, o.safeSteps, o.safeObservations, true) == Some(HistoryOfOutcome(o))
  {
    assert EMPTY_HISTORY.planRows + NewRows([], 0) == RowsOf([]);
    assert EMPTY_HISTORY.steps + NewSteps([], [], 0) == NewSteps([], [], 0);
  }

  lemma {:induction false} AttendedReachable(limits: Limits, env: Env, fetch: Fetch, scope: string, mode: ControlMode, clock: nat -> int, n: nat)
    requires env.permitted <= APPROVED_TOOLS
    ensures Inv(limits, Attended(limits, env, fetch, scope, mode, clock, n))
  {
    hide Inv, Apply;
    if n == 0 {
      NewRunInv(limits, mode);
      ApplyKeeps(limits, NewRun(mode), Begin(scope));
      ApplyKeeps(limits, Apply(limits, NewRun(mode), Begin(scope)), Landing(env, true, clock(0)));
    } else {
      AttendedReachable(limits, env, fetch, scope, mode, clock, n - 1);
      var run := Attended(limits, env, fetch, scope, mode, clock, n - 1);
      if run.row.approvals != [] {
        var approving := Approving(|run.row.approvals| - 1, clock(n), scope, true, fetch);
        ApplyKeeps(limits, run, approving);
        ApplyKeeps(limits, Apply(limits, run, approving), Landing(env, true, clock(n)));
      }
    }
  }

  lemma NewRunInv(limits: Limits, mode: ControlMode)
    ensures Inv(limits, NewRun(mode))
  {
    hide Inv;
    EveryRun(limits, mode, []);
  }

  lemma {:induction false} Rounds(limits: Limits, env: Env, fetch: Fetch, scope: string, mode: ControlMode, clock: nat -> int, n: nat)
    requires env.permitted <= APPROVED_TOOLS && Faithful(limits, env, fetch) && InTime(clock)
    ensures Progress(limits, env, scope, Attended(limits, env, fetch, scope, mode, clock, n), n, clock(n))
  {
    hide Inv, Apply, SettledAs, WaitingAt, Faithful, Unattended, Answered;
    if n == 0 {
      FirstPass(limits, env, scope, mode, clock(0));
    } else {
      Rounds(limits, env, fetch, scope, mode, clock, n - 1);
      var run := Attended(limits, env, fetch, scope, mode, clock, n - 1);
      if SettledAs(run, scope, Unattended(limits, env)) {
        SettledStays(limits, env, fetch, scope, run, clock(n));
      } else {
        var start := Open(env).core;
        var k :| k >= n - 1 && WaitingAt(limits, env, scope, run, start, k, clock(n - 1));
        AttendedReachable(limits, env, fetch, scope, mode, clock, n - 1);
        assert clock((n - 1) + 1) < clock(n - 1) + APPROVAL_LIFETIME;
        RoundAdvances(limits, env, fetch, scope, run, start, k, n, clock(n - 1), clock(n));
      }
    }
  }

  /** One round takes a waiting run at least one step further. */
  lemma RoundAdvances(limits: Limits, env: Env, fetch: Fetch, scope: string, run: Run, start: Core, k: nat, n: nat, was: int, now: int)
    requires env.permitted <= APPROVED_TOOLS && Faithful(limits, env, fetch) && Open(env) == Opened(start)
    requires Inv(limits, run) && WaitingAt(limits, env, scope, run, start, k, was)
    requires now < was + APPROVAL_LIFETIME && n <= k + 1
    ensures Progress(limits, env, scope, Answered(limits, env, fetch, scope, run, now), n, now)
  {
    hide Apply, WaitingAt, Faithful, Progress, Level, SoundHistory, OnePending, Climbing, ExactlyOnce, Granted;
    WaitingWaits(limits, env, scope, run, start, k, was);
    ResumeLevels(limits, env, fetch, scope, run, start, k, was, now);
    var resumed := Apply(limits, run, Approving(|run.row.approvals| - 1, now, scope, true, fetch));
    LevelOpens(limits, env, scope, resumed, start, k);
    LandProgresses(limits, env, scope, resumed, start, k, n, now);
  }

  lemma SettledStays(limits: Limits, env: Env, fetch: Fetch, scope: string, run: Run, now: int)
    requires SettledAs(run, scope, Unattended(limits, env))
    ensures Answered(limits, env, fetch, scope, run, now) == run
  {
    hide Unattended, Apply;
  }

  lemma WaitingWaits(limits: Limits, env: Env, scope: string, run: Run, start: Core, k: nat, now: int)
    requires WaitingAt(limits, env, scope, run, start, k, now)
    ensures run.row.status == AwaitingApproval && run.row.approvals != []
  {
    hide After, Gate, HistoryAt;
  }

  lemma WaitingIsEarly(limits: Limits, env: Env, scope: string, run: Run, start: Core, k: nat, now: int)
    requires env.permitted <= APPROVED_TOOLS && Open(env) == Opened(start)
    requires WaitingAt(limits, env, scope, run, start, k, now)
    ensures k < limits.maxSteps
  {
    hide Resting, After, Gate, HistoryAt, Continues;
    StartIsSane(limits, env, start);
    AfterSane(limits, env, Point(start, 0), k);
    GateNames(limits, env, After(limits, env, Point(start, 0), k).value.core);
  }

  /**
   In every mode, a run approved at each pause ends, within `maxSteps` rounds, with the status, the executions and
   the stored plans, steps and evidence identifiers of the uninterrupted run.
   */
  lemma {:induction false} ApprovedRunSettles(limits: Limits, env: Env, fetch: Fetch, scope: string, mode: ControlMode, clock: nat -> int, n: nat)
    requires env.permitted <= APPROVED_TOOLS && Faithful(limits, env, fetch) && InTime(clock) && n >= limits.maxSteps
    ensures SettledAs(Attended(limits, env, fetch, scope, mode, clock, n), scope, Unattended(limits, env))
  {
    hide Apply, SettledAs, WaitingAt, Faithful, Unattended, Attended;
    Rounds(limits, env, fetch, scope, mode, clock, n);
    var run := Attended(limits, env, fetch, scope, mode, clock, n);
    if !SettledAs(run, scope, Unattended(limits, env)) {
      var k :| k >= n && WaitingAt(limits, env, scope, run, Open(env).core, k, clock(n));
      WaitingIsEarly(limits, env, scope, run, Open(env).core, k, clock(n));
      assert false;
    }
  }

  /** Any two control modes agree. */
  lemma {:induction false} ModesAgree(limits: Limits, env: Env, fetch: Fetch, scope: string, a: ControlMode, b: ControlMode, clock: nat -> int)
    requires env.permitted <= APPROVED_TOOLS && Faithful(limits, env, fetch) && InTime(clock)
    ensures var x := Attended(limits, env, fetch, scope, a, clock, limits.maxSteps);
            var y := Attended(limits, env, fetch, scope, b, clock, limits.maxSteps);
            && x.row.status == y.row.status && x.executions == y.executions
            && (Unattended(limits, env).ending.Terminal? ==> x.row.history == y.row.history)
  {
    hide Apply, Faithful, Unattended, Attended;
    ApprovedRunSettles(limits, env, fetch, scope, a, clock, limits.maxSteps);
    ApprovedRunSettles(limits, env, fetch, scope, b, clock, limits.maxSteps);
  }

  // ---------------------------------------------------------------- one autonomous pass

  /** In every mode, a first pass that does not pause is the whole uninterrupted run. */
  lemma UnpausedPass(limits: Limits, env: Env, mode: ControlMode)
    requires env.permitted <= APPROVED_TOOLS
    ensures var pass := RunPass(limits, env, Ticket(mode, None, []));
            !pass.ending.Paused? ==> pass == Unattended(limits, env)
  {
    hide Resting, RunFrom, FreeFrom;
    var ticket := Ticket(mode, None, []);
    if Open(env).Opened? {
      StartIsSane(limits, env, Open(env).core);
      var j := RunOrPause(limits, env, ticket, Open(env).core, StartCursor(ticket));
    }
  }

  /** The uninterrupted run chooses low-risk tools only, whatever else it is offered. */
  ghost predicate ChoosesLowRisk(limits: Limits, env: Env) {
    Open(env).Opened? ==> forall k: nat :: LowRiskAt(limits, env, After(limits, env, Point(Open(env).core, 0), k))
  }

  predicate LowRiskAt(limits: Limits, env: Env, p: Option<Point>) {
    p.Some? && Gate(limits, env, p.value.core).Act? ==> Gate(limits, env, p.value.core).tool in LOW_RISK_TOOLS
  }

  /** Outside the guided mode a pass follows the uninterrupted run until the first tool that is not low-risk. */
  lemma {:induction false} PausesBy(limits: Limits, env: Env, ticket: Ticket, p: Point, k: nat)
    requires ticket.mode != Guided && ticket.recorded == []
    requires !LowRiskAt(limits, env, After(limits, env, p, k))
    ensures RunFrom(limits, env, ticket, p.core, Cursor(0, None, p.numbering)).ending.Paused?
    decreases k
  {
    hide Gate, Absorb, Observe, FailedCall, Vet;
    var gate, cursor := Gate(limits, env, p.core), Cursor(0, None, p.numbering);
    TurnSteps(limits, env, ticket, p.core, cursor);
    if LowRiskAt(limits, env, Some(p)) {
      assert Turn(limits, env, ticket, p.core, cursor) == FreeTurn(limits, env, p.core, p.numbering);
      var t := FreeTurn(limits, env, p.core, p.numbering);
      assert t.Goes? && t.cursor == Cursor(0, None, t.cursor.numbering);
      PausesBy(limits, env, ticket, Point(t.core, t.cursor.numbering), k - 1);
    }
  }

  /** Outside the guided mode a first pass pauses if and only if the run chooses a tool that is not low-risk. */
  lemma PausesExactly(limits: Limits, env: Env, mode: ControlMode)
    requires env.permitted <= APPROVED_TOOLS && mode != Guided
    ensures RunPass(limits, env, Ticket(mode, None, [])).ending.Paused? <==> !ChoosesLowRisk(limits, env)
  {
    hide Resting, RunFrom, FreeFrom, Gate, After;
    var ticket := Ticket(mode, None, []);
    if Open(env).Opened? {
      var c := Open(env).core;
      StartIsSane(limits, env, c);
      if RunPass(limits, env, ticket).ending.Paused? {
        var j := PausesAtRisk(limits, env, ticket, c);
      }
      if !ChoosesLowRisk(limits, env) {
        var k: nat :| !LowRiskAt(limits, env, After(limits, env, Point(c, 0), k));
        PausesBy(limits, env, ticket, Point(c, 0), k);
      }
    }
  }

  /** A pass that pauses without being guided does so before a tool that is not low-risk. */
  lemma {:induction false} PausesAtRisk(limits: Limits, env: Env, ticket: Ticket, c: Core) returns (k: nat)
    requires ticket.mode != Guided && ticket.recorded == [] && ticket.approved.None?
    requires RunFrom(limits, env, ticket, c, StartCursor(ticket)).ending.Paused?
    ensures !LowRiskAt(limits, env, After(limits, env, Point(c, 0), k))
  {
    k := PausesAtRiskFrom(limits, env, ticket, Point(c, 0));
  }

  lemma {:induction false} PausesAtRiskFrom(limits: Limits, env: Env, ticket: Ticket, p: Point) returns (k: nat)
    requires ticket.mode != Guided && ticket.recorded == []
    requires RunFrom(limits, env, ticket, p.core, Cursor(0, None, p.numbering)).ending.Paused?
    ensures !LowRiskAt(limits, env, After(limits, env, p, k))
    decreases limits.maxSteps - p.core.steps
  {
    hide Gate, Absorb, Observe, FailedCall, Vet;
    var cursor := Cursor(0, None, p.numbering);
    TurnSteps(limits, env, ticket, p.core, cursor);
    if !LowRiskAt(limits, env, Some(p)) {
      k := 0;
    } else {
      assert Turn(limits, env, ticket, p.core, cursor) == FreeTurn(limits, env, p.core, p.numbering);
      var t := FreeTurn(limits, env, p.core, p.numbering);
      assert t.Goes? && t.cursor == Cursor(0, None, t.cursor.numbering);
      k := PausesAtRiskFrom(limits, env, ticket, Point(t.core, t.cursor.numbering));
      k := k + 1;
    }
  }

  /** Outside the guided mode, with whatever tools are offered: a run that chooses low-risk tools only is one pass. */
  lemma AutonomousPass(limits: Limits, env: Env, mode: ControlMode)
    requires env.permitted <= APPROVED_TOOLS && mode != Guided && ChoosesLowRisk(limits, env)
    ensures RunPass(limits, env, Ticket(mode, None, [])) == Unattended(limits, env)
  {
    hide RunPass, Unattended, ChoosesLowRisk;
    PausesExactly(limits, env, mode);
    UnpausedPass(limits, env, mode);
  }

  /** A guided run approved at every pause ends as one autonomous pass of a run that chooses low-risk tools only. */
  lemma {:induction false} GuidedIsAutonomous(limits: Limits, env: Env, fetch: Fetch, scope: string, clock: nat -> int)
    requires env.permitted <= APPROVED_TOOLS && ChoosesLowRisk(limits, env) && Faithful(limits, env, fetch) && InTime(clock)
    ensures SettledAs(Attended(limits, env, fetch, scope, Guided, clock, limits.maxSteps), scope,
                      RunPass(limits, env, Ticket(Autonomous, None, [])))
  {
    hide RunPass, Unattended, ChoosesLowRisk, Faithful, SettledAs, Attended;
    AutonomousPass(limits, env, Autonomous);
    ApprovedRunSettles(limits, env, fetch, scope, Guided, clock, limits.maxSteps);
  }
}
