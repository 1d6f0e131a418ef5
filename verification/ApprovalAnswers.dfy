/**
 What every event does to a run: the answers to a pending approval, the landing of a pass and everything else, told without
 the transactions that do it.
 */
module ApprovalAnswers {
  import opened Wrappers
  import opened AgentTypes
  import opened AgentLoop
  import opened LoopSafety
  import opened PassSafety
  import opened RunHistory
  import opened Approvals
  import opened Protocol
  import opened ProtocolSafety
  import opened Resumption

  // ---------------------------------------------------------------- what the binding of a pending approval is

  /** The pending approval is for an approved tool and for the last plan version that the run has counted. */
  ghost predicate Bound(row: Row) {
    row.status == AwaitingApproval ==>
      && row.approvals != []
      && var a := row.approvals[|row.approvals| - 1];
         a.tool in APPROVED_TOOLS && 1 <= a.planVersion == row.history.planCount <= |row.history.planRows|
  }

  lemma PauseBinds(limits: Limits, row: Row, p: Pause, scope: string, authorized: bool, now: int)
    requires CleanPause(limits, p)
    ensures var paused := PauseRow(row, p, scope, authorized, now); paused.Some? ==> Bound(paused.value)
  {
    hide Persist, GoodSteps, AllSucceeded;
    if PauseRow(row, p, scope, authorized, now).Some? {
      PersistAppends(row.history, p.plans, p.safeSteps, p.safeObservations, authorized);
    }
  }

  lemma BoundKept(limits: Limits, run: Run, e: Event)
    requires Inv(limits, run) && Valid(e) && Bound(run.row)
    ensures Bound(Apply(limits, run, e).row)
  {
    hide RunPass, CleanPause, PauseRow, Persist, Reconstruct, BindingIsCurrent, Inv;
    InFlightRuns(limits, run);
    if e.Landing? && run.flight.Some? {
      PausesClean(limits, e.env, run.flight.value.ticket);
      var ending := RunPass(limits, e.env, run.flight.value.ticket).ending;
      if ending.Paused? {
        PauseBinds(limits, run.row, ending.pause, run.flight.value.scope, e.authorized, e.now);
      }
    }
  }

  lemma PausesClean(limits: Limits, env: Env, ticket: Ticket)
    requires env.permitted <= APPROVED_TOOLS
    ensures var ending := RunPass(limits, env, ticket).ending;
            && (ending.Paused? ==> CleanPause(limits, ending.pause))
            && (ending.Terminal? ==> Persistable(limits, ending.outcome))
  {
    hide *;
    PassSafe(limits, env, ticket);
  }

  lemma {:induction false} EveryRunBound(limits: Limits, mode: ControlMode, events: seq<Event>)
    requires forall i :: 0 <= i < |events| ==> Valid(events[i])
    ensures Bound(Play(limits, NewRun(mode), events).row)
  {
    hide Apply, Inv;
    if events == [] {
    } else {
      var front := events[..|events| - 1];
      EveryRun(limits, mode, front);
      EveryRunBound(limits, mode, front);
      hide Bound;
      BoundKept(limits, Play(limits, NewRun(mode), front), events[|events| - 1]);
    }
  }

  lemma InFlightRuns(limits: Limits, run: Run)
    requires Inv(limits, run)
    ensures run.flight.Some? ==> run.row.status == Running
  {
    hide OnePending, Climbing, SoundHistory, ExactlyOnce, Rebuildable, Granted;
  }

  // ---------------------------------------------------------------- answers

  /** The run waits for an answer to the approval at `i`. */
  predicate WaitsFor(row: Row, i: nat) {
    row.status == AwaitingApproval && i < |row.approvals| && row.approvals[i].status == PendingApproval
  }

  /** The approval at `i` and the status of the run, and nothing else, are now these. */
  function Settled(run: Run, i: nat, verdict: ApprovalStatus, status: RunStatus): Run
    requires i < |run.row.approvals|
  {
    run.(row := Row(status, run.row.mode, run.row.history, run.row.approvals[i := run.row.approvals[i].(status := verdict)]))
  }

  /** Everything that an approval needs to resume its run. */
  ghost predicate Resumable(row: Row, a: Approval, now: int, scope: string, messageOk: bool, fetch: Fetch) {
    && now < a.expires && a.scope == scope && messageOk
    && a.planVersion == |row.history.planRows|
    && AllReadable(row.history.steps, fetch)
  }

  /** The evidence of a stored observation, read again under its old identifiers. */
  ghost predicate ReadAgain(o: SafeObservation, evidence: seq<Evidence>, fetch: Fetch) {
    && |evidence| == |o.citations| == |o.documents| == |o.chunks|
    && forall j :: 0 <= j < |evidence| ==> Some(evidence[j].source) == fetch(o.documents[j], o.chunks[j]) && evidence[j].id == o.citations[j]
  }

  /** One record per stored step, with its action and its evidence read again. */
  ghost predicate Restores(steps: seq<StoredStep>, recorded: seq<Recorded>, fetch: Fetch) {
    && |recorded| == |steps|
    && forall i :: 0 <= i < |steps| ==> RestoresOne(steps[i], recorded[i], fetch)
  }

  ghost predicate RestoresOne(s: StoredStep, r: Recorded, fetch: Fetch) {
    && s.observation.Some? && r.key == s.step.key
    && ReadAgain(s.observation.value, r.observation.evidence, fetch)
    && r.observation.(evidence := []) == Observation(Success, [], [], [], false, s.observation.value.retries, s.observation.value.reason)
  }

  lemma {:induction false} FetchReadsAgain(o: SafeObservation, fetch: Fetch, from: nat)
    requires |o.documents| == |o.chunks| == |o.citations| && from <= |o.citations| && FetchAll(o, fetch, from).Some?
    ensures var evidence := FetchAll(o, fetch, from).value;
            && |evidence| == |o.citations| - from
            && forall j :: from <= j < |o.citations| ==>
                 Some(evidence[j - from].source) == fetch(o.documents[j], o.chunks[j]) && evidence[j - from].id == o.citations[j]
    decreases |o.citations| - from
  {
    if from < |o.citations| {
      FetchReadsAgain(o, fetch, from + 1);
    }
  }

  lemma RebuildRestores(s: StoredStep, fetch: Fetch)
    requires Rebuild(s, fetch).Some?
    ensures RestoresOne(s, Rebuild(s, fetch).value, fetch)
  {
    FetchReadsAgain(s.observation.value, fetch, 0);
  }

  lemma {:induction false} ReconstructRestores(steps: seq<StoredStep>, fetch: Fetch)
    requires Reconstruct(steps, fetch).Some?
    ensures Restores(steps, Reconstruct(steps, fetch).value, fetch)
  {
    hide Rebuild, RestoresOne;
    if steps != [] {
      var n := |steps| - 1;
      ReconstructRestores(steps[..n], fetch);
      RebuildRestores(steps[n], fetch);
      assert forall i :: 0 <= i < n ==> steps[..n][i] == steps[i];
    }
  }

  /** What approving does to a waiting run. */
  ghost predicate Approves(run: Run, i: nat, e: Event, run': Run)
    requires e.Approving? && i < |run.row.approvals|
  {
    var a := run.row.approvals[i];
    if a.expires <= e.now then run' == Settled(run, i, Expired, Ended(RunFailed))
    else if !Resumable(run.row, a, e.now, e.scope, e.messageOk, e.fetch) then run' == Settled(run, i, Withdrawn, Ended(RunFailed))
    else
      && run'.flight.Some?
      && run' == Settled(run, i, Consumed, Running).(flight := run'.flight)
      && run'.flight.value.scope == e.scope
      && run'.flight.value.ticket.mode == run.row.mode && run'.flight.value.ticket.approved == Some(a.key)
      && Restores(run.row.history.steps, run'.flight.value.ticket.recorded, e.fetch)
  }

  lemma ApprovesExactly(limits: Limits, run: Run, i: nat, e: Event)
    requires Inv(limits, run) && Bound(run.row) && WaitsFor(run.row, i) && e.Approving? && e.id == i
    ensures Approves(run, i, e, Apply(limits, run, e))
  {
    hide Inv, Reconstruct, AllReadable, Restores, Bound, BindingIsCurrent;
    OnlyPending(limits, run, i);
    BoundExactly(limits, run, i);
    WaitingRebuilds(limits, run, e.fetch);
    if Reconstruct(run.row.history.steps, e.fetch).Some? {
      ReconstructRestores(run.row.history.steps, e.fetch);
    }
  }

  /** Only more stored plan versions than the approval was asked for can make its binding stale. */
  lemma BoundExactly(limits: Limits, run: Run, i: nat)
    requires Inv(limits, run) && Bound(run.row) && WaitsFor(run.row, i)
    ensures BindingIsCurrent(run.row, run.row.approvals[i]) <==> run.row.approvals[i].planVersion == |run.row.history.planRows|
  {
    hide Inv;
    OnlyPending(limits, run, i);
  }

  lemma AnswersHere(limits: Limits, run: Run, i: nat, e: Event)
    requires Inv(limits, run) && WaitsFor(run.row, i)
    ensures var run' := Apply(limits, run, e);
            && (e.Rejecting? && e.id == i ==> run' == Settled(run, i, Rejected, Cancelled))
            && (e.Changing? && e.id == i ==> run' == Settled(run, i, Superseded, Cancelled))
            && (e.Stopping? ==> run' == Settled(run, i, Withdrawn, Cancelled))
            && (e.Begin? || e.Landing? || e.RefusedScope? || e.Aborting? ==> run' == run)
            && ((e.Rejecting? || e.Changing? || e.Approving?) && e.id != i ==> run' == run)
  {
    hide Inv, Approve, Reconstruct, RunPass, FirstOpen, Land, FinishRow;
    OnlyPending(limits, run, i);
    if e.Approving? && e.id != i {
      OtherAnswer(run.row, e);
    }
  }

  lemma OtherAnswer(row: Row, e: Event)
    requires e.Approving? && !Answerable(row, e.id)
    ensures Approve(row, e.id, e.now, e.scope, e.messageOk, e.fetch) == Approved(row, None)
  {
    hide Reconstruct, BindingIsCurrent;
  }

  /**
   Over every run that waits for an answer: what rejecting, changing, stopping and approving do to it, and that everything
   else, and every answer to another approval, changes nothing.
   */
  lemma {:induction false} AnswersExactly(limits: Limits, mode: ControlMode, events: seq<Event>, e: Event, i: nat)
    requires forall j :: 0 <= j < |events| ==> Valid(events[j])
    requires WaitsFor(Play(limits, NewRun(mode), events).row, i)
    ensures var run := Play(limits, NewRun(mode), events);
            var run' := Apply(limits, run, e);
            && (e.Rejecting? && e.id == i ==> run' == Settled(run, i, Rejected, Cancelled))
            && (e.Changing? && e.id == i ==> run' == Settled(run, i, Superseded, Cancelled))
            && (e.Stopping? ==> run' == Settled(run, i, Withdrawn, Cancelled))
            && (e.Approving? && e.id == i ==> Approves(run, i, e, run'))
            && (e.Begin? || e.Landing? || e.RefusedScope? || e.Aborting? ==> run' == run)
            && ((e.Rejecting? || e.Changing? || e.Approving?) && e.id != i ==> run' == run)
  {
    hide Play, Inv, Apply, Approves, Bound;
    var run := Play(limits, NewRun(mode), events);
    EveryRun(limits, mode, events);
    EveryRunBound(limits, mode, events);
    AnswersHere(limits, run, i, e);
    if e.Approving? && e.id == i {
      ApprovesExactly(limits, run, i, e);
    }
  }

  /** A waiting run has one pending approval, the last, which is for its next step; nothing is in flight. */
  lemma OnlyPending(limits: Limits, run: Run, i: nat)
    requires Inv(limits, run) && WaitsFor(run.row, i)
    ensures i == |run.row.approvals| - 1 == FirstOpen(run.row.approvals) && run.flight.None?
    ensures forall j :: 0 <= j < |run.row.approvals| && run.row.approvals[j].status == PendingApproval ==> j == i
    ensures run.row.approvals[i].proposed == |run.row.history.steps| + 1
  {
    hide SoundHistory, ExactlyOnce, Rebuildable, Granted;
  }

  /** A run that does not wait is not changed by any answer. */
  lemma NothingToAnswer(limits: Limits, run: Run, e: Event)
    requires run.row.status != AwaitingApproval && (e.Approving? || e.Rejecting? || e.Changing? || e.Stopping?)
    ensures Apply(limits, run, e) == run
  {
    hide Reconstruct, BindingIsCurrent;
  }

  // ---------------------------------------------------------------- passes

  /** The executions afterwards: the earlier ones, then one for every action, in order, under the scope. */
  ghost predicate Logs(before: seq<Execution>, keys: seq<ActionKey>, scope: string, after: seq<Execution>) {
    && before <= after && |after| == |before| + |keys|
    && forall i :: 0 <= i < |keys| ==> after[|before| + i] == Execution(keys[i], scope)
  }

  /** What a pass leaves behind when it lands. */
  ghost predicate Lands(run: Run, pass: Pass, authorized: bool, now: int, run': Run)
    requires run.flight.Some?
  {
    var row, h := run.row, run.row.history;
    && run'.flight.None?
    && Logs(run.executions, pass.executed, run.flight.value.scope, run'.executions)
    && match pass.ending
       case Terminal(o) =>
         if authorized && Repeats(h, o.plans, o.safeSteps, o.safeObservations) then
           && run'.row == Row(Ended(o.status), row.mode, run'.row.history, row.approvals)
           && Stored(h, o.plans, o.safeSteps, o.safeObservations, run'.row.history)
         else run'.row == Row(Ended(RunFailed), row.mode, h, row.approvals)
       case Paused(p) =>
         if authorized && Repeats(h, p.plans, p.safeSteps, p.safeObservations) then
           && run'.row == Row(AwaitingApproval, row.mode, run'.row.history,
                              row.approvals + [Approval(p.key, p.tool, p.planVersion, p.proposed, run.flight.value.scope,
                                                        now + 300, PendingApproval)])
           && Stored(h, p.plans, p.safeSteps, p.safeObservations, run'.row.history)
         else run'.row == row
       case Mismatch => run'.row == Row(Ended(RunFailed), row.mode, h, row.approvals)
       case Crash => run'.row == Row(Ended(RunFailed), row.mode, h, row.approvals)
  }

  /**
   A pass that lands is stored if and only if it is authorized and repeats what is stored; then its run ends as the pass
   did, or waits for an answer to the action it paused at.
   */
  lemma LandsExactly(limits: Limits, run: Run, env: Env, authorized: bool, now: int)
    requires Inv(limits, run) && run.flight.Some? && env.permitted <= APPROVED_TOOLS
    ensures Lands(run, RunPass(limits, env, run.flight.value.ticket), authorized, now, Apply(limits, run, Landing(env, authorized, now)))
  {
    hide RunPass, Inv, Persistable, CleanPause, FinishRow, PauseRow, Repeats, Stored, Logs;
    var f := run.flight.value;
    var pass := RunPass(limits, env, f.ticket);
    LoggedOn(run.executions, pass.executed, f.scope);
    PausesClean(limits, env, f.ticket);
    match pass.ending
    case Terminal(o) => FinishStores(limits, run.row, o, authorized);
    case Paused(p) => PauseStores(limits, run.row, p, f.scope, authorized, now);
    case _ =>
  }

  lemma FinishStores(limits: Limits, row: Row, o: Outcome, authorized: bool)
    requires Persistable(limits, o)
    ensures var row' := FinishRow(row, o, authorized);
            if authorized && Repeats(row.history, o.plans, o.safeSteps, o.safeObservations) then
              && row' == Row(Ended(o.status), row.mode, row'.history, row.approvals)
              && Stored(row.history, o.plans, o.safeSteps, o.safeObservations, row'.history)
            else row' == Row(Ended(RunFailed), row.mode, row.history, row.approvals)
  {
    hide Persistable, Persist, Repeats, Stored, RowsAgree, StepsAgree, WithinBounds;
    LoopIsAccepted(limits, row.history, o);
    RepeatsExactly(row.history, o.plans, o.safeSteps, o.safeObservations);
    PersistExactly(row.history, o.plans, o.safeSteps, o.safeObservations, true);
    PersistExactly(row.history, o.plans, o.safeSteps, o.safeObservations, authorized);
  }

  lemma PauseStores(limits: Limits, row: Row, p: Pause, scope: string, authorized: bool, now: int)
    requires CleanPause(limits, p)
    ensures var paused := PauseRow(row, p, scope, authorized, now);
            && (paused.Some? <==> authorized && Repeats(row.history, p.plans, p.safeSteps, p.safeObservations))
            && (paused.Some? ==>
                  && paused.value == Row(AwaitingApproval, row.mode, paused.value.history,
                                         row.approvals + [Approval(p.key, p.tool, p.planVersion, p.proposed, scope, now + 300, PendingApproval)])
                  && Stored(row.history, p.plans, p.safeSteps, p.safeObservations, paused.value.history))
  {
    hide CleanPause, Persist, Repeats, Stored, RowsAgree, StepsAgree, WithinBounds;
    PauseExactly(limits, row, p, scope, authorized, now);
    RepeatsExactly(row.history, p.plans, p.safeSteps, p.safeObservations);
    PersistExactly(row.history, p.plans, p.safeSteps, p.safeObservations, authorized);
    StoredCount(row.history, p, authorized);
  }

  lemma StoredCount(h: History, p: Pause, authorized: bool)
    ensures var stored := Persist(h, p.plans, p.safeSteps, p.safeObservations, authorized);
            stored.Some? ==> stored.value.(planCount := |p.plans|) == stored.value
  {
    hide Acceptable;
  }

  /** A run starts once, without an approval and without records. */
  lemma BeginsExactly(limits: Limits, run: Run, scope: string)
    ensures Apply(limits, run, Begin(scope)) ==
              if run.row.status == Created
              then Run(Row(Running, run.row.mode, run.row.history, run.row.approvals), run.executions,
                       Some(Flight(Ticket(run.row.mode, None, []), scope)))
              else run
  {
  }

  /** A pass that is aborted leaves the executions it got to, and the row as it was but for its status. */
  lemma AbortsExactly(limits: Limits, run: Run, env: Env, reached: nat, fate: Fate)
    requires run.flight.Some?
    ensures var run' := Apply(limits, run, Aborting(env, reached, fate));
            var executed := RunPass(limits, env, run.flight.value.ticket).executed;
            && run'.flight.None?
            && Logs(run.executions, if reached < |executed| then executed[..reached] else executed, run.flight.value.scope, run'.executions)
            && run'.row.(status := run.row.status) == run.row
            && run'.row.status == if fate.MarkedFailed? then Ended(RunFailed) else if fate.MarkedCancelled? then Cancelled else run.row.status
  {
    hide RunPass, Apply, Log, Logs;
    AbortUnfolds(limits, run, env, reached, fate);
    var executed := RunPass(limits, env, run.flight.value.ticket).executed;
    LoggedOn(run.executions, if reached < |executed| then executed[..reached] else executed, run.flight.value.scope);
  }

  lemma AbortUnfolds(limits: Limits, run: Run, env: Env, reached: nat, fate: Fate)
    requires run.flight.Some?
    ensures var executed := RunPass(limits, env, run.flight.value.ticket).executed;
            Apply(limits, run, Aborting(env, reached, fate)) ==
              Run(run.row.(status := if fate.MarkedFailed? then Ended(RunFailed) else if fate.MarkedCancelled? then Cancelled else run.row.status),
                  run.executions + Log(if reached < |executed| then executed[..reached] else executed, run.flight.value.scope), None)
  {
    hide RunPass, Approve, Reject, Change, StopRun, Land, FinishRow, Log;
  }

  lemma LoggedOn(executions: seq<Execution>, done: seq<ActionKey>, scope: string)
    ensures Logs(executions, done, scope, executions + Log(done, scope))
  {
  }

  /** A run whose scope is refused before its pass ends is REFUSED if that can be stored, and FAILED if not. */
  lemma RefusesExactly(limits: Limits, run: Run, authorized: bool)
    ensures var run' := Apply(limits, run, RefusedScope(authorized));
            if run.row.status == Created || run.flight.Some? then
              && run'.flight.None? && run'.executions == run.executions
              && run'.row == Row(Ended(if authorized && run.row.history.steps == [] then RunRefused else RunFailed), run.row.mode,
                                 if authorized && run.row.history.steps == [] then run.row.history.(planCount := 0) else run.row.history,
                                 run.row.approvals)
            else run' == run
  {
    hide Persist, Stored, WithinBounds, Repeats, Approve, Reject, Change, StopRun, Land, RunPass;
    var h := run.row.history;
    PersistExactly(h, [], [], [], authorized);
    RefusalStored(h);
  }

  lemma RefusalStored(h: History)
    ensures WithinBounds(h, [], [], []) && (Repeats(h, [], [], []) <==> h.steps == [])
    ensures forall h' :: Stored(h, [], [], [], h') && h.steps == [] ==> h' == h.(planCount := 0)
  {
  }
}
