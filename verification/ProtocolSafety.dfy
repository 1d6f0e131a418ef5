/**
 Safety of the approval protocol over every sequence of events.
 */
module ProtocolSafety {
  import opened Wrappers
  import opened AgentTypes
  import opened Gateway
  import opened AgentLoop
  import opened LoopSafety
  import opened PassSafety
  import opened EvidenceNumbering
  import opened RunHistory
  import opened Approvals
  import opened Protocol

  // ---------------------------------------------------------------- reconstruction

  lemma {:induction false} FetchAllIds(o: SafeObservation, fetch: Fetch, from: nat)
    requires |o.documents| == |o.chunks| == |o.citations| && from <= |o.citations|
    ensures FetchAll(o, fetch, from).Some? ==> IdSeq(FetchAll(o, fetch, from).value) == o.citations[from..]
    decreases |o.citations| - from
  {
    if from < |o.citations| {
      FetchAllIds(o, fetch, from + 1);
    }
  }

  lemma {:induction false} RecordedIdsAppend(recorded: seq<Recorded>, r: Recorded)
    ensures RecordedIds(recorded + [r]) == RecordedIds(recorded) + IdSeq(r.observation.evidence)
  {
    if recorded != [] {
      assert (recorded + [r])[1..] == recorded[1..] + [r];
      RecordedIdsAppend(recorded[1..], r);
    }
  }

  /** Reconstruction gives back the stored actions and evidence identifiers, in order. */
  lemma {:induction false} ReconstructFaithful(steps: seq<StoredStep>, fetch: Fetch)
    requires Reconstruct(steps, fetch).Some?
    ensures var recorded := Reconstruct(steps, fetch).value;
            && RecordedKeys(recorded) == Keys(StepsOf(steps))
            && RecordedIds(recorded) == StoredCitations(steps)
  {
    if steps != [] {
      var front, last := steps[..|steps| - 1], steps[|steps| - 1];
      ReconstructFaithful(front, fetch);
      var item := Rebuild(last, fetch).value;
      FetchAllIds(last.observation.value, fetch, 0);
      assert last.observation.value.citations[0..] == last.observation.value.citations;
      RecordedIdsAppend(Reconstruct(front, fetch).value, item);
    }
  }

  // ---------------------------------------------------------------- history

  lemma {:induction false} MirrorCitations(stored: seq<StoredStep>, steps: seq<SafeStep>, observations: seq<SafeObservation>)
    requires |stored| == |steps| && |observations| <= |steps|
    requires forall i :: 0 <= i < |steps| ==> SameStep(stored[i], steps[i], ObservationAt(observations, i))
    ensures StoredCitations(stored) == Citations(observations)
  {
    if steps != [] {
      var n := |steps| - 1;
      LastAgrees(stored[n], steps[n], ObservationAt(observations, n));
      hide SameStep;
      if |observations| == |steps| {
        MirrorCitations(stored[..n], steps[..n], observations[..n]);
      } else {
        MirrorCitations(stored[..n], steps[..n], observations);
      }
    }
  }

  lemma LastAgrees(stored: StoredStep, step: SafeStep, o: Option<SafeObservation>)
    requires SameStep(stored, step, o)
    ensures stored.observation.Some? <==> o.Some?
    ensures o.Some? ==> stored.observation.value.citations == o.value.citations
  {
  }

  /** Persisting a history of the loop keeps the stored history sound. */
  lemma PersistSound(limits: Limits, h: History, plans: seq<Plan>, steps: seq<SafeStep>,
                     observations: seq<SafeObservation>, authorized: bool)
    requires Persist(h, plans, steps, observations, authorized).Some?
    requires |observations| <= |steps| <= limits.maxSteps && GoodSteps(steps, plans)
    requires Contiguous(observations) && forall i :: 0 <= i < |observations| ==> Small(observations[i])
    ensures SoundHistory(limits, Persist(h, plans, steps, observations, authorized).value)
    ensures Grows(h, Persist(h, plans, steps, observations, authorized).value)
    ensures StepsOf(Persist(h, plans, steps, observations, authorized).value.steps) == steps
  {
    hide SameStep, Persist;
    PersistAppends(h, plans, steps, observations, authorized);
    var h' := Persist(h, plans, steps, observations, authorized).value;
    MirrorCitations(h'.steps, steps, observations);
    CitationsBounded(observations);
  }

  lemma SoundIgnoresCount(limits: Limits, h: History, n: nat)
    requires SoundHistory(limits, h)
    ensures SoundHistory(limits, h.(planCount := n))
  {
  }

  // ---------------------------------------------------------------- grants

  lemma GrantsStay(mode: ControlMode, executions: seq<Execution>, approvals: seq<Approval>, bound: nat, g: seq<nat>,
                   approvals': seq<Approval>, bound': nat)
    requires Granted(mode, executions, approvals, bound, g)
    requires bound' <= |approvals'| && |approvals| <= |approvals'|
    requires forall i :: 0 <= i < |approvals| && approvals[i].status == Consumed ==> approvals'[i] == approvals[i] && (i < bound ==> i < bound')
    ensures Granted(mode, executions, approvals', bound', g)
  {
  }

  /** The executions of one pass extend the injection: the one that needs it uses the approval just consumed. */
  lemma GrantsGrow(mode: ControlMode, executions: seq<Execution>, approvals: seq<Approval>, g: seq<nat>,
                   approved: Option<ActionKey>, scope: string, executed: seq<ActionKey>)
    requires approved.Some? ==> approvals != []
    requires approved.Some? ==> var a := approvals[|approvals| - 1];
               a.status == Consumed && Some(a.key) == approved && a.scope == scope
    requires Granted(mode, executions, approvals, if approved.Some? then |approvals| - 1 else |approvals|, g)
    requires Authorized(mode, approved, executed)
    ensures exists g' :: Granted(mode, executions + Log(executed, scope), approvals, |approvals|, g')
  {
    var last := if approved.Some? then |approvals| - 1 else 0;
    var g' := g + seq(|executed|, i => last);
    var all := executions + Log(executed, scope);
    forall i | 0 <= i < |all| && NeedsApproval(mode, all[i].key)
      ensures g'[i] < |approvals| && Covers(approvals[g'[i]], all[i])
    {
      if i < |executions| { assert all[i] == executions[i]; }
    }
    assert Granted(mode, all, approvals, |approvals|, g');
  }

  // ---------------------------------------------------------------- executions

  lemma DistinctTogether(a: seq<ActionKey>, b: seq<ActionKey>)
    requires Distinct(a) && Distinct(b)
    requires forall i, j :: 0 <= i < |a| && 0 <= j < |b| ==> a[i] != b[j]
    ensures Distinct(a + b)
  {
  }

  lemma ExecutedAppend(executions: seq<Execution>, executed: seq<ActionKey>, scope: string)
    ensures ExecutedKeys(executions + Log(executed, scope)) == ExecutedKeys(executions) + executed
  {
  }

  lemma {:induction false} SearchesTogether(before: seq<ActionKey>, executed: seq<ActionKey>, done: seq<ActionKey>)
    requires done <= executed
    ensures SearchCount(before + done) <= SearchCount(before) + SearchCount(executed)
    ensures executed == [] ==> SearchCount(before + done) == SearchCount(before)
  {
    SearchCountAppend(before, done);
    assert executed[..|done|] == done;
    SearchCountPrefix(executed, |done|);
  }

  /** Whatever part of a pass is executed, no action of the run is executed a second time. */
  lemma {:induction false} NeverTwice(limits: Limits, run: Run, executed: seq<ActionKey>, done: seq<ActionKey>)
    requires run.flight.Some? && FlightHolds(run) && ExactlyOnce(limits, run)
    requires Distinct(executed) && NotReplayed(run.flight.value.ticket.recorded, 0, executed) && done <= executed
    requires executed != [] ==>
               && |run.flight.value.ticket.recorded| + |executed| <= limits.maxSteps
               && SearchCount(RecordedKeys(run.flight.value.ticket.recorded)) + SearchCount(executed) <= 1 + limits.maxRewrites
    ensures |run.executions + Log(done, run.flight.value.scope)| <= limits.maxSteps
    ensures Distinct(ExecutedKeys(run.executions + Log(done, run.flight.value.scope)))
    ensures SearchCount(ExecutedKeys(run.executions + Log(done, run.flight.value.scope))) <= 1 + limits.maxRewrites
  {
    hide SearchCount;
    var before := ExecutedKeys(run.executions);
    var recorded := run.flight.value.ticket.recorded;
    assert before == RecordedKeys(recorded);
    forall i, j | 0 <= i < |before| && 0 <= j < |done| ensures before[i] != done[j] {
      assert done[j] == executed[j] && before[i] == recorded[i].key;
    }
    DistinctTogether(before, done);
    ExecutedAppend(run.executions, done, run.flight.value.scope);
    SearchesTogether(before, executed, done);
  }

  // ---------------------------------------------------------------- one event at a time

  /** Answering the pending approval without consuming it ends the run. */
  lemma ResolveKeeps(limits: Limits, run: Run, id: nat, verdict: ApprovalStatus, status: RunStatus)
    requires Inv(limits, run) && Answerable(run.row, id)
    requires verdict != PendingApproval && verdict != Consumed && (status.Ended? || status.Cancelled?)
    ensures Inv(limits, run.(row := Resolve(run.row, id, verdict, status)))
  {
    hide Distinct, SoundHistory;
    var run' := run.(row := Resolve(run.row, id, verdict, status));
    assert run.flight.None? && id == |run.row.approvals| - 1;
    var g :| Granted(run.row.mode, run.executions, run.row.approvals, Used(run), g);
    GrantsStay(run.row.mode, run.executions, run.row.approvals, Used(run), g, run'.row.approvals, Used(run'));
  }

  lemma ResolvedRow(limits: Limits, row: Row, id: nat, verdict: ApprovalStatus, status: RunStatus)
    requires OnePending(row) && Climbing(limits, row) && Answerable(row, id)
    requires verdict != PendingApproval && status != AwaitingApproval
    ensures id == |row.approvals| - 1 && row.approvals[id].proposed == |row.history.steps| + 1
    ensures OnePending(Resolve(row, id, verdict, status)) && Climbing(limits, Resolve(row, id, verdict, status))
  {
  }

  /** Consuming the pending approval puts a pass in flight that replays exactly the stored steps. */
  lemma ConsumeKeeps(limits: Limits, run: Run, id: nat, now: int, scope: string, messageOk: bool, fetch: Fetch)
    requires Inv(limits, run) && Approve(run.row, id, now, scope, messageOk, fetch).ticket.Some?
    ensures Inv(limits, Apply(limits, run, Approving(id, now, scope, messageOk, fetch)))
  {
    hide Distinct, SoundHistory, Reconstruct, RecordedIds, RecordedKeys, StoredCitations, Granted, BindingIsCurrent,
         OnePending, Climbing, SearchCount, Restorable, Keys, StepsOf, EvidenceCount, UpTo, ExecutedKeys;
    ResolvedRow(limits, run.row, id, Consumed, Running);
    var approved := Approve(run.row, id, now, scope, messageOk, fetch);
    var run' := Apply(limits, run, Approving(id, now, scope, messageOk, fetch));
    assert run.flight.None?;
    TicketReplays(limits, run.row.history, fetch);
    var g :| Granted(run.row.mode, run.executions, run.row.approvals, Used(run), g);
    GrantsBelow(run.row.mode, run.executions, run.row.approvals, g);
    GrantsStay(run.row.mode, run.executions, run.row.approvals, |run.row.approvals| - 1, g, run'.row.approvals, Used(run'));
  }

  /** What is rebuilt from a sound history replays it, with its evidence numbered without gaps. */
  lemma TicketReplays(limits: Limits, h: History, fetch: Fetch)
    requires SoundHistory(limits, h) && Reconstruct(h.steps, fetch).Some?
    ensures var recorded := Reconstruct(h.steps, fetch).value;
            && RecordedKeys(recorded) == Keys(StepsOf(h.steps))
            && RecordedIds(recorded) == UpTo(EvidenceCount(recorded)) && EvidenceCount(recorded) <= MAX_EVIDENCE_SEQUENCE
  {
    hide SoundHistory, Reconstruct, RecordedIds, StoredCitations;
    ReconstructFaithful(h.steps, fetch);
    EvidenceCountIsIds(Reconstruct(h.steps, fetch).value);
    SoundCitations(limits, h);
  }

  lemma SoundCitations(limits: Limits, h: History)
    requires SoundHistory(limits, h)
    ensures StoredCitations(h.steps) == UpTo(|StoredCitations(h.steps)|)
    ensures |StoredCitations(h.steps)| <= MAX_EVIDENCE_SEQUENCE
  {
  }

  /** A pending approval has not been used. */
  lemma GrantsBelow(mode: ControlMode, executions: seq<Execution>, approvals: seq<Approval>, g: seq<nat>)
    requires Granted(mode, executions, approvals, |approvals|, g)
    requires approvals != [] && approvals[|approvals| - 1].status != Consumed
    ensures Granted(mode, executions, approvals, |approvals| - 1, g)
  {
  }

  /** A pass that ends the run in one way or another. */
  lemma EndKeeps(limits: Limits, run: Run, run': Run, executed: seq<ActionKey>)
    requires Inv(limits, run) && run.flight.Some?
    requires |run'.executions| <= limits.maxSteps && Distinct(ExecutedKeys(run'.executions))
    requires SearchCount(ExecutedKeys(run'.executions)) <= 1 + limits.maxRewrites
    requires run'.executions == run.executions + Log(executed, run.flight.value.scope)
    requires Authorized(run.row.mode, run.flight.value.ticket.approved, executed)
    requires run'.flight.None? && run'.row.approvals == run.row.approvals && run'.row.mode == run.row.mode
    requires run'.row.status != AwaitingApproval && run'.row.status != Created
    requires SoundHistory(limits, run'.row.history)
    ensures Inv(limits, run')
  {
    hide Distinct, SoundHistory, Authorized, Granted;
    var f := run.flight.value;
    var g :| Granted(run.row.mode, run.executions, run.row.approvals, Used(run), g);
    GrantsGrow(run.row.mode, run.executions, run.row.approvals, g, f.ticket.approved, f.scope, executed);
    var g' :| Granted(run.row.mode, run.executions + Log(executed, f.scope), run.row.approvals, |run.row.approvals|, g');
    assert Granted(run'.row.mode, run'.executions, run'.row.approvals, Used(run'), g');
  }

  /** The new proposal lies beyond every earlier one. */
  lemma PauseClimbs(limits: Limits, run: Run, row': Row, p: Pause, executed: seq<ActionKey>, scope: string, now: int)
    requires Climbing(limits, run.row) && OnePending(run.row) && FlightHolds(run) && run.flight.Some?
    requires |p.safeSteps| == |run.row.history.steps| + |executed| == p.proposed - 1 < limits.maxSteps
    requires run.flight.value.ticket.approved.Some? ==> executed != []
    requires row'.approvals == run.row.approvals + [Approval(p.key, p.tool, p.planVersion, p.proposed, scope,
                                                             now + APPROVAL_LIFETIME, PendingApproval)]
    requires row'.status == AwaitingApproval && |row'.history.steps| == |p.safeSteps|
    ensures Climbing(limits, row') && OnePending(row')
  {
    hide RecordedIds, RecordedKeys;
    var n := |run.row.approvals|;
    forall i | 0 <= i < n ensures row'.approvals[i].proposed < p.proposed {
      assert run.row.approvals[i].proposed <= run.row.approvals[n - 1].proposed;
    }
  }

  /** What a pause adds to the stored history can be rebuilt, as what was there before. */
  lemma PersistRestorable(h: History, p: Pause, limits: Limits, authorized: bool, replayed: seq<ActionKey>, executed: seq<ActionKey>)
    requires CleanPause(limits, p) && Persist(h, p.plans, p.safeSteps, p.safeObservations, authorized).Some?
    requires Keys(p.safeSteps) == replayed + executed && |h.steps| == |replayed| && NoCalculations(executed)
    requires forall i :: 0 <= i < |h.steps| ==> Restorable(h.steps[i])
    ensures var steps := Persist(h, p.plans, p.safeSteps, p.safeObservations, authorized).value.steps;
            forall i :: 0 <= i < |steps| ==> Restorable(steps[i])
  {
    hide Acceptable, Ordered, DistinctKeys, Numbered, Searches;
    assert |h.steps| <= |p.safeSteps|;
    var steps := Persist(h, p.plans, p.safeSteps, p.safeObservations, authorized).value.steps;
    forall i | 0 <= i < |steps| ensures Restorable(steps[i]) {
      if i >= |h.steps| {
        assert steps[i] == StoredStep(p.safeSteps[i], Some(p.safeObservations[i]));
        assert p.safeSteps[i].key == executed[i - |replayed|];
      }
    }
  }

  /** The stored history after a pause. */
  lemma PauseHistory(limits: Limits, h: History, p: Pause, authorized: bool, replayed: seq<ActionKey>, executed: seq<ActionKey>)
    requires SoundHistory(limits, h) && CleanPause(limits, p) && Contiguous(p.safeObservations)
    requires Persist(h, p.plans, p.safeSteps, p.safeObservations, authorized).Some?
    requires Keys(p.safeSteps) == replayed + executed && |h.steps| == |replayed| && NoCalculations(executed)
    requires forall i :: 0 <= i < |h.steps| ==> Restorable(h.steps[i])
    ensures var h' := Persist(h, p.plans, p.safeSteps, p.safeObservations, authorized).value;
            && (forall n: nat :: SoundHistory(limits, h'.(planCount := n)))
            && StepsOf(h'.steps) == p.safeSteps
            && (forall i :: 0 <= i < |h'.steps| ==> Restorable(h'.steps[i]))
    ensures |p.safeSteps| == p.proposed - 1 < limits.maxSteps
  {
    hide SoundHistory, Persist, Contiguous, GoodSteps, Restorable, NoCalculations;
    PersistSound(limits, h, p.plans, p.safeSteps, p.safeObservations, authorized);
    PersistRestorable(h, p, limits, authorized, replayed, executed);
    var h' := Persist(h, p.plans, p.safeSteps, p.safeObservations, authorized).value;
    forall n: nat ensures SoundHistory(limits, h'.(planCount := n)) {
      SoundIgnoresCount(limits, h', n);
    }
  }

  /** A pass that pauses again keeps the invariant. */
  lemma PauseKeeps(limits: Limits, run: Run, p: Pause, executed: seq<ActionKey>, authorized: bool, now: int)
    requires Inv(limits, run) && run.flight.Some?
    requires Distinct(ExecutedKeys(run.executions + Log(executed, run.flight.value.scope)))
    requires SearchCount(ExecutedKeys(run.executions + Log(executed, run.flight.value.scope))) <= 1 + limits.maxRewrites
    requires NoCalculations(executed)
    requires Authorized(run.row.mode, run.flight.value.ticket.approved, executed)
    requires CleanPause(limits, p) && Contiguous(p.safeObservations)
    requires Keys(p.safeSteps) == RecordedKeys(run.flight.value.ticket.recorded) + executed
    requires run.flight.value.ticket.approved.Some? ==> executed != []
    requires PauseRow(run.row, p, run.flight.value.scope, authorized, now).Some?
    ensures Inv(limits, Run(PauseRow(run.row, p, run.flight.value.scope, authorized, now).value,
                            run.executions + Log(executed, run.flight.value.scope), None))
  {
    hide Distinct, SoundHistory, Authorized, Granted, Persist, Contiguous, CleanPause, Climbing, OnePending, Restorable,
         SearchCount, NoCalculations;
    var f := run.flight.value;
    var row' := PauseRow(run.row, p, f.scope, authorized, now).value;
    var run' := Run(row', run.executions + Log(executed, f.scope), None);
    PauseHistory(limits, run.row.history, p, authorized, RecordedKeys(f.ticket.recorded), executed);
    assert |run.row.history.steps| == |RecordedKeys(f.ticket.recorded)|;
    PauseClimbs(limits, run, row', p, executed, f.scope, now);
    assert ExactlyOnce(limits, run') by {
      ExecutedAppend(run.executions, executed, f.scope);
    }
    var g :| Granted(run.row.mode, run.executions, run.row.approvals, Used(run), g);
    GrantsGrow(run.row.mode, run.executions, run.row.approvals, g, f.ticket.approved, f.scope, executed);
    var g' :| Granted(run.row.mode, run'.executions, run.row.approvals, |run.row.approvals|, g');
    GrantsStay(run.row.mode, run'.executions, run.row.approvals, |run.row.approvals|, g', row'.approvals, Used(run'));
  }

  /** A terminal commit keeps the stored history sound, whether it succeeds or not. */
  lemma FinishSound(limits: Limits, row: Row, o: Outcome, authorized: bool)
    requires SoundHistory(limits, row.history) && Persistable(limits, o) && Contiguous(o.safeObservations)
    ensures SoundHistory(limits, FinishRow(row, o, authorized).history)
    ensures FinishRow(row, o, authorized).status.Ended?
    ensures FinishRow(row, o, authorized).approvals == row.approvals && FinishRow(row, o, authorized).mode == row.mode
  {
    hide SoundHistory, Persist, Contiguous, GoodSteps;
    if Persist(row.history, o.plans, o.safeSteps, o.safeObservations, authorized).Some? {
      PersistSound(limits, row.history, o.plans, o.safeSteps, o.safeObservations, authorized);
    }
  }

  lemma LandKeeps(limits: Limits, run: Run, env: Env, authorized: bool, now: int)
    requires Inv(limits, run) && run.flight.Some? && env.permitted <= APPROVED_TOOLS
    ensures Inv(limits, Apply(limits, run, Landing(env, authorized, now)))
  {
    hide Distinct, SoundHistory, Authorized, Granted, Persistable, Contiguous, CleanPause, RunPass, FinishRow, PauseRow,
         NotReplayed, OnePending, Climbing;
    var f := run.flight.value;
    var pass := RunPass(limits, env, f.ticket);
    var run' := Apply(limits, run, Landing(env, authorized, now));
    PassSafe(limits, env, f.ticket);
    PassContiguous(limits, env, f.ticket);
    NeverTwice(limits, run, pass.executed, pass.executed);
    match pass.ending
    case Terminal(o) =>
      FinishSound(limits, run.row, o, authorized);
      EndKeeps(limits, run, run', pass.executed);
    case Paused(p) =>
      if PauseRow(run.row, p, f.scope, authorized, now).Some? {
        PauseKeeps(limits, run, p, pass.executed, authorized, now);
      } else {
        EndKeeps(limits, run, run', pass.executed);
      }
    case _ =>
      EndKeeps(limits, run, run', pass.executed);
  }

  lemma AuthorizedPrefix(mode: ControlMode, approved: Option<ActionKey>, executed: seq<ActionKey>, n: nat)
    requires Authorized(mode, approved, executed) && n <= |executed|
    ensures Authorized(mode, approved, executed[..n])
  {
  }

  lemma AbortKeeps(limits: Limits, run: Run, env: Env, reached: nat, fate: Fate)
    requires Inv(limits, run) && run.flight.Some? && env.permitted <= APPROVED_TOOLS
    ensures Inv(limits, Apply(limits, run, Aborting(env, reached, fate)))
  {
    hide Distinct, SoundHistory, Authorized, Granted, Persistable, CleanPause, RunPass, NotReplayed, OnePending, Climbing,
         SearchCount, NoCalculations, Restorable;
    var f := run.flight.value;
    var executed := RunPass(limits, env, f.ticket).executed;
    var done := if reached < |executed| then executed[..reached] else executed;
    PassSafe(limits, env, f.ticket);
    NeverTwice(limits, run, executed, done);
    AuthorizedPrefix(f.ticket.mode, f.ticket.approved, executed, |done|);
    assert executed[..|done|] == done;
    EndKeeps(limits, run, Apply(limits, run, Aborting(env, reached, fate)), done);
  }

  lemma RefuseKeeps(limits: Limits, run: Run, authorized: bool)
    requires Inv(limits, run)
    ensures Inv(limits, Apply(limits, run, RefusedScope(authorized)))
  {
    hide Distinct, SoundHistory, Granted, FinishRow, OnePending, Climbing;
    if run.row.status == Created || run.flight.Some? {
      var o := StopBare(RunRefused, ScopeDenied);
      var run' := Apply(limits, run, RefusedScope(authorized));
      BarePersistable(limits);
      FinishSound(limits, run.row, o, authorized);
      if run.flight.Some? {
        NothingExecuted(run.flight.value.ticket);
        assert run.executions + Log([], run.flight.value.scope) == run.executions;
        EndKeeps(limits, run, run', []);
      } else {
        FreshEnds(limits, run, run');
      }
    }
  }

  lemma BarePersistable(limits: Limits)
    ensures Persistable(limits, StopBare(RunRefused, ScopeDenied)) && Contiguous([])
  {
    assert Citations([]) == UpTo(0);
  }

  lemma FreshEnds(limits: Limits, run: Run, run': Run)
    requires Inv(limits, run) && run.row.status == Created
    requires run'.row.approvals == run.row.approvals && run'.row.mode == run.row.mode && run'.row.status.Ended?
    requires run'.executions == run.executions && run'.flight.None? && SoundHistory(limits, run'.row.history)
    ensures Inv(limits, run')
  {
    hide SoundHistory;
    assert Granted(run'.row.mode, run'.executions, run'.row.approvals, Used(run'), []);
  }

  lemma BeginKeeps(limits: Limits, run: Run, scope: string)
    requires Inv(limits, run) && run.row.status == Created
    ensures Inv(limits, Apply(limits, run, Begin(scope)))
  {
    hide SoundHistory;
    var run' := Apply(limits, run, Begin(scope));
    assert Granted(run'.row.mode, run'.executions, run'.row.approvals, Used(run'), []);
    assert RecordedIds([]) == UpTo(0) && EvidenceCount([]) == 0;
  }

  /** Every event keeps the invariant. */
  lemma ApplyKeeps(limits: Limits, run: Run, e: Event)
    requires Inv(limits, run) && Valid(e)
    ensures Inv(limits, Apply(limits, run, e))
  {
    hide Inv;
    match e
    case Begin(scope) =>
      if run.row.status == Created { BeginKeeps(limits, run, scope); }
    case Approving(id, now, scope, messageOk, fetch) =>
      if Approve(run.row, id, now, scope, messageOk, fetch).ticket.Some? {
        ConsumeKeeps(limits, run, id, now, scope, messageOk, fetch);
      } else if Answerable(run.row, id) {
        ResolveKeeps(limits, run, id, if run.row.approvals[id].expires <= now then Expired else Withdrawn, Ended(RunFailed));
      }
    case Rejecting(id) =>
      if Answerable(run.row, id) { ResolveKeeps(limits, run, id, Rejected, Cancelled); }
    case Changing(id) =>
      if Answerable(run.row, id) { ResolveKeeps(limits, run, id, Superseded, Cancelled); }
    case Stopping =>
      if run.row.status == AwaitingApproval {
        PendingIsOpen(limits, run);
        ResolveKeeps(limits, run, FirstOpen(run.row.approvals), Withdrawn, Cancelled);
      }
    case Landing(env, authorized, now) =>
      if run.flight.Some? { LandKeeps(limits, run, env, authorized, now); }
    case RefusedScope(authorized) =>
      RefuseKeeps(limits, run, authorized);
    case Aborting(env, reached, fate) =>
      if run.flight.Some? { AbortKeeps(limits, run, env, reached, fate); }
  }

  lemma PendingIsOpen(limits: Limits, run: Run)
    requires Inv(limits, run) && run.row.status == AwaitingApproval
    ensures Answerable(run.row, FirstOpen(run.row.approvals))
  {
  }

  // ---------------------------------------------------------------- whole runs

  /** The invariant holds after every sequence of events. */
  lemma {:induction false} EveryRun(limits: Limits, mode: ControlMode, events: seq<Event>)
    requires forall i :: 0 <= i < |events| ==> Valid(events[i])
    ensures Inv(limits, Play(limits, NewRun(mode), events))
  {
    hide Apply;
    if events == [] {
      var run := NewRun(mode);
      assert Granted(mode, run.executions, run.row.approvals, Used(run), []);
      assert StoredCitations([]) == UpTo(0);
    } else {
      EveryRun(limits, mode, events[..|events| - 1]);
      ApplyKeeps(limits, Play(limits, NewRun(mode), events[..|events| - 1]), events[|events| - 1]);
    }
  }

  /** Pause and resume cannot go on for ever: a run never asks for more approvals than it may take steps. */
  lemma {:induction false} BoundedApprovals(limits: Limits, mode: ControlMode, events: seq<Event>)
    requires forall i :: 0 <= i < |events| ==> Valid(events[i])
    ensures |Play(limits, NewRun(mode), events).row.approvals| <= limits.maxSteps
  {
    EveryRun(limits, mode, events);
    var approvals := Play(limits, NewRun(mode), events).row.approvals;
    if approvals != [] {
      Increasing(approvals, |approvals| - 1);
    }
  }

  lemma Increasing(approvals: seq<Approval>, n: nat)
    requires n < |approvals|
    requires forall i :: 0 <= i < |approvals| ==> 1 <= approvals[i].proposed
    requires forall i, j :: 0 <= i < j < |approvals| ==> approvals[i].proposed < approvals[j].proposed
    ensures n + 1 <= approvals[n].proposed
  {
    if n > 0 {
      Increasing(approvals, n - 1);
    }
  }

  /** Over a whole run, resumptions and aborted passes included, no action runs twice and both limits hold. */
  lemma {:induction false} BoundedExecutions(limits: Limits, mode: ControlMode, events: seq<Event>)
    requires forall i :: 0 <= i < |events| ==> Valid(events[i])
    ensures var run := Play(limits, NewRun(mode), events);
            && |run.executions| <= limits.maxSteps && Distinct(ExecutedKeys(run.executions))
            && SearchCount(ExecutedKeys(run.executions)) <= 1 + limits.maxRewrites
  {
    EveryRun(limits, mode, events);
  }

  /** Once answered, an approval never changes; what it binds never changes at all. */
  lemma AnsweredOnce(limits: Limits, run: Run, e: Event, i: nat)
    requires i < |run.row.approvals|
    ensures var run' := Apply(limits, run, e);
            && i < |run'.row.approvals|
            && run'.row.approvals[i].(status := PendingApproval) == run.row.approvals[i].(status := PendingApproval)
            && (run.row.approvals[i].status != PendingApproval ==> run'.row.approvals[i] == run.row.approvals[i])
  {
    hide RunPass, Reconstruct, Persist, BindingIsCurrent;
  }

  /** Every status change follows the transition table. */
  lemma FollowsTable(limits: Limits, run: Run, e: Event)
    requires Inv(limits, run)
    ensures var run' := Apply(limits, run, e);
            run'.row.status != run.row.status ==> Allowed(run.row.status, run'.row.status)
  {
    hide RunPass, Reconstruct, Persist, BindingIsCurrent, Granted, SoundHistory, ExactlyOnce, Climbing;
  }

  /** Stored rows are never changed or removed. */
  lemma HistoryGrows(limits: Limits, run: Run, e: Event)
    ensures Grows(run.row.history, Apply(limits, run, e).row.history)
  {
    hide RunPass, Reconstruct, BindingIsCurrent, Persist;
    match e
    case Landing(env, authorized, now) =>
      if run.flight.Some? {
        match RunPass(limits, env, run.flight.value.ticket).ending
        case Terminal(o) => PersistGrows(run.row.history, o.plans, o.safeSteps, o.safeObservations, authorized);
        case Paused(p) => PersistGrows(run.row.history, p.plans, p.safeSteps, p.safeObservations, authorized);
        case _ =>
      }
    case RefusedScope(authorized) => PersistGrows(run.row.history, [], [], [], authorized);
    case _ =>
  }

  lemma PersistGrows(h: History, plans: seq<Plan>, steps: seq<SafeStep>, observations: seq<SafeObservation>, authorized: bool)
    ensures var p := Persist(h, plans, steps, observations, authorized); p.Some? ==> Grows(h, p.value)
  {
    if Persist(h, plans, steps, observations, authorized).Some? {
      PersistAppends(h, plans, steps, observations, authorized);
    }
  }

  /** The history after some events is an unchanged prefix of the history after any further events. */
  lemma {:induction false} AppendOnly(limits: Limits, run: Run, events: seq<Event>, n: nat)
    requires n <= |events|
    ensures Grows(Play(limits, run, events[..n]).row.history, Play(limits, run, events).row.history)
    decreases |events|
  {
    hide Apply;
    if n == |events| {
      assert events[..n] == events;
    } else {
      var front := events[..|events| - 1];
      AppendOnly(limits, run, front, n);
      assert front[..n] == events[..n];
      HistoryGrows(limits, Play(limits, run, front), events[|events| - 1]);
    }
  }

  /**
   After a pause the approval's binding is current exactly when no earlier pass stored more plan versions than
   the one that paused.
   */
  lemma BindingExactly(limits: Limits, row: Row, p: Pause, scope: string, authorized: bool, now: int)
    requires CleanPause(limits, p) && PauseRow(row, p, scope, authorized, now).Some?
    ensures var row' := PauseRow(row, p, scope, authorized, now).value;
            BindingIsCurrent(row', row'.approvals[|row'.approvals| - 1]) <==> |row.history.planRows| <= |p.plans|
  {
    hide Persist, GoodSteps, AllSucceeded;
    PersistAppends(row.history, p.plans, p.safeSteps, p.safeObservations, authorized);
  }

  /**
   Whatever the loop hands over is accepted by persistence if it replays what is stored: no size, contiguity,
   plan, tool or uniqueness check can reject it.
   */
  lemma LoopIsAccepted(limits: Limits, h: History, o: Outcome)
    requires Persistable(limits, o)
    ensures Persist(h, o.plans, o.safeSteps, o.safeObservations, true).Some? <==>
            && |h.steps| <= |o.safeSteps|
            && RowsAgree(h.planRows, o.plans)
            && StepsAgree(h.steps, o.safeSteps, o.safeObservations)
  {
    OrderedIsUnique(o.safeSteps);
  }
}
