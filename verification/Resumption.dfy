/**
 Exactly when a waiting run can be resumed, and exactly when a pause cannot be stored.
 */
module Resumption {
  import opened AgentTypes
  import opened AgentLoop
  import opened LoopSafety
  import opened PassSafety
  import opened RunHistory
  import opened Approvals
  import opened Protocol
  import opened ProtocolSafety

  // ---------------------------------------------------------------- reconstruction

  /** Every excerpt that the stored step names can still be read. */
  ghost predicate Readable(s: StoredStep, fetch: Fetch) {
    s.observation.Some? ==>
      var o := s.observation.value;
      forall j :: 0 <= j < |o.documents| && j < |o.chunks| ==> fetch(o.documents[j], o.chunks[j]).Some?
  }

  ghost predicate AllReadable(steps: seq<StoredStep>, fetch: Fetch) {
    forall i :: 0 <= i < |steps| ==> Readable(steps[i], fetch)
  }

  lemma {:induction false} FetchAllExactly(o: SafeObservation, fetch: Fetch, from: nat)
    requires |o.documents| == |o.chunks| == |o.citations| && from <= |o.citations|
    ensures FetchAll(o, fetch, from).Some? <==> forall j :: from <= j < |o.documents| ==> fetch(o.documents[j], o.chunks[j]).Some?
    decreases |o.citations| - from
  {
    if from < |o.citations| {
      FetchAllExactly(o, fetch, from + 1);
    }
  }

  /** Reconstruction succeeds if and only if every stored step can be rebuilt. */
  lemma {:induction false} ReconstructExactly(steps: seq<StoredStep>, fetch: Fetch)
    ensures Reconstruct(steps, fetch).Some? <==> forall i :: 0 <= i < |steps| ==> Rebuild(steps[i], fetch).Some?
  {
    hide Rebuild;
    if steps != [] {
      var front, n := steps[..|steps| - 1], |steps| - 1;
      ReconstructExactly(front, fetch);
      assert forall i :: 0 <= i < n ==> front[i] == steps[i];
      assert Reconstruct(steps, fetch).Some? <==> Reconstruct(front, fetch).Some? && Rebuild(steps[n], fetch).Some?;
    }
  }

  /** A stored step can be rebuilt if and only if it succeeded, is no calculation, is complete, and can still be read. */
  lemma RebuildExactly(s: StoredStep, fetch: Fetch)
    ensures Rebuild(s, fetch).Some? <==>
              && s.observation.Some? && !(CALCULATE_PREFIX <= s.step.tool)
              && var o := s.observation.value;
                 && o.status == Success && o.retries <= 1 && |o.documents| == |o.chunks| == |o.citations|
                 && forall j :: 0 <= j < |o.documents| ==> fetch(o.documents[j], o.chunks[j]).Some?
  {
    hide FetchAll;
    if s.observation.Some? {
      var o := s.observation.value;
      if |o.documents| == |o.chunks| == |o.citations| {
        FetchAllExactly(o, fetch, 0);
      }
    }
  }

  lemma RestorableExactly(s: StoredStep, fetch: Fetch)
    requires Restorable(s)
    ensures Rebuild(s, fetch).Some? <==> Readable(s, fetch)
  {
    hide FetchAll;
    FetchAllExactly(s.observation.value, fetch, 0);
  }

  /** The history of a waiting run can be rebuilt if and only if all its excerpts can still be read. */
  lemma WaitingRebuilds(limits: Limits, run: Run, fetch: Fetch)
    requires Inv(limits, run) && run.row.status == AwaitingApproval
    ensures Reconstruct(run.row.history.steps, fetch).Some? <==> AllReadable(run.row.history.steps, fetch)
  {
    hide OnePending, Climbing, FlightHolds, SoundHistory, ExactlyOnce, Granted, Rebuild, Reconstruct, Restorable, Readable;
    var steps := run.row.history.steps;
    ReconstructExactly(steps, fetch);
    forall i | 0 <= i < |steps| ensures Rebuild(steps[i], fetch).Some? <==> Readable(steps[i], fetch) {
      RestorableExactly(steps[i], fetch);
    }
  }

  /**
   Over every run: an approval resumes it if and only if it is the pending one, is still valid and current, the scope is
   the same, the request is still there, and every excerpt seen so far can still be read.
   */
  lemma {:induction false} ResumesExactly(limits: Limits, mode: ControlMode, events: seq<Event>, id: nat, now: int, scope: string,
                       messageOk: bool, fetch: Fetch)
    requires forall i :: 0 <= i < |events| ==> Valid(events[i])
    ensures var row := Play(limits, NewRun(mode), events).row;
            Approve(row, id, now, scope, messageOk, fetch).ticket.Some? <==>
              && Answerable(row, id) && now < row.approvals[id].expires && BindingIsCurrent(row, row.approvals[id])
              && row.approvals[id].scope == scope && messageOk && AllReadable(row.history.steps, fetch)
  {
    hide Inv, Play, BindingIsCurrent, Reconstruct, AllReadable;
    EveryRun(limits, mode, events);
    var run := Play(limits, NewRun(mode), events);
    if Answerable(run.row, id) {
      WaitingRebuilds(limits, run, fetch);
    }
  }

  // ---------------------------------------------------------------- storing a pause

  /** The pause replays everything that is stored. */
  predicate Replays(h: History, p: Pause) {
    && |h.steps| <= |p.safeSteps|
    && RowsAgree(h.planRows, p.plans)
    && StepsAgree(h.steps, p.safeSteps, p.safeObservations)
  }

  /** A pause of the loop can be stored if and only if it is authorized and replays what is stored. */
  lemma PauseExactly(limits: Limits, row: Row, p: Pause, scope: string, authorized: bool, now: int)
    requires CleanPause(limits, p)
    ensures PauseRow(row, p, scope, authorized, now).Some? <==> authorized && Replays(row.history, p)
  {
    hide SameStep, Searches;
    OrderedIsUnique(p.safeSteps);
  }

  /** The pass in flight pauses, and its pause cannot be stored. */
  ghost predicate PauseFails(limits: Limits, run: Run, env: Env, authorized: bool) {
    && run.flight.Some?
    && var ending := RunPass(limits, env, run.flight.value.ticket).ending;
       ending.Paused? && !(authorized && Replays(run.row.history, ending.pause))
  }

  /** A pass that lands leaves its run RUNNING if and only if it paused and the pause could not be stored. */
  lemma LeftRunningExactly(limits: Limits, run: Run, env: Env, authorized: bool, now: int)
    requires Inv(limits, run) && run.flight.Some? && env.permitted <= APPROVED_TOOLS
    ensures var landed := Apply(limits, run, Landing(env, authorized, now));
            landed.flight.None? && (landed.row.status == Running <==> PauseFails(limits, run, env, authorized))
  {
    hide RunPass, CleanPause, Persistable, Replays, PauseRow, Granted, SoundHistory, ExactlyOnce, Climbing, Persist;
    var f := run.flight.value;
    var ending := RunPass(limits, env, f.ticket).ending;
    PassSafe(limits, env, f.ticket);
    if ending.Paused? {
      PauseExactly(limits, run.row, ending.pause, f.scope, authorized, now);
      PausedRowAwaits(run.row, ending.pause, f.scope, authorized, now);
    }
  }

  lemma PausedRowAwaits(row: Row, p: Pause, scope: string, authorized: bool, now: int)
    ensures var paused := PauseRow(row, p, scope, authorized, now);
            paused.Some? ==> paused.value.status == AwaitingApproval
  {
    hide Persist;
  }
}
