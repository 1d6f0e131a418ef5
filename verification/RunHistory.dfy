/**
 The content-free history of a run and its append-only persistence.
 */
module RunHistory {
  import opened Wrappers
  import opened AgentTypes
  import opened LoopSafety

  datatype PlanRow = PlanRow(changeReason: string, stepCount: nat)

  datatype StoredStep = StoredStep(step: SafeStep, observation: Option<SafeObservation>)

  /**
   What the database holds for one run. Versions are accepted only as `1 .. n`, so the plan rows form a sequence
   whose entry `i` is version `i + 1`; `planCount` is the run's own counter.
   */
  datatype History = History(planRows: seq<PlanRow>, steps: seq<StoredStep>, planCount: nat)

  const EMPTY_HISTORY := History([], [], 0)

  const MAX_STORED := 4

  function RowOf(plan: Plan): PlanRow {
    PlanRow(plan.changeReason, |plan.steps|)
  }

  /** Equality of observations as the replay check sees it: retry counts are not compared. */
  predicate SameObservation(a: Option<SafeObservation>, b: Option<SafeObservation>) {
    if a.Some? && b.Some? then a.value.(retries := 0) == b.value.(retries := 0) else a.None? && b.None?
  }

  /** The observation that belongs to a step of a snapshot, if there is one. */
  function ObservationAt(observations: seq<SafeObservation>, i: nat): Option<SafeObservation> {
    if i < |observations| then Some(observations[i]) else None
  }

  predicate SameStep(stored: StoredStep, step: SafeStep, observation: Option<SafeObservation>) {
    stored.step == step && SameObservation(stored.observation, observation)
  }

  /** No two stored steps share a plan position. */
  predicate UniquePositions(steps: seq<SafeStep>) {
    forall i, j :: 0 <= i < j < |steps| ==>
      steps[i].planVersion != steps[j].planVersion || steps[i].stepIndex != steps[j].stepIndex
  }

  /** The checks of persistence, together with the database constraints on the rows it writes. */
  predicate Acceptable(h: History, plans: seq<Plan>, steps: seq<SafeStep>, observations: seq<SafeObservation>) {
    && InOrder(plans)
    && |steps| <= MAX_STORED && |observations| <= MAX_STORED
    && |observations| <= |steps|
    && |h.steps| <= |steps|
    && RowsAgree(h.planRows, plans)
    && StepsAgree(h.steps, steps, observations)
    && Storable(steps, |h.steps|, if |plans| > |h.planRows| then |plans| else |h.planRows|)
    && |plans| <= 2
    && UniquePositions(steps)
  }

  /** Adds the missing plan rows, steps and observations, and nothing else. */
  function Persist(h: History, plans: seq<Plan>, steps: seq<SafeStep>, observations: seq<SafeObservation>,
                   authorized: bool): Option<History>
  {
    if !authorized || !Acceptable(h, plans, steps, observations) then None
    else
      Some(History(h.planRows + NewRows(plans, |h.planRows|), h.steps + NewSteps(steps, observations, |h.steps|), |plans|))
  }

  function NewRows(plans: seq<Plan>, from: nat): (r: seq<PlanRow>)
    ensures |r| == if from <= |plans| then |plans| - from else 0
    ensures forall i :: 0 <= i < |r| ==> r[i] == RowOf(plans[from + i])
  {
    if from >= |plans| then []
    else seq(|plans| - from, i requires 0 <= i < |plans| - from => RowOf(plans[from + i]))
  }

  function NewSteps(steps: seq<SafeStep>, observations: seq<SafeObservation>, from: nat): (r: seq<StoredStep>)
    requires from <= |steps|
    ensures |r| == |steps| - from
    ensures forall i :: 0 <= i < |r| ==> r[i] == StoredStep(steps[from + i], ObservationAt(observations, from + i))
  {
    seq(|steps| - from, i requires 0 <= i < |steps| - from =>
      StoredStep(steps[from + i], ObservationAt(observations, from + i)))
  }

  function StepsOf(stored: seq<StoredStep>): (r: seq<SafeStep>)
    ensures |r| == |stored| && forall i :: 0 <= i < |r| ==> r[i] == stored[i].step
  {
    seq(|stored|, i requires 0 <= i < |stored| => stored[i].step)
  }

  /** The stored history mirrors a snapshot, up to retry counts. */
  ghost predicate Mirrors(h: History, steps: seq<SafeStep>, observations: seq<SafeObservation>) {
    && |h.steps| == |steps|
    && forall i :: 0 <= i < |steps| ==> SameStep(h.steps[i], steps[i], ObservationAt(observations, i))
  }

  /** A later history keeps every earlier row exactly as it was. */
  ghost predicate Grows(h: History, h': History) {
    h.planRows <= h'.planRows && h.steps <= h'.steps
  }

  /** A successful persist appends only, and leaves exactly the steps of the snapshot. */
  lemma PersistAppends(h: History, plans: seq<Plan>, steps: seq<SafeStep>, observations: seq<SafeObservation>,
                       authorized: bool)
    requires Persist(h, plans, steps, observations, authorized).Some?
    ensures var h' := Persist(h, plans, steps, observations, authorized).value;
            && Grows(h, h') && Mirrors(h', steps, observations) && StepsOf(h'.steps) == steps
            && |h'.planRows| == (if |plans| > |h.planRows| then |plans| else |h.planRows|)
            && h'.planCount == |plans|
  {
    hide UniquePositions, Storable, RowsAgree, SameObservation, InOrder;
    var h' := Persist(h, plans, steps, observations, authorized).value;
    forall i | 0 <= i < |steps|
      ensures h'.steps[i].step == steps[i] && SameStep(h'.steps[i], steps[i], ObservationAt(observations, i))
    {
      if i < |h.steps| {
        assert h'.steps[i] == h.steps[i];
      } else {
        assert h'.steps[i] == StoredStep(steps[i], ObservationAt(observations, i));
        SameAsItself(ObservationAt(observations, i));
      }
    }
  }

  lemma SameAsItself(o: Option<SafeObservation>)
    ensures SameObservation(o, o)
  {
  }

  lemma OrderedIsUnique(steps: seq<SafeStep>)
    requires Ordered(steps)
    ensures UniquePositions(steps)
  {
  }

  predicate InOrder(plans: seq<Plan>) {
    forall i :: 0 <= i < |plans| ==> plans[i].version == i + 1
  }

  predicate RowsAgree(rows: seq<PlanRow>, plans: seq<Plan>) {
    forall i :: 0 <= i < |plans| && i < |rows| ==> rows[i] == RowOf(plans[i])
  }

  // ---------------------------------------------------------------- what is accepted and what is stored

  /** The snapshot begins with what is stored: the same plan rows, and the same steps with the same observations. */
  ghost predicate Repeats(h: History, plans: seq<Plan>, steps: seq<SafeStep>, observations: seq<SafeObservation>) {
    && |h.steps| <= |steps|
    && (forall i :: 0 <= i < |plans| && i < |h.planRows| ==>
          h.planRows[i].changeReason == plans[i].changeReason && h.planRows[i].stepCount == |plans[i].steps|)
    && forall i :: 0 <= i < |h.steps| ==>
         && h.steps[i].step == steps[i]
         && (h.steps[i].observation.Some? <==> i < |observations|)
         && (i < |observations| ==>
               var a, b := h.steps[i].observation.value, observations[i];
               a.status == b.status && a.reason == b.reason && a.documents == b.documents && a.chunks == b.chunks && a.citations == b.citations)
  }

  /** What the database takes of a snapshot that begins with `n` stored steps. */
  ghost predicate WithinBounds(h: History, plans: seq<Plan>, steps: seq<SafeStep>, observations: seq<SafeObservation>) {
    && |plans| <= 2 && |observations| <= |steps| <= 4
    && (forall i :: 0 <= i < |plans| ==> plans[i].version == i + 1)
    && (forall i :: |h.steps| <= i < |steps| ==>
          steps[i].tool in APPROVED_TOOLS && 1 <= steps[i].planVersion && (steps[i].planVersion <= |plans| || steps[i].planVersion <= |h.planRows|))
    && forall i, j :: 0 <= i < j < |steps| ==>
         steps[i].planVersion != steps[j].planVersion || steps[i].stepIndex != steps[j].stepIndex
  }

  /** The rows afterwards: the old ones, then one for every further plan, step and observation of the snapshot. */
  ghost predicate Stored(h: History, plans: seq<Plan>, steps: seq<SafeStep>, observations: seq<SafeObservation>, h': History) {
    && h.planRows <= h'.planRows && h.steps <= h'.steps
    && |h'.planRows| == (if |h.planRows| < |plans| then |plans| else |h.planRows|) && |h'.steps| == |steps|
    && h'.planCount == |plans|
    && (forall i :: |h.planRows| <= i < |plans| ==> h'.planRows[i] == PlanRow(plans[i].changeReason, |plans[i].steps|))
    && forall i :: |h.steps| <= i < |steps| ==>
         h'.steps[i] == StoredStep(steps[i], if i < |observations| then Some(observations[i]) else None)
  }

  lemma RepeatsExactly(h: History, plans: seq<Plan>, steps: seq<SafeStep>, observations: seq<SafeObservation>)
    ensures Repeats(h, plans, steps, observations) <==>
              |h.steps| <= |steps| && RowsAgree(h.planRows, plans) && StepsAgree(h.steps, steps, observations)
  {
    if |h.steps| <= |steps| {
      forall i | 0 <= i < |h.steps|
        ensures SameStep(h.steps[i], steps[i], ObservationAt(observations, i)) <==>
                  && h.steps[i].step == steps[i]
                  && (h.steps[i].observation.Some? <==> i < |observations|)
                  && (i < |observations| ==>
                        var a, b := h.steps[i].observation.value, observations[i];
                        a.status == b.status && a.reason == b.reason && a.documents == b.documents && a.chunks == b.chunks && a.citations == b.citations)
      {
      }
    }
  }

  /** A snapshot is stored if and only if it is authorized, within bounds and repeats what is stored; then it is all there. */
  lemma PersistExactly(h: History, plans: seq<Plan>, steps: seq<SafeStep>, observations: seq<SafeObservation>, authorized: bool)
    ensures var p := Persist(h, plans, steps, observations, authorized);
            && (p.Some? <==> authorized && WithinBounds(h, plans, steps, observations) && Repeats(h, plans, steps, observations))
            && (p.Some? ==> Stored(h, plans, steps, observations, p.value))
  {
    hide Acceptable, Repeats, WithinBounds, Stored, RowsAgree, StepsAgree;
    RepeatsExactly(h, plans, steps, observations);
    AcceptsExactly(h, plans, steps, observations);
    if Persist(h, plans, steps, observations, authorized).Some? {
      StoresExactly(h, plans, steps, observations);
    }
  }

  lemma AcceptsExactly(h: History, plans: seq<Plan>, steps: seq<SafeStep>, observations: seq<SafeObservation>)
    ensures Acceptable(h, plans, steps, observations) <==>
              && WithinBounds(h, plans, steps, observations) && |h.steps| <= |steps|
              && RowsAgree(h.planRows, plans) && StepsAgree(h.steps, steps, observations)
  {
    hide RowsAgree, StepsAgree;
  }

  lemma StoresExactly(h: History, plans: seq<Plan>, steps: seq<SafeStep>, observations: seq<SafeObservation>)
    requires |h.steps| <= |steps|
    ensures Stored(h, plans, steps, observations,
                   History(h.planRows + NewRows(plans, |h.planRows|), h.steps + NewSteps(steps, observations, |h.steps|), |plans|))
  {
  }

  /** Adds a row for every plan version that has none, checking the ones that do. */
  method MergePlans(stored: seq<PlanRow>, plans: seq<Plan>) returns (ok: bool, rows: seq<PlanRow>)
    ensures ok <==> RowsAgree(stored, plans)
    ensures ok ==> rows == stored + NewRows(plans, |stored|)
  {
    rows := stored;
    for i := 0 to |plans|
      invariant RowsAgree(stored, plans[..i])
      invariant rows == stored + NewRows(plans[..i], |stored|)
    {
      if i < |rows| {
        if rows[i] != RowOf(plans[i]) {
          assert !RowsAgree(stored, plans);
          return false, rows;
        }
      } else {
        rows := rows + [RowOf(plans[i])];
      }
    }
    assert plans[..|plans|] == plans;
    ok := true;
  }

  predicate StepsAgree(stored: seq<StoredStep>, steps: seq<SafeStep>, observations: seq<SafeObservation>)
    requires |stored| <= |steps|
  {
    forall i :: 0 <= i < |stored| ==> SameStep(stored[i], steps[i], ObservationAt(observations, i))
  }

  predicate Storable(steps: seq<SafeStep>, from: nat, versions: nat) {
    forall i :: from <= i < |steps| ==> steps[i].tool in APPROVED_TOOLS && 1 <= steps[i].planVersion <= versions
  }

  /** Compares the replayed part of a snapshot with the stored steps and appends the rest. */
  method MergeSteps(stored: seq<StoredStep>, snapshots: seq<SafeStep>, observations: seq<SafeObservation>, versions: nat)
    returns (ok: bool, steps: seq<StoredStep>)
    requires |stored| <= |snapshots|
    ensures ok <==> StepsAgree(stored, snapshots, observations) && Storable(snapshots, |stored|, versions)
    ensures ok ==> steps == stored + NewSteps(snapshots, observations, |stored|)
  {
    hide SameStep;
    steps := stored;
    for i := 0 to |stored|
      invariant forall j :: 0 <= j < i ==> SameStep(stored[j], snapshots[j], ObservationAt(observations, j))
    {
      if !SameStep(stored[i], snapshots[i], ObservationAt(observations, i)) {
        return false, steps;
      }
    }
    for i := |stored| to |snapshots|
      invariant steps == stored + NewSteps(snapshots[..i], observations, |stored|)
      invariant forall j :: |stored| <= j < i ==>
                  snapshots[j].tool in APPROVED_TOOLS && 1 <= snapshots[j].planVersion <= versions
    {
      if snapshots[i].tool !in APPROVED_TOOLS || snapshots[i].planVersion < 1 || snapshots[i].planVersion > versions {
        return false, steps;
      }
      steps := steps + [StoredStep(snapshots[i], ObservationAt(observations, i))];
    }
    assert snapshots[..|snapshots|] == snapshots;
    ok := true;
  }

  class HistoryRows {
    var planRows: seq<PlanRow>
    var steps: seq<StoredStep>
    var planCount: nat

    function Value(): History
      reads this
    {
      History(planRows, steps, planCount)
    }

    constructor ()
      ensures Value() == EMPTY_HISTORY
    {
      planRows, steps, planCount := [], [], 0;
    }

    /** Checks the whole snapshot against the stored rows, then adds what is missing; a failure changes nothing. */
    method PersistOutcome(plans: seq<Plan>, snapshots: seq<SafeStep>, observations: seq<SafeObservation>, authorized: bool)
      returns (ok: bool)
      modifies this
      ensures ok <==> Persist(old(Value()), plans, snapshots, observations, authorized).Some?
      ensures Value() == if ok then Persist(old(Value()), plans, snapshots, observations, authorized).value else old(Value())
    {
      hide StepsAgree, Storable, RowsAgree, UniquePositions, SameStep;
      if !InOrder(plans) || |snapshots| > MAX_STORED || |observations| > MAX_STORED {
        return false;
      }
      if |observations| > |snapshots| || |steps| > |snapshots| || !authorized || |plans| > 2 {
        return false;
      }
      var agree, rows := MergePlans(planRows, plans);
      if !agree {
        return false;
      }
      var merged, stored := MergeSteps(steps, snapshots, observations, |rows|);
      if !merged || !UniquePositions(snapshots) {
        return false;
      }
      planRows, steps, planCount := rows, stored, |plans|;
      return true;
    }
  }
}
