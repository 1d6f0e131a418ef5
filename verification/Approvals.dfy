/**
 The locked rows of one run: its status, its history and its approval requests, and the operations of the
 approval service on them. Each operation is one transaction.
 */
module Approvals {
  import opened Wrappers
  import opened AgentTypes
  import opened AgentLoop
  import opened RunHistory

  /** The six terminal statuses other than `CANCELLED` are the terminal statuses of the loop. */
  datatype RunStatus = Created | Running | AwaitingApproval | Ended(how: TerminalStatus) | Cancelled

  /** The run transition table. */
  predicate Allowed(from: RunStatus, to: RunStatus) {
    match from
    case Created => to in {Running, Cancelled, Ended(RunRefused), Ended(RunFailed)}
    case Running => to == AwaitingApproval || to == Cancelled || to.Ended?
    case AwaitingApproval => to in {Running, Cancelled, Ended(RunFailed)}
    case _ => false
  }

  datatype ApprovalStatus = PendingApproval | Rejected | Superseded | Expired | Withdrawn | Consumed

  datatype Approval = Approval(key: ActionKey, tool: string, planVersion: nat, proposed: nat, scope: string,
                               expires: int, status: ApprovalStatus)

  const APPROVAL_LIFETIME := 300

  datatype Row = Row(status: RunStatus, mode: ControlMode, history: History, approvals: seq<Approval>)

  /** Re-reads one excerpt under the current scope; nothing when it is no longer authorized. */
  type Fetch = (string, string) -> Option<Source>

  function FetchAll(o: SafeObservation, fetch: Fetch, from: nat): Option<seq<Evidence>>
    requires |o.documents| == |o.chunks| == |o.citations| && from <= |o.citations|
    decreases |o.citations| - from
  {
    if from == |o.citations| then Some([])
    else
      var source := fetch(o.documents[from], o.chunks[from]);
      if source.None? then None
      else
        var rest := FetchAll(o, fetch, from + 1);
        if rest.None? then None else Some([Evidence(o.citations[from], source.value)] + rest.value)
  }

  /** The observation that stands in for a stored step, if it can be rebuilt. */
  function Rebuild(stored: StoredStep, fetch: Fetch): Option<Recorded> {
    if stored.observation.None? then None
    else
      var o := stored.observation.value;
      if o.status != Success || IsCalculation(stored.step.tool) || o.retries > 1 then None
      else if !(|o.documents| == |o.chunks| == |o.citations|) then None
      else
        var evidence := FetchAll(o, fetch, 0);
        if evidence.None? then None
        else Some(Recorded(stored.step.key, Observation(Success, evidence.value, [], [], false, o.retries, o.reason)))
  }

  function Reconstruct(steps: seq<StoredStep>, fetch: Fetch): Option<seq<Recorded>> {
    if steps == [] then Some([])
    else
      var front := Reconstruct(steps[..|steps| - 1], fetch);
      var last := Rebuild(steps[|steps| - 1], fetch);
      if front.None? || last.None? then None else Some(front.value + [last.value])
  }

  /** The approval still belongs to the latest plan version and to the next step. */
  predicate BindingIsCurrent(row: Row, a: Approval) {
    && row.history.planRows != []
    && a.planVersion == |row.history.planRows|
    && row.history.planCount == |row.history.planRows|
    && a.proposed == |row.history.steps| + 1
    && a.tool in APPROVED_TOOLS
  }

  predicate Answerable(row: Row, id: nat) {
    id < |row.approvals| && row.approvals[id].status == PendingApproval && row.status == AwaitingApproval
  }

  function Resolve(row: Row, id: nat, verdict: ApprovalStatus, status: RunStatus): Row
    requires id < |row.approvals|
  {
    row.(approvals := row.approvals[id := row.approvals[id].(status := verdict)], status := status)
  }

  datatype Approved = Approved(row: Row, ticket: Option<Ticket>)

  /** Approve: every failed check ends the run; otherwise the approval is consumed and a resumption is due. */
  function Approve(row: Row, id: nat, now: int, scope: string, messageOk: bool, fetch: Fetch): Approved {
    if !Answerable(row, id) then Approved(row, None)
    else
      var a := row.approvals[id];
      if a.expires <= now then Approved(Resolve(row, id, Expired, Ended(RunFailed)), None)
      else if !BindingIsCurrent(row, a) || a.scope != scope || !messageOk
              || Reconstruct(row.history.steps, fetch).None? then
        Approved(Resolve(row, id, Withdrawn, Ended(RunFailed)), None)
      else
        Approved(Resolve(row, id, Consumed, Running),
                 Some(Ticket(row.mode, Some(a.key), Reconstruct(row.history.steps, fetch).value)))
  }

  function Reject(row: Row, id: nat): Row {
    if Answerable(row, id) then Resolve(row, id, Rejected, Cancelled) else row
  }

  /** The changed request starts a new run; this one is cancelled. */
  function Change(row: Row, id: nat): Row {
    if Answerable(row, id) then Resolve(row, id, Superseded, Cancelled) else row
  }

  function FirstOpen(approvals: seq<Approval>): (k: nat)
    ensures k <= |approvals|
    ensures k < |approvals| ==> approvals[k].status == PendingApproval
    ensures forall i :: 0 <= i < k ==> approvals[i].status != PendingApproval
  {
    if approvals == [] || approvals[0].status == PendingApproval then 0 else 1 + FirstOpen(approvals[1..])
  }

  function StopRun(row: Row): Row {
    if row.status != AwaitingApproval then row
    else
      var k := FirstOpen(row.approvals);
      if k < |row.approvals| then Resolve(row, k, Withdrawn, Cancelled) else row.(status := Cancelled)
  }

  /** A durable pause: checkpoint the history, add the approval request, await. */
  function PauseRow(row: Row, p: Pause, scope: string, authorized: bool, now: int): Option<Row> {
    var h := Persist(row.history, p.plans, p.safeSteps, p.safeObservations, authorized);
    if h.None? then None
    else
      var count := if h.value.planCount < |p.plans| then |p.plans| else h.value.planCount;
      Some(row.(status := AwaitingApproval, history := h.value.(planCount := count),
                approvals := row.approvals + [Approval(p.key, p.tool, p.planVersion, p.proposed, scope,
                                                       now + APPROVAL_LIFETIME, PendingApproval)]))
  }

  /** The final commit of a run that reached a terminal outcome. */
  function FinishRow(row: Row, o: Outcome, authorized: bool): Row {
    var h := Persist(row.history, o.plans, o.safeSteps, o.safeObservations, authorized);
    if h.None? then row.(status := Ended(RunFailed)) else row.(status := Ended(o.status), history := h.value)
  }

  function Joined(front: seq<Evidence>, rest: Option<seq<Evidence>>): Option<seq<Evidence>> {
    if rest.None? then None else Some(front + rest.value)
  }

  /** Fetches the excerpts of one stored observation in order, giving up at the first missing one. */
  method FetchEvidence(o: SafeObservation, fetch: Fetch) returns (evidence: Option<seq<Evidence>>)
    requires |o.documents| == |o.chunks| == |o.citations|
    ensures evidence == FetchAll(o, fetch, 0)
  {
    var items: seq<Evidence> := [];
    if FetchAll(o, fetch, 0).Some? {
      assert items + FetchAll(o, fetch, 0).value == FetchAll(o, fetch, 0).value;
    }
    for j := 0 to |o.citations|
      invariant FetchAll(o, fetch, 0) == Joined(items, FetchAll(o, fetch, j))
    {
      var source := fetch(o.documents[j], o.chunks[j]);
      if source.None? {
        return None;
      }
      var item := Evidence(o.citations[j], source.value);
      var rest := FetchAll(o, fetch, j + 1);
      if rest.Some? {
        assert items + ([item] + rest.value) == (items + [item]) + rest.value;
      }
      items := items + [item];
    }
    assert items + [] == items;
    evidence := Some(items);
  }

  /** Rebuilds the recorded observations one stored step at a time. */
  method ReconstructCompletedSteps(steps: seq<StoredStep>, fetch: Fetch) returns (recorded: Option<seq<Recorded>>)
    ensures recorded == Reconstruct(steps, fetch)
  {
    var done: seq<Recorded> := [];
    for i := 0 to |steps|
      invariant Reconstruct(steps[..i], fetch) == Some(done)
    {
      assert steps[..i + 1][..i] == steps[..i];
      var o := steps[i].observation;
      var evidence: Option<seq<Evidence>> := None;
      if o.Some? && o.value.status == Success && !IsCalculation(steps[i].step.tool) && o.value.retries <= 1
         && |o.value.documents| == |o.value.chunks| == |o.value.citations| {
        evidence := FetchEvidence(o.value, fetch);
      }
      if evidence.None? {
        FailureStays(steps, fetch, i + 1);
        return None;
      }
      var item := Recorded(steps[i].step.key, Observation(Success, evidence.value, [], [], false, o.value.retries, o.value.reason));
      assert Rebuild(steps[i], fetch) == Some(item);
      done := done + [item];
    }
    assert steps[..|steps|] == steps;
    recorded := Some(done);
  }

  lemma {:induction false} FailureStays(steps: seq<StoredStep>, fetch: Fetch, n: nat)
    requires n <= |steps| && Reconstruct(steps[..n], fetch).None?
    ensures Reconstruct(steps, fetch).None?
    decreases |steps| - n
  {
    hide Rebuild;
    if n == |steps| {
      assert steps[..n] == steps;
    } else {
      assert steps[..n + 1][..n] == steps[..n];
      FailureStays(steps, fetch, n + 1);
    }
  }

  class RunRow {
    var status: RunStatus
    const mode: ControlMode
    var history: History
    var approvals: seq<Approval>

    function Value(): Row
      reads this
    {
      Row(status, mode, history, approvals)
    }

    constructor (mode: ControlMode)
      ensures Value() == Row(Created, mode, EMPTY_HISTORY, [])
    {
      this.mode := mode;
      status, history, approvals := Created, EMPTY_HISTORY, [];
    }

    /** Moves the run along the table, or refuses. */
    method TransitionRun(target: RunStatus) returns (ok: bool)
      modifies this`status
      ensures ok <==> Allowed(old(status), target)
      ensures status == if ok then target else old(status)
    {
      ok := Allowed(status, target);
      if ok {
        status := target;
      }
    }

    method ApproveOnce(id: nat, now: int, scope: string, messageOk: bool, fetch: Fetch) returns (ticket: Option<Ticket>)
      modifies this
      ensures Approved(Value(), ticket) == Approve(old(Value()), id, now, scope, messageOk, fetch)
    {
      hide Reconstruct;
      ticket := None;
      if id >= |approvals| || approvals[id].status != PendingApproval || status != AwaitingApproval {
        return;
      }
      var a := approvals[id];
      var verdict := Withdrawn;
      if a.expires <= now {
        verdict := Expired;
      } else if BindingIsCurrent(Value(), a) && a.scope == scope && messageOk {
        var recorded := ReconstructCompletedSteps(history.steps, fetch);
        if recorded.Some? {
          verdict := Consumed;
          ticket := Some(Ticket(mode, Some(a.key), recorded.value));
        }
      }
      approvals := approvals[id := a.(status := verdict)];
      var moved := TransitionRun(if verdict == Consumed then Running else Ended(RunFailed));
    }

    method RejectApproval(id: nat)
      modifies this
      ensures Value() == Reject(old(Value()), id)
    {
      if id < |approvals| && approvals[id].status == PendingApproval && status == AwaitingApproval {
        approvals := approvals[id := approvals[id].(status := Rejected)];
        var moved := TransitionRun(Cancelled);
      }
    }

    method ChangeRequest(id: nat)
      modifies this
      ensures Value() == Change(old(Value()), id)
    {
      if id < |approvals| && approvals[id].status == PendingApproval && status == AwaitingApproval {
        approvals := approvals[id := approvals[id].(status := Superseded)];
        var moved := TransitionRun(Cancelled);
      }
    }

    method Stop()
      modifies this
      ensures Value() == StopRun(old(Value()))
    {
      if status != AwaitingApproval {
        return;
      }
      var k := 0;
      while k < |approvals| && approvals[k].status != PendingApproval
        invariant 0 <= k <= |approvals|
        invariant FirstOpen(approvals) == k + FirstOpen(approvals[k..])
      {
        assert approvals[k..][1..] == approvals[k + 1..];
        k := k + 1;
      }
      if k < |approvals| {
        approvals := approvals[k := approvals[k].(status := Withdrawn)];
      }
      var moved := TransitionRun(Cancelled);
    }

    /** Checkpoint, new approval request and transition; a rejected checkpoint changes nothing. */
    method Pause(p: Pause, scope: string, authorized: bool, now: int) returns (ok: bool)
      requires status == Running
      modifies this
      ensures ok <==> PauseRow(old(Value()), p, scope, authorized, now).Some?
      ensures Value() == if ok then PauseRow(old(Value()), p, scope, authorized, now).value else old(Value())
    {
      hide Persist;
      var h := Persist(history, p.plans, p.safeSteps, p.safeObservations, authorized);
      if h.None? {
        return false;
      }
      history := h.value;
      approvals := approvals + [Approval(p.key, p.tool, p.planVersion, p.proposed, scope, now + APPROVAL_LIFETIME, PendingApproval)];
      if history.planCount < |p.plans| {
        history := history.(planCount := |p.plans|);
      }
      var moved := TransitionRun(AwaitingApproval);
      return true;
    }

    method Finish(o: Outcome, authorized: bool)
      requires status == Running || (status == Created && o.status == RunRefused)
      modifies this
      ensures Value() == FinishRow(old(Value()), o, authorized)
    {
      hide Persist;
      var h := Persist(history, o.plans, o.safeSteps, o.safeObservations, authorized);
      if h.Some? {
        history := h.value;
      }
      var moved := TransitionRun(if h.Some? then Ended(o.status) else Ended(RunFailed));
    }
  }
}
