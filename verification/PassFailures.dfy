/**
 The two ways a pass of a run breaks: an observation with more evidence than a record holds, and an exception of a
 provider that the loop does not expect.
 */
module PassFailures {
  import opened Wrappers
  import opened AgentTypes
  import opened Gateway
  import opened PlanState
  import opened AgentLoop
  import opened LoopSafety
  import opened PassSafety
  import opened Protocol

  datatype Spot = Spot(core: Core, cursor: Cursor)

  /** Where a pass is after `k` more iterations, if it gets that far. */
  function Onward(limits: Limits, env: Env, ticket: Ticket, s: Spot, k: nat): Option<Spot>
    decreases k
  {
    if k == 0 then Some(s)
    else
      var t := Turn(limits, env, ticket, s.core, s.cursor);
      if t.Goes? then Onward(limits, env, ticket, Spot(t.core, t.cursor), k - 1) else None
  }

  /** The observation an iteration comes to: the recorded one, or the answer to the call it makes. */
  function Arriving(limits: Limits, env: Env, ticket: Ticket, s: Spot): Option<Observation> {
    match Gate(limits, env, s.core)
    case Halt(_) => None
    case Broke => None
    case Act(tool, _) =>
      var key := s.core.decision.next.Key();
      if s.cursor.replayed < |ticket.recorded| then
        if ticket.recorded[s.cursor.replayed].key == key then Some(ticket.recorded[s.cursor.replayed].observation) else None
      else if s.cursor.approved.Some? && s.cursor.approved != Some(key) then None
      else if MustPause(ticket.mode, tool, key, s.cursor.approved) then None
      else
        match env.tool(s.core.decision.next)
        case Answered(result) => Some(Observe(result, s.cursor.numbering))
        case _ => None
  }

  predicate Oversized(o: Option<Observation>) {
    o.Some? && |o.value.evidence| > MAX_OBSERVED_EVIDENCE
  }

  /** A provider raises something unexpected, drafting the answer or asked about the observation that arrives. */
  predicate Upset(limits: Limits, env: Env, ticket: Ticket, s: Spot) {
    match Gate(limits, env, s.core)
    case Halt(_) => false
    case Broke => true
    case Act(tool, step) =>
      var o := Arriving(limits, env, ticket, s);
      o.Some? && UpsetBy(limits, env, s.core, tool, step, o.value)
  }

  predicate TroubleAt(limits: Limits, env: Env, ticket: Ticket, s: Option<Spot>) {
    s.Some? && (Oversized(Arriving(limits, env, ticket, s.value)) || Upset(limits, env, ticket, s.value))
  }

  /** The pass comes to an observation of more than eight items or to a provider's unexpected exception. */
  ghost predicate MeetsTrouble(limits: Limits, env: Env, ticket: Ticket, s: Spot) {
    exists k: nat :: TroubleAt(limits, env, ticket, Onward(limits, env, ticket, s, k))
  }

  lemma TurnBreaksExactly(limits: Limits, env: Env, ticket: Ticket, s: Spot)
    requires Sane(limits, s.core) && env.permitted <= APPROVED_TOOLS && s.cursor.replayed <= |ticket.recorded|
    ensures var t := Turn(limits, env, ticket, s.core, s.cursor);
            (t.Ends? && t.ending.Crash?) <==> TroubleAt(limits, env, ticket, Some(s))
  {
    hide Persistable, Resting, Absorb, Observe, Validate, FinalizeAnswer, FailedCall, Vet, MustPause, UpsetBy;
    var gate, o := Gate(limits, env, s.core), Arriving(limits, env, ticket, s);
    if o.Some? {
      AbsorbSane(limits, env, s.core, gate.tool, gate.step, o.value);
    }
  }

  /** From any sane point, a pass breaks if and only if it comes to such trouble. */
  lemma {:induction false} BreaksExactly(limits: Limits, env: Env, ticket: Ticket, s: Spot)
    requires Sane(limits, s.core) && env.permitted <= APPROVED_TOOLS && s.cursor.replayed <= |ticket.recorded|
    ensures RunFrom(limits, env, ticket, s.core, s.cursor).ending.Crash? <==> MeetsTrouble(limits, env, ticket, s)
    decreases limits.maxSteps - s.core.steps
  {
    hide Resting, Persistable, CleanPause, Turn, TroubleAt;
    TurnSteps(limits, env, ticket, s.core, s.cursor);
    TurnSane(limits, env, ticket, s.core, s.cursor);
    TurnBreaksExactly(limits, env, ticket, s);
    NoTroubleNowhere(limits, env, ticket);
    var t := Turn(limits, env, ticket, s.core, s.cursor);
    assert Onward(limits, env, ticket, s, 0) == Some(s);
    if t.Goes? {
      var next := Spot(t.core, t.cursor);
      BreaksExactly(limits, env, ticket, next);
      MeetsNext(limits, env, ticket, s, next);
    } else if MeetsTrouble(limits, env, ticket, s) {
      var k: nat :| TroubleAt(limits, env, ticket, Onward(limits, env, ticket, s, k));
      assert k == 0;
    }
  }

  lemma NoTroubleNowhere(limits: Limits, env: Env, ticket: Ticket)
    ensures !TroubleAt(limits, env, ticket, None)
  {
  }

  lemma MeetsNext(limits: Limits, env: Env, ticket: Ticket, s: Spot, next: Spot)
    requires var t := Turn(limits, env, ticket, s.core, s.cursor); t.Goes? && next == Spot(t.core, t.cursor)
    requires !TroubleAt(limits, env, ticket, Some(s))
    ensures MeetsTrouble(limits, env, ticket, s) <==> MeetsTrouble(limits, env, ticket, next)
  {
    hide Turn, TroubleAt;
    if MeetsTrouble(limits, env, ticket, s) {
      var k: nat :| TroubleAt(limits, env, ticket, Onward(limits, env, ticket, s, k));
      assert Onward(limits, env, ticket, next, k - 1) == Onward(limits, env, ticket, s, k);
    }
    if MeetsTrouble(limits, env, ticket, next) {
      var k: nat :| TroubleAt(limits, env, ticket, Onward(limits, env, ticket, next, k));
      assert Onward(limits, env, ticket, s, k + 1) == Onward(limits, env, ticket, next, k);
    }
  }

  /** The pass in flight of a reachable run breaks if and only if its query or a later point of it meets such trouble. */
  lemma FlightBreaksExactly(limits: Limits, run: Run, env: Env)
    requires Inv(limits, run) && run.flight.Some? && env.permitted <= APPROVED_TOOLS
    ensures var ticket := run.flight.value.ticket;
            RunPass(limits, env, ticket).ending.Crash? <==>
              || Open(env).Unopened?
              || (Open(env).Opened? && MeetsTrouble(limits, env, ticket, Spot(Open(env).core, StartCursor(ticket))))
  {
    hide Resting, RunFrom, MeetsTrouble, Granted, SoundHistory, ExactlyOnce, Climbing, OnePending, Rebuildable;
    OpenSane(limits, env);
    if Open(env).Opened? {
      BreaksExactly(limits, env, run.flight.value.ticket, Spot(Open(env).core, StartCursor(run.flight.value.ticket)));
    }
  }
}
