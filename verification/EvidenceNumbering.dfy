/**
 Evidence identifiers across a run and its resumptions: they are `ev_1 .. ev_N` in observation order.
 */
module EvidenceNumbering {
  import opened AgentTypes
  import opened Gateway
  import opened GroundedAnswer
  import opened AgentLoop
  import opened LoopSafety
  import opened PassSafety

  function UpTo(n: nat): (r: seq<nat>)
    ensures |r| == n && forall i :: 0 <= i < n ==> r[i] == i + 1
  {
    seq(n, i => i + 1)
  }

  function IdSeq(evidence: seq<Evidence>): (r: seq<nat>)
    ensures |r| == |evidence| && forall i :: 0 <= i < |r| ==> r[i] == evidence[i].id
  {
    seq(|evidence|, i requires 0 <= i < |evidence| => evidence[i].id)
  }

  /** All identifiers of a history, in observation order. */
  function Citations(observations: seq<SafeObservation>): seq<nat> {
    if observations == [] then []
    else Citations(observations[..|observations| - 1]) + observations[|observations| - 1].citations
  }

  function RecordedIds(recorded: seq<Recorded>): seq<nat> {
    if recorded == [] then [] else IdSeq(recorded[0].observation.evidence) + RecordedIds(recorded[1..])
  }

  /** The identifiers are one, two, three and so on, without a gap or a repetition. */
  ghost predicate Contiguous(observations: seq<SafeObservation>) {
    Citations(observations) == UpTo(|Citations(observations)|)
  }

  /** History, remaining records and the adapter's counter fit together. */
  ghost predicate Aligned(ticket: Ticket, c: Core, cursor: Cursor)
    requires cursor.replayed <= |ticket.recorded|
  {
    && Citations(c.safeObservations) + RecordedIds(ticket.recorded[cursor.replayed..]) == UpTo(cursor.numbering)
    && IdSeq(c.evidence) == Citations(c.safeObservations)
  }

  lemma PrefixOfUpTo(a: seq<nat>, b: seq<nat>, n: nat)
    requires a + b == UpTo(n)
    ensures a == UpTo(|a|) && n == |a| + |b|
  {
    assert forall i :: 0 <= i < |a| ==> a[i] == (a + b)[i];
  }

  lemma {:induction false} StoreAllFresh(evidence: seq<Evidence>, items: seq<Evidence>)
    requires DistinctIds(evidence + items)
    ensures StoreAll(evidence, items) == evidence + items
    decreases |items|
  {
    if items == [] {
      assert evidence + items == evidence;
    } else {
      var all := evidence + items;
      assert forall i :: 0 <= i < |evidence| ==> all[i] == evidence[i];
      assert all[|evidence|] == items[0];
      var k := StoreShape(evidence, items[0]);
      assert k == |evidence|;
      assert evidence + [items[0]] + items[1..] == all;
      StoreAllFresh(evidence + [items[0]], items[1..]);
    }
  }

  lemma {:induction false} CitationsAppend(observations: seq<SafeObservation>, o: SafeObservation)
    ensures Citations(observations + [o]) == Citations(observations) + o.citations
  {
    assert (observations + [o])[..|observations|] == observations;
  }

  lemma SnapshotIds(o: Observation)
    ensures Snapshot(o).citations == IdSeq(o.evidence)
  {
  }

  /** Absorbing evidence whose identifiers continue the sequence keeps everything aligned. */
  lemma AppendAligned(c: Core, o: Observation, rest: seq<nat>, n: nat)
    requires IdSeq(c.evidence) == Citations(c.safeObservations)
    requires Citations(c.safeObservations) + IdSeq(o.evidence) + rest == UpTo(n)
    ensures Citations(c.safeObservations + [Snapshot(o)]) == Citations(c.safeObservations) + IdSeq(o.evidence)
    ensures IdSeq(StoreAll(c.evidence, o.evidence)) == Citations(c.safeObservations + [Snapshot(o)])
    ensures Contiguous(c.safeObservations + [Snapshot(o)])
  {
    CitationsAppend(c.safeObservations, Snapshot(o));
    SnapshotIds(o);
    var all := c.evidence + o.evidence;
    PrefixOfUpTo(Citations(c.safeObservations) + IdSeq(o.evidence), rest, n);
    assert IdSeq(all) == Citations(c.safeObservations) + IdSeq(o.evidence);
    assert forall i :: 0 <= i < |all| ==> all[i].id == IdSeq(all)[i];
    StoreAllFresh(c.evidence, o.evidence);
  }

  lemma NumberIds(result: ToolResult, from: nat)
    ensures UpTo(from) + IdSeq(Observe(result, from).evidence) == UpTo(from + |Observe(result, from).evidence|)
  {
  }

  lemma RecordedIdsHead(recorded: seq<Recorded>, i: nat)
    requires i < |recorded|
    ensures RecordedIds(recorded[i..]) == IdSeq(recorded[i].observation.evidence) + RecordedIds(recorded[i + 1..])
  {
    assert recorded[i..][1..] == recorded[i + 1..];
  }

  /** The history a pass would hand over for persistence. */
  function HistoryOf(ending: Ending): seq<SafeObservation>
    requires ending.Terminal? || ending.Paused?
  {
    if ending.Terminal? then ending.outcome.safeObservations else ending.pause.safeObservations
  }

  lemma AbsorbAligned(limits: Limits, env: Env, c: Core, tool: string, step: Step, o: Observation, rest: seq<nat>, n: nat)
    requires Due(limits, env, c, tool, step)
    requires IdSeq(c.evidence) == Citations(c.safeObservations)
    requires Citations(c.safeObservations) + IdSeq(o.evidence) + rest == UpTo(n)
    ensures var a := Absorb(limits, env, c, tool, step, o);
            && (a.Halted? ==> Contiguous(a.outcome.safeObservations))
            && (a.Continue? ==>
                  && Citations(a.core.safeObservations) + rest == UpTo(n)
                  && IdSeq(a.core.evidence) == Citations(a.core.safeObservations))
  {
    hide Due, Persistable, Sane, Absorb, Citations, Contiguous, IdSeq, StoreAll, Snapshot;
    AbsorbSane(limits, env, c, tool, step, o);
    AppendAligned(c, o, rest, n);
  }

  lemma TurnAligned(limits: Limits, env: Env, ticket: Ticket, c: Core, cursor: Cursor)
    requires Sane(limits, c) && env.permitted <= APPROVED_TOOLS && cursor.replayed <= |ticket.recorded|
    requires Aligned(ticket, c, cursor)
    ensures var t := Turn(limits, env, ticket, c, cursor);
            && (t.Ends? && (t.ending.Terminal? || t.ending.Paused?) ==> Contiguous(HistoryOf(t.ending)))
            && (t.Goes? && t.cursor.replayed <= |ticket.recorded| ==> Aligned(ticket, t.core, t.cursor))
  {
    hide Persistable, Resting, Absorb, Observe, MustPause, FinalizeAnswer, Citations, IdSeq, UpTo;
    var recorded := ticket.recorded;
    var gate := Gate(limits, env, c);
    PrefixOfUpTo(Citations(c.safeObservations), RecordedIds(recorded[cursor.replayed..]), cursor.numbering);
    GateKeepsSteps(limits, env, c);
    if gate.Act? {
      if cursor.replayed < |recorded| {
        RecordedIdsHead(recorded, cursor.replayed);
        var rest := RecordedIds(recorded[cursor.replayed + 1..]);
        var o := recorded[cursor.replayed].observation;
        assert Citations(c.safeObservations) + IdSeq(o.evidence) + rest
            == Citations(c.safeObservations) + RecordedIds(recorded[cursor.replayed..]);
        AbsorbAligned(limits, env, c, gate.tool, gate.step, o, rest, cursor.numbering);
      } else if env.tool(c.decision.next).Answered? {
        var result := env.tool(c.decision.next).result;
        var o := Observe(result, cursor.numbering);
        assert Citations(c.safeObservations) == UpTo(cursor.numbering);
        NumberIds(result, cursor.numbering);
        assert Citations(c.safeObservations) + IdSeq(o.evidence) + [] == UpTo(cursor.numbering + |o.evidence|);
        AbsorbAligned(limits, env, c, gate.tool, gate.step, o, [], cursor.numbering + |o.evidence|);
        assert RecordedIds(recorded[cursor.replayed..]) == [];
      }
    }
  }

  lemma {:induction false} RunFromContiguous(limits: Limits, env: Env, ticket: Ticket, c: Core, cursor: Cursor)
    requires Sane(limits, c) && env.permitted <= APPROVED_TOOLS && cursor.replayed <= |ticket.recorded|
    requires Aligned(ticket, c, cursor)
    ensures var ending := RunFrom(limits, env, ticket, c, cursor).ending;
            ending.Terminal? || ending.Paused? ==> Contiguous(HistoryOf(ending))
    decreases limits.maxSteps - c.steps
  {
    hide Resting, Turn, Aligned, Contiguous;
    TurnSane(limits, env, ticket, c, cursor);
    TurnSteps(limits, env, ticket, c, cursor);
    TurnAligned(limits, env, ticket, c, cursor);
    var t := Turn(limits, env, ticket, c, cursor);
    if t.Goes? {
      RunFromContiguous(limits, env, ticket, t.core, t.cursor);
    }
  }

  lemma {:induction false} EvidenceCountIsIds(recorded: seq<Recorded>)
    ensures |RecordedIds(recorded)| == EvidenceCount(recorded)
  {
    if recorded != [] {
      EvidenceCountIsIds(recorded[1..]);
    }
  }

  /**
   If the recorded evidence is numbered without gaps, so is the evidence of the whole resumed history. A first
   pass has no records, so every history a run hands over is numbered `1 .. N` in observation order.
   */
  lemma PassContiguous(limits: Limits, env: Env, ticket: Ticket)
    requires env.permitted <= APPROVED_TOOLS
    requires RecordedIds(ticket.recorded) == UpTo(EvidenceCount(ticket.recorded))
    ensures var ending := RunPass(limits, env, ticket).ending;
            ending.Terminal? || ending.Paused? ==> Contiguous(HistoryOf(ending))
  {
    hide Persistable, Resting, RunFrom;
    OpenSane(limits, env);
    if Open(env).Opened? && EvidenceCount(ticket.recorded) <= MAX_EVIDENCE_SEQUENCE {
      assert ticket.recorded[0..] == ticket.recorded;
      assert Citations([]) + RecordedIds(ticket.recorded) == RecordedIds(ticket.recorded);
      RunFromContiguous(limits, env, ticket, Open(env).core, StartCursor(ticket));
    } else {
      assert Citations([]) == UpTo(0);
    }
  }

  lemma {:induction false} CitationsBounded(observations: seq<SafeObservation>)
    requires forall i :: 0 <= i < |observations| ==> Small(observations[i])
    ensures |Citations(observations)| <= MAX_OBSERVED_EVIDENCE * |observations|
  {
    if observations != [] {
      CitationsBounded(observations[..|observations| - 1]);
    }
  }
}
