/**
 What every call on the store of preferences changes, row by row, and whose rows a call can change.
 */
module MemoryAnswers {
  import opened Wrappers
  import Rendering
  import opened Text
  import opened MemoryStore

  /** The words of a text, one space apart. */
  function Tidy(s: string): string {
    Rendering.Join(Words(s), ' ')
  }

  // ---------------------------------------------------------------- answering and deleting

  /** The row can be seen by a caller whose rights let him see it. */
  predicate Shown(rows: seq<Memory>, id: nat, allowed: bool, now: int) {
    allowed && id < |rows| && !rows[id].deleted && rows[id].status != Deleted && now < rows[id].expires
  }

  /** Confirming, dismissing and deleting change one row, of the caller, and nothing else. */
  lemma ResolvesExactly(rows: seq<Memory>, e: Event)
    ensures e.ConfirmCall? ==>
              Apply(rows, e) ==
                if Shown(rows, e.id, e.allowed, e.clock.now) && rows[e.id].owner == Some(e.user) && rows[e.id].status == PendingConfirmation
                then rows[e.id := rows[e.id].(status := Active, expires := e.clock.now + e.clock.lifetime)] else rows
    ensures e.DismissCall? ==>
              Apply(rows, e) ==
                if Shown(rows, e.id, e.allowed, e.clock.now) && rows[e.id].owner == Some(e.user) && rows[e.id].status == PendingConfirmation
                then rows[e.id := rows[e.id].(status := Deleted, deleted := true)] else rows
    ensures e.DeleteCall? ==>
              Apply(rows, e) ==
                if Shown(rows, e.id, e.allowed, e.clock.now) && rows[e.id].createdBy == e.user
                then rows[e.id := rows[e.id].(status := Deleted, deleted := true)] else rows
  {
    hide Collapse;
  }

  /** Rewriting a summary replaces the text of one active conversation summary of the caller, cut to a thousand characters. */
  lemma SummarizesExactly(rows: seq<Memory>, e: Event)
    requires e.Summarized?
    ensures var text := Tidy(e.summary);
            Apply(rows, e) ==
              if e.id < |rows| && rows[e.id].kind.ConversationSummary? && rows[e.id].status == Active
                 && rows[e.id].tenant == e.tenant && rows[e.id].owner == Some(e.user)
              then rows[e.id := rows[e.id].(content := if |text| <= 1000 then text else text[..1000],
                                            expires := e.clock.now + e.clock.lifetime)]
              else rows
  {
    hide Collapse, Words, Rendering.Join;
    CollapseKeepsWords(e.summary);
  }

  // ---------------------------------------------------------------- candidates

  /** A preference worth storing: new or changed, safely keyed, short and not sensitive. */
  predicate Storable(c: Candidate, sensitive: string -> bool) {
    && c.kind.Semantic? && (c.action.Add? || c.action.Supersede?) && c.lowSensitivity
    && 1 <= |c.key| <= 80 && 'a' <= c.key[0] <= 'z'
    && (forall i :: 0 <= i < |c.key| ==> 'a' <= c.key[i] <= 'z' || '0' <= c.key[i] <= '9' || c.key[i] == '_')
    && 1 <= |Tidy(c.content)| <= 500 && !sensitive(Tidy(c.content))
  }

  /** The row a candidate becomes: active if the user said it outright, waiting for confirmation if not. */
  function NewRow(who: Subject, c: Candidate, clock: Clock): Memory {
    Memory(who.tenant, who.company, Some(who.user), who.user, true, Semantic, Some(c.key), Tidy(c.content), clock.begun,
           if c.explicit then Active else PendingConfirmation, clock.now + clock.lifetime, false, None)
  }

  /** A current preference of the subject under the key, and none of them is newer. */
  ghost predicate Stands(rows: seq<Memory>, who: Subject, key: string, i: nat) {
    && i < |rows| && Current(rows[i], who, key)
    && forall j :: 0 <= j < |rows| && Current(rows[j], who, key) ==> rows[j].created <= rows[i].created
  }

  /**
   What a candidate does. What cannot be stored is ignored. What the standing row already says only extends its life, if said
   outright. Anything else is inserted, and supersedes the standing row, if there is one.
   */
  ghost predicate Considers(rows: seq<Memory>, who: Subject, c: Candidate, sensitive: string -> bool, clock: Clock, tie: nat,
                            after: seq<Memory>) {
    if !Storable(c, sensitive) then after == rows
    else if forall i :: 0 <= i < |rows| ==> !Current(rows[i], who, c.key) then after == rows + [NewRow(who, c, clock)]
    else
      exists e: nat ::
        && Stands(rows, who, c.key, e) && (Stands(rows, who, c.key, tie) ==> e == tie)
        && after ==
             if rows[e].content == Tidy(c.content) then
               if c.explicit then rows[e := rows[e].(expires := clock.now + clock.lifetime)] else rows
             else rows[e := rows[e].(status := Superseded, supersededBy := Some(|rows|))] + [NewRow(who, c, clock)]
  }

  lemma ConsidersExactly(rows: seq<Memory>, who: Subject, c: Candidate, sensitive: string -> bool, clock: Clock, tie: nat)
    ensures Considers(rows, who, c, sensitive, clock, tie, Consider(rows, who, c, sensitive, clock, tie))
  {
    hide Collapse, Words, Rendering.Join, Current;
    CollapseKeepsWords(c.content);
    assert Storable(c, sensitive) <==> Admissible(c, sensitive);
    if Storable(c, sensitive) {
      var existing := Existing(rows, who, c.key, tie);
      assert NewRow(who, c, clock) == Preference(who, c, clock);
      if existing.Some? {
        assert Stands(rows, who, c.key, existing.value);
      }
    }
  }

  lemma {:induction false} BatchOfPrefix(rows: seq<Memory>, who: Subject, cs: seq<Candidate>, sensitive: string -> bool,
                                         clock: Clock, ties: nat -> nat, m: nat, n: nat)
    requires n <= m <= |cs|
    ensures Batch(rows, who, cs[..m], sensitive, clock, ties, n) == Batch(rows, who, cs, sensitive, clock, ties, n)
  {
    hide Consider;
    if n > 0 {
      BatchOfPrefix(rows, who, cs, sensitive, clock, ties, m, n - 1);
    }
  }

  /** A batch is considered candidate by candidate, each against the rows the ones before it left; after three it ends. */
  lemma {:induction false} ExtractsExactly(rows: seq<Memory>, who: Subject, cs: seq<Candidate>, sensitive: string -> bool,
                                           ties: nat -> nat, clock: Clock)
    ensures var after := Apply(rows, Extracted(who, cs, sensitive, ties, clock));
            if cs == [] then after == rows
            else if |cs| > 3 then after == Apply(rows, Extracted(who, cs[..3], sensitive, ties, clock))
            else
              var n := |cs| - 1;
              Considers(Apply(rows, Extracted(who, cs[..n], sensitive, ties, clock)), who, cs[n], sensitive, clock, ties(n), after)
  {
    hide Consider, Considers;
    if |cs| > 3 {
      BatchOfPrefix(rows, who, cs, sensitive, clock, ties, 3, 3);
    } else if cs != [] {
      var n := |cs| - 1;
      BatchOfPrefix(rows, who, cs, sensitive, clock, ties, n, n);
      ConsidersExactly(Batch(rows, who, cs, sensitive, clock, ties, n), who, cs[n], sensitive, clock, ties(n));
    }
  }

  // ---------------------------------------------------------------- whose rows change

  /** The call may change this row: it is the caller's own. */
  predicate Owned(m: Memory, e: Event) {
    match e
    case Extracted(who, _, _, _, _) => m.tenant == who.tenant && m.company == who.company && m.owner == Some(who.user)
    case ConfirmCall(user, id, _, _) => m.owner == Some(user)
    case DismissCall(user, id, _, _) => m.owner == Some(user)
    case DeleteCall(user, id, _, _) => m.createdBy == user
    case Saved(_) => false
    case Summarized(tenant, user, id, _, _) => m.tenant == tenant && m.owner == Some(user)
  }

  lemma {:induction false} BatchChangesOwn(rows: seq<Memory>, who: Subject, cs: seq<Candidate>, sensitive: string -> bool,
                                           clock: Clock, ties: nat -> nat, n: nat, i: nat)
    requires n <= |cs| && i < |rows|
    ensures var after := Batch(rows, who, cs, sensitive, clock, ties, n);
            && |rows| <= |after|
            && (after[i] != rows[i] ==> rows[i].tenant == who.tenant && rows[i].company == who.company && rows[i].owner == Some(who.user))
            && after[i].(status := rows[i].status, expires := rows[i].expires, supersededBy := rows[i].supersededBy) == rows[i]
  {
    hide Admissible, Collapse, Existing;
    if n > 0 {
      BatchChangesOwn(rows, who, cs, sensitive, clock, ties, n - 1, i);
    }
  }

  /** Over every history: a call changes only rows of the caller, and appends or keeps all others. */
  lemma {:induction false} ChangesOwnRows(events: seq<Event>, e: Event, i: nat)
    requires i < |Play(events)|
    ensures var rows, after := Play(events), Play(events + [e]);
            i < |after| && (after[i] != rows[i] ==> Owned(rows[i], e))
  {
    hide Play, Collapse, Batch;
    PlayedOn(events, e);
    if e.Extracted? {
      BatchChangesOwn(Play(events), e.who, e.cs, e.sensitive, e.clock, e.ties, Considered(e.cs), i);
    }
  }

  lemma {:induction false} PlayedOn(events: seq<Event>, e: Event)
    ensures Play(events + [e]) == Apply(Play(events), e)
  {
    assert (events + [e])[..|events|] == events;
  }
}
