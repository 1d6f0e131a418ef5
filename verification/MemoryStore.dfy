/**
 The store of remembered preferences: candidate batches insert and supersede rows, owners confirm, dismiss and delete
 them. Rows are named by their place in the order of insertion, and content hashes by the content (hashing is taken to
 be injective).
 */
module MemoryStore {
  import opened Wrappers
  import opened Text

  datatype Status = PendingConfirmation | Active | Superseded | Deleted

  datatype Kind = Semantic | Episodic | ConversationSummary

  /** Whose memory it is. */
  datatype Subject = Subject(tenant: nat, company: nat, user: nat)

  datatype Memory = Memory(
    tenant: nat, company: nat, owner: Option<nat>, createdBy: nat, privateScope: bool, kind: Kind, key: Option<string>,
    content: string, created: int, status: Status, expires: int, deleted: bool, supersededBy: Option<nat>)

  datatype Action = Add | Noop | Supersede | Expire | Delete

  datatype Candidate = Candidate(
    kind: Kind, action: Action, content: string, key: string, lowSensitivity: bool, explicit: bool)

  /** The clock of the process, the time the transaction began, and the configured lifetime of a preference. */
  datatype Clock = Clock(now: int, begun: int, lifetime: int)

  const MAX_CANDIDATES: nat := 3
  const MAX_AUTOMATIC_CONTENT: nat := 500

  predicate SafeKey(key: string) {
    && 1 <= |key| <= 80 && 'a' <= key[0] <= 'z'
    && forall i :: 0 <= i < |key| ==> 'a' <= key[i] <= 'z' || '0' <= key[i] <= '9' || key[i] == '_'
  }

  /** Whether a candidate is considered at all; `sensitive` recognises protected subjects in its content. */
  predicate Admissible(c: Candidate, sensitive: string -> bool) {
    && c.kind == Semantic
    && (c.action == Add || c.action == Supersede)
    && SafeKey(c.key)
    && 1 <= |Collapse(c.content)| <= MAX_AUTOMATIC_CONTENT
    && c.lowSensitivity
    && !sensitive(Collapse(c.content))
  }

  /** A private preference of the subject under the key. */
  predicate Concerns(m: Memory, who: Subject, key: string) {
    && m.tenant == who.tenant && m.company == who.company && m.owner == Some(who.user)
    && m.privateScope && m.kind == Semantic && m.key == Some(key)
  }

  predicate Current(m: Memory, who: Subject, key: string) {
    Concerns(m, who, key) && m.status == Active && !m.deleted
  }

  predicate IsNewest(rows: seq<Memory>, who: Subject, key: string, i: nat) {
    && i < |rows| && Current(rows[i], who, key)
    && forall j :: 0 <= j < |rows| && Current(rows[j], who, key) ==> rows[j].created <= rows[i].created
  }

  /** A current row created last, the earliest inserted of them. */
  function Newest(rows: seq<Memory>, who: Subject, key: string): (r: Option<nat>)
    ensures r.Some? ==> IsNewest(rows, who, key, r.value)
    ensures r.None? ==> forall i :: 0 <= i < |rows| ==> !Current(rows[i], who, key)
  {
    if rows == [] then None
    else
      var n := |rows| - 1;
      var front := Newest(rows[..n], who, key);
      if Current(rows[n], who, key) && (front.None? || rows[front.value].created < rows[n].created) then Some(n)
      else front
  }

  /**
   The row a candidate is compared with. Rows of one transaction share their creation time, so the order among them is
   the database's: it prefers the row `tie` if that is among the newest.
   */
  function Existing(rows: seq<Memory>, who: Subject, key: string, tie: nat): (r: Option<nat>)
    ensures r.Some? ==> IsNewest(rows, who, key, r.value)
    ensures r.None? ==> forall i :: 0 <= i < |rows| ==> !Current(rows[i], who, key)
  {
    var first := Newest(rows, who, key);
    if first.Some? && tie < |rows| && Current(rows[tie], who, key) && rows[tie].created == rows[first.value].created
    then Some(tie) else first
  }

  function Preference(who: Subject, c: Candidate, clock: Clock): Memory {
    Memory(who.tenant, who.company, Some(who.user), who.user, true, Semantic, Some(c.key), Collapse(c.content),
           clock.begun, if c.explicit then Active else PendingConfirmation, clock.now + clock.lifetime, false, None)
  }

  function Accept(rows: seq<Memory>, who: Subject, c: Candidate, clock: Clock, tie: nat): seq<Memory> {
    var existing := Existing(rows, who, c.key, tie);
    if existing.Some? && rows[existing.value].content == Collapse(c.content) then
      if c.explicit
      then rows[existing.value := rows[existing.value].(expires := clock.now + clock.lifetime)]
      else rows
    else if existing.Some? then
      rows[existing.value := rows[existing.value].(status := Superseded, supersededBy := Some(|rows|))] +
      [Preference(who, c, clock)]
    else rows + [Preference(who, c, clock)]
  }

  function Consider(rows: seq<Memory>, who: Subject, c: Candidate, sensitive: string -> bool, clock: Clock, tie: nat): seq<Memory> {
    if Admissible(c, sensitive) then Accept(rows, who, c, clock, tie) else rows
  }

  /** The first `n` candidates of a batch. */
  function Batch(rows: seq<Memory>, who: Subject, cs: seq<Candidate>, sensitive: string -> bool, clock: Clock,
                 ties: nat -> nat, n: nat): seq<Memory>
    requires n <= |cs|
  {
    if n == 0 then rows
    else Consider(Batch(rows, who, cs, sensitive, clock, ties, n - 1), who, cs[n - 1], sensitive, clock, ties(n - 1))
  }

  function Considered(cs: seq<Candidate>): (n: nat)
    ensures n <= |cs|
  {
    if |cs| < MAX_CANDIDATES then |cs| else MAX_CANDIDATES
  }

  /** What the visibility filter lets through, apart from the rights of the caller (`allowed`). */
  predicate Visible(rows: seq<Memory>, id: nat, allowed: bool, now: int) {
    allowed && id < |rows| && !rows[id].deleted && rows[id].expires > now && rows[id].status != Deleted
  }

  predicate MayResolve(rows: seq<Memory>, user: nat, id: nat, allowed: bool, now: int) {
    Visible(rows, id, allowed, now) && rows[id].owner == Some(user) && rows[id].status == PendingConfirmation
  }

  predicate MayDelete(rows: seq<Memory>, user: nat, id: nat, allowed: bool, now: int) {
    Visible(rows, id, allowed, now) && rows[id].createdBy == user
  }

  function Confirmed(rows: seq<Memory>, id: nat, clock: Clock): seq<Memory>
    requires id < |rows|
  {
    rows[id := rows[id].(status := Active, expires := clock.now + clock.lifetime)]
  }

  function Removed(rows: seq<Memory>, id: nat): seq<Memory>
    requires id < |rows|
  {
    rows[id := rows[id].(status := Deleted, deleted := true)]
  }

  lemma TwoUpdates(rows: seq<Memory>, e: nat, row: Memory)
    requires e < |rows|
    ensures (rows + [row])[e := rows[e].(status := Superseded)]
                          [e := rows[e].(status := Superseded, supersededBy := Some(|rows|))] ==
            rows[e := rows[e].(status := Superseded, supersededBy := Some(|rows|))] + [row]
  {
  }

  /** The table behind the service. A refused call (404) changes nothing. */
  class MemoryTable {
    var rows: seq<Memory>

    method ApplySemanticCandidates(who: Subject, cs: seq<Candidate>, sensitive: string -> bool, clock: Clock, ties: nat -> nat)
      modifies this
      ensures rows == Batch(old(rows), who, cs, sensitive, clock, ties, Considered(cs))
    {
      hide Collapse, Existing, Current, Admissible, Preference;
      for i := 0 to Considered(cs)
        invariant rows == Batch(old(rows), who, cs, sensitive, clock, ties, i)
      {
        var c := cs[i];
        if !Admissible(c, sensitive) {
          continue;
        }
        var content := Collapse(c.content);
        var existing := Existing(rows, who, c.key, ties(i));
        if existing.Some? && rows[existing.value].content == content {
          if c.explicit {
            rows := rows[existing.value := rows[existing.value].(expires := clock.now + clock.lifetime)];
          }
          continue;
        }
        var id := |rows|;
        ghost var before := rows;
        rows := rows + [Preference(who, c, clock)];
        if existing.Some? {
          var e := existing.value;
          TwoUpdates(before, e, rows[id]);
          rows := rows[e := rows[e].(status := Superseded)];
          rows := rows[e := rows[e].(supersededBy := Some(id))];
        }
      }
    }

    method Confirm(user: nat, id: nat, allowed: bool, clock: Clock) returns (found: bool)
      modifies this
      ensures found == MayResolve(old(rows), user, id, allowed, clock.now)
      ensures rows == if found then Confirmed(old(rows), id, clock) else old(rows)
    {
      found := MayResolve(rows, user, id, allowed, clock.now);
      if found {
        rows := rows[id := rows[id].(status := Active)];
        rows := rows[id := rows[id].(expires := clock.now + clock.lifetime)];
      }
    }

    method Dismiss(user: nat, id: nat, allowed: bool, clock: Clock) returns (found: bool)
      modifies this
      ensures found == MayResolve(old(rows), user, id, allowed, clock.now)
      ensures rows == if found then Removed(old(rows), id) else old(rows)
    {
      found := MayResolve(rows, user, id, allowed, clock.now);
      if found {
        rows := rows[id := rows[id].(status := Deleted)];
        rows := rows[id := rows[id].(deleted := true)];
      }
    }

    method Delete(user: nat, id: nat, allowed: bool, clock: Clock) returns (found: bool)
      modifies this
      ensures found == MayDelete(old(rows), user, id, allowed, clock.now)
      ensures rows == if found then Removed(old(rows), id) else old(rows)
    {
      found := MayDelete(rows, user, id, allowed, clock.now);
      if found {
        rows := rows[id := rows[id].(status := Deleted)];
        rows := rows[id := rows[id].(deleted := true)];
      }
    }
  }

  // ---------------------------------------------------------------- whole histories

  datatype Event =
    | Extracted(who: Subject, cs: seq<Candidate>, sensitive: string -> bool, ties: nat -> nat, clock: Clock)
    | ConfirmCall(user: nat, id: nat, allowed: bool, clock: Clock)
    | DismissCall(user: nat, id: nat, allowed: bool, clock: Clock)
    | DeleteCall(user: nat, id: nat, allowed: bool, clock: Clock)
    | Saved(row: Memory)
    | Summarized(tenant: nat, user: nat, id: nat, summary: string, clock: Clock)

  /** The other ways a row comes to be: saved by hand, an episode or a summary. None of them is a keyed preference. */
  predicate OtherRow(m: Memory) {
    m.status == Active && !m.deleted && m.supersededBy.None? && (m.kind == Semantic ==> m.key.None?)
  }

  const MAX_SUMMARY: nat := 1000

  /** The running summary of a conversation, found by its owner, is rewritten in place. */
  predicate MaySummarize(rows: seq<Memory>, tenant: nat, user: nat, id: nat) {
    && id < |rows| && rows[id].kind == ConversationSummary && rows[id].status == Active
    && rows[id].tenant == tenant && rows[id].owner == Some(user)
  }

  function Resummarized(rows: seq<Memory>, id: nat, summary: string, clock: Clock): seq<Memory>
    requires id < |rows|
  {
    var text := Collapse(summary);
    var content := if |text| > MAX_SUMMARY then text[..MAX_SUMMARY] else text;
    rows[id := rows[id].(content := content, expires := clock.now + clock.lifetime)]
  }

  function Apply(rows: seq<Memory>, e: Event): seq<Memory> {
    match e
    case Extracted(who, cs, sensitive, ties, clock) => Batch(rows, who, cs, sensitive, clock, ties, Considered(cs))
    case ConfirmCall(user, id, allowed, clock) =>
      if MayResolve(rows, user, id, allowed, clock.now) then Confirmed(rows, id, clock) else rows
    case DismissCall(user, id, allowed, clock) =>
      if MayResolve(rows, user, id, allowed, clock.now) then Removed(rows, id) else rows
    case DeleteCall(user, id, allowed, clock) =>
      if MayDelete(rows, user, id, allowed, clock.now) then Removed(rows, id) else rows
    case Saved(row) => if OtherRow(row) then rows + [row] else rows
    case Summarized(tenant, user, id, summary, clock) =>
      if MaySummarize(rows, tenant, user, id) then Resummarized(rows, id, summary, clock) else rows
  }

  function Play(events: seq<Event>): seq<Memory> {
    if events == [] then [] else Apply(Play(events[..|events| - 1]), events[|events| - 1])
  }

  /** A superseded row names a later row about the same subject and key; no other row names any. */
  predicate LinkOk(rows: seq<Memory>, i: nat)
    requires i < |rows|
  {
    var m := rows[i];
    && (m.deleted <==> m.status == Deleted)
    && (m.status == Superseded ==> m.supersededBy.Some?)
    && (m.supersededBy.Some? ==>
        && (m.status == Superseded || m.status == Deleted)
        && i < m.supersededBy.value < |rows|
        && m.owner.Some? && m.key.Some?
        && Concerns(m, Subject(m.tenant, m.company, m.owner.value), m.key.value)
        && Concerns(rows[m.supersededBy.value], Subject(m.tenant, m.company, m.owner.value), m.key.value))
  }

  predicate Linked(rows: seq<Memory>) {
    forall i :: 0 <= i < |rows| ==> LinkOk(rows, i)
  }

  predicate StatusMoves(a: Status, b: Status) {
    || a == b || b == Deleted
    || (a == PendingConfirmation && (b == Active || b == Superseded))
    || (a == Active && b == Superseded)
  }

  /**
   What may become of a row: only its status, expiry and link change, the link once, the status only forwards. What a
   row says changes for conversation summaries alone.
   */
  predicate RowEvolves(a: Memory, b: Memory) {
    && b == a.(status := b.status, expires := b.expires, deleted := b.deleted, supersededBy := b.supersededBy, content := b.content)
    && (a.kind != ConversationSummary ==> b.content == a.content)
    && StatusMoves(a.status, b.status)
    && (a.status == Deleted ==> b.status == Deleted)
    && (a.supersededBy.Some? ==> b.supersededBy == a.supersededBy)
  }

  predicate Evolves(before: seq<Memory>, after: seq<Memory>) {
    |before| <= |after| && forall i :: 0 <= i < |before| ==> RowEvolves(before[i], after[i])
  }

  lemma EvolvesTransitive(a: seq<Memory>, b: seq<Memory>, c: seq<Memory>)
    requires Evolves(a, b) && Evolves(b, c)
    ensures Evolves(a, c)
  {
    forall i | 0 <= i < |a| ensures RowEvolves(a[i], c[i]) {
      assert RowEvolves(a[i], b[i]) && RowEvolves(b[i], c[i]);
    }
  }

  /** Changing only the status of a row that names no other, and appending rows, keeps all links. */
  lemma UpdateKeeps(rows: seq<Memory>, i: nat, row: Memory, after: seq<Memory>)
    requires Linked(rows) && i < |rows| <= |after| && RowEvolves(rows[i], row)
    requires after[..|rows|] == rows[i := row]
    requires LinkOk(after, i) && forall k :: |rows| <= k < |after| ==> LinkOk(after, k)
    ensures Linked(after) && Evolves(rows, after)
  {
    assert forall j :: 0 <= j < |rows| ==> after[j] == after[..|rows|][j];
    forall j | 0 <= j < |after| ensures LinkOk(after, j) {
      if j < |rows| && j != i {
        assert LinkOk(rows, j);
      }
    }
  }

  lemma InsertKeeps(rows: seq<Memory>, row: Memory)
    requires Linked(rows) && LinkOk(rows + [row], |rows|)
    ensures Linked(rows + [row]) && Evolves(rows, rows + [row])
  {
    forall j | 0 <= j <= |rows| ensures LinkOk(rows + [row], j) {
      if j < |rows| {
        assert LinkOk(rows, j);
      }
    }
  }

  lemma PlainUpdateKeeps(rows: seq<Memory>, i: nat, row: Memory)
    requires Linked(rows) && i < |rows| && RowEvolves(rows[i], row) && LinkOk(rows[i := row], i)
    ensures Linked(rows[i := row]) && Evolves(rows, rows[i := row])
  {
    UpdateKeeps(rows, i, row, rows[i := row]);
  }

  lemma AcceptKeeps(rows: seq<Memory>, who: Subject, c: Candidate, clock: Clock, tie: nat)
    requires Linked(rows)
    ensures Linked(Accept(rows, who, c, clock, tie)) && Evolves(rows, Accept(rows, who, c, clock, tie))
  {
    hide Existing, Collapse;
    var existing := Existing(rows, who, c.key, tie);
    var inserted := Preference(who, c, clock);
    if existing.Some? {
      var m := rows[existing.value];
      assert LinkOk(rows, existing.value);
      if m.content == Collapse(c.content) {
        PlainUpdateKeeps(rows, existing.value, m.(expires := clock.now + clock.lifetime));
      } else {
        var replaced := m.(status := Superseded, supersededBy := Some(|rows|));
        UpdateKeeps(rows, existing.value, replaced, rows[existing.value := replaced] + [inserted]);
      }
    } else {
      InsertKeeps(rows, inserted);
    }
  }

  lemma {:induction false} BatchKeeps(rows: seq<Memory>, who: Subject, cs: seq<Candidate>, sensitive: string -> bool,
                                      clock: Clock, ties: nat -> nat, n: nat)
    requires Linked(rows) && n <= |cs|
    ensures Linked(Batch(rows, who, cs, sensitive, clock, ties, n))
    ensures Evolves(rows, Batch(rows, who, cs, sensitive, clock, ties, n))
  {
    hide Accept, Admissible, Linked;
    if n > 0 {
      BatchKeeps(rows, who, cs, sensitive, clock, ties, n - 1);
      var before := Batch(rows, who, cs, sensitive, clock, ties, n - 1);
      if Admissible(cs[n - 1], sensitive) {
        AcceptKeeps(before, who, cs[n - 1], clock, ties(n - 1));
        EvolvesTransitive(rows, before, Accept(before, who, cs[n - 1], clock, ties(n - 1)));
      }
    }
  }

  /** Every call keeps the links and lets rows only move forwards. */
  lemma ApplyKeeps(rows: seq<Memory>, e: Event)
    requires Linked(rows)
    ensures Linked(Apply(rows, e)) && Evolves(rows, Apply(rows, e))
  {
    match e
    case Extracted(who, cs, sensitive, ties, clock) =>
      BatchKeeps(rows, who, cs, sensitive, clock, ties, Considered(cs));
    case ConfirmCall(user, id, allowed, clock) =>
      if MayResolve(rows, user, id, allowed, clock.now) {
        assert LinkOk(rows, id);
        PlainUpdateKeeps(rows, id, Confirmed(rows, id, clock)[id]);
      }
    case DismissCall(user, id, allowed, clock) =>
      if MayResolve(rows, user, id, allowed, clock.now) {
        assert LinkOk(rows, id);
        PlainUpdateKeeps(rows, id, Removed(rows, id)[id]);
      }
    case DeleteCall(user, id, allowed, clock) =>
      if MayDelete(rows, user, id, allowed, clock.now) {
        assert LinkOk(rows, id);
        PlainUpdateKeeps(rows, id, Removed(rows, id)[id]);
      }
    case Saved(row) =>
      if OtherRow(row) {
        InsertKeeps(rows, row);
      }
    case Summarized(tenant, user, id, summary, clock) =>
      if MaySummarize(rows, tenant, user, id) {
        assert LinkOk(rows, id);
        PlainUpdateKeeps(rows, id, Resummarized(rows, id, summary, clock)[id]);
      }
  }

  /**
   Over every history: links lead to strictly later rows of the same owner, company and key, a link once written
   stays, a deleted row stays deleted, no row ever changes whom it belongs to, and none but a conversation summary
   changes what it says.
   */
  lemma {:induction false} EveryHistory(events: seq<Event>, k: nat)
    requires k <= |events|
    ensures Linked(Play(events)) && Evolves(Play(events[..k]), Play(events))
  {
    hide Apply, Linked;
    if k == |events| {
      assert events[..k] == events;
    }
    if events == [] {
      assert Linked(Play([])) by { NothingLinked(); }
    } else {
      var front := events[..|events| - 1];
      EveryHistory(front, if k < |events| then k else 0);
      ApplyKeeps(Play(front), events[|events| - 1]);
      if k < |events| {
        assert front[..k] == events[..k];
        EvolvesTransitive(Play(front[..k]), Play(front), Play(events));
      } else {
        SelfEvolves(Play(events));
      }
    }
  }

  lemma NothingLinked()
    ensures Linked([])
  {
  }

  lemma SelfEvolves(rows: seq<Memory>)
    ensures Evolves(rows, rows)
  {
  }

  /** Where a chain of supersession ends: at a row that supersedes all before it and is itself not superseded. */
  function Latest(rows: seq<Memory>, i: nat): (r: nat)
    requires Linked(rows) && i < |rows|
    ensures i <= r < |rows| && rows[r].supersededBy.None?
    ensures rows[r].tenant == rows[i].tenant && rows[r].company == rows[i].company
    ensures rows[r].owner == rows[i].owner && rows[r].key == rows[i].key
    decreases |rows| - i
  {
    assert LinkOk(rows, i);
    if rows[i].supersededBy.None? then i else Latest(rows, rows[i].supersededBy.value)
  }

  // ---------------------------------------------------------------- how many are active

  function One(b: bool): nat {
    if b then 1 else 0
  }

  function Count(rows: seq<Memory>, who: Subject, key: string): nat {
    if rows == [] then 0
    else Count(rows[..|rows| - 1], who, key) + One(Current(rows[|rows| - 1], who, key))
  }

  lemma {:induction false} CountUpdate(rows: seq<Memory>, i: nat, row: Memory, who: Subject, key: string)
    requires i < |rows|
    ensures Count(rows[i := row], who, key) + One(Current(rows[i], who, key)) ==
            Count(rows, who, key) + One(Current(row, who, key))
  {
    hide Current;
    var n := |rows| - 1;
    if i < n {
      assert rows[i := row][..n] == rows[..n][i := row];
      CountUpdate(rows[..n], i, row, who, key);
    } else {
      assert rows[i := row][..n] == rows[..n];
    }
  }

  lemma {:induction false} CountInsert(rows: seq<Memory>, row: Memory, who: Subject, key: string)
    ensures Count(rows + [row], who, key) == Count(rows, who, key) + One(Current(row, who, key))
  {
    assert (rows + [row])[..|rows|] == rows;
  }

  lemma {:induction false} CountNone(rows: seq<Memory>, who: Subject, key: string)
    ensures Count(rows, who, key) == 0 <==> forall i :: 0 <= i < |rows| ==> !Current(rows[i], who, key)
  {
    hide Current;
    if rows != [] {
      CountNone(rows[..|rows| - 1], who, key);
    }
  }

  lemma {:induction false} AcceptCount(rows: seq<Memory>, subject: Subject, c: Candidate, clock: Clock, tie: nat, who: Subject, key: string)
    ensures Count(Accept(rows, subject, c, clock, tie), who, key) <= Max(1, Count(rows, who, key))
  {
    hide Existing, Collapse;
    var existing := Existing(rows, subject, c.key, tie);
    var inserted := Preference(subject, c, clock);
    CountNone(rows, who, key);
    if existing.Some? {
      var m := rows[existing.value];
      if m.content == Collapse(c.content) {
        CountUpdate(rows, existing.value, m.(expires := clock.now + clock.lifetime), who, key);
      } else {
        var replaced := m.(status := Superseded, supersededBy := Some(|rows|));
        CountUpdate(rows, existing.value, replaced, who, key);
        CountInsert(rows[existing.value := replaced], inserted, who, key);
      }
    } else {
      CountInsert(rows, inserted, who, key);
    }
  }

  /** Something current under the key says this. */
  predicate Remembers(rows: seq<Memory>, who: Subject, key: string, content: string) {
    exists i :: 0 <= i < |rows| && Current(rows[i], who, key) && rows[i].content == content
  }

  /**
   What the user said outright is remembered at once. A guess is never active, and it takes back a current preference
   that says something else.
   */
  lemma {:induction false} CandidateEffect(rows: seq<Memory>, who: Subject, c: Candidate, clock: Clock, tie: nat)
    ensures var after := Accept(rows, who, c, clock, tie);
            var existing := Existing(rows, who, c.key, tie);
            var same := existing.Some? && rows[existing.value].content == Collapse(c.content);
            && (c.explicit ==> Remembers(after, who, c.key, Collapse(c.content)))
            && |after| == |rows| + One(!same)
            && Count(after, who, c.key) + One(existing.Some? && !same) == Count(rows, who, c.key) + One(c.explicit && !same)
  {
    hide Existing, Collapse;
    var existing := Existing(rows, who, c.key, tie);
    var inserted, after := Preference(who, c, clock), Accept(rows, who, c, clock, tie);
    if existing.Some? {
      var m := rows[existing.value];
      if m.content == Collapse(c.content) {
        CountUpdate(rows, existing.value, m.(expires := clock.now + clock.lifetime), who, c.key);
        assert Current(after[existing.value], who, c.key);
      } else {
        var replaced := m.(status := Superseded, supersededBy := Some(|rows|));
        CountUpdate(rows, existing.value, replaced, who, c.key);
        CountInsert(rows[existing.value := replaced], inserted, who, c.key);
        assert after[|rows|] == inserted;
      }
    } else {
      CountInsert(rows, inserted, who, c.key);
      assert after[|rows|] == inserted;
    }
  }

  function Max(a: nat, b: nat): nat {
    if a < b then b else a
  }

  /** A batch never leaves more active preferences under a key than one or than there were. */
  lemma {:induction false} BatchCount(rows: seq<Memory>, subject: Subject, cs: seq<Candidate>, sensitive: string -> bool,
                                      clock: Clock, ties: nat -> nat, n: nat, who: Subject, key: string)
    requires n <= |cs|
    ensures Count(Batch(rows, subject, cs, sensitive, clock, ties, n), who, key) <= Max(1, Count(rows, who, key))
  {
    hide Accept, Admissible, Count;
    if n > 0 {
      BatchCount(rows, subject, cs, sensitive, clock, ties, n - 1, who, key);
      AcceptCount(Batch(rows, subject, cs, sensitive, clock, ties, n - 1), subject, cs[n - 1], clock, ties(n - 1), who, key);
    }
  }

  /** The event confirms a pending preference of the subject under the key. */
  predicate Confirms(rows: seq<Memory>, e: Event, who: Subject, key: string) {
    e.ConfirmCall? && MayResolve(rows, e.user, e.id, e.allowed, e.clock.now) && Concerns(rows[e.id], who, key)
  }

  /** Only confirming can raise the count above one, and it raises it by exactly one. */
  lemma {:induction false} ApplyCount(rows: seq<Memory>, e: Event, who: Subject, key: string)
    ensures if Confirms(rows, e, who, key) then Count(Apply(rows, e), who, key) == Count(rows, who, key) + 1
            else Count(Apply(rows, e), who, key) <= Max(1, Count(rows, who, key))
  {
    hide Count;
    match e
    case Extracted(subject, cs, sensitive, ties, clock) =>
      BatchCount(rows, subject, cs, sensitive, clock, ties, Considered(cs), who, key);
    case ConfirmCall(user, id, allowed, clock) =>
      if MayResolve(rows, user, id, allowed, clock.now) {
        CountUpdate(rows, id, Confirmed(rows, id, clock)[id], who, key);
      }
    case DismissCall(user, id, allowed, clock) =>
      if MayResolve(rows, user, id, allowed, clock.now) {
        CountUpdate(rows, id, Removed(rows, id)[id], who, key);
      }
    case DeleteCall(user, id, allowed, clock) =>
      if MayDelete(rows, user, id, allowed, clock.now) {
        CountUpdate(rows, id, Removed(rows, id)[id], who, key);
      }
    case Saved(row) =>
      if OtherRow(row) {
        CountInsert(rows, row, who, key);
      }
    case Summarized(tenant, user, id, summary, clock) =>
      if MaySummarize(rows, tenant, user, id) {
        CountUpdate(rows, id, Resummarized(rows, id, summary, clock)[id], who, key);
      }
  }

  /** A call keeps "at most one active" exactly when it does not confirm a second one. */
  lemma {:induction false} OneActiveKept(rows: seq<Memory>, e: Event, who: Subject, key: string)
    requires Count(rows, who, key) <= 1
    ensures Count(Apply(rows, e), who, key) <= 1 <==> !(Confirms(rows, e, who, key) && Count(rows, who, key) == 1)
  {
    ApplyCount(rows, e, who, key);
  }

  /** How often a history confirms a preference under the key while another is active. */
  function DoubleConfirms(events: seq<Event>, who: Subject, key: string): nat {
    if events == [] then 0
    else
      var rows := Play(events[..|events| - 1]);
      DoubleConfirms(events[..|events| - 1], who, key) +
      One(Confirms(rows, events[|events| - 1], who, key) && Count(rows, who, key) >= 1)
  }

  /** Over every history the number of active preferences under a key exceeds one by at most those confirmations. */
  lemma {:induction false} ActiveBound(events: seq<Event>, who: Subject, key: string)
    ensures Count(Play(events), who, key) <= 1 + DoubleConfirms(events, who, key)
  {
    hide Apply, Confirms;
    if events != [] {
      var front := events[..|events| - 1];
      ActiveBound(front, who, key);
      ApplyCount(Play(front), events[|events| - 1], who, key);
    }
  }

  /** Two guesses under one key, both confirmed, are both active. */
  lemma {:induction false} TwoActive(who: Subject, clock: Clock, ties: nat -> nat)
    requires clock.lifetime > 0
    ensures var a := Candidate(Semantic, Add, "eur", "currency", true, false);
            var b := a.(content := "usd");
            var events := [Extracted(who, [a, b], s => false, ties, clock),
                           ConfirmCall(who.user, 0, true, clock), ConfirmCall(who.user, 1, true, clock)];
            Count(Play(events), who, "currency") == 2
  {
    var a := Candidate(Semantic, Add, "eur", "currency", true, false);
    var b := a.(content := "usd");
    CollapsedWord("eur");
    CollapsedWord("usd");
    hide Collapse, Count;
    var e1 := Extracted(who, [a, b], s => false, ties, clock);
    var e2, e3 := ConfirmCall(who.user, 0, true, clock), ConfirmCall(who.user, 1, true, clock);
    assert Admissible(a, e1.sensitive) && Admissible(b, e1.sensitive);
    TwoGuesses(who, a, b, e1.sensitive, clock, ties);
    PlayThree(e1, e2, e3);
    BothConfirmed(who, Preference(who, a, clock), Preference(who, b, clock), clock);
  }

  lemma PlayThree(e1: Event, e2: Event, e3: Event)
    ensures Play([e1, e2, e3]) == Apply(Apply(Apply([], e1), e2), e3)
  {
    hide Apply;
    assert [e1, e2, e3][..2] == [e1, e2] && [e1, e2][..1] == [e1] && [e1][..0] == [];
    assert Play([e1]) == Apply([], e1);
    assert Play([e1, e2]) == Apply(Apply([], e1), e2);
  }

  lemma {:induction false} BothConfirmed(who: Subject, a: Memory, b: Memory, clock: Clock)
    requires Concerns(a, who, "currency") && Concerns(b, who, "currency") && !a.deleted && !b.deleted
    requires a.status == b.status == PendingConfirmation && a.expires > clock.now && b.expires > clock.now
    ensures var rows := Apply([a, b], ConfirmCall(who.user, 0, true, clock));
            Count(Apply(rows, ConfirmCall(who.user, 1, true, clock)), who, "currency") == 2
  {
    hide Count;
    CountNone([a, b], who, "currency");
    var rows := Apply([a, b], ConfirmCall(who.user, 0, true, clock));
    ApplyCount([a, b], ConfirmCall(who.user, 0, true, clock), who, "currency");
    ApplyCount(rows, ConfirmCall(who.user, 1, true, clock), who, "currency");
  }

  lemma {:induction false} TwoGuesses(who: Subject, a: Candidate, b: Candidate, sensitive: string -> bool, clock: Clock, ties: nat -> nat)
    requires Admissible(a, sensitive) && Admissible(b, sensitive) && !a.explicit && !b.explicit
    ensures Batch([], who, [a, b], sensitive, clock, ties, 2) == [Preference(who, a, clock), Preference(who, b, clock)]
  {
    hide Collapse, Admissible;
    assert Batch([], who, [a, b], sensitive, clock, ties, 0) == [];
    assert Batch([], who, [a, b], sensitive, clock, ties, 1) == [Preference(who, a, clock)];
  }

  lemma {:induction false} CollapsedWord(s: string)
    requires |s| == 3 && forall i :: 0 <= i < 3 ==> !IsSpace(s[i])
    ensures Collapse(s) == s
  {
    assert s[1..][1..] == s[2..] && s[2..][1..] == [];
    assert Collapse(s[2..], true, false) == [s[2]] + Collapse([], true, false);
    assert Collapse(s[1..], true, false) == [s[1]] + Collapse(s[2..], true, false);
  }
}
