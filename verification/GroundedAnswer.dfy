/**
 Validation of a drafted answer against the evidence that was actually observed.
 */
module GroundedAnswer {
  import opened Wrappers
  import opened AgentTypes
  import Text
  import Rendering

  datatype ClaimDraft = ClaimDraft(text: string, ids: seq<nat>)

  datatype Draft = Draft(supported: bool, claims: seq<ClaimDraft>)

  datatype Claim = Claim(text: string, ids: seq<nat>)

  datatype Rejection =
    | ProviderUnsupported | EvidenceIdsDuplicate | ClaimInvalid | UnknownEvidence | ReconstructionIncomplete

  datatype Verdict = Validated(claims: seq<Claim>, citations: seq<Evidence>) | Rejected(why: Rejection)

  function Ids(evidence: seq<Evidence>): set<nat> {
    set i | 0 <= i < |evidence| :: evidence[i].id
  }

  ghost predicate DistinctIds(evidence: seq<Evidence>) {
    forall i, j :: 0 <= i < j < |evidence| ==> evidence[i].id != evidence[j].id
  }

  /** `tuple(dict.fromkeys(ids))`: first occurrences, in order. */
  function Deduplicate(ids: seq<nat>): (r: seq<nat>)
    ensures forall x :: x in r <==> x in ids
    ensures forall i, j :: 0 <= i < j < |r| ==> r[i] != r[j]
  {
    if ids == [] then []
    else
      var front := Deduplicate(ids[..|ids| - 1]);
      var last := ids[|ids| - 1];
      assert ids == ids[..|ids| - 1] + [last];
      if last in front then front else front + [last]
  }

  function Clean(draft: ClaimDraft): Claim {
    Claim(Text.Collapse(draft.text), Deduplicate(draft.ids))
  }

  /** What is wrong with one claim, if anything. */
  function Fault(draft: ClaimDraft, known: set<nat>): (r: Option<Rejection>)
    ensures r != Some(ReconstructionIncomplete)
  {
    var claim := Clean(draft);
    if claim.text == "" || |claim.text| > 500 || claim.ids == [] then Some(ClaimInvalid)
    else if exists x :: x in claim.ids && x !in known then Some(UnknownEvidence)
    else None
  }

  function FirstFault(claims: seq<ClaimDraft>, known: set<nat>): (r: Option<Rejection>)
    ensures r.None? <==> forall i :: 0 <= i < |claims| ==> Fault(claims[i], known).None?
  {
    if claims == [] then None
    else if Fault(claims[0], known).Some? then Fault(claims[0], known)
    else
      var r := FirstFault(claims[1..], known);
      assert forall i :: 1 <= i < |claims| ==> claims[i] == claims[1..][i - 1];
      r
  }

  function Referenced(claims: seq<ClaimDraft>): (r: set<nat>)
    ensures forall x :: x in r <==> exists i :: 0 <= i < |claims| && x in claims[i].ids
  {
    if claims == [] then {}
    else
      var front := claims[..|claims| - 1];
      assert forall i :: 0 <= i < |front| ==> claims[i] == front[i];
      Referenced(front) + SetOf(claims[|claims| - 1].ids)
  }

  function SetOf(ids: seq<nat>): set<nat> {
    set x | x in ids
  }

  /** The evidence items that the claims mention, in evidence order. */
  function Cited(evidence: seq<Evidence>, referenced: set<nat>): (r: seq<Evidence>)
    ensures forall e :: e in r <==> e in evidence && e.id in referenced
  {
    if evidence == [] then []
    else
      (if evidence[0].id in referenced then [evidence[0]] else []) + Cited(evidence[1..], referenced)
  }

  /** The verdict on a draft; the evidence handed over never repeats an identifier. */
  function Judge(draft: Draft, evidence: seq<Evidence>): Verdict {
    if !draft.supported || draft.claims == [] then Rejected(ProviderUnsupported)
    else if |Ids(evidence)| != |evidence| then Rejected(EvidenceIdsDuplicate)
    else if FirstFault(draft.claims, Ids(evidence)).Some? then
      Rejected(FirstFault(draft.claims, Ids(evidence)).value)
    else
      Validated(seq(|draft.claims|, i requires 0 <= i < |draft.claims| => Clean(draft.claims[i])),
                Cited(evidence, Referenced(draft.claims)))
  }

  lemma CleanIds(draft: ClaimDraft)
    ensures SetOf(Clean(draft).ids) == SetOf(draft.ids)
  {
  }

  /**
   The loop over claims, followed by the reconstruction of the citation list. The reconstruction check of the
   source is kept; the contract shows that it can never fire.
   */
  method ValidateGroundedAnswer(draft: Draft, evidence: seq<Evidence>) returns (verdict: Verdict)
    ensures verdict == Judge(draft, evidence)
    ensures verdict != Rejected(ReconstructionIncomplete)
  {
    hide Clean, Fault, Cited, Ids, FirstFault, Referenced, SetOf;
    if !draft.supported || draft.claims == [] {
      return Rejected(ProviderUnsupported);
    }
    var known := Ids(evidence);
    if |known| != |evidence| {
      return Rejected(EvidenceIdsDuplicate);
    }
    var claims: seq<Claim> := [];
    var referenced: set<nat> := {};
    NoClaimYet(draft.claims, known);
    for i := 0 to |draft.claims|
      invariant |claims| == i && forall j :: 0 <= j < i ==> claims[j] == Clean(draft.claims[j])
      invariant referenced == Referenced(draft.claims[..i])
      invariant FirstFault(draft.claims, known) == FirstFault(draft.claims[i..], known)
    {
      ClaimStep(draft.claims, i, known);
      var fault := Fault(draft.claims[i], known);
      if fault.Some? {
        return Rejected(fault.value);
      }
      var claim := Clean(draft.claims[i]);
      referenced := referenced + SetOf(claim.ids);
      claims := claims + [claim];
    }
    assert draft.claims[..|draft.claims|] == draft.claims;
    var citations := Cited(evidence, referenced);
    CitedCovers(draft.claims, evidence);
    if Ids(citations) != referenced {
      return Rejected(ReconstructionIncomplete);
    }
    return Validated(claims, citations);
  }

  /** What one more claim adds. */
  lemma {:induction false} ClaimStep(claims: seq<ClaimDraft>, i: nat, known: set<nat>)
    requires i < |claims|
    ensures Referenced(claims[..i + 1]) == Referenced(claims[..i]) + SetOf(Clean(claims[i]).ids)
    ensures FirstFault(claims[i..], known) ==
            if Fault(claims[i], known).Some? then Fault(claims[i], known) else FirstFault(claims[i + 1..], known)
  {
    hide Clean, Fault;
    assert claims[..i + 1][..i] == claims[..i];
    assert claims[i..][1..] == claims[i + 1..];
    CleanIds(claims[i]);
  }

  lemma {:induction false} NoClaimYet(claims: seq<ClaimDraft>, known: set<nat>)
    ensures Referenced(claims[..0]) == {} && FirstFault(claims, known) == FirstFault(claims[0..], known)
    ensures FirstFault(claims[|claims|..], known) == None && claims[..|claims|] == claims
  {
    assert claims[0..] == claims;
  }

  lemma {:induction false} CitedCovers(claims: seq<ClaimDraft>, evidence: seq<Evidence>)
    requires FirstFault(claims, Ids(evidence)).None?
    ensures Ids(Cited(evidence, Referenced(claims))) == Referenced(claims)
  {
    var referenced := Referenced(claims);
    var citations := Cited(evidence, referenced);
    forall x | x in referenced ensures x in Ids(citations) {
      var i :| 0 <= i < |claims| && x in claims[i].ids;
      assert Fault(claims[i], Ids(evidence)).None?;
      assert x in Clean(claims[i]).ids;
      var j :| 0 <= j < |evidence| && evidence[j].id == x;
      assert evidence[j] in citations;
    }
    forall x | x in Ids(citations) ensures x in referenced {
      var j :| 0 <= j < |citations| && citations[j].id == x;
      assert citations[j] in citations;
    }
  }

  lemma DistinctIdsCount(evidence: seq<Evidence>)
    ensures DistinctIds(evidence) ==> |Ids(evidence)| == |evidence|
  {
    if evidence != [] {
      var front, last := evidence[..|evidence| - 1], evidence[|evidence| - 1];
      DistinctIdsCount(front);
      assert Ids(evidence) == Ids(front) + {last.id} by {
        forall x | x in Ids(evidence) ensures x in Ids(front) + {last.id} {
          var i :| 0 <= i < |evidence| && evidence[i].id == x;
          if i < |front| { assert front[i].id == x; }
        }
        forall x | x in Ids(front) ensures x in Ids(evidence) {
          var i :| 0 <= i < |front| && front[i].id == x;
          assert evidence[i].id == x;
        }
      }
    }
  }

  /**
   A draft is accepted exactly when it is supported, has claims and every claim is readable and cites known
   evidence only; then every claim has a citation and the citations are the claimed items and no others.
   */
  lemma AcceptedExactly(draft: Draft, evidence: seq<Evidence>)
    requires DistinctIds(evidence)
    ensures Judge(draft, evidence).Validated? <==>
            && draft.supported && draft.claims != []
            && forall i :: 0 <= i < |draft.claims| ==>
                 && 0 < |Text.Collapse(draft.claims[i].text)| <= 500
                 && draft.claims[i].ids != []
                 && forall x :: x in draft.claims[i].ids ==> x in Ids(evidence)
    ensures Judge(draft, evidence).Validated? ==>
              Sound(Judge(draft, evidence).claims, Judge(draft, evidence).citations, evidence)
  {
    DistinctIdsCount(evidence);
    forall i | 0 <= i < |draft.claims|
      ensures Fault(draft.claims[i], Ids(evidence)).None? <==>
              && 0 < |Text.Collapse(draft.claims[i].text)| <= 500
              && draft.claims[i].ids != []
              && forall x :: x in draft.claims[i].ids ==> x in Ids(evidence)
    {
      var ids := draft.claims[i].ids;
      if ids != [] { assert ids[0] in Deduplicate(ids); }
    }
    if Judge(draft, evidence).Validated? {
      AcceptedIsSound(draft, evidence);
    }
  }

  /** Every claim cites something, the citations are exactly the claimed items, and all come from the evidence. */
  ghost predicate Sound(claims: seq<Claim>, citations: seq<Evidence>, evidence: seq<Evidence>) {
    && (forall i :: 0 <= i < |claims| ==> claims[i].ids != [])
    && (forall x :: x in Ids(citations) <==> exists i :: 0 <= i < |claims| && x in claims[i].ids)
    && (forall e :: e in citations ==> e in evidence)
  }

  lemma AcceptedIsSound(draft: Draft, evidence: seq<Evidence>)
    requires Judge(draft, evidence).Validated?
    ensures Sound(Judge(draft, evidence).claims, Judge(draft, evidence).citations, evidence)
  {
    var verdict := Judge(draft, evidence);
    CitedCovers(draft.claims, evidence);
    forall i | 0 <= i < |draft.claims|
      ensures verdict.claims[i].ids != [] && forall x :: x in verdict.claims[i].ids <==> x in draft.claims[i].ids
    {
      assert Fault(draft.claims[i], Ids(evidence)).None?;
    }
    forall x | x in Ids(verdict.citations)
      ensures exists i :: 0 <= i < |verdict.claims| && x in verdict.claims[i].ids
    {
      var i :| 0 <= i < |draft.claims| && x in draft.claims[i].ids;
      assert x in verdict.claims[i].ids;
    }
    forall i, x | 0 <= i < |verdict.claims| && x in verdict.claims[i].ids
      ensures x in Ids(verdict.citations)
    {
      assert x in draft.claims[i].ids;
      assert x in Referenced(draft.claims);
    }
  }

  /** The claim can be read. */
  predicate Readable(draft: ClaimDraft) {
    0 < |Text.Collapse(draft.text)| <= 500 && draft.ids != []
  }

  /** The claim cites known evidence only. */
  predicate CitesKnown(draft: ClaimDraft, evidence: seq<Evidence>) {
    forall x :: x in draft.ids ==> x in Ids(evidence)
  }

  /** The claim at `k` is the first that cannot be read or cites unknown evidence. */
  predicate FirstBad(claims: seq<ClaimDraft>, evidence: seq<Evidence>, k: int) {
    && 0 <= k < |claims| && !(Readable(claims[k]) && CitesKnown(claims[k], evidence))
    && forall i :: 0 <= i < k ==> Readable(claims[i]) && CitesKnown(claims[i], evidence)
  }

  lemma FaultExactly(draft: ClaimDraft, evidence: seq<Evidence>)
    ensures Fault(draft, Ids(evidence)) ==
              if !Readable(draft) then Some(ClaimInvalid) else if !CitesKnown(draft, evidence) then Some(UnknownEvidence) else None
  {
    if draft.ids != [] {
      assert draft.ids[0] in Deduplicate(draft.ids);
    }
  }

  lemma {:induction false} FirstFaultAt(claims: seq<ClaimDraft>, known: set<nat>, k: nat)
    requires k < |claims| && Fault(claims[k], known).Some? && forall i :: 0 <= i < k ==> Fault(claims[i], known).None?
    ensures FirstFault(claims, known) == Fault(claims[k], known)
  {
    hide Fault;
    if k > 0 {
      assert claims[1..][k - 1] == claims[k];
      FirstFaultAt(claims[1..], known, k - 1);
    }
  }

  /** What a rejection says: no supported claim at all, or what is wrong with the first claim that has a fault. */
  lemma RejectedExactly(draft: Draft, evidence: seq<Evidence>)
    requires DistinctIds(evidence)
    ensures Judge(draft, evidence) == Rejected(ProviderUnsupported) <==> !draft.supported || draft.claims == []
    ensures forall k :: draft.supported && FirstBad(draft.claims, evidence, k) ==>
              Judge(draft, evidence) == Rejected(if Readable(draft.claims[k]) then UnknownEvidence else ClaimInvalid)
  {
    hide Fault, Readable, CitesKnown, Clean, Cited, Referenced;
    DistinctIdsCount(evidence);
    var known := Ids(evidence);
    forall i | 0 <= i < |draft.claims|
      ensures Fault(draft.claims[i], known) ==
                if !Readable(draft.claims[i]) then Some(ClaimInvalid)
                else if !CitesKnown(draft.claims[i], evidence) then Some(UnknownEvidence) else None
    {
      FaultExactly(draft.claims[i], evidence);
    }
    NoSuchFault(draft.claims, evidence);
    forall k | draft.supported && FirstBad(draft.claims, evidence, k)
      ensures Judge(draft, evidence) == Rejected(if Readable(draft.claims[k]) then UnknownEvidence else ClaimInvalid)
    {
      FirstFaultAt(draft.claims, known, k);
    }
  }

  lemma {:induction false} NoSuchFault(claims: seq<ClaimDraft>, evidence: seq<Evidence>)
    ensures FirstFault(claims, Ids(evidence)) != Some(ProviderUnsupported)
  {
    if claims != [] {
      FaultExactly(claims[0], evidence);
      NoSuchFault(claims[1..], evidence);
    }
  }

  // ---------------------------------------------------------------- what an accepted answer says

  /** Supported, with claims, each readable and citing known evidence only. */
  ghost predicate Supported(draft: Draft, evidence: seq<Evidence>) {
    && draft.supported && draft.claims != []
    && forall i :: 0 <= i < |draft.claims| ==>
         && 0 < |Text.Collapse(draft.claims[i].text)| <= 500
         && draft.claims[i].ids != []
         && forall x :: x in draft.claims[i].ids ==> x in Ids(evidence)
  }

  /** The same identifiers, each once, in the order in which they are first mentioned. */
  ghost predicate FirstMentions(r: seq<nat>, ids: seq<nat>) {
    && (forall x :: x in r <==> x in ids)
    && (forall i, j :: 0 <= i < j < |r| ==> r[i] != r[j])
    && (forall i, j, b :: 0 <= i < j < |r| && 0 <= b < |ids| && ids[b] == r[j] ==> r[i] in ids[..b])
  }

  lemma {:induction false} DeduplicateInOrder(ids: seq<nat>)
    ensures FirstMentions(Deduplicate(ids), ids)
  {
    if ids != [] {
      var n := |ids| - 1;
      DeduplicateInOrder(ids[..n]);
      var r := Deduplicate(ids);
      forall i, j, b | 0 <= i < j < |r| && 0 <= b < |ids| && ids[b] == r[j] ensures r[i] in ids[..b] {
        assert ids[..b] == ids[..n][..b];
        if b < n {
          assert ids[..n][b] == r[j];
        }
      }
    }
  }

  /** The claim keeps the words of its draft, one space apart, and its citations. */
  ghost predicate KeepsDraft(claim: Claim, draft: ClaimDraft) {
    && Text.Words(claim.text) == Text.Words(draft.text)
    && claim.text == Rendering.Join(Text.Words(draft.text), ' ')
    && FirstMentions(claim.ids, draft.ids)
  }

  /** The chosen items, in the order of the list they are chosen from. */
  ghost predicate ChosenInOrder(chosen: seq<Evidence>, evidence: seq<Evidence>, positions: seq<nat>) {
    && |positions| == |chosen|
    && (forall i :: 0 <= i < |chosen| ==> positions[i] < |evidence| && evidence[positions[i]] == chosen[i])
    && (forall i, j :: 0 <= i < j < |chosen| ==> positions[i] < positions[j])
  }

  /** One claim per drafted claim, and exactly the claimed evidence as citations, in evidence order. */
  ghost predicate Answers(claims: seq<Claim>, citations: seq<Evidence>, draft: Draft, evidence: seq<Evidence>) {
    && |claims| == |draft.claims|
    && (forall i :: 0 <= i < |claims| ==> KeepsDraft(claims[i], draft.claims[i]))
    && (forall e :: e in citations <==> e in evidence && exists i :: 0 <= i < |draft.claims| && e.id in draft.claims[i].ids)
    && exists positions :: ChosenInOrder(citations, evidence, positions)
  }

  function Shifted(positions: seq<nat>): (r: seq<nat>)
    ensures |r| == |positions| && forall i :: 0 <= i < |r| ==> r[i] == positions[i] + 1
  {
    seq(|positions|, i requires 0 <= i < |positions| => positions[i] + 1)
  }

  lemma ShiftedInOrder(chosen: seq<Evidence>, evidence: seq<Evidence>, positions: seq<nat>)
    requires evidence != [] && ChosenInOrder(chosen, evidence[1..], positions)
    ensures ChosenInOrder(chosen, evidence, Shifted(positions))
    ensures ChosenInOrder([evidence[0]] + chosen, evidence, [0] + Shifted(positions))
  {
    var shifted := Shifted(positions);
    forall i | 0 <= i < |chosen| ensures shifted[i] < |evidence| && evidence[shifted[i]] == chosen[i] {
      assert evidence[1..][positions[i]] == chosen[i];
    }
    var all, first := [evidence[0]] + chosen, [0] + shifted;
    forall i | 0 <= i < |all| ensures first[i] < |evidence| && evidence[first[i]] == all[i] {
      if i > 0 {
        assert all[i] == chosen[i - 1] && first[i] == shifted[i - 1];
      }
    }
  }

  lemma {:induction false} CitedInOrder(evidence: seq<Evidence>, referenced: set<nat>) returns (positions: seq<nat>)
    ensures ChosenInOrder(Cited(evidence, referenced), evidence, positions)
  {
    if evidence == [] {
      positions := [];
    } else {
      hide ChosenInOrder;
      var rest := CitedInOrder(evidence[1..], referenced);
      ShiftedInOrder(Cited(evidence[1..], referenced), evidence, rest);
      if evidence[0].id in referenced {
        positions := [0] + Shifted(rest);
      } else {
        positions := Shifted(rest);
        assert [] + Cited(evidence[1..], referenced) == Cited(evidence[1..], referenced);
      }
    }
  }

  lemma CleanKeepsDraft(draft: ClaimDraft)
    ensures KeepsDraft(Clean(draft), draft)
  {
    Text.CollapseKeepsWords(draft.text);
    DeduplicateInOrder(draft.ids);
    hide FirstMentions, Deduplicate, Text.Words, Text.Collapse;
  }

  /** A draft is accepted if and only if it is supported, and then the answer says what the draft says. */
  lemma JudgedExactly(draft: Draft, evidence: seq<Evidence>)
    requires DistinctIds(evidence)
    ensures Judge(draft, evidence).Validated? <==> Supported(draft, evidence)
    ensures Judge(draft, evidence).Validated? ==>
              Answers(Judge(draft, evidence).claims, Judge(draft, evidence).citations, draft, evidence)
  {
    AcceptedExactly(draft, evidence);
    if Judge(draft, evidence).Validated? {
      hide Clean, Cited, Referenced, KeepsDraft, ChosenInOrder, FirstFault;
      forall i | 0 <= i < |draft.claims| ensures KeepsDraft(Clean(draft.claims[i]), draft.claims[i]) {
        CleanKeepsDraft(draft.claims[i]);
      }
      var positions := CitedInOrder(evidence, Referenced(draft.claims));
    }
  }
}
