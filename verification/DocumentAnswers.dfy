/**
 What every call on a sound library answers and changes: uploads, reviews and deletions, told without the transitions they
 run through.
 */
module DocumentAnswers {
  import opened Wrappers
  import opened Documents

  // ---------------------------------------------------------------- uploads

  /** The document is there, not deleted, and the caller may manage it. */
  predicate Open(docs: Library, d: nat, manages: nat -> bool) {
    d < |docs| && !docs[d].deleted && manages(d)
  }

  /** The same file can be reviewed or used already, under the same metadata. */
  ghost predicate Known(docs: Library, r: Request) {
    exists p :: At(docs, p) && !docs[p.document].deleted && docs[p.document].meta == r.meta &&
                Get(docs, p).request.data == r.data && Get(docs, p).status in {PreviewReady, Approved}
  }

  /** No version carries the caller's key. */
  ghost predicate KeyFree(docs: Library, u: Upload) {
    forall p :: At(docs, p) ==> Get(docs, p).actor != u.actor || Get(docs, p).key != u.key
  }

  /** The target fits, if there is one. */
  predicate Fits(docs: Library, u: Upload) {
    u.request.target.Some? ==> Open(docs, u.request.target.value, u.manages) && docs[u.request.target.value].meta == u.request.meta
  }

  lemma KnownExactly(docs: Library, r: Request)
    requires Sound(docs)
    ensures Duplicate(docs, r) <==> Known(docs, r)
  {
    hide KeysUnique;
    if Duplicate(docs, r) {
      var d :| 0 <= d < |docs| && !docs[d].deleted && docs[d].meta == r.meta &&
               exists i :: 0 <= i < |docs[d].versions| && LiveCopy(docs[d].versions[i], r);
      var i :| 0 <= i < |docs[d].versions| && LiveCopy(docs[d].versions[i], r);
      assert At(docs, Place(d, i)) && Get(docs, Place(d, i)).request.data == r.data;
    }
    if p :| At(docs, p) && !docs[p.document].deleted && docs[p.document].meta == r.meta &&
            Get(docs, p).request.data == r.data && Get(docs, p).status in {PreviewReady, Approved} {
      assert DocumentOk(docs[p.document]) && VersionOk(docs[p.document], p.version);
      assert LiveCopy(docs[p.document].versions[p.version], r);
    }
  }

  lemma {:induction false} FreeExactly(docs: Library, u: Upload)
    ensures FindOwner(docs, u.actor, u.key).None? <==> KeyFree(docs, u)
  {
    var owner := FindOwner(docs, u.actor, u.key);
    if owner.Some? {
      assert Owns(docs, owner.value, u.actor, u.key);
    } else {
      forall p | At(docs, p) ensures Get(docs, p).actor != u.actor || Get(docs, p).key != u.key {
        assert !Owns(docs, p, u.actor, u.key);
      }
    }
  }

  /** An upload under a fresh key: who may not send it, what is a duplicate, and where a new version goes. */
  lemma FreshAnswer(docs: Library, u: Upload)
    requires Sound(docs) && KeyFree(docs, u)
    ensures Decide(docs, u) ==
              if !u.permitted then Forbidden
              else if !Fits(docs, u) then
                if Open(docs, u.request.target.value, u.manages) then MetadataConflict else NotFound
              else if u.request.target.Some? then Recorded(Place(u.request.target.value, |docs[u.request.target.value].versions|))
              else if u.valid && Known(docs, u.request) then Deduplicated
              else Recorded(Place(|docs|, 0))
  {
    hide Sound, FindOwner, KeyFree, Known, Duplicate;
    FreeExactly(docs, u);
    KnownExactly(docs, u.request);
  }

  /** An upload under a key that the version at `p` carries changes nothing and is answered by that version, or refused. */
  lemma RepeatedAnswer(docs: Library, u: Upload, p: Place)
    requires Sound(docs) && At(docs, p) && Get(docs, p).actor == u.actor && Get(docs, p).key == u.key
    ensures Decide(docs, u) ==
              if !u.permitted then Forbidden
              else if !Fits(docs, u) then
                if Open(docs, u.request.target.value, u.manages) then MetadataConflict else NotFound
              else if Get(docs, p).request != u.request then IdempotencyConflict
              else if !Open(docs, p.document, u.manages) then NotFound
              else if Get(docs, p).status == ValidationFailed || Get(docs, p).status == ParsingFailed then FailureReplayed(p)
              else Replayed(p)
  {
    hide FindOwner, Duplicate, DocumentOk;
    assert Owns(docs, p, u.actor, u.key);
    hide KeysUnique;
    OwnerFound(docs, p, u.actor, u.key);
  }

  /** Where a version begins its life: ready for review, or failed. */
  function FirstStatus(u: Upload): Status {
    if u.valid && u.storage == Stored then (if u.parses then PreviewReady else ParsingFailed) else ValidationFailed
  }

  /**
   A recorded upload adds one version, the next of its document, with the caller, key and request of the upload, ready for
   review if and only if the file is valid, was stored and parses; everything else stays as it was. Any other answer changes
   nothing.
   */
  lemma UploadStores(docs: Library, u: Upload)
    requires Sound(docs)
    ensures var answer, after, target := Decide(docs, u), WithUpload(docs, u), u.request.target;
            if !answer.Recorded? then after == docs
            else
              var p := answer.place;
              var v := Version(p.version + 1, u.actor, u.key, u.request, FirstStatus(u), FirstStatus(u), false);
              if target.None? then p == Place(|docs|, 0) && after == docs + [Document(u.request.meta, [v], None, false)]
              else
                && target.value < |docs| && p == Place(target.value, |docs[target.value].versions|)
                && var doc := docs[target.value];
                   after == docs[target.value := Document(doc.meta, doc.versions + [v], doc.current, doc.deleted)]
  {
    if Decide(docs, u).Recorded? {
      NumberFits(docs, u);
      CourseIsLegal(NewVersion(docs, u), u);
    }
    hide Sound, FindOwner, Duplicate, Walk, MaxNumber;
  }

  // ---------------------------------------------------------------- reviews and deletions

  /**
   A review takes effect if and only if its document is open to the caller, the version is ready for preview and, for an
   approval, could be indexed. Then the version is approved and current, or rejected; everything else stays as it was.
   */
  lemma ReviewChanges(docs: Library, p: Place, verdict: Verdict, manages: nat -> bool, indexed: bool)
    requires Sound(docs)
    ensures var after := WithReview(docs, p, verdict, manages, indexed);
            if Open(docs, p.document, manages) && At(docs, p) && Get(docs, p).status == PreviewReady && (verdict.Approve? ==> indexed) then
              var doc := docs[p.document];
              var s := if verdict.Approve? then Approved else Rejected;
              after == docs[p.document := Document(doc.meta, doc.versions[p.version := doc.versions[p.version].(status := s, job := s)],
                                                   if verdict.Approve? then Some(p.version) else doc.current, doc.deleted)]
            else after == docs
  {
    hide KeysUnique, WithReview;
    if Open(docs, p.document, manages) && At(docs, p) {
      assert DocumentOk(docs[p.document]) && VersionOk(docs[p.document], p.version);
      ReviewedOnce(docs, p, verdict, manages);
      if ReviewTakes(docs, p, verdict, manages, indexed) {
        ReviewUnfolds(docs, p, verdict, manages, indexed);
      }
    }
    ReviewRefused(docs, p, verdict, manages, indexed);
  }

  lemma ReviewUnfolds(docs: Library, p: Place, verdict: Verdict, manages: nat -> bool, indexed: bool)
    requires ReviewTakes(docs, p, verdict, manages, indexed)
    ensures var doc := docs[p.document];
            var s := if verdict.Approve? then Approved else Rejected;
            WithReview(docs, p, verdict, manages, indexed) ==
              docs[p.document := Document(doc.meta, doc.versions[p.version := doc.versions[p.version].(status := s, job := s)],
                                          if verdict.Approve? then Some(p.version) else doc.current, doc.deleted)]
  {
  }

  lemma ReviewRefused(docs: Library, p: Place, verdict: Verdict, manages: nat -> bool, indexed: bool)
    ensures !ReviewTakes(docs, p, verdict, manages, indexed) ==> WithReview(docs, p, verdict, manages, indexed) == docs
  {
  }

  /** Every version of the document, deleted. */
  function AllDeleted(versions: seq<Version>): (r: seq<Version>)
    ensures |r| == |versions|
    ensures forall i :: 0 <= i < |r| ==> r[i] == versions[i].(status := Deleted, job := Deleted, deleted := true)
  {
    seq(|versions|, i requires 0 <= i < |versions| => versions[i].(status := Deleted, job := Deleted, deleted := true))
  }

  /** A deletion that the caller may make ends every version of the document and nothing else; no other changes anything. */
  lemma DeletionChanges(docs: Library, d: nat, manages: nat -> bool)
    requires Sound(docs)
    ensures WithDeletion(docs, d, manages) ==
              if Open(docs, d, manages) then docs[d := Document(docs[d].meta, AllDeleted(docs[d].versions), None, true)] else docs
  {
    hide KeysUnique;
    if Open(docs, d, manages) {
      var doc := docs[d];
      assert DocumentOk(doc);
      forall i | 0 <= i < |doc.versions| ensures doc.versions[i].status == doc.versions[i].job {
        assert VersionOk(doc, i);
      }
      DeleteIsLegal(doc.versions);
      assert DeleteVersions(doc.versions).value == AllDeleted(doc.versions);
    }
  }
}
