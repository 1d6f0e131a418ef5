/**
 The life of documents: uploads create numbered versions, reviewers approve or reject them, and deletion ends all
 versions of a document. Every call is one transaction; files, storage, parser and indexing are given by their results.
 */
module Documents {
  import opened Wrappers

  datatype Status =
    | Uploaded | Validating | Parsing | PreviewReady | Approved | Rejected | ValidationFailed | ParsingFailed | Deleted

  /** The transition table. */
  function Allowed(s: Status): set<Status> {
    match s
    case Uploaded => {Validating, Deleted}
    case Validating => {Parsing, ValidationFailed, Deleted}
    case Parsing => {PreviewReady, ParsingFailed, Deleted}
    case PreviewReady => {Approved, Rejected, Deleted}
    case Approved => {Deleted}
    case Rejected => {Deleted}
    case ValidationFailed => {Deleted}
    case ParsingFailed => {Deleted}
    case Deleted => {}
  }

  /** What was sent; its fingerprint is taken to be injective. */
  datatype Request = Request(meta: nat, name: string, mediaType: string, data: string, target: Option<nat>)

  datatype Version = Version(
    number: nat, actor: nat, key: string, request: Request, status: Status, job: Status, deleted: bool)

  datatype Document = Document(meta: nat, versions: seq<Version>, current: Option<nat>, deleted: bool)

  type Library = seq<Document>

  /** The `version`-th version of the `document`-th document, counted from zero. */
  datatype Place = Place(document: nat, version: nat)

  datatype Storage = Stored | StoreFailed | StoreMismatch

  /** An upload with the answers of everything it consults; `manages` says which documents the caller may manage. */
  datatype Upload = Upload(
    actor: nat, key: string, request: Request, permitted: bool, manages: nat -> bool, valid: bool, storage: Storage,
    parses: bool)

  datatype Outcome =
    | Forbidden | NotFound | MetadataConflict | IdempotencyConflict | Replayed(place: Place)
    | FailureReplayed(place: Place) | Deduplicated | Recorded(place: Place)

  // ---------------------------------------------------------------- reading the library

  predicate Manageable(docs: Library, d: nat, manages: nat -> bool) {
    d < |docs| && !docs[d].deleted && manages(d)
  }

  predicate At(docs: Library, p: Place) {
    p.document < |docs| && p.version < |docs[p.document].versions|
  }

  function Get(docs: Library, p: Place): Version
    requires At(docs, p)
  {
    docs[p.document].versions[p.version]
  }

  predicate Owns(docs: Library, p: Place, actor: nat, key: string) {
    At(docs, p) && Get(docs, p).actor == actor && Get(docs, p).key == key
  }

  function FindVersion(versions: seq<Version>, actor: nat, key: string): (r: Option<nat>)
    ensures r.Some? ==> r.value < |versions| && versions[r.value].actor == actor && versions[r.value].key == key
    ensures r.None? ==> forall i :: 0 <= i < |versions| ==> versions[i].actor != actor || versions[i].key != key
  {
    if versions == [] then None
    else
      var n := |versions| - 1;
      if versions[n].actor == actor && versions[n].key == key then Some(n) else FindVersion(versions[..n], actor, key)
  }

  /** The version that already carries the caller's idempotency key. */
  function FindOwner(docs: Library, actor: nat, key: string): (r: Option<Place>)
    ensures r.Some? ==> Owns(docs, r.value, actor, key)
    ensures r.None? ==> forall p :: !Owns(docs, p, actor, key)
  {
    if docs == [] then None
    else
      var n := |docs| - 1;
      var here := FindVersion(docs[n].versions, actor, key);
      if here.Some? then Some(Place(n, here.value))
      else
        var r := FindOwner(docs[..n], actor, key);
        assert forall p :: Owns(docs, p, actor, key) ==> Owns(docs[..n], p, actor, key);
        r
  }

  /** A live version of an undeleted document with the same metadata and the same bytes. */
  predicate Duplicate(docs: Library, r: Request) {
    exists d :: 0 <= d < |docs| && !docs[d].deleted && docs[d].meta == r.meta &&
      exists i :: 0 <= i < |docs[d].versions| && LiveCopy(docs[d].versions[i], r)
  }

  predicate LiveCopy(v: Version, r: Request) {
    !v.deleted && v.request.data == r.data && (v.status == PreviewReady || v.status == Approved)
  }

  function Decide(docs: Library, u: Upload): Outcome {
    var target := u.request.target;
    var owner := FindOwner(docs, u.actor, u.key);
    if !u.permitted then Forbidden
    else if target.Some? && !Manageable(docs, target.value, u.manages) then NotFound
    else if target.Some? && docs[target.value].meta != u.request.meta then MetadataConflict
    else if owner.Some? then
      if Get(docs, owner.value).request != u.request then IdempotencyConflict
      else if !Manageable(docs, owner.value.document, u.manages) then NotFound
      else if Get(docs, owner.value).status in {ValidationFailed, ParsingFailed} then FailureReplayed(owner.value)
      else Replayed(owner.value)
    else if u.valid && target.None? && Duplicate(docs, u.request) then Deduplicated
    else if target.None? then Recorded(Place(|docs|, 0))
    else Recorded(Place(target.value, |docs[target.value].versions|))
  }

  // ---------------------------------------------------------------- changing it

  function MaxNumber(versions: seq<Version>): nat {
    if versions == [] then 0
    else
      var front := MaxNumber(versions[..|versions| - 1]);
      if front < versions[|versions| - 1].number then versions[|versions| - 1].number else front
  }

  /** Both checks of a transition: the version's status and its job's. */
  predicate CanMove(v: Version, target: Status) {
    target in Allowed(v.status) && target in Allowed(v.job)
  }

  function Moved(v: Version, target: Status): Version {
    v.(status := target, job := target)
  }

  /** A sequence of transitions; nothing if one of them is refused. */
  function Walk(v: Version, path: seq<Status>): Option<Version>
    decreases |path|
  {
    if path == [] then Some(v)
    else if !CanMove(v, path[0]) then None
    else Walk(Moved(v, path[0]), path[1..])
  }

  /** The statuses an upload runs through after UPLOADED. */
  function Course(u: Upload): seq<Status> {
    if !u.valid || u.storage != Stored then [Validating, ValidationFailed]
    else if !u.parses then [Validating, Parsing, ParsingFailed]
    else [Validating, Parsing, PreviewReady]
  }

  function NewVersion(docs: Library, u: Upload): Version {
    var number := if u.request.target.Some? && u.request.target.value < |docs|
                  then MaxNumber(docs[u.request.target.value].versions) + 1 else 1;
    Version(number, u.actor, u.key, u.request, Uploaded, Uploaded, false)
  }

  function Insert(docs: Library, target: Option<nat>, meta: nat, v: Version): Library
    requires target.Some? ==> target.value < |docs|
  {
    if target.None? then docs + [Document(meta, [v], None, false)]
    else docs[target.value := docs[target.value].(versions := docs[target.value].versions + [v])]
  }

  function WithUpload(docs: Library, u: Upload): Library {
    var v := Walk(NewVersion(docs, u), Course(u));
    if Decide(docs, u).Recorded? && v.Some? then Insert(docs, u.request.target, u.request.meta, v.value) else docs
  }

  function Replace(docs: Library, p: Place, v: Version): Library
    requires At(docs, p)
  {
    docs[p.document := docs[p.document].(versions := docs[p.document].versions[p.version := v])]
  }

  datatype Verdict = Approve | Reject

  function Target(verdict: Verdict): Status {
    if verdict == Approve then Approved else Rejected
  }

  predicate Reviewable(docs: Library, p: Place, manages: nat -> bool) {
    Manageable(docs, p.document, manages) && At(docs, p) && !Get(docs, p).deleted
  }

  /** A review takes effect if the transition is allowed and, for an approval, the version could be indexed. */
  predicate ReviewTakes(docs: Library, p: Place, verdict: Verdict, manages: nat -> bool, indexed: bool) {
    Reviewable(docs, p, manages) && CanMove(Get(docs, p), Target(verdict)) && (verdict == Approve ==> indexed)
  }

  function WithReview(docs: Library, p: Place, verdict: Verdict, manages: nat -> bool, indexed: bool): Library {
    if !ReviewTakes(docs, p, verdict, manages, indexed) then docs
    else
      var next := Replace(docs, p, Moved(Get(docs, p), Target(verdict)));
      if verdict == Approve then next[p.document := next[p.document].(current := Some(p.version))] else next
  }

  function DeleteVersions(versions: seq<Version>): (r: Option<seq<Version>>)
    ensures r.Some? ==> |r.value| == |versions|
  {
    if versions == [] then Some([])
    else
      var front, v := DeleteVersions(versions[..|versions| - 1]), versions[|versions| - 1];
      if front.None? || (v.status != Deleted && !CanMove(v, Deleted)) then None
      else Some(front.value + [(if v.status != Deleted then Moved(v, Deleted) else v).(deleted := true)])
  }

  function WithDeletion(docs: Library, d: nat, manages: nat -> bool): Library {
    if !Manageable(docs, d, manages) then docs
    else
      var versions := DeleteVersions(docs[d].versions);
      if versions.None? then docs else docs[d := docs[d].(versions := versions.value, current := None, deleted := true)]
  }

  // ---------------------------------------------------------------- the service

  class DocumentService {
    var docs: Library

    /** Raises (`false`) instead of making a step that the table does not have. */
    method Transition(p: Place, target: Status) returns (ok: bool)
      requires At(docs, p)
      modifies this
      ensures ok == CanMove(old(Get(docs, p)), target)
      ensures docs == if ok then Replace(old(docs), p, Moved(old(Get(docs, p)), target)) else old(docs)
    {
      var v := Get(docs, p);
      ok := target in Allowed(v.status) && target in Allowed(v.job);
      if ok {
        ReplaceTwice(docs, p, v.(status := target), Moved(v, target));
        docs := Replace(docs, p, v.(status := target));
        docs := Replace(docs, p, Get(docs, p).(job := target));
      }
    }

    method UploadFile(u: Upload) returns (outcome: Outcome)
      modifies this
      ensures outcome == Decide(old(docs), u)
      ensures docs == WithUpload(old(docs), u)
    {
      outcome := Decide(docs, u);
      if !outcome.Recorded? {
        return;
      }
      ghost var before := docs;
      var version := NewVersion(docs, u);
      var p, target, meta := outcome.place, u.request.target, u.request.meta;
      docs := Insert(docs, target, meta, version);
      InsertedAt(before, target, meta, version, p);
      CourseIsLegal(version, u);
      InsertedAt(before, target, meta, Moved(version, Validating), p);
      var ok := Transition(p, Validating);
      if !u.valid || u.storage != Stored {
        ok := Transition(p, ValidationFailed);
      } else {
        InsertedAt(before, target, meta, Moved(version, Parsing), p);
        ok := Transition(p, Parsing);
        ok := Transition(p, if u.parses then PreviewReady else ParsingFailed);
      }
    }

    /** Approves or rejects; an approval that cannot be indexed is rolled back. */
    method Review(p: Place, verdict: Verdict, manages: nat -> bool, indexed: bool) returns (done: bool)
      modifies this
      ensures done == ReviewTakes(old(docs), p, verdict, manages, indexed)
      ensures docs == WithReview(old(docs), p, verdict, manages, indexed)
    {
      done := Reviewable(docs, p, manages);
      if done {
        var saved := docs;
        done := Transition(p, Target(verdict));
        if done && verdict == Approve {
          docs := docs[p.document := docs[p.document].(current := Some(p.version))];
          if !indexed {
            docs := saved;
            done := false;
          }
        }
      }
    }

    method Delete(d: nat, manages: nat -> bool) returns (done: bool)
      modifies this
      ensures docs == WithDeletion(old(docs), d, manages)
      ensures done == (Manageable(old(docs), d, manages) && DeleteVersions(old(docs)[d].versions).Some?)
    {
      done := Manageable(docs, d, manages);
      if !done {
        return;
      }
      var document := docs[d];
      var versions := document.versions;
      for i := 0 to |versions|
        invariant |versions| == |document.versions|
        invariant DeleteVersions(document.versions[..i]) == Some(versions[..i])
        invariant versions[i..] == document.versions[i..]
      {
        var v := versions[i];
        assert v == versions[i..][0] == document.versions[i];
        assert document.versions[..i + 1][..i] == document.versions[..i];
        if v.status != Deleted {
          if !CanMove(v, Deleted) {
            DeleteRefused(document.versions, i);
            done := false;
            return;
          }
          v := Moved(v, Deleted);
        }
        ghost var earlier := versions;
        versions := versions[i := v.(deleted := true)];
        assert versions[..i + 1] == earlier[..i] + [v.(deleted := true)];
        assert versions[i + 1..] == earlier[i..][1..] == document.versions[i..][1..] == document.versions[i + 1..];
      }
      assert document.versions[..|versions|] == document.versions && versions[..|versions|] == versions;
      docs := docs[d := document.(versions := versions, current := None, deleted := true)];
    }
  }

  lemma ReplaceTwice(docs: Library, p: Place, v: Version, w: Version)
    requires At(docs, p)
    ensures At(Replace(docs, p, v), p) && Get(Replace(docs, p, v), p) == v
    ensures Replace(Replace(docs, p, v), p, w) == Replace(docs, p, w)
  {
    var doc := docs[p.document];
    assert doc.versions[p.version := v][p.version := w] == doc.versions[p.version := w];
  }

  lemma InsertedAt(docs: Library, target: Option<nat>, meta: nat, v: Version, p: Place)
    requires target.Some? ==> target.value < |docs|
    requires p == (if target.None? then Place(|docs|, 0) else Place(target.value, |docs[target.value].versions|))
    ensures At(Insert(docs, target, meta, v), p) && Get(Insert(docs, target, meta, v), p) == v
    ensures forall w :: Replace(Insert(docs, target, meta, v), p, w) == Insert(docs, target, meta, w)
  {
    var inserted := Insert(docs, target, meta, v);
    forall w ensures Replace(inserted, p, w) == Insert(docs, target, meta, w) {
      assert Replace(inserted, p, w)[p.document].versions == Insert(docs, target, meta, w)[p.document].versions;
    }
  }

  /** An upload never meets a transition that the table lacks, and ends in one of three statuses. */
  lemma {:induction false} CourseIsLegal(v: Version, u: Upload)
    requires v.status == Uploaded && v.job == Uploaded
    ensures var end := Course(u)[|Course(u)| - 1];
            && Walk(v, Course(u)) == Some(Moved(v, end))
            && end in {ValidationFailed, ParsingFailed, PreviewReady}
  {
    var path := Course(u);
    var v1 := Moved(v, path[0]);
    var v2 := Moved(v1, path[1]);
    assert path[1..][0] == path[1];
    if |path| == 2 {
      assert path[1..][1..] == [];
      assert Walk(v1, path[1..]) == Walk(v2, []);
    } else {
      assert path[1..][1..] == path[2..] && path[2..][0] == path[2] && path[2..][1..] == [];
      assert Walk(v2, path[2..]) == Walk(Moved(v2, path[2]), []);
      assert Walk(v1, path[1..]) == Walk(v2, path[2..]);
    }
  }

  lemma {:induction false} DeleteRefused(versions: seq<Version>, i: nat)
    requires i < |versions| && versions[i].status != Deleted && !CanMove(versions[i], Deleted)
    ensures DeleteVersions(versions).None?
  {
    if i < |versions| - 1 {
      DeleteRefused(versions[..|versions| - 1], i);
    }
  }

  // ---------------------------------------------------------------- invariants

  /** Version numbers run 1..n, statuses of version and job agree and are at rest, and deletion covers all versions. */
  predicate VersionOk(doc: Document, i: nat)
    requires i < |doc.versions|
  {
    var v := doc.versions[i];
    && v.number == i + 1
    && v.status == v.job
    && v.status !in {Uploaded, Validating, Parsing}
    && (v.deleted <==> doc.deleted) && (v.deleted <==> v.status == Deleted)
  }

  /** The current approved version is an approved version of an undeleted document, and is missing only if none is approved. */
  predicate ApprovedOk(doc: Document) {
    match doc.current
    case Some(i) => !doc.deleted && i < |doc.versions| && doc.versions[i].status == Approved
    case None => forall i :: 0 <= i < |doc.versions| ==> doc.versions[i].status != Approved
  }

  predicate DocumentOk(doc: Document) {
    doc.versions != [] && ApprovedOk(doc) && forall i :: 0 <= i < |doc.versions| ==> VersionOk(doc, i)
  }

  /** An idempotency key of an actor belongs to at most one version. */
  ghost predicate KeysUnique(docs: Library) {
    forall p, q, actor, key :: Owns(docs, p, actor, key) && Owns(docs, q, actor, key) ==> p == q
  }

  ghost predicate Sound(docs: Library) {
    (forall d :: 0 <= d < |docs| ==> DocumentOk(docs[d])) && KeysUnique(docs)
  }

  function Rank(s: Status): nat {
    match s
    case Uploaded => 5
    case Validating => 4
    case Parsing => 3
    case PreviewReady => 2
    case Deleted => 0
    case _ => 1
  }

  /** Reachable along the transition table. */
  predicate Reaches(a: Status, b: Status)
    decreases Rank(a)
  {
    a == b || exists m :: m in Allowed(a) && Reaches(m, b)
  }

  lemma StepsDown(a: Status, b: Status)
    requires b in Allowed(a)
    ensures Rank(b) < Rank(a)
  {
  }

  lemma {:induction false} ReachesTransitive(a: Status, b: Status, c: Status)
    requires Reaches(a, b) && Reaches(b, c)
    ensures Reaches(a, c)
    decreases Rank(a)
  {
    hide Allowed, Rank;
    if a != b {
      var m :| m in Allowed(a) && Reaches(m, b);
      StepsDown(a, m);
      ReachesTransitive(m, b, c);
    }
  }

  predicate VersionEvolves(a: Version, b: Version) {
    && b == a.(status := b.status, job := b.job, deleted := b.deleted)
    && Reaches(a.status, b.status)
  }

  predicate DocumentEvolves(a: Document, b: Document) {
    && a.meta == b.meta && (a.deleted ==> b == a) && |a.versions| <= |b.versions|
    && forall i :: 0 <= i < |a.versions| ==> VersionEvolves(a.versions[i], b.versions[i])
  }

  predicate Evolves(before: Library, after: Library) {
    |before| <= |after| && forall d :: 0 <= d < |before| ==> DocumentEvolves(before[d], after[d])
  }

  lemma DocumentEvolvesTransitive(a: Document, b: Document, c: Document)
    requires DocumentEvolves(a, b) && DocumentEvolves(b, c)
    ensures DocumentEvolves(a, c)
  {
    hide Reaches;
    forall i | 0 <= i < |a.versions| ensures VersionEvolves(a.versions[i], c.versions[i]) {
      assert VersionEvolves(a.versions[i], b.versions[i]) && VersionEvolves(b.versions[i], c.versions[i]);
      ReachesTransitive(a.versions[i].status, b.versions[i].status, c.versions[i].status);
    }
  }

  lemma EvolvesTransitive(a: Library, b: Library, c: Library)
    requires Evolves(a, b) && Evolves(b, c)
    ensures Evolves(a, c)
  {
    hide DocumentEvolves;
    forall d | 0 <= d < |a| ensures DocumentEvolves(a[d], c[d]) {
      DocumentEvolvesTransitive(a[d], b[d], c[d]);
    }
  }

  lemma SelfEvolves(docs: Library)
    ensures Evolves(docs, docs)
  {
    assert forall s: Status :: Reaches(s, s);
  }

  // ---------------------------------------------------------------- steps keep them

  /** Owners survive changes that keep each version's actor and key. */
  lemma KeysKept(docs: Library, after: Library)
    requires KeysUnique(docs) && |after| == |docs|
    requires forall p :: At(after, p) ==> At(docs, p) && Get(docs, p).actor == Get(after, p).actor && Get(docs, p).key == Get(after, p).key
    ensures KeysUnique(after)
  {
    forall p, q, actor, key | Owns(after, p, actor, key) && Owns(after, q, actor, key) ensures p == q {
      assert Owns(docs, p, actor, key) && Owns(docs, q, actor, key);
    }
  }

  /** Changing one document soundly, without touching actors and keys, is sound. */
  lemma ChangeKeeps(docs: Library, d: nat, doc: Document)
    requires Sound(docs) && d < |docs| && DocumentOk(doc) && DocumentEvolves(docs[d], doc)
    requires |doc.versions| == |docs[d].versions|
    ensures Sound(docs[d := doc]) && Evolves(docs, docs[d := doc])
  {
    hide DocumentOk, KeysUnique, Reaches;
    var after := docs[d := doc];
    SelfEvolves(docs);
    forall p | At(after, p)
      ensures At(docs, p) && Get(docs, p).actor == Get(after, p).actor && Get(docs, p).key == Get(after, p).key
    {
      if p.document == d {
        assert VersionEvolves(docs[d].versions[p.version], doc.versions[p.version]);
      }
    }
    KeysKept(docs, after);
  }

  lemma {:induction false} MaxIsLast(versions: seq<Version>)
    requires forall i :: 0 <= i < |versions| ==> versions[i].number == i + 1
    ensures MaxNumber(versions) == |versions|
  {
    if versions != [] {
      MaxIsLast(versions[..|versions| - 1]);
    }
  }

  predicate Fresh(docs: Library, target: Option<nat>, v: Version) {
    && v.status == v.job && v.status in {ValidationFailed, ParsingFailed, PreviewReady} && !v.deleted
    && (target.None? ==> v.number == 1)
    && (target.Some? ==> target.value < |docs| && !docs[target.value].deleted && v.number == |docs[target.value].versions| + 1)
  }

  lemma GrownDocument(doc: Document, v: Version)
    requires DocumentOk(doc) && !doc.deleted && v.number == |doc.versions| + 1
    requires v.status == v.job && v.status in {ValidationFailed, ParsingFailed, PreviewReady} && !v.deleted
    ensures DocumentOk(doc.(versions := doc.versions + [v]))
    ensures DocumentEvolves(doc, doc.(versions := doc.versions + [v]))
  {
    var grown := doc.(versions := doc.versions + [v]);
    forall i | 0 <= i < |grown.versions| ensures VersionOk(grown, i) {
      if i < |doc.versions| {
        assert VersionOk(doc, i);
      }
    }
    assert forall s: Status :: Reaches(s, s);
  }

  lemma {:induction false} InsertKeeps(docs: Library, target: Option<nat>, meta: nat, v: Version)
    requires Sound(docs) && Fresh(docs, target, v) && FindOwner(docs, v.actor, v.key).None?
    ensures Sound(Insert(docs, target, meta, v)) && Evolves(docs, Insert(docs, target, meta, v))
  {
    hide DocumentOk, KeysUnique, DocumentEvolves, FindOwner;
    var after := Insert(docs, target, meta, v);
    SelfEvolves(docs);
    if target.Some? {
      GrownDocument(docs[target.value], v);
    } else {
      NewDocumentOk(meta, v);
    }
    InsertKeys(docs, target, meta, v);
  }

  lemma NewDocumentOk(meta: nat, v: Version)
    requires v.status == v.job && v.status in {ValidationFailed, ParsingFailed, PreviewReady} && !v.deleted && v.number == 1
    ensures DocumentOk(Document(meta, [v], None, false))
  {
  }

  lemma InsertKeys(docs: Library, target: Option<nat>, meta: nat, v: Version)
    requires KeysUnique(docs) && (target.Some? ==> target.value < |docs|)
    requires forall p :: !Owns(docs, p, v.actor, v.key)
    ensures KeysUnique(Insert(docs, target, meta, v))
  {
    var after := Insert(docs, target, meta, v);
    var place := if target.None? then Place(|docs|, 0) else Place(target.value, |docs[target.value].versions|);
    forall p, actor, key | Owns(after, p, actor, key)
      ensures if p == place then actor == v.actor && key == v.key else Owns(docs, p, actor, key)
    {
    }
  }

  lemma UploadKeeps(docs: Library, u: Upload)
    requires Sound(docs)
    ensures Sound(WithUpload(docs, u)) && Evolves(docs, WithUpload(docs, u))
  {
    hide KeysUnique, Evolves, FindOwner, Insert, Duplicate;
    SelfEvolves(docs);
    if Decide(docs, u).Recorded? {
      var v := NewVersion(docs, u);
      CourseIsLegal(v, u);
      var end := Walk(v, Course(u)).value;
      NumberFits(docs, u);
      assert Fresh(docs, u.request.target, end);
      InsertKeeps(docs, u.request.target, u.request.meta, end);
    }
  }

  lemma NumberFits(docs: Library, u: Upload)
    requires Sound(docs) && Decide(docs, u).Recorded?
    ensures u.request.target.Some? ==> u.request.target.value < |docs| && !docs[u.request.target.value].deleted
    ensures NewVersion(docs, u).number == Decide(docs, u).place.version + 1
  {
    hide KeysUnique, FindOwner, Duplicate;
    if u.request.target.Some? {
      var doc := docs[u.request.target.value];
      assert DocumentOk(doc);
      forall i | 0 <= i < |doc.versions| ensures doc.versions[i].number == i + 1 {
        assert VersionOk(doc, i);
      }
      MaxIsLast(doc.versions);
    }
  }

  lemma ReviewKeeps(docs: Library, p: Place, verdict: Verdict, manages: nat -> bool, indexed: bool)
    requires Sound(docs)
    ensures Sound(WithReview(docs, p, verdict, manages, indexed))
    ensures Evolves(docs, WithReview(docs, p, verdict, manages, indexed))
  {
    hide KeysUnique, Evolves, DocumentOk, DocumentEvolves;
    SelfEvolves(docs);
    if ReviewTakes(docs, p, verdict, manages, indexed) {
      var doc := docs[p.document];
      ReviewedDocument(doc, p.version, verdict);
      ChangeKeeps(docs, p.document, AfterReview(doc, p.version, verdict));
      assert WithReview(docs, p, verdict, manages, indexed) == docs[p.document := AfterReview(doc, p.version, verdict)];
    }
  }

  function AfterReview(doc: Document, i: nat, verdict: Verdict): Document
    requires i < |doc.versions|
  {
    doc.(versions := doc.versions[i := Moved(doc.versions[i], Target(verdict))],
         current := if verdict == Approve then Some(i) else doc.current)
  }

  lemma ReviewedDocument(doc: Document, i: nat, verdict: Verdict)
    requires DocumentOk(doc) && !doc.deleted && i < |doc.versions| && CanMove(doc.versions[i], Target(verdict))
    ensures DocumentOk(AfterReview(doc, i, verdict)) && DocumentEvolves(doc, AfterReview(doc, i, verdict))
  {
    var after := AfterReview(doc, i, verdict);
    assert VersionOk(doc, i);
    forall k | 0 <= k < |doc.versions| ensures VersionOk(after, k) && VersionEvolves(doc.versions[k], after.versions[k]) {
      assert VersionOk(doc, k);
      assert Target(verdict) in Allowed(doc.versions[i].status) && Reaches(Target(verdict), Target(verdict));
    }
  }

  /** Deletion meets no illegal transition: every version ends as DELETED. */
  lemma {:induction false} DeleteIsLegal(versions: seq<Version>)
    requires forall i :: 0 <= i < |versions| ==> versions[i].status == versions[i].job
    ensures DeleteVersions(versions).Some?
    ensures forall i :: 0 <= i < |versions| ==>
              DeleteVersions(versions).value[i] == versions[i].(status := Deleted, job := Deleted, deleted := true)
  {
    if versions != [] {
      DeleteIsLegal(versions[..|versions| - 1]);
    }
  }

  lemma DeletedDocument(doc: Document)
    requires DocumentOk(doc) && !doc.deleted
    ensures DeleteVersions(doc.versions).Some?
    ensures var after := doc.(versions := DeleteVersions(doc.versions).value, current := None, deleted := true);
            DocumentOk(after) && DocumentEvolves(doc, after)
  {
    forall i | 0 <= i < |doc.versions| ensures doc.versions[i].status == doc.versions[i].job {
      assert VersionOk(doc, i);
    }
    DeleteIsLegal(doc.versions);
    var after := doc.(versions := DeleteVersions(doc.versions).value, current := None, deleted := true);
    forall i | 0 <= i < |doc.versions| ensures VersionOk(after, i) && VersionEvolves(doc.versions[i], after.versions[i]) {
      assert VersionOk(doc, i);
      assert Deleted in Allowed(doc.versions[i].status) && Reaches(Deleted, Deleted);
    }
  }

  lemma DeleteKeeps(docs: Library, d: nat, manages: nat -> bool)
    requires Sound(docs)
    ensures Sound(WithDeletion(docs, d, manages)) && Evolves(docs, WithDeletion(docs, d, manages))
    ensures Manageable(docs, d, manages) ==> DeleteVersions(docs[d].versions).Some?
  {
    hide KeysUnique, Evolves, DocumentOk, DocumentEvolves, DeleteVersions;
    SelfEvolves(docs);
    if Manageable(docs, d, manages) {
      DeletedDocument(docs[d]);
      ChangeKeeps(docs, d, docs[d].(versions := DeleteVersions(docs[d].versions).value, current := None, deleted := true));
    }
  }

  // ---------------------------------------------------------------- whole histories

  datatype Event =
    | UploadCall(u: Upload)
    | ReviewCall(p: Place, verdict: Verdict, manages: nat -> bool, indexed: bool)
    | DeleteCall(d: nat, manages: nat -> bool)

  function Apply(docs: Library, e: Event): Library {
    match e
    case UploadCall(u) => WithUpload(docs, u)
    case ReviewCall(p, verdict, manages, indexed) => WithReview(docs, p, verdict, manages, indexed)
    case DeleteCall(d, manages) => WithDeletion(docs, d, manages)
  }

  function Play(events: seq<Event>): Library {
    if events == [] then [] else Apply(Play(events[..|events| - 1]), events[|events| - 1])
  }

  lemma ApplyKeeps(docs: Library, e: Event)
    requires Sound(docs)
    ensures Sound(Apply(docs, e)) && Evolves(docs, Apply(docs, e))
  {
    match e
    case UploadCall(u) => UploadKeeps(docs, u);
    case ReviewCall(p, verdict, manages, indexed) => ReviewKeeps(docs, p, verdict, manages, indexed);
    case DeleteCall(d, manages) => DeleteKeeps(docs, d, manages);
  }

  /** Over every history the library is sound, and versions move only along the table. */
  lemma {:induction false} EveryHistory(events: seq<Event>, k: nat)
    requires k <= |events|
    ensures Sound(Play(events)) && Evolves(Play(events[..k]), Play(events))
  {
    hide Apply, DocumentOk, DocumentEvolves;
    if k == |events| {
      assert events[..k] == events;
      SelfEvolves(Play(events));
    }
    if events != [] {
      var front := events[..|events| - 1];
      EveryHistory(front, if k < |events| then k else 0);
      ApplyKeeps(Play(front), events[|events| - 1]);
      if k < |events| {
        assert front[..k] == events[..k];
        EvolvesTransitive(Play(front[..k]), Play(front), Play(events));
      }
    }
  }

  /** In a sound library a version can be reviewed exactly while it is ready for preview. */
  lemma ReviewedOnce(docs: Library, p: Place, verdict: Verdict, manages: nat -> bool)
    requires Sound(docs) && Manageable(docs, p.document, manages) && At(docs, p)
    ensures ReviewTakes(docs, p, verdict, manages, true) <==> Get(docs, p).status == PreviewReady
  {
    hide KeysUnique;
    assert DocumentOk(docs[p.document]);
    assert VersionOk(docs[p.document], p.version);
  }

  // ---------------------------------------------------------------- retries

  /** What the caller of a repeated upload is told: the fate of the version its key owns. */
  function Answer(docs: Library, p: Place): Outcome
    requires At(docs, p)
  {
    if Get(docs, p).status in {ValidationFailed, ParsingFailed} then FailureReplayed(p) else Replayed(p)
  }

  lemma {:induction false} OwnerFound(docs: Library, p: Place, actor: nat, key: string)
    requires KeysUnique(docs) && Owns(docs, p, actor, key)
    ensures FindOwner(docs, actor, key) == Some(p)
  {
    hide Owns, FindOwner;
  }

  /** An upload that was recorded owns its key from then on, whatever happens later. */
  lemma RecordedOwns(docs: Library, u: Upload, later: Library)
    requires Sound(docs) && Decide(docs, u).Recorded? && Evolves(WithUpload(docs, u), later)
    ensures var p := Decide(docs, u).place;
            Owns(later, p, u.actor, u.key) && Get(later, p).request == u.request
  {
    hide Sound, FindOwner, Duplicate, Reaches;
    var v := NewVersion(docs, u);
    CourseIsLegal(v, u);
    var end := Walk(v, Course(u)).value;
    var p := Decide(docs, u).place;
    InsertedAt(docs, u.request.target, u.request.meta, end, p);
    var after := WithUpload(docs, u);
    assert DocumentEvolves(after[p.document], later[p.document]);
    assert VersionEvolves(Get(after, p), Get(later, p));
  }

  /** The target of the upload, if it names one, is open to the caller and has the stated metadata. */
  predicate TargetFits(docs: Library, u: Upload) {
    u.request.target.Some? ==>
      Manageable(docs, u.request.target.value, u.manages) && docs[u.request.target.value].meta == u.request.meta
  }

  /** An upload under a key taken by the version at `p`: it changes nothing, and is answered by that version or refused. */
  predicate RetrySafe(docs: Library, p: Place, again: Upload) {
    && At(docs, p)
    && WithUpload(docs, again) == docs
    && ((again.permitted && TargetFits(docs, again) && again.request == Get(docs, p).request &&
         Manageable(docs, p.document, again.manages)) ==> Decide(docs, again) == Answer(docs, p))
    && (again.request != Get(docs, p).request ==>
        Decide(docs, again) in {Forbidden, NotFound, MetadataConflict, IdempotencyConflict})
  }

  lemma OwnedIsSafe(docs: Library, p: Place, again: Upload)
    requires KeysUnique(docs) && Owns(docs, p, again.actor, again.key)
    ensures RetrySafe(docs, p, again)
  {
    hide KeysUnique, FindOwner, Duplicate, Walk;
    OwnerFound(docs, p, again.actor, again.key);
  }

  /**
   Retrying is safe in every history: once an upload was recorded, no later upload with its key changes anything. The
   same request is answered with the version it made, a different one never is.
   */
  lemma {:induction false} RetryIsSafe(events: seq<Event>, k: nat, again: Upload)
    requires k < |events| && events[k].UploadCall? && Decide(Play(events[..k]), events[k].u).Recorded?
    requires again.actor == events[k].u.actor && again.key == events[k].u.key
    ensures var docs, p := Play(events), Decide(Play(events[..k]), events[k].u).place;
            RetrySafe(docs, p, again) && Get(docs, p).request == events[k].u.request
  {
    hide Sound, Decide, WithUpload, Evolves, Play, Owns, RetrySafe;
    var docs, first := Play(events), events[k].u;
    EveryHistory(events[..k], 0);
    EveryHistory(events, k + 1);
    assert events[..k + 1][..k] == events[..k];
    PlayedUpload(events[..k + 1]);
    RecordedOwns(Play(events[..k]), first, docs);
    SoundKeys(docs);
    OwnedIsSafe(docs, Decide(Play(events[..k]), first).place, again);
    SafeIsAt(docs, Decide(Play(events[..k]), first).place, again);
  }

  lemma SafeIsAt(docs: Library, p: Place, again: Upload)
    requires RetrySafe(docs, p, again)
    ensures At(docs, p)
  {
  }

  lemma RecordedMeta(docs: Library, u: Upload, later: Library)
    requires Decide(docs, u).Recorded? && Evolves(WithUpload(docs, u), later)
    ensures At(later, Decide(docs, u).place) && later[Decide(docs, u).place.document].meta == u.request.meta
  {
    hide FindOwner, Duplicate, VersionEvolves;
    var v, p := NewVersion(docs, u), Decide(docs, u).place;
    CourseIsLegal(v, u);
    InsertedAt(docs, u.request.target, u.request.meta, Walk(v, Course(u)).value, p);
    assert DocumentEvolves(WithUpload(docs, u)[p.document], later[p.document]);
  }

  lemma LiveIsDuplicate(docs: Library, p: Place, r: Request)
    requires Sound(docs) && At(docs, p) && docs[p.document].meta == r.meta && Get(docs, p).request.data == r.data
    requires Get(docs, p).status in {PreviewReady, Approved}
    ensures Duplicate(docs, r)
  {
    hide KeysUnique;
    assert DocumentOk(docs[p.document]);
    assert VersionOk(docs[p.document], p.version);
    assert LiveCopy(docs[p.document].versions[p.version], r);
  }

  /**
   As long as a recorded file awaits review or is approved, nobody can add it again as a new document with the same
   metadata: the upload is answered as a duplicate and changes nothing.
   */
  lemma {:induction false} LiveFileIsNotAddedAgain(events: seq<Event>, k: nat, again: Upload)
    requires k < |events| && events[k].UploadCall? && Decide(Play(events[..k]), events[k].u).Recorded?
    requires again.permitted && again.valid && again.request.target.None? && FindOwner(Play(events), again.actor, again.key).None?
    requires again.request.meta == events[k].u.request.meta && again.request.data == events[k].u.request.data
    ensures var docs, p := Play(events), Decide(Play(events[..k]), events[k].u).place;
            && At(docs, p)
            && (Get(docs, p).status in {PreviewReady, Approved} ==>
                  Decide(docs, again) == Deduplicated && WithUpload(docs, again) == docs)
  {
    hide Sound, Evolves, Play, Owns, Duplicate, FindOwner, Walk;
    var docs, first := Play(events), events[k].u;
    var p := Decide(Play(events[..k]), first).place;
    EveryHistory(events[..k], 0);
    EveryHistory(events, k + 1);
    assert events[..k + 1][..k] == events[..k];
    PlayedUpload(events[..k + 1]);
    RecordedOwns(Play(events[..k]), first, docs);
    RecordedMeta(Play(events[..k]), first, docs);
    if Get(docs, p).status in {PreviewReady, Approved} {
      LiveIsDuplicate(docs, p, again.request);
    }
  }

  lemma {:induction false} PlayedUpload(events: seq<Event>)
    requires events != [] && events[|events| - 1].UploadCall?
    ensures Play(events) == WithUpload(Play(events[..|events| - 1]), events[|events| - 1].u)
  {
  }

  lemma SoundKeys(docs: Library)
    requires Sound(docs)
    ensures KeysUnique(docs)
  {
  }
}
