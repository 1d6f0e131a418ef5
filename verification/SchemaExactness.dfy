/**
 Where compiling a schema changes nothing at all: schemas that use the keywords of the provider's dialect and `const` only.
 */
module SchemaExactness {
  import opened Wrappers
  import opened ProviderSchema

  /** The keywords of the provider's dialect. */
  const DIALECT: set<string> := {
    "type", "properties", "required", "items", "enum", "anyOf", "minimum", "maximum", "minLength", "maxLength",
    "minItems", "maxItems", "nullable", "format"
  }

  ghost predicate DistinctKeys(fields: seq<Field>) {
    forall i, j :: 0 <= i < j < |fields| ==> fields[i].key != fields[j].key
  }

  ghost predicate HasKey(fields: seq<Field>, key: string) {
    exists i :: 0 <= i < |fields| && fields[i].key == key
  }

  /**
   A schema that the dialect can say: a reference alone, or keywords of the dialect but `nullable`, with `const` for an
   enumeration, and so at every depth.
   */
  ghost predicate Sayable(j: Json) {
    j.Obj? && DistinctKeys(j.fields) &&
    if HasKey(j.fields, "$ref") then |j.fields| == 1
    else
      && !(HasKey(j.fields, "const") && HasKey(j.fields, "enum"))
      && forall i :: 0 <= i < |j.fields| ==> SayableKeyword(j.fields[i])
  }

  ghost predicate SayableKeyword(f: Field) {
    && (f.key == "const" || (f.key in DIALECT && f.key != "nullable"))
    && (f.key == "anyOf" ==> f.value.Arr? && forall i :: 0 <= i < |f.value.items| ==> Sayable(f.value.items[i]))
    && (f.key == "properties" ==> f.value.Obj? && forall i :: 0 <= i < |f.value.fields| ==> Sayable(f.value.fields[i].value))
    && (f.key == "items" ==> Sayable(f.value))
  }

  ghost predicate AllSayable(defs: Definitions) {
    forall name :: name in defs ==> Sayable(defs[name])
  }

  // ---------------------------------------------------------------- every keyword is kept

  /** What a keyword of the dialect, or `const`, becomes. */
  function Target(defs: Definitions, rank: map<string, nat>, level: nat, f: Field): Field {
    if f.key == "const" then Field("enum", Arr([f.value])) else Field(f.key, Compiled(defs, rank, level, f))
  }

  lemma Unfolds(defs: Definitions, rank: map<string, nat>, level: nat, fields: seq<Field>)
    requires fields != [] && InlineFields(defs, rank, level, fields).Some?
    requires var f := fields[|fields| - 1]; f.key == "const" || f.key in DIALECT
    ensures var front, f := fields[..|fields| - 1], fields[|fields| - 1];
            var target := Target(defs, rank, level, f);
            && InlineFields(defs, rank, level, front).Some?
            && InlineFields(defs, rank, level, fields).value == Put(InlineFields(defs, rank, level, front).value, target.key, target.value)
  {
    hide Inline, InlineValues, Put;
  }

  /** Every keyword of the dialect is there after inlining, with its operand inlined, and nothing else is. */
  lemma {:induction false} KeywordsKept(defs: Definitions, rank: map<string, nat>, level: nat, fields: seq<Field>)
    requires InlineFields(defs, rank, level, fields).Some? && DistinctKeys(fields)
    requires !(HasKey(fields, "const") && HasKey(fields, "enum"))
    requires forall i :: 0 <= i < |fields| ==> fields[i].key == "const" || fields[i].key in DIALECT
    ensures var done := InlineFields(defs, rank, level, fields).value;
            && (forall i :: 0 <= i < |fields| ==> Target(defs, rank, level, fields[i]) in done)
            && (forall x :: x in done ==> exists i :: 0 <= i < |fields| && x == Target(defs, rank, level, fields[i]))
    decreases |fields|
  {
    hide InlineFields, Inline, InlineValues, Put, Compiled;
    if fields == [] {
      NothingInlined(defs, rank, level);
    } else {
      var n := |fields| - 1;
      var front := fields[..n];
      Unfolds(defs, rank, level, fields);
      FrontKeys(fields);
      KeywordsKept(defs, rank, level, front);
      var before, done := InlineFields(defs, rank, level, front).value, InlineFields(defs, rank, level, fields).value;
      var target := Target(defs, rank, level, fields[n]);
      forall i | 0 <= i < |fields| ensures Target(defs, rank, level, fields[i]) in done {
        if i < n {
          TargetsDiffer(defs, rank, level, fields, i, n);
          assert Target(defs, rank, level, front[i]) in before;
        }
      }
      forall x | x in done ensures exists i :: 0 <= i < |fields| && x == Target(defs, rank, level, fields[i]) {
        if x != target {
          assert x in before;
          var i :| 0 <= i < n && x == Target(defs, rank, level, front[i]);
          assert x == Target(defs, rank, level, fields[i]);
        } else {
          assert x == Target(defs, rank, level, fields[n]);
        }
      }
    }
  }

  lemma {:induction false} NothingInlined(defs: Definitions, rank: map<string, nat>, level: nat)
    ensures InlineFields(defs, rank, level, []) == Some([])
  {
  }

  lemma FrontKeys(fields: seq<Field>)
    requires fields != [] && DistinctKeys(fields) && !(HasKey(fields, "const") && HasKey(fields, "enum"))
    ensures var front := fields[..|fields| - 1]; DistinctKeys(front) && !(HasKey(front, "const") && HasKey(front, "enum"))
  {
    var front := fields[..|fields| - 1];
    forall key | HasKey(front, key) ensures HasKey(fields, key) {
      var i :| 0 <= i < |front| && front[i].key == key;
      assert fields[i].key == key;
    }
  }

  lemma TargetsDiffer(defs: Definitions, rank: map<string, nat>, level: nat, fields: seq<Field>, i: nat, n: nat)
    requires i < n < |fields| && DistinctKeys(fields) && !(HasKey(fields, "const") && HasKey(fields, "enum"))
    ensures Target(defs, rank, level, fields[i]).key != Target(defs, rank, level, fields[n]).key
  {
    hide Compiled, HasKey;
    KeyIsThere(fields, i);
    KeyIsThere(fields, n);
  }

  lemma KeyIsThere(fields: seq<Field>, i: nat)
    requires i < |fields|
    ensures HasKey(fields, fields[i].key)
  {
  }

  // ---------------------------------------------------------------- inlining admits nothing new

  lemma {:induction false} RefAlone(j: Json)
    requires Sayable(j) && Get(j.fields, "$ref").Some?
    ensures |j.fields| == 1 && j.fields[0] == Field("$ref", Get(j.fields, "$ref").value)
  {
    var i :| 0 <= i < |j.fields| && j.fields[i] == Field("$ref", Get(j.fields, "$ref").value);
    assert HasKey(j.fields, "$ref");
  }

  lemma {:induction false} NoRef(j: Json)
    requires Sayable(j) && Get(j.fields, "$ref").None?
    ensures DistinctKeys(j.fields) && !(HasKey(j.fields, "const") && HasKey(j.fields, "enum"))
    ensures forall i :: 0 <= i < |j.fields| ==> SayableKeyword(j.fields[i])
  {
    hide SayableKeyword;
  }

  /** Whatever the inlined schema admits, the schema admits. */
  lemma {:induction false} InlineTightens(defs: Definitions, rank: map<string, nat>, c: Constraint, level: nat, j: Json, v: Json)
    requires Acyclic(defs, rank) && AllSayable(defs)
    requires Closed(defs, rank, level, j) && Sayable(j) && Inline(defs, rank, level, j).Some?
    requires Accepts(Wire(c), 0, Inline(defs, rank, level, j).value, v)
    ensures Accepts(Strict(defs, rank, c), level, j, v)
    decreases level, j, 2
  {
    hide InlineFields, ClosedKeyword, Sayable, SayableKeyword, Get, Accepts, Holds;
    if Get(j.fields, "$ref").Some? {
      RefAlone(j);
      var name := RefName(Get(j.fields, "$ref").value).value;
      InlineTightens(defs, rank, c, rank[name], defs[name], v);
      RefAccepts(defs, rank, c, level, j, v);
    } else {
      NoRef(j);
      FieldsTighten(defs, rank, c, level, j.fields, v);
      AllAccept(Strict(defs, rank, c), level, j.fields, v);
    }
  }

  /** A reference that stands alone means what it refers to. */
  lemma {:induction false} RefAccepts(defs: Definitions, rank: map<string, nat>, c: Constraint, level: nat, j: Json, v: Json)
    requires Acyclic(defs, rank) && Closed(defs, rank, level, j) && Get(j.fields, "$ref").Some?
    requires |j.fields| == 1 && j.fields[0] == Field("$ref", Get(j.fields, "$ref").value)
    requires var name := RefName(Get(j.fields, "$ref").value).value; Accepts(Strict(defs, rank, c), rank[name], defs[name], v)
    ensures Accepts(Strict(defs, rank, c), level, j, v)
  {
    hide Acyclic, Get;
    assert Holds(Strict(defs, rank, c), level, j.fields[0], v);
  }

  lemma {:induction false} AllAccept(r: Reading, level: nat, fields: seq<Field>, v: Json)
    requires Acyclic(r.defs, r.rank) && AllHold(r, level, fields, v)
    ensures Accepts(r, level, Obj(fields), v)
  {
    hide Acyclic, Holds;
  }

  lemma {:induction false} FieldsTighten(defs: Definitions, rank: map<string, nat>, c: Constraint, level: nat, fields: seq<Field>, v: Json)
    requires Acyclic(defs, rank) && AllSayable(defs) && InlineFields(defs, rank, level, fields).Some?
    requires DistinctKeys(fields) && !(HasKey(fields, "const") && HasKey(fields, "enum"))
    requires forall i :: 0 <= i < |fields| ==> ClosedKeyword(defs, rank, level, fields[i]) && SayableKeyword(fields[i])
    requires Accepts(Wire(c), 0, Obj(InlineFields(defs, rank, level, fields).value), v)
    ensures AllHold(Strict(defs, rank, c), level, fields, v)
    decreases level, fields, 1
  {
    hide Holds, Accepts, ClosedKeyword, Inline, InlineFields, InlineValues, Acyclic, HasKey, DistinctKeys, Sayable, Compiled, AllSayable;
    var done := InlineFields(defs, rank, level, fields).value;
    KeywordsKept(defs, rank, level, fields);
    AcceptsMeans(c, done, v);
    assert Field("nullable", Bool(true)) !in done by {
      NoMark(defs, rank, level, fields);
    }
    forall i | 0 <= i < |fields| ensures Holds(Strict(defs, rank, c), level, fields[i], v) {
      var target := Target(defs, rank, level, fields[i]);
      assert target in done;
      KeywordTightens(defs, rank, c, level, fields[i], v);
    }
  }

  lemma NoMark(defs: Definitions, rank: map<string, nat>, level: nat, fields: seq<Field>)
    requires forall i :: 0 <= i < |fields| ==> SayableKeyword(fields[i])
    ensures forall i :: 0 <= i < |fields| ==> Target(defs, rank, level, fields[i]).key != "nullable"
  {
    hide Compiled, Sayable;
  }

  lemma {:induction false} KeywordTightens(defs: Definitions, rank: map<string, nat>, c: Constraint, level: nat, f: Field, v: Json)
    requires Acyclic(defs, rank) && AllSayable(defs) && ClosedKeyword(defs, rank, level, f) && SayableKeyword(f)
    requires Holds(Wire(c), 0, Target(defs, rank, level, f), v)
    ensures Holds(Strict(defs, rank, c), level, f, v)
    decreases level, f, 1
  {
    hide Accepts, Closed, Inline, Acyclic, Sayable, AllSayable;
    if f.key == "anyOf" {
      AnyOfTightens(defs, rank, c, level, f, v);
    } else if f.key == "properties" {
      PropertiesTighten(defs, rank, c, level, f, v);
    } else if f.key == "items" {
      InlineCloses(defs, rank, level, f.value);
      if v.Arr? {
        forall k | 0 <= k < |v.items| ensures Accepts(Strict(defs, rank, c), level, f.value, v.items[k]) {
          InlineTightens(defs, rank, c, level, f.value, v.items[k]);
        }
      }
    } else if f.key != "const" {
      PlainUnchanged(defs, rank, level, f.value);
    }
  }

  lemma {:induction false} AnyOfTightens(defs: Definitions, rank: map<string, nat>, c: Constraint, level: nat, f: Field, v: Json)
    requires Acyclic(defs, rank) && AllSayable(defs) && f.key == "anyOf" && ClosedKeyword(defs, rank, level, f) && SayableKeyword(f)
    requires Holds(Wire(c), 0, Target(defs, rank, level, f), v)
    ensures Holds(Strict(defs, rank, c), level, f, v)
    decreases level, f, 0
  {
    hide Accepts, Closed, Acyclic, InlineAll, InlineFields, Sayable, AllSayable;
    var items := f.value.items;
    AllClose(defs, rank, level, items);
    var inlined := InlineAll(defs, rank, level, items).value;
    assert Compiled(defs, rank, level, f) == Arr(inlined);
    var i :| 0 <= i < |items| && Accepts(Wire(c), 0, inlined[i], v);
    InlineAllAt(defs, rank, level, items, i);
    InlineTightens(defs, rank, c, level, items[i], v);
  }

  lemma {:induction false} PropertiesTighten(defs: Definitions, rank: map<string, nat>, c: Constraint, level: nat, f: Field, v: Json)
    requires Acyclic(defs, rank) && AllSayable(defs) && f.key == "properties" && ClosedKeyword(defs, rank, level, f) && SayableKeyword(f)
    requires Holds(Wire(c), 0, Target(defs, rank, level, f), v)
    ensures Holds(Strict(defs, rank, c), level, f, v)
    decreases level, f, 0
  {
    hide Accepts, Closed, Acyclic, InlineValues, Inline, Sayable, AllSayable;
    var fields := f.value.fields;
    ValuesClose(defs, rank, level, fields);
    var inner := InlineValues(defs, rank, level, fields).value;
    assert Compiled(defs, rank, level, f) == Obj(inner);
    if v.Obj? {
      forall i, k | 0 <= i < |fields| && 0 <= k < |v.fields| && v.fields[k].key == fields[i].key
        ensures Accepts(Strict(defs, rank, c), level, fields[i].value, v.fields[k].value)
      {
        InlineValuesAt(defs, rank, level, fields, i);
        assert Accepts(Wire(c), 0, inner[i].value, v.fields[k].value);
        InlineTightens(defs, rank, c, level, fields[i].value, v.fields[k].value);
      }
    }
  }

  /** For schemas that the dialect can say, inlining changes nothing. */
  lemma {:induction false} InlineExact(defs: Definitions, rank: map<string, nat>, c: Constraint, level: nat, j: Json, v: Json)
    requires Acyclic(defs, rank) && AllSayable(defs) && Closed(defs, rank, level, j) && Sayable(j)
    ensures Inline(defs, rank, level, j).Some?
    ensures Accepts(Wire(c), 0, Inline(defs, rank, level, j).value, v) <==> Accepts(Strict(defs, rank, c), level, j, v)
  {
    hide Accepts, Closed, Acyclic, Inline, Sayable, AllSayable, RefFree;
    InlineCloses(defs, rank, level, j);
    if Accepts(Strict(defs, rank, c), level, j, v) {
      InlineRelaxes(defs, rank, c, level, j, v);
    }
    if Accepts(Wire(c), 0, Inline(defs, rank, level, j).value, v) {
      InlineTightens(defs, rank, c, level, j, v);
    }
  }

  /**
   Compilation preserves the meaning of a schema that the dialect can say, at every depth, whenever every choice between null
   and one variant stands alone in the inlined schema: both accept exactly the same values.
   */
  lemma {:induction false} CompileExact(defs: Definitions, rank: map<string, nat>, c: Constraint, level: nat, root: Json, v: Json)
    requires Acyclic(defs, rank) && AllSayable(defs) && Closed(defs, rank, level, root) && Sayable(root)
    ensures Inline(defs, rank, level, root).Some? && Compile(defs, rank, level, root).Some?
    ensures OnlyChoices(Inline(defs, rank, level, root).value) ==>
              (Accepts(Wire(c), 0, Compile(defs, rank, level, root).value, v) <==> Accepts(Strict(defs, rank, c), level, root, v))
  {
    hide Accepts, Closed, Acyclic, Inline, Sayable, AllSayable, RefFree, OnlyChoices, Nullable;
    InlineCloses(defs, rank, level, root);
    InlineExact(defs, rank, c, level, root, v);
    if OnlyChoices(Inline(defs, rank, level, root).value) {
      NullableExact(c, Inline(defs, rank, level, root).value, v);
    }
  }

  // ---------------------------------------------------------------- the output is in the dialect

  /** Only keywords of the dialect, at every depth, and no references. */
  ghost predicate InDialect(j: Json) {
    j.Obj? && forall i :: 0 <= i < |j.fields| ==> DialectKeyword(j.fields[i])
  }

  ghost predicate DialectKeyword(f: Field) {
    && f.key in DIALECT
    && (f.key == "anyOf" ==> f.value.Arr? && forall i :: 0 <= i < |f.value.items| ==> InDialect(f.value.items[i]))
    && (f.key == "properties" ==> f.value.Obj? && forall i :: 0 <= i < |f.value.fields| ==> InDialect(f.value.fields[i].value))
    && (f.key == "items" ==> InDialect(f.value))
  }

  lemma {:induction false} RefFreeIsDialect(j: Json)
    requires RefFree(j)
    ensures InDialect(j)
    decreases j, 1
  {
    hide RefFreeKeyword, DialectKeyword;
    forall i | 0 <= i < |j.fields| ensures DialectKeyword(j.fields[i]) {
      KeywordIsDialect(j.fields[i]);
    }
  }

  lemma {:induction false} KeywordIsDialect(f: Field)
    requires RefFreeKeyword(f)
    ensures DialectKeyword(f)
    decreases f, 0
  {
    hide RefFree, InDialect, Plain;
    if f.key == "anyOf" {
      forall i | 0 <= i < |f.value.items| ensures InDialect(f.value.items[i]) {
        RefFreeIsDialect(f.value.items[i]);
      }
    } else if f.key == "properties" {
      forall i | 0 <= i < |f.value.fields| ensures InDialect(f.value.fields[i].value) {
        RefFreeIsDialect(f.value.fields[i].value);
      }
    } else if f.key == "items" {
      RefFreeIsDialect(f.value);
    }
  }

  /** Whatever closed schema is compiled, the output uses the dialect only. */
  lemma {:induction false} CompilesToDialect(defs: Definitions, rank: map<string, nat>, level: nat, root: Json)
    requires Acyclic(defs, rank) && Closed(defs, rank, level, root)
    ensures Compile(defs, rank, level, root).Some? && InDialect(Compile(defs, rank, level, root).value)
  {
    hide Closed, Acyclic, Inline, RefFree, InDialect, Nullable;
    InlineCloses(defs, rank, level, root);
    NullableRefFree(Inline(defs, rank, level, root).value);
    RefFreeIsDialect(Nullable(Inline(defs, rank, level, root).value));
  }

  // ---------------------------------------------------------------- what can be inlined

  /** Every reference that inlining comes to resolves to a definition below it, and properties are dictionaries. */
  ghost predicate Resolvable(defs: Definitions, rank: map<string, nat>, level: nat, j: Json)
    decreases level, j, 1
  {
    match j
    case Arr(items) => forall i :: 0 <= i < |items| ==> Resolvable(defs, rank, level, items[i])
    case Obj(fields) =>
      if Get(fields, "$ref").Some? then
        var name := RefName(Get(fields, "$ref").value);
        && name.Some? && name.value in defs && name.value in rank && rank[name.value] < level
        && Resolvable(defs, rank, rank[name.value], defs[name.value])
      else forall i :: 0 <= i < |fields| ==> ResolvableKeyword(defs, rank, level, fields[i])
    case _ => true
  }

  /** What is dropped may hold anything, and so may `const`. */
  ghost predicate ResolvableKeyword(defs: Definitions, rank: map<string, nat>, level: nat, f: Field)
    decreases level, f, 0
  {
    f.key in DIALECT ==>
      if f.key == "properties" then
        f.value.Obj? && forall i :: 0 <= i < |f.value.fields| ==> Resolvable(defs, rank, level, f.value.fields[i].value)
      else Resolvable(defs, rank, level, f.value)
  }

  /** Inlining succeeds if and only if every reference it comes to resolves, and properties are dictionaries. */
  lemma {:induction false} InlineSucceedsExactly(defs: Definitions, rank: map<string, nat>, level: nat, j: Json)
    ensures Inline(defs, rank, level, j).Some? <==> Resolvable(defs, rank, level, j)
    decreases level, j, 1
  {
    hide InlineFields, InlineAll, ResolvableKeyword;
    if j.Arr? {
      AllSucceed(defs, rank, level, j.items);
    } else if j.Obj? && Get(j.fields, "$ref").Some? {
      var name := RefName(Get(j.fields, "$ref").value);
      if name.Some? && name.value in defs && name.value in rank && rank[name.value] < level {
        InlineSucceedsExactly(defs, rank, rank[name.value], defs[name.value]);
      }
    } else if j.Obj? {
      FieldsSucceed(defs, rank, level, j.fields);
    }
  }

  lemma {:induction false} AllSucceed(defs: Definitions, rank: map<string, nat>, level: nat, items: seq<Json>)
    ensures InlineAll(defs, rank, level, items).Some? <==> forall i :: 0 <= i < |items| ==> Resolvable(defs, rank, level, items[i])
    decreases level, items, 0
  {
    hide Inline, Resolvable;
    if items != [] {
      var n := |items| - 1;
      AllSucceed(defs, rank, level, items[..n]);
      InlineSucceedsExactly(defs, rank, level, items[n]);
      assert forall i :: 0 <= i < n ==> items[..n][i] == items[i];
    }
  }

  lemma {:induction false} ValuesSucceed(defs: Definitions, rank: map<string, nat>, level: nat, fields: seq<Field>)
    ensures InlineValues(defs, rank, level, fields).Some? <==>
              forall i :: 0 <= i < |fields| ==> Resolvable(defs, rank, level, fields[i].value)
    decreases level, fields, 0
  {
    hide Inline, Resolvable;
    if fields != [] {
      var n := |fields| - 1;
      ValuesSucceed(defs, rank, level, fields[..n]);
      InlineSucceedsExactly(defs, rank, level, fields[n].value);
      assert forall i :: 0 <= i < n ==> fields[..n][i] == fields[i];
    }
  }

  lemma {:induction false} FieldsSucceed(defs: Definitions, rank: map<string, nat>, level: nat, fields: seq<Field>)
    ensures InlineFields(defs, rank, level, fields).Some? <==>
              forall i :: 0 <= i < |fields| ==> ResolvableKeyword(defs, rank, level, fields[i])
    decreases level, fields, 0
  {
    hide Inline, InlineValues, Resolvable, Put;
    if fields != [] {
      var n := |fields| - 1;
      FieldsSucceed(defs, rank, level, fields[..n]);
      assert forall i :: 0 <= i < n ==> fields[..n][i] == fields[i];
      if fields[n].key == "properties" {
        if fields[n].value.Obj? {
          ValuesSucceed(defs, rank, level, fields[n].value.fields);
        }
      } else {
        InlineSucceedsExactly(defs, rank, level, fields[n].value);
      }
    }
  }

  // ---------------------------------------------------------------- no choice with null is left

  /** The dictionary offers a choice between null and one other variant. */
  ghost predicate OffersNull(fields: seq<Field>) {
    && Get(fields, "anyOf").Some? && Get(fields, "anyOf").value.Arr?
    && var variants := Get(fields, "anyOf").value.items;
       NULL_SCHEMA in variants && OneBut(variants, NULL_SCHEMA)
  }

  ghost predicate AllAre(variants: seq<Json>, x: Json) {
    forall m :: 0 <= m < |variants| ==> variants[m] == x
  }

  /** The variant at `k` is the only other one. */
  ghost predicate Odd(variants: seq<Json>, x: Json, k: int) {
    0 <= k < |variants| && variants[k] != x && AllAre(variants[..k], x) && AllAre(variants[k + 1..], x)
  }

  ghost predicate OneBut(variants: seq<Json>, x: Json) {
    exists k :: Odd(variants, x, k)
  }

  /** No schema in it, at any depth, offers such a choice. */
  ghost predicate NullFree(j: Json) {
    j.Obj? && !OffersNull(j.fields) && forall i :: 0 <= i < |j.fields| ==> NullFreeKeyword(j.fields[i])
  }

  ghost predicate NullFreeKeyword(f: Field) {
    if f.key == "anyOf" then f.value.Arr? && forall i :: 0 <= i < |f.value.items| ==> NullFree(f.value.items[i])
    else if f.key == "properties" then f.value.Obj? && forall i :: 0 <= i < |f.value.fields| ==> NullFree(f.value.fields[i].value)
    else f.key == "items" ==> NullFree(f.value)
  }

  lemma AllSnoc(front: seq<Json>, last: Json, x: Json)
    ensures AllAre(front + [last], x) <==> last == x && AllAre(front, x)
  {
    var all := front + [last];
    assert all[|front|] == last;
    assert forall m :: 0 <= m < |front| ==> all[m] == front[m];
  }

  lemma OddSnoc(front: seq<Json>, last: Json, x: Json, k: nat)
    requires k < |front|
    ensures Odd(front + [last], x, k) <==> last == x && Odd(front, x, k)
  {
    var all := front + [last];
    assert all[..k] == front[..k] && all[k + 1..] == front[k + 1..] + [last];
    AllSnoc(front[k + 1..], last, x);
    hide AllAre;
  }

  lemma OtherSnoc(front: seq<Json>, last: Json, x: Json)
    ensures OneBut(front + [last], x) <==> if last == x then OneBut(front, x) else AllAre(front, x)
  {
    hide Odd, AllAre;
    var all, n := front + [last], |front|;
    if k :| Odd(all, x, k) {
      OddInside(all, x, k);
      if k < n {
        OddSnoc(front, last, x, k);
      } else {
        LastOdd(front, last, x);
      }
    }
    if last == x && OneBut(front, x) {
      var k :| Odd(front, x, k);
      OddInside(front, x, k);
      OddSnoc(front, last, x, k);
    }
    if last != x && AllAre(front, x) {
      LastOdd(front, last, x);
    }
  }

  lemma OddInside(variants: seq<Json>, x: Json, k: int)
    requires Odd(variants, x, k)
    ensures 0 <= k < |variants| && variants[k] != x
  {
  }

  lemma LastOdd(front: seq<Json>, last: Json, x: Json)
    ensures Odd(front + [last], x, |front|) <==> last != x && AllAre(front, x)
  {
    var all := front + [last];
    assert all[..|front|] == front && all[|front| + 1..] == [];
  }

  lemma {:induction false} OneNonNull(variants: seq<Json>)
    ensures |NonNull(variants)| == 0 <==> AllAre(variants, NULL_SCHEMA)
    ensures |NonNull(variants)| == 1 <==> OneBut(variants, NULL_SCHEMA)
  {
    if variants != [] {
      var front, last := variants[..|variants| - 1], variants[|variants| - 1];
      assert variants == front + [last];
      hide AllAre, OneBut;
      OneNonNull(front);
      AllSnoc(front, last, NULL_SCHEMA);
      OtherSnoc(front, last, NULL_SCHEMA);
    }
  }

  lemma {:induction false} OffersExactly(fields: seq<Field>)
    requires Get(fields, "anyOf").Some? && Get(fields, "anyOf").value.Arr? ==>
               forall i :: 0 <= i < |Get(fields, "anyOf").value.items| ==> Get(fields, "anyOf").value.items[i].Obj?
    ensures OffersNull(fields) <==> Collapses(fields)
  {
    hide Get, NonNull, OneBut;
    if Get(fields, "anyOf").Some? && Get(fields, "anyOf").value.Arr? {
      var variants := Get(fields, "anyOf").value.items;
      OneNonNull(variants);
      if |NonNull(variants)| == 1 {
        assert NonNull(variants)[0] in NonNull(variants);
        if NULL_SCHEMA in variants {
          var m :| 0 <= m < |variants| && variants[m] == NULL_SCHEMA;
        }
      }
    }
  }

  lemma {:induction false} MarkKeepsChoice(fields: seq<Field>)
    ensures Get(Put(fields, "nullable", Bool(true)), "anyOf") == Get(fields, "anyOf")
  {
    if fields != [] {
      if fields[0].key == "nullable" {
        assert ([Field("nullable", Bool(true))] + Drop(fields[1..], "nullable"))[1..] == Drop(fields[1..], "nullable");
        DropKeepsChoice(fields[1..]);
      } else {
        assert ([fields[0]] + Put(fields[1..], "nullable", Bool(true)))[1..] == Put(fields[1..], "nullable", Bool(true));
        MarkKeepsChoice(fields[1..]);
      }
    }
  }

  lemma {:induction false} DropKeepsChoice(fields: seq<Field>)
    ensures Get(Drop(fields, "nullable"), "anyOf") == Get(fields, "anyOf")
  {
    if fields != [] {
      DropKeepsChoice(fields[1..]);
      if fields[0].key != "nullable" {
        assert ([fields[0]] + Drop(fields[1..], "nullable"))[1..] == Drop(fields[1..], "nullable");
      } else {
        assert [] + Drop(fields[1..], "nullable") == Drop(fields[1..], "nullable");
      }
    }
  }

  lemma {:induction false} MarkedNullFree(fields: seq<Field>)
    requires NullFree(Obj(fields))
    ensures NullFree(Obj(Put(fields, "nullable", Bool(true))))
  {
    hide Put, Get, NullFreeKeyword;
    MarkKeepsChoice(fields);
    var marked := Put(fields, "nullable", Bool(true));
    forall i | 0 <= i < |marked| ensures NullFreeKeyword(marked[i]) {
      if marked[i].key == "nullable" {
        MarkNullFree();
      } else {
        assert marked[i] in fields;
      }
    }
  }

  lemma MarkNullFree()
    ensures NullFreeKeyword(Field("nullable", Bool(true)))
  {
  }

  lemma CollapseNullFree(fields: seq<Field>)
    requires forall i :: 0 <= i < |fields| ==> NullFreeKeyword(fields[i])
    ensures NullFree(Collapse(fields))
  {
    hide Put, NonNull, Get, Collapses, OffersNull, NullFreeKeyword, NullFree;
    if Get(fields, "anyOf").Some? {
      var choice := Field("anyOf", Get(fields, "anyOf").value);
      var n :| 0 <= n < |fields| && fields[n] == choice;
      ChoiceNullFree(choice);
    }
    OffersExactly(fields);
    if Collapses(fields) {
      CollapsedTo(fields);
      var x := NonNull(Get(fields, "anyOf").value.items)[0];
      MarkedNullFree(x.fields);
    } else {
      KeptNullFree(fields);
    }
  }

  lemma {:induction false} ChoiceNullFree(f: Field)
    requires f.key == "anyOf" && NullFreeKeyword(f)
    ensures f.value.Arr? && forall i :: 0 <= i < |f.value.items| ==> NullFree(f.value.items[i]) && f.value.items[i].Obj?
  {
  }

  lemma KeptNullFree(fields: seq<Field>)
    requires !OffersNull(fields) && forall i :: 0 <= i < |fields| ==> NullFreeKeyword(fields[i])
    ensures NullFree(Obj(fields))
  {
  }

  lemma {:induction false} CollapsedTo(fields: seq<Field>)
    requires Collapses(fields)
    ensures Get(fields, "anyOf").Some? && Get(fields, "anyOf").value.Arr? && |NonNull(Get(fields, "anyOf").value.items)| == 1
    ensures var x := NonNull(Get(fields, "anyOf").value.items)[0];
            x in Get(fields, "anyOf").value.items && x.Obj? && Collapse(fields) == Obj(Put(x.fields, "nullable", Bool(true)))
  {
    hide Put, NonNull, Get;
    assert NonNull(Get(fields, "anyOf").value.items)[0] in NonNull(Get(fields, "anyOf").value.items);
  }

  /** After the nullable step no choice between null and one other variant is left, at any depth. */
  lemma {:induction false} NoNullChoiceLeft(j: Json)
    requires RefFree(j)
    ensures NullFree(Nullable(j))
    decreases j, 1
  {
    hide RefFreeKeyword, NullFreeKeyword, NullFree, Collapse;
    var mapped := Mapped(j.fields);
    forall i | 0 <= i < |j.fields| ensures NullFreeKeyword(mapped[i]) {
      KeywordNullFree(j.fields[i]);
    }
    CollapseNullFree(mapped);
  }

  lemma {:induction false} KeywordNullFree(f: Field)
    requires RefFreeKeyword(f)
    ensures NullFreeKeyword(Field(f.key, Nullable(f.value)))
    decreases f, 0
  {
    hide RefFree, NullFree, Collapse;
    if f.key == "anyOf" {
      forall i | 0 <= i < |f.value.items| ensures NullFree(Nullable(f.value).items[i]) {
        NoNullChoiceLeft(f.value.items[i]);
      }
    } else if f.key == "properties" {
      PropertiesKept(f.value.fields);
      forall i | 0 <= i < |f.value.fields| ensures NullFree(Mapped(f.value.fields)[i].value) {
        NoNullChoiceLeft(f.value.fields[i].value);
      }
    } else if f.key == "items" {
      NoNullChoiceLeft(f.value);
    }
  }
}
