/**
 Compiling a JSON schema into the reduced dialect of a provider: references are inlined, unsupported keywords are
 dropped and an optional variant becomes `nullable`.

 The meaning of schemas follows JSON Schema 2020-12 (sections 8.2.3.1 and 10.2.1.2 of Core, 6.1.2 and 6.1.3 of
 Validation). Keywords that only constrain a value without containing schemas are given by an arbitrary predicate.
 */
module ProviderSchema {
  import opened Wrappers

  datatype Json = Null | Bool(b: bool) | Number(n: int) | Str(s: string) | Arr(items: seq<Json>) | Obj(fields: seq<Field>)

  datatype Field = Field(key: string, value: Json)

  function Get(fields: seq<Field>, key: string): (r: Option<Json>)
    ensures r.Some? <==> exists i :: 0 <= i < |fields| && fields[i].key == key
    ensures r.Some? ==> exists i :: 0 <= i < |fields| && fields[i] == Field(key, r.value)
  {
    if fields == [] then None
    else if fields[0].key == key then
      assert fields[0] == Field(key, fields[0].value);
      Some(fields[0].value)
    else
      var rest := Get(fields[1..], key);
      assert forall i :: 0 <= i < |fields[1..]| ==> fields[1..][i] == fields[i + 1];
      assert rest.None? ==> forall i :: 0 <= i < |fields| && fields[i].key == key ==> fields[1..][i - 1].key == key;
      rest
  }

  /** Assignment to a dictionary: the key keeps its place if it is already there. */
  function Put(fields: seq<Field>, key: string, value: Json): (r: seq<Field>)
    ensures forall i :: 0 <= i < |r| ==> r[i] == Field(key, value) || (r[i].key != key && r[i] in fields)
    ensures Field(key, value) in r
    ensures forall f :: f in fields && f.key != key ==> f in r
  {
    if fields == [] then [Field(key, value)]
    else if fields[0].key == key then [Field(key, value)] + Drop(fields[1..], key)
    else [fields[0]] + Put(fields[1..], key, value)
  }

  /** Keys are unique in a dictionary; dropping later duplicates keeps them so. */
  function Drop(fields: seq<Field>, key: string): (r: seq<Field>)
    ensures forall f :: f in r <==> f in fields && f.key != key
  {
    if fields == [] then [] else (if fields[0].key == key then [] else [fields[0]]) + Drop(fields[1..], key)
  }

  const SUPPORTED: set<string> := {
    "type", "properties", "required", "items", "enum", "anyOf", "minimum", "maximum", "minLength", "maxLength",
    "minItems", "maxItems", "nullable", "format"
  }

  const REF_PREFIX := "#/$defs/"

  type Definitions = map<string, Json>

  /** Text, numbers and the like, and lists of them: nothing that compilation looks into. */
  predicate Plain(j: Json) {
    match j
    case Arr(items) => forall i :: 0 <= i < |items| ==> Plain(items[i])
    case Obj(_) => false
    case _ => true
  }

  function RefName(j: Json): Option<string> {
    if j.Str? && REF_PREFIX <= j.s then Some(j.s[|REF_PREFIX|..]) else None
  }

  /**
   A schema whose references resolve, with every definition referring only to definitions of smaller rank, so that
   references cannot run in a circle.
   */
  ghost predicate Closed(defs: Definitions, rank: map<string, nat>, level: nat, j: Json) {
    j.Obj? &&
    if Get(j.fields, "$ref").Some? then
      var name := RefName(Get(j.fields, "$ref").value);
      name.Some? && name.value in defs && name.value in rank && rank[name.value] < level
    else
      forall i :: 0 <= i < |j.fields| ==> ClosedKeyword(defs, rank, level, j.fields[i])
  }

  ghost predicate ClosedKeyword(defs: Definitions, rank: map<string, nat>, level: nat, f: Field) {
    if f.key == "anyOf" then
      f.value.Arr? && forall i :: 0 <= i < |f.value.items| ==> Closed(defs, rank, level, f.value.items[i])
    else if f.key == "properties" then
      f.value.Obj? && forall i :: 0 <= i < |f.value.fields| ==> Closed(defs, rank, level, f.value.fields[i].value)
    else if f.key == "items" then Closed(defs, rank, level, f.value)
    else f.key in SUPPORTED || f.key == "const" ==> Plain(f.value)
  }

  /** Definitions are closed below their own rank: the acyclicity of `$defs`. */
  ghost predicate Acyclic(defs: Definitions, rank: map<string, nat>) {
    forall name :: name in defs ==> name in rank && Closed(defs, rank, rank[name], defs[name])
  }

  // ---------------------------------------------------------------- meaning

  /** How a keyword without subschemas constrains a value. */
  type Constraint = (string, Json, Json) -> bool

  /** A reading of schemas: the definitions references point to and whether `nullable` admits null. */
  datatype Reading = Reading(defs: Definitions, rank: map<string, nat>, constraint: Constraint, wire: bool)

  ghost predicate Accepts(r: Reading, level: nat, j: Json, v: Json)
    requires Acyclic(r.defs, r.rank)
    decreases level, j, 1
  {
    j.Obj? &&
    ((r.wire && v == Null && Field("nullable", Bool(true)) in j.fields) ||
     forall i :: 0 <= i < |j.fields| ==> Holds(r, level, j.fields[i], v))
  }

  ghost predicate Holds(r: Reading, level: nat, f: Field, v: Json)
    requires Acyclic(r.defs, r.rank)
    decreases level, f, 0
  {
    if f.key == "$ref" then
      var name := RefName(f.value);
      name.Some? && name.value in r.defs && name.value in r.rank && r.rank[name.value] < level &&
      Accepts(r, r.rank[name.value], r.defs[name.value], v)
    else if f.key == "const" then v == f.value
    else if f.key == "enum" then f.value.Arr? && v in f.value.items
    else if f.key == "anyOf" then
      f.value.Arr? && exists i :: 0 <= i < |f.value.items| && Accepts(r, level, f.value.items[i], v)
    else if f.key == "properties" then
      f.value.Obj? && (v.Obj? ==>
        forall i, k :: 0 <= i < |f.value.fields| && 0 <= k < |v.fields| && v.fields[k].key == f.value.fields[i].key ==>
          Accepts(r, level, f.value.fields[i].value, v.fields[k].value))
    else if f.key == "items" then v.Arr? ==> forall k :: 0 <= k < |v.items| ==> Accepts(r, level, f.value, v.items[k])
    else if f.key == "type" && f.value == Str("null") then v == Null
    else if f.key == "nullable" then true
    else r.constraint(f.key, f.value, v)
  }

  // ---------------------------------------------------------------- inlining

  /**
   `_inline` on any node; nothing when the source raises. References are followed below `level` only, which bounds
   the recursion and excludes nothing that is acyclic.
   */
  function Inline(defs: Definitions, rank: map<string, nat>, level: nat, j: Json): Option<Json>
    decreases level, j, 1
  {
    match j
    case Arr(items) =>
      var r := InlineAll(defs, rank, level, items);
      if r.None? then None else Some(Arr(r.value))
    case Obj(fields) =>
      if Get(fields, "$ref").Some? then
        var name := RefName(Get(fields, "$ref").value);
        if name.None? || name.value !in defs || name.value !in rank || rank[name.value] >= level then None
        else Inline(defs, rank, rank[name.value], defs[name.value])
      else
        var r := InlineFields(defs, rank, level, fields);
        if r.None? then None else Some(Obj(r.value))
    case _ => Some(j)
  }

  function InlineAll(defs: Definitions, rank: map<string, nat>, level: nat, items: seq<Json>): (r: Option<seq<Json>>)
    ensures r.Some? ==> |r.value| == |items|
    decreases level, items, 0
  {
    if items == [] then Some([])
    else
      var front := InlineAll(defs, rank, level, items[..|items| - 1]);
      var last := Inline(defs, rank, level, items[|items| - 1]);
      if front.None? || last.None? then None else Some(front.value + [last.value])
  }

  /** The values of a `properties` dictionary. */
  function InlineValues(defs: Definitions, rank: map<string, nat>, level: nat, fields: seq<Field>): (r: Option<seq<Field>>)
    ensures r.Some? ==> |r.value| == |fields|
    decreases level, fields, 0
  {
    if fields == [] then Some([])
    else
      var front := InlineValues(defs, rank, level, fields[..|fields| - 1]);
      var last := fields[|fields| - 1];
      var value := Inline(defs, rank, level, last.value);
      if front.None? || value.None? then None else Some(front.value + [Field(last.key, value.value)])
  }

  /** The loop that fills the transformed dictionary. */
  function InlineFields(defs: Definitions, rank: map<string, nat>, level: nat, fields: seq<Field>): Option<seq<Field>>
    decreases level, fields, 0
  {
    if fields == [] then Some([])
    else
      var front := InlineFields(defs, rank, level, fields[..|fields| - 1]);
      if front.None? then None
      else
        var f := fields[|fields| - 1];
        if f.key == "const" then Some(Put(front.value, "enum", Arr([f.value])))
        else if f.key !in SUPPORTED then front
        else if f.key == "properties" then
          if !f.value.Obj? then None
          else
            var inner := InlineValues(defs, rank, level, f.value.fields);
            if inner.None? then None else Some(Put(front.value, f.key, Obj(inner.value)))
        else
          var value := Inline(defs, rank, level, f.value);
          if value.None? then None else Some(Put(front.value, f.key, value.value))
  }

  /** The loop of `_inline` over the entries of a dictionary. */
  method TransformFields(defs: Definitions, rank: map<string, nat>, level: nat, fields: seq<Field>)
    returns (transformed: Option<seq<Field>>)
    ensures transformed == InlineFields(defs, rank, level, fields)
  {
    hide Inline, InlineValues, Put;
    var filled := [];
    for i := 0 to |fields|
      invariant InlineFields(defs, rank, level, fields[..i]) == Some(filled)
    {
      assert fields[..i + 1][..i] == fields[..i];
      var key, value := fields[i].key, fields[i].value;
      if key == "const" {
        filled := Put(filled, "enum", Arr([value]));
        continue;
      }
      if key !in SUPPORTED {
        continue;
      }
      if key == "properties" {
        if !value.Obj? || InlineValues(defs, rank, level, value.fields).None? {
          Fails(defs, rank, level, fields, i + 1);
          return None;
        }
        filled := Put(filled, key, Obj(InlineValues(defs, rank, level, value.fields).value));
      } else {
        var inner := Inline(defs, rank, level, value);
        if inner.None? {
          Fails(defs, rank, level, fields, i + 1);
          return None;
        }
        filled := Put(filled, key, inner.value);
      }
    }
    assert fields[..|fields|] == fields;
    return Some(filled);
  }

  /** A failing entry fails the whole dictionary. */
  lemma {:induction false} Fails(defs: Definitions, rank: map<string, nat>, level: nat, fields: seq<Field>, n: nat)
    requires n <= |fields| && InlineFields(defs, rank, level, fields[..n]).None?
    ensures InlineFields(defs, rank, level, fields).None?
    decreases |fields|
  {
    hide Inline, InlineValues, Put;
    if n == |fields| {
      assert fields[..n] == fields;
    } else {
      assert fields[..|fields| - 1][..n] == fields[..n];
      Fails(defs, rank, level, fields[..|fields| - 1], n);
    }
  }

  // ---------------------------------------------------------------- the nullable form

  const NULL_SCHEMA := Obj([Field("type", Str("null"))])

  function NonNull(variants: seq<Json>): (r: seq<Json>)
    ensures forall x :: x in r <==> x in variants && x != NULL_SCHEMA
    ensures |r| <= |variants|
    ensures |r| == |variants| <==> NULL_SCHEMA !in variants
  {
    if variants == [] then []
    else
      var front, last := NonNull(variants[..|variants| - 1]), variants[|variants| - 1];
      assert variants == variants[..|variants| - 1] + [last];
      if last == NULL_SCHEMA then front else front + [last]
  }

  /** The dictionary offers null and exactly one other variant. */
  predicate Collapses(fields: seq<Field>) {
    var choice := Get(fields, "anyOf");
    && choice.Some? && choice.value.Arr?
    && |NonNull(choice.value.items)| == 1 && |choice.value.items| != 1
    && NonNull(choice.value.items)[0].Obj?
  }

  /** Replaces a choice between null and one other variant by that variant, marked nullable. */
  function Collapse(fields: seq<Field>): Json {
    if Collapses(fields) then
      Obj(Put(NonNull(Get(fields, "anyOf").value.items)[0].fields, "nullable", Bool(true)))
    else Obj(fields)
  }

  function Nullable(j: Json): Json
    decreases j, 1
  {
    match j
    case Arr(items) => Arr(NullableAll(items))
    case Obj(fields) => Collapse(Mapped(fields))
    case _ => j
  }

  function NullableAll(items: seq<Json>): (r: seq<Json>)
    ensures |r| == |items| && forall i :: 0 <= i < |r| ==> r[i] == Nullable(items[i])
    decreases items, 0
  {
    if items == [] then [] else NullableAll(items[..|items| - 1]) + [Nullable(items[|items| - 1])]
  }

  function Mapped(fields: seq<Field>): (r: seq<Field>)
    ensures |r| == |fields| && forall i :: 0 <= i < |r| ==> r[i] == Field(fields[i].key, Nullable(fields[i].value))
    decreases fields, 0
  {
    if fields == [] then []
    else
      var last := fields[|fields| - 1];
      Mapped(fields[..|fields| - 1]) + [Field(last.key, Nullable(last.value))]
  }

  /** The whole compilation of a schema without its definitions. */
  function Compile(defs: Definitions, rank: map<string, nat>, level: nat, root: Json): Option<Json> {
    var r := Inline(defs, rank, level, root);
    if r.None? then None else Some(Nullable(r.value))
  }

  // ---------------------------------------------------------------- inlining terminates and leaves no reference

  lemma {:induction false} PlainUnchanged(defs: Definitions, rank: map<string, nat>, level: nat, j: Json)
    requires Plain(j)
    ensures Inline(defs, rank, level, j) == Some(j)
    decreases level, j, 1
  {
    if j.Arr? {
      PlainAllUnchanged(defs, rank, level, j.items);
    }
  }

  lemma {:induction false} PlainAllUnchanged(defs: Definitions, rank: map<string, nat>, level: nat, items: seq<Json>)
    requires forall i :: 0 <= i < |items| ==> Plain(items[i])
    ensures InlineAll(defs, rank, level, items) == Some(items)
    decreases level, items, 0
  {
    if items != [] {
      PlainAllUnchanged(defs, rank, level, items[..|items| - 1]);
      PlainUnchanged(defs, rank, level, items[|items| - 1]);
      assert items == items[..|items| - 1] + [items[|items| - 1]];
    }
  }

  /** A compiled schema: no reference anywhere that a schema can stand. */
  predicate RefFree(j: Json) {
    j.Obj? && forall i :: 0 <= i < |j.fields| ==> RefFreeKeyword(j.fields[i])
  }

  predicate RefFreeKeyword(f: Field) {
    if f.key == "anyOf" then f.value.Arr? && forall i :: 0 <= i < |f.value.items| ==> RefFree(f.value.items[i])
    else if f.key == "properties" then
      f.value.Obj? && forall i :: 0 <= i < |f.value.fields| ==> RefFree(f.value.fields[i].value)
    else if f.key == "items" then RefFree(f.value)
    else f.key in SUPPORTED && Plain(f.value)
  }

  lemma {:induction false} InlineAllAt(defs: Definitions, rank: map<string, nat>, level: nat, items: seq<Json>, i: nat)
    requires InlineAll(defs, rank, level, items).Some? && i < |items|
    ensures Inline(defs, rank, level, items[i]) == Some(InlineAll(defs, rank, level, items).value[i])
    decreases |items|
  {
    hide Inline;
    if i < |items| - 1 {
      InlineAllAt(defs, rank, level, items[..|items| - 1], i);
    }
  }

  lemma {:induction false} InlineValuesAt(defs: Definitions, rank: map<string, nat>, level: nat, fields: seq<Field>, i: nat)
    requires InlineValues(defs, rank, level, fields).Some? && i < |fields|
    ensures Inline(defs, rank, level, fields[i].value).Some?
    ensures InlineValues(defs, rank, level, fields).value[i] == Field(fields[i].key, Inline(defs, rank, level, fields[i].value).value)
    decreases |fields|
  {
    hide Inline;
    if i < |fields| - 1 {
      InlineValuesAt(defs, rank, level, fields[..|fields| - 1], i);
    }
  }

  /** Closed schemas compile, and to schemas without references. */
  lemma {:induction false} InlineCloses(defs: Definitions, rank: map<string, nat>, level: nat, j: Json)
    requires Acyclic(defs, rank) && Closed(defs, rank, level, j)
    ensures Inline(defs, rank, level, j).Some? && RefFree(Inline(defs, rank, level, j).value)
    decreases level, j, 1
  {
    hide InlineFields, RefFreeKeyword, ClosedKeyword;
    if Get(j.fields, "$ref").Some? {
      var name := RefName(Get(j.fields, "$ref").value).value;
      InlineCloses(defs, rank, rank[name], defs[name]);
    } else {
      FieldsClose(defs, rank, level, j.fields);
    }
  }

  lemma {:induction false} AllClose(defs: Definitions, rank: map<string, nat>, level: nat, items: seq<Json>)
    requires Acyclic(defs, rank) && forall i :: 0 <= i < |items| ==> Closed(defs, rank, level, items[i])
    ensures InlineAll(defs, rank, level, items).Some?
    ensures forall i :: 0 <= i < |items| ==> RefFree(InlineAll(defs, rank, level, items).value[i])
    decreases level, items, 0
  {
    hide Inline, RefFree, Closed;
    if items != [] {
      AllClose(defs, rank, level, items[..|items| - 1]);
      InlineCloses(defs, rank, level, items[|items| - 1]);
    }
  }

  lemma {:induction false} ValuesClose(defs: Definitions, rank: map<string, nat>, level: nat, fields: seq<Field>)
    requires Acyclic(defs, rank) && forall i :: 0 <= i < |fields| ==> Closed(defs, rank, level, fields[i].value)
    ensures InlineValues(defs, rank, level, fields).Some?
    ensures forall i :: 0 <= i < |fields| ==> RefFree(InlineValues(defs, rank, level, fields).value[i].value)
    decreases level, fields, 0
  {
    hide Inline, RefFree, Closed;
    if fields != [] {
      ValuesClose(defs, rank, level, fields[..|fields| - 1]);
      InlineCloses(defs, rank, level, fields[|fields| - 1].value);
    }
  }

  lemma {:induction false} FieldsClose(defs: Definitions, rank: map<string, nat>, level: nat, fields: seq<Field>)
    requires Acyclic(defs, rank) && forall i :: 0 <= i < |fields| ==> ClosedKeyword(defs, rank, level, fields[i])
    ensures InlineFields(defs, rank, level, fields).Some?
    ensures forall i :: 0 <= i < |InlineFields(defs, rank, level, fields).value| ==>
              RefFreeKeyword(InlineFields(defs, rank, level, fields).value[i])
    decreases level, fields, 0
  {
    hide RefFree, Closed, Plain;
    if fields != [] {
      var front, f := fields[..|fields| - 1], fields[|fields| - 1];
      FieldsClose(defs, rank, level, front);
      var done := InlineFields(defs, rank, level, front).value;
      if f.key == "const" {
        ConstIsPlain(f.value);
        PutRefFree(done, "enum", Arr([f.value]));
      } else if f.key in SUPPORTED {
        if f.key == "properties" {
          ValuesClose(defs, rank, level, f.value.fields);
          PutRefFree(done, f.key, Obj(InlineValues(defs, rank, level, f.value.fields).value));
        } else {
          if f.key == "anyOf" {
            AllClose(defs, rank, level, f.value.items);
          } else if f.key == "items" {
            InlineCloses(defs, rank, level, f.value);
          } else {
            PlainUnchanged(defs, rank, level, f.value);
          }
          PutRefFree(done, f.key, Inline(defs, rank, level, f.value).value);
        }
      }
    }
  }

  lemma {:induction false} ConstIsPlain(j: Json)
    requires Plain(j)
    ensures Plain(Arr([j]))
  {
  }

  lemma {:induction false} PutRefFree(fields: seq<Field>, key: string, value: Json)
    requires (forall i :: 0 <= i < |fields| ==> RefFreeKeyword(fields[i])) && RefFreeKeyword(Field(key, value))
    ensures forall i :: 0 <= i < |Put(fields, key, value)| ==> RefFreeKeyword(Put(fields, key, value)[i])
  {
    hide RefFreeKeyword;
  }

  // ---------------------------------------------------------------- inlining only relaxes

  /** The dialect of the source, with its definitions. */
  function Strict(defs: Definitions, rank: map<string, nat>, constraint: Constraint): Reading {
    Reading(defs, rank, constraint, false)
  }

  /** The dialect of the provider: no definitions, `nullable` admits null. */
  function Wire(constraint: Constraint): (r: Reading)
    ensures Acyclic(r.defs, r.rank)
  {
    Reading(map[], map[], constraint, true)
  }

  /** The value satisfies every keyword of the list. */
  ghost predicate AllHold(r: Reading, level: nat, fields: seq<Field>, v: Json)
    requires Acyclic(r.defs, r.rank)
  {
    forall i :: 0 <= i < |fields| ==> Holds(r, level, fields[i], v)
  }

  lemma {:induction false} PutHolds(r: Reading, level: nat, fields: seq<Field>, key: string, value: Json, v: Json)
    requires Acyclic(r.defs, r.rank) && AllHold(r, level, fields, v) && Holds(r, level, Field(key, value), v)
    ensures AllHold(r, level, Put(fields, key, value), v)
  {
    hide Holds, Acyclic;
  }

  lemma {:induction false} InlineRelaxes(defs: Definitions, rank: map<string, nat>, c: Constraint, level: nat, j: Json, v: Json)
    requires Acyclic(defs, rank) && Closed(defs, rank, level, j) && Inline(defs, rank, level, j).Some?
    requires Accepts(Strict(defs, rank, c), level, j, v)
    ensures Accepts(Wire(c), 0, Inline(defs, rank, level, j).value, v)
    decreases level, j, 1
  {
    hide InlineFields, ClosedKeyword;
    var r := Strict(defs, rank, c);
    if Get(j.fields, "$ref").Some? {
      var i :| 0 <= i < |j.fields| && j.fields[i] == Field("$ref", Get(j.fields, "$ref").value);
      assert Holds(r, level, j.fields[i], v);
      var name := RefName(Get(j.fields, "$ref").value).value;
      InlineRelaxes(defs, rank, c, rank[name], defs[name], v);
    } else {
      assert AllHold(r, level, j.fields, v);
      FieldsRelax(defs, rank, c, level, j.fields, v);
    }
  }

  lemma {:induction false} FieldsRelax(defs: Definitions, rank: map<string, nat>, c: Constraint, level: nat, fields: seq<Field>, v: Json)
    requires Acyclic(defs, rank) && forall i :: 0 <= i < |fields| ==> ClosedKeyword(defs, rank, level, fields[i])
    requires InlineFields(defs, rank, level, fields).Some?
    requires AllHold(Strict(defs, rank, c), level, fields, v)
    ensures AllHold(Wire(c), 0, InlineFields(defs, rank, level, fields).value, v)
    decreases level, fields, 0
  {
    hide Holds, ClosedKeyword, Inline, InlineValues, Acyclic;
    if fields != [] {
      var front, f := fields[..|fields| - 1], fields[|fields| - 1];
      assert AllHold(Strict(defs, rank, c), level, front, v);
      FieldsRelax(defs, rank, c, level, front, v);
      var done := InlineFields(defs, rank, level, front).value;
      if f.key == "const" {
        ConstRelaxes(defs, rank, c, level, f, v);
        PutHolds(Wire(c), 0, done, "enum", Arr([f.value]), v);
      } else if f.key in SUPPORTED {
        KeywordRelaxes(defs, rank, c, level, f, v);
        PutHolds(Wire(c), 0, done, f.key, Compiled(defs, rank, level, f), v);
      }
    }
  }

  /** What a supported keyword's operand becomes. */
  function Compiled(defs: Definitions, rank: map<string, nat>, level: nat, f: Field): Json {
    if f.key == "properties" then
      if f.value.Obj? && InlineValues(defs, rank, level, f.value.fields).Some?
      then Obj(InlineValues(defs, rank, level, f.value.fields).value) else Null
    else if Inline(defs, rank, level, f.value).Some? then Inline(defs, rank, level, f.value).value
    else Null
  }

  lemma {:induction false} ConstRelaxes(defs: Definitions, rank: map<string, nat>, c: Constraint, level: nat, f: Field, v: Json)
    requires Acyclic(defs, rank) && f.key == "const" && Holds(Strict(defs, rank, c), level, f, v)
    ensures Acyclic(map[], map[]) && Holds(Wire(c), 0, Field("enum", Arr([f.value])), v)
  {
  }

  /** A supported keyword still holds of its compiled operand. */
  lemma {:induction false} KeywordRelaxes(defs: Definitions, rank: map<string, nat>, c: Constraint, level: nat, f: Field, v: Json)
    requires Acyclic(defs, rank) && f.key in SUPPORTED && ClosedKeyword(defs, rank, level, f)
    requires Holds(Strict(defs, rank, c), level, f, v)
    ensures Holds(Wire(c), 0, Field(f.key, Compiled(defs, rank, level, f)), v)
    decreases level, f, 1
  {
    hide Accepts, Closed, Inline, Acyclic;
    if f.key == "anyOf" {
      AnyOfRelaxes(defs, rank, c, level, f, v);
    } else if f.key == "properties" {
      PropertiesRelax(defs, rank, c, level, f, v);
    } else if f.key == "items" {
      InlineCloses(defs, rank, level, f.value);
      if v.Arr? {
        forall k | 0 <= k < |v.items| ensures Accepts(Wire(c), 0, Compiled(defs, rank, level, f), v.items[k]) {
          InlineRelaxes(defs, rank, c, level, f.value, v.items[k]);
        }
      }
    } else {
      PlainUnchanged(defs, rank, level, f.value);
    }
  }

  lemma {:induction false} AnyOfRelaxes(defs: Definitions, rank: map<string, nat>, c: Constraint, level: nat, f: Field, v: Json)
    requires Acyclic(defs, rank) && f.key == "anyOf" && ClosedKeyword(defs, rank, level, f)
    requires Holds(Strict(defs, rank, c), level, f, v)
    ensures Holds(Wire(c), 0, Field(f.key, Compiled(defs, rank, level, f)), v)
    decreases level, f, 0
  {
    hide Accepts, Closed, Acyclic, InlineAll, InlineFields;
    var items := f.value.items;
    AllClose(defs, rank, level, items);
    var i :| 0 <= i < |items| && Accepts(Strict(defs, rank, c), level, items[i], v);
    InlineAllAt(defs, rank, level, items, i);
    InlineRelaxes(defs, rank, c, level, items[i], v);
    assert Compiled(defs, rank, level, f) == Arr(InlineAll(defs, rank, level, items).value);
    assert Accepts(Wire(c), 0, Compiled(defs, rank, level, f).items[i], v);
  }

  lemma {:induction false} PropertiesRelax(defs: Definitions, rank: map<string, nat>, c: Constraint, level: nat, f: Field, v: Json)
    requires Acyclic(defs, rank) && f.key == "properties" && ClosedKeyword(defs, rank, level, f)
    requires Holds(Strict(defs, rank, c), level, f, v)
    ensures Holds(Wire(c), 0, Field(f.key, Compiled(defs, rank, level, f)), v)
    decreases level, f, 0
  {
    hide Accepts, Closed, Acyclic, InlineValues, Inline;
    var fields := f.value.fields;
    ValuesClose(defs, rank, level, fields);
    var inner := InlineValues(defs, rank, level, fields).value;
    if v.Obj? {
      forall i, k | 0 <= i < |inner| && 0 <= k < |v.fields| && v.fields[k].key == inner[i].key
        ensures Accepts(Wire(c), 0, inner[i].value, v.fields[k].value)
      {
        InlineValuesAt(defs, rank, level, fields, i);
        InlineRelaxes(defs, rank, c, level, fields[i].value, v.fields[k].value);
      }
    }
  }

  // ---------------------------------------------------------------- the nullable form

  lemma {:induction false} NullablePlain(j: Json)
    requires Plain(j)
    ensures Nullable(j) == j
  {
    if j.Arr? {
      forall i | 0 <= i < |j.items| ensures Nullable(j.items[i]) == j.items[i] {
        NullablePlain(j.items[i]);
      }
      assert NullableAll(j.items) == j.items;
    }
  }

  /** Wherever a choice is replaced, it stood alone. */
  predicate OnlyChoices(j: Json) {
    j.Obj? && (Collapses(Mapped(j.fields)) ==> |j.fields| == 1) &&
    forall i :: 0 <= i < |j.fields| ==> OnlyChoicesKeyword(j.fields[i])
  }

  predicate OnlyChoicesKeyword(f: Field) {
    if f.key == "anyOf" then f.value.Arr? && forall i :: 0 <= i < |f.value.items| ==> OnlyChoices(f.value.items[i])
    else if f.key == "properties" then
      f.value.Obj? && forall i :: 0 <= i < |f.value.fields| ==> OnlyChoices(f.value.fields[i].value)
    else f.key == "items" ==> OnlyChoices(f.value)
  }

  /** A dictionary of properties is never mistaken for a choice, even if a property is called `anyOf`. */
  lemma {:induction false} PropertiesKept(fields: seq<Field>)
    requires forall i :: 0 <= i < |fields| ==> RefFree(fields[i].value)
    ensures Nullable(Obj(fields)) == Obj(Mapped(fields))
  {
    hide RefFree, RefFreeKeyword, Collapse, Collapses, Get, Nullable;
    var mapped := Mapped(fields);
    if Get(mapped, "anyOf").Some? {
      var i :| 0 <= i < |mapped| && mapped[i] == Field("anyOf", Get(mapped, "anyOf").value);
      RefFreeIsObject(fields[i].value);
      NullableOfObject(fields[i].value);
    }
    NotCollapsed(mapped);
    NullableOfFields(fields);
  }

  lemma {:induction false} RefFreeIsObject(j: Json)
    requires RefFree(j)
    ensures j.Obj?
  {
  }

  lemma {:induction false} NullableOfFields(fields: seq<Field>)
    ensures Nullable(Obj(fields)) == Collapse(Mapped(fields))
  {
    hide Collapse, Collapses, Get;
  }

  lemma {:induction false} NullableOfObject(j: Json)
    requires j.Obj?
    ensures Nullable(j).Obj?
  {
    hide Put, NonNull, Get;
  }

  lemma {:induction false} NotCollapsed(fields: seq<Field>)
    requires Get(fields, "anyOf").Some? ==> !Get(fields, "anyOf").value.Arr?
    ensures Collapse(fields) == Obj(fields)
  {
  }

  lemma {:induction false} NullSchemaMeans(c: Constraint, v: Json)
    ensures Accepts(Wire(c), 0, NULL_SCHEMA, v) <==> v == Null
  {
    var f := NULL_SCHEMA.fields[0];
    assert Holds(Wire(c), 0, f, v) <==> v == Null;
  }

  ghost predicate NullAdmitted(fields: seq<Field>, v: Json) {
    v == Null && Field("nullable", Bool(true)) in fields
  }

  lemma {:induction false} AcceptsMeans(c: Constraint, fields: seq<Field>, v: Json)
    ensures Accepts(Wire(c), 0, Obj(fields), v) <==> NullAdmitted(fields, v) || AllHold(Wire(c), 0, fields, v)
  {
  }

  /** Marking a schema nullable adds null and nothing else. */
  lemma {:induction false} MarkedMeans(c: Constraint, fields: seq<Field>, v: Json)
    ensures Accepts(Wire(c), 0, Obj(Put(fields, "nullable", Bool(true))), v) <==>
            v == Null || Accepts(Wire(c), 0, Obj(fields), v)
  {
    hide Accepts;
    var marked := Put(fields, "nullable", Bool(true));
    AcceptsMeans(c, marked, v);
    AcceptsMeans(c, fields, v);
    if AllHold(Wire(c), 0, fields, v) {
      PutHolds(Wire(c), 0, fields, "nullable", Bool(true), v);
    }
    if AllHold(Wire(c), 0, marked, v) {
      forall i | 0 <= i < |fields| ensures Holds(Wire(c), 0, fields[i], v) {
        if fields[i].key != "nullable" {
          assert fields[i] in marked;
        }
      }
    }
  }

  /** Replacing a choice admits everything it admitted, and nothing more if it stood alone. */
  lemma {:induction false} CollapseMeans(c: Constraint, fields: seq<Field>, v: Json)
    ensures Accepts(Wire(c), 0, Obj(fields), v) ==> Accepts(Wire(c), 0, Collapse(fields), v)
    ensures (Collapses(fields) ==> |fields| == 1) ==>
              (Accepts(Wire(c), 0, Collapse(fields), v) ==> Accepts(Wire(c), 0, Obj(fields), v))
  {
    hide Accepts, Get, Put, NonNull;
    if Collapses(fields) {
      var choice := Field("anyOf", Get(fields, "anyOf").value);
      var variants := choice.value.items;
      var x := NonNull(variants)[0];
      var n :| 0 <= n < |fields| && fields[n] == choice;
      AcceptsMeans(c, fields, v);
      MarkedMeans(c, x.fields, v);
      ChoiceMeans(c, choice, x, v);
    }
  }

  /** A replaced choice means the choice and nothing else: keywords that stood beside it are lost. */
  lemma {:induction false} CollapseExactly(c: Constraint, fields: seq<Field>, v: Json)
    requires Collapses(fields)
    ensures Accepts(Wire(c), 0, Collapse(fields), v) <==> Holds(Wire(c), 0, Field("anyOf", Get(fields, "anyOf").value), v)
  {
    hide Accepts, Get, Put, NonNull;
    var choice := Field("anyOf", Get(fields, "anyOf").value);
    var x := NonNull(choice.value.items)[0];
    MarkedMeans(c, x.fields, v);
    ChoiceMeans(c, choice, x, v);
  }

  /**
   Replacing a choice changes nothing for a value if and only if that value, once the choice holds of it, satisfies the
   keywords beside the choice as well.
   */
  lemma {:induction false} CollapseAgreesExactly(c: Constraint, fields: seq<Field>, v: Json)
    requires Collapses(fields)
    ensures (Accepts(Wire(c), 0, Collapse(fields), v) <==> Accepts(Wire(c), 0, Obj(fields), v)) <==>
            (Holds(Wire(c), 0, Field("anyOf", Get(fields, "anyOf").value), v) ==>
               NullAdmitted(fields, v) || AllHold(Wire(c), 0, fields, v))
  {
    hide Accepts, Holds, Collapse, Collapses, Get;
    CollapseExactly(c, fields, v);
    AcceptsMeans(c, fields, v);
    CollapseMeans(c, fields, v);
  }

  lemma {:induction false} ChoiceMeans(c: Constraint, choice: Field, x: Json, v: Json)
    requires choice.key == "anyOf" && choice.value.Arr? && NonNull(choice.value.items) == [x]
    requires |choice.value.items| != 1
    ensures Holds(Wire(c), 0, choice, v) <==> v == Null || Accepts(Wire(c), 0, x, v)
  {
    hide Accepts, NonNull;
    var variants := choice.value.items;
    NullSchemaMeans(c, v);
    assert x in NonNull(variants);
    var a :| 0 <= a < |variants| && variants[a] == NULL_SCHEMA;
    var b :| 0 <= b < |variants| && variants[b] == x;
    if i :| 0 <= i < |variants| && Accepts(Wire(c), 0, variants[i], v) {
      if variants[i] != NULL_SCHEMA {
        assert variants[i] in NonNull(variants);
      }
    }
  }

  /**
   The nullable form of a schema admits every value the schema admits, and exactly those if every replaced choice
   stood alone (`exact`).
   */
  lemma {:induction false} NullableMeans(c: Constraint, exact: bool, j: Json, v: Json)
    requires RefFree(j) && (exact ==> OnlyChoices(j))
    ensures Accepts(Wire(c), 0, j, v) ==> Accepts(Wire(c), 0, Nullable(j), v)
    ensures exact ==> (Accepts(Wire(c), 0, Nullable(j), v) ==> Accepts(Wire(c), 0, j, v))
    decreases j, 1
  {
    hide Accepts, Holds, RefFreeKeyword, OnlyChoicesKeyword, Collapses, Collapse;
    var mapped := Mapped(j.fields);
    forall i | 0 <= i < |j.fields|
      ensures Holds(Wire(c), 0, j.fields[i], v) ==> Holds(Wire(c), 0, mapped[i], v)
      ensures exact ==> (Holds(Wire(c), 0, mapped[i], v) ==> Holds(Wire(c), 0, j.fields[i], v))
    {
      KeywordMeans(c, exact, j.fields[i], v);
    }
    MarkKept(j.fields);
    AcceptsMeans(c, j.fields, v);
    AcceptsMeans(c, mapped, v);
    CollapseMeans(c, mapped, v);
  }

  lemma {:induction false} MarkKept(fields: seq<Field>)
    ensures Field("nullable", Bool(true)) in fields <==> Field("nullable", Bool(true)) in Mapped(fields)
  {
    var mark := Field("nullable", Bool(true));
    if mark in fields {
      var i :| 0 <= i < |fields| && fields[i] == mark;
      assert Mapped(fields)[i] == mark;
    }
    if mark in Mapped(fields) {
      var i :| 0 <= i < |fields| && Mapped(fields)[i] == mark;
      if fields[i].value.Obj? {
        NullableOfObject(fields[i].value);
      }
      assert fields[i] == mark;
    }
  }

  lemma {:induction false} KeywordMeans(c: Constraint, exact: bool, f: Field, v: Json)
    requires RefFreeKeyword(f) && (exact ==> OnlyChoicesKeyword(f))
    ensures Holds(Wire(c), 0, f, v) ==> Holds(Wire(c), 0, Field(f.key, Nullable(f.value)), v)
    ensures exact ==> (Holds(Wire(c), 0, Field(f.key, Nullable(f.value)), v) ==> Holds(Wire(c), 0, f, v))
    decreases f, 1
  {
    hide Accepts, Collapse, RefFree, OnlyChoices;
    if f.key == "anyOf" {
      forall i | 0 <= i < |f.value.items|
        ensures Accepts(Wire(c), 0, f.value.items[i], v) ==> Accepts(Wire(c), 0, Nullable(f.value).items[i], v)
        ensures exact ==> (Accepts(Wire(c), 0, Nullable(f.value).items[i], v) ==> Accepts(Wire(c), 0, f.value.items[i], v))
      {
        NullableMeans(c, exact, f.value.items[i], v);
      }
    } else if f.key == "properties" {
      PropertiesMean(c, exact, f, v);
    } else if f.key == "items" {
      if v.Arr? {
        forall k | 0 <= k < |v.items|
          ensures Accepts(Wire(c), 0, f.value, v.items[k]) ==> Accepts(Wire(c), 0, Nullable(f.value), v.items[k])
          ensures exact ==> (Accepts(Wire(c), 0, Nullable(f.value), v.items[k]) ==> Accepts(Wire(c), 0, f.value, v.items[k]))
        {
          NullableMeans(c, exact, f.value, v.items[k]);
        }
      }
    } else {
      NullablePlain(f.value);
    }
  }

  lemma {:induction false} PropertiesMean(c: Constraint, exact: bool, f: Field, v: Json)
    requires f.key == "properties" && RefFreeKeyword(f) && (exact ==> OnlyChoicesKeyword(f))
    ensures Holds(Wire(c), 0, f, v) ==> Holds(Wire(c), 0, Field(f.key, Nullable(f.value)), v)
    ensures exact ==> (Holds(Wire(c), 0, Field(f.key, Nullable(f.value)), v) ==> Holds(Wire(c), 0, f, v))
    decreases f, 0
  {
    hide Accepts, Collapse, RefFree, OnlyChoices;
    var fields := f.value.fields;
    PropertiesKept(fields);
    var mapped := Mapped(fields);
    assert Nullable(f.value) == Obj(mapped);
    if v.Obj? {
      forall i, k | 0 <= i < |fields| && 0 <= k < |v.fields|
        ensures Accepts(Wire(c), 0, fields[i].value, v.fields[k].value) ==> Accepts(Wire(c), 0, mapped[i].value, v.fields[k].value)
        ensures exact ==> (Accepts(Wire(c), 0, mapped[i].value, v.fields[k].value) ==> Accepts(Wire(c), 0, fields[i].value, v.fields[k].value))
      {
        NullableMeans(c, exact, fields[i].value, v.fields[k].value);
      }
    }
  }

  lemma {:induction false} MarkedRefFree(fields: seq<Field>)
    requires RefFree(Obj(fields))
    ensures RefFree(Obj(Put(fields, "nullable", Bool(true))))
  {
    hide Put;
    var marked := Put(fields, "nullable", Bool(true));
    forall i | 0 <= i < |marked| ensures RefFreeKeyword(marked[i]) {
      if marked[i].key != "nullable" {
        assert marked[i] in fields;
      }
    }
  }

  lemma CollapseRefFree(fields: seq<Field>)
    requires RefFree(Obj(fields))
    ensures RefFree(Collapse(fields))
  {
    hide Put, NonNull, Get;
    if Collapses(fields) {
      var choice := Field("anyOf", Get(fields, "anyOf").value);
      var n :| 0 <= n < |fields| && fields[n] == choice;
      assert RefFreeKeyword(choice);
      var x := NonNull(choice.value.items)[0];
      assert x in choice.value.items;
      MarkedRefFree(x.fields);
    }
  }

  /** The nullable form of a schema without references has none either. */
  lemma {:induction false} NullableRefFree(j: Json)
    requires RefFree(j)
    ensures RefFree(Nullable(j))
    decreases j, 1
  {
    hide RefFreeKeyword, Collapses, Collapse;
    var mapped := Mapped(j.fields);
    forall i | 0 <= i < |j.fields| ensures RefFreeKeyword(mapped[i]) {
      KeywordRefFree(j.fields[i]);
    }
    CollapseRefFree(mapped);
  }

  lemma {:induction false} KeywordRefFree(f: Field)
    requires RefFreeKeyword(f)
    ensures RefFreeKeyword(Field(f.key, Nullable(f.value)))
    decreases f, 0
  {
    hide RefFree, Collapse;
    if f.key == "anyOf" {
      forall i | 0 <= i < |f.value.items| ensures RefFree(Nullable(f.value).items[i]) {
        NullableRefFree(f.value.items[i]);
      }
    } else if f.key == "properties" {
      PropertiesKept(f.value.fields);
      forall i | 0 <= i < |f.value.fields| ensures RefFree(Mapped(f.value.fields)[i].value) {
        NullableRefFree(f.value.fields[i].value);
      }
    } else if f.key == "items" {
      NullableRefFree(f.value);
    } else {
      NullablePlain(f.value);
    }
  }

  // ---------------------------------------------------------------- the whole compilation

  /**
   Compilation of a closed, acyclic schema terminates without error, leaves no reference and only relaxes: every value
   the source schema accepts is accepted by the provider schema.
   */
  lemma {:induction false} CompileRelaxes(defs: Definitions, rank: map<string, nat>, c: Constraint, level: nat, root: Json, v: Json)
    requires Acyclic(defs, rank) && Closed(defs, rank, level, root)
    ensures Compile(defs, rank, level, root).Some? && RefFree(Compile(defs, rank, level, root).value)
    ensures Accepts(Strict(defs, rank, c), level, root, v) ==>
              Accepts(Wire(c), 0, Compile(defs, rank, level, root).value, v)
  {
    hide Accepts, Closed, Acyclic, RefFree, Inline, Nullable;
    InlineCloses(defs, rank, level, root);
    NullableRefFree(Inline(defs, rank, level, root).value);
    if Accepts(Strict(defs, rank, c), level, root, v) {
      InlineRelaxes(defs, rank, c, level, root, v);
      NullableMeans(c, false, Inline(defs, rank, level, root).value, v);
    }
  }

  /** The nullable step alone changes nothing where every replaced choice stands alone. */
  lemma {:induction false} NullableExact(c: Constraint, j: Json, v: Json)
    requires RefFree(j) && OnlyChoices(j)
    ensures Accepts(Wire(c), 0, Nullable(j), v) <==> Accepts(Wire(c), 0, j, v)
  {
    hide Accepts, RefFree, OnlyChoices, Nullable;
    NullableMeans(c, true, j, v);
  }

  // ---------------------------------------------------------------- a schema whose meaning changes

  const ANYTHING := Obj([])

  const OPTIONAL := Field("anyOf", Arr([NULL_SCHEMA, ANYTHING]))

  /** Null or anything, but only what the enumeration lists, which is null. */
  const NARROWED := [OPTIONAL, Field("enum", Arr([Null]))]

  lemma NarrowedIsMapped()
    ensures Mapped(NARROWED) == NARROWED
  {
    hide Nullable;
    AnythingIsKept();
    assert NullableAll([NULL_SCHEMA, ANYTHING]) == [NULL_SCHEMA, ANYTHING];
    NullableOfItems([NULL_SCHEMA, ANYTHING]);
    NullablePlain(Arr([Null]));
  }

  lemma {:induction false} NullableOfItems(items: seq<Json>)
    ensures Nullable(Arr(items)) == Arr(NullableAll(items))
  {
  }

  lemma AnythingIsKept()
    ensures Nullable(ANYTHING) == ANYTHING && Nullable(NULL_SCHEMA) == NULL_SCHEMA
  {
    hide Nullable, Collapse, Get;
    NullableOfFields([]);
    NotCollapsed([]);
    TypeIsKept();
    NullableOfFields(NULL_SCHEMA.fields);
    NotCollapsed(NULL_SCHEMA.fields);
  }

  lemma TypeIsKept()
    ensures Mapped(NULL_SCHEMA.fields) == NULL_SCHEMA.fields
  {
    NullablePlain(Str("null"));
    hide Nullable;
  }

  lemma NarrowedRefFree()
    ensures RefFree(Obj(NARROWED))
  {
    assert RefFreeKeyword(NULL_SCHEMA.fields[0]);
    assert RefFree(NULL_SCHEMA) && RefFree(ANYTHING);
    hide RefFree;
    assert RefFreeKeyword(OPTIONAL);
    assert RefFreeKeyword(NARROWED[1]);
    RefFreeBy(NARROWED);
  }

  lemma RefFreeBy(fields: seq<Field>)
    requires forall i :: 0 <= i < |fields| ==> RefFreeKeyword(fields[i])
    ensures RefFree(Obj(fields))
  {
  }

  lemma NarrowedCollapses()
    ensures Collapses(NARROWED) && Get(NARROWED, "anyOf") == Some(OPTIONAL.value)
  {
    assert NonNull([]) == [];
    assert [NULL_SCHEMA][..0] == [] && [NULL_SCHEMA, ANYTHING][..1] == [NULL_SCHEMA];
    assert NonNull([NULL_SCHEMA]) == [];
    assert NonNull([NULL_SCHEMA, ANYTHING]) == [ANYTHING];
  }

  /** The nullable form of this schema accepts `true`; the schema does not. */
  lemma SiblingsAreLost(c: Constraint)
    ensures RefFree(Obj(NARROWED))
    ensures !Accepts(Wire(c), 0, Obj(NARROWED), Bool(true)) && Accepts(Wire(c), 0, Nullable(Obj(NARROWED)), Bool(true))
  {
    hide Nullable, Collapse, Collapses, Get, Mapped, RefFree;
    NarrowedRefFree();
    NarrowedIsMapped();
    NarrowedCollapses();
    NullableOfFields(NARROWED);
    assert !Holds(Wire(c), 0, NARROWED[1], Bool(true));
    assert Accepts(Wire(c), 0, OPTIONAL.value.items[1], Bool(true));
    assert Holds(Wire(c), 0, OPTIONAL, Bool(true));
    CollapseExactly(c, NARROWED, Bool(true));
  }
}
