/**
 The tool-schema normaliser: JSON values, the recursive rewriting, and its loop form.
 Objects are lists of named fields; a lookup takes the first field of that name.  Assigning to a field called
 `__proto__` makes no field: an object assigned so becomes the prototype, and `in` and a read see its fields.
 */
module Schema {
  import opened Prelude
  import Decimal

  datatype Json =
    | Null
    | Bool(b: bool)
    | Num(r: real)
    | Str(s: string)
    | Arr(items: seq<Json>)
    | Obj(fields: seq<Field>)

  datatype Field = Field(name: string, value: Json)

  /** Index of the first field of that name, or |fs|. */
  function Find(fs: seq<Field>, name: string): (i: nat)
    ensures i <= |fs|
    ensures i < |fs| ==> fs[i].name == name
    ensures forall k :: 0 <= k < i ==> fs[k].name != name
  {
    if fs == [] || fs[0].name == name then 0 else 1 + Find(fs[1..], name)
  }

  function Lookup(fs: seq<Field>, name: string): Option<Json> {
    if fs == [] then None
    else if fs[0].name == name then Some(fs[0].value)
    else Lookup(fs[1..], name)
  }

  lemma {:induction false} LookupFind(fs: seq<Field>, name: string)
    ensures Lookup(fs, name) == if Find(fs, name) < |fs| then Some(fs[Find(fs, name)].value) else None
  {
    if fs != [] && fs[0].name != name { LookupFind(fs[1..], name); }
  }

  lemma {:induction false} LookupAppend(fs: seq<Field>, gs: seq<Field>, name: string)
    ensures Lookup(fs + gs, name) == if Lookup(fs, name).Some? then Lookup(fs, name) else Lookup(gs, name)
  {
    if fs == [] {
      assert fs + gs == gs;
    } else {
      assert (fs + gs)[1..] == fs[1..] + gs;
      LookupAppend(fs[1..], gs, name);
    }
  }

  /** Keywords that some providers reject. */
  predicate Stripped(name: string) {
    name in {"minimum", "maximum", "maxLength", "minLength", "maxItems", "minItems",
             "exclusiveMinimum", "exclusiveMaximum"}
  }

  predicate Combinator(name: string) { name in {"anyOf", "oneOf", "allOf"} }

  const PROTO := "__proto__"

  /** The fields of the prototype after an assignment to `__proto__`. */
  function Assigned(proto: seq<Field>, v: Json): seq<Field> {
    match v
    case Obj(fs) => fs
    case Arr(_) => []
    case Null => []
    case _ => proto
  }

  /** The fields of the prototype after these assignments. */
  function Proto(proto: seq<Field>, fs: seq<Field>): seq<Field>
    decreases fs
  {
    if fs == [] then proto
    else Proto(if fs[0].name == PROTO then Assigned(proto, fs[0].value) else proto, fs[1..])
  }

  /** What a read of an own or inherited field gives. */
  function See(fs: seq<Field>, proto: seq<Field>, name: string): Option<Json> {
    if Lookup(fs, name).Some? then Lookup(fs, name) else Lookup(proto, name)
  }

  // ----- the rewriting -----

  function Normalize(v: Json): Json
    decreases v, 0
  {
    match v
    case Arr(items) => Arr(NormalizeAll(items))
    case Obj(fs) => Obj(Complete(NormalizeFields(fs), Proto([], fs)))
    case _ => v
  }

  function NormalizeAll(vs: seq<Json>): (r: seq<Json>)
    ensures |r| == |vs|
    ensures forall i :: 0 <= i < |vs| ==> r[i] == Normalize(vs[i])
    decreases vs, 1
  {
    if vs == [] then [] else [Normalize(vs[0])] + NormalizeAll(vs[1..])
  }

  function NormalizeProps(ps: seq<Field>): seq<Field>
    decreases ps, 1
  {
    if ps == [] then []
    else if ps[0].name == PROTO then NormalizeProps(ps[1..])
    else [Field(ps[0].name, Normalize(ps[0].value))] + NormalizeProps(ps[1..])
  }

  /** An array in the place of `properties` has its indices for property names. */
  function NormalizeIndexed(vs: seq<Json>, k: nat): (r: seq<Field>)
    ensures |r| == |vs|
    ensures forall i :: 0 <= i < |vs| ==> r[i] == Field(IndexName(k + i), Normalize(vs[i]))
    decreases vs, 1
  {
    if vs == [] then [] else [Field(IndexName(k), Normalize(vs[0]))] + NormalizeIndexed(vs[1..], k + 1)
  }

  function IndexName(k: nat): string {
    Map((d: Decimal.Digit) => ('0' as int + d as int) as char, Decimal.ToDigits(k))
  }

  function NormalizeValue(name: string, v: Json): Json
    decreases v, 1
  {
    if name == "type" && v == Str("integer") then Str("number")
    else if name == "properties" && v.Obj? then Obj(NormalizeProps(v.fields))
    else if name == "properties" && v.Arr? then Obj(NormalizeIndexed(v.items, 0))
    else if name == "items" && (v.Obj? || v.Arr?) then Normalize(v)
    else if Combinator(name) && v.Arr? then Arr(NormalizeAll(v.items))
    else v
  }

  function NormalizeFields(fs: seq<Field>): seq<Field>
    decreases fs, 2
  {
    if fs == [] then []
    else if Stripped(fs[0].name) || fs[0].name == PROTO then NormalizeFields(fs[1..])
    else [Field(fs[0].name, NormalizeValue(fs[0].name, fs[0].value))] + NormalizeFields(fs[1..])
  }

  /** Objects get `properties` and `additionalProperties`, unless they have or inherit them. */
  function Complete(fs: seq<Field>, proto: seq<Field>): seq<Field> {
    if See(fs, proto, "type") == Some(Str("object")) then
      var gs := if See(fs, proto, "properties").None? then fs + [Field("properties", Obj([]))] else fs;
      if See(gs, proto, "additionalProperties").None? then gs + [Field("additionalProperties", Bool(false))] else gs
    else fs
  }

  function ToSafe(input: Option<Json>): Json {
    match input
    case Some(Obj(fs)) =>
      var ns, proto := Normalize(Obj(fs)).fields, Proto([], fs);
      SafeOf(See(ns, proto, "properties"), See(ns, proto, "required"))
    case _ => Safe(Obj([]), None)
  }

  /** `properties ?? {}`. */
  function SafeOf(properties: Option<Json>, required: Option<Json>): Json {
    Safe(match properties case Some(p) => (if p.Null? then Obj([]) else p) case None => Obj([]), required)
  }

  function Safe(properties: Json, required: Option<Json>): Json {
    Obj([Field("type", Str("object"))] + [Field("properties", properties)]
        + RequiredField(required) + [Field("additionalProperties", Bool(false))])
  }

  function RequiredField(required: Option<Json>): seq<Field> {
    match required
    case Some(Arr(rs)) => (if rs != [] then [Field("required", Arr(rs))] else [])
    case _ => []
  }

  // ----- the loops of the source -----

  method MapNormalize(vs: seq<Json>) returns (r: seq<Json>)
    ensures r == NormalizeAll(vs)
    decreases vs, 1
  {
    r := [];
    for i := 0 to |vs|
      invariant r + NormalizeAll(vs[i..]) == NormalizeAll(vs)
    {
      var v := NormalizeSchema(vs[i]);
      assert vs[i..][1..] == vs[i + 1..];
      Assoc(r, [v], NormalizeAll(vs[i + 1..]));
      r := r + [v];
    }
    assert vs[|vs|..] == [];
    assert r + [] == r;
  }

  method NormalizeProperties(ps: seq<Field>) returns (r: seq<Field>)
    ensures r == NormalizeProps(ps)
    decreases ps, 1
  {
    r := [];
    for i := 0 to |ps|
      invariant r + NormalizeProps(ps[i..]) == NormalizeProps(ps)
    {
      var v := NormalizeSchema(ps[i].value);
      assert ps[i..][0] == ps[i] && ps[i..][1..] == ps[i + 1..];
      if ps[i].name != PROTO {
        Assoc(r, [Field(ps[i].name, v)], NormalizeProps(ps[i + 1..]));
        r := r + [Field(ps[i].name, v)];
      }
    }
    assert ps[|ps|..] == [];
    assert r + [] == r;
  }

  method NormalizeEntry(name: string, v: Json) returns (r: Json)
    ensures r == NormalizeValue(name, v)
    decreases v, 1
  {
    if name == "type" && v == Str("integer") {
      r := Str("number");
    } else if name == "properties" && v.Obj? {
      var ps := NormalizeProperties(v.fields);
      r := Obj(ps);
    } else if name == "properties" && v.Arr? {
      var vs := MapNormalize(v.items);
      r := Obj(seq(|vs|, i requires 0 <= i < |vs| => Field(IndexName(i), vs[i])));
      assert r.fields == NormalizeIndexed(v.items, 0);
    } else if name == "items" && (v.Obj? || v.Arr?) {
      r := NormalizeSchema(v);
    } else if Combinator(name) && v.Arr? {
      var vs := MapNormalize(v.items);
      r := Arr(vs);
    } else {
      r := v;
    }
  }

  method NormalizeSchema(node: Json) returns (result: Json)
    ensures result == Normalize(node)
    decreases node, 0
  {
    if node.Arr? {
      var items := MapNormalize(node.items);
      return Arr(items);
    }
    if !node.Obj? { return node; }
    var fs := node.fields;
    var out: seq<Field> := [];
    var proto: seq<Field> := [];
    for i := 0 to |fs|
      invariant out + NormalizeFields(fs[i..]) == NormalizeFields(fs)
      invariant Proto(proto, fs[i..]) == Proto([], fs)
    {
      assert fs[i..][0] == fs[i] && fs[i..][1..] == fs[i + 1..];
      if Stripped(fs[i].name) { continue; }
      var v := NormalizeEntry(fs[i].name, fs[i].value);
      if fs[i].name == PROTO {
        proto := Assigned(proto, v);
      } else {
        Assoc(out, [Field(fs[i].name, v)], NormalizeFields(fs[i + 1..]));
        out := out + [Field(fs[i].name, v)];
      }
    }
    assert fs[|fs|..] == [];
    assert out + [] == out;
    out := EnsureObjectFields(out, proto);
    result := Obj(out);
  }

  method EnsureObjectFields(fields: seq<Field>, proto: seq<Field>) returns (out: seq<Field>)
    ensures out == Complete(fields, proto)
  {
    out := fields;
    if See(out, proto, "type") == Some(Str("object")) {
      if See(out, proto, "properties").None? { out := out + [Field("properties", Obj([]))]; }
      if See(out, proto, "additionalProperties").None? { out := out + [Field("additionalProperties", Bool(false))]; }
    }
  }
}
