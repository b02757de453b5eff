/** What the normaliser guarantees about shape, and what it does to the instances a schema admits. */
module SchemaMeaning {
  import opened Prelude
  import opened Schema
  import Decimal

  // ----- lookups after normalising -----

  lemma {:induction false} LookupNormalized(fs: seq<Field>, name: string)
    ensures Lookup(NormalizeFields(fs), name)
         == if Stripped(name) || name == PROTO || Lookup(fs, name).None? then None
            else Some(NormalizeValue(name, Lookup(fs, name).value))
  {
    if fs != [] { LookupNormalized(fs[1..], name); }
  }

  lemma LookupComplete(fs: seq<Field>, proto: seq<Field>, name: string)
    ensures Lookup(Complete(fs, proto), name)
         == if See(fs, proto, "type") == Some(Str("object")) && See(fs, proto, name).None? && name == "properties" then Some(Obj([]))
            else if See(fs, proto, "type") == Some(Str("object")) && See(fs, proto, name).None? && name == "additionalProperties"
            then Some(Bool(false))
            else Lookup(fs, name)
  {
    var p, a := [Field("properties", Obj([]))], [Field("additionalProperties", Bool(false))];
    assert |"properties"| == 10 && |"additionalProperties"| == 20;
    assert p[1..] == [] && a[1..] == [];
    LookupAppend(fs, p, name);
    LookupAppend(fs, p, "additionalProperties");
    LookupAppend(fs, a, name);
    LookupAppend(fs + p, a, name);
  }

  lemma {:induction false} NoProto(proto: seq<Field>, fs: seq<Field>)
    requires forall i :: 0 <= i < |fs| ==> fs[i].name != PROTO
    ensures Proto(proto, fs) == proto
    decreases fs
  {
    if fs != [] { NoProto(proto, fs[1..]); }
  }

  lemma LookupOne(f: Field, name: string)
    ensures Lookup([f], name) == if f.name == name then Some(f.value) else None
  {
    assert [f][1..] == [];
  }

  // ----- shape -----

  /** p holds at v and at every position whose normal form is part of v's. */
  ghost predicate Everywhere(v: Json, p: seq<Field> -> bool)
    decreases v, 0
  {
    match v
    case Arr(items) => forall i :: 0 <= i < |items| ==> Everywhere(items[i], p)
    case Obj(fs) => p(fs) && forall i :: 0 <= i < |fs| ==> EverywhereIn(fs[i].name, fs[i].value, p)
    case _ => true
  }

  ghost predicate EverywhereIn(name: string, v: Json, p: seq<Field> -> bool)
    decreases v, 1
  {
    && (name == "properties" && v.Obj? ==>
          forall i :: 0 <= i < |v.fields| && v.fields[i].name != PROTO ==> Everywhere(v.fields[i].value, p))
    && (name == "properties" && v.Arr? ==> forall i :: 0 <= i < |v.items| ==> Everywhere(v.items[i], p))
    && (name == "items" && (v.Obj? || v.Arr?) ==> Everywhere(v, p))
    && (Combinator(name) && v.Arr? ==> forall i :: 0 <= i < |v.items| ==> Everywhere(v.items[i], p))
  }

  /** A node as the providers want it. */
  predicate NodeClean(fs: seq<Field>) {
    && (forall i :: 0 <= i < |fs| ==> FieldClean(fs[i]))
    && (Lookup(fs, "type") == Some(Str("object")) ==>
          Lookup(fs, "properties").Some? && Lookup(fs, "additionalProperties").Some?)
  }

  predicate FieldClean(f: Field) {
    && !Stripped(f.name) && f.name != PROTO
    && (f.name == "type" ==> f.value != Str("integer"))
    && (f.name == "properties" ==> PropertiesClean(f.value))
  }

  predicate PropertiesClean(v: Json) {
    !v.Arr? && (v.Obj? ==> forall i :: 0 <= i < |v.fields| ==> v.fields[i].name != PROTO)
  }

  ghost predicate Clean(v: Json) { Everywhere(v, NodeClean) }

  ghost predicate FieldsClean(fs: seq<Field>) {
    forall i :: 0 <= i < |fs| ==> FieldClean(fs[i]) && EverywhereIn(fs[i].name, fs[i].value, NodeClean)
  }

  lemma FieldsCleanAppend(fs: seq<Field>, f: Field)
    requires FieldsClean(fs) && FieldClean(f) && EverywhereIn(f.name, f.value, NodeClean)
    ensures FieldsClean(fs + [f])
  {
    forall i | 0 <= i < |fs| + 1
      ensures FieldClean((fs + [f])[i]) && EverywhereIn((fs + [f])[i].name, (fs + [f])[i].value, NodeClean)
    {
      if i < |fs| { assert (fs + [f])[i] == fs[i]; }
    }
  }

  /** An object node inherits neither field that the normaliser would add to it. */
  predicate Harmless(fs: seq<Field>) {
    Lookup(fs, "type") == Some(Str("object")) ==>
      && (Lookup(fs, "properties").Some? || Lookup(Proto([], fs), "properties").None?)
      && (Lookup(fs, "additionalProperties").Some? || Lookup(Proto([], fs), "additionalProperties").None?)
  }

  lemma AdditionalsClean(fs: seq<Field>, proto: seq<Field>)
    ensures FieldsClean(Complete(fs, proto)) <==> FieldsClean(fs)
  {
    var p, a := Field("properties", Obj([])), Field("additionalProperties", Bool(false));
    if FieldsClean(fs) {
      FieldsCleanAppend(fs, p);
      FieldsCleanAppend(fs, a);
      FieldsCleanAppend(fs + [p], a);
    } else {
      var i :| 0 <= i < |fs| && !(FieldClean(fs[i]) && EverywhereIn(fs[i].name, fs[i].value, NodeClean));
      assert Complete(fs, proto)[i] == fs[i];
    }
  }

  /** Completing makes a node clean, unless it inherits what is missing. */
  lemma CompleteCleanIff(fs: seq<Field>)
    requires FieldsClean(NormalizeFields(fs))
    ensures NodeClean(Complete(NormalizeFields(fs), Proto([], fs))) <==> Harmless(fs)
  {
    var ns, proto := NormalizeFields(fs), Proto([], fs);
    AdditionalsClean(ns, proto);
    LookupComplete(ns, proto, "properties");
    LookupComplete(ns, proto, "additionalProperties");
    LookupComplete(ns, proto, "type");
    LookupNormalized(fs, "properties");
    LookupNormalized(fs, "additionalProperties");
    LookupNormalized(fs, "type");
  }

  /** The output is in the form the providers want exactly when no object node inherits what it lacks. */
  lemma {:induction false} NormalCleanIff(v: Json)
    ensures Clean(Normalize(v)) <==> Everywhere(v, Harmless)
    decreases v, 0
  {
    match v
    case Arr(items) =>
      AllNormalClean(items);
    case Obj(fs) =>
      NormalFieldsCleanIff(fs);
      AdditionalsClean(NormalizeFields(fs), Proto([], fs));
      if FieldsClean(NormalizeFields(fs)) { CompleteCleanIff(fs); }
    case _ =>
  }

  ghost predicate EveryItem(vs: seq<Json>, p: seq<Field> -> bool) { forall i :: 0 <= i < |vs| ==> Everywhere(vs[i], p) }

  lemma SameItems(vs: seq<Json>, p: seq<Field> -> bool, ns: seq<Json>, q: seq<Field> -> bool)
    requires |vs| == |ns| && forall i :: 0 <= i < |vs| ==> (Everywhere(ns[i], q) <==> Everywhere(vs[i], p))
    ensures EveryItem(ns, q) <==> EveryItem(vs, p)
  {
    if EveryItem(ns, q) { forall i | 0 <= i < |vs| ensures Everywhere(vs[i], p) { assert Everywhere(ns[i], q); } }
  }

  lemma {:induction false} AllNormalClean(vs: seq<Json>)
    ensures EveryItem(NormalizeAll(vs), NodeClean) <==> EveryItem(vs, Harmless)
    decreases vs, 1
  {
    var ns := NormalizeAll(vs);
    forall i | 0 <= i < |vs|
      ensures Everywhere(ns[i], NodeClean) <==> Everywhere(vs[i], Harmless)
    {
      NormalCleanIff(vs[i]);
    }
    SameItems(vs, Harmless, ns, NodeClean);
  }

  lemma {:induction false} NormalFieldsCleanIff(fs: seq<Field>)
    ensures FieldsClean(NormalizeFields(fs)) <==> forall i :: 0 <= i < |fs| ==> EverywhereIn(fs[i].name, fs[i].value, Harmless)
    decreases fs, 2
  {
    if fs != [] {
      NormalFieldsCleanIff(fs[1..]);
      NormalValueCleanIff(fs[0].name, fs[0].value);
      assert fs == [fs[0]] + fs[1..];
      if !Stripped(fs[0].name) && fs[0].name != PROTO {
        FieldsCleanCons(Field(fs[0].name, NormalizeValue(fs[0].name, fs[0].value)), NormalizeFields(fs[1..]));
      }
    }
  }

  lemma FieldsCleanCons(f: Field, fs: seq<Field>)
    ensures FieldsClean([f] + fs) <==> FieldClean(f) && EverywhereIn(f.name, f.value, NodeClean) && FieldsClean(fs)
  {
    var all := [f] + fs;
    assert all[0] == f;
    if FieldsClean(all) {
      forall i | 0 <= i < |fs| ensures FieldClean(fs[i]) && EverywhereIn(fs[i].name, fs[i].value, NodeClean) { assert all[i + 1] == fs[i]; }
    }
  }

  lemma {:induction false} NormalValueCleanIff(name: string, v: Json)
    ensures !Stripped(name) && name != PROTO ==> FieldClean(Field(name, NormalizeValue(name, v)))
    ensures EverywhereIn(name, NormalizeValue(name, v), NodeClean) <==> EverywhereIn(name, v, Harmless)
    decreases v, 1
  {
    if name == "properties" && v.Obj? {
      NormalPropsCleanIff(v.fields);
    } else if (name == "properties" || Combinator(name)) && v.Arr? {
      AllNormalClean(v.items);
      if name == "properties" { IndexedClean(v.items); }
    } else if name == "items" {
      NormalCleanIff(v);
    }
  }

  lemma IndexNamePlain(k: nat)
    ensures IndexName(k) != PROTO
  {
    var ds := Decimal.ToDigits(k);
    assert IndexName(k) != [] ==> IndexName(k)[0] == ('0' as int + ds[0] as int) as char;
  }

  lemma IndexedClean(vs: seq<Json>)
    ensures PropertiesClean(Obj(NormalizeIndexed(vs, 0)))
    ensures EveryProperty(NormalizeIndexed(vs, 0), NodeClean) <==> EveryItem(NormalizeAll(vs), NodeClean)
  {
    var ps, ns := NormalizeIndexed(vs, 0), NormalizeAll(vs);
    forall i | 0 <= i < |vs| ensures ps[i].name != PROTO && ps[i].value == ns[i] { IndexNamePlain(i); }
    SameValues(ps, ns, NodeClean);
  }

  lemma SameValues(ps: seq<Field>, ns: seq<Json>, p: seq<Field> -> bool)
    requires |ps| == |ns| && forall i :: 0 <= i < |ps| ==> ps[i].name != PROTO && ps[i].value == ns[i]
    ensures EveryProperty(ps, p) <==> EveryItem(ns, p)
  {
    if EveryProperty(ps, p) { forall i | 0 <= i < |ns| ensures Everywhere(ns[i], p) { assert Everywhere(ps[i].value, p); } }
  }

  ghost predicate EveryProperty(ps: seq<Field>, p: seq<Field> -> bool) {
    forall i :: 0 <= i < |ps| && ps[i].name != PROTO ==> Everywhere(ps[i].value, p)
  }

  lemma EveryPropertyCons(f: Field, ps: seq<Field>, p: seq<Field> -> bool)
    ensures EveryProperty([f] + ps, p) <==> (f.name != PROTO ==> Everywhere(f.value, p)) && EveryProperty(ps, p)
  {
    var all := [f] + ps;
    assert all[0] == f;
    if EveryProperty(all, p) {
      forall i | 0 <= i < |ps| && ps[i].name != PROTO ensures Everywhere(ps[i].value, p) { assert all[i + 1] == ps[i]; }
    }
  }

  lemma {:induction false} NormalPropsCleanIff(ps: seq<Field>)
    ensures PropertiesClean(Obj(NormalizeProps(ps)))
    ensures EveryProperty(NormalizeProps(ps), NodeClean) <==> EveryProperty(ps, Harmless)
    decreases ps, 1
  {
    if ps != [] {
      NormalPropsCleanIff(ps[1..]);
      NormalCleanIff(ps[0].value);
      assert ps == [ps[0]] + ps[1..];
      EveryPropertyCons(ps[0], ps[1..], Harmless);
      EveryPropertyCons(Field(ps[0].name, Normalize(ps[0].value)), NormalizeProps(ps[1..]), NodeClean);
    }
  }

  lemma {:induction false} CleanFixed(v: Json)
    requires Clean(v)
    ensures Normalize(v) == v
    decreases v, 0
  {
    match v
    case Arr(items) =>
      forall i | 0 <= i < |items| ensures Normalize(items[i]) == items[i] { CleanFixed(items[i]); }
      assert NormalizeAll(items) == items;
    case Obj(fs) =>
      CleanFieldsFixed(fs);
      NoProto([], fs);
    case _ =>
  }

  lemma {:induction false} CleanFieldsFixed(fs: seq<Field>)
    requires FieldsClean(fs)
    ensures NormalizeFields(fs) == fs
    decreases fs, 2
  {
    if fs != [] {
      assert FieldClean(fs[0]);
      CleanValueFixed(fs[0].name, fs[0].value);
      CleanFieldsFixed(fs[1..]);
    }
  }

  lemma {:induction false} CleanPropsFixed(ps: seq<Field>)
    requires PropertiesClean(Obj(ps)) && EveryProperty(ps, NodeClean)
    ensures NormalizeProps(ps) == ps
    decreases ps, 1
  {
    if ps != [] {
      CleanFixed(ps[0].value);
      CleanPropsFixed(ps[1..]);
    }
  }

  lemma {:induction false} CleanValueFixed(name: string, v: Json)
    requires FieldClean(Field(name, v)) && EverywhereIn(name, v, NodeClean)
    ensures NormalizeValue(name, v) == v
    decreases v, 1
  {
    if name == "properties" && v.Obj? {
      CleanPropsFixed(v.fields);
    } else if name == "items" && (v.Obj? || v.Arr?) {
      CleanFixed(v);
    } else if Combinator(name) && v.Arr? {
      forall i | 0 <= i < |v.items| ensures Normalize(v.items[i]) == v.items[i] { CleanFixed(v.items[i]); }
      assert NormalizeAll(v.items) == v.items;
    }
  }

  predicate Surviving(f: Field) { !Stripped(f.name) && f.name != PROTO }

  lemma {:induction false} NormalizedNames(fs: seq<Field>)
    ensures All(NormalizeFields(fs), Surviving) && |NormalizeFields(fs)| <= |fs|
    ensures |NormalizeFields(fs)| == |fs| ==> All(fs, Surviving)
    ensures |NormalizeFields(fs)| == |fs| ==> forall i :: 0 <= i < |fs| ==> NormalizeFields(fs)[i].value == NormalizeValue(fs[i].name, fs[i].value)
  {
    if fs != [] {
      NormalizedNames(fs[1..]);
      assert fs == [fs[0]] + fs[1..];
    }
  }

  lemma {:induction false} AllSurviveKept(fs: seq<Field>)
    requires All(fs, Surviving)
    ensures |NormalizeFields(fs)| == |fs|
  {
    if fs != [] { AllSurviveKept(fs[1..]); }
  }

  lemma CompleteNames(fs: seq<Field>, proto: seq<Field>)
    requires All(fs, Surviving)
    ensures All(Complete(fs, proto), Surviving) && fs <= Complete(fs, proto)
  {
    var p, a := Field("properties", Obj([])), Field("additionalProperties", Bool(false));
    assert Surviving(p) && Surviving(a);
  }

  /** A node that comes out as it was lost no field and gained none. */
  lemma FixedNode(fs: seq<Field>)
    requires Complete(NormalizeFields(fs), Proto([], fs)) == fs
    ensures All(fs, Surviving) && NormalizeFields(fs) == fs && Complete(fs, []) == fs
  {
    NormalizedNames(fs);
    CompleteNames(NormalizeFields(fs), Proto([], fs));
    AllSurviveKept(fs);
    NoProto([], fs);
  }

  lemma {:induction false} FixedClean(v: Json)
    requires Normalize(v) == v
    ensures Clean(v)
    decreases v, 0
  {
    match v
    case Arr(items) =>
      forall i | 0 <= i < |items| ensures Clean(items[i]) { assert NormalizeAll(items)[i] == items[i]; FixedClean(items[i]); }
    case Obj(fs) =>
      FixedNode(fs);
      NormalizedNames(fs);
      forall i | 0 <= i < |fs|
        ensures FieldClean(fs[i]) && EverywhereIn(fs[i].name, fs[i].value, NodeClean)
      {
        FixedValueClean(fs[i].name, fs[i].value);
      }
      LookupComplete(fs, [], "properties");
      LookupComplete(fs, [], "additionalProperties");
    case _ =>
  }

  lemma {:induction false} FixedValueClean(name: string, v: Json)
    requires !Stripped(name) && name != PROTO && NormalizeValue(name, v) == v
    ensures FieldClean(Field(name, v)) && EverywhereIn(name, v, NodeClean)
    decreases v, 1
  {
    if name == "properties" && v.Obj? {
      FixedPropsClean(v.fields);
    } else if name == "items" && (v.Obj? || v.Arr?) {
      FixedClean(v);
    } else if Combinator(name) && v.Arr? {
      forall i | 0 <= i < |v.items| ensures Clean(v.items[i]) { assert NormalizeAll(v.items)[i] == v.items[i]; FixedClean(v.items[i]); }
    }
  }

  lemma {:induction false} PropsShorter(ps: seq<Field>)
    ensures |NormalizeProps(ps)| <= |ps|
  {
    if ps != [] { PropsShorter(ps[1..]); }
  }

  lemma {:induction false} FixedPropsClean(ps: seq<Field>)
    requires NormalizeProps(ps) == ps
    ensures PropertiesClean(Obj(ps)) && EveryProperty(ps, NodeClean)
    decreases ps, 1
  {
    if ps != [] {
      PropsShorter(ps[1..]);
      assert ps[0].name != PROTO;
      assert NormalizeProps(ps)[0] == Field(ps[0].name, Normalize(ps[0].value)) && NormalizeProps(ps)[1..] == NormalizeProps(ps[1..]);
      FixedClean(ps[0].value);
      FixedPropsClean(ps[1..]);
      assert ps == [ps[0]] + ps[1..];
      EveryPropertyCons(ps[0], ps[1..], NodeClean);
    }
  }

  /** The normaliser leaves a value alone exactly when it is already in the form the providers want. */
  lemma FixedIffClean(v: Json)
    ensures Normalize(v) == v <==> Clean(v)
  {
    if Clean(v) { CleanFixed(v); } else if Normalize(v) == v { FixedClean(v); }
  }

  /** Once is enough exactly when no object node inherits what it lacks. */
  lemma IdempotentIff(v: Json)
    ensures Normalize(Normalize(v)) == Normalize(v) <==> Everywhere(v, Harmless)
  {
    NormalCleanIff(v);
    FixedIffClean(Normalize(v));
  }

  /** A node that inherits `properties` is left without any. */
  lemma InheritedProperties()
    ensures var fs := [Field("type", Str("object")), Field(PROTO, Obj([Field("properties", Obj([]))]))];
      Normalize(Obj(fs)) == Obj([Field("type", Str("object")), Field("additionalProperties", Bool(false))])
  {
    var t, hidden := Field("type", Str("object")), Field("properties", Obj([]));
    TwoFields(t, hidden);
    LookupOne(t, "type");
    LookupOne(t, "properties");
    LookupOne(t, "additionalProperties");
    LookupOne(hidden, "properties");
    LookupOne(hidden, "additionalProperties");
    assert |"type"| == 4 && |"properties"| == 10 && |"additionalProperties"| == 20;
  }

  lemma TwoFields(t: Field, hidden: Field)
    requires t.name == "type" && t.value == Str("object")
    ensures var fs := [t, Field(PROTO, Obj([hidden]))];
      NormalizeFields(fs) == [t] && Proto([], fs) == [hidden]
  {
    var p := Field(PROTO, Obj([hidden]));
    var fs := [t, p];
    assert fs[1..] == [p] && [p][1..] == [];
    assert NormalizeFields([]) == [] && NormalizeFields([p]) == [];
    assert [t] + [] == [t];
    assert Proto([hidden], []) == [hidden] && Proto([], [p]) == [hidden];
  }

  // ----- property names -----

  function Names(ps: seq<Field>): seq<string> { Map((f: Field) => f.name, ps) }

  lemma {:induction false} NormalizedPropNames(ps: seq<Field>)
    ensures Names(NormalizeProps(ps)) == Filter((n: string) => n != PROTO, Names(ps))
  {
    if ps != [] { NormalizedPropNames(ps[1..]); }
  }

  /**
   Property names are data: one spelt like a stripped keyword survives, none is added, and only `__proto__` is
   lost, so that all are kept exactly when no property has that name.
   */
  lemma PropertyNamesKeptIff(fs: seq<Field>, ps: seq<Field>)
    requires Lookup(fs, "properties") == Some(Obj(ps))
    ensures Lookup(Normalize(Obj(fs)).fields, "properties") == Some(Obj(NormalizeProps(ps)))
    ensures Names(NormalizeProps(ps)) == Filter((n: string) => n != PROTO, Names(ps))
    ensures Names(NormalizeProps(ps)) == Names(ps) <==> PROTO !in Names(ps)
  {
    LookupNormalized(fs, "properties");
    LookupComplete(NormalizeFields(fs), Proto([], fs), "properties");
    NormalizedPropNames(ps);
    FilterLength((n: string) => n != PROTO, Names(ps));
    if PROTO !in Names(ps) { FilterAll((n: string) => n != PROTO, Names(ps)); }
  }

  lemma {:induction false} PropsKept(ps: seq<Field>)
    requires forall i :: 0 <= i < |ps| ==> ps[i].name != PROTO
    ensures |NormalizeProps(ps)| == |ps|
    ensures forall i :: 0 <= i < |ps| ==> NormalizeProps(ps)[i] == Field(ps[i].name, Normalize(ps[i].value))
    decreases ps
  {
    if ps != [] { PropsKept(ps[1..]); }
  }

  lemma SafeLookups(properties: Json, required: Option<Json>)
    ensures var fs := Safe(properties, required).fields;
      && Lookup(fs, "type") == Some(Str("object"))
      && Lookup(fs, "properties") == Some(properties)
      && Lookup(fs, "required") == (if required.Some? && required.value.Arr? && required.value.items != [] then required else None)
      && Lookup(fs, "additionalProperties") == Some(Bool(false))
  {
    assert |"required"| == 8 && |"properties"| == 10 && |"additionalProperties"| == 20 && |"type"| == 4;
    SafeLookup(properties, required, "required");
    SafeLookup(properties, required, "additionalProperties");
    SafeLookup(properties, required, "type");
    SafeLookup(properties, required, "properties");
  }

  lemma SafeLookup(properties: Json, required: Option<Json>, name: string)
    ensures Lookup(Safe(properties, required).fields, name)
         == if name == "type" then Some(Str("object"))
            else if name == "properties" then Some(properties)
            else if name == "required" && RequiredField(required) != [] then Some(RequiredField(required)[0].value)
            else if name == "additionalProperties" then Some(Bool(false))
            else None
  {
    var a, b, c, d := Field("type", Str("object")), Field("properties", properties), RequiredField(required),
      Field("additionalProperties", Bool(false));
    LookupOne(a, name);
    LookupOne(b, name);
    LookupOne(d, name);
    if c != [] { LookupOne(c[0], name); }
    LookupAppend([a], [b], name);
    LookupAppend([a] + [b], c, name);
    LookupAppend([a] + [b] + c, [d], name);
    assert |"required"| == 8 && |"properties"| == 10 && |"additionalProperties"| == 20 && |"type"| == 4;
  }

  ghost predicate PropertiesSafe(properties: Json) { PropertiesClean(properties) && EverywhereIn("properties", properties, NodeClean) }

  /** Below the root no object inherits what it lacks; `properties` that the root itself inherits are in normal form. */
  ghost predicate RootHarmless(fs: seq<Field>) {
    match Lookup(fs, "properties")
    case Some(p) => EverywhereIn("properties", p, Harmless)
    case None => Lookup(Proto([], fs), "properties").Some? ==> PropertiesSafe(Lookup(Proto([], fs), "properties").value)
  }

  function PropertiesOf(fs: seq<Field>): Json {
    match See(Normalize(Obj(fs)).fields, Proto([], fs), "properties")
    case Some(p) => if p.Null? then Obj([]) else p
    case None => Obj([])
  }

  lemma SeenProperties(fs: seq<Field>)
    ensures PropertiesSafe(PropertiesOf(fs)) <==> RootHarmless(fs)
  {
    var ns, proto := NormalizeFields(fs), Proto([], fs);
    LookupNormalized(fs, "properties");
    LookupComplete(ns, proto, "properties");
    if Lookup(fs, "properties").Some? { NormalValueCleanIff("properties", Lookup(fs, "properties").value); }
  }

  lemma ToSafeIs(fs: seq<Field>)
    ensures ToSafe(Some(Obj(fs))) == Safe(PropertiesOf(fs), See(Normalize(Obj(fs)).fields, Proto([], fs), "required"))
  {
  }

  lemma SafeCleanIff(properties: Json, required: Option<Json>)
    ensures Clean(Safe(properties, required)) <==> PropertiesSafe(properties)
  {
    SafeLookups(properties, required);
    var fs := Safe(properties, required).fields;
    assert fs[1] == Field("properties", properties);
    if PropertiesSafe(properties) {
      forall i | 0 <= i < |fs|
        ensures FieldClean(fs[i]) && EverywhereIn(fs[i].name, fs[i].value, NodeClean)
      {
      }
    }
  }

  lemma NormalSafeLookup(properties: Json, required: Option<Json>, name: string)
    requires name == "properties" || name == "required"
    ensures var fs := Safe(properties, required).fields;
      See(Normalize(Obj(fs)).fields, Proto([], fs), name)
        == match Lookup(fs, name) case Some(v) => Some(NormalizeValue(name, v)) case None => None
  {
    var fs := Safe(properties, required).fields;
    SafeLookups(properties, required);
    NoProto([], fs);
    LookupNormalized(fs, name);
    LookupComplete(NormalizeFields(fs), [], name);
  }

  lemma SameRequired(properties: Json, required: Option<Json>, other: Option<Json>)
    requires RequiredField(required) == RequiredField(other)
    ensures Safe(properties, required) == Safe(properties, other)
  {
  }

  lemma NotNull(properties: Json)
    requires !properties.Null?
    ensures !NormalizeValue("properties", properties).Null?
  {
  }

  lemma SafePropertiesAgain(properties: Json, required: Option<Json>)
    requires !properties.Null?
    ensures PropertiesOf(Safe(properties, required).fields) == NormalizeValue("properties", properties)
  {
    NormalSafeLookup(properties, required, "properties");
    SafeLookups(properties, required);
    NotNull(properties);
  }

  lemma SafeRequiredAgain(properties: Json, required: Option<Json>)
    ensures var fs := Safe(properties, required).fields;
      RequiredField(See(Normalize(Obj(fs)).fields, Proto([], fs), "required")) == RequiredField(required)
  {
    NormalSafeLookup(properties, required, "required");
    SafeLookups(properties, required);
  }

  lemma SafeAgain(properties: Json, required: Option<Json>)
    requires !properties.Null?
    ensures ToSafe(Some(Safe(properties, required))) == Safe(NormalizeValue("properties", properties), required)
  {
    var fs := Safe(properties, required).fields;
    ToSafeIs(fs);
    SafePropertiesAgain(properties, required);
    SafeRequiredAgain(properties, required);
    SameRequired(NormalizeValue("properties", properties), See(Normalize(Obj(fs)).fields, Proto([], fs), "required"), required);
  }

  lemma SafeInjective(properties: Json, other: Json, required: Option<Json>)
    requires Safe(properties, required) == Safe(other, required)
    ensures properties == other
  {
    assert Safe(properties, required).fields[1] == Field("properties", properties);
    assert Safe(other, required).fields[1] == Field("properties", other);
  }

  lemma SafeAgainIff(properties: Json, required: Option<Json>)
    requires !properties.Null?
    ensures ToSafe(Some(Safe(properties, required))) == Safe(properties, required) <==> PropertiesSafe(properties)
  {
    SafeAgain(properties, required);
    if PropertiesSafe(properties) {
      CleanValueFixed("properties", properties);
    } else if Safe(NormalizeValue("properties", properties), required) == Safe(properties, required) {
      SafeInjective(NormalizeValue("properties", properties), properties, required);
      FixedValueClean("properties", properties);
    }
  }

  /**
   The root handed to a provider is closed and has properties; it is in normal form, and stable under a second
   pass, exactly when nothing harmful is inherited.
   */
  lemma SafeStableIff(input: Option<Json>)
    ensures Lookup(ToSafe(input).fields, "type") == Some(Str("object"))
    ensures Lookup(ToSafe(input).fields, "additionalProperties") == Some(Bool(false))
    ensures Lookup(ToSafe(input).fields, "properties").Some?
    ensures Clean(ToSafe(input)) <==> (input.Some? && input.value.Obj? ==> RootHarmless(input.value.fields))
    ensures ToSafe(Some(ToSafe(input))) == ToSafe(input) <==> Clean(ToSafe(input))
  {
    var properties, required := Obj([]), None;
    if input.Some? && input.value.Obj? {
      var fs := input.value.fields;
      SeenProperties(fs);
      ToSafeIs(fs);
      properties, required := PropertiesOf(fs), See(Normalize(Obj(fs)).fields, Proto([], fs), "required");
    }
    assert ToSafe(input) == Safe(properties, required);
    SafeLookups(properties, required);
    SafeCleanIff(properties, required);
    SafeAgainIff(properties, required);
  }
}
