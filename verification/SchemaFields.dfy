/** What becomes of each field of a schema, by its name: the rewriting told without its own vocabulary. */
module SchemaFields {
  import opened Prelude
  import opened Schema
  import opened SchemaMeaning

  /** The eight keywords that some providers reject. */
  predicate Constraint(name: string) {
    || name == "minimum" || name == "maximum" || name == "exclusiveMinimum" || name == "exclusiveMaximum"
    || name == "minLength" || name == "maxLength" || name == "minItems" || name == "maxItems"
  }

  /** The fields that are rewritten in some way. */
  predicate Rewritten(name: string) {
    name == "type" || name == "properties" || name == "items" || name == "anyOf" || name == "oneOf" || name == "allOf"
  }

  lemma StrippedIs(name: string)
    ensures Stripped(name) <==> Constraint(name)
  {
  }

  lemma OutputLookup(fs: seq<Field>, name: string)
    ensures Lookup(fs, name).Some? ==>
      Lookup(Normalize(Obj(fs)).fields, name)
        == if Stripped(name) || name == PROTO then None else Some(NormalizeValue(name, Lookup(fs, name).value))
  {
    LookupNormalized(fs, name);
    LookupComplete(NormalizeFields(fs), Proto([], fs), name);
    NotAdded(name);
  }

  lemma NotAdded(name: string)
    ensures Stripped(name) || name == PROTO ==> name != "properties" && name != "additionalProperties"
  {
    StrippedIs(name);
    assert |PROTO| == 9 && |"properties"| == 10 && |"additionalProperties"| == 20;
  }

  /** A field of the input is missing from the output exactly when it is one of the eight, or called `__proto__`. */
  lemma MissingIff(fs: seq<Field>, name: string)
    requires Lookup(fs, name).Some?
    ensures Lookup(Normalize(Obj(fs)).fields, name).None? <==> Constraint(name) || name == "__proto__"
  {
    OutputLookup(fs, name);
    StrippedIs(name);
  }

  /** Every other field that is not rewritten is kept as it is. */
  lemma OthersKept(fs: seq<Field>, name: string)
    requires Lookup(fs, name).Some? && !Constraint(name) && name != "__proto__" && !Rewritten(name)
    ensures Lookup(Normalize(Obj(fs)).fields, name) == Lookup(fs, name)
  {
    OutputLookup(fs, name);
    StrippedIs(name);
  }

  lemma KeptNames(name: string)
    requires Rewritten(name)
    ensures !Stripped(name) && name != PROTO
  {
    StrippedIs(name);
    assert |PROTO| == 9 && |"minimum"| == 7 && |"minItems"| == 8 && |"exclusiveMinimum"| == 16;
  }

  /** An integer becomes a number; any other type is kept. */
  lemma TypeRewritten(fs: seq<Field>, v: Json)
    requires Lookup(fs, "type") == Some(v)
    ensures Lookup(Normalize(Obj(fs)).fields, "type") == Some(if v == Str("integer") then Str("number") else v)
  {
    KeptNames("type");
    OutputLookup(fs, "type");
  }

  lemma {:induction false} NormalPropsLookup(ps: seq<Field>, name: string)
    ensures Lookup(NormalizeProps(ps), name)
         == if name == PROTO || Lookup(ps, name).None? then None else Some(Normalize(Lookup(ps, name).value))
    decreases ps
  {
    if ps != [] { NormalPropsLookup(ps[1..], name); }
  }

  /** Each property's schema is normalised under its own name. */
  lemma PropertiesRewritten(fs: seq<Field>, ps: seq<Field>, name: string)
    requires Lookup(fs, "properties") == Some(Obj(ps)) && name != "__proto__"
    ensures var out := Lookup(Normalize(Obj(fs)).fields, "properties");
      && out.Some? && out.value.Obj?
      && Lookup(out.value.fields, name) == match Lookup(ps, name) case Some(v) => Some(Normalize(v)) case None => None
  {
    KeptNames("properties");
    OutputLookup(fs, "properties");
    NormalPropsLookup(ps, name);
  }

  /** `items` that are a schema, or a list of them, are normalised; anything else is kept. */
  lemma ItemsRewritten(fs: seq<Field>, v: Json)
    requires Lookup(fs, "items") == Some(v)
    ensures Lookup(Normalize(Obj(fs)).fields, "items") == Some(if v.Obj? || v.Arr? then Normalize(v) else v)
  {
    KeptNames("items");
    OutputLookup(fs, "items");
  }

  /** Each branch is normalised in its place. */
  lemma BranchesRewritten(fs: seq<Field>, name: string, v: Json)
    requires (name == "anyOf" || name == "oneOf" || name == "allOf") && Lookup(fs, name) == Some(v)
    ensures var out := Lookup(Normalize(Obj(fs)).fields, name);
      if v.Arr? then
        && out.Some? && out.value.Arr? && |out.value.items| == |v.items|
        && forall i :: 0 <= i < |v.items| ==> out.value.items[i] == Normalize(v.items[i])
      else out == Some(v)
  {
    KeptNames(name);
    OutputLookup(fs, name);
  }

  /** Lists are normalised item by item; what is neither list nor object is left alone. */
  lemma ElsewhereRewritten(v: Json)
    ensures v.Arr? ==> Normalize(v).Arr? && |Normalize(v).items| == |v.items|
    ensures v.Arr? ==> forall i :: 0 <= i < |v.items| ==> Normalize(v).items[i] == Normalize(v.items[i])
    ensures !v.Arr? && !v.Obj? ==> Normalize(v) == v
  {
  }

  // ----- the prototype -----

  /** An assignment to `__proto__` that sets the prototype: of anything but a number, a text or a truth value. */
  predicate SetsProto(f: Field) { f.name == "__proto__" && (f.value.Obj? || f.value.Arr? || f.value.Null?) }

  lemma {:induction false} UnsetProto(proto: seq<Field>, fs: seq<Field>)
    requires forall i :: 0 <= i < |fs| ==> !SetsProto(fs[i])
    ensures Proto(proto, fs) == proto
    decreases |fs|
  {
    if fs != [] { UnsetProto(proto, fs[1..]); }
  }

  lemma {:induction false} LastProto(proto: seq<Field>, fs: seq<Field>, i: nat)
    requires i < |fs| && SetsProto(fs[i]) && forall j :: i < j < |fs| ==> !SetsProto(fs[j])
    ensures Proto(proto, fs) == if fs[i].value.Obj? then fs[i].value.fields else []
    decreases |fs|
  {
    if i == 0 { UnsetProto(Assigned(proto, fs[0].value), fs[1..]); }
    else { LastProto(if fs[0].name == PROTO then Assigned(proto, fs[0].value) else proto, fs[1..], i - 1); }
  }

  /** What a node inherits: the fields of the last object it assigns to `__proto__`, unless a list or null comes after. */
  lemma InheritedIs(fs: seq<Field>)
    ensures (forall i :: 0 <= i < |fs| ==> !SetsProto(fs[i])) ==> Proto([], fs) == []
    ensures forall i :: 0 <= i < |fs| && SetsProto(fs[i]) && (forall j :: i < j < |fs| ==> !SetsProto(fs[j])) ==>
      Proto([], fs) == if fs[i].value.Obj? then fs[i].value.fields else []
  {
    if forall i :: 0 <= i < |fs| ==> !SetsProto(fs[i]) { UnsetProto([], fs); }
    forall i | 0 <= i < |fs| && SetsProto(fs[i]) && (forall j :: i < j < |fs| ==> !SetsProto(fs[j]))
      ensures Proto([], fs) == if fs[i].value.Obj? then fs[i].value.fields else []
    {
      LastProto([], fs, i);
    }
  }

  lemma SeenType(fs: seq<Field>)
    ensures See(NormalizeFields(fs), Proto([], fs), "type") == Some(Str("object")) <==> See(fs, Proto([], fs), "type") == Some(Str("object"))
  {
    KeptNames("type");
    LookupNormalized(fs, "type");
  }

  lemma SeenOther(fs: seq<Field>, name: string)
    requires name == "properties" || name == "additionalProperties"
    ensures See(NormalizeFields(fs), Proto([], fs), name).None? <==> See(fs, Proto([], fs), name).None?
    ensures Lookup(fs, name).None? ==> Lookup(NormalizeFields(fs), name).None?
  {
    StrippedIs(name);
    assert |PROTO| == 9 && |"properties"| == 10 && |"additionalProperties"| == 20 && |"minimum"| == 7 && |"minItems"| == 8
      && |"minLength"| == 9 && |"exclusiveMinimum"| == 16;
    LookupNormalized(fs, name);
  }

  /**
   A field that the input does not have is in the output exactly when the node is an object that neither has nor
   inherits it: an empty `properties`, or `additionalProperties: false`.
   */
  lemma AddedIff(fs: seq<Field>, name: string)
    requires Lookup(fs, name).None?
    ensures var isObject := See(fs, Proto([], fs), "type") == Some(Str("object"));
      Lookup(Normalize(Obj(fs)).fields, name) ==
        if name == "properties" && isObject && Lookup(Proto([], fs), "properties").None? then Some(Obj([]))
        else if name == "additionalProperties" && isObject && Lookup(Proto([], fs), "additionalProperties").None? then Some(Bool(false))
        else None
  {
    LookupNormalized(fs, name);
    LookupComplete(NormalizeFields(fs), Proto([], fs), name);
    SeenType(fs);
    if name == "properties" || name == "additionalProperties" { SeenOther(fs, name); }
  }

  /** The root for a provider: the normalised properties, the required names if there are any, and nothing else of it. */
  lemma SafeRoot(fs: seq<Field>, name: string)
    requires forall i :: 0 <= i < |fs| ==> fs[i].name != "__proto__"
    ensures var out := Lookup(ToSafe(Some(Obj(fs))).fields, name);
      && (name == "type" ==> out == Some(Str("object")))
      && (name == "additionalProperties" ==> out == Some(Bool(false)))
      && (name == "properties" ==>
            out == match Lookup(Normalize(Obj(fs)).fields, "properties")
                   case Some(p) => Some(if p == Null then Obj([]) else p)
                   case None => Some(Obj([])))
      && (name == "required" ==>
            out == match Lookup(fs, "required") case Some(Arr(rs)) => (if rs == [] then None else Some(Arr(rs))) case _ => None)
      && (name != "type" && name != "additionalProperties" && name != "properties" && name != "required" ==> out == None)
  {
    NoProto([], fs);
    ToSafeIs(fs);
    RequiredSeen(fs);
    SafeLookup(PropertiesOf(fs), See(Normalize(Obj(fs)).fields, [], "required"), name);
  }

  lemma RequiredSeen(fs: seq<Field>)
    ensures Lookup(Normalize(Obj(fs)).fields, "required") == Lookup(fs, "required")
  {
    StrippedIs("required");
    assert |PROTO| == 9 && |"required"| == 8 && |"properties"| == 10 && |"additionalProperties"| == 20 && |"type"| == 4 && |"items"| == 5;
    assert "required"[0] == 'r' && "minItems"[0] == 'm' && "maxItems"[0] == 'm';
    if Lookup(fs, "required").Some? { OutputLookup(fs, "required"); } else { AddedIff(fs, "required"); }
  }

  /** Without a schema the root is an object without properties. */
  lemma SafeNothing(v: Json)
    requires !v.Obj?
    ensures ToSafe(None) == ToSafe(Some(v)) == Obj([Field("type", Str("object")), Field("properties", Obj([])), Field("additionalProperties", Bool(false))])
  {
  }
}
