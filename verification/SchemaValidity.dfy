/**
 Which instances a schema admits (JSON Schema 2020-12, Core sections 10.2.1, 10.3.1.2, 10.3.2 and
 Validation section 6) and how the normaliser changes that.  `strict` adds one demand: where a
 `type: object` node says nothing about additional properties, the instance has none.
 */
module SchemaValidity {
  import opened Prelude
  import opened Schema
  import opened SchemaMeaning

  predicate HasType(x: Json, t: string) {
    match x
    case Null => t == "null"
    case Bool(_) => t == "boolean"
    case Num(r) => t == "number" || (t == "integer" && r.Floor as real == r)
    case Str(_) => t == "string"
    case Arr(_) => t == "array"
    case Obj(_) => t == "object"
  }

  predicate TypeOk(fs: seq<Field>, x: Json) {
    match Lookup(fs, "type")
    case Some(Str(t)) => HasType(x, t)
    case Some(Arr(ts)) => exists i :: 0 <= i < |ts| && ts[i].Str? && HasType(x, ts[i].s)
    case _ => true
  }

  predicate ValuesOk(fs: seq<Field>, x: Json) {
    && (match Lookup(fs, "enum") case Some(Arr(vs)) => x in vs case _ => true)
    && (match Lookup(fs, "const") case Some(v) => x == v case None => true)
  }

  predicate RequiredOk(fs: seq<Field>, x: Json) {
    match Lookup(fs, "required")
    case Some(Arr(rs)) =>
      x.Obj? ==> forall i :: 0 <= i < |rs| && rs[i].Str? ==> Lookup(x.fields, rs[i].s).Some?
    case _ => true
  }

  predicate Bound(fs: seq<Field>, name: string, within: real -> bool) {
    match Lookup(fs, name)
    case Some(Num(b)) => within(b)
    case _ => true
  }

  predicate BoundsOk(fs: seq<Field>, x: Json) {
    match x
    case Num(r) =>
      && Bound(fs, "minimum", b => b <= r) && Bound(fs, "exclusiveMinimum", b => b < r)
      && Bound(fs, "maximum", b => r <= b) && Bound(fs, "exclusiveMaximum", b => r < b)
    case Str(s) => Bound(fs, "minLength", b => b <= |s| as real) && Bound(fs, "maxLength", b => |s| as real <= b)
    case Arr(items) => Bound(fs, "minItems", b => b <= |items| as real) && Bound(fs, "maxItems", b => |items| as real <= b)
    case _ => true
  }

  predicate Declared(fs: seq<Field>, name: string) {
    match Lookup(fs, "properties")
    case Some(Obj(ps)) => Lookup(ps, name).Some?
    case _ => false
  }

  predicate Undeclared(fs: seq<Field>, x: Json) {
    x.Obj? && exists i :: 0 <= i < |x.fields| && !Declared(fs, x.fields[i].name)
  }

  /** The keywords that look at no subschema. */
  predicate FlatOk(fs: seq<Field>, x: Json) {
    TypeOk(fs, x) && ValuesOk(fs, x) && RequiredOk(fs, x) && BoundsOk(fs, x)
  }

  ghost predicate Valid(s: Json, x: Json, strict: bool)
    decreases s, 0
  {
    match s
    case Bool(b) => b
    case Obj(fs) =>
      FlatOk(fs, x) && ChildrenValid(fs, x, strict) && CombinatorsValid(fs, x, strict)
    case _ => true
  }

  ghost predicate ChildrenValid(fs: seq<Field>, x: Json, strict: bool)
    decreases fs, 2
  {
    PropertiesValid(fs, x, strict) && AdditionalValid(fs, x, strict) && ItemsValid(fs, x, strict)
  }

  ghost predicate CombinatorsValid(fs: seq<Field>, x: Json, strict: bool)
    decreases fs, 2
  {
    && (Branches(fs, "anyOf").Some? ==> true in BranchVerdicts(fs, "anyOf", x, strict))
    && (Branches(fs, "allOf").Some? ==> false !in BranchVerdicts(fs, "allOf", x, strict))
    && (Branches(fs, "oneOf").Some? ==> multiset(BranchVerdicts(fs, "oneOf", x, strict))[true] == 1)
  }

  function Branches(fs: seq<Field>, name: string): Option<seq<Json>> {
    match Lookup(fs, name)
    case Some(Arr(ss)) => Some(ss)
    case _ => None
  }

  ghost function BranchVerdicts(fs: seq<Field>, name: string, x: Json, strict: bool): seq<bool>
    requires Branches(fs, name).Some?
    decreases fs, 1
  {
    LookupFind(fs, name);
    Verdicts(fs[Find(fs, name)].value.items, x, strict)
  }

  ghost function Verdicts(ss: seq<Json>, x: Json, strict: bool): (bs: seq<bool>)
    ensures |bs| == |ss|
    ensures forall k :: 0 <= k < |ss| ==> bs[k] == Valid(ss[k], x, strict)
    decreases ss, 1
  {
    if ss == [] then [] else [Valid(ss[0], x, strict)] + Verdicts(ss[1..], x, strict)
  }

  lemma BranchVerdictsAre(fs: seq<Field>, name: string, x: Json, strict: bool)
    requires Branches(fs, name).Some?
    ensures BranchVerdicts(fs, name, x, strict) == Verdicts(Branches(fs, name).value, x, strict)
  {
    LookupFind(fs, name);
  }

  ghost predicate PropertiesValid(fs: seq<Field>, x: Json, strict: bool)
    decreases fs, 1
  {
    var i := Find(fs, "properties");
    i < |fs| && fs[i].value.Obj? && x.Obj? ==>
      var ps := fs[i].value.fields;
      forall j :: 0 <= j < |ps| ==> PropertyValid(ps[j].value, Lookup(x.fields, ps[j].name), strict)
  }

  ghost predicate PropertyValid(s: Json, x: Option<Json>, strict: bool)
    decreases s, 1
  {
    x.Some? ==> Valid(s, x.value, strict)
  }

  /** The value of additionalProperties is not rewritten, so it is judged as it stands. */
  ghost predicate AdditionalValid(fs: seq<Field>, x: Json, strict: bool)
    decreases fs, 1
  {
    var i := Find(fs, "additionalProperties");
    && (i == |fs| && strict && Lookup(fs, "type") == Some(Str("object")) ==> !Undeclared(fs, x))
    && (i < |fs| && x.Obj? ==>
          forall k :: 0 <= k < |x.fields| ==>
            Declared(fs, x.fields[k].name) || Valid(fs[i].value, x.fields[k].value, false))
  }

  ghost predicate ItemsValid(fs: seq<Field>, x: Json, strict: bool)
    decreases fs, 1
  {
    var i := Find(fs, "items");
    i < |fs| && x.Arr? ==> forall k :: 0 <= k < |x.items| ==> Valid(fs[i].value, x.items[k], strict)
  }

  // ----- the conditions -----

  /** The value of `properties` is an object (Core section 10.3.2.1), and nothing is called `__proto__`. */
  predicate Proper(fs: seq<Field>) {
    forall i :: 0 <= i < |fs| ==> fs[i].name != PROTO && (fs[i].name == "properties" ==> PropertiesClean(fs[i].value))
  }

  /** Nothing the normaliser would weaken. */
  predicate Unweakened(fs: seq<Field>) {
    Proper(fs) && forall i :: 0 <= i < |fs| ==>
      !Stripped(fs[i].name) && (fs[i].name == "type" ==> fs[i].value != Str("integer"))
  }

  /** Nothing is weakened below a `oneOf`; anything may be elsewhere. */
  ghost predicate Gentle(fs: seq<Field>) {
    Proper(fs) && forall i :: 0 <= i < |fs| && fs[i].name == "oneOf" && fs[i].value.Arr? ==> EveryItem(fs[i].value.items, Unweakened)
  }

  // ----- the theorem, by cases of the node -----

  function NormalNode(fs: seq<Field>): seq<Field> { Complete(NormalizeFields(fs), Proto([], fs)) }

  lemma NormalType(fs: seq<Field>)
    requires Proper(fs)
    ensures NormalNode(fs) == Complete(NormalizeFields(fs), [])
    ensures Lookup(NormalizeFields(fs), "type") == Some(Str("object")) <==> Lookup(fs, "type") == Some(Str("object"))
  {
    NoProto([], fs);
    LookupFind(fs, "type");
    LookupNormalized(fs, "type");
  }

  lemma ProperLookup(fs: seq<Field>, name: string)
    requires Proper(fs)
    ensures Lookup(NormalizeFields(fs), name)
         == if Stripped(name) || Lookup(fs, name).None? then None else Some(NormalizeValue(name, Lookup(fs, name).value))
  {
    LookupFind(fs, name);
    LookupNormalized(fs, name);
  }

  lemma NodeLookup(fs: seq<Field>, name: string)
    requires Proper(fs)
    ensures Lookup(NormalNode(fs), "type") == Some(Str("object")) <==> Lookup(fs, "type") == Some(Str("object"))
    ensures Lookup(NormalNode(fs), name)
         == if Stripped(name) then None
            else if Lookup(fs, name).Some? then Some(NormalizeValue(name, Lookup(fs, name).value))
            else if Lookup(fs, "type") == Some(Str("object")) && name == "properties" then Some(Obj([]))
            else if Lookup(fs, "type") == Some(Str("object")) && name == "additionalProperties" then Some(Bool(false))
            else None
  {
    NormalType(fs);
    ProperLookup(fs, name);
    LookupComplete(NormalizeFields(fs), [], name);
    LookupComplete(NormalizeFields(fs), [], "type");
  }

  lemma {:induction false} NormalizePropsLookup(ps: seq<Field>, name: string)
    requires forall i :: 0 <= i < |ps| ==> ps[i].name != PROTO
    ensures Lookup(NormalizeProps(ps), name).Some? <==> Lookup(ps, name).Some?
  {
    if ps != [] { NormalizePropsLookup(ps[1..], name); }
  }

  lemma DeclaredSame(fs: seq<Field>, name: string)
    requires Proper(fs)
    ensures Declared(NormalNode(fs), name) <==> Declared(fs, name)
  {
    NodeLookup(fs, "properties");
    LookupFind(fs, "properties");
    match Lookup(fs, "properties")
    case Some(Obj(ps)) => NormalizePropsLookup(ps, name);
    case _ =>
  }

  lemma FlatKeywords(fs: seq<Field>, x: Json)
    requires Proper(fs)
    ensures FlatOk(fs, x) ==> FlatOk(NormalNode(fs), x)
    ensures FlatOk(NormalNode(fs), x) ==> ValuesOk(fs, x) && RequiredOk(fs, x)
  {
    TypeWeaker(fs, x);
    ValuesKept(fs, x);
    NodeLookup(fs, "required");
    BoundsGone(fs, x);
  }

  lemma ValuesKept(fs: seq<Field>, x: Json)
    requires Proper(fs)
    ensures ValuesOk(NormalNode(fs), x) <==> ValuesOk(fs, x)
  {
    NodeLookup(fs, "enum");
    NodeLookup(fs, "const");
  }

  lemma TypeWeaker(fs: seq<Field>, x: Json)
    requires Proper(fs)
    ensures TypeOk(fs, x) ==> TypeOk(NormalNode(fs), x)
    ensures Lookup(fs, "type") != Some(Str("integer")) && TypeOk(NormalNode(fs), x) ==> TypeOk(fs, x)
  {
    NodeLookup(fs, "type");
  }

  lemma BoundsGone(fs: seq<Field>, x: Json)
    requires Proper(fs)
    ensures BoundsOk(NormalNode(fs), x)
  {
    NodeLookup(fs, "minimum");
    NodeLookup(fs, "maximum");
    NodeLookup(fs, "exclusiveMinimum");
    NodeLookup(fs, "exclusiveMaximum");
    NodeLookup(fs, "minLength");
    NodeLookup(fs, "maxLength");
    NodeLookup(fs, "minItems");
    NodeLookup(fs, "maxItems");
  }

  lemma FlatUnweakened(fs: seq<Field>, x: Json)
    requires Unweakened(fs)
    ensures FlatOk(NormalNode(fs), x) ==> FlatOk(fs, x)
  {
    FlatKeywords(fs, x);
    TypeWeaker(fs, x);
    LookupFind(fs, "type");
    UnweakenedBounds(fs, x);
  }

  lemma UnweakenedBounds(fs: seq<Field>, x: Json)
    requires Unweakened(fs)
    ensures BoundsOk(fs, x)
  {
    LookupFind(fs, "minimum");
    LookupFind(fs, "maximum");
    LookupFind(fs, "exclusiveMinimum");
    LookupFind(fs, "exclusiveMaximum");
    LookupFind(fs, "minLength");
    LookupFind(fs, "maxLength");
    LookupFind(fs, "minItems");
    LookupFind(fs, "maxItems");
  }

  /** What the theorem says of one subschema; `exact` selects the equivalence. */
  ghost predicate Carries(s: Json, x: Json, exact: bool) {
    && (Valid(s, x, true) ==> Valid(Normalize(s), x, false))
    && (exact ==> Valid(Normalize(s), x, false) ==> Valid(s, x, true))
  }

  lemma AdditionalCarries(fs: seq<Field>, x: Json)
    requires Proper(fs)
    ensures AdditionalValid(fs, x, true) <==> AdditionalValid(NormalNode(fs), x, false)
  {
    var ns := NormalNode(fs);
    NodeLookup(fs, "additionalProperties");
    LookupFind(fs, "additionalProperties");
    LookupFind(ns, "additionalProperties");
    if x.Obj? {
      forall k | 0 <= k < |x.fields|
        ensures Declared(ns, x.fields[k].name) <==> Declared(fs, x.fields[k].name)
      {
        DeclaredSame(fs, x.fields[k].name);
      }
    }
  }

  ghost function Condition(exact: bool): seq<Field> -> bool { if exact then Unweakened else Gentle }

  /** Every subschema position in fs meets the condition. */
  ghost predicate Below(fs: seq<Field>, exact: bool) {
    Proper(fs) && forall i :: 0 <= i < |fs| ==> EverywhereIn(fs[i].name, fs[i].value, Condition(exact))
  }

  lemma PropertiesCarry(fs: seq<Field>, x: Json, exact: bool)
    requires Below(fs, exact)
    ensures PropertiesValid(fs, x, true) ==> PropertiesValid(NormalNode(fs), x, false)
    ensures exact && PropertiesValid(NormalNode(fs), x, false) ==> PropertiesValid(fs, x, true)
    decreases fs, 1
  {
    var ns := NormalNode(fs);
    NodeLookup(fs, "properties");
    LookupFind(fs, "properties");
    LookupFind(ns, "properties");
    var i, k := Find(fs, "properties"), Find(ns, "properties");
    if i < |fs| && fs[i].value.Obj? && x.Obj? {
      var ps := fs[i].value.fields;
      assert EverywhereIn(fs[i].name, fs[i].value, Condition(exact));
      PropsKept(ps);
      assert ns[k].value == Obj(NormalizeProps(ps));
      forall j | 0 <= j < |ps|
        ensures PropertyCarries(ps[j].value, Lookup(x.fields, ps[j].name), exact)
      {
        if Lookup(x.fields, ps[j].name).Some? { Meaning(ps[j].value, Lookup(x.fields, ps[j].name).value, exact); }
      }
    }
  }

  ghost predicate PropertyCarries(s: Json, x: Option<Json>, exact: bool) {
    && (PropertyValid(s, x, true) ==> PropertyValid(Normalize(s), x, false))
    && (exact ==> PropertyValid(Normalize(s), x, false) ==> PropertyValid(s, x, true))
  }

  lemma ItemsCarry(fs: seq<Field>, x: Json, exact: bool)
    requires Below(fs, exact)
    ensures ItemsValid(fs, x, true) ==> ItemsValid(NormalNode(fs), x, false)
    ensures exact && ItemsValid(NormalNode(fs), x, false) ==> ItemsValid(fs, x, true)
    decreases fs, 1
  {
    NodeLookup(fs, "items");
    LookupFind(fs, "items");
    LookupFind(NormalNode(fs), "items");
    var i := Find(fs, "items");
    if i < |fs| && x.Arr? {
      assert EverywhereIn(fs[i].name, fs[i].value, Condition(exact));
      forall k | 0 <= k < |x.items|
        ensures Carries(fs[i].value, x.items[k], exact)
      {
        if fs[i].value.Obj? || fs[i].value.Arr? { Meaning(fs[i].value, x.items[k], exact); }
      }
    }
  }

  lemma ChildrenCarry(fs: seq<Field>, x: Json, exact: bool)
    requires Below(fs, exact)
    ensures ChildrenValid(fs, x, true) ==> ChildrenValid(NormalNode(fs), x, false)
    ensures exact && ChildrenValid(NormalNode(fs), x, false) ==> ChildrenValid(fs, x, true)
    decreases fs, 2
  {
    AdditionalCarries(fs, x);
    PropertiesCarry(fs, x, exact);
    ItemsCarry(fs, x, exact);
  }

  ghost predicate Entails(bs: seq<bool>, cs: seq<bool>) {
    |bs| == |cs| && forall k :: 0 <= k < |bs| && bs[k] ==> cs[k]
  }

  /** Branch by branch, normalising may only turn a verdict true, and in the exact case turns none. */
  lemma BranchesCarry(fs: seq<Field>, name: string, x: Json, exact: bool)
    requires Proper(fs) && Combinator(name)
    requires Branches(fs, name).Some? ==> EveryItem(Branches(fs, name).value, Condition(exact))
    ensures Branches(NormalNode(fs), name).Some? <==> Branches(fs, name).Some?
    ensures Branches(fs, name).Some? ==>
      && Entails(BranchVerdicts(fs, name, x, true), BranchVerdicts(NormalNode(fs), name, x, false))
      && (exact ==> BranchVerdicts(fs, name, x, true) == BranchVerdicts(NormalNode(fs), name, x, false))
    decreases fs, 1
  {
    NodeBranches(fs, name);
    if Branches(fs, name).Some? {
      LookupFind(fs, name);
      BranchVerdictsAre(fs, name, x, true);
      BranchVerdictsAre(NormalNode(fs), name, x, false);
      BranchMeanings(fs, Find(fs, name), x, exact);
      VerdictsCarry(Branches(fs, name).value, x, exact);
    }
  }

  lemma BranchesBelow(fs: seq<Field>, name: string, exact: bool)
    requires Below(fs, exact) && Combinator(name)
    ensures Branches(fs, name).Some? ==> EveryItem(Branches(fs, name).value, Condition(exact))
  {
    LookupFind(fs, name);
    if Branches(fs, name).Some? { assert EverywhereIn(name, fs[Find(fs, name)].value, Condition(exact)); }
  }

  lemma NodeBranches(fs: seq<Field>, name: string)
    requires Proper(fs) && Combinator(name)
    ensures Branches(NormalNode(fs), name)
         == if Branches(fs, name).Some? then Some(NormalizeAll(Branches(fs, name).value)) else None
  {
    NodeLookup(fs, name);
  }

  lemma BranchMeanings(fs: seq<Field>, i: nat, x: Json, exact: bool)
    requires i < |fs| && fs[i].value.Arr? && EveryItem(fs[i].value.items, Condition(exact))
    ensures forall j :: 0 <= j < |fs[i].value.items| ==> Carries(fs[i].value.items[j], x, exact)
    decreases fs, 0
  {
    forall j | 0 <= j < |fs[i].value.items|
      ensures Carries(fs[i].value.items[j], x, exact)
    {
      Meaning(fs[i].value.items[j], x, exact);
    }
  }

  lemma VerdictsCarry(ss: seq<Json>, x: Json, exact: bool)
    requires forall j :: 0 <= j < |ss| ==> Carries(ss[j], x, exact)
    ensures Entails(Verdicts(ss, x, true), Verdicts(NormalizeAll(ss), x, false))
    ensures exact ==> Verdicts(ss, x, true) == Verdicts(NormalizeAll(ss), x, false)
  {
    var bs, cs, ts := Verdicts(ss, x, true), Verdicts(NormalizeAll(ss), x, false), NormalizeAll(ss);
    forall k | 0 <= k < |ss|
      ensures (bs[k] ==> cs[k]) && (exact ==> bs[k] == cs[k])
    {
      assert ts[k] == Normalize(ss[k]) && Carries(ss[k], x, exact);
    }
  }

  lemma BranchesReady(fs: seq<Field>, exact: bool)
    requires Below(fs, exact) && Condition(exact)(fs)
    ensures Branches(fs, "anyOf").Some? ==> EveryItem(Branches(fs, "anyOf").value, Condition(exact))
    ensures Branches(fs, "allOf").Some? ==> EveryItem(Branches(fs, "allOf").value, Condition(exact))
    ensures Branches(fs, "oneOf").Some? ==> EveryItem(Branches(fs, "oneOf").value, Unweakened)
  {
    BranchesBelow(fs, "anyOf", exact);
    BranchesBelow(fs, "allOf", exact);
    BranchesBelow(fs, "oneOf", exact);
    LookupFind(fs, "oneOf");
  }

  lemma CombinatorsCarry(fs: seq<Field>, x: Json, exact: bool)
    requires Below(fs, exact) && Condition(exact)(fs)
    ensures CombinatorsValid(fs, x, true) ==> CombinatorsValid(NormalNode(fs), x, false)
    ensures exact && CombinatorsValid(NormalNode(fs), x, false) ==> CombinatorsValid(fs, x, true)
    decreases fs, 2
  {
    BranchesReady(fs, exact);
    BranchesCarry(fs, "anyOf", x, exact);
    BranchesCarry(fs, "allOf", x, exact);
    BranchesCarry(fs, "oneOf", x, true);
  }

  lemma {:induction false} Meaning(s: Json, x: Json, exact: bool)
    requires Everywhere(s, Condition(exact))
    ensures Carries(s, x, exact)
    decreases s, 0
  {
    if s.Obj? {
      var fs := s.fields;
      assert Condition(exact)(fs);
      FlatKeywords(fs, x);
      if exact { FlatUnweakened(fs, x); }
      ChildrenCarry(fs, x, exact);
      CombinatorsCarry(fs, x, exact);
    }
  }

  /**
   An instance that a schema admits strictly is admitted by the normalised schema, provided nothing is weakened
   below a `oneOf`: weakening a branch there can make two match where one did.
   */
  lemma NormalizeKeepsStrictlyValid(s: Json, x: Json)
    requires Everywhere(s, Gentle) && Valid(s, x, true)
    ensures Valid(Normalize(s), x, false)
  {
    Meaning(s, x, false);
  }

  /** Without bounds and `integer` nothing is weakened, and the two notions coincide, `oneOf` included. */
  lemma NormalizeExact(s: Json, x: Json)
    requires Everywhere(s, Unweakened)
    ensures Valid(s, x, true) <==> Valid(Normalize(s), x, false)
  {
    Meaning(s, x, true);
  }

  // ----- the root handed to a provider -----

  ghost predicate OnlyDeclared(fs: seq<Field>, x: Json) {
    x.Obj? && forall k :: 0 <= k < |x.fields| ==> Declared(fs, x.fields[k].name)
  }

  lemma SafeFlat(properties: Json, required: Option<Json>, x: Json)
    requires x.Obj?
    ensures var fs := Safe(properties, required).fields;
      FlatOk(fs, x) <==> (match required
                          case Some(Arr(rs)) => forall i :: 0 <= i < |rs| && rs[i].Str? ==> Lookup(x.fields, rs[i].s).Some?
                          case _ => true)
  {
    SafeLookups(properties, required);
    SafeLookup(properties, required, "enum");
    SafeLookup(properties, required, "const");
    assert |"required"| == 8 && |"properties"| == 10 && |"additionalProperties"| == 20 && |"enum"| == 4 && "enum"[0] != "type"[0];
  }

  lemma SafeCombinators(properties: Json, required: Option<Json>, x: Json)
    ensures CombinatorsValid(Safe(properties, required).fields, x, false)
  {
    SafeLookup(properties, required, "anyOf");
    SafeLookup(properties, required, "allOf");
    SafeLookup(properties, required, "oneOf");
    assert |"required"| == 8 && |"properties"| == 10 && |"additionalProperties"| == 20 && |"type"| == 4;
  }

  /** The properties of a safe root are those of ns, or none. */
  lemma SafeChildren(ns: seq<Field>, properties: Json, required: Option<Json>, x: Json)
    requires match Lookup(ns, "properties") case Some(p) => properties == (if p.Null? then Obj([]) else p) case None => properties == Obj([])
    requires PropertiesValid(ns, x, false) && OnlyDeclared(ns, x)
    ensures ChildrenValid(Safe(properties, required).fields, x, false)
  {
    var fs := Safe(properties, required).fields;
    SafeLookups(properties, required);
    LookupFind(ns, "properties");
    LookupFind(fs, "properties");
    LookupFind(fs, "additionalProperties");
    assert AdditionalValid(fs, x, false) by {
      forall k | 0 <= k < |x.fields|
        ensures Declared(fs, x.fields[k].name)
      {
        assert Declared(ns, x.fields[k].name);
      }
    }
  }

  /**
   Arguments that the server's own schema admits, and that use only declared names, are admitted by the
   schema handed to the provider.
   */
  lemma SafeKeepsStrictlyValid(fs: seq<Field>, x: Json)
    requires Everywhere(Obj(fs), Gentle) && Valid(Obj(fs), x, true) && OnlyDeclared(fs, x)
    ensures Valid(ToSafe(Some(Obj(fs))), x, false)
  {
    NormalizeKeepsStrictlyValid(Obj(fs), x);
    var ns := NormalNode(fs);
    assert Gentle(fs);
    NoProto([], fs);
    assert Normalize(Obj(fs)) == Obj(ns);
    forall k | 0 <= k < |x.fields| ensures Declared(ns, x.fields[k].name) { DeclaredSame(fs, x.fields[k].name); }
    var safe := ToSafe(Some(Obj(fs)));
    var properties := match Lookup(ns, "properties") case Some(p) => (if p.Null? then Obj([]) else p) case None => Obj([]);
    var required := Lookup(ns, "required");
    SafeFlat(properties, required, x);
    SafeCombinators(properties, required, x);
    SafeChildren(ns, properties, required, x);
    assert safe == Safe(properties, required);
  }

  // ----- oneOf is a real exception -----

  lemma SingleLookups(f: Field)
    ensures forall name :: Lookup([f], name) == if name == f.name then Some(f.value) else None
    ensures forall name :: Find([f], name) == if name == f.name then 0 else 1
  {
    forall name: string
      ensures Lookup([f], name) == if name == f.name then Some(f.value) else None
      ensures Find([f], name) == if name == f.name then 0 else 1
    {
      LookupOne(f, name);
      LookupFind([f], name);
    }
  }

  lemma LoneField(f: Field, x: Json, strict: bool)
    requires f.name == "oneOf" || f.name == "minimum"
    ensures ChildrenValid([f], x, strict)
    ensures TypeOk([f], x) && ValuesOk([f], x) && RequiredOk([f], x)
  {
    SingleLookups(f);
    assert "items"[0] != "oneOf"[0];
    assert Find([f], "items") == 1 && Find([f], "properties") == 1 && Find([f], "additionalProperties") == 1;
    assert Lookup([f], "type") == None && Lookup([f], "enum") == None;
    assert Lookup([f], "const") == None && Lookup([f], "required") == None;
  }

  lemma OneOfAlone(ss: seq<Json>, x: Json, strict: bool)
    ensures Valid(Obj([Field("oneOf", Arr(ss))]), x, strict) <==> multiset(Verdicts(ss, x, strict))[true] == 1
  {
    var f := Field("oneOf", Arr(ss));
    LoneField(f, x, strict);
    OneOfUnbounded(f, x);
    OneOfBranches(ss, x, strict);
  }

  lemma OneOfUnbounded(f: Field, x: Json)
    requires f.name == "oneOf"
    ensures BoundsOk([f], x)
  {
    SingleLookups(f);
  }

  lemma OneOfBranches(ss: seq<Json>, x: Json, strict: bool)
    ensures CombinatorsValid([Field("oneOf", Arr(ss))], x, strict) <==> multiset(Verdicts(ss, x, strict))[true] == 1
  {
    var fs := [Field("oneOf", Arr(ss))];
    LookupOne(fs[0], "oneOf");
    LookupOne(fs[0], "anyOf");
    LookupOne(fs[0], "allOf");
    assert "anyOf"[0] != "oneOf"[0] && "allOf"[0] != "oneOf"[0];
    BranchVerdictsAre(fs, "oneOf", x, strict);
  }

  lemma MinimumAlone(m: real, r: real, strict: bool)
    ensures Valid(Obj([Field("minimum", Num(m))]), Num(r), strict) <==> m <= r
  {
    var f := Field("minimum", Num(m));
    LoneField(f, Num(r), strict);
    LookupOne(f, "anyOf");
    LookupOne(f, "allOf");
    LookupOne(f, "oneOf");
    MinimumBound(m, r);
  }

  lemma MinimumBound(m: real, r: real)
    ensures BoundsOk([Field("minimum", Num(m))], Num(r)) <==> m <= r
  {
    var f := Field("minimum", Num(m));
    LookupOne(f, "minimum");
    LookupOne(f, "maximum");
    LookupOne(f, "exclusiveMinimum");
    LookupOne(f, "exclusiveMaximum");
    assert "minimum"[1] != "maximum"[1];
  }

  lemma NormalizeAlone(f: Field)
    requires f.name == "oneOf" || f.name == "minimum"
    ensures Normalize(Obj([f])) == if f.name == "oneOf" then Obj([Field("oneOf", NormalizeValue("oneOf", f.value))]) else Obj([])
  {
    assert [f][1..] == [];
    assert NormalizeFields([]) == [];
    NoProto([], [f]);
    if f.name == "oneOf" {
      LookupOne(Field("oneOf", NormalizeValue("oneOf", f.value)), "type");
    }
  }

  /** A choice of a schema and `true`: valid, under oneOf, exactly when the schema is not. */
  lemma OrAnything(s: Json, x: Json, strict: bool)
    ensures Valid(Obj([Field("oneOf", Arr([s, Bool(true)]))]), x, strict) <==> !Valid(s, x, strict)
  {
    var ss := [s, Bool(true)];
    var bs := Verdicts(ss, x, strict);
    assert ss[0] == s && ss[1] == Bool(true);
    assert bs == [bs[0], true];
    OneOfAlone(ss, x, strict);
  }

  lemma NormalizeOrAnything(s: Json)
    ensures Normalize(Obj([Field("oneOf", Arr([s, Bool(true)]))])) == Obj([Field("oneOf", Arr([Normalize(s), Bool(true)]))])
  {
    NormalizeAlone(Field("oneOf", Arr([s, Bool(true)])));
    assert NormalizeAll([s, Bool(true)]) == [Normalize(s), Bool(true)];
  }

  /** Why a weakened `oneOf` is excluded above: the number 1 meets exactly one branch before and two after. */
  lemma OneOfCanBreak()
    ensures var s := Obj([Field("oneOf", Arr([Obj([Field("minimum", Num(2.0))]), Bool(true)]))]);
      Valid(s, Num(1.0), true) && !Valid(Normalize(s), Num(1.0), false)
  {
    var least := Obj([Field("minimum", Num(2.0))]);
    MinimumAlone(2.0, 1.0, true);
    OrAnything(least, Num(1.0), true);
    NormalizeOrAnything(least);
    NormalizeAlone(Field("minimum", Num(2.0)));
    OpenAdmits(Num(1.0), false);
    OrAnything(Obj([]), Num(1.0), false);
  }

  lemma OpenFlat(x: Json)
    ensures FlatOk([], x)
  {
  }

  lemma OpenChildren(x: Json, strict: bool)
    ensures ChildrenValid([], x, strict)
  {
    assert Find([], "properties") == 0 && Find([], "items") == 0 && Find([], "additionalProperties") == 0;
  }

  lemma OpenCombinators(x: Json, strict: bool)
    ensures CombinatorsValid([], x, strict)
  {
    assert Branches([], "anyOf") == None && Branches([], "allOf") == None && Branches([], "oneOf") == None;
  }

  lemma OpenAdmits(x: Json, strict: bool)
    ensures Valid(Obj([]), x, strict)
  {
    OpenFlat(x);
    OpenChildren(x, strict);
    OpenCombinators(x, strict);
  }

  // ----- a property called `__proto__` -----

  /** A schema of one property, which may hold anything. */
  function OneProperty(n: string): seq<Field> { [Field("type", Str("object"))] + [Field("properties", Obj([Field(n, Obj([]))]))] }

  lemma OnePropertyLookup(n: string, name: string)
    ensures Lookup(OneProperty(n), name)
         == if name == "type" then Some(Str("object"))
            else if name == "properties" then Some(Obj([Field(n, Obj([]))]))
            else None
  {
    var a, b := Field("type", Str("object")), Field("properties", Obj([Field(n, Obj([]))]));
    LookupOne(a, name);
    LookupOne(b, name);
    LookupAppend([a], [b], name);
    assert |"type"| == 4 && |"properties"| == 10;
  }

  lemma OnePropertyFlat(n: string, v: Json)
    ensures FlatOk(OneProperty(n), Obj([Field(n, v)]))
  {
    OnePropertyLookup(n, "type");
    OnePropertyLookup(n, "enum");
    OnePropertyLookup(n, "const");
    OnePropertyLookup(n, "required");
    assert |"required"| == 8 && |"properties"| == 10 && "enum"[0] != "type"[0] && |"const"| == 5;
  }

  lemma OnePropertyBranches(n: string, x: Json, strict: bool)
    ensures CombinatorsValid(OneProperty(n), x, strict)
  {
    OnePropertyLookup(n, "anyOf");
    OnePropertyLookup(n, "allOf");
    OnePropertyLookup(n, "oneOf");
    assert |"type"| == 4 && |"properties"| == 10;
  }

  lemma OnePropertyChildren(n: string, v: Json)
    ensures ChildrenValid(OneProperty(n), Obj([Field(n, v)]), true)
  {
    var fs, x := OneProperty(n), Obj([Field(n, v)]);
    OnePropertyLookup(n, "properties");
    OnePropertyLookup(n, "additionalProperties");
    assert |"additionalProperties"| == 20 && |"properties"| == 10 && |"type"| == 4;
    LookupFind(fs, "properties");
    LookupFind(fs, "additionalProperties");
    LookupOne(Field(n, Obj([])), n);
    LookupOne(Field(n, v), n);
    OpenAdmits(v, true);
  }

  lemma OnePropertyAdmits(n: string, v: Json)
    ensures Valid(Obj(OneProperty(n)), Obj([Field(n, v)]), true)
  {
    OnePropertyFlat(n, v);
    OnePropertyChildren(n, v);
    OnePropertyBranches(n, Obj([Field(n, v)]), true);
  }

  lemma OnePropertyGentle(n: string)
    requires n != PROTO
    ensures Everywhere(Obj(OneProperty(n)), Gentle)
  {
    assert |PROTO| == 9 && |"type"| == 4 && |"properties"| == 10 && |"items"| == 5 && |"oneOf"| == 5;
  }

  /** After normalising, a closed object node declares no property called `__proto__`. */
  lemma ProtoUndeclared(fs: seq<Field>)
    requires Lookup(fs, "properties").None? || Lookup(fs, "properties").value.Obj?
    ensures !Declared(NormalNode(fs), PROTO)
  {
    LookupNormalized(fs, "properties");
    LookupComplete(NormalizeFields(fs), Proto([], fs), "properties");
    match Lookup(fs, "properties")
    case Some(Obj(ps)) => ProtoDropped(ps);
    case _ =>
  }

  lemma {:induction false} ProtoDropped(ps: seq<Field>)
    ensures Lookup(NormalizeProps(ps), PROTO).None?
    decreases ps
  {
    if ps != [] { ProtoDropped(ps[1..]); }
  }

  lemma ClosedRefuses(ns: seq<Field>, x: Json)
    requires Lookup(ns, "additionalProperties") == Some(Bool(false)) && !Declared(ns, PROTO)
    requires x.Obj? && Lookup(x.fields, PROTO).Some?
    ensures !AdditionalValid(ns, x, false)
  {
    LookupFind(ns, "additionalProperties");
    LookupFind(x.fields, PROTO);
    var k := Find(x.fields, PROTO);
    assert !Declared(ns, x.fields[k].name);
  }

  /**
   An object schema that says nothing about additional properties is closed by the normaliser, and then refuses every
   instance with a field `__proto__`, also where it declared one.
   */
  lemma ProtoFieldRefused(fs: seq<Field>, x: Json)
    requires Lookup(fs, "type") == Some(Str("object")) && Lookup(fs, "additionalProperties").None?
    requires Lookup(fs, "properties").None? || Lookup(fs, "properties").value.Obj?
    requires Lookup(Proto([], fs), "additionalProperties").None?
    requires x.Obj? && Lookup(x.fields, PROTO).Some?
    ensures !Valid(Normalize(Obj(fs)), x, false)
  {
    LookupNormalized(fs, "type");
    LookupNormalized(fs, "additionalProperties");
    LookupComplete(NormalizeFields(fs), Proto([], fs), "additionalProperties");
    ProtoUndeclared(fs);
    ClosedRefuses(NormalNode(fs), x);
  }

  lemma OnePropertyRefused(v: Json)
    ensures !Valid(Normalize(Obj(OneProperty(PROTO))), Obj([Field(PROTO, v)]), false)
  {
    var fs := OneProperty(PROTO);
    assert |"additionalProperties"| == 20 && |"properties"| == 10 && |"type"| == 4 && |PROTO| == 9;
    NoProto([], fs);
    OnePropertyLookup(PROTO, "type");
    OnePropertyLookup(PROTO, "properties");
    OnePropertyLookup(PROTO, "additionalProperties");
    LookupOne(Field(PROTO, v), PROTO);
    ProtoFieldRefused(fs, Obj([Field(PROTO, v)]));
  }

  /** Valid arguments stay valid unless the property is called `__proto__`: then none are. */
  lemma PropertyUsableIff(n: string, v: Json)
    ensures Valid(Obj(OneProperty(n)), Obj([Field(n, v)]), true)
    ensures Valid(Normalize(Obj(OneProperty(n))), Obj([Field(n, v)]), false) <==> n != PROTO
  {
    OnePropertyAdmits(n, v);
    if n == PROTO {
      OnePropertyRefused(v);
    } else {
      OnePropertyGentle(n);
      NormalizeKeepsStrictlyValid(Obj(OneProperty(n)), Obj([Field(n, v)]));
    }
  }
}
