/** What the loader makes of a printed section, and when printing that again gives the same text. */
module ReasoningRoundTrip {
  import opened Prelude
  import opened PyString
  import opened Sanitize
  import opened ReasoningConfig
  import opened ReasoningKeys
  import opened ReasoningSection
  import opened ReasoningPrinter
  import T = Toml
  import L = TomlLines

  // ----- the text parses -----

  ghost predicate Doubles(py: Python, p: Printout) { py.isDouble(p.cosine) && py.isDouble(p.confidence) }

  lemma StringsPrintable(ss: seq<string>)
    requires forall i :: 0 <= i < |ss| ==> All(ss[i], T.PlainChar)
    ensures T.Printable(Strings(ss))
  {
  }

  lemma GlobsPrintable(ss: seq<string>)
    requires All(ss, GoodGlob)
    ensures T.Printable(Strings(ss))
  {
    forall i | 0 <= i < |ss| ensures All(ss[i], T.PlainChar) { GoodGlobFixed(ss[i]); }
    StringsPrintable(ss);
  }

  lemma CommandPrintable(parts: seq<string>)
    requires GoodCommand(parts)
    ensures T.Printable(Strings(parts))
  {
    forall i | 0 <= i < |parts| ensures All(parts[i], T.PlainChar) { ArgvPlain(parts[i]); }
    StringsPrintable(parts);
  }

  lemma LevelPrintable(py: Python, r: real)
    requires Faithful(py) && py.isDouble(r) && 0.0 <= r <= 1.0
    ensures T.Printable(T.Float(py.repr(r))) && py.valueOf(py.repr(r)) == r
  {
  }

  predicate Plain(k: Key) {
    !k.MiningModels? && !k.Categories? && !k.ClusterCosine? && !k.MinConfidence? && !k.DistillLlmModel? && !k.DistillLlmEndpoint?
    && !k.DistillLlmUnloadCmd? && !k.DistillLlmLoadCmd?
  }

  lemma PlainPrintable(py: Python, p: Printout, k: Key)
    requires GoodLimits(p.limits) && Plain(k)
    ensures T.Printable(FieldValue(py, p, k))
  {
  }

  lemma FieldPrintable(py: Python, p: Printout, k: Key)
    requires Faithful(py) && Doubles(py, p) && GoodPrintout(p)
    ensures T.Printable(FieldValue(py, p, k))
  {
    match k
    case MiningModels => GlobsPrintable(p.models);
    case Categories => GlobsPrintable(p.categories);
    case ClusterCosine => LevelPrintable(py, p.cosine);
    case MinConfidence => LevelPrintable(py, p.confidence);
    case DistillLlmModel => GlobPlain(p.llm.model);
    case DistillLlmEndpoint => UrlPlain(p.llm.endpoint);
    case DistillLlmUnloadCmd => CommandPrintable(p.llm.unload);
    case DistillLlmLoadCmd => CommandPrintable(p.llm.load);
    case _ => PlainPrintable(py, p, k);
  }

  lemma ValuesGood(py: Python, p: Printout)
    requires Faithful(py) && Doubles(py, p) && GoodPrintout(p)
    ensures All(Fields(Values(py, p)), GoodField)
  {
    forall i | 0 <= i < |PRINTED| ensures T.Printable(Values(py, p)(PRINTED[i])) { FieldPrintable(py, p, PRINTED[i]); }
    FieldsGood(Values(py, p));
  }

  lemma MapEntryGood(m: Mapping)
    requires GoodMapping(m)
    ensures GoodEntry(MapEntry(m))
  {
    GlobPlain(m.target);
    GlobPlain(m.source);
  }

  lemma TargetEntryGood(t: Target)
    requires GoodTarget(t)
    ensures GoodEntry(TargetEntry(t))
  {
  }

  lemma EntriesGood(p: Printout)
    requires GoodPrintout(p)
    ensures All(MapEntries(p.maps), GoodEntry) && All(TargetEntries(p.targets), GoodEntry) && L.DistinctKeys(TargetEntries(p.targets))
  {
    forall i | 0 <= i < |p.maps| ensures GoodEntry(MapEntry(p.maps[i])) { MapEntryGood(p.maps[i]); }
    forall i | 0 <= i < |p.targets| ensures GoodEntry(TargetEntry(p.targets[i])) { TargetEntryGood(p.targets[i]); }
  }

  predicate DistinctMaps(ms: seq<Mapping>) { forall i, j :: 0 <= i < j < |ms| ==> ms[i].target != ms[j].target }

  lemma DistinctEntries(ms: seq<Mapping>)
    ensures L.DistinctKeys(MapEntries(ms)) <==> DistinctMaps(ms)
  {
    var es := MapEntries(ms);
    forall i | 0 <= i < |ms| ensures es[i].key == ms[i].target {}
    if !DistinctMaps(ms) {
      var i, j :| 0 <= i < j < |ms| && ms[i].target == ms[j].target;
      assert es[i].key == es[j].key;
    }
  }

  function DocOf(py: Python, p: Printout): T.Doc { ThreeTables(Fields(Values(py, p)), MapEntries(p.maps), TargetEntries(p.targets)) }

  /** The printed text is valid TOML exactly when the targets of the injection map are different. */
  lemma TextParsesIff(py: Python, p: Printout)
    requires Faithful(py) && Doubles(py, p) && GoodPrintout(p)
    ensures T.Parse(SectionText(py, p)) == if DistinctMaps(p.maps) then Some(DocOf(py, p)) else None
  {
    ValuesGood(py, p);
    EntriesGood(p);
    DistinctEntries(p.maps);
    FieldsSeparate(Values(py, p));
    SectionParsesIff(Fields(Values(py, p)), MapEntries(p.maps), TargetEntries(p.targets));
  }

  // ----- loading a value that was read -----

  function RawStrings(py: Python, ss: seq<string>): seq<Raw> { RawAll(py, Map((s: string) => T.Str(s), ss)) }

  predicate Reads(py: Python, data: Data, k: Key, v: T.Value) { data(k) == Some(RawOf(py, v)) }

  lemma BoolBack(py: Python, data: Data, k: Key, b: bool, default: bool)
    requires Reads(py, data, k, T.Bool(b))
    ensures BoolField(data, k, default) == b
  {
  }

  lemma IntBack(py: Python, data: Data, k: Key, n: int, default: int, lo: int, hi: int)
    requires Reads(py, data, k, T.Int(n)) && lo <= n <= hi
    ensures IntField(data, k, default, lo, hi) == Some(n)
  {
  }

  lemma LevelBack(py: Python, data: Data, k: Key, r: real, default: real, lo: real, nanIsError: bool)
    requires Reads(py, data, k, T.Float(py.repr(r))) && lo <= r <= 1.0 && py.valueOf(py.repr(r)) == r
    ensures LevelField(data, k, default, lo, nanIsError) == Some(r)
  {
  }

  lemma TextBack(py: Python, data: Data, k: Key, s: string)
    requires Reads(py, data, k, T.Str(s))
    ensures TextField(data, k) == s
  {
  }

  lemma ElementsBack(py: Python, data: Data, k: Key, ss: seq<string>)
    requires Reads(py, data, k, Strings(ss))
    ensures Elements(data, k) == RawStrings(py, ss)
  {
  }

  lemma TakeAll<A>(s: seq<A>, n: nat)
    requires |s| <= n
    ensures Take(s, n) == s
  {
  }

  lemma RawStringsText(py: Python, ss: seq<string>)
    ensures |RawStrings(py, ss)| == |ss| && forall i :: 0 <= i < |ss| ==> RawStrings(py, ss)[i].text == Some(ss[i])
  {
  }

  lemma TextsBack(xs: seq<Raw>, ss: seq<string>, cut: Raw -> string)
    requires |xs| == |ss| && forall i :: 0 <= i < |ss| ==> xs[i].text == Some(ss[i]) && cut(xs[i]) == ss[i]
    ensures Map(cut, xs) == ss
  {
  }

  lemma NoneBlank(xs: seq<Raw>, ss: seq<string>)
    requires |xs| == |ss| && forall i :: 0 <= i < |ss| ==> xs[i].text == Some(ss[i])
    requires All(ss, GoodGlob)
    ensures Nonblank(xs) == xs
  {
    forall x | x in xs
      ensures Strip(TextOf(x)) != ""
    {
      var i :| 0 <= i < |xs| && xs[i] == x;
      StripTrimmed(ss[i]);
    }
    FilterAll((x: Raw) => Strip(TextOf(x)) != "", xs);
  }

  /** Clean strings pass a loader of lists unchanged. */
  lemma ListBack(py: Python, ss: seq<string>, n: nat, len: nat, cut: Raw -> string)
    requires GoodGlobs(ss, n, len) && forall x: Raw :: |TextOf(x)| <= len ==> cut(x) == TextOf(x)
    ensures Map(cut, Nonblank(Take(RawStrings(py, ss), n))) == ss
  {
    var xs := RawStrings(py, ss);
    RawStringsText(py, ss);
    TakeAll(xs, n);
    NoneBlank(xs, ss);
    TextsBack(xs, ss, cut);
  }

  lemma ModelsBack(py: Python, data: Data, ss: seq<string>)
    requires Reads(py, data, MiningModels, Strings(ss)) && GoodGlobs(ss, 100, 128)
    ensures ModelsField(data) == ss
  {
    ElementsBack(py, data, MiningModels, ss);
    ListBack(py, ss, 100, 128, (x: Raw) => Take(TextOf(x), 128));
  }

  lemma CategoriesBack(py: Python, data: Data, ss: seq<string>)
    requires Reads(py, data, Categories, Strings(ss)) && GoodGlobs(ss, 50, 64)
    ensures CategoriesField(data) == CategoriesOr(ss)
  {
    ElementsBack(py, data, Categories, ss);
    ListBack(py, ss, 50, 64, (x: Raw) => Take(TextOf(x), 64));
    assert |RawStrings(py, ss)| == |ss|;
  }

  lemma PartBack(p: string)
    requires GoodPart(p)
    ensures Strip(p) == p && ArgvPart(p) && Take(p, STR_MAX_LEN) == p
  {
    PartPrinted(p);
    ArgvPlain(p);
    StripTrimmed(p);
  }

  lemma CommandBack(py: Python, data: Data, k: Key, parts: seq<string>)
    requires Reads(py, data, k, Strings(parts)) && GoodCommand(parts)
    ensures CommandField(data, k) == parts
  {
    ElementsBack(py, data, k, parts);
    var xs := RawStrings(py, parts);
    var stripped := Stripped(xs);
    forall i | 0 <= i < |parts|
      ensures stripped[i] == parts[i] && ArgvPart(parts[i]) && Take(parts[i], STR_MAX_LEN) == parts[i]
    {
      PartBack(parts[i]);
      assert xs[i].text == Some(parts[i]);
    }
    assert stripped == parts;
    assert Map((p: string) => Take(p, STR_MAX_LEN), parts) == parts;
  }

  // ----- loading the subtables -----

  function RawMapping(py: Python, m: Mapping): RawEntry { RawEntryOf(py, MapEntry(m)) }

  lemma MappingBack(py: Python, m: Mapping)
    requires GoodMapping(m)
    ensures MappingOfEntry(RawMapping(py, m)) == [m]
  {
    GoodGlobFixed(m.target);
    GoodGlobFixed(m.source);
  }

  lemma {:induction false} FlatMapBack<A, B>(f: A -> seq<B>, raw: seq<A>, s: seq<B>)
    requires |raw| == |s| && forall i :: 0 <= i < |s| ==> f(raw[i]) == [s[i]]
    ensures FlatMap(f, raw) == s
  {
    if s != [] {
      FlatMapBack(f, raw[..|s| - 1], s[..|s| - 1]);
      assert s == s[..|s| - 1] + [s[|s| - 1]];
    }
  }

  lemma RawMappingAt(py: Python, ms: seq<Mapping>, i: nat)
    requires i < |ms|
    ensures |RawEntries(py, MapEntries(ms))| == |ms| && RawEntries(py, MapEntries(ms))[i] == RawMapping(py, ms[i])
  {
  }

  lemma MappingsBack(py: Python, data: Data, ms: seq<Mapping>)
    requires data(InjectionMap) == Some(RawTable(py, MapEntries(ms))) && All(ms, GoodMapping)
    ensures InjectionField(data) == ms
  {
    var raw := RawEntries(py, MapEntries(ms));
    forall i | 0 <= i < |ms|
      ensures MappingOfEntry(raw[i]) == [ms[i]]
    {
      RawMappingAt(py, ms, i);
      MappingBack(py, ms[i]);
    }
    FlatMapBack(MappingOfEntry, raw, ms);
  }

  lemma {:induction false} SetTargetNew(ts: seq<Target>, t: Target)
    requires forall i :: 0 <= i < |ts| ==> ts[i].model != t.model
    ensures SetTarget(ts, t) == ts + [t]
  {
    if ts != [] {
      assert ts[0].model != t.model;
      forall i | 0 <= i < |ts[1..]| ensures ts[1..][i].model != t.model { assert ts[i + 1].model != t.model; }
      SetTargetNew(ts[1..], t);
      assert ts == [ts[0]] + ts[1..];
    }
  }

  function RawTarget(py: Python, t: Target): RawEntry { RawEntryOf(py, TargetEntry(t)) }

  lemma TargetStepBack(py: Python, ts: seq<Target>, t: Target)
    requires GoodTarget(t) && forall i :: 0 <= i < |ts| ==> ts[i].model != t.model
    ensures TargetStep(ts, RawTarget(py, t)) == Some(ts + [t])
  {
    ModelGlob(t.model);
    StripTrimmed(t.model);
    SetTargetNew(ts, t);
    assert Take(t.model, 128) == t.model;
    assert NamedStep(ts, t.model, Value(t.count)) == Some(SetTarget(ts, t));
  }

  function RawTargets(py: Python, ts: seq<Target>): seq<RawEntry> { Map((t: Target) => RawTarget(py, t), ts) }

  lemma TargetAt(py: Python, ts: seq<Target>, i: nat)
    requires GoodTargets(ts) && i < |ts|
    ensures TargetStep(ts[..i], RawTarget(py, ts[i])) == Some(ts[..i + 1])
  {
    assert GoodTarget(ts[i]);
    TargetStepBack(py, ts[..i], ts[i]);
    assert ts[..i + 1] == ts[..i] + [ts[i]];
  }

  lemma {:induction false} FoldPrefixes<A, S>(step: (S, A) -> Option<S>, s: seq<A>, states: seq<S>, n: nat)
    requires |states| == |s| + 1 && n <= |s|
    requires forall i :: 0 <= i < |s| ==> step(states[i], s[i]) == Some(states[i + 1])
    ensures Fold(step, states[0], s[..n]) == Some(states[n])
  {
    if n > 0 {
      FoldPrefixes(step, s, states, n - 1);
      FoldMore(step, states[0], s, n - 1);
    }
  }

  lemma TargetsBack(py: Python, ts: seq<Target>)
    requires GoodTargets(ts)
    ensures Fold(TargetStep, [], RawTargets(py, ts)) == Some(ts)
  {
    var raw := RawTargets(py, ts);
    var states := seq(|ts| + 1, i requires 0 <= i <= |ts| => ts[..i]);
    forall i | 0 <= i < |raw|
      ensures TargetStep(states[i], raw[i]) == Some(states[i + 1])
    {
      TargetAt(py, ts, i);
    }
    FoldPrefixes(TargetStep, raw, states, |raw|);
    assert raw[..|raw|] == raw && ts[..|ts|] == ts && ts[..0] == [];
  }

  lemma TargetTableBack(py: Python, data: Data, ts: seq<Target>)
    requires GoodTargets(ts) && data(PatternTargets) == Some(RawTable(py, TargetEntries(ts)))
    ensures TargetsField(data) == Some(ts)
  {
    assert RawEntries(py, TargetEntries(ts)) == RawTargets(py, ts);
    TargetsBack(py, ts);
  }

  // ----- loading the fields, whatever function gives their values -----

  ghost predicate ShowsFlags(value: Key -> T.Value, f: Flags) {
    && value(MiningEnabled) == T.Bool(f.mining) && value(InjectionEnabled) == T.Bool(f.injection)
    && value(DistillUseLlm) == T.Bool(f.useLlm) && value(AllowRemoteEndpoints) == T.Bool(f.allowRemote)
    && value(RedactSecrets) == T.Bool(f.redact)
  }

  ghost predicate ShowsSizes(value: Key -> T.Value, l: Limits) {
    && value(MinTraceChars) == T.Int(l.minTraceChars) && value(MaxTraceChars) == T.Int(l.maxTraceChars)
    && value(ScanLookbackDays) == T.Int(l.scanLookbackDays) && value(RetentionDays) == T.Int(l.retentionDays)
    && value(MaxTracesTotal) == T.Int(l.maxTracesTotal)
  }

  ghost predicate ShowsCounts(value: Key -> T.Value, l: Limits) {
    && value(MinClusterSupport) == T.Int(l.minClusterSupport) && value(MinPatternsPerCategory) == T.Int(l.minPatternsPerCategory)
    && value(InjectionMaxPatterns) == T.Int(l.injectionMaxPatterns) && value(InjectionMaxChars) == T.Int(l.injectionMaxChars)
  }

  ghost predicate ShowsLevels(py: Python, value: Key -> T.Value, p: Printout) {
    value(ClusterCosine) == T.Float(py.repr(p.cosine)) && value(MinConfidence) == T.Float(py.repr(p.confidence))
  }

  ghost predicate ShowsLlm(value: Key -> T.Value, l: Llm) {
    && value(DistillLlmModel) == T.Str(l.model) && value(DistillLlmEndpoint) == T.Str(l.endpoint)
    && value(DistillLlmUnloadCmd) == Strings(l.unload) && value(DistillLlmLoadCmd) == Strings(l.load)
  }

  ghost predicate ShowsLists(value: Key -> T.Value, p: Printout) {
    value(MiningModels) == Strings(p.models) && value(Categories) == Strings(p.categories)
  }

  ghost predicate Shows(py: Python, value: Key -> T.Value, p: Printout) {
    && ShowsFlags(value, p.flags) && ShowsSizes(value, p.limits) && ShowsCounts(value, p.limits)
    && ShowsLevels(py, value, p) && ShowsLlm(value, p.llm) && ShowsLists(value, p)
  }

  ghost predicate ReadsAll(py: Python, data: Data, value: Key -> T.Value) {
    forall k {:trigger Asked(k)} :: Asked(k) && Printed(k) ==> Reads(py, data, k, value(k))
  }

  lemma ReadsAt(py: Python, data: Data, value: Key -> T.Value, k: Key, v: T.Value)
    requires ReadsAll(py, data, value) && Printed(k) && value(k) == v
    ensures Reads(py, data, k, v)
  {
    assert Asked(k);
  }

  lemma BoolRead(py: Python, data: Data, value: Key -> T.Value, k: Key, b: bool, default: bool)
    requires ReadsAll(py, data, value) && Printed(k) && value(k) == T.Bool(b)
    ensures BoolField(data, k, default) == b
  {
    ReadsAt(py, data, value, k, T.Bool(b));
    BoolBack(py, data, k, b, default);
  }

  lemma IntRead(py: Python, data: Data, value: Key -> T.Value, k: Key, n: int, default: int, lo: int, hi: int)
    requires ReadsAll(py, data, value) && Printed(k) && value(k) == T.Int(n) && lo <= n <= hi
    ensures IntField(data, k, default, lo, hi) == Some(n)
  {
    ReadsAt(py, data, value, k, T.Int(n));
    IntBack(py, data, k, n, default, lo, hi);
  }

  lemma FlagsBack(py: Python, data: Data, value: Key -> T.Value, f: Flags)
    requires ReadsAll(py, data, value) && ShowsFlags(value, f)
    ensures FlagsField(data) == f
  {
    BoolRead(py, data, value, MiningEnabled, f.mining, false);
    BoolRead(py, data, value, InjectionEnabled, f.injection, false);
    BoolRead(py, data, value, DistillUseLlm, f.useLlm, false);
    BoolRead(py, data, value, AllowRemoteEndpoints, f.allowRemote, false);
    BoolRead(py, data, value, RedactSecrets, f.redact, true);
  }

  lemma SizesBack(py: Python, data: Data, value: Key -> T.Value, l: Limits)
    requires ReadsAll(py, data, value) && ShowsSizes(value, l) && GoodLimits(l)
    ensures IntField(data, MinTraceChars, 200, 0, 1000000) == Some(l.minTraceChars)
    ensures IntField(data, MaxTraceChars, 100000, 1, 10000000) == Some(l.maxTraceChars)
    ensures IntField(data, ScanLookbackDays, 30, 0, 100000) == Some(l.scanLookbackDays)
    ensures IntField(data, RetentionDays, 90, 1, 100000) == Some(l.retentionDays)
    ensures IntField(data, MaxTracesTotal, 20000, 1, 100000000) == Some(l.maxTracesTotal)
  {
    IntRead(py, data, value, MinTraceChars, l.minTraceChars, 200, 0, 1000000);
    IntRead(py, data, value, MaxTraceChars, l.maxTraceChars, 100000, 1, 10000000);
    IntRead(py, data, value, ScanLookbackDays, l.scanLookbackDays, 30, 0, 100000);
    IntRead(py, data, value, RetentionDays, l.retentionDays, 90, 1, 100000);
    IntRead(py, data, value, MaxTracesTotal, l.maxTracesTotal, 20000, 1, 100000000);
  }

  lemma CountsBack(py: Python, data: Data, value: Key -> T.Value, l: Limits)
    requires ReadsAll(py, data, value) && ShowsCounts(value, l) && GoodLimits(l)
    ensures IntField(data, MinClusterSupport, 3, 1, 100000) == Some(l.minClusterSupport)
    ensures IntField(data, MinPatternsPerCategory, 3, 1, 100000) == Some(l.minPatternsPerCategory)
    ensures IntField(data, InjectionMaxPatterns, 5, 1, 1000) == Some(l.injectionMaxPatterns)
    ensures IntField(data, InjectionMaxChars, 4000, 1, 1000000) == Some(l.injectionMaxChars)
  {
    IntRead(py, data, value, MinClusterSupport, l.minClusterSupport, 3, 1, 100000);
    IntRead(py, data, value, MinPatternsPerCategory, l.minPatternsPerCategory, 3, 1, 100000);
    IntRead(py, data, value, InjectionMaxPatterns, l.injectionMaxPatterns, 5, 1, 1000);
    IntRead(py, data, value, InjectionMaxChars, l.injectionMaxChars, 4000, 1, 1000000);
  }

  lemma LimitsBack(py: Python, data: Data, value: Key -> T.Value, l: Limits)
    requires ReadsAll(py, data, value) && ShowsSizes(value, l) && ShowsCounts(value, l) && GoodLimits(l)
    ensures LimitsField(data) == Some(l)
  {
    SizesBack(py, data, value, l);
    CountsBack(py, data, value, l);
  }

  lemma LevelRead(py: Python, data: Data, value: Key -> T.Value, k: Key, r: real, default: real, lo: real, nanIsError: bool)
    requires ReadsAll(py, data, value) && Printed(k) && value(k) == T.Float(py.repr(r))
    requires py.valueOf(py.repr(r)) == r && lo <= r <= 1.0
    ensures LevelField(data, k, default, lo, nanIsError) == Some(r)
  {
    ReadsAt(py, data, value, k, T.Float(py.repr(r)));
    LevelBack(py, data, k, r, default, lo, nanIsError);
  }

  lemma LevelsFrom(data: Data, cosine: real, confidence: real)
    requires LevelField(data, ClusterCosine, 0.75, 0.05, true) == Some(cosine)
    requires LevelField(data, MinConfidence, 0.2, 0.0, false) == Some(confidence)
    requires data(InjectionMinQuality) == None
    ensures LevelsField(data) == Some(Levels(cosine, confidence, 0.7))
  {
  }

  lemma CosineRead(py: Python, data: Data, value: Key -> T.Value, p: Printout)
    requires ReadsAll(py, data, value) && ShowsLevels(py, value, p)
    requires py.valueOf(py.repr(p.cosine)) == p.cosine && 0.05 <= p.cosine <= 1.0
    ensures LevelField(data, ClusterCosine, 0.75, 0.05, true) == Some(p.cosine)
  {
    LevelRead(py, data, value, ClusterCosine, p.cosine, 0.75, 0.05, true);
  }

  lemma ConfidenceRead(py: Python, data: Data, value: Key -> T.Value, p: Printout)
    requires ReadsAll(py, data, value) && ShowsLevels(py, value, p)
    requires py.valueOf(py.repr(p.confidence)) == p.confidence && 0.0 <= p.confidence <= 1.0
    ensures LevelField(data, MinConfidence, 0.2, 0.0, false) == Some(p.confidence)
  {
    LevelRead(py, data, value, MinConfidence, p.confidence, 0.2, 0.0, false);
  }

  lemma LevelsBack(py: Python, data: Data, value: Key -> T.Value, p: Printout)
    requires ReadsAll(py, data, value) && ShowsLevels(py, value, p) && data(InjectionMinQuality) == None
    requires Faithful(py) && Doubles(py, p) && 0.05 <= p.cosine <= 1.0 && 0.0 <= p.confidence <= 1.0
    ensures LevelsField(data) == Some(Levels(p.cosine, p.confidence, 0.7))
  {
    LevelPrintable(py, p.cosine);
    LevelPrintable(py, p.confidence);
    CosineRead(py, data, value, p);
    ConfidenceRead(py, data, value, p);
    LevelsFrom(data, p.cosine, p.confidence);
  }

  lemma TextsRead(py: Python, data: Data, value: Key -> T.Value, l: Llm)
    requires ReadsAll(py, data, value) && ShowsLlm(value, l)
    ensures TextField(data, DistillLlmModel) == l.model && TextField(data, DistillLlmEndpoint) == l.endpoint
  {
    ReadsAt(py, data, value, DistillLlmModel, T.Str(l.model));
    ReadsAt(py, data, value, DistillLlmEndpoint, T.Str(l.endpoint));
    TextBack(py, data, DistillLlmModel, l.model);
    TextBack(py, data, DistillLlmEndpoint, l.endpoint);
  }

  lemma CommandsRead(py: Python, data: Data, value: Key -> T.Value, l: Llm)
    requires ReadsAll(py, data, value) && ShowsLlm(value, l) && GoodCommand(l.unload) && GoodCommand(l.load)
    ensures CommandField(data, DistillLlmUnloadCmd) == l.unload && CommandField(data, DistillLlmLoadCmd) == l.load
  {
    ReadsAt(py, data, value, DistillLlmUnloadCmd, Strings(l.unload));
    ReadsAt(py, data, value, DistillLlmLoadCmd, Strings(l.load));
    CommandBack(py, data, DistillLlmUnloadCmd, l.unload);
    CommandBack(py, data, DistillLlmLoadCmd, l.load);
  }

  lemma LlmBack(py: Python, data: Data, value: Key -> T.Value, l: Llm)
    requires ReadsAll(py, data, value) && ShowsLlm(value, l) && CleanedLlm(l)
    ensures LlmField(data) == l
  {
    TextsRead(py, data, value, l);
    CommandsRead(py, data, value, l);
    CleanLlmFixed(l);
  }

  lemma ListsBack(py: Python, data: Data, value: Key -> T.Value, p: Printout)
    requires ReadsAll(py, data, value) && ShowsLists(value, p) && GoodGlobs(p.models, 100, 128) && GoodGlobs(p.categories, 50, 64)
    ensures ModelsField(data) == p.models && CategoriesField(data) == CategoriesOr(p.categories)
  {
    ReadsAt(py, data, value, MiningModels, Strings(p.models));
    ReadsAt(py, data, value, Categories, Strings(p.categories));
    ModelsBack(py, data, p.models);
    CategoriesBack(py, data, p.categories);
  }

  lemma DirsBack(data: Data)
    requires data(ExtraTranscriptDirs) == None
    ensures DirsField(data) == []
  {
  }

  lemma PresentsReads(py: Python, value: Key -> T.Value, p: Printout, data: Data)
    requires Presents(py, value, MapEntries(p.maps), TargetEntries(p.targets), data)
    ensures ReadsAll(py, data, value)
  {
  }

  lemma SubtablesBack(py: Python, value: Key -> T.Value, p: Printout, data: Data)
    requires Presents(py, value, MapEntries(p.maps), TargetEntries(p.targets), data) && All(p.maps, GoodMapping) && GoodTargets(p.targets)
    ensures InjectionField(data) == p.maps && TargetsField(data) == Some(p.targets)
  {
    MappingsBack(py, data, p.maps);
    TargetTableBack(py, data, p.targets);
  }

  lemma FieldsBack(py: Python, value: Key -> T.Value, p: Printout, data: Data)
    requires ReadsAll(py, data, value) && Shows(py, value, p) && data(InjectionMinQuality) == None && data(ExtraTranscriptDirs) == None
    requires Faithful(py) && Doubles(py, p) && GoodPrintout(p)
    ensures FlagsField(data) == p.flags && LimitsField(data) == Some(p.limits) && LlmField(data) == p.llm
    ensures LevelsField(data) == Some(Levels(p.cosine, p.confidence, 0.7))
    ensures ModelsField(data) == p.models && CategoriesField(data) == CategoriesOr(p.categories) && DirsField(data) == []
  {
    FlagsBack(py, data, value, p.flags);
    LimitsBack(py, data, value, p.limits);
    LevelsBack(py, data, value, p);
    LlmBack(py, data, value, p.llm);
    ListsBack(py, data, value, p);
    DirsBack(data);
  }

  lemma StringsHaveTexts(py: Python, data: Data, k: Key, ss: seq<string>, n: nat)
    requires Reads(py, data, k, Strings(ss))
    ensures ListHasTexts(data, k, n) && CommandHasTexts(data, k)
  {
    ElementsBack(py, data, k, ss);
    RawStringsText(py, ss);
  }

  lemma StrHasText(py: Python, data: Data, k: Key, s: string)
    requires Reads(py, data, k, T.Str(s))
    ensures FieldHasText(data, k)
  {
  }

  lemma MapTexts(py: Python, data: Data, ms: seq<Mapping>)
    requires data(InjectionMap) == Some(RawTable(py, MapEntries(ms)))
    ensures MapHasTexts(data)
  {
    var raw := RawEntries(py, MapEntries(ms));
    forall i | 0 <= i < |raw| ensures EntryHasText(raw[i]) { RawMappingAt(py, ms, i); }
  }

  lemma ListTexts(py: Python, data: Data, value: Key -> T.Value, p: Printout)
    requires ReadsAll(py, data, value) && ShowsLists(value, p) && data(ExtraTranscriptDirs) == None
    ensures ListHasTexts(data, MiningModels, 100) && ListHasTexts(data, ExtraTranscriptDirs, 20) && ListHasTexts(data, Categories, 50)
  {
    ReadsAt(py, data, value, MiningModels, Strings(p.models));
    ReadsAt(py, data, value, Categories, Strings(p.categories));
    StringsHaveTexts(py, data, MiningModels, p.models, 100);
    StringsHaveTexts(py, data, Categories, p.categories, 50);
  }

  lemma LlmTexts(py: Python, data: Data, value: Key -> T.Value, l: Llm)
    requires ReadsAll(py, data, value) && ShowsLlm(value, l)
    ensures CommandHasTexts(data, DistillLlmUnloadCmd) && CommandHasTexts(data, DistillLlmLoadCmd)
    ensures FieldHasText(data, DistillLlmModel) && FieldHasText(data, DistillLlmEndpoint)
  {
    ReadsAt(py, data, value, DistillLlmModel, T.Str(l.model));
    ReadsAt(py, data, value, DistillLlmEndpoint, T.Str(l.endpoint));
    ReadsAt(py, data, value, DistillLlmUnloadCmd, Strings(l.unload));
    ReadsAt(py, data, value, DistillLlmLoadCmd, Strings(l.load));
    StrHasText(py, data, DistillLlmModel, l.model);
    StrHasText(py, data, DistillLlmEndpoint, l.endpoint);
    StringsHaveTexts(py, data, DistillLlmUnloadCmd, l.unload, 0);
    StringsHaveTexts(py, data, DistillLlmLoadCmd, l.load, 0);
  }

  /** Whatever is read as text was printed as a string. */
  lemma AllTexts(py: Python, value: Key -> T.Value, p: Printout, data: Data)
    requires Presents(py, value, MapEntries(p.maps), TargetEntries(p.targets), data)
    requires ReadsAll(py, data, value) && ShowsLists(value, p) && ShowsLlm(value, p.llm)
    ensures HasTexts(data)
  {
    ListTexts(py, data, value, p);
    LlmTexts(py, data, value, p.llm);
    MapTexts(py, data, p.maps);
  }

  lemma PresentedLoads(py: Python, value: Key -> T.Value, p: Printout, data: Data)
    requires Presents(py, value, MapEntries(p.maps), TargetEntries(p.targets), data) && Shows(py, value, p)
    requires Faithful(py) && Doubles(py, p) && GoodPrintout(p)
    ensures FromDict(data) == Some(Restored(p))
  {
    PresentsReads(py, value, p, data);
    FieldsBack(py, value, p, data);
    SubtablesBack(py, value, p, data);
    AllTexts(py, value, p, data);
  }

  lemma NumbersShown(py: Python, p: Printout)
    ensures ShowsSizes(Values(py, p), p.limits) && ShowsCounts(Values(py, p), p.limits)
  {
  }

  lemma TextsShown(py: Python, p: Printout)
    ensures ShowsLlm(Values(py, p), p.llm) && ShowsLists(Values(py, p), p)
  {
  }

  lemma FlagsShown(py: Python, p: Printout)
    ensures ShowsFlags(Values(py, p), p.flags) && ShowsLevels(py, Values(py, p), p)
  {
  }

  lemma ShowsFrom(py: Python, value: Key -> T.Value, p: Printout)
    requires ShowsFlags(value, p.flags) && ShowsSizes(value, p.limits) && ShowsCounts(value, p.limits)
    requires ShowsLevels(py, value, p) && ShowsLlm(value, p.llm) && ShowsLists(value, p)
    ensures Shows(py, value, p)
  {
  }

  lemma Shown(py: Python, p: Printout)
    ensures Shows(py, Values(py, p), p)
  {
    FlagsShown(py, p);
    NumbersShown(py, p);
    TextsShown(py, p);
    ShowsFrom(py, Values(py, p), p);
  }

  lemma DocLoads(py: Python, p: Printout)
    requires Faithful(py) && Doubles(py, p) && GoodPrintout(p)
    ensures FromDict(DataOf(py, DocOf(py, p))) == Some(Restored(p))
  {
    Shown(py, p);
    DataPresents(py, Values(py, p), MapEntries(p.maps), TargetEntries(p.targets));
    PresentedLoads(py, Values(py, p), p, DataOf(py, DocOf(py, p)));
  }

  // ----- results -----

  /** Reading the text and loading the section found there. */
  function Load(py: Python, text: string): Option<Config> {
    match T.Parse(text)
    case Some(doc) => FromDict(DataOf(py, doc))
    case None => None
  }

  lemma PrintoutReloads(py: Python, p: Printout)
    requires Faithful(py) && Doubles(py, p) && GoodPrintout(p)
    ensures Load(py, SectionText(py, p)) == if DistinctMaps(p.maps) then Some(Restored(p)) else None
  {
    TextParsesIff(py, p);
    DocLoads(py, p);
  }

  /** The two printed floats of a configuration are ones Python has. */
  ghost predicate HasDoubles(py: Python, c: Config) { py.isDouble(c.levels.clusterCosine) && py.isDouble(c.levels.minConfidence) }

  /**
   A loaded section that is printed and loaded again comes back as what its sanitisers let through, exactly when
   the sanitised targets of its injection map are different; otherwise the file cannot be read.
   */
  lemma ReloadExact(py: Python, c: Config)
    requires Faithful(py) && HasDoubles(py, c) && Loaded(c)
    ensures Load(py, SectionText(py, PrintoutOf(c)))
         == if DistinctMaps(FlatMap(CleanMapping, c.injection)) then Some(Restored(PrintoutOf(c))) else None
  {
    PrintoutGood(c);
    PrintoutReloads(py, PrintoutOf(c));
  }

  /** From the first reload on nothing changes: printing and loading is then the identity. */
  lemma ReloadStable(py: Python, c: Config)
    requires Faithful(py) && HasDoubles(py, c) && Loaded(c) && DistinctMaps(FlatMap(CleanMapping, c.injection))
    ensures Load(py, SectionText(py, PrintoutOf(Restored(PrintoutOf(c))))) == Some(Restored(PrintoutOf(c)))
  {
    var p := PrintoutOf(c);
    PrintoutGood(c);
    PrintedAgain(p);
    RestoredTwice(p);
    PrintoutReloads(py, PrintoutOf(Restored(p)));
  }

  lemma StringsInjective(ss: seq<string>, ts: seq<string>)
    requires Strings(ss) == Strings(ts)
    ensures ss == ts
  {
    var vs := Map((s: string) => T.Str(s), ss);
    var ws := Map((s: string) => T.Str(s), ts);
    assert vs == ws;
    forall i | 0 <= i < |ss| ensures ss[i] == ts[i] { assert vs[i] == ws[i]; }
  }

  lemma CategoriesPrinted()
    ensures Printed(Categories)
  {
  }

  lemma SameFieldValue(value: Key -> T.Value, other: Key -> T.Value, k: Key, v: T.Value, w: T.Value)
    requires Printed(k) && Fields(value) == Fields(other) && value(k) == v && other(k) == w
    ensures v == w
  {
    SameValue(value, other, k);
  }

  lemma SameShown(value: Key -> T.Value, other: Key -> T.Value, p: Printout, q: Printout)
    requires ShowsLists(value, p) && ShowsLists(other, q) && Fields(value) == Fields(other)
    ensures p.categories == q.categories
  {
    CategoriesPrinted();
    SameFieldValue(value, other, Categories, Strings(p.categories), Strings(q.categories));
    StringsInjective(p.categories, q.categories);
  }

  lemma SameTextFields(py: Python, p: Printout, q: Printout)
    requires Faithful(py) && Doubles(py, p) && GoodPrintout(p) && Doubles(py, q) && GoodPrintout(q)
    requires DistinctMaps(p.maps) && DistinctMaps(q.maps) && SectionText(py, p) == SectionText(py, q)
    ensures Fields(Values(py, p)) == Fields(Values(py, q))
  {
    TextParsesIff(py, p);
    TextParsesIff(py, q);
    SameFields(Fields(Values(py, p)), Fields(Values(py, q)), MapEntries(p.maps), MapEntries(q.maps),
               TargetEntries(p.targets), TargetEntries(q.targets));
  }

  lemma SameFieldsCategories(py: Python, p: Printout, q: Printout)
    requires Fields(Values(py, p)) == Fields(Values(py, q))
    ensures p.categories == q.categories
  {
    TextsShown(py, p);
    TextsShown(py, q);
    SameShown(Values(py, p), Values(py, q), p, q);
  }

  /** Printing the reloaded section gives the identical text exactly when some category survives sanitising. */
  lemma ReprintIdenticalIff(py: Python, c: Config)
    requires Faithful(py) && HasDoubles(py, c) && Loaded(c) && DistinctMaps(FlatMap(CleanMapping, c.injection))
    ensures SectionText(py, PrintoutOf(Restored(PrintoutOf(c)))) == SectionText(py, PrintoutOf(c)) <==> Cleaned(c.categories) != []
  {
    var p := PrintoutOf(c);
    PrintoutGood(c);
    PrintedAgain(p);
    RestoredTwice(p);
    if p.categories == [] && SectionText(py, PrintoutOf(Restored(p))) == SectionText(py, p) {
      SameTextFields(py, PrintoutOf(Restored(p)), p);
      SameFieldsCategories(py, PrintoutOf(Restored(p)), p);
    }
  }
}
