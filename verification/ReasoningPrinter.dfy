/**
 The printer of the section.  What it prints of a configuration is a value of its own, since everything goes
 through a sanitiser on the way out.
 */
module ReasoningPrinter {
  import opened Prelude
  import opened PyString
  import opened Sanitize
  import opened ReasoningConfig
  import opened ReasoningKeys
  import opened ReasoningSection
  import T = Toml
  import L = TomlLines

  datatype Printout = Printout(
    flags: Flags,
    limits: Limits,
    cosine: real,
    confidence: real,
    llm: Llm,
    models: seq<string>,
    categories: seq<string>,
    maps: seq<Mapping>,
    targets: seq<Target>)

  function Cleaned(ss: seq<string>): seq<string> { Filter((g: string) => g != "", Map(Glob, ss)) }

  function CleanLlm(l: Llm): Llm { Llm(Glob(l.model), Url(l.endpoint), Filter(ArgvPart, l.unload), Filter(ArgvPart, l.load)) }

  function CleanMapping(m: Mapping): seq<Mapping> { CleanPair(Glob(m.target), Glob(m.source)) }

  function CleanPair(gk: string, gv: string): seq<Mapping> { if gk != "" && gv != "" then [Mapping(gk, gv)] else [] }

  function CleanTarget(t: Target): seq<Target> { CleanCount(Glob(t.model), t.count) }

  function CleanCount(gk: string, count: int): seq<Target> { if gk != "" then [Target(gk, count)] else [] }

  /** What is printed of a configuration. */
  function PrintoutOf(c: Config): Printout {
    Printout(c.flags, c.limits, c.levels.clusterCosine, c.levels.minConfidence, CleanLlm(c.llm), Cleaned(c.models),
             Cleaned(c.categories), FlatMap(CleanMapping, c.injection), FlatMap(CleanTarget, c.targets))
  }

  function Strings(ss: seq<string>): T.Value { T.Arr(Map((s: string) => T.Str(s), ss)) }

  function FieldValue(py: Python, p: Printout, k: Key): T.Value {
    match k
    case MiningEnabled => T.Bool(p.flags.mining)
    case InjectionEnabled => T.Bool(p.flags.injection)
    case MiningModels => Strings(p.models)
    case Categories => Strings(p.categories)
    case MinTraceChars => T.Int(p.limits.minTraceChars)
    case MaxTraceChars => T.Int(p.limits.maxTraceChars)
    case ScanLookbackDays => T.Int(p.limits.scanLookbackDays)
    case RetentionDays => T.Int(p.limits.retentionDays)
    case MaxTracesTotal => T.Int(p.limits.maxTracesTotal)
    case MinClusterSupport => T.Int(p.limits.minClusterSupport)
    case ClusterCosine => T.Float(py.repr(p.cosine))
    case MinConfidence => T.Float(py.repr(p.confidence))
    case MinPatternsPerCategory => T.Int(p.limits.minPatternsPerCategory)
    case InjectionMaxPatterns => T.Int(p.limits.injectionMaxPatterns)
    case InjectionMaxChars => T.Int(p.limits.injectionMaxChars)
    case DistillUseLlm => T.Bool(p.flags.useLlm)
    case DistillLlmModel => T.Str(p.llm.model)
    case DistillLlmEndpoint => T.Str(p.llm.endpoint)
    case AllowRemoteEndpoints => T.Bool(p.flags.allowRemote)
    case DistillLlmUnloadCmd => Strings(p.llm.unload)
    case DistillLlmLoadCmd => Strings(p.llm.load)
    case RedactSecrets => T.Bool(p.flags.redact)
    case _ => Strings([])
  }

  function Values(py: Python, p: Printout): Key -> T.Value { (k: Key) => FieldValue(py, p, k) }

  function MapEntry(m: Mapping): T.Entry { T.Entry(m.target, T.Str(m.source)) }

  function TargetEntry(t: Target): T.Entry { T.Entry(t.model, T.Int(t.count)) }

  function MapEntries(ms: seq<Mapping>): seq<T.Entry> { Map(MapEntry, ms) }

  function TargetEntries(ts: seq<Target>): seq<T.Entry> { Map(TargetEntry, ts) }

  function PrintoutLines(py: Python, p: Printout): seq<L.Line> {
    SectionLines(Fields(Values(py, p)), MapEntries(p.maps), TargetEntries(p.targets))
  }

  function SectionText(py: Python, p: Printout): string { L.Text(PrintoutLines(py, p)) }

  // ----- the printer -----

  method ReasoningTomlLines(py: Python, c: Config) returns (lines: seq<string>)
    ensures lines == L.LineTexts(PrintoutLines(py, PrintoutOf(c)))
  {
    var p := PrintoutOf(c);
    var out := [L.Line(T.Comment(INTRO), false), HeaderLine([SECTION])] + PairLines(Fields(Values(py, p)), false);
    var mappings := MappingLines(c.injection);
    out := out + ([HeaderLine([SECTION, Name(InjectionMap)])] + mappings);
    var targets := TargetLines(c.targets);
    out := out + ([HeaderLine([SECTION, Name(PatternTargets)])] + targets);
    lines := L.LineTexts(out);
  }

  method MappingLines(ms: seq<Mapping>) returns (lines: seq<L.Line>)
    ensures lines == PairLines(MapEntries(FlatMap(CleanMapping, ms)), true)
  {
    lines := [];
    for i := 0 to |ms|
      invariant lines == PairLines(MapEntries(FlatMap(CleanMapping, ms[..i])), true)
    {
      FlatMapMore(CleanMapping, ms, i);
      EntryLinesAppend(MapEntry, FlatMap(CleanMapping, ms[..i]), CleanMapping(ms[i]));
      var gk, gv := Glob(ms[i].target), Glob(ms[i].source);
      if gk != "" && gv != "" { lines := lines + [L.Line(T.Pair(gk, T.Str(gv)), true)]; }
    }
    assert ms[..|ms|] == ms;
  }

  method TargetLines(ts: seq<Target>) returns (lines: seq<L.Line>)
    ensures lines == PairLines(TargetEntries(FlatMap(CleanTarget, ts)), true)
  {
    lines := [];
    for i := 0 to |ts|
      invariant lines == PairLines(TargetEntries(FlatMap(CleanTarget, ts[..i])), true)
    {
      FlatMapMore(CleanTarget, ts, i);
      EntryLinesAppend(TargetEntry, FlatMap(CleanTarget, ts[..i]), CleanTarget(ts[i]));
      var gk := Glob(ts[i].model);
      if gk != "" { lines := lines + [L.Line(T.Pair(gk, T.Int(ts[i].count)), true)]; }
    }
    assert ts[..|ts|] == ts;
  }

  lemma EntryLinesAppend<A>(entry: A -> T.Entry, a: seq<A>, b: seq<A>)
    ensures PairLines(Map(entry, a + b), true) == PairLines(Map(entry, a), true) + PairLines(Map(entry, b), true)
  {
    MapAppend(entry, a, b);
    MapAppend((e: T.Entry) => L.Line(T.Pair(e.key, e.value), true), Map(entry, a), Map(entry, b));
  }

  // ----- what a printout satisfies -----

  predicate GoodGlob(g: string) { g != "" && Settled(g, GlobChar) }

  predicate GoodGlobs(ss: seq<string>, n: nat, len: nat) { Short(ss, n, len) && All(ss, GoodGlob) }

  predicate GoodMapping(m: Mapping) { GoodGlob(m.target) && GoodGlob(m.source) }

  predicate CleanedLlm(l: Llm) {
    && Settled(l.model, GlobChar)
    && |l.endpoint| <= URL_MAX_LEN && All(l.endpoint, UrlChar) && Trimmed(l.endpoint)
    && GoodCommand(l.unload) && GoodCommand(l.load)
  }

  predicate GoodPrintout(p: Printout) {
    && GoodLimits(p.limits) && 0.05 <= p.cosine <= 1.0 && 0.0 <= p.confidence <= 1.0
    && CleanedLlm(p.llm)
    && GoodGlobs(p.models, 100, 128) && GoodGlobs(p.categories, 50, 64)
    && All(p.maps, GoodMapping) && GoodTargets(p.targets)
  }

  lemma GlobOk(s: string)
    requires |s| <= STR_MAX_LEN
    ensures (Glob(s) == "" || GoodGlob(Glob(s))) && |Glob(s)| <= |s|
  {
    CleanShortSettled(s, GlobChar);
  }

  lemma GoodGlobFixed(g: string)
    requires GoodGlob(g)
    ensures Glob(g) == g && Strip(g) == g && All(g, T.PlainChar) && Take(g, 128) == g
  {
    CleanFixed(g, GlobChar);
    StripTrimmed(g);
    GlobPlain(g);
  }

  lemma CleanedGood(ss: seq<string>, n: nat, len: nat)
    requires Short(ss, n, len) && len <= STR_MAX_LEN
    ensures GoodGlobs(Cleaned(ss), n, len)
  {
    var all := Map(Glob, ss);
    forall i | 0 <= i < |ss| ensures (all[i] == "" || GoodGlob(all[i])) && |all[i]| <= len { GlobOk(ss[i]); }
    var kept := Cleaned(ss);
    forall i | 0 <= i < |kept|
      ensures GoodGlob(kept[i]) && |kept[i]| <= len
    {
      assert kept[i] in kept;
      assert kept[i] in all && kept[i] != "";
    }
  }

  lemma CleanedFixed(ss: seq<string>)
    requires All(ss, GoodGlob)
    ensures Cleaned(ss) == ss
  {
    forall i | 0 <= i < |ss| ensures Glob(ss[i]) == ss[i] { GoodGlobFixed(ss[i]); }
    assert Map(Glob, ss) == ss;
    FilterAll((g: string) => g != "", ss);
  }

  lemma PartPrinted(p: string)
    requires GoodPart(p)
    ensures ArgvPart(p)
  {
    assert ArgvChar(p[0]) && !ArgvChar('\n') && "\n"[0] == '\n';
  }

  lemma CommandPrinted(parts: seq<string>)
    requires GoodCommand(parts)
    ensures Filter(ArgvPart, parts) == parts
  {
    forall p | p in parts
      ensures ArgvPart(p)
    {
      var i :| 0 <= i < |parts| && parts[i] == p;
      PartPrinted(parts[i]);
    }
    FilterAll(ArgvPart, parts);
  }

  lemma CleanLlmGood(l: Llm)
    requires GoodLlm(l)
    ensures CleanedLlm(CleanLlm(l))
    ensures CleanLlm(l).unload == l.unload && CleanLlm(l).load == l.load
  {
    CleanShortSettled(l.model, GlobChar);
    UrlIdempotent(l.endpoint);
    CommandPrinted(l.unload);
    CommandPrinted(l.load);
  }

  lemma CleanLlmFixed(l: Llm)
    requires CleanedLlm(l)
    ensures CleanLlm(l) == l
  {
    CleanFixed(l.model, GlobChar);
    StripTrimmed(l.endpoint);
    CommandPrinted(l.unload);
    CommandPrinted(l.load);
  }

  lemma CleanMappingGood(m: Mapping)
    requires ShortMapping(m)
    ensures All(CleanMapping(m), GoodMapping)
  {
    GlobOk(m.target);
    GlobOk(m.source);
  }

  lemma CleanMappingFixed(m: Mapping)
    requires GoodMapping(m)
    ensures CleanMapping(m) == [m]
  {
    GoodGlobFixed(m.target);
    GoodGlobFixed(m.source);
  }

  lemma MappingsGood(ms: seq<Mapping>)
    requires All(ms, ShortMapping)
    ensures All(FlatMap(CleanMapping, ms), GoodMapping)
  {
    forall i | 0 <= i < |ms| ensures All(CleanMapping(ms[i]), GoodMapping) { CleanMappingGood(ms[i]); }
    FlatMapAll(CleanMapping, ms, GoodMapping);
  }

  lemma MappingsFixed(ms: seq<Mapping>)
    requires All(ms, GoodMapping)
    ensures FlatMap(CleanMapping, ms) == ms
  {
    forall i | 0 <= i < |ms| ensures CleanMapping(ms[i]) == [ms[i]] { CleanMappingFixed(ms[i]); }
    FlatMapSame(CleanMapping, ms);
  }

  lemma TargetsFixed(ts: seq<Target>)
    requires All(ts, GoodTarget)
    ensures FlatMap(CleanTarget, ts) == ts
  {
    forall i | 0 <= i < |ts| ensures CleanTarget(ts[i]) == [ts[i]] { ModelGlob(ts[i].model); }
    FlatMapSame(CleanTarget, ts);
  }

  /** What is printed of a loaded section is clean and within its bounds, and keeps commands and targets whole. */
  lemma PrintoutGood(c: Config)
    requires Loaded(c)
    ensures GoodPrintout(PrintoutOf(c))
    ensures PrintoutOf(c).targets == c.targets && PrintoutOf(c).llm.unload == c.llm.unload && PrintoutOf(c).llm.load == c.llm.load
  {
    CleanLlmGood(c.llm);
    CleanedGood(c.models, 100, 128);
    CleanedGood(c.categories, 50, 64);
    MappingsGood(c.injection);
    TargetsFixed(c.targets);
  }

  // ----- what is loaded from a printout -----

  function CategoriesOr(ss: seq<string>): seq<string> { if ss == [] then DEFAULT_CATEGORIES else ss }

  /** What was printed, the unprinted fields at their defaults; an empty list of categories loads as the default one. */
  function Restored(p: Printout): Config {
    Config(p.flags, p.limits, Levels(p.cosine, p.confidence, 0.7), p.llm, p.models, [], p.maps, CategoriesOr(p.categories), p.targets)
  }

  lemma EarlyDefaultsGood()
    ensures GoodGlob("debugging") && GoodGlob("planning") && GoodGlob("implementation") && GoodGlob("refactoring")
  {
  }

  lemma LateDefaultsGood()
    ensures GoodGlob("research") && GoodGlob("verification") && GoodGlob("architecture") && GoodGlob("data-analysis")
  {
  }

  lemma DefaultsGood()
    ensures GoodGlobs(DEFAULT_CATEGORIES, 50, 64)
  {
    EarlyDefaultsGood();
    LateDefaultsGood();
    DefaultsShort();
  }

  lemma CategoriesOrGood(ss: seq<string>)
    requires GoodGlobs(ss, 50, 64)
    ensures GoodGlobs(CategoriesOr(ss), 50, 64)
  {
    DefaultsGood();
  }

  /** Printing what was loaded from a printout prints the same, but for categories filled in. */
  lemma PrintedAgain(p: Printout)
    requires GoodPrintout(p)
    ensures PrintoutOf(Restored(p)) == p.(categories := CategoriesOr(p.categories))
  {
    CleanLlmFixed(p.llm);
    CleanedFixed(p.models);
    CategoriesOrGood(p.categories);
    CleanedFixed(CategoriesOr(p.categories));
    MappingsFixed(p.maps);
    TargetsFixed(p.targets);
  }

  lemma RestoredTwice(p: Printout)
    requires GoodPrintout(p)
    ensures GoodPrintout(PrintoutOf(Restored(p))) && Restored(PrintoutOf(Restored(p))) == Restored(p)
  {
    PrintedAgain(p);
    CategoriesOrGood(p.categories);
    assert CategoriesOr(CategoriesOr(p.categories)) == CategoriesOr(p.categories);
  }
}
