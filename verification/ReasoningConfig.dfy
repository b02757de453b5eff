/**
 The reasoning-training section of the configuration: its loader with every clamp and fallback.
 What Python's conversions make of a raw value is given with the value; floats are reals.
 */
module ReasoningConfig {
  import opened Prelude
  import opened PyString
  import opened ReasoningKeys
  import opened Sanitize

  // ----- raw values -----

  datatype Outcome<T> = Value(value: T) | Caught | Uncaught

  datatype PyFloat = Finite(r: real) | PosInf | NegInf | NaN

  /**
   A value as the loader sees it: its `str()`, none where that raises, what `int()` and `float()` give or raise (a ValueError or
   TypeError is caught, an OverflowError is not), its truth, and its elements.
   */
  datatype Raw = Raw(text: Option<string>, asInt: Outcome<int>, asFloat: Outcome<PyFloat>, truthy: bool, shape: Shape)

  datatype Shape = Atom | Items(items: seq<Raw>) | Entries(entries: seq<RawEntry>)

  datatype RawEntry = RawEntry(key: string, value: Raw)

  type Data = Key -> Option<Raw>

  predicate HasText(x: Raw) { x.text.Some? }

  /** The text of a value that has one. */
  function TextOf(x: Raw): string { match x.text case Some(t) => t case None => "" }

  // ----- the section -----

  datatype Flags = Flags(mining: bool, injection: bool, useLlm: bool, allowRemote: bool, redact: bool)

  datatype Limits = Limits(
    minTraceChars: int,
    maxTraceChars: int,
    scanLookbackDays: int,
    retentionDays: int,
    maxTracesTotal: int,
    minClusterSupport: int,
    minPatternsPerCategory: int,
    injectionMaxPatterns: int,
    injectionMaxChars: int)

  datatype Levels = Levels(clusterCosine: real, minConfidence: real, injectionMinQuality: real)

  datatype Llm = Llm(model: string, endpoint: string, unload: seq<string>, load: seq<string>)

  datatype Mapping = Mapping(target: string, source: string)

  datatype Target = Target(model: string, count: int)

  datatype Config = Config(
    flags: Flags,
    limits: Limits,
    levels: Levels,
    llm: Llm,
    models: seq<string>,
    dirs: seq<string>,
    injection: seq<Mapping>,
    categories: seq<string>,
    targets: seq<Target>)

  const DEFAULT_CATEGORIES: seq<string> := [
    "debugging", "planning", "implementation", "refactoring", "research", "verification", "architecture", "data-analysis"]

  const MAX_PATTERN_TARGET := 1000
  const CMD_MAX_PARTS := 16

  // ----- the loader, field by field -----

  function Clamp(n: int, lo: int, hi: int): int { if n < lo then lo else if n > hi then hi else n }

  function ClampReal(r: real, lo: real): real { if r < lo then lo else if r > 1.0 then 1.0 else r }

  function BoolField(data: Data, k: Key, default: bool): bool {
    match data(k) case Some(raw) => raw.truthy case None => default
  }

  /** None stands for an exception that escapes the loader. */
  function IntField(data: Data, k: Key, default: int, lo: int, hi: int): Option<int> {
    match data(k)
    case None => Some(Clamp(default, lo, hi))
    case Some(raw) =>
      match raw.asInt
      case Value(n) => Some(Clamp(n, lo, hi))
      case Caught => Some(default)
      case Uncaught => None
  }

  /** A NaN ends at the floor, unless it is turned into a ValueError first. */
  function LevelField(data: Data, k: Key, default: real, lo: real, nanIsError: bool): Option<real> {
    match data(k)
    case None => Some(ClampReal(default, lo))
    case Some(raw) =>
      match raw.asFloat
      case Value(Finite(r)) => Some(ClampReal(r, lo))
      case Value(PosInf) => Some(1.0)
      case Value(NegInf) => Some(lo)
      case Value(NaN) => Some(if nanIsError then default else lo)
      case Caught => Some(default)
      case Uncaught => None
  }

  /** `str(data.get(key, "") or "")`. */
  function TextField(data: Data, k: Key): string {
    match data(k) case Some(raw) => (if raw.truthy then TextOf(raw) else "") case None => ""
  }

  function Elements(data: Data, k: Key): seq<Raw> {
    match data(k)
    case Some(Raw(_, _, _, _, Items(xs))) => xs
    case _ => []
  }

  function Nonblank(xs: seq<Raw>): seq<Raw> { Filter((x: Raw) => Strip(TextOf(x)) != "", xs) }

  function ModelsField(data: Data): seq<string> {
    Map((x: Raw) => Take(TextOf(x), 128), Nonblank(Take(Elements(data, MiningModels), 100)))
  }

  function DirsField(data: Data): seq<string> {
    Map((x: Raw) => Take(Strip(TextOf(x)), 4096), Nonblank(Take(Elements(data, ExtraTranscriptDirs), 20)))
  }

  function CategoriesField(data: Data): seq<string> {
    var xs := Elements(data, Categories);
    if xs == [] then DEFAULT_CATEGORIES else Map((x: Raw) => Take(TextOf(x), 64), Nonblank(Take(xs, 50)))
  }

  function MappingOf(target: string, source: string): seq<Mapping> { StrippedMapping(Strip(target), Strip(source)) }

  function StrippedMapping(t: string, s: string): seq<Mapping> {
    if t != "" && s != "" then [Mapping(Take(t, 128), Take(s, 128))] else []
  }

  function MappingOfEntry(e: RawEntry): seq<Mapping> { MappingOf(e.key, TextOf(e.value)) }

  function MappingOfItem(x: Raw): seq<Mapping> {
    match x.shape
    case Items(ys) => if |ys| == 2 then MappingOf(TextOf(ys[0]), TextOf(ys[1])) else []
    case _ => []
  }

  function InjectionField(data: Data): seq<Mapping> {
    match data(InjectionMap)
    case Some(Raw(_, _, _, _, Entries(es))) => FlatMap(MappingOfEntry, es)
    case Some(Raw(_, _, _, _, Items(xs))) => FlatMap(MappingOfItem, xs)
    case _ => []
  }

  /** `^[A-Za-z0-9._*?-]{1,128}$`. */
  predicate ModelName(s: string) {
    || (1 <= |s| <= 128 && All(s, ModelChar))
    || (2 <= |s| <= 129 && s[|s| - 1] == '\n' && All(s[..|s| - 1], ModelChar))
  }

  /** Assignment to a dictionary: a known key keeps its place. */
  function SetTarget(ts: seq<Target>, t: Target): seq<Target> {
    if ts == [] then [t]
    else if ts[0].model == t.model then [t] + ts[1..]
    else [ts[0]] + SetTarget(ts[1..], t)
  }

  function TargetsOf(es: seq<RawEntry>): Option<seq<Target>> { Fold(TargetStep, [], es) }

  function TargetStep(ts: seq<Target>, e: RawEntry): Option<seq<Target>> { NamedStep(ts, Strip(e.key), e.value.asInt) }

  /** The step, once the key is stripped. */
  function NamedStep(ts: seq<Target>, name: string, count: Outcome<int>): Option<seq<Target>> {
    if name == "" || !ModelName(name) then Some(ts)
    else
      match count
      case Value(n) => Some(SetTarget(ts, Target(Take(name, 128), Clamp(n, 0, MAX_PATTERN_TARGET))))
      case Caught => Some(ts)
      case Uncaught => None
  }

  function TargetsField(data: Data): Option<seq<Target>> {
    match data(PatternTargets)
    case Some(Raw(_, _, _, _, Entries(es))) => TargetsOf(es)
    case _ => Some([])
  }

  /** `^[...]+$`. */
  predicate ArgvPart(s: string) { s != "" && s != "\n" && Matches(s, ArgvChar) }

  function Stripped(xs: seq<Raw>): seq<string> { Map((x: Raw) => Strip(TextOf(x)), xs) }

  /** One bad part, or one part too many, voids the command. */
  function CommandField(data: Data, k: Key): seq<string> {
    var parts := Stripped(Elements(data, k));
    if |parts| <= CMD_MAX_PARTS && All(parts, ArgvPart) then Map((p: string) => Take(p, STR_MAX_LEN), parts) else []
  }

  function LimitsField(data: Data): Option<Limits> {
    var a := IntField(data, MinTraceChars, 200, 0, 1000000);
    var b := IntField(data, MaxTraceChars, 100000, 1, 10000000);
    var c := IntField(data, ScanLookbackDays, 30, 0, 100000);
    var d := IntField(data, RetentionDays, 90, 1, 100000);
    var e := IntField(data, MaxTracesTotal, 20000, 1, 100000000);
    var f := IntField(data, MinClusterSupport, 3, 1, 100000);
    var g := IntField(data, MinPatternsPerCategory, 3, 1, 100000);
    var h := IntField(data, InjectionMaxPatterns, 5, 1, 1000);
    var i := IntField(data, InjectionMaxChars, 4000, 1, 1000000);
    if a.Some? && b.Some? && c.Some? && d.Some? && e.Some? && f.Some? && g.Some? && h.Some? && i.Some? then
      Some(Limits(a.value, b.value, c.value, d.value, e.value, f.value, g.value, h.value, i.value))
    else None
  }

  function LevelsField(data: Data): Option<Levels> {
    var cosine := LevelField(data, ClusterCosine, 0.75, 0.05, true);
    var confidence := LevelField(data, MinConfidence, 0.2, 0.0, false);
    var quality := LevelField(data, InjectionMinQuality, 0.7, 0.0, false);
    if cosine.Some? && confidence.Some? && quality.Some? then Some(Levels(cosine.value, confidence.value, quality.value)) else None
  }

  function FlagsField(data: Data): Flags {
    Flags(BoolField(data, MiningEnabled, false), BoolField(data, InjectionEnabled, false), BoolField(data, DistillUseLlm, false),
          BoolField(data, AllowRemoteEndpoints, false), BoolField(data, RedactSecrets, true))
  }

  function LlmField(data: Data): Llm {
    Llm(Glob(TextField(data, DistillLlmModel)), Url(TextField(data, DistillLlmEndpoint)),
        CommandField(data, DistillLlmUnloadCmd), CommandField(data, DistillLlmLoadCmd))
  }

  // ----- texts that are taken -----

  /** Of a list, so many elements are turned into text. */
  predicate ListHasTexts(data: Data, k: Key, n: nat) { All(Take(Elements(data, k), n), HasText) }

  /** A command with too many parts is not looked at. */
  predicate CommandHasTexts(data: Data, k: Key) { |Elements(data, k)| <= CMD_MAX_PARTS ==> All(Elements(data, k), HasText) }

  /** A false value is replaced by the empty text before. */
  predicate FieldHasText(data: Data, k: Key) { data(k).Some? && data(k).value.truthy ==> HasText(data(k).value) }

  predicate EntryHasText(e: RawEntry) { HasText(e.value) }

  predicate ItemHasTexts(x: Raw) { x.shape.Items? && |x.shape.items| == 2 ==> HasText(x.shape.items[0]) && HasText(x.shape.items[1]) }

  predicate MapHasTexts(data: Data) {
    match data(InjectionMap)
    case Some(Raw(_, _, _, _, Entries(es))) => All(es, EntryHasText)
    case Some(Raw(_, _, _, _, Items(xs))) => All(xs, ItemHasTexts)
    case _ => true
  }

  /** Every text the loader takes, all of them outside its handlers, can be taken. */
  predicate HasTexts(data: Data) {
    && ListHasTexts(data, MiningModels, 100) && ListHasTexts(data, ExtraTranscriptDirs, 20) && ListHasTexts(data, Categories, 50)
    && CommandHasTexts(data, DistillLlmUnloadCmd) && CommandHasTexts(data, DistillLlmLoadCmd)
    && FieldHasText(data, DistillLlmModel) && FieldHasText(data, DistillLlmEndpoint)
    && MapHasTexts(data)
  }

  /** None stands for an exception that escapes the loader. */
  function FromDict(data: Data): Option<Config> {
    match (LimitsField(data), LevelsField(data), TargetsField(data))
    case (Some(limits), Some(levels), Some(targets)) =>
      if HasTexts(data) then
        Some(Config(FlagsField(data), limits, levels, LlmField(data), ModelsField(data), DirsField(data), InjectionField(data),
                    CategoriesField(data), targets))
      else None
    case (_, _, _) => None
  }

  // ----- the loops of the loader -----

  method LoadMappings(data: Data) returns (pairs: Option<seq<Mapping>>)
    ensures pairs == if MapHasTexts(data) then Some(InjectionField(data)) else None
  {
    pairs := Some([]);
    match data(InjectionMap)
    case Some(Raw(_, _, _, _, Entries(es))) => pairs := PairsOfEntries(es, MappingOfEntry);
    case Some(Raw(_, _, _, _, Items(xs))) => pairs := PairsOfItems(xs, MappingOfItem);
    case _ =>
  }

  /** f gives each entry's mapping. */
  ghost predicate IsMapping(f: RawEntry -> seq<Mapping>) { forall e {:trigger MappingOfEntry(e)} :: f(e) == MappingOfEntry(e) }

  method PairsOfEntries(es: seq<RawEntry>, ghost f: RawEntry -> seq<Mapping>) returns (pairs: Option<seq<Mapping>>)
    requires IsMapping(f)
    ensures pairs == if All(es, EntryHasText) then Some(FlatMap(f, es)) else None
  {
    var out: seq<Mapping> := [];
    for i := 0 to |es|
      invariant out == FlatMap(f, es[..i])
      invariant forall j :: 0 <= j < i ==> EntryHasText(es[j])
    {
      if !EntryHasText(es[i]) { return None; }
      FlatMapMore(f, es, i);
      out := AppendEntry(out, es[i], f);
    }
    assert es[..|es|] == es;
    pairs := Some(out);
  }

  method AppendEntry(out: seq<Mapping>, e: RawEntry, ghost f: RawEntry -> seq<Mapping>) returns (more: seq<Mapping>)
    requires IsMapping(f) && EntryHasText(e)
    ensures more == out + f(e)
  {
    more := AppendMapping(out, e.key, e.value.text.value);
    assert f(e) == MappingOfEntry(e);
  }

  ghost predicate IsItemMapping(f: Raw -> seq<Mapping>) { forall x {:trigger MappingOfItem(x)} :: f(x) == MappingOfItem(x) }

  method PairsOfItems(xs: seq<Raw>, ghost f: Raw -> seq<Mapping>) returns (pairs: Option<seq<Mapping>>)
    requires IsItemMapping(f)
    ensures pairs == if All(xs, ItemHasTexts) then Some(FlatMap(f, xs)) else None
  {
    var out: seq<Mapping> := [];
    for i := 0 to |xs|
      invariant out == FlatMap(f, xs[..i])
      invariant forall j :: 0 <= j < i ==> ItemHasTexts(xs[j])
    {
      if !ItemHasTexts(xs[i]) { return None; }
      FlatMapMore(f, xs, i);
      out := AppendItem(out, xs[i], f);
    }
    assert xs[..|xs|] == xs;
    pairs := Some(out);
  }

  method AppendItem(out: seq<Mapping>, x: Raw, ghost f: Raw -> seq<Mapping>) returns (more: seq<Mapping>)
    requires IsItemMapping(f) && ItemHasTexts(x)
    ensures more == out + f(x)
  {
    more := out;
    if x.shape.Items? && |x.shape.items| == 2 {
      more := AppendMapping(out, x.shape.items[0].text.value, x.shape.items[1].text.value);
    }
    assert f(x) == MappingOfItem(x);
  }

  method AppendMapping(pairs: seq<Mapping>, target: string, source: string) returns (more: seq<Mapping>)
    ensures more == pairs + MappingOf(target, source)
  {
    more := AppendStripped(pairs, Strip(target), Strip(source));
  }

  method AppendStripped(pairs: seq<Mapping>, t: string, s: string) returns (more: seq<Mapping>)
    ensures more == pairs + StrippedMapping(t, s)
  {
    more := pairs;
    if t != "" && s != "" { more := more + [Mapping(Take(t, 128), Take(s, 128))]; }
  }

  method LoadTargets(es: seq<RawEntry>) returns (targets: Option<seq<Target>>)
    ensures targets == TargetsOf(es)
  {
    var ts: seq<Target> := [];
    for i := 0 to |es|
      invariant TargetsOf(es[..i]) == Some(ts)
    {
      FoldMore(TargetStep, [], es, i);
      var step := TargetStep(ts, es[i]);
      if step.None? {
        FoldFails(TargetStep, [], es, i + 1);
        return None;
      }
      ts := step.value;
    }
    assert es[..|es|] == es;
    targets := Some(ts);
  }

  // ----- what a loaded section satisfies -----

  predicate Short(ss: seq<string>, n: nat, len: nat) { |ss| <= n && forall i :: 0 <= i < |ss| ==> |ss[i]| <= len }

  predicate GoodPart(p: string) { p != "" && |p| <= STR_MAX_LEN && All(p, ArgvChar) }

  predicate GoodCommand(parts: seq<string>) { |parts| <= CMD_MAX_PARTS && All(parts, GoodPart) }

  predicate GoodModel(model: string) { 1 <= |model| <= 128 && All(model, ModelChar) }

  predicate GoodTarget(t: Target) { GoodModel(t.model) && 0 <= t.count <= MAX_PATTERN_TARGET }

  predicate DistinctModels(ts: seq<Target>) { forall i, j :: 0 <= i < j < |ts| ==> ts[i].model != ts[j].model }

  predicate GoodTargets(ts: seq<Target>) { All(ts, GoodTarget) && DistinctModels(ts) }

  predicate GoodLimits(l: Limits) {
    && 0 <= l.minTraceChars <= 1000000 && 1 <= l.maxTraceChars <= 10000000 && 0 <= l.scanLookbackDays <= 100000
    && 1 <= l.retentionDays <= 100000 && 1 <= l.maxTracesTotal <= 100000000 && 1 <= l.minClusterSupport <= 100000
    && 1 <= l.minPatternsPerCategory <= 100000 && 1 <= l.injectionMaxPatterns <= 1000 && 1 <= l.injectionMaxChars <= 1000000
  }

  predicate GoodLevels(l: Levels) {
    0.05 <= l.clusterCosine <= 1.0 && 0.0 <= l.minConfidence <= 1.0 && 0.0 <= l.injectionMinQuality <= 1.0
  }

  predicate GoodLlm(l: Llm) {
    && |l.model| <= STR_MAX_LEN && Matches(l.model, GlobChar)
    && |l.endpoint| <= URL_MAX_LEN && All(l.endpoint, UrlChar) && Trimmed(l.endpoint)
    && GoodCommand(l.unload) && GoodCommand(l.load)
  }

  predicate ShortMapping(m: Mapping) { |m.target| <= 128 && |m.source| <= 128 }

  predicate Loaded(c: Config) {
    && GoodLimits(c.limits) && GoodLevels(c.levels) && GoodLlm(c.llm)
    && Short(c.models, 100, 128) && Short(c.categories, 50, 64) && Short(c.dirs, 20, 4096)
    && All(c.injection, ShortMapping)
    && GoodTargets(c.targets)
  }

  lemma {:induction false} SetTargetMembers(ts: seq<Target>, t: Target)
    ensures forall u :: u in SetTarget(ts, t) ==> u == t || u in ts
  {
    if ts != [] {
      SetTargetMembers(ts[1..], t);
      assert ts == [ts[0]] + ts[1..];
    }
  }

  lemma {:induction false} SetTargetDistinct(ts: seq<Target>, t: Target)
    requires DistinctModels(ts)
    ensures DistinctModels(SetTarget(ts, t))
  {
    if ts != [] && ts[0].model != t.model {
      var rest := SetTarget(ts[1..], t);
      SetTargetDistinct(ts[1..], t);
      SetTargetMembers(ts[1..], t);
      forall j | 0 <= j < |rest|
        ensures rest[j].model != ts[0].model
      {
        assert rest[j] in rest;
        if rest[j] != t {
          var k :| 0 <= k < |ts[1..]| && ts[1..][k] == rest[j];
          assert ts[k + 1] == rest[j];
        }
      }
    }
  }

  lemma SetTargetGood(ts: seq<Target>, t: Target)
    requires GoodTargets(ts) && GoodTarget(t)
    ensures GoodTargets(SetTarget(ts, t))
  {
    var us := SetTarget(ts, t);
    SetTargetDistinct(ts, t);
    SetTargetMembers(ts, t);
    forall i | 0 <= i < |us|
      ensures GoodTarget(us[i])
    {
      assert us[i] in us;
    }
  }

  lemma TrimmedModelName(s: string)
    requires Trimmed(s) && ModelName(s)
    ensures GoodModel(s) && Take(s, 128) == s
  {
    assert IsSpace('\n');
  }

  lemma TargetStepGood(ts: seq<Target>, e: RawEntry)
    requires GoodTargets(ts) && TargetStep(ts, e).Some?
    ensures GoodTargets(TargetStep(ts, e).value)
  {
    StripTrims(e.key);
    NamedStepGood(ts, Strip(e.key), e.value.asInt);
  }

  lemma NamedStepGood(ts: seq<Target>, name: string, count: Outcome<int>)
    requires GoodTargets(ts) && Trimmed(name) && NamedStep(ts, name, count).Some?
    ensures GoodTargets(NamedStep(ts, name, count).value)
  {
    if name != "" && ModelName(name) && count.Value? {
      TrimmedModelName(name);
      SetTargetGood(ts, Target(Take(name, 128), Clamp(count.value, 0, MAX_PATTERN_TARGET)));
    }
  }

  lemma TargetsGood(data: Data)
    requires TargetsField(data).Some?
    ensures GoodTargets(TargetsField(data).value)
  {
    match data(PatternTargets)
    case Some(Raw(_, _, _, _, Entries(es))) =>
      forall ts, e | GoodTargets(ts) && TargetStep(ts, e).Some? ensures GoodTargets(TargetStep(ts, e).value) { TargetStepGood(ts, e); }
      FoldKeeps(TargetStep, [], es, GoodTargets);
    case _ =>
  }

  lemma MappingOfShort(t: string, s: string)
    ensures All(MappingOf(t, s), ShortMapping)
  {
    StrippedMappingShort(Strip(t), Strip(s));
  }

  lemma StrippedMappingShort(t: string, s: string)
    ensures All(StrippedMapping(t, s), ShortMapping)
  {
  }

  lemma InjectionShort(data: Data)
    ensures All(InjectionField(data), ShortMapping)
  {
    forall t, s ensures All(MappingOf(t, s), ShortMapping) { MappingOfShort(t, s); }
    match data(InjectionMap)
    case Some(Raw(_, _, _, _, Entries(es))) => FlatMapAll(MappingOfEntry, es, ShortMapping);
    case Some(Raw(_, _, _, _, Items(xs))) => FlatMapAll(MappingOfItem, xs, ShortMapping);
    case _ =>
  }

  lemma CommandPartGood(x: Raw)
    requires ArgvPart(Strip(TextOf(x)))
    ensures All(Strip(TextOf(x)), ArgvChar)
  {
    StripTrims(TextOf(x));
    TrimmedMatches(Strip(TextOf(x)), ArgvChar);
  }

  lemma CommandGood(data: Data, k: Key)
    ensures GoodCommand(CommandField(data, k))
  {
    var xs := Elements(data, k);
    var parts := Stripped(xs);
    if |parts| <= CMD_MAX_PARTS && All(parts, ArgvPart) {
      forall i | 0 <= i < |parts| ensures All(parts[i], ArgvChar) { CommandPartGood(xs[i]); }
      TakenGood(parts);
    }
  }

  lemma TakenGood(parts: seq<string>)
    requires |parts| <= CMD_MAX_PARTS && forall i :: 0 <= i < |parts| ==> parts[i] != "" && All(parts[i], ArgvChar)
    ensures GoodCommand(Map((p: string) => Take(p, STR_MAX_LEN), parts))
  {
    forall i | 0 <= i < |parts| ensures GoodPart(Take(parts[i], STR_MAX_LEN)) { TakenPartGood(parts[i]); }
  }

  lemma TakenPartGood(p: string)
    requires p != "" && All(p, ArgvChar)
    ensures GoodPart(Take(p, STR_MAX_LEN))
  {
  }

  lemma GlobGood(value: string)
    ensures |Glob(value)| <= STR_MAX_LEN && Matches(Glob(value), GlobChar)
  {
  }

  lemma LlmGood(data: Data)
    ensures GoodLlm(LlmField(data))
  {
    GlobGood(TextField(data, DistillLlmModel));
    UrlIdempotent(TextField(data, DistillLlmEndpoint));
    CommandGood(data, DistillLlmUnloadCmd);
    CommandGood(data, DistillLlmLoadCmd);
    LlmParts(LlmField(data), TextField(data, DistillLlmModel), TextField(data, DistillLlmEndpoint));
  }

  lemma LlmParts(l: Llm, model: string, endpoint: string)
    requires l.model == Glob(model) && |l.model| <= STR_MAX_LEN && Matches(l.model, GlobChar)
    requires All(l.endpoint, UrlChar) && Trimmed(l.endpoint) && |l.endpoint| <= URL_MAX_LEN
    requires GoodCommand(l.unload) && GoodCommand(l.load)
    ensures GoodLlm(l)
  {
  }

  lemma MapShort(f: Raw -> string, xs: seq<Raw>, n: nat, len: nat)
    requires |xs| <= n && forall x :: |f(x)| <= len
    ensures Short(Map(f, xs), n, len)
  {
  }

  lemma ListsShort(data: Data)
    ensures Short(ModelsField(data), 100, 128) && Short(DirsField(data), 20, 4096)
  {
    MapShort((x: Raw) => Take(TextOf(x), 128), Nonblank(Take(Elements(data, MiningModels), 100)), 100, 128);
    MapShort((x: Raw) => Take(Strip(TextOf(x)), 4096), Nonblank(Take(Elements(data, ExtraTranscriptDirs), 20)), 20, 4096);
  }

  lemma CategoriesShort(data: Data)
    ensures Short(CategoriesField(data), 50, 64)
  {
    MapShort((x: Raw) => Take(TextOf(x), 64), Nonblank(Take(Elements(data, Categories), 50)), 50, 64);
    DefaultsShort();
  }

  lemma DefaultsShort()
    ensures Short(DEFAULT_CATEGORIES, 50, 64)
  {
  }

  lemma LimitsGood(data: Data)
    requires LimitsField(data).Some?
    ensures GoodLimits(LimitsField(data).value)
  {
  }

  lemma LevelsGood(data: Data)
    requires LevelsField(data).Some?
    ensures GoodLevels(LevelsField(data).value)
  {
  }

  /** Whatever the input, a section that loads is within all its bounds. */
  lemma FromDictLoaded(data: Data, c: Config)
    requires FromDict(data) == Some(c)
    ensures Loaded(c)
  {
    LimitsGood(data);
    LevelsGood(data);
    LlmGood(data);
    ListsShort(data);
    CategoriesShort(data);
    InjectionShort(data);
    TargetsGood(data);
  }

  // ----- when the loader raises -----

  predicate IntOverflows(data: Data, k: Key) { data(k).Some? && data(k).value.asInt.Uncaught? }

  predicate FloatOverflows(data: Data, k: Key) { data(k).Some? && data(k).value.asFloat.Uncaught? }

  predicate CountOverflows(e: RawEntry) { Strip(e.key) != "" && ModelName(Strip(e.key)) && e.value.asInt.Uncaught? }

  ghost predicate SomeCountOverflows(data: Data) {
    match data(PatternTargets)
    case Some(Raw(_, _, _, _, Entries(es))) => exists i :: 0 <= i < |es| && CountOverflows(es[i])
    case _ => false
  }

  lemma TargetsRaise(es: seq<RawEntry>)
    ensures TargetsOf(es).None? <==> exists i :: 0 <= i < |es| && CountOverflows(es[i])
  {
    FoldFailsIff(TargetStep, [], es, CountOverflows);
  }

  predicate SizeOverflows(data: Data) {
    || IntOverflows(data, MinTraceChars) || IntOverflows(data, MaxTraceChars) || IntOverflows(data, ScanLookbackDays)
    || IntOverflows(data, RetentionDays) || IntOverflows(data, MaxTracesTotal) || IntOverflows(data, MinClusterSupport)
    || IntOverflows(data, MinPatternsPerCategory) || IntOverflows(data, InjectionMaxPatterns) || IntOverflows(data, InjectionMaxChars)
  }

  /**
   Whatever the input, loading fails exactly when a number is too large to convert, or a value that is read as text has
   none (in Python, an integer of more digits than `str` prints): every other bad value has a fallback.
   */
  lemma LoaderRaisesIff(data: Data)
    ensures FromDict(data).None? <==>
      || SizeOverflows(data)
      || FloatOverflows(data, ClusterCosine) || FloatOverflows(data, MinConfidence) || FloatOverflows(data, InjectionMinQuality)
      || SomeCountOverflows(data)
      || !HasTexts(data)
  {
    LimitsRaise(data);
    LevelsRaise(data);
    match data(PatternTargets)
    case Some(Raw(_, _, _, _, Entries(es))) => TargetsRaise(es);
    case _ =>
  }

  lemma LimitsRaise(data: Data)
    ensures LimitsField(data).None? <==> SizeOverflows(data)
  {
  }

  lemma LevelsRaise(data: Data)
    ensures LevelsField(data).None? <==>
      FloatOverflows(data, ClusterCosine) || FloatOverflows(data, MinConfidence) || FloatOverflows(data, InjectionMinQuality)
  {
  }
}
