/** What the loader makes of each key, given or absent: the defaults, the clamps and the cuts written out. */
module ReasoningDefaults {
  import opened Prelude
  import opened PyString
  import opened Sanitize
  import opened ReasoningKeys
  import opened ReasoningConfig

  // ----- the empty table -----

  /** The section without any key loads as this. */
  lemma EmptySection()
    ensures FromDict((k: Key) => None) == Some(Config(
      Flags(false, false, false, false, true),
      Limits(200, 100000, 30, 90, 20000, 3, 3, 5, 4000),
      Levels(0.75, 0.2, 0.7),
      Llm("", "", [], []),
      [], [], [],
      ["debugging", "planning", "implementation", "refactoring", "research", "verification", "architecture", "data-analysis"],
      []))
  {
    var data: Data := (k: Key) => None;
    EmptyLlm(data);
    EmptyLists(data);
  }

  lemma EmptyLlm(data: Data)
    requires data(DistillLlmModel) == None && data(DistillLlmEndpoint) == None
    requires data(DistillLlmUnloadCmd) == None && data(DistillLlmLoadCmd) == None
    ensures LlmField(data) == Llm("", "", [], [])
  {
    CleanFixed("", GlobChar);
    StripTrimmed("");
    NoCommand(data, DistillLlmUnloadCmd);
    NoCommand(data, DistillLlmLoadCmd);
  }

  lemma NoCommand(data: Data, k: Key)
    requires data(k) == None
    ensures CommandField(data, k) == []
  {
    assert Elements(data, k) == [] && Stripped([]) == [];
  }

  lemma EmptyLists(data: Data)
    requires data(MiningModels) == None && data(ExtraTranscriptDirs) == None
    ensures ModelsField(data) == [] && DirsField(data) == []
  {
    assert Elements(data, MiningModels) == [] && Elements(data, ExtraTranscriptDirs) == [];
    assert Nonblank([]) == [];
  }

  // ----- switches, limits, levels -----

  /** A switch: its default when absent, and else the truth of the value. */
  predicate Switched(raw: Option<Raw>, b: bool, default: bool) {
    match raw case None => b == default case Some(x) => b == x.truthy
  }

  /** A limit: its default when absent or not convertible, and else the number, moved to the nearer bound. */
  predicate Limited(raw: Option<Raw>, v: int, default: int, lo: int, hi: int) {
    match raw
    case None => v == default
    case Some(x) =>
      match x.asInt
      case Caught => v == default
      case Value(n) => (n < lo ==> v == lo) && (n > hi ==> v == hi) && (lo <= n <= hi ==> v == n)
      case Uncaught => false
  }

  /** A level likewise; infinities go to the bounds, and what is no number to the given value. */
  predicate Levelled(raw: Option<Raw>, v: real, default: real, lo: real, noNumber: real) {
    match raw
    case None => v == default
    case Some(x) =>
      match x.asFloat
      case Caught => v == default
      case Value(Finite(r)) => (r < lo ==> v == lo) && (r > 1.0 ==> v == 1.0) && (lo <= r <= 1.0 ==> v == r)
      case Value(PosInf) => v == 1.0
      case Value(NegInf) => v == lo
      case Value(NaN) => v == noNumber
      case Uncaught => false
  }

  /** For every table that loads. */
  lemma SwitchesLoaded(data: Data, c: Config)
    requires FromDict(data) == Some(c)
    ensures Switched(data(MiningEnabled), c.flags.mining, false) && Switched(data(InjectionEnabled), c.flags.injection, false)
    ensures Switched(data(DistillUseLlm), c.flags.useLlm, false) && Switched(data(AllowRemoteEndpoints), c.flags.allowRemote, false)
    ensures Switched(data(RedactSecrets), c.flags.redact, true)
  {
  }

  lemma LimitsLoaded(data: Data, c: Config)
    requires FromDict(data) == Some(c)
    ensures Limited(data(MinTraceChars), c.limits.minTraceChars, 200, 0, 1000000)
    ensures Limited(data(MaxTraceChars), c.limits.maxTraceChars, 100000, 1, 10000000)
    ensures Limited(data(ScanLookbackDays), c.limits.scanLookbackDays, 30, 0, 100000)
    ensures Limited(data(RetentionDays), c.limits.retentionDays, 90, 1, 100000)
    ensures Limited(data(MaxTracesTotal), c.limits.maxTracesTotal, 20000, 1, 100000000)
    ensures Limited(data(MinClusterSupport), c.limits.minClusterSupport, 3, 1, 100000)
    ensures Limited(data(MinPatternsPerCategory), c.limits.minPatternsPerCategory, 3, 1, 100000)
    ensures Limited(data(InjectionMaxPatterns), c.limits.injectionMaxPatterns, 5, 1, 1000)
    ensures Limited(data(InjectionMaxChars), c.limits.injectionMaxChars, 4000, 1, 1000000)
  {
  }

  lemma LevelsLoaded(data: Data, c: Config)
    requires FromDict(data) == Some(c)
    ensures Levelled(data(ClusterCosine), c.levels.clusterCosine, 0.75, 0.05, 0.75)
    ensures Levelled(data(MinConfidence), c.levels.minConfidence, 0.2, 0.0, 0.0)
    ensures Levelled(data(InjectionMinQuality), c.levels.injectionMinQuality, 0.7, 0.0, 0.0)
  {
  }

  // ----- texts and lists -----

  /** Of so many elements those that are not blank, each read as a text and cut to so many characters. */
  function Listed(read: Raw -> string, xs: seq<Raw>, n: nat, len: nat): seq<string> {
    if xs == [] || n == 0 then []
    else if All(TextOf(xs[0]), IsSpace) then Listed(read, xs[1..], n - 1, len)
    else [if |read(xs[0])| <= len then read(xs[0]) else read(xs[0])[..len]] + Listed(read, xs[1..], n - 1, len)
  }

  lemma NonblankCons(x: Raw, xs: seq<Raw>)
    ensures Nonblank([x] + xs) == if All(TextOf(x), IsSpace) then Nonblank(xs) else [x] + Nonblank(xs)
  {
    BlankIff(TextOf(x));
    FilterCons((y: Raw) => Strip(TextOf(y)) != "", x, xs);
  }

  lemma MapCons<A, B>(f: A -> B, x: A, s: seq<A>)
    ensures Map(f, [x] + s) == [f(x)] + Map(f, s)
  {
    assert ([x] + s)[1..] == s;
  }

  /** The first element's share of a list, and the rest. */
  lemma ListCons(xs: seq<Raw>, n: nat, cut: Raw -> string)
    requires xs != [] && n > 0
    ensures var rest := Map(cut, Nonblank(Take(xs[1..], n - 1)));
      Map(cut, Nonblank(Take(xs, n))) == if All(TextOf(xs[0]), IsSpace) then rest else [cut(xs[0])] + rest
  {
    var more := Take(xs[1..], n - 1);
    assert Take(xs, n) == [xs[0]] + more;
    NonblankCons(xs[0], more);
    if !All(TextOf(xs[0]), IsSpace) { MapCons(cut, xs[0], Nonblank(more)); }
  }

  lemma ListNone(xs: seq<Raw>, n: nat, cut: Raw -> string)
    requires xs == [] || n == 0
    ensures Map(cut, Nonblank(Take(xs, n))) == []
  {
    assert Take(xs, n) == [] && Nonblank([]) == [];
  }

  lemma ListedCons(read: Raw -> string, xs: seq<Raw>, n: nat, len: nat, head: string)
    requires xs != [] && n > 0 && head == Take(read(xs[0]), len)
    ensures var rest := Listed(read, xs[1..], n - 1, len);
      Listed(read, xs, n, len) == if All(TextOf(xs[0]), IsSpace) then rest else [head] + rest
  {
    assert head == if |read(xs[0])| <= len then read(xs[0]) else read(xs[0])[..len];
  }

  lemma {:induction false} ListedIs(read: Raw -> string, xs: seq<Raw>, n: nat, len: nat, cut: Raw -> string)
    requires forall x: Raw :: cut(x) == Take(read(x), len)
    ensures Map(cut, Nonblank(Take(xs, n))) == Listed(read, xs, n, len)
  {
    if xs != [] && n > 0 {
      ListCons(xs, n, cut);
      ListedIs(read, xs[1..], n - 1, len, cut);
      ListedCons(read, xs, n, len, cut(xs[0]));
    } else {
      ListNone(xs, n, cut);
    }
  }

  /** The models: of the first hundred, cut to 128 characters. */
  lemma ModelsLoaded(data: Data, c: Config)
    requires FromDict(data) == Some(c)
    ensures c.models == match data(MiningModels) case Some(Raw(_, _, _, _, Items(xs))) => Listed(TextOf, xs, 100, 128) case _ => []
  {
    ListedIs(TextOf, Elements(data, MiningModels), 100, 128, (x: Raw) => Take(TextOf(x), 128));
  }

  /** The categories: of the first fifty, cut to 64 characters; the default ones for an empty or missing list. */
  lemma CategoriesLoaded(data: Data, c: Config)
    requires FromDict(data) == Some(c)
    ensures c.categories ==
      match data(Categories)
      case Some(Raw(_, _, _, _, Items(xs))) => (if xs == [] then DEFAULT_CATEGORIES else Listed(TextOf, xs, 50, 64))
      case _ => DEFAULT_CATEGORIES
  {
    ListedIs(TextOf, Elements(data, Categories), 50, 64, (x: Raw) => Take(TextOf(x), 64));
  }

  /** The directories: of the first twenty, stripped and cut to 4096 characters. */
  lemma DirsLoaded(data: Data, c: Config)
    requires FromDict(data) == Some(c)
    ensures c.dirs ==
      match data(ExtraTranscriptDirs)
      case Some(Raw(_, _, _, _, Items(xs))) => Listed((x: Raw) => Strip(TextOf(x)), xs, 20, 4096)
      case _ => []
  {
    ListedIs((x: Raw) => Strip(TextOf(x)), Elements(data, ExtraTranscriptDirs), 20, 4096, (x: Raw) => Take(Strip(TextOf(x)), 4096));
  }

  // ----- commands -----

  /** At most sixteen parts, each of argument characters only. */
  predicate PlainCommand(xs: seq<Raw>) {
    |xs| <= 16 && forall i :: 0 <= i < |xs| ==> Strip(TextOf(xs[i])) != "" && All(Strip(TextOf(xs[i])), ArgvChar)
  }

  lemma PartIff(s: string)
    requires Trimmed(s)
    ensures ArgvPart(s) <==> s != "" && All(s, ArgvChar)
  {
    TrimmedMatches(s, ArgvChar);
    assert IsSpace('\n') && "\n"[0] == '\n';
  }

  /** A command is taken whole, each part cut to 128 characters, or not at all. */
  lemma CommandLoaded(data: Data, k: Key)
    ensures var xs := Elements(data, k); var parts := CommandField(data, k);
      if PlainCommand(xs) then
        |parts| == |xs| && forall i :: 0 <= i < |xs| ==> parts[i] == Take(Strip(TextOf(xs[i])), 128)
      else parts == []
  {
    var xs := Elements(data, k);
    var parts := Stripped(xs);
    forall i | 0 <= i < |xs|
      ensures parts[i] == Strip(TextOf(xs[i])) && (ArgvPart(parts[i]) <==> parts[i] != "" && All(parts[i], ArgvChar))
    {
      StripTrims(TextOf(xs[i]));
      PartIff(parts[i]);
    }
  }

  lemma LlmLoaded(data: Data, c: Config)
    requires FromDict(data) == Some(c)
    ensures c.llm.unload == CommandField(data, DistillLlmUnloadCmd) && c.llm.load == CommandField(data, DistillLlmLoadCmd)
    ensures c.llm.model == match data(DistillLlmModel) case Some(x) => (if x.truthy then Glob(TextOf(x)) else "") case None => ""
    ensures c.llm.endpoint == match data(DistillLlmEndpoint) case Some(x) => (if x.truthy then Url(TextOf(x)) else "") case None => ""
  {
    CleanFixed("", GlobChar);
    StripTrimmed("");
  }

  // ----- subtables -----

  /** One more pair: kept, cut to 128 characters, unless a side is blank. */
  ghost predicate OneMorePair(before: seq<Mapping>, after: seq<Mapping>, target: string, source: string) {
    if All(target, IsSpace) || All(source, IsSpace) then after == before
    else after == before + [Mapping(Take(Strip(target), 128), Take(Strip(source), 128))]
  }

  lemma MappingOfIs(before: seq<Mapping>, target: string, source: string)
    ensures OneMorePair(before, before + MappingOf(target, source), target, source)
  {
    BlankIff(target);
    BlankIff(source);
  }

  /** The pairs of a table, entry by entry; with the empty table this determines them. */
  lemma MoreEntries(es: seq<RawEntry>, e: RawEntry)
    ensures FlatMap(MappingOfEntry, []) == []
    ensures OneMorePair(FlatMap(MappingOfEntry, es), FlatMap(MappingOfEntry, es + [e]), e.key, TextOf(e.value))
  {
    FlatMapMore(MappingOfEntry, es + [e], |es|);
    assert (es + [e])[..|es|] == es && (es + [e])[..|es| + 1] == es + [e];
    MappingOfIs(FlatMap(MappingOfEntry, es), e.key, TextOf(e.value));
  }

  /** The pairs of a list, item by item: what is no pair is passed over. */
  lemma MoreItems(xs: seq<Raw>, x: Raw)
    ensures FlatMap(MappingOfItem, []) == []
    ensures match x.shape
            case Items(ys) =>
              if |ys| == 2 then
                OneMorePair(FlatMap(MappingOfItem, xs), FlatMap(MappingOfItem, xs + [x]), TextOf(ys[0]), TextOf(ys[1]))
              else FlatMap(MappingOfItem, xs + [x]) == FlatMap(MappingOfItem, xs)
            case _ => FlatMap(MappingOfItem, xs + [x]) == FlatMap(MappingOfItem, xs)
  {
    FlatMapMore(MappingOfItem, xs + [x], |xs|);
    assert (xs + [x])[..|xs|] == xs && (xs + [x])[..|xs| + 1] == xs + [x];
    match x.shape
    case Items(ys) => if |ys| == 2 { MappingOfIs(FlatMap(MappingOfItem, xs), TextOf(ys[0]), TextOf(ys[1])); }
    case _ =>
  }

  lemma InjectionLoaded(data: Data, c: Config)
    requires FromDict(data) == Some(c)
    ensures c.injection ==
      match data(InjectionMap)
      case Some(Raw(_, _, _, _, Entries(es))) => FlatMap(MappingOfEntry, es)
      case Some(Raw(_, _, _, _, Items(xs))) => FlatMap(MappingOfItem, xs)
      case _ => []
  {
  }

  lemma {:induction false} SetKnown(ts: seq<Target>, t: Target, i: nat)
    requires i < |ts| && ts[i].model == t.model && DistinctModels(ts)
    ensures SetTarget(ts, t) == ts[i := t]
  {
    if i > 0 {
      assert ts[0].model != ts[i].model;
      SetKnown(ts[1..], t, i - 1);
      assert ts[i := t] == [ts[0]] + ts[1..][i - 1 := t];
    } else {
      assert ts[0 := t] == [t] + ts[1..];
    }
  }

  lemma {:induction false} SetUnknown(ts: seq<Target>, t: Target)
    requires forall i :: 0 <= i < |ts| ==> ts[i].model != t.model
    ensures SetTarget(ts, t) == ts + [t]
  {
    if ts != [] {
      assert ts[0].model != t.model;
      forall i | 0 <= i < |ts[1..]| ensures ts[1..][i].model != t.model { assert ts[i + 1].model != t.model; }
      SetUnknown(ts[1..], t);
      assert ts == [ts[0]] + ts[1..];
    }
  }

  lemma NameIff(s: string)
    requires Trimmed(s)
    ensures ModelName(s) <==> 1 <= |s| <= 128 && All(s, ModelChar)
  {
    assert IsSpace('\n');
  }

  /** One more entry: a fitting name with a number gets that number between 0 and 1000, in its old place if it had one. */
  ghost predicate OneMoreTarget(before: seq<Target>, after: seq<Target>, name: string, count: Outcome<int>) {
    if !(1 <= |name| <= 128 && All(name, ModelChar)) || count.Caught? then after == before
    else
      count.Value?
      && var n := if count.value < 0 then 0 else if count.value > 1000 then 1000 else count.value;
         && (forall i :: 0 <= i < |before| && before[i].model == name ==> after == before[i := Target(name, n)])
         && ((forall i :: 0 <= i < |before| ==> before[i].model != name) ==> after == before + [Target(name, n)])
  }

  lemma StepIs(ts: seq<Target>, name: string, count: Outcome<int>)
    requires DistinctModels(ts) && Trimmed(name) && NamedStep(ts, name, count).Some?
    ensures OneMoreTarget(ts, NamedStep(ts, name, count).value, name, count)
  {
    NameIff(name);
    if ModelName(name) && count.Value? {
      var t := Target(name, Clamp(count.value, 0, MAX_PATTERN_TARGET));
      assert Take(name, 128) == name;
      forall i | 0 <= i < |ts| && ts[i].model == name ensures SetTarget(ts, t) == ts[i := t] { SetKnown(ts, t, i); }
      if forall i :: 0 <= i < |ts| ==> ts[i].model != name { SetUnknown(ts, t); }
    }
  }

  /** The targets of a table, entry by entry; with the empty table this determines them. */
  lemma MoreTargets(es: seq<RawEntry>, e: RawEntry)
    requires TargetsOf(es + [e]).Some?
    ensures TargetsOf([]) == Some([]) && TargetsOf(es).Some?
    ensures OneMoreTarget(TargetsOf(es).value, TargetsOf(es + [e]).value, Strip(e.key), e.value.asInt)
  {
    FoldMore(TargetStep, [], es + [e], |es|);
    assert (es + [e])[..|es|] == es && (es + [e])[..|es| + 1] == es + [e];
    DistinctSoFar(es);
    StripTrims(e.key);
    StepIs(TargetsOf(es).value, Strip(e.key), e.value.asInt);
  }

  lemma DistinctSoFar(es: seq<RawEntry>)
    requires TargetsOf(es).Some?
    ensures DistinctModels(TargetsOf(es).value)
  {
    forall ts, e | GoodTargets(ts) && TargetStep(ts, e).Some? ensures GoodTargets(TargetStep(ts, e).value) { TargetStepGood(ts, e); }
    FoldKeeps(TargetStep, [], es, GoodTargets);
  }

  lemma TargetsLoaded(data: Data, c: Config)
    requires FromDict(data) == Some(c)
    ensures Some(c.targets) == match data(PatternTargets) case Some(Raw(_, _, _, _, Entries(es))) => TargetsOf(es) case _ => Some([])
  {
  }
}
