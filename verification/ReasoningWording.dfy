/** The printed section line by line: its keys spelled out, each with the configuration's own value. */
module ReasoningWording {
  import opened Prelude
  import opened PyString
  import opened Sanitize
  import opened ReasoningConfig
  import opened ReasoningKeys
  import opened ReasoningSection
  import opened ReasoningPrinter
  import T = Toml
  import L = TomlLines

  function Texts(py: Python, p: Printout): seq<string> { L.LineTexts(PrintoutLines(py, p)) }

  /** Of the lines under the header, this one is that key with that value. */
  predicate LineIs(lines: seq<string>, i: nat, key: string, value: string) { 2 + i < |lines| && lines[2 + i] == key + (" = " + value) }

  // ----- where the lines are -----

  lemma Together<A>(intro: A, header: A, fields: seq<A>, a: A, maps: seq<A>, b: A, targets: seq<A>)
    ensures var all := [intro, header] + fields + ([a] + maps) + ([b] + targets); var n, m := |fields|, |maps|;
      && |all| == 4 + n + m + |targets| && all[0] == intro && all[1] == header && all[2 + n] == a && all[3 + n + m] == b
      && (forall i :: 0 <= i < n ==> all[2 + i] == fields[i])
      && (forall i :: 0 <= i < m ==> all[3 + n + i] == maps[i])
      && (forall i :: 0 <= i < |targets| ==> all[4 + n + m + i] == targets[i])
  {
  }

  lemma TextsAt(lines: seq<L.Line>, i: nat)
    requires i < |lines|
    ensures i < |L.LineTexts(lines)| == |lines| && L.LineTexts(lines)[i] == L.LineText(lines[i])
  {
  }

  lemma SectionAt(fields: seq<T.Entry>, maps: seq<T.Entry>, targets: seq<T.Entry>)
    ensures var lines := SectionLines(fields, maps, targets); var n, m := |fields|, |maps|;
      && |lines| == 4 + n + m + |targets|
      && lines[1] == HeaderLine([SECTION]) && lines[2 + n] == HeaderLine([SECTION, Name(InjectionMap)])
      && lines[3 + n + m] == HeaderLine([SECTION, Name(PatternTargets)])
      && (forall i :: 0 <= i < n ==> lines[2 + i] == L.Line(T.Pair(fields[i].key, fields[i].value), false))
      && (forall i :: 0 <= i < m ==> lines[3 + n + i] == L.Line(T.Pair(maps[i].key, maps[i].value), true))
      && (forall i :: 0 <= i < |targets| ==> lines[4 + n + m + i] == L.Line(T.Pair(targets[i].key, targets[i].value), true))
  {
    Together(L.Line(T.Comment(INTRO), false), HeaderLine([SECTION]), PairLines(fields, false), HeaderLine([SECTION, Name(InjectionMap)]),
             PairLines(maps, true), HeaderLine([SECTION, Name(PatternTargets)]), PairLines(targets, true));
  }

  lemma OneName(a: string)
    ensures L.LineText(HeaderLine([a])) == "[" + (a + "]")
  {
  }

  lemma TwoNames(a: string, b: string)
    ensures L.LineText(HeaderLine([a, b])) == "[" + (a + ("." + (b + "]")))
  {
  }

  /** A header in the second line; after 22 fields a subtable of n entries with its header, and one of m. */
  predicate Headed(lines: seq<string>, n: nat, m: nat, section: string, first: string, second: string) {
    && |lines| == 26 + n + m && lines[1] == "[" + (section + "]")
    && lines[24] == "[" + (section + ("." + (first + "]"))) && lines[25 + n] == "[" + (section + ("." + (second + "]")))
  }

  lemma TextsOf(fields: seq<T.Entry>, maps: seq<T.Entry>, targets: seq<T.Entry>)
    requires |fields| == 22
    ensures Headed(L.LineTexts(SectionLines(fields, maps, targets)), |maps|, |targets|, SECTION, Name(InjectionMap), Name(PatternTargets))
  {
    var lines := SectionLines(fields, maps, targets);
    SectionAt(fields, maps, targets);
    TextsAt(lines, 1);
    TextsAt(lines, 24);
    TextsAt(lines, 25 + |maps|);
    OneName(SECTION);
    TwoNames(SECTION, Name(InjectionMap));
    TwoNames(SECTION, Name(PatternTargets));
  }

  /** The names in the headers, and of the two keys that are read but not printed. */
  lemma OtherNames()
    ensures SECTION == "reasoning_training" && Name(InjectionMap) == "injection_map" && Name(PatternTargets) == "pattern_targets"
    ensures Name(ExtraTranscriptDirs) == "extra_transcript_dirs" && Name(InjectionMinQuality) == "injection_min_quality"
  {
  }

  /** The comment, the header and the fields; then two subtables, each with a header. */
  lemma Layout(py: Python, p: Printout)
    ensures Headed(Texts(py, p), |p.maps|, |p.targets|, SECTION, Name(InjectionMap), Name(PatternTargets))
  {
    FieldCount(Values(py, p));
    TextsOf(Fields(Values(py, p)), MapEntries(p.maps), TargetEntries(p.targets));
  }

  lemma FieldCount(value: Key -> T.Value)
    ensures |Fields(value)| == 22
  {
    PrintedCount();
  }

  lemma PrintedCount()
    ensures |PRINTED| == 22
  {
  }

  // ----- the entries of the subtables -----

  lemma TextEntry(key: string, text: string)
    ensures L.LineText(L.Line(T.Pair(key, T.Str(text)), true)) == "\"" + (key + ("\" = \"" + (text + "\"")))
  {
    var value := "\"" + (text + "\"");
    assert T.Put(T.Str(text), "") == value;
    Assoc("\"", " = ", value);
    assert "\"" + " = " == "\" = ";
    assert ("\" = " + "\"") + (text + "\"") == "\" = " + value;
    assert "\" = " + "\"" == "\" = \"";
  }

  lemma NumberEntry(key: string, n: int)
    ensures L.LineText(L.Line(T.Pair(key, T.Int(n)), true)) == "\"" + (key + ("\" = " + T.IntText(n)))
  {
    assert T.Put(T.Int(n), "") == T.IntText(n);
    Assoc("\"", " = ", T.IntText(n));
    assert "\"" + " = " == "\" = ";
  }

  lemma InMiddle<A>(a: seq<A>, h: A, b: seq<A>, c: seq<A>, i: nat, k: nat)
    requires i < |b| && k == |a| + 1 + i
    ensures k < |a + ([h] + b) + c| && (a + ([h] + b) + c)[k] == b[i]
  {
  }

  lemma AtEnd<A>(a: seq<A>, h: A, b: seq<A>, i: nat, k: nat)
    requires i < |b| && k == |a| + 1 + i
    ensures k < |a + ([h] + b)| && (a + ([h] + b))[k] == b[i]
  {
  }

  lemma MapLineAt(fields: seq<T.Entry>, maps: seq<T.Entry>, targets: seq<T.Entry>, i: nat, k: nat)
    requires i < |maps| && k == 3 + |fields| + i
    ensures var lines := L.LineTexts(SectionLines(fields, maps, targets));
      k < |lines| && lines[k] == L.LineText(L.Line(T.Pair(maps[i].key, maps[i].value), true))
  {
    InMiddle([L.Line(T.Comment(INTRO), false), HeaderLine([SECTION])] + PairLines(fields, false), HeaderLine([SECTION, Name(InjectionMap)]),
             PairLines(maps, true), [HeaderLine([SECTION, Name(PatternTargets)])] + PairLines(targets, true), i, k);
    TextsAt(SectionLines(fields, maps, targets), k);
  }

  lemma TargetLineAt(fields: seq<T.Entry>, maps: seq<T.Entry>, targets: seq<T.Entry>, i: nat, k: nat)
    requires i < |targets| && k == 4 + |fields| + |maps| + i
    ensures var lines := L.LineTexts(SectionLines(fields, maps, targets));
      k < |lines| && lines[k] == L.LineText(L.Line(T.Pair(targets[i].key, targets[i].value), true))
  {
    AtEnd([L.Line(T.Comment(INTRO), false), HeaderLine([SECTION])] + PairLines(fields, false)
          + ([HeaderLine([SECTION, Name(InjectionMap)])] + PairLines(maps, true)),
          HeaderLine([SECTION, Name(PatternTargets)]), PairLines(targets, true), i, k);
    TextsAt(SectionLines(fields, maps, targets), k);
  }

  lemma PairLineAt(fields: seq<T.Entry>, ms: seq<Mapping>, targets: seq<T.Entry>, i: nat, k: nat)
    requires i < |ms| && k == 3 + |fields| + i
    ensures var lines := L.LineTexts(SectionLines(fields, MapEntries(ms), targets));
      k < |lines| && lines[k] == "\"" + (ms[i].target + ("\" = \"" + (ms[i].source + "\"")))
  {
    MapLineAt(fields, MapEntries(ms), targets, i, k);
    assert MapEntries(ms)[i] == MapEntry(ms[i]);
    TextEntry(ms[i].target, ms[i].source);
  }

  lemma CountLineAt(fields: seq<T.Entry>, ms: seq<Mapping>, ts: seq<Target>, i: nat)
    requires i < |ts| && |fields| == 22
    ensures var lines := L.LineTexts(SectionLines(fields, MapEntries(ms), TargetEntries(ts))); var k := 26 + |ms| + i;
      k < |lines| && lines[k] == "\"" + (ts[i].model + ("\" = " + T.IntText(ts[i].count)))
  {
    TargetLineAt(fields, MapEntries(ms), TargetEntries(ts), i, 26 + |ms| + i);
    assert TargetEntries(ts)[i] == TargetEntry(ts[i]);
    NumberEntry(ts[i].model, ts[i].count);
  }

  /** Each pair on a line: the target model in quotes, and its source. */
  lemma PairPrinted(py: Python, p: Printout, i: nat)
    requires i < |p.maps|
    ensures 25 + i < |Texts(py, p)| && Texts(py, p)[25 + i] == "\"" + (p.maps[i].target + ("\" = \"" + (p.maps[i].source + "\"")))
  {
    FieldCount(Values(py, p));
    PairLineAt(Fields(Values(py, p)), p.maps, TargetEntries(p.targets), i, 25 + i);
  }

  /** Each target on a line: the model in quotes, and its number. */
  lemma TargetPrinted(py: Python, p: Printout, i: nat)
    requires i < |p.targets|
    ensures var k := 26 + |p.maps| + i;
      k < |Texts(py, p)| && Texts(py, p)[k] == "\"" + (p.targets[i].model + ("\" = " + T.IntText(p.targets[i].count)))
  {
    FieldCount(Values(py, p));
    CountLineAt(Fields(Values(py, p)), p.maps, p.targets, i);
  }

  // ----- the fields -----

  lemma FieldEntry(key: string, value: T.Value)
    ensures L.LineText(L.Line(T.Pair(key, value), false)) == key + (" = " + T.Put(value, ""))
  {
  }

  lemma FieldPrinted(py: Python, p: Printout, k: Key)
    requires Printed(k)
    ensures LineIs(Texts(py, p), Position(k), Name(k), T.Put(FieldValue(py, p, k), ""))
  {
    var value, i := Values(py, p), Position(k);
    PrintedAt(k);
    KeyedAt(Name, value, PRINTED, i, k);
    SectionAt(Fields(value), MapEntries(p.maps), TargetEntries(p.targets));
    TextsAt(PrintoutLines(py, p), 2 + i);
    FieldEntry(Name(k), FieldValue(py, p, k));
  }

  function OnOff(b: bool): string { if b then "true" else "false" }

  /** shown says of every printed key that its line has its name and its value. */
  ghost predicate AllShown(py: Python, p: Printout, shown: (nat, string, string) -> bool) {
    forall k: Key :: Printed(k) ==> shown(Position(k), Name(k), T.Put(FieldValue(py, p, k), ""))
  }

  lemma Shown(py: Python, p: Printout, shown: (nat, string, string) -> bool, k: Key, i: nat, key: string, value: string)
    requires AllShown(py, p, shown) && Printed(k) && Position(k) == i && Name(k) == key && T.Put(FieldValue(py, p, k), "") == value
    ensures shown(i, key, value)
  {
  }

  /** The line of that number under the header is that key with that value. */
  predicate Shows(py: Python, p: Printout, i: nat, key: string, value: string) { LineIs(Texts(py, p), i, key, value) }

  lemma EachShown(py: Python, p: Printout, shown: (nat, string, string) -> bool)
    requires forall i: nat, key: string, value: string :: shown(i, key, value) <==> Shows(py, p, i, key, value)
    ensures AllShown(py, p, shown)
  {
    forall k: Key | Printed(k) ensures shown(Position(k), Name(k), T.Put(FieldValue(py, p, k), "")) { FieldPrinted(py, p, k); }
  }

  lemma ScalarTexts(n: int, b: bool, s: string)
    ensures T.Put(T.Int(n), "") == T.IntText(n) && T.Put(T.Bool(b), "") == OnOff(b)
    ensures T.Put(T.Str(s), "") == "\"" + (s + "\"") && T.Put(T.Float(s), "") == s
  {
  }

  function InBrackets(gs: seq<string>): string { "[" + (Join(", ", Quotes(gs)) + "]") }

  lemma SwitchesShown(py: Python, p: Printout, shown: (nat, string, string) -> bool)
    requires AllShown(py, p, shown)
    ensures shown(0, "mining_enabled", OnOff(p.flags.mining))
    ensures shown(1, "injection_enabled", OnOff(p.flags.injection))
    ensures shown(15, "distill_use_llm", OnOff(p.flags.useLlm))
    ensures shown(18, "allow_remote_endpoints", OnOff(p.flags.allowRemote))
    ensures shown(21, "redact_secrets", OnOff(p.flags.redact))
  {
    ScalarTexts(0, p.flags.mining, "");
    Shown(py, p, shown, MiningEnabled, 0, "mining_enabled", OnOff(p.flags.mining));
    ScalarTexts(0, p.flags.injection, "");
    Shown(py, p, shown, InjectionEnabled, 1, "injection_enabled", OnOff(p.flags.injection));
    ScalarTexts(0, p.flags.useLlm, "");
    Shown(py, p, shown, DistillUseLlm, 15, "distill_use_llm", OnOff(p.flags.useLlm));
    ScalarTexts(0, p.flags.allowRemote, "");
    Shown(py, p, shown, AllowRemoteEndpoints, 18, "allow_remote_endpoints", OnOff(p.flags.allowRemote));
    ScalarTexts(0, p.flags.redact, "");
    Shown(py, p, shown, RedactSecrets, 21, "redact_secrets", OnOff(p.flags.redact));
  }

  /** The switches. */
  lemma SwitchesPrinted(py: Python, p: Printout)
    ensures Shows(py, p, 0, "mining_enabled", OnOff(p.flags.mining))
    ensures Shows(py, p, 1, "injection_enabled", OnOff(p.flags.injection))
    ensures Shows(py, p, 15, "distill_use_llm", OnOff(p.flags.useLlm))
    ensures Shows(py, p, 18, "allow_remote_endpoints", OnOff(p.flags.allowRemote))
    ensures Shows(py, p, 21, "redact_secrets", OnOff(p.flags.redact))
  {
    var shown := (i: nat, key: string, value: string) => Shows(py, p, i, key, value);
    EachShown(py, p, shown);
    SwitchesShown(py, p, shown);
  }

  lemma TraceLimitsShown(py: Python, p: Printout, shown: (nat, string, string) -> bool)
    requires AllShown(py, p, shown)
    ensures shown(4, "min_trace_chars", T.IntText(p.limits.minTraceChars))
    ensures shown(5, "max_trace_chars", T.IntText(p.limits.maxTraceChars))
    ensures shown(6, "scan_lookback_days", T.IntText(p.limits.scanLookbackDays))
    ensures shown(7, "retention_days", T.IntText(p.limits.retentionDays))
    ensures shown(8, "max_traces_total", T.IntText(p.limits.maxTracesTotal))
  {
    ScalarTexts(p.limits.minTraceChars, true, "");
    Shown(py, p, shown, MinTraceChars, 4, "min_trace_chars", T.IntText(p.limits.minTraceChars));
    ScalarTexts(p.limits.maxTraceChars, true, "");
    Shown(py, p, shown, MaxTraceChars, 5, "max_trace_chars", T.IntText(p.limits.maxTraceChars));
    ScalarTexts(p.limits.scanLookbackDays, true, "");
    Shown(py, p, shown, ScanLookbackDays, 6, "scan_lookback_days", T.IntText(p.limits.scanLookbackDays));
    ScalarTexts(p.limits.retentionDays, true, "");
    Shown(py, p, shown, RetentionDays, 7, "retention_days", T.IntText(p.limits.retentionDays));
    ScalarTexts(p.limits.maxTracesTotal, true, "");
    Shown(py, p, shown, MaxTracesTotal, 8, "max_traces_total", T.IntText(p.limits.maxTracesTotal));
  }

  /** The limits on traces. */
  lemma TraceLimitsPrinted(py: Python, p: Printout)
    ensures Shows(py, p, 4, "min_trace_chars", T.IntText(p.limits.minTraceChars))
    ensures Shows(py, p, 5, "max_trace_chars", T.IntText(p.limits.maxTraceChars))
    ensures Shows(py, p, 6, "scan_lookback_days", T.IntText(p.limits.scanLookbackDays))
    ensures Shows(py, p, 7, "retention_days", T.IntText(p.limits.retentionDays))
    ensures Shows(py, p, 8, "max_traces_total", T.IntText(p.limits.maxTracesTotal))
  {
    var shown := (i: nat, key: string, value: string) => Shows(py, p, i, key, value);
    EachShown(py, p, shown);
    TraceLimitsShown(py, p, shown);
  }

  lemma PatternLimitsShown(py: Python, p: Printout, shown: (nat, string, string) -> bool)
    requires AllShown(py, p, shown)
    ensures shown(9, "min_cluster_support", T.IntText(p.limits.minClusterSupport))
    ensures shown(12, "min_patterns_per_category", T.IntText(p.limits.minPatternsPerCategory))
    ensures shown(13, "injection_max_patterns", T.IntText(p.limits.injectionMaxPatterns))
    ensures shown(14, "injection_max_chars", T.IntText(p.limits.injectionMaxChars))
  {
    ScalarTexts(p.limits.minClusterSupport, true, "");
    Shown(py, p, shown, MinClusterSupport, 9, "min_cluster_support", T.IntText(p.limits.minClusterSupport));
    ScalarTexts(p.limits.minPatternsPerCategory, true, "");
    Shown(py, p, shown, MinPatternsPerCategory, 12, "min_patterns_per_category", T.IntText(p.limits.minPatternsPerCategory));
    ScalarTexts(p.limits.injectionMaxPatterns, true, "");
    Shown(py, p, shown, InjectionMaxPatterns, 13, "injection_max_patterns", T.IntText(p.limits.injectionMaxPatterns));
    ScalarTexts(p.limits.injectionMaxChars, true, "");
    Shown(py, p, shown, InjectionMaxChars, 14, "injection_max_chars", T.IntText(p.limits.injectionMaxChars));
  }

  /** The limits on patterns. */
  lemma PatternLimitsPrinted(py: Python, p: Printout)
    ensures Shows(py, p, 9, "min_cluster_support", T.IntText(p.limits.minClusterSupport))
    ensures Shows(py, p, 12, "min_patterns_per_category", T.IntText(p.limits.minPatternsPerCategory))
    ensures Shows(py, p, 13, "injection_max_patterns", T.IntText(p.limits.injectionMaxPatterns))
    ensures Shows(py, p, 14, "injection_max_chars", T.IntText(p.limits.injectionMaxChars))
  {
    var shown := (i: nat, key: string, value: string) => Shows(py, p, i, key, value);
    EachShown(py, p, shown);
    PatternLimitsShown(py, p, shown);
  }

  lemma LevelsShown(py: Python, p: Printout, shown: (nat, string, string) -> bool)
    requires AllShown(py, p, shown)
    ensures shown(10, "cluster_cosine", py.repr(p.cosine))
    ensures shown(11, "min_confidence", py.repr(p.confidence))
  {
    ScalarTexts(0, true, py.repr(p.cosine));
    Shown(py, p, shown, ClusterCosine, 10, "cluster_cosine", py.repr(p.cosine));
    ScalarTexts(0, true, py.repr(p.confidence));
    Shown(py, p, shown, MinConfidence, 11, "min_confidence", py.repr(p.confidence));
  }

  /** Two of the three levels, as Python writes them; the third is not printed. */
  lemma LevelsPrinted(py: Python, p: Printout)
    ensures Shows(py, p, 10, "cluster_cosine", py.repr(p.cosine))
    ensures Shows(py, p, 11, "min_confidence", py.repr(p.confidence))
  {
    var shown := (i: nat, key: string, value: string) => Shows(py, p, i, key, value);
    EachShown(py, p, shown);
    LevelsShown(py, p, shown);
  }

  lemma LlmShown(py: Python, p: Printout, shown: (nat, string, string) -> bool)
    requires AllShown(py, p, shown)
    ensures shown(16, "distill_llm_model", "\"" + (p.llm.model + "\""))
    ensures shown(17, "distill_llm_endpoint", "\"" + (p.llm.endpoint + "\""))
  {
    ScalarTexts(0, true, p.llm.model);
    Shown(py, p, shown, DistillLlmModel, 16, "distill_llm_model", "\"" + (p.llm.model + "\""));
    ScalarTexts(0, true, p.llm.endpoint);
    Shown(py, p, shown, DistillLlmEndpoint, 17, "distill_llm_endpoint", "\"" + (p.llm.endpoint + "\""));
  }

  /** The model and its address. */
  lemma LlmPrinted(py: Python, p: Printout)
    ensures Shows(py, p, 16, "distill_llm_model", "\"" + (p.llm.model + "\""))
    ensures Shows(py, p, 17, "distill_llm_endpoint", "\"" + (p.llm.endpoint + "\""))
  {
    var shown := (i: nat, key: string, value: string) => Shows(py, p, i, key, value);
    EachShown(py, p, shown);
    LlmShown(py, p, shown);
  }

  lemma ListsShown(py: Python, p: Printout, shown: (nat, string, string) -> bool)
    requires AllShown(py, p, shown)
    ensures shown(2, "mining_models", InBrackets(p.models))
    ensures shown(3, "categories", InBrackets(p.categories))
    ensures shown(19, "distill_llm_unload_cmd", InBrackets(p.llm.unload))
    ensures shown(20, "distill_llm_load_cmd", InBrackets(p.llm.load))
  {
    ListText(p.models);
    Shown(py, p, shown, MiningModels, 2, "mining_models", InBrackets(p.models));
    ListText(p.categories);
    Shown(py, p, shown, Categories, 3, "categories", InBrackets(p.categories));
    ListText(p.llm.unload);
    Shown(py, p, shown, DistillLlmUnloadCmd, 19, "distill_llm_unload_cmd", InBrackets(p.llm.unload));
    ListText(p.llm.load);
    Shown(py, p, shown, DistillLlmLoadCmd, 20, "distill_llm_load_cmd", InBrackets(p.llm.load));
  }

  /** The lists. */
  lemma ListsPrinted(py: Python, p: Printout)
    ensures Shows(py, p, 2, "mining_models", InBrackets(p.models))
    ensures Shows(py, p, 3, "categories", InBrackets(p.categories))
    ensures Shows(py, p, 19, "distill_llm_unload_cmd", InBrackets(p.llm.unload))
    ensures Shows(py, p, 20, "distill_llm_load_cmd", InBrackets(p.llm.load))
  {
    var shown := (i: nat, key: string, value: string) => Shows(py, p, i, key, value);
    EachShown(py, p, shown);
    ListsShown(py, p, shown);
  }

  // ----- lists -----

  /** The texts that are kept, each in quotes, a comma and a space between; one kept as nothing is left out. */
  function Listing(keep: string -> string, ss: seq<string>): string {
    if ss == [] then ""
    else
      var n := |ss| - 1;
      var before, g := Listing(keep, ss[..n]), keep(ss[n]);
      if g == "" then before else before + ((if before == "" then "" else ", ") + ("\"" + (g + "\"")))
  }

  function Quotes(gs: seq<string>): seq<string> { Map((g: string) => "\"" + (g + "\""), gs) }

  lemma {:induction false} ElementsJoined(gs: seq<string>, rest: string)
    ensures T.PutElements(Map((s: string) => T.Str(s), gs), rest) == Join(", ", Quotes(gs)) + ("]" + rest)
  {
    var items := Map((s: string) => T.Str(s), gs);
    if |gs| == 1 {
      assert T.Put(items[0], "]" + rest) == Quotes(gs)[0] + ("]" + rest);
    } else if |gs| > 1 {
      ElementsJoined(gs[1..], rest);
      assert items[1..] == Map((s: string) => T.Str(s), gs[1..]);
      assert Quotes(gs)[1..] == Quotes(gs[1..]);
      assert T.Put(items[0], ", " + T.PutElements(items[1..], rest)) == Quotes(gs)[0] + (", " + T.PutElements(items[1..], rest));
    }
  }

  lemma QuotesMore(gs: seq<string>, g: string)
    ensures Quotes(gs + [g]) == Quotes(gs) + ["\"" + (g + "\"")]
  {
  }

  lemma ListingMore(before: string, gs: seq<string>, g: string)
    requires before == Join(", ", Quotes(gs)) && (before == "" ==> gs == [])
    ensures g != "" ==> Join(", ", Quotes(gs + [g])) == before + ((if before == "" then "" else ", ") + ("\"" + (g + "\"")))
  {
    if g != "" {
      QuotesMore(gs, g);
      JoinMore(", ", Quotes(gs), "\"" + (g + "\""));
      if gs != [] { Assoc(before, ", ", "\"" + (g + "\"")); } else { assert before == ""; }
      assert gs != [] ==> Quotes(gs)[0][0] == '"';
    }
  }

  lemma {:induction false} ListingJoined(keep: string -> string, ss: seq<string>, nonempty: string -> bool)
    requires forall g: string :: nonempty(g) <==> g != ""
    ensures var gs := Filter(nonempty, Map(keep, ss));
      Listing(keep, ss) == Join(", ", Quotes(gs)) && (Listing(keep, ss) == "" ==> gs == [])
  {
    if ss != [] {
      var n := |ss| - 1;
      var g := keep(ss[n]);
      var before := Filter(nonempty, Map(keep, ss[..n]));
      ListingJoined(keep, ss[..n], nonempty);
      KeptMore(keep, ss, n, nonempty);
      ListingMore(Listing(keep, ss[..n]), before, g);
      assert before + [] == before;
    }
  }

  lemma KeptMore(keep: string -> string, ss: seq<string>, n: nat, nonempty: string -> bool)
    requires |ss| == n + 1
    ensures Filter(nonempty, Map(keep, ss)) == Filter(nonempty, Map(keep, ss[..n])) + if nonempty(keep(ss[n])) then [keep(ss[n])] else []
  {
    assert ss == ss[..n] + [ss[n]];
    MapMore(keep, ss[..n], ss[n]);
    FilterMore(nonempty, Map(keep, ss[..n]), keep(ss[n]));
  }

  lemma ListText(gs: seq<string>)
    ensures T.Put(Strings(gs), "") == InBrackets(gs)
  {
    ElementsJoined(gs, "");
    assert "]" + "" == "]";
  }

  lemma {:induction false} KeptParts(ss: seq<string>, keep: string -> string, nonempty: string -> bool)
    requires forall g: string :: nonempty(g) <==> g != ""
    requires forall p: string :: keep(p) == if ArgvPart(p) then p else ""
    ensures Filter(nonempty, Map(keep, ss)) == Filter(ArgvPart, ss)
  {
    if ss != [] { KeptParts(ss[1..], keep, nonempty); }
  }

  /** A part of a command as it is printed: not at all, unless it passes its pattern. */
  function Part(p: string): string { if ArgvPart(p) then p else "" }

  lemma CleanedListing(ss: seq<string>, gs: seq<string>)
    requires gs == Cleaned(ss)
    ensures InBrackets(gs) == "[" + (Listing(Glob, ss) + "]")
  {
    var nonempty := (g: string) => g != "";
    ListingJoined(Glob, ss, nonempty);
    FilterSame(nonempty, (g: string) => g != "", Map(Glob, ss));
  }

  lemma CommandListing(ss: seq<string>)
    ensures InBrackets(Filter(ArgvPart, ss)) == "[" + (Listing(Part, ss) + "]")
  {
    var nonempty := (g: string) => g != "";
    ListingJoined(Part, ss, nonempty);
    KeptParts(ss, Part, nonempty);
  }

  /** What is printed of a configuration's lists: patterns and categories sanitised, and the parts of commands that pass. */
  lemma ListsOf(c: Config)
    ensures var p := PrintoutOf(c);
      && InBrackets(p.models) == "[" + (Listing(Glob, c.models) + "]")
      && InBrackets(p.categories) == "[" + (Listing(Glob, c.categories) + "]")
      && InBrackets(p.llm.unload) == "[" + (Listing(Part, c.llm.unload) + "]")
      && InBrackets(p.llm.load) == "[" + (Listing(Part, c.llm.load) + "]")
  {
    CleanedListing(c.models, PrintoutOf(c).models);
    CleanedListing(c.categories, PrintoutOf(c).categories);
    CommandListing(c.llm.unload);
    CommandListing(c.llm.load);
  }

  /** The scalars are the configuration's own, the model and its address sanitised. */
  lemma ScalarsOf(c: Config)
    ensures var p := PrintoutOf(c);
      && p.flags == c.flags && p.limits == c.limits && p.cosine == c.levels.clusterCosine && p.confidence == c.levels.minConfidence
      && p.llm.model == Glob(c.llm.model) && p.llm.endpoint == Url(c.llm.endpoint)
  {
  }

  // ----- what the subtables hold -----

  /** The pairs printed, one pair at a time: both sides sanitised, and left out when one side comes to nothing. */
  lemma MorePairs(ms: seq<Mapping>, m: Mapping)
    ensures FlatMap(CleanMapping, []) == []
    ensures FlatMap(CleanMapping, ms + [m]) ==
      if Glob(m.target) == "" || Glob(m.source) == "" then FlatMap(CleanMapping, ms)
      else FlatMap(CleanMapping, ms) + [Mapping(Glob(m.target), Glob(m.source))]
  {
    FlatMapMore(CleanMapping, ms + [m], |ms|);
    assert (ms + [m])[..|ms|] == ms && (ms + [m])[..|ms| + 1] == ms + [m];
  }

  lemma MoreTargets(ts: seq<Target>, t: Target)
    ensures FlatMap(CleanTarget, []) == []
    ensures FlatMap(CleanTarget, ts + [t]) ==
      if Glob(t.model) == "" then FlatMap(CleanTarget, ts) else FlatMap(CleanTarget, ts) + [Target(Glob(t.model), t.count)]
  {
    FlatMapMore(CleanTarget, ts + [t], |ts|);
    assert (ts + [t])[..|ts|] == ts && (ts + [t])[..|ts| + 1] == ts + [t];
  }

  /** What the two subtables print of a configuration. */
  lemma SubtablesOf(c: Config)
    ensures PrintoutOf(c).maps == FlatMap(CleanMapping, c.injection) && PrintoutOf(c).targets == FlatMap(CleanTarget, c.targets)
  {
  }
}
