/**
 The text of the section for any printed values: what it parses as, and what its reader finds under each key.
 */
module ReasoningSection {
  import opened Prelude
  import opened ReasoningConfig
  import opened ReasoningKeys
  import T = Toml
  import L = TomlLines

  const SECTION := "reasoning_training"
  const INTRO := " Reasoning-training (mining" + (" reasoning traces +" + (" injection; opt-in," + " off by default)"))

  /** An entry for each key. */
  function Keyed(name: Key -> string, value: Key -> T.Value, keys: seq<Key>): seq<T.Entry> {
    Map((k: Key) => T.Entry(name(k), value(k)), keys)
  }

  function Fields(value: Key -> T.Value): seq<T.Entry> { Keyed(Name, value, PRINTED) }

  function PairLines(es: seq<T.Entry>, quoted: bool): seq<L.Line> {
    Map((e: T.Entry) => L.Line(T.Pair(e.key, e.value), quoted), es)
  }

  function HeaderLine(path: seq<string>): L.Line { L.Line(T.Header(path), false) }

  /** Header and fields, then the two subtables. */
  function SectionLines(fields: seq<T.Entry>, maps: seq<T.Entry>, targets: seq<T.Entry>): seq<L.Line> {
    [L.Line(T.Comment(INTRO), false), HeaderLine([SECTION])] + PairLines(fields, false)
    + ([HeaderLine([SECTION, Name(InjectionMap)])] + PairLines(maps, true))
    + ([HeaderLine([SECTION, Name(PatternTargets)])] + PairLines(targets, true))
  }

  // ----- every line is well formed -----

  /** Fit for a quoted key, and a value that can be printed. */
  ghost predicate GoodEntry(e: T.Entry) { All(e.key, T.PlainChar) && T.Printable(e.value) }

  ghost predicate GoodField(e: T.Entry) { T.IsBare(e.key) && T.Printable(e.value) }

  lemma PairLinesGood(es: seq<T.Entry>)
    requires All(es, GoodEntry)
    ensures All(PairLines(es, true), L.WellFormed)
  {
  }

  lemma FieldLinesGood(es: seq<T.Entry>)
    requires All(es, GoodField)
    ensures All(PairLines(es, false), L.WellFormed)
  {
  }

  lemma KeyedAt(name: Key -> string, value: Key -> T.Value, keys: seq<Key>, i: nat, k: Key)
    requires i < |keys| && keys[i] == k
    ensures i < |Keyed(name, value, keys)| && Keyed(name, value, keys)[i] == T.Entry(name(k), value(k))
  {
  }

  lemma KeyedGood(name: Key -> string, value: Key -> T.Value, keys: seq<Key>)
    requires forall i :: 0 <= i < |keys| ==> T.IsBare(name(keys[i])) && T.Printable(value(keys[i]))
    ensures All(Keyed(name, value, keys), GoodField)
  {
  }

  lemma FieldsGood(value: Key -> T.Value)
    requires forall i :: 0 <= i < |PRINTED| ==> T.Printable(value(PRINTED[i]))
    ensures All(Fields(value), GoodField)
  {
    forall i | 0 <= i < |PRINTED| ensures T.IsBare(Name(PRINTED[i])) { NameBare(PRINTED[i]); }
    KeyedGood(Name, value, PRINTED);
  }

  lemma IntroGood()
    ensures L.WellFormed(L.Line(T.Comment(INTRO), false))
  {
    var p: char -> bool := T.CommentChar;
    AllAppend(" injection; opt-in,", " off by default)", p);
    AllAppend(" reasoning traces +", " injection; opt-in," + " off by default)", p);
    AllAppend(" Reasoning-training (mining", " reasoning traces +" + (" injection; opt-in," + " off by default)"), p);
  }

  lemma HeadersGood()
    ensures L.WellFormed(HeaderLine([SECTION]))
    ensures L.WellFormed(HeaderLine([SECTION, Name(InjectionMap)])) && L.WellFormed(HeaderLine([SECTION, Name(PatternTargets)]))
  {
    assert T.IsBare(SECTION);
    NameBare(InjectionMap);
    NameBare(PatternTargets);
  }

  lemma LinesTogether(head: seq<L.Line>, fields: seq<L.Line>, a: seq<L.Line>, maps: seq<L.Line>, b: seq<L.Line>, targets: seq<L.Line>,
                      p: L.Line -> bool)
    requires All(head, p) && All(fields, p) && All(a, p) && All(maps, p) && All(b, p) && All(targets, p)
    ensures All(head + fields + (a + maps) + (b + targets), p)
  {
    AllAppend(head, fields, p);
    AllAppend(a, maps, p);
    AllAppend(b, targets, p);
    AllAppend(head + fields, a + maps, p);
    AllAppend(head + fields + (a + maps), b + targets, p);
  }

  lemma LinesGood(fields: seq<T.Entry>, maps: seq<T.Entry>, targets: seq<T.Entry>)
    requires All(fields, GoodField) && All(maps, GoodEntry) && All(targets, GoodEntry)
    ensures All(SectionLines(fields, maps, targets), L.WellFormed)
  {
    IntroGood();
    HeadersGood();
    FieldLinesGood(fields);
    PairLinesGood(maps);
    PairLinesGood(targets);
    LinesTogether([L.Line(T.Comment(INTRO), false), HeaderLine([SECTION])], PairLines(fields, false),
                  [HeaderLine([SECTION, Name(InjectionMap)])], PairLines(maps, true),
                  [HeaderLine([SECTION, Name(PatternTargets)])], PairLines(targets, true), L.WellFormed);
  }

  // ----- the document -----

  /** A table and its entries, put after the tables before it. */
  function Grown(doc: T.Doc, path: seq<string>, entries: seq<T.Entry>): T.Doc { doc + [T.Table(path, entries)] }

  function ThreeTables(fields: seq<T.Entry>, maps: seq<T.Entry>, targets: seq<T.Entry>): T.Doc {
    Grown(Grown(Grown(T.EMPTY, [SECTION], fields), [SECTION, Name(InjectionMap)], maps), [SECTION, Name(PatternTargets)], targets)
  }

  function TableItems(path: seq<string>, entries: seq<T.Entry>): seq<T.Item> { [T.Header(path)] + L.PairItems(entries) }

  function TablesItems(fields: seq<T.Entry>, maps: seq<T.Entry>, targets: seq<T.Entry>): seq<T.Item> {
    TableItems([SECTION], fields)
    + (TableItems([SECTION, Name(InjectionMap)], maps) + TableItems([SECTION, Name(PatternTargets)], targets))
  }

  lemma PairLinesItems(es: seq<T.Entry>, quoted: bool)
    ensures L.ItemsOf(PairLines(es, quoted)) == L.PairItems(es)
  {
  }

  lemma ItemsAppend(a: seq<L.Line>, b: seq<L.Line>)
    ensures L.ItemsOf(a + b) == L.ItemsOf(a) + L.ItemsOf(b)
  {
    MapAppend((l: L.Line) => l.item, a, b);
  }

  lemma TableLinesItems(path: seq<string>, es: seq<T.Entry>, quoted: bool)
    ensures L.ItemsOf([HeaderLine(path)] + PairLines(es, quoted)) == TableItems(path, es)
  {
    ItemsAppend([HeaderLine(path)], PairLines(es, quoted));
    PairLinesItems(es, quoted);
    assert L.ItemsOf([HeaderLine(path)]) == [T.Header(path)];
  }

  lemma Regrouped<A>(a: seq<A>, b: seq<A>, c: seq<A>, d: seq<A>, e: seq<A>)
    ensures a + b + c + d + e == a + ((b + c) + (d + e))
  {
  }

  lemma ItemsRegrouped(intro: L.Line, header: L.Line, fields: seq<L.Line>, maps: seq<L.Line>, targets: seq<L.Line>)
    ensures L.ItemsOf([intro, header] + fields + maps + targets)
         == [intro.item] + (([header.item] + L.ItemsOf(fields)) + (L.ItemsOf(maps) + L.ItemsOf(targets)))
  {
    ItemsAppend([intro, header] + fields + maps, targets);
    ItemsAppend([intro, header] + fields, maps);
    ItemsAppend([intro, header], fields);
    assert L.ItemsOf([intro, header]) == [intro.item] + [header.item];
    Regrouped([intro.item], [header.item], L.ItemsOf(fields), L.ItemsOf(maps), L.ItemsOf(targets));
  }

  lemma SectionItems(fields: seq<T.Entry>, maps: seq<T.Entry>, targets: seq<T.Entry>)
    ensures L.ItemsOf(SectionLines(fields, maps, targets)) == [T.Comment(INTRO)] + TablesItems(fields, maps, targets)
  {
    PairLinesItems(fields, false);
    TableLinesItems([SECTION, Name(InjectionMap)], maps, true);
    TableLinesItems([SECTION, Name(PatternTargets)], targets, true);
    ItemsRegrouped(L.Line(T.Comment(INTRO), false), HeaderLine([SECTION]), PairLines(fields, false),
                   [HeaderLine([SECTION, Name(InjectionMap)])] + PairLines(maps, true),
                   [HeaderLine([SECTION, Name(PatternTargets)])] + PairLines(targets, true));
  }

  lemma GrownIs(doc: T.Doc, path: seq<string>, entries: seq<T.Entry>)
    ensures L.WithEntries(Grown(doc, path, []), entries) == Grown(doc, path, entries)
  {
    var empty := Grown(doc, path, []);
    assert empty[..|doc|] == doc && empty[|doc|] == T.Table(path, []);
  }

  lemma Unshadowed(doc: T.Doc, path: seq<string>, entries: seq<T.Entry>)
    requires forall j :: 0 <= j < |doc| ==> |doc[j].path| <= |path|
    ensures L.Unshadowed(Grown(doc, path, []), entries)
  {
    var empty := Grown(doc, path, []);
    assert empty[|empty| - 1].path == path;
    forall i, j | 0 <= i < |entries| && 0 <= j < |empty|
      ensures !(path + [entries[i].key] <= empty[j].path)
    {
      assert |empty[j].path| <= |path| < |path + [entries[i].key]|;
    }
  }

  /** A header and its pairs: accepted when the header is new and the keys are different. */
  lemma BuildTable(doc: T.Doc, path: seq<string>, entries: seq<T.Entry>)
    requires doc != [] && !T.HeaderClashes(doc, path)
    requires forall j :: 0 <= j < |doc| ==> |doc[j].path| <= |path|
    ensures T.Build(doc, TableItems(path, entries)) == if L.DistinctKeys(entries) then Some(Grown(doc, path, entries)) else None
  {
    BuildHeader(doc, path, L.PairItems(entries));
    Unshadowed(doc, path, entries);
    GrownIs(doc, path, []);
    GrownIs(doc, path, entries);
    BuildFirstPairs(Grown(doc, path, []), entries);
  }

  lemma BuildHeader(doc: T.Doc, path: seq<string>, rest: seq<T.Item>)
    requires doc != [] && !T.HeaderClashes(doc, path)
    ensures T.Build(doc, [T.Header(path)] + rest) == T.Build(Grown(doc, path, []), rest)
  {
    var items := [T.Header(path)] + rest;
    assert items[0] == T.Header(path) && items[1..] == rest;
  }

  lemma BuildFirstPairs(doc: T.Doc, entries: seq<T.Entry>)
    requires doc != [] && L.WithEntries(doc, []) == doc && L.Unshadowed(doc, entries)
    ensures T.Build(doc, L.PairItems(entries)) == if L.DistinctKeys(entries) then Some(L.WithEntries(doc, entries)) else None
  {
    L.BuildPairs(doc, [], entries);
    assert [] + entries == entries;
  }

  lemma Skipped(text: string, rest: seq<T.Item>)
    ensures T.Build(T.EMPTY, [T.Comment(text)] + rest) == T.Build(T.EMPTY, rest)
  {
    assert ([T.Comment(text)] + rest)[1..] == rest;
  }

  lemma SectionHeaders(fields: seq<T.Entry>, maps: seq<T.Entry>)
    requires !T.HasKey(fields, Name(InjectionMap)) && !T.HasKey(fields, Name(PatternTargets))
    ensures !T.HeaderClashes(T.EMPTY, [SECTION])
    ensures var one := Grown(T.EMPTY, [SECTION], fields);
      && !T.HeaderClashes(one, [SECTION, Name(InjectionMap)])
      && !T.HeaderClashes(Grown(one, [SECTION, Name(InjectionMap)], maps), [SECTION, Name(PatternTargets)])
  {
    var one := Grown(T.EMPTY, [SECTION], fields);
    var two := Grown(one, [SECTION, Name(InjectionMap)], maps);
    assert one[0] == T.Table([], []) && one[1] == T.Table([SECTION], fields);
    assert two[0] == one[0] && two[1] == one[1] && two[2] == T.Table([SECTION, Name(InjectionMap)], maps);
    NamesApart(InjectionMap, PatternTargets);
  }

  lemma BuildThree(a: seq<T.Item>, b: seq<T.Item>, d: seq<T.Item>, one: T.Doc, accepted: bool, two: T.Doc, last: bool, three: T.Doc)
    requires one != [] && two != [] && T.Build(T.EMPTY, a) == Some(one)
    requires T.Build(one, b) == if accepted then Some(two) else None
    requires T.Build(two, d) == if last then Some(three) else None
    ensures T.Build(T.EMPTY, a + (b + d)) == if accepted && last then Some(three) else None
  {
    L.BuildAppend(T.EMPTY, a, b + d);
    L.BuildAppend(one, b, d);
  }

  /** The section's fields name no subtable, and have different keys. */
  ghost predicate Separate(fields: seq<T.Entry>) {
    L.DistinctKeys(fields) && !T.HasKey(fields, Name(InjectionMap)) && !T.HasKey(fields, Name(PatternTargets))
  }

  lemma TablesBuild(fields: seq<T.Entry>, maps: seq<T.Entry>, targets: seq<T.Entry>)
    requires Separate(fields)
    ensures T.Build(T.EMPTY, TablesItems(fields, maps, targets))
         == if L.DistinctKeys(maps) && L.DistinctKeys(targets) then Some(ThreeTables(fields, maps, targets)) else None
  {
    var one := Grown(T.EMPTY, [SECTION], fields);
    var two := Grown(one, [SECTION, Name(InjectionMap)], maps);
    SectionHeaders(fields, maps);
    BuildTable(T.EMPTY, [SECTION], fields);
    BuildTable(one, [SECTION, Name(InjectionMap)], maps);
    BuildTable(two, [SECTION, Name(PatternTargets)], targets);
    BuildThree(TableItems([SECTION], fields), TableItems([SECTION, Name(InjectionMap)], maps),
               TableItems([SECTION, Name(PatternTargets)], targets), one, L.DistinctKeys(maps), two, L.DistinctKeys(targets),
               Grown(two, [SECTION, Name(PatternTargets)], targets));
  }

  /** The printed section is valid TOML exactly when each subtable's keys are different. */
  lemma SectionParsesIff(fields: seq<T.Entry>, maps: seq<T.Entry>, targets: seq<T.Entry>)
    requires All(fields, GoodField) && All(maps, GoodEntry) && All(targets, GoodEntry) && Separate(fields)
    ensures T.Parse(L.Text(SectionLines(fields, maps, targets)))
         == if L.DistinctKeys(maps) && L.DistinctKeys(targets) then Some(ThreeTables(fields, maps, targets)) else None
  {
    LinesGood(fields, maps, targets);
    L.TextBack(SectionLines(fields, maps, targets));
    SectionItems(fields, maps, targets);
    Skipped(INTRO, TablesItems(fields, maps, targets));
    TablesBuild(fields, maps, targets);
  }

  // ----- the fields are separate -----

  lemma KeyedDistinct(name: Key -> string, value: Key -> T.Value, keys: seq<Key>)
    requires forall i, j :: 0 <= i < j < |keys| ==> name(keys[i]) != name(keys[j])
    ensures L.DistinctKeys(Keyed(name, value, keys))
  {
  }

  lemma KeyedFree(name: Key -> string, value: Key -> T.Value, keys: seq<Key>, key: string)
    requires forall i :: 0 <= i < |keys| ==> name(keys[i]) != key
    ensures !T.HasKey(Keyed(name, value, keys), key)
  {
  }

  lemma FieldKeys(value: Key -> T.Value)
    ensures L.DistinctKeys(Fields(value))
  {
    forall i, j | 0 <= i < j < |PRINTED|
      ensures Name(PRINTED[i]) != Name(PRINTED[j])
    {
      PositionOf(i);
      PositionOf(j);
      NamesApart(PRINTED[i], PRINTED[j]);
    }
    KeyedDistinct(Name, value, PRINTED);
  }

  lemma FieldFree(value: Key -> T.Value, k: Key)
    requires !Printed(k)
    ensures !T.HasKey(Fields(value), Name(k))
  {
    forall i | 0 <= i < |PRINTED|
      ensures Name(PRINTED[i]) != Name(k)
    {
      PositionOf(i);
      NamesApart(PRINTED[i], k);
    }
    KeyedFree(Name, value, PRINTED, Name(k));
  }

  lemma MapNameFree(value: Key -> T.Value)
    ensures !T.HasKey(Fields(value), Name(InjectionMap))
  {
    FieldFree(value, InjectionMap);
  }

  lemma TargetsNameFree(value: Key -> T.Value)
    ensures !T.HasKey(Fields(value), Name(PatternTargets))
  {
    FieldFree(value, PatternTargets);
  }

  lemma FieldsSeparate(value: Key -> T.Value)
    ensures Separate(Fields(value))
  {
    FieldKeys(value);
    MapNameFree(value);
    TargetsNameFree(value);
  }

  // ----- a document as Python data -----

  /** Conversions that the loader would apply to values it did not print, and what it takes from Python about floats. */
  datatype Python = Python(
    isDouble: real -> bool,
    repr: real -> string,
    valueOf: string -> real,
    intOf: string -> Outcome<int>,
    floatOf: string -> Outcome<PyFloat>,
    floatOfInt: int -> Outcome<PyFloat>,
    truncate: real -> int,
    show: T.Value -> Option<string>,
    showTable: seq<T.Entry> -> Option<string>)

  /** Floats print as TOML floats that read back as the same value. */
  ghost predicate Faithful(py: Python) {
    forall r :: py.isDouble(r) && 0.0 <= r <= 1.0 ==>
      T.IsFloat(py.repr(r)) && All(py.repr(r), T.TokenChar) && py.valueOf(py.repr(r)) == r
  }

  function RawOf(py: Python, v: T.Value): Raw {
    match v
    case Str(s) => Raw(Some(s), py.intOf(s), py.floatOf(s), s != "", Atom)
    case Int(n) => Raw(py.show(v), Value(n), py.floatOfInt(n), n != 0, Atom)
    case Float(text) =>
      var r := py.valueOf(text);
      Raw(py.show(v), Value(py.truncate(r)), Value(Finite(r)), r != 0.0, Atom)
    case Bool(b) => Raw(py.show(v), Value(if b then 1 else 0), Value(Finite(if b then 1.0 else 0.0)), b, Atom)
    case Arr(items) => Raw(py.show(v), Caught, Caught, items != [], Items(RawAll(py, items)))
  }

  function RawAll(py: Python, vs: seq<T.Value>): (r: seq<Raw>)
    ensures |r| == |vs| && forall i :: 0 <= i < |vs| ==> r[i] == RawOf(py, vs[i])
  {
    if vs == [] then [] else [RawOf(py, vs[0])] + RawAll(py, vs[1..])
  }

  function RawEntryOf(py: Python, e: T.Entry): RawEntry { RawEntry(e.key, RawOf(py, e.value)) }

  function RawEntries(py: Python, es: seq<T.Entry>): seq<RawEntry> { Map((e: T.Entry) => RawEntryOf(py, e), es) }

  function RawTable(py: Python, es: seq<T.Entry>): Raw {
    Raw(py.showTable(es), Caught, Caught, es != [], Entries(RawEntries(py, es)))
  }

  /** `data["reasoning_training"].get(key)`: a value of the table, or a table below it. */
  function SectionRaw(py: Python, doc: T.Doc, key: string): Option<Raw> {
    match T.TableAt(doc, [SECTION])
    case Some(es) => if T.Lookup(es, key).Some? then Some(RawOf(py, T.Lookup(es, key).value)) else SubtableRaw(py, doc, key)
    case None => SubtableRaw(py, doc, key)
  }

  function SubtableRaw(py: Python, doc: T.Doc, key: string): Option<Raw> {
    match T.TableAt(doc, [SECTION, key])
    case Some(es) => Some(RawTable(py, es))
    case None => None
  }

  function DataOf(py: Python, doc: T.Doc): Data { (k: Key) => SectionRaw(py, doc, Name(k)) }

  lemma {:induction false} LookupAt(es: seq<T.Entry>, i: nat)
    requires i < |es| && L.DistinctKeys(es)
    ensures T.Lookup(es, es[i].key) == Some(es[i].value)
  {
    if i > 0 {
      assert es[0].key != es[i].key;
      LookupAt(es[1..], i - 1);
    }
  }

  lemma {:induction false} LookupNone(es: seq<T.Entry>, key: string)
    requires !T.HasKey(es, key)
    ensures T.Lookup(es, key) == None
  {
    if es != [] {
      assert es[0].key != key;
      forall i | 0 <= i < |es[1..]| ensures es[1..][i].key != key { assert es[i + 1].key != key; }
      LookupNone(es[1..], key);
    }
  }

  lemma TableStep(t: T.Table, rest: T.Doc, path: seq<string>)
    ensures T.TableAt([t] + rest, path) == if t.path == path then Some(t.entries) else T.TableAt(rest, path)
  {
    assert ([t] + rest)[1..] == rest;
  }

  /** A path of the section's document leads to its table, if it has one. */
  lemma TablesAre(fields: seq<T.Entry>, maps: seq<T.Entry>, targets: seq<T.Entry>, path: seq<string>)
    requires path != []
    ensures T.TableAt(ThreeTables(fields, maps, targets), path)
         == if path == [SECTION] then Some(fields)
            else if path == [SECTION, Name(InjectionMap)] then Some(maps)
            else if path == [SECTION, Name(PatternTargets)] then Some(targets)
            else None
  {
    var a, b := T.Table([], []), T.Table([SECTION], fields);
    var c, d := T.Table([SECTION, Name(InjectionMap)], maps), T.Table([SECTION, Name(PatternTargets)], targets);
    var one: T.Doc := [d] + [];
    var two := [c] + one;
    var three := [b] + two;
    assert ThreeTables(fields, maps, targets) == [a] + three;
    TableStep(a, three, path);
    TableStep(b, two, path);
    TableStep(c, one, path);
    TableStep(d, [], path);
  }

  lemma SubtablePaths(key: string)
    ensures [SECTION, key] != [SECTION]
    ensures [SECTION, key] == [SECTION, Name(InjectionMap)] <==> key == Name(InjectionMap)
    ensures [SECTION, key] == [SECTION, Name(PatternTargets)] <==> key == Name(PatternTargets)
    ensures Name(InjectionMap) != Name(PatternTargets)
  {
    assert |[SECTION, key]| == 2 && [SECTION, key][1] == key;
    assert [SECTION, Name(InjectionMap)][1] == Name(InjectionMap) && [SECTION, Name(PatternTargets)][1] == Name(PatternTargets);
    NamesApart(InjectionMap, PatternTargets);
  }

  lemma TablesAt(fields: seq<T.Entry>, maps: seq<T.Entry>, targets: seq<T.Entry>, key: string)
    ensures T.TableAt(ThreeTables(fields, maps, targets), [SECTION]) == Some(fields)
    ensures T.TableAt(ThreeTables(fields, maps, targets), [SECTION, key])
         == if key == Name(InjectionMap) then Some(maps) else if key == Name(PatternTargets) then Some(targets) else None
  {
    TablesAre(fields, maps, targets, [SECTION]);
    TablesAre(fields, maps, targets, [SECTION, key]);
    SubtablePaths(key);
  }

  lemma RawOfField(py: Python, fields: seq<T.Entry>, maps: seq<T.Entry>, targets: seq<T.Entry>, i: nat)
    requires i < |fields| && L.DistinctKeys(fields)
    ensures SectionRaw(py, ThreeTables(fields, maps, targets), fields[i].key) == Some(RawOf(py, fields[i].value))
  {
    TablesAt(fields, maps, targets, fields[i].key);
    LookupAt(fields, i);
  }

  lemma RawOfSubtables(py: Python, fields: seq<T.Entry>, maps: seq<T.Entry>, targets: seq<T.Entry>)
    requires !T.HasKey(fields, Name(InjectionMap)) && !T.HasKey(fields, Name(PatternTargets))
    ensures SectionRaw(py, ThreeTables(fields, maps, targets), Name(InjectionMap)) == Some(RawTable(py, maps))
    ensures SectionRaw(py, ThreeTables(fields, maps, targets), Name(PatternTargets)) == Some(RawTable(py, targets))
  {
    TablesAt(fields, maps, targets, Name(InjectionMap));
    TablesAt(fields, maps, targets, Name(PatternTargets));
    SubtablePaths(Name(InjectionMap));
    LookupNone(fields, Name(InjectionMap));
    LookupNone(fields, Name(PatternTargets));
  }

  lemma RawAbsent(py: Python, fields: seq<T.Entry>, maps: seq<T.Entry>, targets: seq<T.Entry>, key: string)
    requires !T.HasKey(fields, key) && key != Name(InjectionMap) && key != Name(PatternTargets)
    ensures SectionRaw(py, ThreeTables(fields, maps, targets), key) == None
  {
    TablesAt(fields, maps, targets, key);
    LookupNone(fields, key);
  }

  // ----- what the loader is handed -----

  /** Says of which keys `Presents` is to be used. */
  predicate Asked(k: Key) { true }

  /** The data holds these values and subtables and nothing else. */
  ghost predicate Presents(py: Python, value: Key -> T.Value, maps: seq<T.Entry>, targets: seq<T.Entry>, data: Data) {
    && (forall k {:trigger Asked(k)} :: Asked(k) && Printed(k) ==> data(k) == Some(RawOf(py, value(k))))
    && data(InjectionMap) == Some(RawTable(py, maps))
    && data(PatternTargets) == Some(RawTable(py, targets))
    && data(ExtraTranscriptDirs) == None && data(InjectionMinQuality) == None
  }

  lemma FieldRead(py: Python, value: Key -> T.Value, maps: seq<T.Entry>, targets: seq<T.Entry>, k: Key)
    requires Printed(k)
    ensures SectionRaw(py, ThreeTables(Fields(value), maps, targets), Name(k)) == Some(RawOf(py, value(k)))
  {
    PrintedAt(k);
    FieldKeys(value);
    KeyedAt(Name, value, PRINTED, Position(k), k);
    RawOfField(py, Fields(value), maps, targets, Position(k));
  }

  lemma UnprintedApart(k: Key)
    requires k.ExtraTranscriptDirs? || k.InjectionMinQuality?
    ensures !Printed(k) && Name(k) != Name(InjectionMap) && Name(k) != Name(PatternTargets)
  {
    NamesApart(k, InjectionMap);
    NamesApart(k, PatternTargets);
  }

  lemma AbsentRead(py: Python, value: Key -> T.Value, maps: seq<T.Entry>, targets: seq<T.Entry>, key: string)
    requires !T.HasKey(Fields(value), key) && key != Name(InjectionMap) && key != Name(PatternTargets)
    ensures SectionRaw(py, ThreeTables(Fields(value), maps, targets), key) == None
  {
    RawAbsent(py, Fields(value), maps, targets, key);
  }

  lemma UnprintedRead(py: Python, value: Key -> T.Value, maps: seq<T.Entry>, targets: seq<T.Entry>, k: Key)
    requires k.ExtraTranscriptDirs? || k.InjectionMinQuality?
    ensures SectionRaw(py, ThreeTables(Fields(value), maps, targets), Name(k)) == None
  {
    UnprintedApart(k);
    FieldFree(value, k);
    AbsentRead(py, value, maps, targets, Name(k));
  }

  lemma SubtablesRead(py: Python, value: Key -> T.Value, maps: seq<T.Entry>, targets: seq<T.Entry>)
    ensures SectionRaw(py, ThreeTables(Fields(value), maps, targets), Name(InjectionMap)) == Some(RawTable(py, maps))
    ensures SectionRaw(py, ThreeTables(Fields(value), maps, targets), Name(PatternTargets)) == Some(RawTable(py, targets))
  {
    MapNameFree(value);
    TargetsNameFree(value);
    RawOfSubtables(py, Fields(value), maps, targets);
  }

  /** The document holds these values under the printed keys. */
  ghost predicate Holds(py: Python, value: Key -> T.Value, doc: T.Doc) {
    forall k {:trigger Asked(k)} :: Asked(k) && Printed(k) ==> SectionRaw(py, doc, Name(k)) == Some(RawOf(py, value(k)))
  }

  lemma FieldsRead(py: Python, value: Key -> T.Value, maps: seq<T.Entry>, targets: seq<T.Entry>)
    ensures Holds(py, value, ThreeTables(Fields(value), maps, targets))
  {
    forall k | Asked(k) && Printed(k)
      ensures SectionRaw(py, ThreeTables(Fields(value), maps, targets), Name(k)) == Some(RawOf(py, value(k)))
    {
      FieldRead(py, value, maps, targets, k);
    }
  }

  lemma PresentsFrom(py: Python, value: Key -> T.Value, maps: seq<T.Entry>, targets: seq<T.Entry>, doc: T.Doc)
    requires Holds(py, value, doc)
    requires SectionRaw(py, doc, Name(InjectionMap)) == Some(RawTable(py, maps))
    requires SectionRaw(py, doc, Name(PatternTargets)) == Some(RawTable(py, targets))
    requires SectionRaw(py, doc, Name(ExtraTranscriptDirs)) == None && SectionRaw(py, doc, Name(InjectionMinQuality)) == None
    ensures Presents(py, value, maps, targets, DataOf(py, doc))
  {
    forall k | Asked(k) && Printed(k) ensures DataOf(py, doc)(k) == Some(RawOf(py, value(k))) { assert Asked(k); }
  }

  /** The loader of the printed section is handed what was printed. */
  lemma DataPresents(py: Python, value: Key -> T.Value, maps: seq<T.Entry>, targets: seq<T.Entry>)
    ensures Presents(py, value, maps, targets, DataOf(py, ThreeTables(Fields(value), maps, targets)))
  {
    FieldsRead(py, value, maps, targets);
    SubtablesRead(py, value, maps, targets);
    UnprintedRead(py, value, maps, targets, ExtraTranscriptDirs);
    UnprintedRead(py, value, maps, targets, InjectionMinQuality);
    PresentsFrom(py, value, maps, targets, ThreeTables(Fields(value), maps, targets));
  }

  /** Two printouts that parse as one document have the same fields. */
  lemma SameFields(fields: seq<T.Entry>, others: seq<T.Entry>, maps: seq<T.Entry>, moreMaps: seq<T.Entry>,
                   targets: seq<T.Entry>, moreTargets: seq<T.Entry>)
    requires ThreeTables(fields, maps, targets) == ThreeTables(others, moreMaps, moreTargets)
    ensures fields == others
  {
    assert ThreeTables(fields, maps, targets)[1] == T.Table([SECTION], fields);
    assert ThreeTables(others, moreMaps, moreTargets)[1] == T.Table([SECTION], others);
  }

  lemma SameValue(value: Key -> T.Value, other: Key -> T.Value, k: Key)
    requires Printed(k) && Fields(value) == Fields(other)
    ensures value(k) == other(k)
  {
    PrintedAt(k);
    KeyedAt(Name, value, PRINTED, Position(k), k);
    KeyedAt(Name, other, PRINTED, Position(k), k);
  }
}
