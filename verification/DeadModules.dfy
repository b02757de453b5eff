/**
 The dead-module check: scanning imports, building the graph, and the worklist that follows it from the
 points where execution starts.
 */
module DeadModules {
  import opened Prelude
  import Lines
  import Order

  const PACKAGE := "surreal_memory"

  datatype Node =
    | Import(names: seq<string>)
    | ImportFrom(level: nat, source: Option<string>, names: seq<string>)

  /** A file relative to the source root, its suffix removed, or a file of another directory. */
  datatype Place = Source(dirs: seq<string>, stem: string) | Elsewhere

  /** `nodes` is absent when the file does not parse; `references` are the dotted paths in its string literals. */
  datatype File = File(path: string, place: Place, nodes: Option<seq<Node>>, references: set<string>)

  // ----- dotted names -----

  function LastDot(s: string): (i: int)
    ensures -1 <= i < |s|
    ensures i >= 0 ==> s[i] == '.'
    ensures forall k :: i < k < |s| ==> s[k] != '.'
  {
    if s == [] then -1 else if s[|s| - 1] == '.' then |s| - 1 else LastDot(s[..|s| - 1])
  }

  function Dotted(dirs: seq<string>, last: string): string {
    if dirs == [] then last else Dotted(dirs[..|dirs| - 1], dirs[|dirs| - 1]) + "." + last
  }

  /** `s.split(".")`: all but the last part, and the last. */
  function Split(s: string): (seq<string>, string) { (Lines.Complete(s, '.'), Lines.Tail(s, '.')) }

  /** `name.rsplit(".", 1)[0]` for a name with a dot. */
  function Parent(name: string): string
    requires LastDot(name) >= 0
  {
    name[..LastDot(name)]
  }

  const INIT := ".__init__"

  function Init(name: string): string
    requires LastDot(name) >= 0
  {
    Parent(name) + INIT
  }

  predicate IsInit(name: string) { LastDot(name) >= 0 && name == Init(name) }

  lemma LastDotIs(s: string, i: int)
    requires 0 <= i < |s| && s[i] == '.' && '.' !in s[i + 1..]
    ensures LastDot(s) == i
  {
    assert forall j :: i < j < |s| ==> s[j] == s[i + 1..][j - i - 1];
  }

  lemma DotUnique(a: string, b: string)
    requires '.' !in b
    ensures LastDot(a + "." + b) == |a| && Parent(a + "." + b) == a
  {
    var s := a + "." + b;
    assert s[..|a|] == a && s[|a| + 1..] == b;
    LastDotIs(s, |a|);
  }

  /** The implied step is idempotent, so it adds at most one node per known name. */
  lemma InitIdempotent(name: string)
    requires LastDot(name) >= 0
    ensures IsInit(Init(name))
  {
    assert INIT == "." + "__init__";
    assert Init(name) == Parent(name) + "." + "__init__";
    DotUnique(Parent(name), "__init__");
  }

  lemma {:induction false} DottedJoin(dirs: seq<string>, last: string)
    ensures Dotted(dirs, last) == Lines.Join(dirs, '.') + last
  {
    if dirs == [] {
      assert Lines.Join(dirs, '.') + last == last;
    } else {
      var n := |dirs| - 1;
      var front, back := dirs[..n], dirs[n];
      DottedJoin(front, back);
      assert dirs == front + [back];
      Lines.JoinAppend(front, [back], '.');
      Lines.JoinCons(back, [], '.');
      assert Lines.Join([back], '.') == back + ".";
      Assoc(Lines.Join(front, '.'), back, ".");
    }
  }

  lemma SplitDotted(dirs: seq<string>, last: string)
    requires Lines.SeparatorFree(dirs, '.') && '.' !in last
    ensures Split(Dotted(dirs, last)) == (dirs, last)
  {
    DottedJoin(dirs, last);
    Lines.CutJoin(dirs, last, '.');
  }

  // ----- what a file imports -----

  function Name(place: Place): string
  {
    match place
    case Source(dirs, stem) => Dotted(dirs, stem)
    case Elsewhere => ""
  }

  predicate Inside(place: Place) { place.Source? && place.dirs != [] && place.dirs[0] == PACKAGE }

  predicate Exempt(place: Place) { place.Source? && place.stem in {"__init__", "__main__"} }

  function OwnPackage(place: Place): string {
    var own := Name(place);
    if LastDot(own) >= 0 then Parent(own) else PACKAGE
  }

  /** The package a relative import starts from: `level - 1` parts above the file's own, never above the first. */
  function Base(package: string, level: nat): string {
    var (dirs, last) := Split(package);
    var keep := |dirs| + 1 - level + 1;
    if keep > |dirs| then Dotted(dirs, last)
    else if keep < 1 then Dotted([], (dirs + [last])[0])
    else Dotted(dirs[..keep - 1], dirs[keep - 1])
  }

  predicate OfPackage(name: string) { PACKAGE <= name }

  function Resolved(place: Place, node: Node): string
    requires node.ImportFrom?
  {
    if node.level == 0 then (if node.source.Some? then node.source.value else "")
    else
      var base := Base(OwnPackage(place), node.level);
      if node.source.Some? then base + "." + node.source.value else base
  }

  function NodeModules(place: Place, node: Node): set<string> {
    match node
    case Import(names) => set n | n in names && OfPackage(n)
    case ImportFrom(_, _, _) => if OfPackage(Resolved(place, node)) then {Resolved(place, node)} else {}
  }

  function NodeAttributes(place: Place, node: Node): set<string> {
    match node
    case Import(_) => {}
    case ImportFrom(_, _, names) =>
      if OfPackage(Resolved(place, node)) then set n | n in names :: Resolved(place, node) + "." + n else {}
  }

  ghost predicate ImportsModule(f: File, name: string) {
    f.nodes.Some? && exists i :: 0 <= i < |f.nodes.value| && name in NodeModules(f.place, f.nodes.value[i])
  }

  ghost predicate ImportsAttribute(f: File, name: string) {
    f.nodes.Some? && exists i :: 0 <= i < |f.nodes.value| && name in NodeAttributes(f.place, f.nodes.value[i])
  }

  ghost predicate Target(f: File, name: string) { ImportsModule(f, name) || ImportsAttribute(f, name) }

  /** The package of a file is its directory. */
  lemma OwnPackageOf(dirs: seq<string>, stem: string)
    requires dirs != [] && '.' !in stem
    ensures OwnPackage(Source(dirs, stem)) == Dotted(dirs[..|dirs| - 1], dirs[|dirs| - 1])
  {
    DotUnique(Dotted(dirs[..|dirs| - 1], dirs[|dirs| - 1]), stem);
  }

  lemma DottedFront(dirs: seq<string>, n: nat, keep: nat)
    requires keep < n <= |dirs|
    ensures Dotted(dirs[..n][..keep], dirs[..n][keep]) == Dotted(dirs[..keep], dirs[keep])
  {
    assert dirs[..n][..keep] == dirs[..keep] && dirs[..n][keep] == dirs[keep];
  }

  lemma SplitPackage(dirs: seq<string>, package: string)
    requires dirs != [] && Lines.SeparatorFree(dirs, '.') && package == Dotted(dirs[..|dirs| - 1], dirs[|dirs| - 1])
    ensures Split(package) == (dirs[..|dirs| - 1], dirs[|dirs| - 1])
  {
    var n := |dirs| - 1;
    assert '.' !in dirs[n];
    forall i | 0 <= i < n ensures '.' !in dirs[..n][i] { assert dirs[..n][i] == dirs[i]; }
    SplitDotted(dirs[..n], dirs[n]);
  }

  lemma BaseOfParts(dirs: seq<string>, package: string, level: nat)
    requires 1 <= level <= |dirs| && package == Dotted(dirs[..|dirs| - 1], dirs[|dirs| - 1])
    requires Split(package) == (dirs[..|dirs| - 1], dirs[|dirs| - 1])
    ensures Base(package, level) == Dotted(dirs[..|dirs| - level], dirs[|dirs| - level])
  {
    var n := |dirs| - 1;
    if level > 1 { DottedFront(dirs, n, n + 1 - level); }
  }

  /** Each further dot goes one directory up. */
  lemma BaseOf(dirs: seq<string>, package: string, level: nat)
    requires 1 <= level <= |dirs| && Lines.SeparatorFree(dirs, '.') && package == Dotted(dirs[..|dirs| - 1], dirs[|dirs| - 1])
    ensures Base(package, level) == Dotted(dirs[..|dirs| - level], dirs[|dirs| - level])
  {
    SplitPackage(dirs, package);
    BaseOfParts(dirs, package, level);
  }

  /** A relative import means what PEP 328 says: one dot is the file's package, each further dot one package up. */
  lemma RelativeImport(dirs: seq<string>, stem: string, level: nat)
    requires 1 <= level <= |dirs| && Lines.SeparatorFree(dirs, '.') && '.' !in stem
    ensures Base(OwnPackage(Source(dirs, stem)), level) == Dotted(dirs[..|dirs| - level], dirs[|dirs| - level])
  {
    OwnPackageOf(dirs, stem);
    BaseOf(dirs, OwnPackage(Source(dirs, stem)), level);
  }

  ghost predicate SomeModule(place: Place, nodes: seq<Node>, x: string) {
    exists i :: 0 <= i < |nodes| && x in NodeModules(place, nodes[i])
  }

  ghost predicate SomeAttribute(place: Place, nodes: seq<Node>, x: string) {
    exists i :: 0 <= i < |nodes| && x in NodeAttributes(place, nodes[i])
  }

  lemma OneMoreNode(place: Place, nodes: seq<Node>, node: Node)
    ensures forall x :: SomeModule(place, nodes + [node], x) <==> SomeModule(place, nodes, x) || x in NodeModules(place, node)
    ensures forall x :: SomeAttribute(place, nodes + [node], x) <==> SomeAttribute(place, nodes, x) || x in NodeAttributes(place, node)
  {
    var more := nodes + [node];
    assert more[|nodes|] == node && forall i :: 0 <= i < |nodes| ==> more[i] == nodes[i];
  }

  method ScanImports(f: File) returns (modules: set<string>, attributes: set<string>)
    requires f.nodes.Some?
    ensures forall x :: x in modules <==> ImportsModule(f, x)
    ensures forall x :: x in attributes <==> ImportsAttribute(f, x)
  {
    modules, attributes := {}, {};
    var nodes := f.nodes.value;
    for i := 0 to |nodes|
      invariant forall x :: x in modules <==> SomeModule(f.place, nodes[..i], x)
      invariant forall x :: x in attributes <==> SomeAttribute(f.place, nodes[..i], x)
    {
      OneMoreNode(f.place, nodes[..i], nodes[i]);
      assert nodes[..i + 1] == nodes[..i] + [nodes[i]];
      var found, named := ScanNode(f.place, nodes[i]);
      modules, attributes := modules + found, attributes + named;
    }
    assert nodes[..|nodes|] == nodes;
  }

  method ScanNode(place: Place, node: Node) returns (modules: set<string>, attributes: set<string>)
    ensures modules == NodeModules(place, node) && attributes == NodeAttributes(place, node)
  {
    modules, attributes := {}, {};
    match node
    case Import(names) => modules := ImportedNames(names);
    case ImportFrom(_, _, names) =>
      var source := Resolved(place, node);
      if OfPackage(source) {
        modules := {source};
        attributes := AliasNames(source, names);
      }
  }

  method ImportedNames(names: seq<string>) returns (modules: set<string>)
    ensures modules == set n | n in names && OfPackage(n)
  {
    modules := {};
    for j := 0 to |names|
      invariant modules == set n | n in names[..j] && OfPackage(n)
    {
      assert names[..j + 1] == names[..j] + [names[j]];
      if OfPackage(names[j]) { modules := modules + {names[j]}; }
    }
    assert names[..|names|] == names;
  }

  method AliasNames(source: string, names: seq<string>) returns (attributes: set<string>)
    ensures attributes == set n | n in names :: source + "." + n
  {
    attributes := {};
    for j := 0 to |names|
      invariant attributes == set n | n in names[..j] :: source + "." + n
    {
      assert names[..j + 1] == names[..j] + [names[j]];
      attributes := attributes + {source + "." + names[j]};
    }
    assert names[..|names|] == names;
  }

  // ----- the graph -----

  datatype Graph = Graph(edges: map<string, set<string>>, roots: set<string>)

  ghost predicate Step(g: Graph, x: string, y: string) {
    ImportStep(g, x, y) || (LastDot(x) >= 0 && y == Init(x))
  }

  ghost predicate ImportStep(g: Graph, x: string, y: string) { x in g.edges && y in g.edges[x] }

  /** p leads from a root along steps. */
  ghost predicate Path(g: Graph, p: seq<string>) {
    p != [] && p[0] in g.roots && forall i :: 0 <= i < |p| - 1 ==> Step(g, p[i], p[i + 1])
  }

  ghost predicate Reaches(g: Graph, p: seq<string>, x: string) { Path(g, p) && p[|p| - 1] == x }

  ghost predicate Reachable(g: Graph, x: string) { exists p :: Reaches(g, p, x) }

  ghost predicate ClosedUnder(g: Graph, s: set<string>) {
    g.roots <= s && forall x, y :: x in s && Step(g, x, y) ==> y in s
  }

  lemma RootReachable(g: Graph, x: string)
    requires x in g.roots
    ensures Reachable(g, x)
  {
    assert Reaches(g, [x], x);
  }

  lemma ExtendPath(g: Graph, p: seq<string>, y: string)
    requires Path(g, p) && Step(g, p[|p| - 1], y)
    ensures Reaches(g, p + [y], y)
  {
    var q, n := p + [y], |p|;
    assert q[n] == y && q[0] == p[0] && forall i :: 0 <= i < n ==> q[i] == p[i];
  }

  lemma StepReachable(g: Graph, x: string, y: string)
    requires Reachable(g, x) && Step(g, x, y)
    ensures Reachable(g, y)
  {
    var p :| Reaches(g, p, x);
    ExtendPath(g, p, y);
  }

  lemma {:induction false} ClosedHoldsPaths(g: Graph, s: set<string>, p: seq<string>)
    requires ClosedUnder(g, s) && Path(g, p)
    ensures p[|p| - 1] in s
  {
    if |p| > 1 {
      var n := |p| - 1;
      ClosedHoldsPaths(g, s, p[..n]);
      assert Step(g, p[n - 1], p[n]);
    }
  }

  /** A closed set of reachable names is the least one: it lies in every other. */
  lemma ReachableIsLeast(g: Graph, reachable: set<string>, s: set<string>)
    requires forall x :: x in reachable <==> Reachable(g, x)
    requires ClosedUnder(g, s)
    ensures ClosedUnder(g, reachable) && reachable <= s
  {
    forall x | x in g.roots ensures x in reachable { RootReachable(g, x); }
    forall x, y | x in reachable && Step(g, x, y) ensures y in reachable { StepReachable(g, x, y); }
    forall x | x in reachable
      ensures x in s
    {
      var p :| Reaches(g, p, x);
      ClosedHoldsPaths(g, s, p);
    }
  }

  // ----- the worklist -----

  function Successors(g: Graph, x: string): set<string> { if x in g.edges then g.edges[x] else {} }

  /** Everything the worklist could ever hold. */
  ghost function Universe(g: Graph): set<string> {
    var named := g.roots + (set x, y | x in g.edges && y in g.edges[x] :: y);
    named + (set x | x in named && LastDot(x) >= 0 :: Init(x))
  }

  lemma FiniteUniverse(g: Graph) returns (universe: set<string>)
    ensures ClosedUnder(g, universe)
  {
    universe := Universe(g);
    forall x, y | x in universe && Step(g, x, y)
      ensures y in universe
    {
      var named := g.roots + (set a, b | a in g.edges && b in g.edges[a] :: b);
      if !ImportStep(g, x, y) && x !in named {
        var z :| z in named && LastDot(z) >= 0 && x == Init(z);
        InitIdempotent(z);
      }
    }
  }

  /** The members of a set in some order. */
  method Listing(s: set<string>) returns (q: seq<string>)
    ensures forall x :: x in q <==> x in s
  {
    q := [];
    var left := s;
    while left != {}
      invariant left <= s
      invariant forall x :: x in s <==> x in q || x in left
      decreases |left|
    {
      var x :| x in left;
      q := q + [x];
      left := left - {x};
    }
  }

  ghost predicate Working(g: Graph, universe: set<string>, reachable: set<string>, queue: seq<string>) {
    && (forall x :: x in reachable || x in queue ==> Reachable(g, x) && x in universe)
    && (forall x :: x in g.roots ==> x in reachable || x in queue)
    && (forall x, y :: x in reachable && Step(g, x, y) ==> y in reachable || y in queue)
  }

  lemma WorkingStart(g: Graph, universe: set<string>, queue: seq<string>)
    requires ClosedUnder(g, universe) && forall x :: x in queue <==> x in g.roots
    ensures Working(g, universe, {}, queue)
  {
    forall x | x in g.roots ensures Reachable(g, x) { RootReachable(g, x); }
  }

  lemma WorkingSkip(g: Graph, universe: set<string>, reachable: set<string>, queue: seq<string>)
    requires Working(g, universe, reachable, queue) && queue != [] && queue[|queue| - 1] in reachable
    ensures Working(g, universe, reachable, queue[..|queue| - 1])
  {
    assert queue == queue[..|queue| - 1] + [queue[|queue| - 1]];
  }

  lemma WorkingStep(g: Graph, universe: set<string>, reachable: set<string>, queue: seq<string>, more: seq<string>)
    requires ClosedUnder(g, universe) && Working(g, universe, reachable, queue)
    requires queue != [] && queue[|queue| - 1] !in reachable
    requires forall y :: y in more ==> Step(g, queue[|queue| - 1], y)
    requires forall y :: Step(g, queue[|queue| - 1], y) ==> y in more || y in reachable + {queue[|queue| - 1]}
    ensures Working(g, universe, reachable + {queue[|queue| - 1]}, queue[..|queue| - 1] + more)
    ensures |universe - (reachable + {queue[|queue| - 1]})| < |universe - reachable|
  {
    var x := queue[|queue| - 1];
    assert queue == queue[..|queue| - 1] + [x];
    forall y | y in more
      ensures Reachable(g, y) && y in universe
    {
      StepReachable(g, x, y);
    }
    assert universe - (reachable + {x}) == (universe - reachable) - {x};
  }

  lemma WorkingDone(g: Graph, universe: set<string>, reachable: set<string>)
    requires Working(g, universe, reachable, [])
    ensures forall x :: x in reachable <==> Reachable(g, x)
  {
    forall x | Reachable(g, x)
      ensures x in reachable
    {
      var p :| Reaches(g, p, x);
      ClosedHoldsPaths(g, reachable, p);
    }
  }

  /** The names a visit to x appends. */
  method Following(g: Graph, x: string, reachable: set<string>) returns (more: seq<string>)
    ensures forall y :: y in more ==> Step(g, x, y)
    ensures forall y :: Step(g, x, y) ==> y in more || y in reachable
  {
    more := Listing(Successors(g, x));
    if LastDot(x) >= 0 && Init(x) !in reachable {
      more := more + [Init(x)];
    }
  }

  /** Whatever the order, the worklist ends with exactly the reachable names. */
  method Close(g: Graph) returns (reachable: set<string>)
    ensures forall x :: x in reachable <==> Reachable(g, x)
  {
    reachable := {};
    var queue := Listing(g.roots);
    ghost var universe := FiniteUniverse(g);
    WorkingStart(g, universe, queue);
    while queue != []
      invariant Working(g, universe, reachable, queue)
      decreases |universe - reachable|, |queue|
    {
      var current := queue[|queue| - 1];
      if current in reachable {
        WorkingSkip(g, universe, reachable, queue);
        queue := queue[..|queue| - 1];
      } else {
        var more := Following(g, current, reachable + {current});
        WorkingStep(g, universe, reachable, queue, more);
        reachable := reachable + {current};
        queue := queue[..|queue| - 1] + more;
      }
    }
    WorkingDone(g, universe, reachable);
  }
}
