/** The whole pass of the dead-module check, and what its verdicts mean in terms of the files themselves. */
module DeadAnalysis {
  import opened Prelude
  import opened DeadModules
  import Lines
  import Order

  // ----- liveness, read off the files -----

  ghost predicate Links(f: File, x: string, y: string) {
    f.nodes.Some? && Inside(f.place) && x == Name(f.place) && Target(f, y)
  }

  /** Package markers and `python -m` targets start on their own; anything outside the package starts what it imports. */
  ghost predicate Starts(f: File, x: string) {
    f.nodes.Some? &&
    (x in f.references || (if Inside(f.place) then Exempt(f.place) && x == Name(f.place) else Target(f, x)))
  }

  ghost predicate Linked(files: seq<File>, x: string, y: string) {
    exists i :: 0 <= i < |files| && Links(files[i], x, y)
  }

  ghost predicate Entry(files: seq<File>, scripts: set<string>, x: string) {
    x in scripts || exists i :: 0 <= i < |files| && Starts(files[i], x)
  }

  ghost predicate Follows(files: seq<File>, x: string, y: string, implied: bool) {
    Linked(files, x, y) || (implied && LastDot(x) >= 0 && y == Init(x))
  }

  ghost predicate Hop(files: seq<File>, p: seq<string>, i: nat, implied: bool)
    requires i + 1 < |p|
  {
    Follows(files, p[i], p[i + 1], implied)
  }

  ghost predicate Chain(files: seq<File>, scripts: set<string>, p: seq<string>, implied: bool) {
    && p != [] && Entry(files, scripts, p[0])
    && forall i: nat :: i + 1 < |p| ==> Hop(files, p, i, implied)
  }

  ghost predicate Connects(files: seq<File>, scripts: set<string>, p: seq<string>, x: string, implied: bool) {
    Chain(files, scripts, p, implied) && p[|p| - 1] == x
  }

  /** Some chain of imports and package markers leads from a starting point to x. */
  ghost predicate Live(files: seq<File>, scripts: set<string>, x: string) {
    exists p :: Connects(files, scripts, p, x, true)
  }

  /** The same with imports alone. */
  ghost predicate LiveByImports(files: seq<File>, scripts: set<string>, x: string) {
    exists p :: Connects(files, scripts, p, x, false)
  }

  predicate IsModule(f: File, x: string) { Inside(f.place) && !Exempt(f.place) && x == Name(f.place) }

  ghost predicate Module(files: seq<File>, x: string) { exists i :: 0 <= i < |files| && IsModule(files[i], x) }

  /** The module or package exists in the source tree. */
  predicate Resolves(files: seq<File>, name: string) {
    var (dirs, last) := Split(name);
    (dirs + [last])[0] != PACKAGE
    || exists f :: f in files && (f.place == Source(dirs, last) || f.place == Source(dirs + [last], "__init__"))
  }

  ghost predicate Names(f: File, name: string) { f.nodes.Some? && ImportsModule(f, name) }

  ghost predicate NamedIn(files: seq<File>, name: string, path: string) {
    exists i :: 0 <= i < |files| && Names(files[i], name) && path == files[i].path
  }

  // ----- one file more -----

  lemma OneMore(files: seq<File>, f: File)
    ensures forall x, y :: Linked(files + [f], x, y) <==> Linked(files, x, y) || Links(f, x, y)
    ensures forall x :: Module(files + [f], x) <==> Module(files, x) || IsModule(f, x)
    ensures forall x, path :: NamedIn(files + [f], x, path) <==> NamedIn(files, x, path) || (Names(f, x) && path == f.path)
  {
    var more := files + [f];
    assert more[|files|] == f && forall i :: 0 <= i < |files| ==> more[i] == files[i];
  }

  lemma OneMoreEntry(files: seq<File>, f: File, scripts: set<string>)
    ensures forall x :: Entry(files + [f], scripts, x) <==> Entry(files, scripts, x) || Starts(f, x)
  {
    var more := files + [f];
    assert more[|files|] == f && forall i :: 0 <= i < |files| ==> more[i] == files[i];
  }

  // ----- the pass -----

  method AllModules(files: seq<File>) returns (modules: seq<string>)
    ensures Distinct(modules)
    ensures forall x :: x in modules <==> Module(files, x)
  {
    modules := [];
    for i := 0 to |files|
      invariant Distinct(modules)
      invariant forall x :: x in modules <==> Module(files[..i], x)
    {
      var f := files[i];
      OneMore(files[..i], f);
      assert files[..i + 1] == files[..i] + [f];
      if Inside(f.place) && !Exempt(f.place) && Name(f.place) !in modules {
        modules := modules + [Name(f.place)];
      }
    }
    assert files[..|files|] == files;
  }

  ghost predicate Represents(g: Graph, files: seq<File>, scripts: set<string>) {
    && (forall x, y :: ImportStep(g, x, y) <==> Linked(files, x, y))
    && (forall x :: x in g.roots <==> Entry(files, scripts, x))
  }

  method BuildGraph(files: seq<File>, scripts: set<string>) returns (g: Graph)
    ensures Represents(g, files, scripts)
  {
    g := Graph(map[], scripts);
    for i := 0 to |files|
      invariant Represents(g, files[..i], scripts)
    {
      var f := files[i];
      assert files[..i + 1] == files[..i] + [f];
      OneMore(files[..i], f);
      OneMoreEntry(files[..i], f, scripts);
      if f.nodes.Some? {
        var imported, attributes := ScanImports(f);
        g := AddFile(g, f, imported + attributes);
      }
    }
    assert files[..|files|] == files;
  }

  method AddFile(g: Graph, f: File, targets: set<string>) returns (h: Graph)
    requires f.nodes.Some?
    requires forall x :: x in targets <==> Target(f, x)
    ensures forall x, y :: ImportStep(h, x, y) <==> ImportStep(g, x, y) || Links(f, x, y)
    ensures forall x :: x in h.roots <==> x in g.roots || Starts(f, x)
  {
    var roots := g.roots + f.references;
    if Inside(f.place) {
      var importer := Name(f.place);
      h := Graph(g.edges[importer := Successors(g, importer) + targets], if Exempt(f.place) then roots + {importer} else roots);
    } else {
      h := Graph(g.edges, roots + targets);
    }
  }

  predicate Blames(broken: map<string, set<string>>, name: string, path: string) {
    name in broken && path in broken[name]
  }

  method Broken(files: seq<File>) returns (broken: map<string, set<string>>)
    ensures forall name, path :: Blames(broken, name, path) <==> !Resolves(files, name) && NamedIn(files, name, path)
    ensures forall name :: name in broken ==> broken[name] != {}
  {
    broken := map[];
    for i := 0 to |files|
      invariant forall name, path :: Blames(broken, name, path) <==> !Resolves(files, name) && NamedIn(files[..i], name, path)
      invariant forall name :: name in broken ==> broken[name] != {}
    {
      var f := files[i];
      assert files[..i + 1] == files[..i] + [f];
      OneMore(files[..i], f);
      if f.nodes.Some? {
        var imported, attributes := ScanImports(f);
        broken := Blame(files, f.path, imported, broken);
      }
    }
    assert files[..|files|] == files;
  }

  method Blame(files: seq<File>, path: string, imported: set<string>, broken: map<string, set<string>>)
      returns (more: map<string, set<string>>)
    requires forall name :: name in broken ==> broken[name] != {}
    ensures forall name, p :: Blames(more, name, p) <==>
      Blames(broken, name, p) || (name in imported && !Resolves(files, name) && p == path)
    ensures forall name :: name in more ==> more[name] != {}
  {
    more := broken;
    var left := imported;
    while left != {}
      invariant left <= imported
      invariant forall name, p :: Blames(more, name, p) <==>
        Blames(broken, name, p) || (name in imported && name !in left && !Resolves(files, name) && p == path)
      invariant forall name :: name in more ==> more[name] != {}
      decreases |left|
    {
      var name :| name in left;
      left := left - {name};
      if !Resolves(files, name) {
        var was := more;
        more := was[name := (if name in was then was[name] else {}) + {path}];
        assert forall n, p :: Blames(more, n, p) <==> Blames(was, n, p) || (n == name && p == path);
      }
    }
  }

  /** The report: the modules no chain reaches, in order, and for each missing module the files that import it. */
  method Analyse(files: seq<File>, scripts: set<string>) returns (dead: seq<string>, broken: map<string, set<string>>)
    ensures Order.Sorted(Order.StringLeq, dead) && Distinct(dead)
    ensures forall x :: x in dead <==> Module(files, x) && !Live(files, scripts, x)
    ensures forall name, path :: Blames(broken, name, path) <==> !Resolves(files, name) && NamedIn(files, name, path)
    ensures forall name :: name in broken ==> broken[name] != {}
  {
    var modules := AllModules(files);
    var g := BuildGraph(files, scripts);
    broken := Broken(files);
    var reachable := Close(g);
    var unreached := Filter(x => x !in reachable, modules);
    dead := Order.Sort(Order.StringLeq, unreached);
    FilterDistinct(x => x !in reachable, modules);
    SortedDistinct(unreached);
    forall x ensures Live(files, scripts, x) <==> Reachable(g, x) { SameChains(g, files, scripts, x); }
  }

  lemma SortedDistinct(s: seq<string>)
    requires Distinct(s)
    ensures var t := Order.Sort(Order.StringLeq, s);
      Order.Sorted(Order.StringLeq, t) && Distinct(t) && forall x :: x in t <==> x in s
  {
    Order.StringOrder();
    Order.SortCorrect(Order.StringLeq, s);
    SamePiecesDistinct(s, Order.Sort(Order.StringLeq, s));
  }

  lemma SameChains(g: Graph, files: seq<File>, scripts: set<string>, x: string)
    requires Represents(g, files, scripts)
    ensures Reachable(g, x) <==> Live(files, scripts, x)
  {
    forall p
      ensures Reaches(g, p, x) <==> Connects(files, scripts, p, x, true)
    {
      SameChain(g, files, scripts, p);
    }
  }

  lemma SameChain(g: Graph, files: seq<File>, scripts: set<string>, p: seq<string>)
    requires Represents(g, files, scripts)
    ensures Path(g, p) <==> Chain(files, scripts, p, true)
  {
    forall x, y ensures Step(g, x, y) <==> Follows(files, x, y, true) {}
    if Path(g, p) {
      forall i: nat | i + 1 < |p| ensures Hop(files, p, i, true) { assert Step(g, p[i], p[i + 1]); }
    }
    if Chain(files, scripts, p, true) {
      forall i | 0 <= i < |p| - 1 ensures Step(g, p[i], p[i + 1]) { assert Hop(files, p, i, true); }
    }
  }

  // ----- what the verdicts mean -----

  lemma ExtendHops(files: seq<File>, p: seq<string>, y: string, implied: bool, i: nat)
    requires p != [] && Follows(files, p[|p| - 1], y, implied)
    requires i < |p| && (i + 1 < |p| ==> Hop(files, p, i, implied))
    ensures Hop(files, p + [y], i, implied)
  {
    if i + 1 < |p| { SameHop(files, p, p + [y], i, implied); } else { LastHop(files, p, y, implied); }
  }

  lemma ExtendChain(files: seq<File>, scripts: set<string>, p: seq<string>, x: string, y: string, implied: bool)
    requires Connects(files, scripts, p, x, implied) && Follows(files, x, y, implied)
    ensures Connects(files, scripts, p + [y], y, implied)
  {
    var q := p + [y];
    forall i: nat | i + 1 < |q|
      ensures Hop(files, q, i, implied)
    {
      ExtendHops(files, p, y, implied, i);
    }
    assert q[0] == p[0] && q[|q| - 1] == y;
  }

  lemma SameHop(files: seq<File>, p: seq<string>, q: seq<string>, i: nat, implied: bool)
    requires i + 1 < |p| && i + 1 < |q| && p[i] == q[i] && p[i + 1] == q[i + 1] && Hop(files, p, i, implied)
    ensures Hop(files, q, i, implied)
  {
  }

  lemma LastHop(files: seq<File>, p: seq<string>, y: string, implied: bool)
    requires p != [] && Follows(files, p[|p| - 1], y, implied)
    ensures Hop(files, p + [y], |p| - 1, implied)
  {
  }

  /** All but the last step of a chain. */
  lemma ShorterChain(files: seq<File>, scripts: set<string>, p: seq<string>, x: string, implied: bool) returns (front: seq<string>, y: string)
    requires Connects(files, scripts, p, x, implied) && |p| > 1
    ensures Connects(files, scripts, front, y, implied) && Follows(files, y, x, implied) && |front| < |p|
  {
    front, y := p[..|p| - 1], p[|p| - 2];
    assert Hop(files, p, |p| - 2, implied);
    forall i: nat | i + 1 < |front|
      ensures Hop(files, front, i, implied)
    {
      assert Hop(files, p, i, implied);
      SameHop(files, p, front, i, implied);
    }
  }

  lemma LargerChain(files: seq<File>, scripts: set<string>, more: seq<File>, others: set<string>, p: seq<string>, implied: bool, also: bool)
    requires Chain(files, scripts, p, implied) && Entry(more, others, p[0])
    requires forall x, y :: Follows(files, x, y, implied) ==> Follows(more, x, y, also)
    ensures Chain(more, others, p, also)
  {
    forall i: nat | i + 1 < |p|
      ensures Hop(more, p, i, also)
    {
      assert Hop(files, p, i, implied);
    }
  }

  lemma EntryLive(files: seq<File>, scripts: set<string>, x: string)
    requires Entry(files, scripts, x)
    ensures Live(files, scripts, x) && LiveByImports(files, scripts, x)
  {
    assert Connects(files, scripts, [x], x, true) && Connects(files, scripts, [x], x, false);
  }

  lemma LinkedLive(files: seq<File>, scripts: set<string>, x: string, y: string)
    requires LiveByImports(files, scripts, x) && Linked(files, x, y)
    ensures LiveByImports(files, scripts, y)
  {
    var p :| Connects(files, scripts, p, x, false);
    ExtendChain(files, scripts, p, x, y, false);
  }

  /** Every import and every entry point of these files and scripts is still one of those. */
  ghost predicate Grows(files: seq<File>, scripts: set<string>, more: seq<File>, others: set<string>) {
    && (forall x, y :: Linked(files, x, y) ==> Linked(more, x, y))
    && (forall x :: Entry(files, scripts, x) ==> Entry(more, others, x))
  }

  /** Adding imports, to old files or in new ones, or entry points never adds a dead module. */
  lemma GrowthNeverKills(files: seq<File>, scripts: set<string>, more: seq<File>, others: set<string>, x: string)
    requires Grows(files, scripts, more, others) && Live(files, scripts, x)
    ensures Live(more, others, x)
  {
    var p :| Connects(files, scripts, p, x, true);
    LargerChain(files, scripts, more, others, p, true, true);
    assert Connects(more, others, p, x, true);
  }

  /** In particular more files and more scripts never do. */
  lemma MoreNeverKills(files: seq<File>, scripts: set<string>, more: seq<File>, others: set<string>, x: string)
    requires scripts <= others && forall f :: f in files ==> f in more
    requires Live(files, scripts, x)
    ensures Live(more, others, x)
  {
    forall a, b | Linked(files, a, b)
      ensures Linked(more, a, b)
    {
      var i :| 0 <= i < |files| && Links(files[i], a, b);
      assert files[i] in more;
    }
    forall a | Entry(files, scripts, a)
      ensures Entry(more, others, a)
    {
      if a !in scripts {
        var i :| 0 <= i < |files| && Starts(files[i], a);
        assert files[i] in more;
      }
    }
    GrowthNeverKills(files, scripts, more, others, x);
  }

  /** Directory and file names without dots, as importable ones are. */
  ghost predicate Importable(f: File) {
    f.place.Source? ==> Lines.SeparatorFree(f.place.dirs, '.') && '.' !in f.place.stem
  }

  /** A file whose name ends in `.__init__` is a package marker, and so an entry point. */
  lemma MarkersStart(files: seq<File>, scripts: set<string>, x: string, y: string)
    requires forall f :: f in files ==> Importable(f)
    requires IsInit(x) && Linked(files, x, y)
    ensures Entry(files, scripts, x)
  {
    var i :| 0 <= i < |files| && Links(files[i], x, y);
    var f := files[i];
    assert f in files;
    var dirs, stem, n := f.place.dirs, f.place.stem, |f.place.dirs| - 1;
    var front := Dotted(dirs[..n], dirs[n]);
    DotUnique(front, stem);
    assert x == front + "." + stem == front + INIT;
    assert stem == "__init__" by {
      assert (front + "." + stem)[|front| + 1..] == stem;
      assert (front + INIT)[|front| + 1..] == INIT[1..] == "__init__";
    }
    assert Starts(f, x);
  }

  lemma HopByImports(files: seq<File>, scripts: set<string>, x: string, y: string)
    requires forall f :: f in files ==> Importable(f)
    requires Follows(files, x, y, true) && (LiveByImports(files, scripts, x) || IsInit(x))
    ensures LiveByImports(files, scripts, y) || IsInit(y)
  {
    if Linked(files, x, y) {
      if !LiveByImports(files, scripts, x) {
        MarkersStart(files, scripts, x, y);
        EntryLive(files, scripts, x);
      }
      LinkedLive(files, scripts, x, y);
    } else {
      InitIdempotent(x);
    }
  }

  lemma {:induction false} ChainByImports(files: seq<File>, scripts: set<string>, p: seq<string>, x: string)
    requires forall f :: f in files ==> Importable(f)
    requires Connects(files, scripts, p, x, true)
    ensures LiveByImports(files, scripts, x) || IsInit(x)
    decreases |p|
  {
    if |p| == 1 {
      EntryLive(files, scripts, x);
    } else {
      var front, y := ShorterChain(files, scripts, p, x, true);
      ChainByImports(files, scripts, front, y);
      HopByImports(files, scripts, y, x);
    }
  }

  /**
   Package markers already start on their own, so the implied step decides nothing: a module is live
   exactly when imports alone reach it.
   */
  lemma ImportsDecide(files: seq<File>, scripts: set<string>, x: string)
    requires (forall f :: f in files ==> Importable(f)) && !IsInit(x)
    ensures Live(files, scripts, x) <==> LiveByImports(files, scripts, x)
  {
    if Live(files, scripts, x) {
      var p :| Connects(files, scripts, p, x, true);
      ChainByImports(files, scripts, p, x);
    }
    if LiveByImports(files, scripts, x) {
      var p :| Connects(files, scripts, p, x, false);
      LargerChain(files, scripts, files, scripts, p, false, true);
      assert Connects(files, scripts, p, x, true);
    }
  }

  lemma {:induction false} LeafReference(files: seq<File>, scripts: set<string>, r: string, p: seq<string>, x: string)
    requires (forall y :: !Linked(files, r, y)) && Connects(files, scripts + {r}, p, x, false) && x != r
    ensures LiveByImports(files, scripts, x)
    decreases |p|
  {
    if |p| == 1 {
      EntryLive(files, scripts, x);
    } else {
      var front, y := ShorterChain(files, scripts + {r}, p, x, false);
      LeafReference(files, scripts, r, front, y);
      LinkedLive(files, scripts, y, x);
    }
  }

  /**
   A string such as `pkg.mod:attr` is recorded as `pkg.mod.attr`.  Unless that is itself a module, the
   reference keeps nothing alive: in particular not `pkg.mod`, whose liveness is the same without it.
   */
  lemma AttributeTargetKeepsNothing(files: seq<File>, scripts: set<string>, target: string, attribute: string, x: string)
    requires forall f :: f in files ==> Importable(f)
    requires forall y :: !Linked(files, target + "." + attribute, y)
    requires !IsInit(x) && x != target + "." + attribute
    ensures Live(files, scripts + {target + "." + attribute}, x) <==> Live(files, scripts, x)
  {
    var r := target + "." + attribute;
    ImportsDecide(files, scripts, x);
    ImportsDecide(files, scripts + {r}, x);
    if LiveByImports(files, scripts + {r}, x) {
      var p :| Connects(files, scripts + {r}, p, x, false);
      LeafReference(files, scripts, r, p, x);
    }
    if Live(files, scripts, x) { MoreNeverKills(files, scripts, files, scripts + {r}, x); }
  }
}
