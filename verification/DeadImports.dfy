/** What each form of import names, told by the place of the file, and what that keeps alive or reports as missing. */
module DeadImports {
  import opened Prelude
  import opened DeadModules
  import opened DeadAnalysis
  import Lines

  // ----- names of places -----

  /** The parts joined by dots. */
  function Path(dirs: seq<string>, last: string): string { Lines.Join(dirs, '.') + last }

  lemma PathIs(dirs: seq<string>, last: string)
    ensures Dotted(dirs, last) == Path(dirs, last)
  {
    DottedJoin(dirs, last);
  }

  /** The directory `level - 1` above the file's own, but never above the first. */
  function Here(dirs: seq<string>, level: nat): string
    requires dirs != [] && level > 0
  {
    if level <= |dirs| then Path(dirs[..|dirs| - level], dirs[|dirs| - level]) else dirs[0]
  }

  lemma PathStarts(dirs: seq<string>, last: string)
    requires dirs != []
    ensures dirs[0] <= Path(dirs, last)
  {
    Assoc(dirs[0] + ".", Lines.Join(dirs[1..], '.'), last);
    assert dirs[0] + "." + Lines.Join(dirs[1..], '.') == Lines.Join(dirs, '.');
  }

  lemma HereStarts(dirs: seq<string>, level: nat)
    requires dirs != [] && level > 0
    ensures dirs[0] <= Here(dirs, level)
  {
    if level < |dirs| {
      PathStarts(dirs[..|dirs| - level], dirs[|dirs| - level]);
    } else if level == |dirs| {
      assert dirs[..0] == [] && Path([], dirs[0]) == dirs[0];
    }
  }

  /** Names without dots, as those of importable directories and files are. */
  ghost predicate Plain(dirs: seq<string>, stem: string) { Lines.SeparatorFree(dirs, '.') && '.' !in stem }

  lemma BaseAbove(dirs: seq<string>, package: string, level: nat)
    requires dirs != [] && Lines.SeparatorFree(dirs, '.') && package == Dotted(dirs[..|dirs| - 1], dirs[|dirs| - 1]) && level > |dirs|
    ensures Base(package, level) == dirs[0]
  {
    SplitPackage(dirs, package);
    assert (dirs[..|dirs| - 1] + [dirs[|dirs| - 1]])[0] == dirs[0];
  }

  lemma BaseIsHere(dirs: seq<string>, stem: string, level: nat)
    requires dirs != [] && Plain(dirs, stem) && level > 0
    ensures Base(OwnPackage(Source(dirs, stem)), level) == Here(dirs, level)
  {
    OwnPackageOf(dirs, stem);
    if level <= |dirs| {
      RelativeImport(dirs, stem, level);
      PathIs(dirs[..|dirs| - level], dirs[|dirs| - level]);
    } else {
      BaseAbove(dirs, OwnPackage(Source(dirs, stem)), level);
    }
  }

  // ----- what an import names -----

  function Below(package: string, m: Option<string>): string {
    match m case Some(name) => package + ("." + name) case None => package
  }

  lemma BelowStarts(package: string, m: Option<string>)
    requires OfPackage(package)
    ensures OfPackage(Below(package, m))
  {
  }

  /** The module, and what is taken from it. */
  ghost predicate NamesExactly(place: Place, node: Node, m: string, names: seq<string>) {
    && NodeModules(place, node) == {m}
    && (forall x :: x in NodeAttributes(place, node) <==> exists n :: n in names && x == m + ("." + n))
  }

  lemma NamesFrom(place: Place, level: nat, source: Option<string>, names: seq<string>, m: string)
    requires Resolved(place, ImportFrom(level, source, names)) == m && OfPackage(m)
    ensures NamesExactly(place, ImportFrom(level, source, names), m, names)
  {
    forall n: string ensures m + "." + n == m + ("." + n) { Assoc(m, ".", n); }
  }

  /** `from ..m import a` in the package: the module m below the directory the dots lead to, or that directory itself. */
  lemma RelativeFrom(dirs: seq<string>, stem: string, level: nat, source: Option<string>, names: seq<string>)
    requires dirs != [] && dirs[0] == "surreal_memory" && Plain(dirs, stem) && level > 0
    ensures NamesExactly(Source(dirs, stem), ImportFrom(level, source, names), Below(Here(dirs, level), source), names)
  {
    BaseIsHere(dirs, stem, level);
    HereStarts(dirs, level);
    BelowStarts(Here(dirs, level), source);
    if source.Some? { Assoc(Here(dirs, level), ".", source.value); }
    NamesFrom(Source(dirs, stem), level, source, names, Below(Here(dirs, level), source));
  }

  /** Outside the package's directory a relative import starts from the package itself, however many dots it has. */
  lemma OutsideFrom(place: Place, level: nat, source: Option<string>, names: seq<string>)
    requires (place.Elsewhere? || place.dirs == []) && (place.Source? ==> '.' !in place.stem) && level > 0
    ensures NamesExactly(place, ImportFrom(level, source, names), Below("surreal_memory", source), names)
  {
    PackagePlain();
    NoDot(Name(place));
    BaseTop(level);
    BelowStarts("surreal_memory", source);
    if source.Some? { Assoc(PACKAGE, ".", source.value); }
    NamesFrom(place, level, source, names, Below("surreal_memory", source));
  }

  lemma PackagePlain()
    ensures '.' !in PACKAGE
  {
  }

  lemma NoDot(s: string)
    requires '.' !in s
    ensures LastDot(s) < 0
  {
  }

  lemma BaseTop(level: nat)
    requires level > 0
    ensures Base(PACKAGE, level) == PACKAGE
  {
    PackagePlain();
    SplitDotted([], PACKAGE);
    assert Dotted([], PACKAGE) == PACKAGE;
  }

  /** `from m import a`, wherever the file lies: the module as written, if it is the package's; nothing otherwise. */
  lemma AbsoluteFrom(place: Place, source: Option<string>, names: seq<string>)
    ensures source.Some? && "surreal_memory" <= source.value ==> NamesExactly(place, ImportFrom(0, source, names), source.value, names)
    ensures source.None? || !("surreal_memory" <= source.value) ==>
      NodeModules(place, ImportFrom(0, source, names)) == {} && NodeAttributes(place, ImportFrom(0, source, names)) == {}
  {
    if source.Some? && "surreal_memory" <= source.value { NamesFrom(place, 0, source, names, source.value); }
  }

  /** `import m`: the names of the package, as written, and no attribute. */
  lemma PlainImport(place: Place, names: seq<string>)
    ensures forall x :: x in NodeModules(place, Import(names)) <==> x in names && "surreal_memory" <= x
    ensures NodeAttributes(place, Import(names)) == {}
  {
  }

  // ----- what that means for the verdicts -----

  /** Modules, package markers and entry points, by their place. */
  lemma ModuleIs(f: File, x: string)
    ensures IsModule(f, x) <==>
      && f.place.Source? && f.place.dirs != [] && f.place.dirs[0] == "surreal_memory"
      && f.place.stem != "__init__" && f.place.stem != "__main__" && x == Path(f.place.dirs, f.place.stem)
  {
    if f.place.Source? { PathIs(f.place.dirs, f.place.stem); }
  }

  lemma StartsIs(f: File, x: string)
    ensures Starts(f, x) <==>
      && f.nodes.Some?
      && (|| x in f.references
          || (if f.place.Source? && f.place.dirs != [] && f.place.dirs[0] == "surreal_memory" then
                (f.place.stem == "__init__" || f.place.stem == "__main__") && x == Path(f.place.dirs, f.place.stem)
              else ImportsModule(f, x) || ImportsAttribute(f, x)))
  {
    if f.place.Source? { PathIs(f.place.dirs, f.place.stem); }
  }

  /** A name of the package is there exactly when its file or its package marker is. */
  lemma ResolvesIff(files: seq<File>, dirs: seq<string>, last: string)
    requires dirs != [] && dirs[0] == "surreal_memory" && Plain(dirs, last)
    ensures Resolves(files, Path(dirs, last)) <==>
      exists f :: f in files && (f.place == Source(dirs, last) || f.place == Source(dirs + [last], "__init__"))
  {
    PathIs(dirs, last);
    SplitDotted(dirs, last);
    assert (dirs + [last])[0] == dirs[0];
  }

  lemma NodeLinks(f: File, i: nat, y: string)
    requires f.nodes.Some? && i < |f.nodes.value| && Inside(f.place)
    requires y in NodeModules(f.place, f.nodes.value[i]) || y in NodeAttributes(f.place, f.nodes.value[i])
    ensures Links(f, Name(f.place), y)
  {
  }

  lemma LinkedLives(files: seq<File>, scripts: set<string>, x: string, y: string)
    requires Live(files, scripts, x) && Linked(files, x, y)
    ensures Live(files, scripts, y)
  {
    var p :| Connects(files, scripts, p, x, true);
    ExtendChain(files, scripts, p, x, y, true);
  }

  lemma NodeLives(files: seq<File>, scripts: set<string>, i: nat, k: nat, y: string)
    requires i < |files| && files[i].nodes.Some? && k < |files[i].nodes.value| && Inside(files[i].place)
    requires Live(files, scripts, Name(files[i].place))
    requires var f := files[i]; y in NodeModules(f.place, f.nodes.value[k]) || y in NodeAttributes(f.place, f.nodes.value[k])
    ensures Live(files, scripts, y)
  {
    NodeLinks(files[i], k, y);
    assert Linked(files, Name(files[i].place), y);
    LinkedLives(files, scripts, Name(files[i].place), y);
  }

  lemma NamedLive(files: seq<File>, scripts: set<string>, i: nat, k: nat, m: string, names: seq<string>)
    requires i < |files| && files[i].nodes.Some? && k < |files[i].nodes.value| && Inside(files[i].place)
    requires Live(files, scripts, Name(files[i].place)) && NamesExactly(files[i].place, files[i].nodes.value[k], m, names)
    ensures Live(files, scripts, m) && forall n :: n in names ==> Live(files, scripts, m + ("." + n))
  {
    NodeLives(files, scripts, i, k, m);
    forall n | n in names ensures Live(files, scripts, m + ("." + n)) { NodeLives(files, scripts, i, k, m + ("." + n)); }
  }

  /**
   What a live module imports relatively is alive: the module the dots and the name lead to, and whatever module is
   taken from it.
   */
  lemma RelativeImportsLive(files: seq<File>, scripts: set<string>, i: nat, k: nat)
    requires i < |files| && files[i].nodes.Some? && k < |files[i].nodes.value| && files[i].place.Source?
    requires var f := files[i]; f.place.dirs != [] && f.place.dirs[0] == "surreal_memory" && Plain(f.place.dirs, f.place.stem)
    requires files[i].nodes.value[k].ImportFrom? && files[i].nodes.value[k].level > 0
    requires Live(files, scripts, Path(files[i].place.dirs, files[i].place.stem))
    ensures var node := files[i].nodes.value[k]; var m := Below(Here(files[i].place.dirs, node.level), node.source);
      Live(files, scripts, m) && forall n :: n in node.names ==> Live(files, scripts, m + ("." + n))
  {
    var f := files[i];
    var node := f.nodes.value[k];
    RelativeFrom(f.place.dirs, f.place.stem, node.level, node.source, node.names);
    PathIs(f.place.dirs, f.place.stem);
    NamedLive(files, scripts, i, k, Below(Here(f.place.dirs, node.level), node.source), node.names);
  }

  /** A relative import of a module that is not there is blamed on its file. */
  lemma RelativeImportBlamed(files: seq<File>, i: nat, k: nat)
    requires i < |files| && files[i].nodes.Some? && k < |files[i].nodes.value| && files[i].place.Source?
    requires var f := files[i]; f.place.dirs != [] && f.place.dirs[0] == "surreal_memory" && Plain(f.place.dirs, f.place.stem)
    requires files[i].nodes.value[k].ImportFrom? && files[i].nodes.value[k].level > 0
    ensures var node := files[i].nodes.value[k];
      NamedIn(files, Below(Here(files[i].place.dirs, node.level), node.source), files[i].path)
  {
    var f := files[i];
    var node := f.nodes.value[k];
    RelativeFrom(f.place.dirs, f.place.stem, node.level, node.source, node.names);
    assert Names(f, Below(Here(f.place.dirs, node.level), node.source));
  }
}
