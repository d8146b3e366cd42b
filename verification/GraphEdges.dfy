/** The dependency graph and the blast radius in terms of what the files import (src/deps.rs:45-120). */
module GraphEdges {
  import opened Lists
  import opened CodeGraph

  // ----- edges -----

  ghost predicate IsFile(files: seq<SourceFile>, path: string)
  {
    exists k :: 0 <= k < |files| && files[k].path == path
  }

  /** How often an import of this path should be in the graph: as often as the file names it, if it is one of
      the files, and not at all otherwise. */
  ghost function Wanted(files: seq<SourceFile>, parsed: seq<string>, path: string): nat
  {
    if IsFile(files, path) then multiset(parsed)[path] else 0
  }

  ghost function NamesFile(files: seq<SourceFile>): string -> bool
  {
    (path: string) => IsFile(files, path)
  }

  ghost predicate KeptAt(kept: seq<string>, parsed: seq<string>, at: seq<nat>)
  {
    |kept| == |at| && forall j :: 0 <= j < |at| ==> at[j] < |parsed| && kept[j] == parsed[at[j]]
  }

  /** The kept imports are the parsed ones that name a file, in their order and as often. */
  ghost predicate ImportsRight(files: seq<SourceFile>, parsed: seq<string>, kept: seq<string>)
  {
    && (exists at :: Places(NamesFile(files), parsed, at) && KeptAt(kept, parsed, at))
    && forall path :: multiset(kept)[path] == Wanted(files, parsed, path)
  }

  lemma {:induction false} ResolveKeeps(parsed: seq<string>, known: set<string>, path: string)
    ensures multiset(Resolve(parsed, known))[path] == if path in known then multiset(parsed)[path] else 0
  {
    if parsed != [] {
      var k := |parsed| - 1;
      ResolveKeeps(parsed[..k], known, path);
      assert parsed == parsed[..k] + [parsed[k]];
      OneMoreCount(parsed[..k], parsed[k], path);
      OneMoreCount(Resolve(parsed[..k], known), parsed[k], path);
    }
  }

  function IfKnown(known: set<string>): string -> seq<string>
  {
    (path: string) => if path in known then [path] else []
  }

  lemma {:induction false} ResolveOneByOne(parsed: seq<string>, known: set<string>)
    ensures Resolve(parsed, known) == FlatMap(IfKnown(known), parsed)
  {
    if parsed != [] { ResolveOneByOne(parsed[..|parsed| - 1], known); }
  }

  lemma ResolveInOrder(files: seq<SourceFile>, parsed: seq<string>) returns (at: seq<nat>)
    ensures Places(NamesFile(files), parsed, at) && KeptAt(Resolve(parsed, Known(files)), parsed, at)
  {
    ResolveOneByOne(parsed, Known(files));
    at := FlatMapPlaces(IfKnown(Known(files)), NamesFile(files), parsed);
    var kept := Resolve(parsed, Known(files));
    forall j | 0 <= j < |at| ensures at[j] < |parsed| && kept[j] == parsed[at[j]] {
      assert IfKnown(Known(files))(parsed[at[j]]) == [kept[j]];
    }
  }

  lemma ResolveRight(files: seq<SourceFile>, parsed: seq<string>)
    ensures ImportsRight(files, parsed, Resolve(parsed, Known(files)))
  {
    var at := ResolveInOrder(files, parsed);
    forall path ensures multiset(Resolve(parsed, Known(files)))[path] == Wanted(files, parsed, path) {
      ResolveKeeps(parsed, Known(files), path);
    }
  }

  lemma {:induction false} StoredImports(known: set<string>, files: seq<SourceFile>, i: nat)
    requires DistinctPaths(files) && i < |files|
    ensures var imports := AddFiles(known, files).imports;
            && (files[i].path in imports <==> files[i].parsed.Some?)
            && (files[i].parsed.Some? ==> imports[files[i].path] == Resolve(files[i].parsed.value, known))
  {
    var k := |files| - 1;
    if i < k {
      StoredImports(known, files[..k], i);
    } else {
      ImportsOnlyFiles(known, files[..k]);
      assert files[k].path !in Known(files[..k]);
    }
  }

  /** With distinct paths, a file has imports in the graph exactly when it can be read, and they are the files
      among those it names, in order and as often as it names them; nothing else has imports. */
  lemma EdgesExactly(files: seq<SourceFile>)
    requires DistinctPaths(files)
    ensures var imports := AddFiles(Known(files), files).imports;
            && (forall path :: path in imports ==> IsFile(files, path))
            && (forall i :: 0 <= i < |files| ==> (files[i].path in imports <==> files[i].parsed.Some?))
            && (forall i :: 0 <= i < |files| && files[i].parsed.Some? ==>
                  ImportsRight(files, files[i].parsed.value, imports[files[i].path]))
  {
    ImportsOnlyFiles(Known(files), files);
    forall i | 0 <= i < |files|
      ensures files[i].path in AddFiles(Known(files), files).imports <==> files[i].parsed.Some?
      ensures files[i].parsed.Some? ==>
                ImportsRight(files, files[i].parsed.value, AddFiles(Known(files), files).imports[files[i].path])
    {
      StoredImports(Known(files), files, i);
      if files[i].parsed.Some? { ResolveRight(files, files[i].parsed.value); }
    }
  }

  // ----- who depends on whom -----

  /** The file `from` can be read and names `to`, which is one of the files. */
  ghost predicate Names(files: seq<SourceFile>, from: string, to: string)
  {
    IsFile(files, to) && exists i :: NamesAt(files, i, from, to)
  }

  ghost predicate NamesAt(files: seq<SourceFile>, i: int, from: string, to: string)
  {
    0 <= i < |files| && files[i].path == from && files[i].parsed.Some? && to in files[i].parsed.value
  }

  /** Each file names the next. */
  ghost predicate NamingChain(files: seq<SourceFile>, p: seq<string>)
  {
    p != [] && forall i :: 0 <= i < |p| - 1 ==> Names(files, p[i], p[i + 1])
  }

  /** One file names the other, directly or through others. */
  ghost predicate NeedsThrough(files: seq<SourceFile>, y: string, x: string)
  {
    exists p :: NamingChain(files, p) && p[0] == y && p[|p| - 1] == x
  }

  lemma EdgeIsNaming(files: seq<SourceFile>, from: string, to: string)
    requires DistinctPaths(files)
    ensures to in Get(AddFiles(Known(files), files).imports, from) <==> Names(files, from, to)
  {
    EdgesExactly(files);
    var imports := AddFiles(Known(files), files).imports;
    if from in imports {
      var i :| 0 <= i < |files| && files[i].path == from;
      var parsed := files[i].parsed.value;
      assert ImportsRight(files, parsed, imports[from]);
      assert multiset(imports[from])[to] == Wanted(files, parsed, to);
      assert to in imports[from] <==> to in multiset(imports[from]);
      assert to in parsed <==> to in multiset(parsed);
      assert to in parsed ==> NamesAt(files, i, from, to);
    }
  }

  lemma ChainIsPath(files: seq<SourceFile>, p: seq<string>)
    requires DistinctPaths(files)
    ensures ImportPath(AddFiles(Known(files), files), p) <==> NamingChain(files, p)
  {
    forall i | 0 <= i < |p| - 1
      ensures p[i + 1] in Get(AddFiles(Known(files), files).imports, p[i]) <==> Names(files, p[i], p[i + 1])
    {
      EdgeIsNaming(files, p[i], p[i + 1]);
    }
  }

  /** The files that a blast radius counts are exactly the others that name the file in their own imports,
      directly or through files that do. */
  lemma BlastIsNeed(files: seq<SourceFile>, file: string, y: string)
    requires DistinctPaths(files)
    ensures y in Affected(AddFiles(Known(files), files), file) - {file} <==> y != file && NeedsThrough(files, y, file)
  {
    var g := AddFiles(Known(files), files);
    AffectedAreDependents(files, file, y);
    if DependsOn(g, y, file) {
      var p :| ImportPath(g, p) && p[0] == y && p[|p| - 1] == file;
      ChainIsPath(files, p);
    }
    if NeedsThrough(files, y, file) {
      var p :| NamingChain(files, p) && p[0] == y && p[|p| - 1] == file;
      ChainIsPath(files, p);
    }
  }

  /** And a file's direct importers are the files that name it, each as often as it does. */
  lemma ImportersExactly(files: seq<SourceFile>, i: nat, target: string)
    requires DistinctPaths(files) && i < |files|
    ensures multiset(Get(AddFiles(Known(files), files).importers, target))[files[i].path] ==
            if files[i].parsed.Some? then Wanted(files, files[i].parsed.value, target) else 0
  {
    var g := AddFiles(Known(files), files);
    BuildTransposes(Known(files), files);
    assert multiset(Get(g.importers, target))[files[i].path] == multiset(Get(g.imports, files[i].path))[target];
    EdgesExactly(files);
    if files[i].parsed.Some? { assert ImportsRight(files, files[i].parsed.value, g.imports[files[i].path]); }
  }

  // ----- the score -----

  /** What makes a logarithm: products become sums. */
  ghost predicate TurnsProductsIntoSums(ln: real -> real)
  {
    forall a: real, b: real :: SumsAt(ln, a, b)
  }

  ghost predicate SumsAt(ln: real -> real, a: real, b: real)
  {
    1.0 <= a && 1.0 <= b ==> ln(a * b) == ln(a) + ln(b)
  }

  lemma SumOverQuotient(a: real, b: real, c: real)
    requires c > 0.0
    ensures (a + b) / c == a / c + b / c
  {
  }

  /** The scale is logarithmic: where files multiply (counting the file itself), scores add, up to 1 at 49. */
  lemma ScoresAdd(ln: real -> real, a: nat, b: nat, c: nat)
    requires Logarithm(ln) && TurnsProductsIntoSums(ln)
    requires (a + 1) * (b + 1) == c + 1 <= 50
    ensures Score(ln, c) == Score(ln, a) + Score(ln, b)
  {
    Factors(a, b, c);
    Product(a, b, c);
    FactorsAdd(ln, a, b, c);
  }

  lemma FactorsAdd(ln: real -> real, a: nat, b: nat, c: nat)
    requires Logarithm(ln) && TurnsProductsIntoSums(ln) && a <= 49 && b <= 49 && c <= 49
    requires (1.0 + a as real) * (1.0 + b as real) == 1.0 + c as real
    ensures Score(ln, c) == Score(ln, a) + Score(ln, b)
  {
    Unclipped(ln, a);
    Unclipped(ln, b);
    Unclipped(ln, c);
    QuotientsAdd(ln, 1.0 + a as real, 1.0 + b as real, 1.0 + c as real);
  }

  lemma QuotientsAdd(ln: real -> real, x: real, y: real, z: real)
    requires TurnsProductsIntoSums(ln) && ln(50.0) > 0.0 && 1.0 <= x && 1.0 <= y && z == x * y
    ensures ln(z) / ln(50.0) == ln(x) / ln(50.0) + ln(y) / ln(50.0)
  {
    assert SumsAt(ln, x, y);
    SumOverQuotient(ln(x), ln(y), ln(50.0));
  }

  lemma Factors(a: nat, b: nat, c: nat)
    requires (a + 1) * (b + 1) == c + 1
    ensures a <= c && b <= c
  {
    assert (a + 1) * (b + 1) == a * b + a + b + 1;
    assert a * b >= 0;
  }

  lemma Product(a: nat, b: nat, c: nat)
    requires (a + 1) * (b + 1) == c + 1
    ensures (1.0 + a as real) * (1.0 + b as real) == 1.0 + c as real
  {
    assert (1.0 + a as real) * (1.0 + b as real) == ((a + 1) * (b + 1)) as real;
  }

  lemma Unclipped(ln: real -> real, a: nat)
    requires Logarithm(ln) && a <= 49
    ensures Score(ln, a) == ln(1.0 + a as real) / ln(50.0)
  {
    var x := 1.0 + a as real;
    assert x <= 50.0;
    Quotient(ln(x), ln(50.0), ln(50.0));
    if x < 50.0 { assert ln(x) < ln(50.0); }
  }
}
