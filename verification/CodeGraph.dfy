/** The file dependency graph and its blast radius (src/deps.rs:17-120). Per-language import parsing is
    represented by its result: the paths a readable file's import statements name. */
module CodeGraph {
  import opened Wrappers
  import opened Sets

  /** `parsed` is None for a file that cannot be read. */
  datatype SourceFile = SourceFile(path: string, parsed: Option<seq<string>>)

  datatype Graph = Graph(imports: map<string, seq<string>>, importers: map<string, seq<string>>)

  const NO_EDGES := Graph(map[], map[])

  function Get(m: map<string, seq<string>>, key: string): seq<string>
  {
    if key in m then m[key] else []
  }

  // ----- building the graph -----

  function Known(files: seq<SourceFile>): set<string>
  {
    set i | 0 <= i < |files| :: files[i].path
  }

  function Resolve(parsed: seq<string>, known: set<string>): seq<string>
  {
    if parsed == [] then []
    else
      var last := parsed[|parsed| - 1];
      Resolve(parsed[..|parsed| - 1], known) + if last in known then [last] else []
  }

  function AddImporters(importers: map<string, seq<string>>, source: string, targets: seq<string>): map<string,
                        seq<string>>
  {
    if targets == [] then importers
    else
      var m := AddImporters(importers, source, targets[..|targets| - 1]);
      var t := targets[|targets| - 1];
      m[t := Get(m, t) + [source]]
  }

  function AddFile(g: Graph, known: set<string>, f: SourceFile): Graph
  {
    if f.parsed.None? then g
    else
      var resolved := Resolve(f.parsed.value, known);
      Graph(g.imports[f.path := resolved], AddImporters(g.importers, f.path, resolved))
  }

  function AddFiles(known: set<string>, files: seq<SourceFile>): Graph
  {
    if files == [] then NO_EDGES
    else AddFile(AddFiles(known, files[..|files| - 1]), known, files[|files| - 1])
  }

  method ResolveImports(parsed: seq<string>, known: set<string>) returns (resolved: seq<string>)
    ensures resolved == Resolve(parsed, known)
  {
    resolved := [];
    for i := 0 to |parsed|
      invariant resolved == Resolve(parsed[..i], known)
    {
      assert parsed[..i + 1][..i] == parsed[..i];
      if parsed[i] in known { resolved := resolved + [parsed[i]]; }
    }
    assert parsed[..|parsed|] == parsed;
  }

  method PushImporters(start: map<string, seq<string>>, source: string, targets: seq<string>)
    returns (importers: map<string, seq<string>>)
    ensures importers == AddImporters(start, source, targets)
  {
    importers := start;
    for i := 0 to |targets|
      invariant importers == AddImporters(start, source, targets[..i])
    {
      assert targets[..i + 1][..i] == targets[..i];
      importers := importers[targets[i] := Get(importers, targets[i]) + [source]];
    }
    assert targets[..|targets|] == targets;
  }

  method BuildGraph(files: seq<SourceFile>) returns (g: Graph)
    ensures g == AddFiles(Known(files), files)
  {
    var known := Known(files);
    var imports: map<string, seq<string>>, importers: map<string, seq<string>> := map[], map[];
    for i := 0 to |files|
      invariant Graph(imports, importers) == AddFiles(known, files[..i])
    {
      assert files[..i + 1][..i] == files[..i];
      if files[i].parsed.Some? {
        var resolved := ResolveImports(files[i].parsed.value, known);
        importers := PushImporters(importers, files[i].path, resolved);
        imports := imports[files[i].path := resolved];
      }
    }
    assert files[..|files|] == files;
    g := Graph(imports, importers);
  }

  // ----- importers are the transpose of imports -----

  /** How often `source` imports `target`, in each index. */
  ghost predicate Transposed(g: Graph)
  {
    forall source, target ::
      multiset(Get(g.importers, target))[source] == multiset(Get(g.imports, source))[target]
  }

  lemma {:induction false} AddImportersCount(importers: map<string, seq<string>>, source: string, targets: seq<string>,
                                             s: string, t: string)
    ensures multiset(Get(AddImporters(importers, source, targets), t))[s] ==
            multiset(Get(importers, t))[s] + if s == source then multiset(targets)[t] else 0
  {
    if targets != [] {
      var k := |targets| - 1;
      AddImportersCount(importers, source, targets[..k], s, t);
      OneMoreCount(targets[..k], targets[k], t);
      assert targets == targets[..k] + [targets[k]];
      OneMoreCount(Get(AddImporters(importers, source, targets[..k]), t), source, s);
    }
  }

  lemma OneMoreCount(xs: seq<string>, x: string, y: string)
    ensures multiset(xs + [x])[y] == multiset(xs)[y] + if x == y then 1 else 0
  {
  }

  ghost predicate DistinctPaths(files: seq<SourceFile>)
  {
    forall i, j :: 0 <= i < j < |files| ==> files[i].path != files[j].path
  }

  lemma {:induction false} ImportsOnlyFiles(known: set<string>, files: seq<SourceFile>)
    ensures AddFiles(known, files).imports.Keys <= Known(files)
  {
    if files != [] {
      var k := |files| - 1;
      ImportsOnlyFiles(known, files[..k]);
      assert forall i :: 0 <= i < k ==> files[..k][i] == files[i];
    }
  }

  lemma AddFileTransposed(g: Graph, known: set<string>, f: SourceFile)
    requires Transposed(g) && f.path !in g.imports
    ensures Transposed(AddFile(g, known, f))
  {
    if f.parsed.Some? {
      var resolved := Resolve(f.parsed.value, known);
      var g' := AddFile(g, known, f);
      forall source, target
        ensures multiset(Get(g'.importers, target))[source] == multiset(Get(g'.imports, source))[target]
      {
        AddImportersCount(g.importers, f.path, resolved, source, target);
        assert multiset(Get(g.importers, target))[source] == multiset(Get(g.imports, source))[target];
      }
    }
  }

  /** In the graph of distinct files, importers are exactly the transpose of imports, multiplicities
      included. */
  lemma {:induction false} BuildTransposes(known: set<string>, files: seq<SourceFile>)
    requires DistinctPaths(files)
    ensures Transposed(AddFiles(known, files))
  {
    if files != [] {
      var k := |files| - 1;
      BuildTransposes(known, files[..k]);
      ImportsOnlyFiles(known, files[..k]);
      assert files[k].path !in Known(files[..k]);
      AddFileTransposed(AddFiles(known, files[..k]), known, files[k]);
    }
  }

  // ----- reachability -----

  /** Each file on the path is imported by the next. */
  ghost predicate ImporterPath(g: Graph, p: seq<string>)
  {
    p != [] && forall i :: 0 <= i < |p| - 1 ==> p[i + 1] in Get(g.importers, p[i])
  }

  /** `y` is `x`, or depends on it through some chain of importers. */
  ghost predicate Reaches(g: Graph, x: string, y: string)
  {
    exists p :: ImporterPath(g, p) && p[0] == x && p[|p| - 1] == y
  }

  ghost function Nodes(g: Graph, start: string): set<string>
  {
    {start} + set x, i | x in g.importers && 0 <= i < |g.importers[x]| :: g.importers[x][i]
  }

  ghost function Affected(g: Graph, start: string): set<string>
  {
    set y | y in Nodes(g, start) && Reaches(g, start, y)
  }

  lemma ReachesSelf(g: Graph, x: string)
    ensures Reaches(g, x, x)
  {
    assert ImporterPath(g, [x]);
  }

  lemma ReachesNext(g: Graph, x: string, y: string, z: string)
    requires Reaches(g, x, y) && z in Get(g.importers, y)
    ensures Reaches(g, x, z)
  {
    var p :| ImporterPath(g, p) && p[0] == x && p[|p| - 1] == y;
    assert ImporterPath(g, p + [z]);
  }

  lemma ImporterIsNode(g: Graph, start: string, x: string, y: string)
    requires y in Get(g.importers, x)
    ensures y in Nodes(g, start)
  {
    var i :| 0 <= i < |g.importers[x]| && g.importers[x][i] == y;
  }

  /** A set closed under importers holds everything its members reach. */
  lemma {:induction false} ClosedHoldsPath(g: Graph, s: set<string>, p: seq<string>)
    requires ImporterPath(g, p) && p[0] in s
    requires forall x, y :: x in s && y in Get(g.importers, x) ==> y in s
    ensures p[|p| - 1] in s
  {
    if |p| > 1 { ClosedHoldsPath(g, s, p[1..]); }
  }

  lemma ClosedHoldsAffected(g: Graph, start: string, s: set<string>)
    requires start in s && forall x, y :: x in s && y in Get(g.importers, x) ==> y in s
    ensures Affected(g, start) <= s
  {
    forall y | y in Affected(g, start) ensures y in s {
      var p :| ImporterPath(g, p) && p[0] == start && p[|p| - 1] == y;
      ClosedHoldsPath(g, s, p);
    }
  }

  // ----- blast radius -----

  datatype BlastRadius = BlastRadius(direct: nat, transitive: nat, isLeaf: bool, isShared: bool, score: real)

  /** `ln` stands for the natural logarithm. */
  function Score(ln: real -> real, transitive: nat): real
    requires ln(50.0) > 0.0
  {
    if transitive == 0 then 0.0
    else
      var raw := ln(1.0 + transitive as real) / ln(50.0);
      if raw <= 1.0 then raw else 1.0
  }

  /** Newly found importers of one file, in order. */
  method Visit(g: Graph, ghost start: string, current: string, visited: set<string>, queue: seq<string>)
    returns (visited': set<string>, queue': seq<string>)
    requires visited <= Affected(g, start) && current in visited
    requires forall x :: x in queue ==> x in visited
    ensures visited <= visited' <= Affected(g, start)
    ensures forall y :: y in Get(g.importers, current) ==> y in visited'
    ensures queue <= queue' && forall x :: x in queue' ==> x in visited'
    ensures forall y :: y in visited' ==> y in visited || y in queue'
    ensures visited' == visited ==> queue' == queue
  {
    visited', queue' := visited, queue;
    var deps := Get(g.importers, current);
    for i := 0 to |deps|
      invariant visited <= visited' <= Affected(g, start)
      invariant forall k :: 0 <= k < i ==> deps[k] in visited'
      invariant queue <= queue' && forall x :: x in queue' ==> x in visited'
      invariant forall y :: y in visited' ==> y in visited || y in queue'
      invariant visited' == visited ==> queue' == queue
    {
      if deps[i] !in visited' {
        ReachesNext(g, start, current, deps[i]);
        ImporterIsNode(g, start, current, deps[i]);
        visited' := visited' + {deps[i]};
        queue' := queue' + [deps[i]];
      }
    }
  }

  /** Breadth-first search from `file`, on any graph, cyclic ones included. */
  method Search(g: Graph, file: string) returns (visited: set<string>)
    ensures visited == Affected(g, file)
  {
    ReachesSelf(g, file);
    visited := {file};
    var queue := [file];
    while queue != []
      invariant file in visited && visited <= Affected(g, file)
      invariant forall x :: x in queue ==> x in visited
      invariant forall x, y :: x in visited && x !in queue && y in Get(g.importers, x) ==> y in visited
      decreases Affected(g, file) - visited, |queue|
    {
      var current := queue[0];
      ghost var before := queue;
      queue := queue[1..];
      assert before == [current] + queue;
      visited, queue := Visit(g, file, current, visited, queue);
    }
    ClosedHoldsAffected(g, file, visited);
  }

  method ComputeBlastRadius(ln: real -> real, g: Graph, file: string) returns (r: BlastRadius)
    requires ln(50.0) > 0.0
    ensures r.direct == |Get(g.importers, file)|
    ensures r.transitive == |Affected(g, file) - {file}|
    ensures r.isLeaf <==> r.direct == 0
    ensures r.isShared <==> r.direct >= 5
    ensures r.score == Score(ln, r.transitive)
  {
    var direct := |Get(g.importers, file)|;
    var visited := Search(g, file);
    ReachesSelf(g, file);
    assert Affected(g, file) == (Affected(g, file) - {file}) + {file};
    var transitive := |visited| - 1;
    r := BlastRadius(direct, transitive, direct == 0, direct >= 5, Score(ln, transitive));
  }

  // ----- what the count means in terms of imports -----

  /** Each file on the path imports the next. */
  ghost predicate ImportPath(g: Graph, p: seq<string>)
  {
    p != [] && forall i :: 0 <= i < |p| - 1 ==> p[i + 1] in Get(g.imports, p[i])
  }

  ghost predicate DependsOn(g: Graph, y: string, x: string)
  {
    exists p :: ImportPath(g, p) && p[0] == y && p[|p| - 1] == x
  }

  ghost function Backwards(p: seq<string>): seq<string>
  {
    seq(|p|, i requires 0 <= i < |p| => p[|p| - 1 - i])
  }

  lemma TransposedEdge(g: Graph, x: string, y: string)
    requires Transposed(g)
    ensures y in Get(g.importers, x) <==> x in Get(g.imports, y)
  {
    assert y in Get(g.importers, x) <==> y in multiset(Get(g.importers, x));
    assert x in Get(g.imports, y) <==> x in multiset(Get(g.imports, y));
  }

  lemma BackwardsImports(g: Graph, p: seq<string>)
    requires Transposed(g) && ImporterPath(g, p)
    ensures ImportPath(g, Backwards(p))
  {
    var q := Backwards(p);
    forall i | 0 <= i < |q| - 1 ensures q[i + 1] in Get(g.imports, q[i]) {
      TransposedEdge(g, p[|p| - 2 - i], p[|p| - 2 - i + 1]);
    }
  }

  lemma BackwardsImporters(g: Graph, p: seq<string>)
    requires Transposed(g) && ImportPath(g, p)
    ensures ImporterPath(g, Backwards(p))
  {
    var q := Backwards(p);
    forall i | 0 <= i < |q| - 1 ensures q[i + 1] in Get(g.importers, q[i]) {
      TransposedEdge(g, p[|p| - 2 - i + 1], p[|p| - 2 - i]);
    }
  }

  lemma ReachesIsDependsOn(g: Graph, x: string, y: string)
    requires Transposed(g)
    ensures Reaches(g, x, y) <==> DependsOn(g, y, x)
  {
    if Reaches(g, x, y) {
      var p :| ImporterPath(g, p) && p[0] == x && p[|p| - 1] == y;
      BackwardsImports(g, p);
    }
    if DependsOn(g, y, x) {
      var p :| ImportPath(g, p) && p[0] == y && p[|p| - 1] == x;
      BackwardsImporters(g, p);
    }
  }

  /** A path that starts elsewhere and ends at `x` ends in a node of the graph. */
  lemma ReachedIsNode(g: Graph, x: string, y: string)
    requires Reaches(g, x, y)
    ensures y in Nodes(g, x)
  {
    var p :| ImporterPath(g, p) && p[0] == x && p[|p| - 1] == y;
    if |p| > 1 { ImporterIsNode(g, x, p[|p| - 2], y); }
  }

  /** In a built graph the counted files are exactly the other files that import `file`, directly or
      through other files. */
  lemma AffectedAreDependents(files: seq<SourceFile>, file: string, y: string)
    requires DistinctPaths(files)
    ensures var g := AddFiles(Known(files), files);
            y in Affected(g, file) - {file} <==> y != file && DependsOn(g, y, file)
  {
    var g := AddFiles(Known(files), files);
    BuildTransposes(Known(files), files);
    ReachesIsDependsOn(g, file, y);
    if Reaches(g, file, y) { ReachedIsNode(g, file, y); }
  }

  // ----- more edges, more impact -----

  ghost predicate Subgraph(g: Graph, g': Graph)
  {
    forall x, y :: y in Get(g.importers, x) ==> y in Get(g'.importers, x)
  }

  /** What a logarithm is to the score. */
  ghost predicate Logarithm(ln: real -> real)
  {
    ln(1.0) == 0.0 && ln(50.0) > 0.0 && forall a: real, b: real :: 1.0 <= a < b ==> ln(a) < ln(b)
  }

  lemma Quotient(a: real, b: real, c: real)
    requires c > 0.0 && a <= b
    ensures a / c <= b / c
    ensures a >= 0.0 ==> a / c >= 0.0
    ensures a / c < 1.0 <==> a < c
  {
    assert a / c * c == a && b / c * c == b;
    if a / c >= 1.0 { assert (a / c - 1.0) * c >= 0.0; } else { assert (1.0 - a / c) * c > 0.0; }
  }

  /** The score stays within 0 and 1, never falls as the count rises, is 0 exactly for a count of 0
      and 1 exactly from a count of 49 on. */
  lemma ScoreBounds(ln: real -> real, t: nat, t': nat)
    requires Logarithm(ln) && t <= t'
    ensures 0.0 <= Score(ln, t) <= Score(ln, t') <= 1.0
    ensures Score(ln, t) == 1.0 <==> t >= 49
  {
    if t > 0 {
      var a, b := 1.0 + t as real, 1.0 + t' as real;
      assert ln(a) > 0.0;
      assert ln(a) <= ln(b);
      Quotient(ln(a), ln(b), ln(50.0));
      Quotient(ln(b), ln(b), ln(50.0));
      assert ln(a) < ln(50.0) <==> t < 49 by {
        if t > 49 { assert ln(50.0) < ln(a); }
      }
    } else if t' > 0 {
      var b := 1.0 + t' as real;
      assert ln(b) > 0.0;
      Quotient(ln(b), ln(b), ln(50.0));
    }
  }

  lemma AffectedGrows(g: Graph, g': Graph, file: string)
    requires Subgraph(g, g')
    ensures Affected(g, file) <= Affected(g', file)
  {
    forall y | y in Affected(g, file) ensures y in Affected(g', file) {
      var p :| ImporterPath(g, p) && p[0] == file && p[|p| - 1] == y;
      assert ImporterPath(g', p);
      assert Reaches(g', file, y);
      ReachedIsNode(g', file, y);
    }
  }

  /** Adding edges never lowers a file's transitive count or its score. */
  lemma MoreEdgesMoreImpact(ln: real -> real, g: Graph, g': Graph, file: string)
    requires Logarithm(ln) && Subgraph(g, g')
    ensures |Affected(g, file) - {file}| <= |Affected(g', file) - {file}|
    ensures Score(ln, |Affected(g, file) - {file}|) <= Score(ln, |Affected(g', file) - {file}|)
  {
    AffectedGrows(g, g', file);
    SubsetSize(Affected(g, file) - {file}, Affected(g', file) - {file});
    ScoreBounds(ln, |Affected(g, file) - {file}|, |Affected(g', file) - {file}|);
  }
}
