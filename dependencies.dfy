/** The specification of `AgentRun.parse_dependencies`: the top segments of
    imported modules that are neither standard-library nor built-in modules.
    `known` stands for `sys.stdlib_module_names` together with
    `sys.builtin_module_names`. */
module Dependencies {
  import opened Python
  import opened Syntax

  /** What the source appends for the aliases of one `import` statement. */
  function AliasRoots(names: seq<string>, known: set<string>): seq<string> {
    if names == [] then []
    else
      var root := TopSegment(names[|names| - 1]);
      AliasRoots(names[..|names| - 1], known) + (if root !in known then [root] else [])
  }

  /** What the source appends for one node: `from M import ...` contributes the
      top segment of M when it is non-empty, never the imported names. */
  function Contribution(n: Node, known: set<string>): seq<string> {
    match n
    case Import(names) => AliasRoots(names, known)
    case ImportFrom(fromModule, _) =>
      var root := if fromModule.Some? then TopSegment(fromModule.value) else "";
      if root != "" && root !in known then [root] else []
    case _ => []
  }

  /** The `dependencies` list before duplicates are removed. */
  function Collected(nodes: seq<Node>, known: set<string>): seq<string> {
    if nodes == [] then []
    else Collected(nodes[..|nodes| - 1], known) + Contribution(nodes[|nodes| - 1], known)
  }

  /** The list `parse_dependencies` returns (up to order). */
  function DependencyList(nodes: seq<Node>, known: set<string>): seq<string> {
    Dedup(Collected(nodes, known))
  }

  /** Node `n` imports a module whose top segment is `d`. */
  predicate ImportsRoot(n: Node, d: string) {
    match n
    case Import(names) => exists a :: a in names && TopSegment(a) == d
    case ImportFrom(fromModule, _) => fromModule.Some? && d != "" && TopSegment(fromModule.value) == d
    case _ => false
  }

  /** The declarative meaning: `d` is a dependency of the walked tree. */
  ghost predicate IsDependency(nodes: seq<Node>, known: set<string>, d: string) {
    d !in known && exists i :: 0 <= i < |nodes| && ImportsRoot(nodes[i], d)
  }

  /** The aliases loop appends at most one root per alias. */
  lemma AliasRootsGrow(names: seq<string>, j: nat, known: set<string>)
    requires j < |names|
    ensures AliasRoots(names[..j + 1], known)
            == AliasRoots(names[..j], known) + (if TopSegment(names[j]) !in known then [TopSegment(names[j])] else [])
  {
    assert names[..j + 1][..j] == names[..j];
  }

  /** The nodes loop appends each node's contribution. */
  lemma CollectedGrow(nodes: seq<Node>, i: nat, known: set<string>)
    requires i < |nodes|
    ensures Collected(nodes[..i + 1], known) == Collected(nodes[..i], known) + Contribution(nodes[i], known)
  {
    assert nodes[..i + 1][..i] == nodes[..i];
  }

  /** Nodes that contribute nothing, at the end of the walk, leave the collected list as it was. */
  lemma {:induction false} CollectedIgnoresSilentTail(nodes: seq<Node>, n: nat, known: set<string>)
    requires n <= |nodes|
    requires forall i :: n <= i < |nodes| ==> Contribution(nodes[i], known) == []
    ensures Collected(nodes, known) == Collected(nodes[..n], known)
  {
    if n == |nodes| {
      assert nodes[..n] == nodes;
    } else {
      var init := nodes[..|nodes| - 1];
      assert init[..n] == nodes[..n];
      assert forall i :: n <= i < |init| ==> init[i] == nodes[i];
      CollectedIgnoresSilentTail(init, n, known);
      assert Collected(nodes, known) == Collected(init, known) + [];
    }
  }

  lemma AliasRootsOne(name: string, known: set<string>)
    ensures AliasRoots([name], known) == if TopSegment(name) !in known then [TopSegment(name)] else []
  {
    assert [name][..0] == [];
  }

  /** `import name` for an undotted name contributes it unless it is known. */
  lemma ImportOneContribution(name: string, known: set<string>)
    requires '.' !in name
    ensures Contribution(Import([name]), known) == if name in known then [] else [name]
  {
    TopSegmentOfUndotted(name);
    AliasRootsOne(name, known);
  }

  lemma {:induction false} AliasRootsMembers(names: seq<string>, known: set<string>, d: string)
    ensures d in AliasRoots(names, known) <==> d !in known && exists a :: a in names && TopSegment(a) == d
  {
    if names != [] {
      var init := names[..|names| - 1];
      var last := names[|names| - 1];
      AliasRootsMembers(init, known, d);
      assert forall a :: a in names <==> a in init || a == last;
      if d !in known && TopSegment(last) == d {
        assert d in AliasRoots(names, known);
      }
      if d in AliasRoots(names, known) && d !in AliasRoots(init, known) {
        assert d == TopSegment(last) && last in names;
      }
    }
  }

  lemma ContributionMembers(n: Node, known: set<string>, d: string)
    ensures d in Contribution(n, known) <==> d !in known && ImportsRoot(n, d)
  {
    if n.Import? {
      AliasRootsMembers(n.names, known, d);
    }
  }

  /** Every element of the collected list is a dependency, and every dependency is collected. */
  lemma {:induction false} CollectedMembers(nodes: seq<Node>, known: set<string>, d: string)
    ensures d in Collected(nodes, known) <==> IsDependency(nodes, known, d)
  {
    if nodes != [] {
      var init := nodes[..|nodes| - 1];
      var last := nodes[|nodes| - 1];
      CollectedMembers(init, known, d);
      ContributionMembers(last, known, d);
      if IsDependency(nodes, known, d) {
        var i :| 0 <= i < |nodes| && ImportsRoot(nodes[i], d);
        if i < |nodes| - 1 {
          assert init[i] == nodes[i];
        }
      }
      if IsDependency(init, known, d) {
        var i :| 0 <= i < |init| && ImportsRoot(init[i], d);
        assert nodes[i] == init[i];
      }
    }
  }

  /** The result of `parse_dependencies` has no duplicates and holds exactly the
      dependencies of the tree. */
  lemma DependencyListMeaning(nodes: seq<Node>, known: set<string>)
    ensures NoDuplicates(DependencyList(nodes, known))
    ensures forall d :: d in DependencyList(nodes, known) <==> IsDependency(nodes, known, d)
  {
    forall d ensures d in DependencyList(nodes, known) <==> IsDependency(nodes, known, d) {
      CollectedMembers(nodes, known, d);
    }
  }

  /** A dependency never contains a dot and is never a known module. */
  lemma DependencyShape(nodes: seq<Node>, known: set<string>, d: string)
    requires d in DependencyList(nodes, known)
    ensures '.' !in d && d !in known
  {
    DependencyListMeaning(nodes, known);
    var i :| 0 <= i < |nodes| && ImportsRoot(nodes[i], d);
    match nodes[i]
    case Import(names) =>
      var a :| a in names && TopSegment(a) == d;
    case ImportFrom(fromModule, _) =>
  }

  /** The aliases of a `from M import ...` statement never contribute: replacing
      them changes nothing. */
  lemma FromAliasesNeverContribute(nodes: seq<Node>, known: set<string>, i: nat, names: seq<string>)
    requires i < |nodes| && nodes[i].ImportFrom?
    ensures DependencyList(nodes[i := ImportFrom(nodes[i].fromModule, names)], known) == DependencyList(nodes, known)
  {
    var nodes' := nodes[i := ImportFrom(nodes[i].fromModule, names)];
    assert forall j :: 0 <= j < |nodes| ==> Contribution(nodes'[j], known) == Contribution(nodes[j], known);
    CollectedPointwise(nodes', nodes, known);
  }

  lemma {:induction false} CollectedPointwise(xs: seq<Node>, ys: seq<Node>, known: set<string>)
    requires |xs| == |ys|
    requires forall j :: 0 <= j < |xs| ==> Contribution(xs[j], known) == Contribution(ys[j], known)
    ensures Collected(xs, known) == Collected(ys, known)
  {
    if xs != [] {
      CollectedPointwise(xs[..|xs| - 1], ys[..|ys| - 1], known);
    }
  }

  /** The walk order does not matter: any reordering of the nodes yields the
      same dependencies. */
  lemma OrderIndependent(xs: seq<Node>, ys: seq<Node>, known: set<string>)
    requires multiset(xs) == multiset(ys)
    ensures forall d :: d in DependencyList(xs, known) <==> d in DependencyList(ys, known)
  {
    DependencyListMeaning(xs, known);
    DependencyListMeaning(ys, known);
    forall d ensures IsDependency(xs, known, d) <==> IsDependency(ys, known, d) {
      if IsDependency(xs, known, d) {
        var i :| 0 <= i < |xs| && ImportsRoot(xs[i], d);
        assert xs[i] in multiset(ys);
        var j :| 0 <= j < |ys| && ys[j] == xs[i];
      }
      if IsDependency(ys, known, d) {
        var i :| 0 <= i < |ys| && ImportsRoot(ys[i], d);
        assert ys[i] in multiset(xs);
        var j :| 0 <= j < |xs| && xs[j] == ys[i];
      }
    }
  }

  /** `import sys` then `import numpy as np` yields only numpy. */
  lemma NumpyExample(known: set<string>)
    requires "sys" in known && "numpy" !in known
    ensures DependencyList([Import(["sys"]), Import(["numpy"])], known) == ["numpy"]
  {
    SysNumpyCollected(known);
    DedupOne("numpy");
  }

  lemma SysNumpyCollected(known: set<string>)
    requires "sys" in known && "numpy" !in known
    ensures Collected([Import(["sys"]), Import(["numpy"])], known) == ["numpy"]
  {
    var nodes := [Import(["sys"]), Import(["numpy"])];
    ImportOneContribution("sys", known);
    ImportOneContribution("numpy", known);
    assert nodes[..0] == [] && nodes[0] == Import(["sys"]);
    CollectedGrow(nodes, 0, known);
    assert Collected(nodes[..1], known) == [];
    assert nodes[..2] == nodes && nodes[1] == Import(["numpy"]);
    CollectedGrow(nodes, 1, known);
  }

  /** `from scipy.optimize import minimize` yields scipy. */
  lemma ScipyExample(known: set<string>)
    requires "scipy" !in known
    ensures DependencyList([ImportFrom(Some("scipy.optimize"), ["minimize"])], known) == ["scipy"]
  {
    var nodes := [ImportFrom(Some("scipy.optimize"), ["minimize"])];
    ScipyContribution(known);
    CollectedGrow(nodes, 0, known);
    assert nodes[..0] == [] && nodes[..1] == nodes;
    DedupOne("scipy");
  }

  lemma ScipyContribution(known: set<string>)
    requires "scipy" !in known
    ensures Contribution(ImportFrom(Some("scipy.optimize"), ["minimize"]), known) == ["scipy"]
  {
    assert "scipy.optimize" == "scipy" + "." + "optimize";
    TopSegmentOfDotted("scipy", "optimize");
  }
}
