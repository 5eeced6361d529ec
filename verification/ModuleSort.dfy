/** Sorting a runtime's modules so that each comes after the modules it depends on. */
module ModuleSort {
  import opened Wrappers
  import opened Basics

  type Id = nat

  datatype Module = Module(id: Id, dependencies: seq<Id>)

  type Graph = map<Id, Module>

  datatype SortError = CyclicDependency(cycle: seq<Id>) | ModuleNotFound(id: Id) | DuplicateId(id: Id)

  // ----- what sorting should achieve

  ghost predicate Apart(modules: seq<Module>, i: nat, j: nat) {
    i < j < |modules| && modules[i].id != modules[j].id
  }

  ghost predicate Distinct(modules: seq<Module>) {
    forall i: nat, j: nat {:trigger Apart(modules, i, j)} :: i < j < |modules| ==> Apart(modules, i, j)
  }

  /** `d` is among the dependencies of `a`. */
  ghost predicate DependsOn(graph: Graph, a: Id, d: Id) {
    a in graph && d in graph[a].dependencies
  }

  /** Every dependency is a module. */
  ghost predicate Present(graph: Graph) {
    forall a, d {:trigger DependsOn(graph, a, d)} :: DependsOn(graph, a, d) ==> d in graph
  }

  ghost predicate Leads(graph: Graph, path: seq<Id>, i: nat) {
    i + 1 < |path| && DependsOn(graph, path[i], path[i + 1])
  }

  /** Each module on the path depends on the next. */
  ghost predicate Chain(graph: Graph, path: seq<Id>) {
    forall i: nat {:trigger Leads(graph, path, i)} :: i + 1 < |path| ==> Leads(graph, path, i)
  }

  /** Each module depends on the next, and the last on the first. */
  ghost predicate IsCycle(graph: Graph, cycle: seq<Id>) {
    cycle != [] && DependsOn(graph, cycle[|cycle| - 1], cycle[0]) && Chain(graph, cycle)
  }

  ghost predicate Acyclic(graph: Graph) {
    forall cycle :: !IsCycle(graph, cycle)
  }

  ghost predicate Precedes(sorted: seq<Module>, k: nat, d: Id) {
    exists i :: 0 <= i < k < |sorted| && sorted[i].id == d
  }

  /** Every module comes after all its dependencies. */
  ghost predicate DependenciesFirst(sorted: seq<Module>) {
    forall k, d {:trigger Precedes(sorted, k, d)} ::
      0 <= k < |sorted| && d in sorted[k].dependencies ==> Precedes(sorted, k, d)
  }

  /** The modules by id; a later one replaces an earlier one with the same id. */
  ghost function GraphOf(modules: seq<Module>): Graph {
    if modules == [] then map[]
    else var last := modules[|modules| - 1]; GraphOf(modules[..|modules| - 1])[last.id := last]
  }

  ghost function Ids(modules: seq<Module>): set<Id> {
    set m | m in modules :: m.id
  }

  /** Every module of the graph is one of these. */
  ghost predicate From(graph: Graph, modules: seq<Module>) {
    forall a :: a in graph ==> graph[a] in modules
  }

  ghost predicate Keyed(graph: Graph) {
    forall a :: a in graph ==> graph[a].id == a
  }

  lemma {:induction false} GraphHas(modules: seq<Module>)
    ensures GraphOf(modules).Keys == Ids(modules)
    ensures From(GraphOf(modules), modules) && Keyed(GraphOf(modules))
  {
    if modules != [] {
      var rest, last := modules[..|modules| - 1], modules[|modules| - 1];
      GraphHas(rest);
      assert modules == rest + [last];
      assert Ids(modules) == Ids(rest) + {last.id};
    }
  }

  lemma IdsStep(modules: seq<Module>, k: nat)
    requires k < |modules|
    ensures modules[k] in modules && modules[k].id in Ids(modules)
    ensures Ids(modules[..k + 1]) == Ids(modules[..k]) + {modules[k].id}
  {
    assert modules[..k + 1] == modules[..k] + [modules[k]];
  }

  /** With distinct ids, each module is the one found under its id. */
  lemma DistinctGraph(modules: seq<Module>, m: Module)
    requires Distinct(modules) && m in modules
    ensures m.id in GraphOf(modules) && GraphOf(modules)[m.id] == m
  {
    GraphHas(modules);
    assert m.id in Ids(modules);
    var g := GraphOf(modules)[m.id];
    var i :| 0 <= i < |modules| && modules[i] == m;
    var j :| 0 <= j < |modules| && modules[j] == g;
    assert i < j ==> Apart(modules, i, j);
    assert j < i ==> Apart(modules, j, i);
  }

  // ----- a sorted sequence rules cycles out

  ghost predicate Covers(sorted: seq<Module>, graph: Graph) {
    && (forall a :: a in graph ==> graph[a] in sorted)
    && (forall m :: m in sorted ==> m.id in graph && graph[m.id] == m)
  }

  /** Where in the order the module with this id is. */
  ghost function Rank(sorted: seq<Module>, graph: Graph, a: Id): nat
    requires Covers(sorted, graph) && a in graph
  {
    var i :| 0 <= i < |sorted| && sorted[i] == graph[a]; i
  }

  lemma RankFalls(sorted: seq<Module>, graph: Graph, a: Id, d: Id)
    requires Covers(sorted, graph) && DependenciesFirst(sorted) && Distinct(sorted) && DependsOn(graph, a, d)
    ensures d in graph && Rank(sorted, graph, d) < Rank(sorted, graph, a)
  {
    var k := Rank(sorted, graph, a);
    assert Precedes(sorted, k, d);
    var i :| 0 <= i < k && sorted[i].id == d;
    assert sorted[i] in sorted;
    var j := Rank(sorted, graph, d);
    assert i < j ==> Apart(sorted, i, j);
  }

  lemma {:induction false} RankFallsAlong(sorted: seq<Module>, graph: Graph, cycle: seq<Id>, n: nat)
    requires Covers(sorted, graph) && DependenciesFirst(sorted) && Distinct(sorted) && IsCycle(graph, cycle)
    requires n < |cycle|
    ensures cycle[0] in graph && cycle[n] in graph
    ensures Rank(sorted, graph, cycle[n]) <= Rank(sorted, graph, cycle[0])
  {
    if n == 0 {
      RankFalls(sorted, graph, cycle[|cycle| - 1], cycle[0]);
    } else {
      RankFallsAlong(sorted, graph, cycle, n - 1);
      assert Leads(graph, cycle, n - 1);
      RankFalls(sorted, graph, cycle[n - 1], cycle[n]);
    }
  }

  /** A graph whose modules can be put in order has no cycle, and misses no dependency. */
  lemma SortedMeansAcyclic(sorted: seq<Module>, graph: Graph)
    requires Covers(sorted, graph) && DependenciesFirst(sorted) && Distinct(sorted)
    ensures Present(graph) && Acyclic(graph)
  {
    forall a, d | DependsOn(graph, a, d) ensures d in graph {
      RankFalls(sorted, graph, a, d);
    }
    forall cycle ensures !IsCycle(graph, cycle) {
      if IsCycle(graph, cycle) {
        RankFallsAlong(sorted, graph, cycle, |cycle| - 1);
        RankFalls(sorted, graph, cycle[|cycle| - 1], cycle[0]);
      }
    }
  }

  // ----- the visitor

  /** Of a traversal: what was visited is either sorted (`done`) or on the current path, and never both; what is
      sorted comes after its dependencies. `first` holds the module each id was first visited as. */
  ghost predicate Traversed(graph: Graph, first: Graph, visited: set<Id>, path: seq<Id>, done: set<Id>,
                            sorted: seq<Module>)
  {
    && visited == first.Keys <= graph.Keys && visited == Elements(path) + done && Elements(path) !! done
    && Chain(first, path) && NoDuplicates(path) && Keyed(first)
    && SortedSoFar(first, done, sorted)
  }

  ghost predicate SortedSoFar(first: Graph, done: set<Id>, sorted: seq<Module>) {
    && done == Ids(sorted) && Distinct(sorted) && DependenciesFirst(sorted)
    && (forall m :: m in sorted ==> m.id in first && first[m.id] == m)
  }

  /** The next module to visit is one that the last on the path depends on. */
  ghost predicate Reached(first: Graph, path: seq<Id>, id: Id) {
    path == [] || DependsOn(first, path[|path| - 1], id)
  }

  /** Meeting a module of the current path again closes a cycle. */
  lemma ClosesCycle(first: Graph, path: seq<Id>, id: Id, k: nat)
    requires Chain(first, path) && Reached(first, path, id) && k < |path| && path[k] == id
    ensures IsCycle(first, path[k..])
  {
    forall i: nat | i + 1 < |path[k..]| ensures Leads(first, path[k..], i) {
      assert Leads(first, path, k + i);
    }
  }

  /** Entering a module that was not visited. */
  lemma Entered(graph: Graph, first: Graph, visited: set<Id>, path: seq<Id>, done: set<Id>, sorted: seq<Module>,
                m: Module)
    requires Traversed(graph, first, visited, path, done, sorted) && m.id in graph && m.id !in visited
    requires Reached(first, path, m.id)
    ensures Traversed(graph, first[m.id := m], visited + {m.id}, path + [m.id], done, sorted)
  {
    var path', first' := path + [m.id], first[m.id := m];
    assert Elements(path') == Elements(path) + {m.id};
    assert path'[..|path|] == path && m.id !in Elements(path);
    forall i: nat | i + 1 < |path'| ensures Leads(first', path', i) {
      if i + 1 < |path| {
        assert Leads(first, path, i);
      }
    }
  }

  /** Leaving a module whose dependencies are all sorted. */
  lemma Left(graph: Graph, first: Graph, visited: set<Id>, path: seq<Id>, done: set<Id>, sorted: seq<Module>, m: Module)
    requires Traversed(graph, first, visited, path + [m.id], done, sorted) && m.id in first && first[m.id] == m
    requires forall d :: d in m.dependencies ==> d in done
    ensures Traversed(graph, first, visited, path, done + {m.id}, sorted + [m])
  {
    var path' := path + [m.id];
    assert path'[..|path|] == path && path'[|path|] == m.id;
    assert Elements(path') == Elements(path) + {m.id};
    forall i: nat | i + 1 < |path| ensures Leads(first, path, i) {
      assert Leads(first, path', i);
    }
    OneMoreSorted(first, done, sorted, m);
  }

  lemma OneMoreSorted(first: Graph, done: set<Id>, sorted: seq<Module>, m: Module)
    requires SortedSoFar(first, done, sorted) && m.id in first && first[m.id] == m && m.id !in done
    requires forall d :: d in m.dependencies ==> d in done
    ensures SortedSoFar(first, done + {m.id}, sorted + [m])
  {
    var sorted' := sorted + [m];
    assert Ids(sorted') == Ids(sorted) + {m.id};
    forall i: nat, j: nat | i < j < |sorted'| ensures Apart(sorted', i, j) {
      if j < |sorted| {
        assert Apart(sorted, i, j);
      } else {
        assert sorted[i] in sorted;
      }
    }
    forall k, d | 0 <= k < |sorted'| && d in sorted'[k].dependencies ensures Precedes(sorted', k, d) {
      if k < |sorted| {
        assert Precedes(sorted, k, d);
        var i :| 0 <= i < k && sorted[i].id == d;
        assert sorted'[i].id == d;
      } else {
        var x :| x in sorted && x.id == d;
        var i :| 0 <= i < |sorted| && sorted[i] == x;
        assert sorted'[i].id == d;
      }
    }
  }

  /** What an error of the visitor tells: a genuine cycle, or a dependency that is no module. */
  ghost predicate Genuine(graph: Graph, first: Graph, e: SortError) {
    match e
    case CyclicDependency(cycle) => IsCycle(first, cycle)
    case ModuleNotFound(d) => d !in graph && exists a :: DependsOn(first, a, d)
    case DuplicateId(_) => false
  }

  /** Modules are recorded once, when first visited: the one asked for, or those found in the graph. */
  ghost predicate Grows(graph: Graph, m: Module, before: Graph, first: Graph) {
    && (forall a :: a in before ==> a in first && first[a] == before[a])
    && (forall a :: a in first && a !in before ==> (a == m.id && first[a] == m) || (a in graph && first[a] == graph[a]))
  }

  lemma GrowsEntered(graph: Graph, m: Module, before: Graph, first: Graph)
    requires Grows(graph, m, before[m.id := m], first) && m.id !in before
    ensures Grows(graph, m, before, first)
  {
  }

  lemma GrowsWithin(graph: Graph, m: Module, before: Graph, first: Graph, modules: seq<Module>)
    requires Grows(graph, m, before, first) && m in modules
    requires From(before, modules) && From(graph, modules)
    ensures From(first, modules)
  {
  }

  lemma GrowsKeyed(graph: Graph, m: Module, before: Graph, first: Graph)
    requires Grows(graph, m, before, first) && Keyed(before) && Keyed(graph)
    ensures Keyed(first)
  {
  }

  /** What a dependency's visit adds is found in the graph. */
  lemma GrowsFurther(graph: Graph, m: Module, d: Id, start: Graph, before: Graph, first: Graph)
    requires Grows(graph, m, start, before) && d in graph && Keyed(graph) && Grows(graph, graph[d], before, first)
    ensures Grows(graph, m, start, first)
  {
  }

  class ModuleVisitor {
    var visited: set<Id>
    var visitedOnThisPath: seq<Id>
    var sortedModules: seq<Module>
    ghost var first: Graph
    ghost var done: set<Id>

    ghost predicate Sound(graph: Graph)
      reads this
    {
      Traversed(graph, first, visited, visitedOnThisPath, done, sortedModules)
    }

    constructor ()
      ensures visitedOnThisPath == [] && first == map[] && forall graph :: Sound(graph)
    {
      visited, visitedOnThisPath, sortedModules, first, done := {}, [], [], map[], {};
    }

    /** The first position of `id` on the current path. */
    method FindOnPath(id: Id) returns (r: Option<nat>)
      ensures r.Some? ==> r.value < |visitedOnThisPath| && visitedOnThisPath[r.value] == id
      ensures r.None? ==> id !in visitedOnThisPath
    {
      var k := 0;
      while k < |visitedOnThisPath|
        invariant 0 <= k <= |visitedOnThisPath| && id !in visitedOnThisPath[..k]
      {
        if visitedOnThisPath[k] == id {
          return Some(k);
        }
        k := k + 1;
      }
      return None;
    }

    /** Visits a module and what it depends on. */
    method VisitModule(m: Module, graph: Graph) returns (r: Result<(), SortError>)
      requires Sound(graph) && m.id in graph && Reached(first, visitedOnThisPath, m.id) && Keyed(graph)
      modifies this
      ensures Grows(graph, m, old(first), first)
      ensures r.Ok? ==> Sound(graph) && visitedOnThisPath == old(visitedOnThisPath) && m.id in done
      ensures r.Ok? ==> old(done) <= done && old(visited) <= visited
      ensures r.Err? ==> Genuine(graph, first, r.error)
      decreases graph.Keys - visited, 1
    {
      var found := FindOnPath(m.id);
      if found.Some? {
        ClosesCycle(first, visitedOnThisPath, m.id, found.value);
        return Err(CyclicDependency(visitedOnThisPath[found.value..]));
      }
      ghost var path := visitedOnThisPath;
      visitedOnThisPath := visitedOnThisPath + [m.id];
      if m.id !in visited {
        r := Explore(m, graph, path);
        if r.Err? {
          return;
        }
      }
      visitedOnThisPath := visitedOnThisPath[..|visitedOnThisPath| - 1];
      assert visitedOnThisPath == path;
      return Ok(());
    }

    /** Visits the dependencies of a new module, and sorts it after them. */
    method Explore(m: Module, graph: Graph, ghost path: seq<Id>) returns (r: Result<(), SortError>)
      requires Traversed(graph, first, visited, path, done, sortedModules) && visitedOnThisPath == path + [m.id]
      requires m.id in graph && m.id !in visited && Reached(first, path, m.id) && Keyed(graph)
      modifies this
      ensures Grows(graph, m, old(first), first)
      ensures r.Ok? ==> Traversed(graph, first, visited, path, done, sortedModules) && m.id in done
      ensures r.Ok? ==> visitedOnThisPath == path + [m.id] && old(done) <= done && old(visited) <= visited
      ensures r.Err? ==> Genuine(graph, first, r.error)
      decreases graph.Keys - visited, 0
    {
      Entered(graph, first, visited, path, done, sortedModules, m);
      visited, first := visited + {m.id}, first[m.id := m];
      r := VisitDependencies(m, graph);
      GrowsEntered(graph, m, old(first), first);
      if r.Ok? {
        Left(graph, first, visited, path, done, sortedModules, m);
        sortedModules, done := sortedModules + [m], done + {m.id};
      }
    }

    method VisitDependencies(m: Module, graph: Graph) returns (r: Result<(), SortError>)
      requires Sound(graph) && Keyed(graph) && m.id in first && first[m.id] == m
      requires visitedOnThisPath != [] && visitedOnThisPath[|visitedOnThisPath| - 1] == m.id
      modifies this
      ensures Grows(graph, m, old(first), first)
      ensures r.Ok? ==> Sound(graph) && visitedOnThisPath == old(visitedOnThisPath)
      ensures r.Ok? ==> old(done) <= done && old(visited) <= visited
      ensures r.Ok? ==> forall d :: d in m.dependencies ==> d in done
      ensures r.Err? ==> Genuine(graph, first, r.error)
      decreases graph.Keys - visited, 2
    {
      var k := 0;
      while k < |m.dependencies|
        invariant 0 <= k <= |m.dependencies| && Sound(graph) && visitedOnThisPath == old(visitedOnThisPath)
        invariant Grows(graph, m, old(first), first) && old(visited) <= visited
        invariant old(done) <= done
        invariant forall j :: 0 <= j < k ==> m.dependencies[j] in done
      {
        var d := m.dependencies[k];
        assert DependsOn(first, m.id, d);
        if d !in graph {
          return Err(ModuleNotFound(d));
        }
        ghost var before := first;
        r := VisitModule(graph[d], graph);
        GrowsFurther(graph, m, d, old(first), before, first);
        if r.Err? {
          return;
        }
        k := k + 1;
      }
      return Ok(());
    }

    /** Visits all modules. */
    method VisitModules(modules: seq<Module>) returns (r: Result<(), SortError>)
      requires visitedOnThisPath == [] && first == map[] && Sound(GraphOf(modules))
      modifies this
      ensures Keyed(first) && From(first, modules)
      ensures r.Ok? ==> Sound(GraphOf(modules)) && done == Ids(modules)
      ensures r.Err? ==> Genuine(GraphOf(modules), first, r.error)
    {
      var graph := MapOf(modules);
      GraphHas(modules);
      r := VisitEach(modules, graph);
    }

    method VisitEach(modules: seq<Module>, graph: Graph) returns (r: Result<(), SortError>)
      requires Sound(graph) && visitedOnThisPath == [] && From(first, modules)
      requires Keyed(graph) && From(graph, modules) && Ids(modules) == graph.Keys
      modifies this
      ensures Keyed(first) && From(first, modules)
      ensures r.Ok? ==> Sound(graph) && done == Ids(modules)
      ensures r.Err? ==> Genuine(graph, first, r.error)
    {
      var k := 0;
      while k < |modules|
        invariant 0 <= k <= |modules| && Sound(graph) && visitedOnThisPath == []
        invariant From(first, modules) && Ids(modules[..k]) <= done
      {
        visitedOnThisPath := [];
        IdsStep(modules, k);
        ghost var before := first;
        r := VisitModule(modules[k], graph);
        GrowsWithin(graph, modules[k], before, first, modules);
        GrowsKeyed(graph, modules[k], before, first);
        if r.Err? {
          return;
        }
        k := k + 1;
      }
      assert modules[..k] == modules;
      return Ok(());
    }
  }

  method MapOf(modules: seq<Module>) returns (graph: Graph)
    ensures graph == GraphOf(modules)
  {
    graph := map[];
    var k := 0;
    while k < |modules|
      invariant 0 <= k <= |modules| && graph == GraphOf(modules[..k])
    {
      assert modules[..k + 1][..k] == modules[..k];
      graph := graph[modules[k].id := modules[k]];
      k := k + 1;
    }
    assert modules[..k] == modules;
  }

  // ----- sorting

  lemma FirstIsGraph(modules: seq<Module>, first: Graph)
    requires Distinct(modules) && Keyed(first) && From(first, modules)
    ensures forall a :: a in first ==> a in GraphOf(modules) && GraphOf(modules)[a] == first[a]
  {
    forall a | a in first ensures a in GraphOf(modules) && GraphOf(modules)[a] == first[a] {
      DistinctGraph(modules, first[a]);
    }
  }

  /** A genuine error of the traversal shows that the modules cannot be sorted. */
  lemma GenuineMeansUnsortable(graph: Graph, first: Graph, e: SortError)
    requires Genuine(graph, first, e) && forall a :: a in first ==> a in graph && graph[a] == first[a]
    ensures !(Present(graph) && Acyclic(graph))
    ensures e.CyclicDependency? ==> IsCycle(graph, e.cycle)
    ensures e.ModuleNotFound? ==> e.id !in graph && exists a :: DependsOn(graph, a, e.id)
  {
    match e {
      case CyclicDependency(cycle) =>
        forall i: nat | i + 1 < |cycle| ensures Leads(graph, cycle, i) {
          assert Leads(first, cycle, i);
        }
        assert IsCycle(graph, cycle);
      case ModuleNotFound(d) =>
        var a :| DependsOn(first, a, d);
        assert DependsOn(graph, a, d);
    }
  }

  /** A finished traversal has sorted exactly the modules. */
  lemma FinishedCovers(modules: seq<Module>, first: Graph, done: set<Id>, sorted: seq<Module>)
    requires Distinct(modules) && Keyed(first) && From(first, modules)
    requires SortedSoFar(first, done, sorted) && done == Ids(modules)
    ensures Covers(sorted, GraphOf(modules)) && multiset(sorted) == multiset(modules)
  {
    var graph := GraphOf(modules);
    GraphHas(modules);
    FirstIsGraph(modules, first);
    forall a | a in graph ensures graph[a] in sorted {
      var m :| m in sorted && m.id == a;
    }
    forall m ensures m in sorted <==> m in modules {
      if m in modules {
        DistinctGraph(modules, m);
      }
    }
    forall m ensures multiset(sorted)[m] == multiset(modules)[m] {
      if m in sorted {
        DistinctOnce(sorted, m);
        DistinctOnce(modules, m);
      } else {
        assert m !in multiset(sorted) && m !in multiset(modules);
      }
    }
  }

  lemma {:induction false} DistinctOnce(modules: seq<Module>, m: Module)
    requires Distinct(modules) && m in modules
    ensures multiset(modules)[m] == 1
  {
    var n := |modules| - 1;
    var rest := modules[..n];
    assert modules == rest + [modules[n]];
    forall i: nat, j: nat | i < j < n ensures Apart(rest, i, j) {
      assert Apart(modules, i, j);
    }
    if m == modules[n] {
      forall i | 0 <= i < n ensures rest[i] != m {
        assert Apart(modules, i, n);
      }
      assert m !in rest && m !in multiset(rest);
    } else {
      DistinctOnce(rest, m);
    }
  }

  /** What the sort owes for modules with distinct ids: it succeeds exactly if every dependency is there and none is
      cyclic. On success the result is the modules, each after its dependencies; an error names a genuine cycle or
      a missing module. */
  ghost predicate SortOf(modules: seq<Module>, r: Result<seq<Module>, SortError>) {
    var graph := GraphOf(modules);
    && (r.Ok? <==> Present(graph) && Acyclic(graph))
    && (r.Ok? ==> multiset(r.value) == multiset(modules) && Distinct(r.value) && DependenciesFirst(r.value))
    && (r.Err? ==>
          match r.error
          case CyclicDependency(cycle) => IsCycle(graph, cycle)
          case ModuleNotFound(d) => d !in graph && exists a :: DependsOn(graph, a, d)
          case DuplicateId(_) => false)
  }

  method SortModulesByDependencies(modules: seq<Module>) returns (r: Result<seq<Module>, SortError>)
    ensures Distinct(modules) ==> SortOf(modules, r)
    ensures r.Ok? ==> Ids(r.value) == Ids(modules)
  {
    var visitor := new ModuleVisitor();
    var visit := visitor.VisitModules(modules);
    if visit.Err? {
      if Distinct(modules) {
        FirstIsGraph(modules, visitor.first);
        GenuineMeansUnsortable(GraphOf(modules), visitor.first, visit.error);
      }
      return Err(visit.error);
    }
    if Distinct(modules) {
      FinishedCovers(modules, visitor.first, visitor.done, visitor.sortedModules);
      SortedMeansAcyclic(visitor.sortedModules, GraphOf(modules));
    }
    return Ok(visitor.sortedModules);
  }

  ghost function ModulesOf<V>(tuples: seq<(Module, V)>): (r: seq<Module>)
    ensures |r| == |tuples| && forall i :: 0 <= i < |r| ==> r[i] == tuples[i].0
  {
    seq(|tuples|, i requires 0 <= i < |tuples| => tuples[i].0)
  }

  /** The values under the ids of their modules, unless an id occurs twice. */
  method ValueMap<V>(tuples: seq<(Module, V)>) returns (r: Result<map<Id, V>, SortError>)
    ensures r.Ok? <==> Distinct(ModulesOf(tuples))
    ensures r.Ok? ==>
              forall j :: 0 <= j < |tuples| ==> tuples[j].0.id in r.value && r.value[tuples[j].0.id] == tuples[j].1
    ensures r.Err? ==> r.error.DuplicateId?
  {
    ghost var modules := ModulesOf(tuples);
    var values: map<Id, V> := map[];
    var k := 0;
    while k < |tuples|
      invariant 0 <= k <= |tuples| && Distinct(modules[..k])
      invariant forall j :: 0 <= j < k ==> tuples[j].0.id in values && values[tuples[j].0.id] == tuples[j].1
      invariant forall a :: a in values ==> exists j :: 0 <= j < k && tuples[j].0.id == a
    {
      var (m, v) := tuples[k];
      if m.id in values {
        ghost var j :| 0 <= j < k && tuples[j].0.id == m.id;
        assert !Apart(modules, j, k);
        return Err(DuplicateId(m.id));
      }
      OneMoreApart(modules, k);
      values := values[m.id := v];
      k := k + 1;
    }
    assert modules[..k] == modules;
    return Ok(values);
  }

  lemma OneMoreApart(modules: seq<Module>, k: nat)
    requires k < |modules| && Distinct(modules[..k]) && forall j :: 0 <= j < k ==> modules[j].id != modules[k].id
    ensures Distinct(modules[..k + 1])
  {
    var more := modules[..k + 1];
    forall i: nat, j: nat | i < j < |more| ensures Apart(more, i, j) {
      if j < k {
        assert Apart(modules[..k], i, j);
      }
    }
  }

  /** Succeeds exactly if ids are distinct, every dependency is there and none is cyclic; then each module's value
      comes after the values of its dependencies. */
  method SortValuesByModulesDependencies<V>(tuples: seq<(Module, V)>)
    returns (r: Result<seq<V>, SortError>, ghost order: seq<Module>)
    ensures var modules := ModulesOf(tuples); var graph := GraphOf(modules);
            && (r.Ok? <==> Distinct(modules) && Present(graph) && Acyclic(graph))
            && (r.Ok? ==> multiset(order) == multiset(modules) && DependenciesFirst(order) && |r.value| == |order|
                          && forall k :: 0 <= k < |order| ==> (order[k], r.value[k]) in tuples)
  {
    order := [];
    var modules := seq(|tuples|, i requires 0 <= i < |tuples| => tuples[i].0);
    assert modules == ModulesOf(tuples);
    var sorted := SortModulesByDependencies(modules);
    if sorted.Err? {
      return Err(sorted.error), order;
    }
    order := sorted.value;
    var found := ValueMap(tuples);
    if found.Err? {
      return Err(found.error), order;
    }
    var values: seq<V> := [];
    var k := 0;
    while k < |sorted.value|
      invariant 0 <= k <= |sorted.value| && |values| == k
      invariant forall j :: 0 <= j < k ==> (order[j], values[j]) in tuples
    {
      var m := sorted.value[k];
      ValueOf(tuples, order, k);
      values := values + [found.value[m.id]];
      k := k + 1;
    }
    return Ok(values), order;
  }

  /** A sorted module is one of the tuples. */
  lemma ValueOf<V>(tuples: seq<(Module, V)>, order: seq<Module>, k: nat)
    requires k < |order| && multiset(order) == multiset(ModulesOf(tuples))
    ensures exists j :: 0 <= j < |tuples| && tuples[j].0 == order[k]
  {
    assert order[k] in multiset(order);
    assert order[k] in ModulesOf(tuples);
    var j :| 0 <= j < |tuples| && ModulesOf(tuples)[j] == order[k];
    assert tuples[j].0 == order[k];
  }
}
