/**
 The worklist that finds which packages the native bridge ships: everything reachable from its root
 without following development-only dependencies. The resolve graph may have cycles, repeated edges
 and references to packages it does not list.
 */
module SbomReachability {
  datatype PackageId = PackageId(text: string)

  /** The kind of a dependency edge; a null kind is an ordinary dependency. */
  datatype Kind = Normal | Build | Dev

  datatype Kinds = NotGiven | Given(kinds: seq<Kind>)

  datatype Dependency = Dependency(pkg: PackageId, kinds: Kinds)

  type Graph = map<PackageId, seq<Dependency>>

  /** Development-only means: kinds are given, there are some, and all of them are `Dev`. */
  predicate IsProduction(dependency: Dependency) {
    match dependency.kinds
    case NotGiven => true
    case Given(kinds) => kinds == [] || exists i :: 0 <= i < |kinds| && kinds[i] != Dev
  }

  function Production(dependencies: seq<Dependency>): seq<Dependency> {
    if dependencies == [] then [] else
    var front, last := Production(dependencies[..|dependencies| - 1]), dependencies[|dependencies| - 1];
    if IsProduction(last) then front + [last] else front
  }

  lemma {:induction false} ProductionMembers(dependencies: seq<Dependency>)
    ensures forall d :: d in Production(dependencies) <==> d in dependencies && IsProduction(d)
  {
    if dependencies != [] {
      ProductionMembers(dependencies[..|dependencies| - 1]);
      assert dependencies == dependencies[..|dependencies| - 1] + [dependencies[|dependencies| - 1]];
    }
  }

  function DependenciesOf(graph: Graph, id: PackageId): seq<Dependency> {
    if id in graph then graph[id] else []
  }

  /** `b` is a production dependency of `a`. */
  predicate Needs(graph: Graph, a: PackageId, b: PackageId) {
    exists d :: d in DependenciesOf(graph, a) && d.pkg == b && IsProduction(d)
  }

  ghost predicate Closed(graph: Graph, packages: set<PackageId>) {
    forall a, b :: a in packages && Needs(graph, a, b) ==> b in packages
  }

  /** The packages a graph can mention at all. */
  function Universe(graph: Graph, root: PackageId): set<PackageId> {
    {root} + graph.Keys + (set id, d | id in graph && d in graph[id] :: d.pkg)
  }

  function Unvisited(graph: Graph, root: PackageId, reachable: set<PackageId>): nat {
    |Universe(graph, root) - reachable|
  }

  lemma NeedsInUniverse(graph: Graph, root: PackageId, a: PackageId, b: PackageId)
    requires Needs(graph, a, b)
    ensures b in Universe(graph, root)
  {
  }

  // ---------------------------------------------------------------- paths

  ghost predicate IsPath(graph: Graph, path: seq<PackageId>) {
    forall i :: 0 < i < |path| ==> Needs(graph, path[i - 1], path[i])
  }

  ghost predicate Reaches(graph: Graph, root: PackageId, id: PackageId) {
    exists path :: path != [] && path[0] == root && path[|path| - 1] == id && IsPath(graph, path)
  }

  lemma ReachesStep(graph: Graph, root: PackageId, a: PackageId, b: PackageId)
    requires Reaches(graph, root, a) && Needs(graph, a, b)
    ensures Reaches(graph, root, b)
  {
    var path :| path != [] && path[0] == root && path[|path| - 1] == a && IsPath(graph, path);
    var longer := path + [b];
    assert longer[0] == root && longer[|longer| - 1] == b && IsPath(graph, longer);
  }

  /** A closed set that holds the root holds everything on a path from it. */
  lemma {:induction false} ClosedHoldsPaths(graph: Graph, packages: set<PackageId>, path: seq<PackageId>)
    requires Closed(graph, packages) && path != [] && path[0] in packages && IsPath(graph, path)
    ensures path[|path| - 1] in packages
  {
    if |path| > 1 {
      ClosedHoldsPaths(graph, packages, path[..|path| - 1]);
      assert Needs(graph, path[|path| - 2], path[|path| - 1]);
    }
  }

  /** Being the set of everything reachable is the same as being the least closed set with the root. */
  lemma ReachableIsLeastClosed(graph: Graph, root: PackageId, packages: set<PackageId>)
    requires forall id :: id in packages <==> Reaches(graph, root, id)
    ensures root in packages && Closed(graph, packages)
    ensures forall other :: root in other && Closed(graph, other) ==> packages <= other
  {
    assert [root][0] == root && IsPath(graph, [root]);
    forall a, b | a in packages && Needs(graph, a, b)
      ensures b in packages
    {
      ReachesStep(graph, root, a, b);
    }
    forall other | root in other && Closed(graph, other)
      ensures packages <= other
    {
      forall id | id in packages
        ensures id in other
      {
        var path :| path != [] && path[0] == root && path[|path| - 1] == id && IsPath(graph, path);
        ClosedHoldsPaths(graph, other, path);
      }
    }
  }

  // ---------------------------------------------------------------- the worklist

  /** Every dependency of a visited package is visited or waits to be. */
  ghost predicate Covered(graph: Graph, reachable: set<PackageId>, pending: seq<PackageId>) {
    forall a, b :: a in reachable && Needs(graph, a, b) ==> b in reachable || b in pending
  }

  /** Whatever is visited or waits is reached by the root, and the root is among it. */
  ghost predicate Sound(graph: Graph, root: PackageId, reachable: set<PackageId>, pending: seq<PackageId>) {
    && (root in reachable || root in pending)
    && forall id :: id in reachable || id in pending ==> id in Universe(graph, root) && Reaches(graph, root, id)
  }

  lemma StartIsSound(graph: Graph, root: PackageId)
    ensures Sound(graph, root, {}, [root]) && Covered(graph, {}, [root])
  {
    assert [root][0] == root && IsPath(graph, [root]);
  }

  lemma SkippingKeeps(graph: Graph, root: PackageId, reachable: set<PackageId>, rest: seq<PackageId>, id: PackageId)
    requires Sound(graph, root, reachable, rest + [id]) && Covered(graph, reachable, rest + [id]) && id in reachable
    ensures Sound(graph, root, reachable, rest) && Covered(graph, reachable, rest)
  {
    assert forall x :: x in rest ==> x in rest + [id];
  }

  lemma VisitingKeeps(
    graph: Graph, root: PackageId, reachable: set<PackageId>, rest: seq<PackageId>, id: PackageId, pushed: seq<PackageId>)
    requires Sound(graph, root, reachable, rest + [id]) && Covered(graph, reachable, rest + [id]) && id !in reachable
    requires forall b :: b in pushed <==> b in rest || Needs(graph, id, b)
    ensures Sound(graph, root, reachable + {id}, pushed) && Covered(graph, reachable + {id}, pushed)
    ensures Unvisited(graph, root, reachable + {id}) < Unvisited(graph, root, reachable)
  {
    assert id in rest + [id] && forall x :: x in rest ==> x in rest + [id];
    forall b | Needs(graph, id, b)
      ensures b in Universe(graph, root) && Reaches(graph, root, b)
    {
      NeedsInUniverse(graph, root, id, b);
      ReachesStep(graph, root, id, b);
    }
    var universe := Universe(graph, root);
    assert id in universe - reachable && id !in universe - (reachable + {id});
    SmallerSet(universe - (reachable + {id}), universe - reachable);
  }

  lemma FinishedIsReachable(graph: Graph, root: PackageId, reachable: set<PackageId>)
    requires Sound(graph, root, reachable, []) && Covered(graph, reachable, [])
    ensures forall id :: id in reachable <==> Reaches(graph, root, id)
  {
    forall id | Reaches(graph, root, id)
      ensures id in reachable
    {
      var path :| path != [] && path[0] == root && path[|path| - 1] == id && IsPath(graph, path);
      ClosedHoldsPaths(graph, reachable, path);
    }
  }

  method PushDependencies(graph: Graph, id: PackageId, pending: seq<PackageId>) returns (pushed: seq<PackageId>)
    ensures |pushed| >= |pending| && pushed[..|pending|] == pending
    ensures forall b :: b in pushed <==> b in pending || Needs(graph, id, b)
  {
    var dependencies := Production(DependenciesOf(graph, id));
    ProductionMembers(DependenciesOf(graph, id));
    pushed := pending;
    for i := 0 to |dependencies|
      invariant |pushed| == |pending| + i && pushed[..|pending|] == pending
      invariant forall b :: b in pushed <==> b in pending || exists j :: 0 <= j < i && dependencies[j].pkg == b
    {
      pushed := pushed + [dependencies[i].pkg];
    }
    forall b
      ensures (exists j :: 0 <= j < |dependencies| && dependencies[j].pkg == b) <==> Needs(graph, id, b)
    {
      if j :| 0 <= j < |dependencies| && dependencies[j].pkg == b {
        assert dependencies[j] in dependencies;
      }
    }
  }

  /**
   Terminates on every graph: each turn visits a new package of the finite universe, or else shortens
   the stack. What it returns is exactly what the root reaches.
   */
  method Reachable(graph: Graph, root: PackageId) returns (reachable: set<PackageId>)
    ensures forall id :: id in reachable <==> Reaches(graph, root, id)
    ensures root in reachable && Closed(graph, reachable)
    ensures forall other :: root in other && Closed(graph, other) ==> reachable <= other
  {
    reachable := {};
    var pending := [root];
    StartIsSound(graph, root);
    ghost var unvisited := Unvisited(graph, root, reachable);
    while |pending| > 0
      invariant Sound(graph, root, reachable, pending) && Covered(graph, reachable, pending)
      invariant unvisited == Unvisited(graph, root, reachable)
      decreases unvisited, |pending|
    {
      var id, rest := pending[|pending| - 1], pending[..|pending| - 1];
      assert pending == rest + [id];
      pending := rest;
      if id in reachable {
        SkippingKeeps(graph, root, reachable, rest, id);
        continue;
      }
      pending := PushDependencies(graph, id, pending);
      VisitingKeeps(graph, root, reachable, rest, id, pending);
      reachable := reachable + {id};
      unvisited := Unvisited(graph, root, reachable);
    }
    assert pending == [];
    FinishedIsReachable(graph, root, reachable);
    ReachableIsLeastClosed(graph, root, reachable);
  }

  lemma SmallerSet(a: set<PackageId>, b: set<PackageId>)
    requires a < b
    ensures |a| < |b|
  {
    assert b == a + (b - a);
  }
}
