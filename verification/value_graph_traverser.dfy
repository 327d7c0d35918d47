/** The traversal and query engine over `ValueGraph.Graph` (`ValueGraphTraverser`). */
module ValueGraphTraverser {
  import opened Wrappers
  import opened Paths
  import opened ValueGraph

  // ---------------------------------------------------------------------------
  // Walks and reachability

  /** Consecutive elements of `p` are joined by dependency edges. */
  ghost predicate IsPath(g: Graph, p: seq<Dependency>)
  {
    |p| >= 1 && forall i :: 0 <= i < |p| - 1 ==> p[i + 1] in Deps(g, p[i])
  }

  /** `n` can be reached from `root` by following edges (the full transitive closure). */
  ghost predicate ReachableFrom(g: Graph, root: Dependency, n: Dependency)
  {
    exists p :: IsPath(g, p) && p[0] == root && p[|p| - 1] == n
  }

  /** The walk expands `n`: the root always, any other node unless `skip` prunes it. */
  predicate Expands(skip: Dependency -> bool, root: Dependency, n: Dependency)
  {
    n == root || !skip(n)
  }

  /** A path from `root` that only leaves nodes the walk expands. */
  ghost predicate IsWalk(g: Graph, skip: Dependency -> bool, root: Dependency, p: seq<Dependency>)
  {
    && IsPath(g, p)
    && p[0] == root
    && forall i :: 0 <= i < |p| - 1 ==> Expands(skip, root, p[i])
  }

  /** `n` is discovered by a walk from `root` that prunes at `skip`. */
  ghost predicate Reachable(g: Graph, skip: Dependency -> bool, root: Dependency, n: Dependency)
  {
    exists p :: IsWalk(g, skip, root, p) && p[|p| - 1] == n
  }

  /** The default `test` closure. */
  predicate Always(d: Dependency) { true }

  /** The default `skip` closure. */
  predicate Never(d: Dependency) { false }

  lemma ReachStep(g: Graph, skip: Dependency -> bool, root: Dependency, v: Dependency, w: Dependency)
    requires Reachable(g, skip, root, v) && Expands(skip, root, v) && w in Deps(g, v)
    ensures Reachable(g, skip, root, w)
  {
    var p :| IsWalk(g, skip, root, p) && p[|p| - 1] == v;
    var q := p + [w];
    assert IsWalk(g, skip, root, q);
  }

  /** Every node of a walk lies in a set that holds the root and is closed under
      expansion. */
  lemma {:induction false} WalkStaysInside(g: Graph, skip: Dependency -> bool, root: Dependency,
                                           p: seq<Dependency>, s: set<Dependency>)
    requires IsWalk(g, skip, root, p)
    requires root in s
    requires forall v, w :: v in s && Expands(skip, root, v) && w in Deps(g, v) ==> w in s
    ensures p[|p| - 1] in s
    decreases |p|
  {
    if |p| > 1 {
      var q := p[..|p| - 1];
      assert IsWalk(g, skip, root, q);
      WalkStaysInside(g, skip, root, q, s);
      assert p[|p| - 2] == q[|q| - 1];
    }
  }

  /** A node other than the root is only reachable as the head of some edge. */
  lemma ReachableIsEdgeTarget(g: Graph, skip: Dependency -> bool, root: Dependency, n: Dependency)
    requires Reachable(g, skip, root, n) && n != root
    ensures IsEdgeTarget(g, n)
  {
    var p :| IsWalk(g, skip, root, p) && p[|p| - 1] == n;
    var k := p[|p| - 2];
    assert n in Deps(g, k);
    assert k in g.dependencies;
  }

  /** Pruning only removes nodes: a walk that skips reaches a subset of the closure. */
  lemma PrunedWithinClosure(g: Graph, skip: Dependency -> bool, root: Dependency, n: Dependency)
    requires Reachable(g, skip, root, n)
    ensures ReachableFrom(g, root, n)
  {
    var p :| IsWalk(g, skip, root, p) && p[|p| - 1] == n;
    assert IsPath(g, p);
  }

  /** Without a `skip` the walk reaches exactly the transitive closure. */
  lemma NeverSkipIsClosure(g: Graph, root: Dependency, n: Dependency)
    ensures Reachable(g, Never, root, n) <==> ReachableFrom(g, root, n)
  {
    if ReachableFrom(g, root, n) {
      var p :| IsPath(g, p) && p[0] == root && p[|p| - 1] == n;
      assert IsWalk(g, Never, root, p);
    }
    if Reachable(g, Never, root, n) {
      PrunedWithinClosure(g, Never, root, n);
    }
  }

  /** A discovered node other than the root was pushed by an expanded predecessor. */
  lemma ReachedThroughExpanded(g: Graph, skip: Dependency -> bool, root: Dependency, c: Dependency)
    ensures Reachable(g, skip, root, c) && c != root ==>
              exists v :: c in Deps(g, v) && Expands(skip, root, v)
  {
    if Reachable(g, skip, root, c) && c != root {
      var p :| IsWalk(g, skip, root, p) && p[|p| - 1] == c;
      var v := p[|p| - 2];
      assert c in Deps(g, v) && Expands(skip, root, v);
    }
  }

  /** Pruning: a node other than the root whose every predecessor is a pruned (skipped,
      non-root) node is never discovered. */
  lemma BehindSkippedUnreachable(g: Graph, skip: Dependency -> bool, root: Dependency, c: Dependency)
    requires c != root
    requires forall v :: c in Deps(g, v) ==> v != root && skip(v)
    ensures !Reachable(g, skip, root, c)
  {
    ReachedThroughExpanded(g, skip, root, c);
  }

  // ---------------------------------------------------------------------------
  // filterDependencies

  /** Lists the elements of a set, in no particular order (a `Set`'s iteration order). */
  method Elements<T>(s: set<T>) returns (q: seq<T>)
    ensures forall x :: x in q <==> x in s
  {
    q := [];
    var rest := s;
    while rest != {}
      invariant rest <= s
      invariant forall x :: x in q <==> x in s && x !in rest
      decreases |rest|
    {
      var x :| x in rest;
      q := q + [x];
      rest := rest - {x};
    }
  }

  /** The elements of `q` not yet visited, in order. */
  function Unvisited(q: seq<Dependency>, visited: set<Dependency>): (r: seq<Dependency>)
    ensures forall x :: x in r <==> x in q && x !in visited
  {
    if |q| == 0 then []
    else if q[0] in visited then Unvisited(q[1..], visited)
    else [q[0]] + Unvisited(q[1..], visited)
  }

  /** Every dependency of an expanded visited node is visited or still on the stack. */
  ghost predicate Closed(g: Graph, skip: Dependency -> bool, root: Dependency,
                         visited: set<Dependency>, stack: seq<Dependency>)
  {
    forall v, w :: v in visited && Expands(skip, root, v) && w in Deps(g, v) ==>
      w in visited || w in stack
  }

  /** Every stacked node belongs to `universe` and is reachable. */
  ghost predicate Pending(g: Graph, skip: Dependency -> bool, root: Dependency,
                          universe: set<Dependency>, stack: seq<Dependency>)
  {
    forall i :: 0 <= i < |stack| ==> stack[i] in universe && Reachable(g, skip, root, stack[i])
  }

  lemma ClosedAfterDiscard(g: Graph, skip: Dependency -> bool, root: Dependency,
                           visited: set<Dependency>, stack: seq<Dependency>)
    requires |stack| > 0 && stack[|stack| - 1] in visited
    requires Closed(g, skip, root, visited, stack)
    ensures Closed(g, skip, root, visited, stack[..|stack| - 1])
  {
    forall v, w | v in visited && Expands(skip, root, v) && w in Deps(g, v)
      ensures w in visited || w in stack[..|stack| - 1]
    {
      if w !in visited {
        var i :| 0 <= i < |stack| && stack[i] == w;
        assert stack[..|stack| - 1][i] == w;
      }
    }
  }

  lemma ClosedAfterVisit(g: Graph, skip: Dependency -> bool, root: Dependency,
                         visited: set<Dependency>, stack: seq<Dependency>, pushed: seq<Dependency>)
    requires |stack| > 0
    requires Closed(g, skip, root, visited, stack)
    requires Expands(skip, root, stack[|stack| - 1]) ==>
               forall w :: w in Deps(g, stack[|stack| - 1]) ==> w in visited + {stack[|stack| - 1]} || w in pushed
    ensures Closed(g, skip, root, visited + {stack[|stack| - 1]}, stack[..|stack| - 1] + pushed)
  {
    var node := stack[|stack| - 1];
    var rest := stack[..|stack| - 1];
    forall v, w | v in visited + {node} && Expands(skip, root, v) && w in Deps(g, v)
      ensures w in visited + {node} || w in rest + pushed
    {
      if v != node && w !in visited + {node} {
        var i :| 0 <= i < |stack| && stack[i] == w;
        assert i < |rest| && rest[i] == w;
        assert (rest + pushed)[i] == w;
      } else if v == node && w !in visited + {node} {
        assert w in pushed;
        var j :| 0 <= j < |pushed| && pushed[j] == w;
        assert (rest + pushed)[|rest| + j] == w;
      }
    }
  }

  lemma PendingAfterPush(g: Graph, skip: Dependency -> bool, root: Dependency, universe: set<Dependency>,
                         stack: seq<Dependency>, node: Dependency, pushed: seq<Dependency>)
    requires universe == Nodes(g, root)
    requires |stack| > 0 && node == stack[|stack| - 1]
    requires Pending(g, skip, root, universe, stack)
    requires |pushed| > 0 ==> Expands(skip, root, node)
    requires forall w :: w in pushed ==> w in Deps(g, node)
    ensures Pending(g, skip, root, universe, stack[..|stack| - 1] + pushed)
  {
    var rest := stack[..|stack| - 1];
    forall i | 0 <= i < |rest + pushed|
      ensures (rest + pushed)[i] in universe && Reachable(g, skip, root, (rest + pushed)[i])
    {
      if i < |rest| {
        assert (rest + pushed)[i] == stack[i];
      } else {
        var w := pushed[i - |rest|];
        assert (rest + pushed)[i] == w;
        ReachStep(g, skip, root, node, w);
      }
    }
  }

  /** An element other than the top of a stack stays on it once the top is popped. */
  lemma BelowTop(stack: seq<Dependency>, x: Dependency)
    requires |stack| > 0 && x in stack && x != stack[|stack| - 1]
    ensures x in stack[..|stack| - 1]
  {
    var i :| 0 <= i < |stack| && stack[i] == x;
    assert stack[..|stack| - 1][i] == x;
  }

  /** The loop invariant of `FilterDependencies`. */
  ghost predicate WalkInvariant(g: Graph, root: Dependency, test: Dependency -> bool, skip: Dependency -> bool,
                                universe: set<Dependency>, visited: set<Dependency>,
                                stack: seq<Dependency>, r: set<Dependency>)
  {
    && universe == Nodes(g, root)
    && visited <= universe
    && Pending(g, skip, root, universe, stack)
    && (forall n :: n in visited ==> Reachable(g, skip, root, n))
    && (root in visited || root in stack)
    && Closed(g, skip, root, visited, stack)
    && (forall n :: n in r <==> n in visited && n != root && test(n))
  }

  /** The invariant holds with only the root on the stack. */
  lemma InvariantAtStart(g: Graph, root: Dependency, test: Dependency -> bool, skip: Dependency -> bool)
    ensures WalkInvariant(g, root, test, skip, Nodes(g, root), {}, [root], {})
  {
    assert IsWalk(g, skip, root, [root]);
  }

  /** Popping an already visited node keeps the invariant. */
  lemma DiscardKeepsInvariant(g: Graph, root: Dependency, test: Dependency -> bool, skip: Dependency -> bool,
                              universe: set<Dependency>, visited: set<Dependency>,
                              stack: seq<Dependency>, r: set<Dependency>)
    requires WalkInvariant(g, root, test, skip, universe, visited, stack, r)
    requires |stack| > 0 && stack[|stack| - 1] in visited
    ensures WalkInvariant(g, root, test, skip, universe, visited, stack[..|stack| - 1], r)
  {
    var node := stack[|stack| - 1];
    if root != node && root !in visited {
      BelowTop(stack, root);
    }
    ClosedAfterDiscard(g, skip, root, visited, stack);
    PendingAfterPush(g, skip, root, universe, stack, node, []);
    assert stack[..|stack| - 1] + [] == stack[..|stack| - 1];
  }

  /** Visiting a new node, collecting it when `test` holds and pushing its unvisited
      dependencies unless it is pruned, keeps the invariant. */
  lemma VisitKeepsInvariant(g: Graph, root: Dependency, test: Dependency -> bool, skip: Dependency -> bool,
                            universe: set<Dependency>, visited: set<Dependency>,
                            stack: seq<Dependency>, r: set<Dependency>, pushed: seq<Dependency>)
    requires WalkInvariant(g, root, test, skip, universe, visited, stack, r)
    requires |stack| > 0 && stack[|stack| - 1] !in visited
    requires |pushed| > 0 ==> Expands(skip, root, stack[|stack| - 1])
    requires forall w :: w in pushed ==> w in Deps(g, stack[|stack| - 1])
    requires Expands(skip, root, stack[|stack| - 1]) ==>
               forall w :: w in Deps(g, stack[|stack| - 1]) ==> w in visited + {stack[|stack| - 1]} || w in pushed
    ensures stack[|stack| - 1] in universe
    ensures var node := stack[|stack| - 1];
            WalkInvariant(g, root, test, skip, universe, visited + {node}, stack[..|stack| - 1] + pushed,
                          if node != root && test(node) then r + {node} else r)
  {
    var node := stack[|stack| - 1];
    if root != node && root !in visited {
      BelowTop(stack, root);
      assert root in stack[..|stack| - 1] + pushed;
    }
    PendingAfterPush(g, skip, root, universe, stack, node, pushed);
    ClosedAfterVisit(g, skip, root, visited, stack, pushed);
  }

  /** Once the stack is empty, the visited set is exactly the reachable set. */
  lemma InvariantAtEnd(g: Graph, root: Dependency, test: Dependency -> bool, skip: Dependency -> bool,
                       universe: set<Dependency>, visited: set<Dependency>, r: set<Dependency>)
    requires WalkInvariant(g, root, test, skip, universe, visited, [], r)
    ensures forall n :: n in r <==> n != root && test(n) && Reachable(g, skip, root, n)
    ensures forall n :: n in r ==> IsEdgeTarget(g, n)
  {
    forall n | Reachable(g, skip, root, n)
      ensures n in visited
    {
      var p :| IsWalk(g, skip, root, p) && p[|p| - 1] == n;
      WalkStaysInside(g, skip, root, p, visited);
    }
    forall n | n in r
      ensures IsEdgeTarget(g, n)
    {
      ReachableIsEdgeTarget(g, skip, root, n);
    }
  }

  /** Depth-first walk from `root` with an explicit stack and a visited set. Each node is
      expanded at most once, so the walk ends on cyclic graphs too. A discovered node other
      than the root is collected when `test` holds, and its dependencies are not pushed when
      `skip` holds. */
  method FilterDependencies(g: Graph, root: Dependency, test: Dependency -> bool, skip: Dependency -> bool)
    returns (r: set<Dependency>)
    ensures root !in r
    ensures forall n :: n in r <==> n != root && test(n) && Reachable(g, skip, root, n)
    ensures forall n :: n in r ==> IsEdgeTarget(g, n)
  {
    var stack := [root];
    var visited: set<Dependency> := {};
    r := {};
    ghost var universe := Nodes(g, root);
    InvariantAtStart(g, root, test, skip);
    while |stack| > 0
      invariant WalkInvariant(g, root, test, skip, universe, visited, stack, r)
      decreases |universe - visited|, |stack|
    {
      var node := stack[|stack| - 1];
      if node in visited {
        DiscardKeepsInvariant(g, root, test, skip, universe, visited, stack, r);
        stack := stack[..|stack| - 1];
        continue;
      }
      var pushed: seq<Dependency> := [];
      if node == root || !skip(node) {
        var next := Elements(Deps(g, node));
        pushed := Unvisited(next, visited + {node});
      }
      VisitKeepsInvariant(g, root, test, skip, universe, visited, stack, r, pushed);
      assert universe - (visited + {node}) < universe - visited;
      visited := visited + {node};
      if node != root && test(node) {
        r := r + {node};
      }
      stack := stack[..|stack| - 1] + pushed;
    }
    InvariantAtEnd(g, root, test, skip, universe, visited, r);
  }

  /** `filterDependencies(from:)` with the default closures: the whole transitive closure
      of `root`, without `root`. */
  method TransitiveClosure(g: Graph, root: Dependency) returns (r: set<Dependency>)
    ensures forall n :: n in r <==> n != root && ReachableFrom(g, root, n)
  {
    r := FilterDependencies(g, root, Always, Never);
    forall n
      ensures n in r <==> n != root && ReachableFrom(g, root, n)
    {
      NeverSkipIsClosure(g, root, n);
    }
  }

  // ---------------------------------------------------------------------------
  // Lookups

  /** `graph.targets[path]?[name]`. */
  function TargetAt(g: Graph, path: AbsolutePath, name: string): (r: Option<ValueGraphTarget>)
    ensures r.Some? <==> path in g.targets && name in g.targets[path]
    ensures r.Some? ==> r.value == g.targets[path][name]
  {
    if path in g.targets && name in g.targets[path] then Some(g.targets[path][name]) else None
  }

  /** The targets of the project at `path`; none when there is no such project. */
  function TargetsAt(g: Graph, path: AbsolutePath): (r: set<ValueGraphTarget>)
    ensures path !in g.targets ==> r == {}
    ensures path in g.targets ==> forall t :: t in r <==> exists n :: n in g.targets[path] && g.targets[path][n] == t
  {
    if path in g.targets then g.targets[path].Values else {}
  }

  /** `target(from:)`: the target a `.target` dependency names, if the graph has it. */
  function TargetFrom(g: Graph, d: Dependency): (r: Option<ValueGraphTarget>)
    ensures !d.TargetDep? ==> r.None?
    ensures d.TargetDep? ==> r == TargetAt(g, d.path, d.name)
  {
    match d
    case TargetDep(name, path) => TargetAt(g, path, name)
    case _ => None
  }

  /** The targets the target `(path, name)` depends on directly. */
  function DirectTargetDependencies(g: Graph, path: AbsolutePath, name: string): (r: set<ValueGraphTarget>)
    ensures forall t :: t in r <==> exists d :: d in Deps(g, TargetDep(name, path)) && TargetFrom(g, d) == Some(t)
  {
    set d | d in Deps(g, TargetDep(name, path)) && TargetFrom(g, d).Some? :: TargetFrom(g, d).value
  }

  // ---------------------------------------------------------------------------
  // hasPackages

  /** True when some node's dependency set holds a package product. */
  method HasPackages(g: Graph) returns (b: bool)
    ensures b <==> exists k, d :: k in g.dependencies && d in g.dependencies[k] && d.PackageProduct?
  {
    var keys := Elements(g.dependencies.Keys);
    b := false;
    for i := 0 to |keys|
      invariant b <==> exists j, d :: 0 <= j < i && d in g.dependencies[keys[j]] && d.PackageProduct?
    {
      if exists d | d in g.dependencies[keys[i]] :: d.PackageProduct? {
        b := true;
      }
    }
    if exists k, d :: k in g.dependencies && d in g.dependencies[k] && d.PackageProduct? {
      var k, d :| k in g.dependencies && d in g.dependencies[k] && d.PackageProduct?;
      var j :| 0 <= j < |keys| && keys[j] == k;
      assert d in g.dependencies[keys[j]];
    }
  }

  // ---------------------------------------------------------------------------
  // resourceBundleDependencies

  /** The dependency is a bundle target of the graph. */
  predicate IsBundle(g: Graph, d: Dependency)
  {
    TargetFrom(g, d).Some? && TargetFrom(g, d).value.target.product == Bundle
  }

  /** The dependency is a target of the graph that can host resources. */
  predicate CanHostResources(g: Graph, traits: Traits, d: Dependency)
  {
    TargetFrom(g, d).Some? && traits.supportsResources(TargetFrom(g, d).value.target)
  }

  /** The `test` closure of `resourceBundleDependencies`. */
  function BundleTest(g: Graph): Dependency -> bool
  {
    d => IsBundle(g, d)
  }

  /** The `skip` closure of `resourceBundleDependencies`: stop at resource hosts. */
  function HostSkip(g: Graph, traits: Traits): Dependency -> bool
  {
    d => CanHostResources(g, traits, d)
  }

  /** The bundles whose resources the target `(path, name)` carries: bundles discovered
      from it without passing through another target that can host resources. Empty when
      the target is unknown or cannot host resources itself. */
  method ResourceBundleDependencies(g: Graph, traits: Traits, path: AbsolutePath, name: string)
    returns (r: set<ValueGraphTarget>)
    ensures TargetAt(g, path, name).None? ==> r == {}
    ensures TargetAt(g, path, name).Some? && !traits.supportsResources(TargetAt(g, path, name).value.target) ==> r == {}
    ensures TargetAt(g, path, name).Some? && traits.supportsResources(TargetAt(g, path, name).value.target) ==>
              forall t :: t in r <==>
                t.target.product == Bundle &&
                exists d :: d != TargetDep(name, path) && TargetFrom(g, d) == Some(t) &&
                            Reachable(g, HostSkip(g, traits), TargetDep(name, path), d)
  {
    var root := TargetAt(g, path, name);
    if root.None? || !traits.supportsResources(root.value.target) {
      return {};
    }
    var bundles := FilterDependencies(g, TargetDep(name, path), BundleTest(g), HostSkip(g, traits));
    r := set d | d in bundles && TargetFrom(g, d).Some? :: TargetFrom(g, d).value;
  }

  /** A bundle whose every dependent is a resource host other than the root is claimed by
      those hosts, not by the root. */
  lemma BundleBehindHostNotClaimed(g: Graph, traits: Traits, path: AbsolutePath, name: string, b: Dependency)
    requires b != TargetDep(name, path)
    requires forall v :: b in Deps(g, v) ==> v != TargetDep(name, path) && CanHostResources(g, traits, v)
    ensures !Reachable(g, HostSkip(g, traits), TargetDep(name, path), b)
  {
    BehindSkippedUnreachable(g, HostSkip(g, traits), TargetDep(name, path), b);
  }

  // ---------------------------------------------------------------------------
  // testTargetsDependingOn

  /** Test-bundle targets of the project at `path` with a direct edge to `(path, name)`. */
  function TestTargetsDependingOn(g: Graph, traits: Traits, path: AbsolutePath, name: string)
    : (r: set<ValueGraphTarget>)
    ensures r <= TargetsAt(g, path)
    ensures forall t :: t in r ==>
              traits.testsBundle(t.target.product) && TargetDep(name, path) in Deps(g, TargetDep(t.target.name, path))
  {
    set t | t in TargetsAt(g, path) && traits.testsBundle(t.target.product)
                                    && TargetDep(name, path) in Deps(g, TargetDep(t.target.name, path))
  }

  /** The inverse edge relation as an index: every edge head mapped to its dependents. */
  function ReverseIndex(g: Graph): (idx: map<Dependency, set<Dependency>>)
    ensures forall k, d :: k in g.dependencies && d in g.dependencies[k] ==> d in idx && k in idx[d]
    ensures forall d, k :: d in idx && k in idx[d] ==> k in g.dependencies && d in g.dependencies[k]
  {
    var heads := set k, d | k in g.dependencies && d in g.dependencies[k] :: d;
    map d | d in heads :: set k | k in g.dependencies && d in g.dependencies[k]
  }

  /** The same query answered from the reverse index instead of a scan. */
  function TestTargetsFromIndex(g: Graph, traits: Traits, idx: map<Dependency, set<Dependency>>,
                                path: AbsolutePath, name: string): set<ValueGraphTarget>
  {
    var dependents := if TargetDep(name, path) in idx then idx[TargetDep(name, path)] else {};
    set t | t in TargetsAt(g, path) && traits.testsBundle(t.target.product)
                                    && TargetDep(t.target.name, path) in dependents
  }

  /** Scanning the project and consulting the reverse index give identical answers. */
  lemma ScanAgreesWithIndex(g: Graph, traits: Traits, path: AbsolutePath, name: string)
    ensures TestTargetsDependingOn(g, traits, path, name) == TestTargetsFromIndex(g, traits, ReverseIndex(g), path, name)
  {
    var idx := ReverseIndex(g);
    var root := TargetDep(name, path);
    forall t | t in TargetsAt(g, path)
      ensures root in Deps(g, TargetDep(t.target.name, path)) <==>
              TargetDep(t.target.name, path) in (if root in idx then idx[root] else {})
    {
      var k := TargetDep(t.target.name, path);
      if root in Deps(g, k) {
        assert k in g.dependencies;
      }
    }
  }

  /** Removes one edge from the graph. */
  function RemoveEdge(g: Graph, from: Dependency, to: Dependency): (h: Graph)
    ensures h.targets == g.targets
    ensures Deps(h, from) == Deps(g, from) - {to}
    ensures forall n :: n != from ==> Deps(h, n) == Deps(g, n)
  {
    if from in g.dependencies then g.(dependencies := g.dependencies[from := g.dependencies[from] - {to}]) else g
  }

  /** A test bundle with a direct edge to a target is among that target's test targets, and
      drops out once the edge is removed. */
  lemma TestTargetFollowsEdge(g: Graph, traits: Traits, path: AbsolutePath, name: string, t: ValueGraphTarget)
    requires t in TargetsAt(g, path) && traits.testsBundle(t.target.product)
    requires TargetDep(name, path) in Deps(g, TargetDep(t.target.name, path))
    ensures t in TestTargetsDependingOn(g, traits, path, name)
    ensures t !in TestTargetsDependingOn(RemoveEdge(g, TargetDep(t.target.name, path), TargetDep(name, path)), traits, path, name)
  {
    var h := RemoveEdge(g, TargetDep(t.target.name, path), TargetDep(name, path));
    assert TargetsAt(h, path) == TargetsAt(g, path);
  }

  // ---------------------------------------------------------------------------
  // appExtensionDependencies, appClipsDependency, directStaticDependencies

  /** The four extension kinds an app embeds. */
  predicate IsAppExtension(p: Product)
  {
    p == AppExtension || p == StickerPackExtension || p == Watch2Extension || p == MessagesExtension
  }

  /** The direct target dependencies that are app extensions. */
  function AppExtensionDependencies(g: Graph, path: AbsolutePath, name: string): (r: set<ValueGraphTarget>)
    ensures r <= DirectTargetDependencies(g, path, name)
    ensures forall t :: t in DirectTargetDependencies(g, path, name) ==> (t in r <==> IsAppExtension(t.target.product))
  {
    set t | t in DirectTargetDependencies(g, path, name) && IsAppExtension(t.target.product)
  }

  /** Some direct target dependency that is an app clip (a `Set`'s first match), if any. */
  method AppClipsDependency(g: Graph, path: AbsolutePath, name: string) returns (r: Option<ValueGraphTarget>)
    ensures r.Some? ==> r.value in DirectTargetDependencies(g, path, name) && r.value.target.product == AppClip
    ensures r.None? ==> forall t :: t in DirectTargetDependencies(g, path, name) ==> t.target.product != AppClip
  {
    var direct := DirectTargetDependencies(g, path, name);
    if exists t | t in direct :: t.target.product == AppClip {
      var t :| t in direct && t.target.product == AppClip;
      r := Some(t);
    } else {
      r := None;
    }
  }

  /** The static products the target `(path, name)` links directly, one hop only. */
  function DirectStaticDependencies(g: Graph, traits: Traits, path: AbsolutePath, name: string)
    : (r: set<GraphDependencyReference>)
    ensures forall ref :: ref in r <==>
              exists t :: t in DirectTargetDependencies(g, path, name) && traits.isStatic(t.target.product) &&
                          ref == ProductReference(t.target.name, t.target.productNameWithExtension)
  {
    set t | t in DirectTargetDependencies(g, path, name) && traits.isStatic(t.target.product)
          :: ProductReference(t.target.name, t.target.productNameWithExtension)
  }

  /** A walk that prunes every node but the root stops after one hop: it discovers exactly
      the root's direct dependencies. */
  lemma OneHopReach(g: Graph, root: Dependency, d: Dependency)
    ensures Reachable(g, Always, root, d) && d != root <==> d in Deps(g, root) && d != root
  {
    if Reachable(g, Always, root, d) && d != root {
      var p :| IsWalk(g, Always, root, p) && p[|p| - 1] == d;
      assert Expands(Always, root, p[|p| - 2]);
      assert d in Deps(g, p[|p| - 2]);
    }
    if d in Deps(g, root) && d != root {
      assert IsWalk(g, Always, root, [root, d]);
    }
  }

  /** The `test` closure that picks app-extension targets. */
  function AppExtensionTest(g: Graph): Dependency -> bool
  {
    d => TargetFrom(g, d).Some? && IsAppExtension(TargetFrom(g, d).value.target.product)
  }

  /** The `test` closure that picks static-product targets. */
  function StaticTest(g: Graph, traits: Traits): Dependency -> bool
  {
    d => TargetFrom(g, d).Some? && traits.isStatic(TargetFrom(g, d).value.target.product)
  }

  /** The nodes a one-hop walk collects are the root's direct dependencies that pass `test`. */
  method DirectByWalk(g: Graph, root: Dependency, test: Dependency -> bool) returns (r: set<Dependency>)
    ensures forall d :: d in r <==> d in Deps(g, root) && d != root && test(d)
  {
    r := FilterDependencies(g, root, test, Always);
    forall d
      ensures d in r <==> d in Deps(g, root) && d != root && test(d)
    {
      OneHopReach(g, root, d);
    }
  }

  /** `appExtensionDependencies` as the traversal answers it: a walk from the target that
      collects app extensions and expands nothing past the first hop. It agrees with the
      direct query except on a self-edge, which the walk never reports. */
  method AppExtensionsByWalk(g: Graph, path: AbsolutePath, name: string) returns (r: set<ValueGraphTarget>)
    ensures r <= AppExtensionDependencies(g, path, name)
    ensures TargetDep(name, path) !in Deps(g, TargetDep(name, path)) ==> r == AppExtensionDependencies(g, path, name)
  {
    var found := DirectByWalk(g, TargetDep(name, path), AppExtensionTest(g));
    r := set d | d in found && TargetFrom(g, d).Some? :: TargetFrom(g, d).value;
    if TargetDep(name, path) !in Deps(g, TargetDep(name, path)) {
      forall t | t in AppExtensionDependencies(g, path, name)
        ensures t in r
      {
        var d :| d in Deps(g, TargetDep(name, path)) && TargetFrom(g, d) == Some(t);
        assert d in found;
      }
    }
  }

  /** `directStaticDependencies` as the traversal answers it, with the same self-edge
      exception. */
  method DirectStaticsByWalk(g: Graph, traits: Traits, path: AbsolutePath, name: string)
    returns (r: set<GraphDependencyReference>)
    ensures r <= DirectStaticDependencies(g, traits, path, name)
    ensures TargetDep(name, path) !in Deps(g, TargetDep(name, path)) ==>
              r == DirectStaticDependencies(g, traits, path, name)
  {
    var found := DirectByWalk(g, TargetDep(name, path), StaticTest(g, traits));
    r := set d | d in found && TargetFrom(g, d).Some?
               :: ProductReference(TargetFrom(g, d).value.target.name, TargetFrom(g, d).value.target.productNameWithExtension);
    forall ref | ref in r
      ensures ref in DirectStaticDependencies(g, traits, path, name)
    {
      var d :| d in found && TargetFrom(g, d).Some? &&
               ref == ProductReference(TargetFrom(g, d).value.target.name, TargetFrom(g, d).value.target.productNameWithExtension);
      assert TargetFrom(g, d).value in DirectTargetDependencies(g, path, name);
    }
    if TargetDep(name, path) !in Deps(g, TargetDep(name, path)) {
      forall ref | ref in DirectStaticDependencies(g, traits, path, name)
        ensures ref in r
      {
        var t :| t in DirectTargetDependencies(g, path, name) && traits.isStatic(t.target.product) &&
                 ref == ProductReference(t.target.name, t.target.productNameWithExtension);
        var d :| d in Deps(g, TargetDep(name, path)) && TargetFrom(g, d) == Some(t);
        assert d in found;
      }
    }
  }

  // ---------------------------------------------------------------------------
  // allDependencies

  /** Everything reachable from any target of the project at `path`, each walk leaving out
      its own starting target. */
  method AllDependencies(g: Graph, path: AbsolutePath) returns (r: set<Dependency>)
    ensures forall d :: d in r <==>
              exists t :: t in TargetsAt(g, path) && d != TargetDep(t.target.name, path) &&
                          ReachableFrom(g, TargetDep(t.target.name, path), d)
  {
    var targets := Elements(TargetsAt(g, path));
    r := {};
    for i := 0 to |targets|
      invariant forall d :: d in r <==>
                  exists j :: 0 <= j < i && d != TargetDep(targets[j].target.name, path) &&
                              ReachableFrom(g, TargetDep(targets[j].target.name, path), d)
    {
      var more := TransitiveClosure(g, TargetDep(targets[i].target.name, path));
      r := r + more;
    }
    forall d | d in r
      ensures exists t :: t in TargetsAt(g, path) && d != TargetDep(t.target.name, path) &&
                          ReachableFrom(g, TargetDep(t.target.name, path), d)
    {
      var j :| 0 <= j < |targets| && d != TargetDep(targets[j].target.name, path) &&
               ReachableFrom(g, TargetDep(targets[j].target.name, path), d);
      assert targets[j] in TargetsAt(g, path);
    }
    forall d, t | t in TargetsAt(g, path) && d != TargetDep(t.target.name, path) &&
                  ReachableFrom(g, TargetDep(t.target.name, path), d)
      ensures d in r
    {
      var j :| 0 <= j < |targets| && targets[j] == t;
    }
  }
}
