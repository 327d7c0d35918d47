/** The graph mapper that gives every target the CocoaPods placeholder script (`CocoaPodsGraphMapper`). */
module CocoaPodsGraphMapper {
  import opened Paths

  /** A build-phase script attached to a target. */
  datatype TargetScript = TargetScript(name: string, script: string, showEnvVarsInLog: bool, hashable: bool)

  /** The parts of a target the mapper can touch: its name, bundle identifier and scripts. */
  datatype Target = Target(name: string, bundleId: string, scripts: seq<TargetScript>)

  /** A target in the graph, at its project's path, with the names of what it depends on. */
  datatype TargetNode = TargetNode(path: AbsolutePath, target: Target, dependencies: seq<string>)

  /** The graph: its name, entry path and the targets of each project. */
  datatype Graph = Graph(name: string, entryPath: AbsolutePath, targets: map<AbsolutePath, seq<TargetNode>>)

  /** Side effects a mapper asks for. */
  datatype SideEffectDescriptor = WriteFile(path: AbsolutePath) | DeleteFile(path: AbsolutePath) | Command(arguments: seq<string>)

  /** The one script every target ends up with. */
  const PlaceholderScript := TargetScript("Whatever", "whatever", true, false)

  /** A node whose target carries only the placeholder script. */
  function WithPlaceholder(n: TargetNode): TargetNode
  {
    n.(target := n.target.(scripts := [PlaceholderScript]))
  }

  function MapNodes(nodes: seq<TargetNode>): (r: seq<TargetNode>)
    ensures |r| == |nodes|
    ensures forall i :: 0 <= i < |nodes| ==> r[i] == WithPlaceholder(nodes[i])
  {
    seq(|nodes|, i requires 0 <= i < |nodes| => WithPlaceholder(nodes[i]))
  }

  /**
   * `map(graph:)`: same projects, same targets in the same order, each with
   * its scripts replaced by the placeholder; nothing else changes and no
   * side effects are requested.
   */
  function Map(g: Graph): (r: (Graph, seq<SideEffectDescriptor>))
    ensures r.1 == []
    ensures r.0.(targets := g.targets) == g
    ensures r.0.targets.Keys == g.targets.Keys
    ensures forall p :: p in g.targets ==> |r.0.targets[p]| == |g.targets[p]|
    ensures forall p, i :: p in g.targets && 0 <= i < |g.targets[p]| ==>
              && r.0.targets[p][i].target.scripts == [PlaceholderScript]
              && r.0.targets[p][i].(target := r.0.targets[p][i].target.(scripts := g.targets[p][i].target.scripts))
                 == g.targets[p][i]
  {
    (g.(targets := map p | p in g.targets :: MapNodes(g.targets[p])), [])
  }

  /** Mapping a mapped graph changes nothing. */
  lemma MapIdempotent(g: Graph)
    ensures Map(Map(g).0) == Map(g)
  {
    var once := Map(g).0;
    var twice := Map(once).0;
    forall p | p in once.targets
      ensures twice.targets[p] == once.targets[p]
    {
      assert |twice.targets[p]| == |once.targets[p]|;
      forall i | 0 <= i < |once.targets[p]|
        ensures twice.targets[p][i] == once.targets[p][i]
      {
        assert twice.targets[p][i] == WithPlaceholder(once.targets[p][i]);
      }
    }
    assert twice.targets == once.targets;
    assert twice == once;
  }
}
