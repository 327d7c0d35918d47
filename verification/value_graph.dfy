/** The value-type dependency graph: targets, projects, dependencies and the graph record. */
module ValueGraph {
  import opened Paths

  /** Product kinds a target can build. */
  datatype Product =
    | App | StaticLibrary | DynamicLibrary | Framework | StaticFramework
    | UnitTests | UiTests | Bundle
    | AppExtension | StickerPackExtension | Watch2App | Watch2Extension
    | TvTopShelfExtension | MessagesExtension | AppClip

  /** The target fields the traversal queries read. */
  datatype Target = Target(name: string, product: Product, productNameWithExtension: string)

  datatype Project = Project(path: AbsolutePath, name: string)

  /** A target together with the directory of its project and the project itself. */
  datatype ValueGraphTarget = ValueGraphTarget(path: AbsolutePath, target: Target, project: Project)

  /** A node of the dependency graph. Only `TargetDep` and `PackageProduct` are inspected. */
  datatype Dependency =
    | TargetDep(name: string, path: AbsolutePath)
    | PackageProduct(path: AbsolutePath, product: string)
    | FrameworkDep(path: AbsolutePath)
    | XCFrameworkDep(path: AbsolutePath)
    | LibraryDep(path: AbsolutePath)
    | SdkDep(name: string)

  /** Targets indexed by project path then name, and each node's direct dependencies. */
  datatype Graph = Graph(
    name: string,
    path: AbsolutePath,
    targets: map<AbsolutePath, map<string, ValueGraphTarget>>,
    dependencies: map<Dependency, set<Dependency>>)

  /** A linkable product reference (`GraphDependencyReference.product`). */
  datatype GraphDependencyReference = ProductReference(target: string, productName: string)

  /** Product and target capabilities defined outside this model (`Product.testsBundle`,
      `Product.isStatic`, `Target.supportsResources`). */
  datatype Traits = Traits(
    testsBundle: Product -> bool,
    isStatic: Product -> bool,
    supportsResources: Target -> bool)

  /** The direct dependencies of `n`; a node without an entry has none. */
  function Deps(g: Graph, n: Dependency): set<Dependency>
  {
    if n in g.dependencies then g.dependencies[n] else {}
  }

  /** `n` is the head of some edge. */
  ghost predicate IsEdgeTarget(g: Graph, n: Dependency)
  {
    exists k :: k in g.dependencies && n in g.dependencies[k]
  }

  /** Every node the graph mentions, plus `root`. */
  function Nodes(g: Graph, root: Dependency): (u: set<Dependency>)
    ensures root in u
    ensures forall n, w :: w in Deps(g, n) ==> w in u
  {
    {root} + g.dependencies.Keys + (set k, n | k in g.dependencies && n in g.dependencies[k] :: n)
  }
}
