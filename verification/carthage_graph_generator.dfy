/**
 * The dependencies graph built from what Carthage installed
 * (`CarthageGraphGenerator.generate(at:)`): every product named in a
 * `.version` file becomes one `.xcframework` dependency.
 */
module CarthageGraphGenerator {
  import opened Wrappers
  import opened Paths

  /** The directory names under which Tuist keeps fetched Carthage dependencies. */
  const TuistDirectoryName := "Tuist"
  const DependenciesDirectoryName := "Dependencies"
  const CarthageDirectoryName := "Carthage"

  /** One product a version file lists: its name and the framework container holding it. */
  datatype CarthageProduct = CarthageProduct(name: string, container: string)

  /** A decoded `.version` file, reduced to the products of all its platforms, in order. */
  datatype CarthageVersionFile = CarthageVersionFile(allProducts: seq<CarthageProduct>)

  /** The part of the graph's target dependencies this generator produces. */
  datatype GraphTargetDependency = XCFramework(path: AbsolutePath)

  /** What the generator returns: external dependencies by name and external projects by path. */
  datatype DependenciesGraph = DependenciesGraph(
    externalDependencies: map<string, seq<GraphTargetDependency>>,
    externalProjects: map<AbsolutePath, string>)

  /** A failure of the file system or of the decoder, carried unchanged. */
  datatype IOError = IOError(message: string)

  /** The file system and the JSON decoder, which the generator only calls. */
  datatype Environment = Environment(
    contentsOfDirectory: AbsolutePath -> Result<seq<AbsolutePath>, IOError>,
    readFile: AbsolutePath -> Result<seq<int>, IOError>,
    decode: seq<int> -> Result<CarthageVersionFile, IOError>)

  /** The directory entries whose extension is `version`, in listing order. */
  function VersionFiles(entries: seq<AbsolutePath>): (r: seq<AbsolutePath>)
    ensures forall p :: p in r <==> p in entries && Extension(p) == Some("version")
    ensures |r| <= |entries|
  {
    if entries == [] then []
    else
      var rest := VersionFiles(entries[1..]);
      assert forall p :: p in entries <==> p == entries[0] || p in entries[1..];
      if Extension(entries[0]) == Some("version") then [entries[0]] + rest else rest
  }

  /** Reads every file in order; the first failing read aborts. */
  function ReadAll(env: Environment, paths: seq<AbsolutePath>): (r: Result<seq<seq<int>>, IOError>)
    ensures r.Success? <==> forall i :: 0 <= i < |paths| ==> env.readFile(paths[i]).Success?
    ensures r.Success? ==> |r.value| == |paths|
    ensures r.Success? ==> forall i :: 0 <= i < |paths| ==> r.value[i] == env.readFile(paths[i]).value
    ensures r.Failure? ==>
              exists i :: && 0 <= i < |paths| && env.readFile(paths[i]).Failure?
                          && (forall j :: 0 <= j < i ==> env.readFile(paths[j]).Success?)
                          && r.error == env.readFile(paths[i]).error
  {
    if paths == [] then Success([])
    else
      match env.readFile(paths[0])
      case Failure(e) => Failure(e)
      case Success(data) =>
        var rest := ReadAll(env, paths[1..]);
        assert forall i :: 1 <= i < |paths| ==> paths[i] == paths[1..][i - 1];
        match rest
        case Failure(e) => Failure(e)
        case Success(datas) => Success([data] + datas)
  }

  /** Decodes every file in order; the first failing decode aborts. */
  function DecodeAll(env: Environment, datas: seq<seq<int>>): (r: Result<seq<CarthageVersionFile>, IOError>)
    ensures r.Success? <==> forall i :: 0 <= i < |datas| ==> env.decode(datas[i]).Success?
    ensures r.Success? ==> |r.value| == |datas|
    ensures r.Success? ==> forall i :: 0 <= i < |datas| ==> r.value[i] == env.decode(datas[i]).value
    ensures r.Failure? ==>
              exists i :: && 0 <= i < |datas| && env.decode(datas[i]).Failure?
                          && (forall j :: 0 <= j < i ==> env.decode(datas[j]).Success?)
                          && r.error == env.decode(datas[i]).error
  {
    if datas == [] then Success([])
    else
      match env.decode(datas[0])
      case Failure(e) => Failure(e)
      case Success(file) =>
        var rest := DecodeAll(env, datas[1..]);
        assert forall i :: 1 <= i < |datas| ==> datas[i] == datas[1..][i - 1];
        match rest
        case Failure(e) => Failure(e)
        case Success(files) => Success([file] + files)
  }

  /** `flatMap { $0.allProducts }`. */
  function AllProducts(files: seq<CarthageVersionFile>): (r: seq<CarthageProduct>)
    ensures forall p :: p in r <==> exists i :: 0 <= i < |files| && p in files[i].allProducts
    ensures files != [] ==> files[0].allProducts <= r
  {
    if files == [] then []
    else
      var rest := AllProducts(files[1..]);
      assert forall i :: 1 <= i < |files| ==> files[i] == files[1..][i - 1];
      files[0].allProducts + rest
  }

  /** Where the xcframework of a container lives: `/Tuist/Dependencies/Carthage/<container>`. */
  function FrameworkPath(container: string): (r: AbsolutePath)
    ensures IsDescendant(r, AbsolutePath([]), 4)
    ensures r.Basename() == container
  {
    AbsolutePath([]).AppendingAll([TuistDirectoryName, DependenciesDirectoryName, CarthageDirectoryName, container])
  }

  /** The names of the products, each once. */
  function Names(products: seq<CarthageProduct>): set<string>
  {
    set p | p in products :: p.name
  }

  /** The container of the first product called `name`, if any. */
  function FirstContainer(products: seq<CarthageProduct>, name: string): (r: Option<string>)
    ensures r.Some? <==> name in Names(products)
  {
    if products == [] then None
    else if products[0].name == name then Some(products[0].container)
    else
      var r := FirstContainer(products[1..], name);
      assert Names(products) == {products[0].name} + Names(products[1..]);
      r
  }

  /** Looking a name up in two lists in a row: the first list decides when it has the name. */
  lemma {:induction false} FirstContainerConcat(a: seq<CarthageProduct>, b: seq<CarthageProduct>, name: string)
    ensures FirstContainer(a + b, name) == if FirstContainer(a, name).Some? then FirstContainer(a, name) else FirstContainer(b, name)
    decreases |a|
  {
    if a != [] {
      assert (a + b)[0] == a[0] && (a + b)[1..] == a[1..] + b;
      FirstContainerConcat(a[1..], b, name);
    } else {
      assert a + b == b;
    }
  }

  /** `i` is the earliest version file with a product called `name`. */
  predicate EarliestFileWith(files: seq<CarthageVersionFile>, name: string, i: int)
  {
    && 0 <= i < |files|
    && FirstContainer(files[i].allProducts, name).Some?
    && forall j :: 0 <= j < i ==> FirstContainer(files[j].allProducts, name).None?
  }

  /**
   * The flattened products keep the version files' order: a name's first
   * container is the one the earliest file that has the name gives it.
   */
  lemma {:induction false} FirstContainerByFile(files: seq<CarthageVersionFile>, name: string)
    ensures FirstContainer(AllProducts(files), name).Some? ==>
              exists i :: EarliestFileWith(files, name, i) &&
                          FirstContainer(files[i].allProducts, name) == FirstContainer(AllProducts(files), name)
    decreases |files|
  {
    if files != [] {
      var rest := AllProducts(files[1..]);
      assert AllProducts(files) == files[0].allProducts + rest;
      FirstContainerConcat(files[0].allProducts, rest, name);
      if FirstContainer(files[0].allProducts, name).Some? {
        assert EarliestFileWith(files, name, 0);
      } else if FirstContainer(rest, name).Some? {
        FirstContainerByFile(files[1..], name);
        var i :| EarliestFileWith(files[1..], name, i) &&
                 FirstContainer(files[1..][i].allProducts, name) == FirstContainer(rest, name);
        EarliestShifted(files, name, i);
      }
    }
  }

  /** Prepending a file without the name moves the earliest file one place on. */
  lemma EarliestShifted(files: seq<CarthageVersionFile>, name: string, i: int)
    requires files != [] && FirstContainer(files[0].allProducts, name).None?
    requires EarliestFileWith(files[1..], name, i)
    ensures EarliestFileWith(files, name, i + 1) && files[i + 1] == files[1..][i]
  {
    forall j | 0 <= j < i + 1
      ensures FirstContainer(files[j].allProducts, name).None?
    {
      if j > 0 {
        assert files[j] == files[1..][j - 1];
      }
    }
  }

  /**
   * `Dictionary(grouping:by:)` followed by the per-group mapping: each name
   * maps to one xcframework dependency; the group's first product wins, which
   * is why the head of the list is written last.
   */
  function Group(products: seq<CarthageProduct>): (r: map<string, seq<GraphTargetDependency>>)
    ensures forall n :: n in r ==> |r[n]| == 1 && IsDescendant(r[n][0].path, AbsolutePath([]), 4)
  {
    if products == [] then map[]
    else Group(products[1..])[products[0].name := [XCFramework(FrameworkPath(products[0].container))]]
  }

  /** The grouping keeps every name once and uses the first product of each name. */
  lemma {:induction false} GroupIsFirstByName(products: seq<CarthageProduct>)
    ensures Group(products).Keys == Names(products)
    ensures forall n :: n in Group(products) ==>
              Group(products)[n] == [XCFramework(FrameworkPath(FirstContainer(products, n).value))]
  {
    if products != [] {
      GroupIsFirstByName(products[1..]);
      assert Names(products) == {products[0].name} + Names(products[1..]);
    }
  }

  /** The whole generation: list, filter, read all, decode all, group. */
  function Generate(env: Environment, path: AbsolutePath): (r: Result<DependenciesGraph, IOError>)
    ensures env.contentsOfDirectory(path).Failure? ==> r == Failure(env.contentsOfDirectory(path).error)
    ensures r.Success? ==> r.value.externalProjects == map[]
    ensures r.Success? ==> forall n :: n in r.value.externalDependencies ==>
              |r.value.externalDependencies[n]| == 1 &&
              IsDescendant(r.value.externalDependencies[n][0].path, AbsolutePath([]), 4)
  {
    var entries :- env.contentsOfDirectory(path);
    var datas :- ReadAll(env, VersionFiles(entries));
    var files :- DecodeAll(env, datas);
    Success(DependenciesGraph(Group(AllProducts(files)), map[]))
  }

  /**
   * On success the keys are exactly the product names found in the version
   * files, each with the first such product's container; any read or decode
   * failure is the result, with no partial graph.
   */
  lemma GenerateOutcome(env: Environment, path: AbsolutePath)
    requires env.contentsOfDirectory(path).Success?
    ensures var files := VersionFiles(env.contentsOfDirectory(path).value);
            var loaded := ReadAll(env, files);
            && (loaded.Failure? ==> Generate(env, path) == Failure(loaded.error))
            && (loaded.Success? && DecodeAll(env, loaded.value).Failure? ==>
                  Generate(env, path) == Failure(DecodeAll(env, loaded.value).error))
            && (loaded.Success? && DecodeAll(env, loaded.value).Success? ==>
                  var products := AllProducts(DecodeAll(env, loaded.value).value);
                  && Generate(env, path).Success?
                  && Generate(env, path).value.externalDependencies.Keys == Names(products)
                  && forall n :: n in Names(products) ==>
                       Generate(env, path).value.externalDependencies[n]
                         == [XCFramework(FrameworkPath(FirstContainer(products, n).value))])
  {
    var files := VersionFiles(env.contentsOfDirectory(path).value);
    var loaded := ReadAll(env, files);
    if loaded.Success? && DecodeAll(env, loaded.value).Success? {
      GroupIsFirstByName(AllProducts(DecodeAll(env, loaded.value).value));
    }
  }
}
