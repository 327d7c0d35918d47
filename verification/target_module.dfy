/** The helper that expands one of the tool's modules into its targets (`Target+Module.swift`). */
module TargetModule {
  import opened Wrappers
  import opened ProjectSettings
  import opened Manifest
  import opened ModuleHelper
  import opened DependencyHelper

  /** Every target the helper builds carries a Debug and a Release configuration with no settings. */
  function ModuleSettings(): (s: Settings)
    ensures |s.configurations| == 2
    ensures s.configurations[0] == CustomConfiguration("Debug", Debug, Some(Configuration(map[], None)))
    ensures s.configurations[1] == CustomConfiguration("Release", Release, Some(Configuration(map[], None)))
    ensures s.base == map[] && s.defaultSettings == Recommended
  {
    SettingsWithConfigurations([DebugConfiguration("Debug"), ReleaseConfiguration("Release")])
  }

  /** The source glob of a target named `name` under the directory `root` (with its trailing slash). */
  function SourceGlob(root: string, name: string): string
  {
    root + name + "/**/*.swift"
  }

  /** The bundle identifier of a target named `name`. */
  function BundleId(name: string): string
  {
    "io.tuist." + name
  }

  /** One macOS target named `name`, compiling the Swift files under `root` + `name`. */
  function ModuleTarget(name: string, root: string, product: Product, deploymentTarget: DeploymentTarget,
                        dependencies: seq<TargetDependency>): Target
  {
    Target(name, MacOS, product, BundleId(name), deploymentTarget, DefaultInfoPlist,
           [SourceGlob(root, name)], dependencies, ModuleSettings())
  }

  /** What the unit-tests target links: the module's dependencies, the module, the extras, then its testing helpers. */
  function TestDependencies(m: Module, dependencies: seq<Dependency>, additional: seq<Dependency>): (r: seq<TargetDependency>)
    ensures |r| == |dependencies| + 1 + |additional| + (if TestingName(m).Some? then 1 else 0)
    ensures TargetDependencies(dependencies) <= r
    ensures r[|dependencies|] == ModuleDependency(m)
    ensures r[|dependencies| + 1..|dependencies| + 1 + |additional|] == TargetDependencies(additional)
    ensures TestingDependency(m).Some? ==> r[|r| - 1] == TestingDependency(m).value
  {
    var base := TargetDependencies(dependencies) + [ModuleDependency(m)] + TargetDependencies(additional);
    match TestingDependency(m)
    case Some(t) => base + [t]
    case None => base
  }

  /** What the testing-helpers target links: the module's dependencies, the module, then the extras. */
  function TestingDependencies(m: Module, dependencies: seq<Dependency>, additional: seq<Dependency>): (r: seq<TargetDependency>)
    ensures |r| == |dependencies| + 1 + |additional|
    ensures TargetDependencies(dependencies) <= r
    ensures r[|dependencies|] == ModuleDependency(m)
    ensures r[|dependencies| + 1..] == TargetDependencies(additional)
  {
    TargetDependencies(dependencies) + [ModuleDependency(m)] + TargetDependencies(additional)
  }

  /** What every target the helper builds shares: macOS, the derived bundle identifier, the default Info.plist and settings. */
  predicate Uniform(t: Target, deploymentTarget: DeploymentTarget)
  {
    && t.platform == MacOS
    && t.bundleId == BundleId(t.name)
    && t.deploymentTarget == deploymentTarget
    && t.infoPlist == DefaultInfoPlist
    && t.settings == ModuleSettings()
  }

  /**
   * The main target, then its unit tests, then (for modules that have one)
   * the testing-helpers target.
   */
  function ModuleTargets(m: Module, deploymentTarget: DeploymentTarget, product: Product := StaticLibrary,
                         dependencies: seq<Dependency> := [], additionalTestDependencies: seq<Dependency> := [],
                         additionalTestingDependencies: seq<Dependency> := []): (r: seq<Target>)
    ensures |r| == (if TestingName(m).Some? then 3 else 2)
    ensures r[0].name == Name(m) && r[0].product == product
    ensures r[0].dependencies == TargetDependencies(dependencies)
    ensures r[0].sources == [SourceGlob("Sources/", Name(m))]
    ensures r[1].name == TestsName(m).value && r[1].product == UnitTests
    ensures r[1].sources == [SourceGlob("Tests/", TestsName(m).value)]
    ensures r[1].dependencies == TestDependencies(m, dependencies, additionalTestDependencies)
    ensures |r| == 3 ==> r[2].name == TestingName(m).value && r[2].product == product
    ensures |r| == 3 ==> r[2].sources == [SourceGlob("Sources/", TestingName(m).value)]
    ensures |r| == 3 ==> r[2].dependencies == TestingDependencies(m, dependencies, additionalTestingDependencies)
    ensures forall t :: t in r ==> Uniform(t, deploymentTarget)
  {
    var main := ModuleTarget(Name(m), "Sources/", product, deploymentTarget, TargetDependencies(dependencies));
    var tests := ModuleTarget(TestsName(m).value, "Tests/", UnitTests, deploymentTarget,
                              TestDependencies(m, dependencies, additionalTestDependencies));
    match TestingName(m)
    case Some(testing) =>
      [main, tests, ModuleTarget(testing, "Sources/", product, deploymentTarget,
                                 TestingDependencies(m, dependencies, additionalTestingDependencies))]
    case None => [main, tests]
  }

  /** The targets of one module have pairwise different names and bundle identifiers. */
  lemma ModuleTargetsDistinct(m: Module, deploymentTarget: DeploymentTarget, product: Product,
                              dependencies: seq<Dependency>, additionalTestDependencies: seq<Dependency>,
                              additionalTestingDependencies: seq<Dependency>)
    ensures var r := ModuleTargets(m, deploymentTarget, product, dependencies, additionalTestDependencies,
                                   additionalTestingDependencies);
            forall i, j :: 0 <= i < j < |r| ==> r[i].name != r[j].name && r[i].bundleId != r[j].bundleId
  {
    var r := ModuleTargets(m, deploymentTarget, product, dependencies, additionalTestDependencies,
                           additionalTestingDependencies);
    TargetNamesDistinct(m);
    NamesApart(r, Name(m), TestsName(m).value, TestingName(m));
    BundleIdsFollowNames(r);
  }

  /** Two or three targets named by pairwise different names have pairwise different names. */
  lemma NamesApart(r: seq<Target>, main: string, tests: string, testing: Option<string>)
    requires |r| == (if testing.Some? then 3 else 2)
    requires r[0].name == main && r[1].name == tests && main != tests
    requires testing.Some? ==> r[2].name == testing.value && main != testing.value && tests != testing.value
    ensures forall i, j :: 0 <= i < j < |r| ==> r[i].name != r[j].name
  {
  }

  /** Targets with pairwise different names and derived bundle identifiers have pairwise different identifiers. */
  lemma BundleIdsFollowNames(r: seq<Target>)
    requires forall t :: t in r ==> t.bundleId == BundleId(t.name)
    ensures forall i, j :: 0 <= i < j < |r| && r[i].name != r[j].name ==> r[i].bundleId != r[j].bundleId
  {
    forall i, j | 0 <= i < j < |r| && r[i].name != r[j].name
      ensures r[i].bundleId != r[j].bundleId
    {
      assert r[i] in r && r[j] in r;
      BundleIdInjective(r[i].name, r[j].name);
    }
  }

  /** Bundle identifiers keep target names apart. */
  lemma BundleIdInjective(a: string, b: string)
    ensures BundleId(a) == BundleId(b) ==> a == b
  {
    if BundleId(a) == BundleId(b) {
      assert a == BundleId(a)[9..];
      assert b == BundleId(b)[9..];
    }
  }

  /**
   * Both the unit tests and the testing helpers link the main target, and
   * the unit tests also link the testing helpers when there are any.
   */
  lemma TestsLinkModule(m: Module, deploymentTarget: DeploymentTarget, product: Product,
                        dependencies: seq<Dependency>, additionalTestDependencies: seq<Dependency>,
                        additionalTestingDependencies: seq<Dependency>)
    ensures var r := ModuleTargets(m, deploymentTarget, product, dependencies, additionalTestDependencies,
                                   additionalTestingDependencies);
            && TargetNamed(r[0].name) in r[1].dependencies
            && (|r| == 3 ==>
                  TargetNamed(r[0].name) in r[2].dependencies && TargetNamed(r[2].name) in r[1].dependencies)
  {
    var r := ModuleTargets(m, deploymentTarget, product, dependencies, additionalTestDependencies,
                           additionalTestingDependencies);
    var k := |dependencies|;
    assert r[1].dependencies[k] == TargetNamed(r[0].name);
    if |r| == 3 {
      assert r[2].dependencies[k] == TargetNamed(r[0].name);
      assert r[1].dependencies[|r[1].dependencies| - 1] == TargetNamed(r[2].name);
    }
  }
}
