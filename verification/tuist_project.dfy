/** The tool's own root manifest (`Project.swift`): settings, targets and packages. */
module TuistProject {
  import opened Wrappers
  import opened ProjectSettings
  import opened Manifest
  import opened ModuleHelper
  import opened DependencyHelper
  import opened TargetModule

  /** The build settings every configuration starts from. */
  function BaseSettings(): map<string, string>
  {
    map["EXCLUDED_ARCHS" := "arm64"]
  }

  /** Debug adds testability to the base settings and changes nothing else. */
  function DebugSettings(): (r: map<string, string>)
    ensures r.Keys == BaseSettings().Keys + {"ENABLE_TESTABILITY"}
    ensures r["ENABLE_TESTABILITY"] == "YES"
    ensures forall k :: k in BaseSettings() && k != "ENABLE_TESTABILITY" ==> r[k] == BaseSettings()[k]
  {
    BaseSettings()["ENABLE_TESTABILITY" := "YES"]
  }

  /** Release uses the base settings as they are. */
  function ReleaseSettings(): (r: map<string, string>)
    ensures r.Keys == BaseSettings().Keys
    ensures forall k :: k in r ==> r[k] == BaseSettings()[k]
  {
    BaseSettings()
  }

  /** The two configurations differ exactly in the testability switch. */
  lemma DebugIsReleaseWithTestability()
    ensures DebugSettings() == ReleaseSettings()["ENABLE_TESTABILITY" := "YES"]
    ensures "ENABLE_TESTABILITY" !in ReleaseSettings()
  {
    assert "ENABLE_TESTABILITY" != "EXCLUDED_ARCHS" by {
      assert "ENABLE_TESTABILITY"[1] != "EXCLUDED_ARCHS"[1];
    }
  }

  /** `xs` without repeated elements. */
  predicate NoDuplicates<T(==)>(xs: seq<T>)
  {
    forall i, j :: 0 <= i < j < |xs| ==> xs[i] != xs[j]
  }

  /**
   * The elements of `xs`, each once, in order of first occurrence. The
   * manifest goes through a `Set`, whose order is unspecified, so only the
   * membership and the absence of repeats are promised.
   */
  function Dedup<T(==,!new)>(xs: seq<T>): (r: seq<T>)
    ensures forall x :: x in r <==> x in xs
    ensures NoDuplicates(r)
  {
    if xs == [] then []
    else
      var rest := Dedup(xs[..|xs| - 1]);
      var last := xs[|xs| - 1];
      assert xs == xs[..|xs| - 1] + [last];
      if last in rest then rest else rest + [last]
  }

  /** `PackageDependency.allCases.map(\.package)`. */
  function AllPackages(ps: seq<PackageDependency>): (r: seq<Package>)
    ensures |r| == |ps|
    ensures forall i :: 0 <= i < |ps| ==> r[i] == PackageOf(ps[i])
  {
    if ps == [] then [] else [PackageOf(ps[0])] + AllPackages(ps[1..])
  }

  /** The project's packages: every case's package, once each. */
  function Packages(): (r: seq<Package>)
    ensures NoDuplicates(r)
    ensures forall pkg :: pkg in r ==> exists p :: PackageOf(p) == pkg
  {
    Dedup(AllPackages(AllCases()))
  }

  /** Every package a case names is in the project's package list. */
  lemma EveryCasePackaged(p: PackageDependency)
    ensures PackageOf(p) in Packages()
  {
    AllCasesComplete(p);
    var all := AllCases();
    var i :| 0 <= i < |all| && all[i] == p;
    assert AllPackages(all)[i] == PackageOf(p);
  }

  /** The testing helpers of the support module, which other modules' tests link. */
  function SupportTesting(): (d: Dependency)
    ensures d == Local(TargetNamed(TestingName(Support).value))
  {
    Local(TestingDependency(Support).value)
  }

  /** The third-party packages the support module links. */
  function SupportPackages(): seq<Dependency>
  {
    [ThirdParty(CombineExt), ThirdParty(SwiftToolsSupport), ThirdParty(RxSwift), ThirdParty(RxRelay),
     ThirdParty(Logging), ThirdParty(KeychainAccess), ThirdParty(Swifter), ThirdParty(BlueSignals),
     ThirdParty(Zip), ThirdParty(Checksum)]
  }

  function DescriptionTargets(deploymentTarget: DeploymentTarget): seq<Target>
  {
    ModuleTargets(ProjectDescription, deploymentTarget, Product.Framework, [], [SupportTesting()], [])
  }

  function SupportTargets(deploymentTarget: DeploymentTarget): seq<Target>
  {
    ModuleTargets(Support, deploymentTarget, StaticLibrary, SupportPackages(), [ThirdParty(RxBlocking)], [])
  }

  function GraphTargets(deploymentTarget: DeploymentTarget): seq<Target>
  {
    ModuleTargets(Graph, deploymentTarget, StaticLibrary, [ThirdParty(SwiftToolsSupport)],
                  [SupportTesting(), ThirdParty(XcodeprojPkg)], [SupportTesting(), ThirdParty(Zip)])
  }

  /** The targets of the three modules, in the order ProjectDescription, support, graph. */
  function Targets(deploymentTarget: DeploymentTarget): (r: seq<Target>)
    ensures |r| == 8
  {
    var d, s, g := DescriptionTargets(deploymentTarget), SupportTargets(deploymentTarget), GraphTargets(deploymentTarget);
    assert |d| == 2 && |s| == 3 && |g| == 3;
    d + s + g
  }

  /** The shape of one module's group: its length, the main target's name, and the products in order. */
  predicate GroupShape(ts: seq<Target>, m: Module, main: Product)
  {
    && ProductShape(ts, if m == ProjectDescription then 2 else 3, main)
    && ts[0].name == Name(m)
  }

  /** A group of `count` targets: the main product, its tests, and (for three) its testing target. */
  predicate ProductShape(ts: seq<Target>, count: nat, main: Product)
  {
    && |ts| == count && 2 <= count
    && ts[0].product == main
    && ts[1].product == UnitTests
    && (|ts| == 3 ==> ts[2].product == main)
  }

  lemma DescriptionShape(deploymentTarget: DeploymentTarget)
    ensures GroupShape(DescriptionTargets(deploymentTarget), ProjectDescription, Product.Framework)
  {
  }

  lemma SupportShape(deploymentTarget: DeploymentTarget)
    ensures GroupShape(SupportTargets(deploymentTarget), Support, StaticLibrary)
  {
  }

  lemma GraphShape(deploymentTarget: DeploymentTarget)
    ensures GroupShape(GraphTargets(deploymentTarget), Graph, StaticLibrary)
  {
  }

  /**
   * Each module's main target heads its group, in the order ProjectDescription,
   * support, graph, and only the ProjectDescription target is a framework.
   */
  lemma TargetsLayout(deploymentTarget: DeploymentTarget)
    ensures var r := Targets(deploymentTarget);
            && r[0].name == Name(ProjectDescription) && r[2].name == Name(Support) && r[5].name == Name(Graph)
            && forall i :: 0 <= i < |r| ==> (r[i].product == Product.Framework <==> i == 0)
  {
    DescriptionShape(deploymentTarget);
    SupportShape(deploymentTarget);
    GraphShape(deploymentTarget);
    GroupsLayout(DescriptionTargets(deploymentTarget), SupportTargets(deploymentTarget), GraphTargets(deploymentTarget));
  }

  lemma GroupsLayout(d: seq<Target>, s: seq<Target>, g: seq<Target>)
    requires ProductShape(d, 2, Product.Framework)
    requires ProductShape(s, 3, StaticLibrary) && ProductShape(g, 3, StaticLibrary)
    ensures var r := d + s + g;
            && |r| == 8 && r[0] == d[0] && r[2] == s[0] && r[5] == g[0]
            && forall i :: 0 <= i < |r| ==> (r[i].product == Product.Framework <==> i == 0)
  {
    var r := d + s + g;
    forall i | 0 <= i < |r|
      ensures r[i].product == Product.Framework <==> i == 0
    {
      if i < 2 {
        assert r[i] == d[i];
      } else if i < 5 {
        assert r[i] == s[i - 2];
      } else {
        assert r[i] == g[i - 5];
      }
    }
  }

  /** The project's settings: a Debug and a Release configuration with their settings. */
  function ProjectSettingsOf(): (s: Settings)
    ensures |s.configurations| == 2
    ensures s.configurations[0].name == "Debug" && s.configurations[0].variant == Debug
    ensures s.configurations[1].name == "Release" && s.configurations[1].variant == Release
    ensures s.configurations[0].configuration == Some(Configuration(WrapStrings(DebugSettings()), None))
    ensures s.configurations[1].configuration == Some(Configuration(WrapStrings(ReleaseSettings()), None))
  {
    SettingsWithConfigurations([DebugConfiguration("Debug", DebugSettings()),
                                ReleaseConfiguration("Release", ReleaseSettings())])
  }

  /** The manifest itself, for macOS 10.15. */
  function TuistManifest(): (p: Project)
    ensures p.name == "Tuist" && |p.targets| == 8
    ensures NoDuplicates(p.packages)
  {
    Project("Tuist", Packages(), ProjectSettingsOf(), Targets(MacOSTarget("10.15")))
  }

  /** The manifest's configurations are Debug then Release. */
  lemma ManifestConfigurations()
    ensures var c := TuistManifest().settings.configurations;
            |c| == 2 && c[0].variant == Debug && c[1].variant == Release
  {
    var s := ProjectSettingsOf();
    assert TuistManifest().settings == s;
  }
}
