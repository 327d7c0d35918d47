/**
 * The third-party Swift packages the tool's own manifest depends on, and the
 * dependency wrapper its target helper takes (`Dependency.swift`).
 */
module DependencyHelper {
  import opened Manifest

  /** The third-party packages, in declaration order. */
  datatype PackageDependency =
    | XcodeprojPkg
    | CombineExt
    | SwiftToolsSupport
    | RxSwift
    | RxBlocking
    | RxRelay
    | KeychainAccess
    | Swifter
    | BlueSignals
    | Zip
    | Checksum
    | Logging

  /** The three RxSwift products, which come from one package. */
  predicate IsRx(p: PackageDependency)
  {
    p == RxSwift || p == RxBlocking || p == RxRelay
  }

  /** Only swift-tools-support-core and Zip are pinned to the next minor version. */
  predicate PinnedToMinor(p: PackageDependency)
  {
    p == SwiftToolsSupport || p == Zip
  }

  /** The package each case is fetched from, with its version requirement. */
  function PackageOf(p: PackageDependency): (r: Package)
    ensures r.requirement.UpToNextMinor? <==> PinnedToMinor(p)
    ensures IsRx(p) ==> r == Package("https://github.com/ReactiveX/RxSwift.git", UpToNextMajor("5.1.1"))
  {
    match p
    case XcodeprojPkg => Package("https://github.com/tuist/XcodeProj.git", UpToNextMajor("7.17.0"))
    case CombineExt => Package("https://github.com/CombineCommunity/CombineExt.git", UpToNextMajor("1.3.0"))
    case SwiftToolsSupport => Package("https://github.com/apple/swift-tools-support-core.git", UpToNextMinor("0.2.0"))
    case RxSwift | RxBlocking | RxRelay => Package("https://github.com/ReactiveX/RxSwift.git", UpToNextMajor("5.1.1"))
    case KeychainAccess => Package("https://github.com/kishikawakatsumi/KeychainAccess.git", UpToNextMajor("4.2.2"))
    case Swifter => Package("https://github.com/httpswift/swifter.git", UpToNextMajor("1.5.0"))
    case BlueSignals => Package("https://github.com/tuist/BlueSignals.git", UpToNextMajor("1.0.21"))
    case Zip => Package("https://github.com/marmelroy/Zip.git", UpToNextMinor("2.1.1"))
    case Checksum => Package("https://github.com/rnine/Checksum.git", UpToNextMajor("1.0.2"))
    case Logging => Package("https://github.com/apple/swift-log.git", UpToNextMajor("1.4.0"))
  }

  /** The product name a target links for each case. */
  function ProductName(p: PackageDependency): string
  {
    match p
    case XcodeprojPkg => "XcodeProj"
    case CombineExt => "CombineExt"
    case SwiftToolsSupport => "SwiftToolsSupport-auto"
    case RxSwift => "RxSwift"
    case RxBlocking => "RxBlocking"
    case RxRelay => "RxRelay"
    case KeychainAccess => "KeychainAccess"
    case Swifter => "Swifter"
    case BlueSignals => "Signals"
    case Zip => "Zip"
    case Checksum => "Checksum"
    case Logging => "Logging"
  }

  /** The manifest dependency on the case's product. */
  function PackageTargetDependency(p: PackageDependency): (d: TargetDependency)
    ensures d.PackageProduct? && d.product == ProductName(p)
  {
    PackageProduct(ProductName(p))
  }

  /** Every case, in declaration order. */
  function AllCases(): (r: seq<PackageDependency>)
    ensures |r| == 12
    ensures forall i, j :: 0 <= i < j < |r| ==> r[i] != r[j]
  {
    [XcodeprojPkg, CombineExt, SwiftToolsSupport, RxSwift, RxBlocking, RxRelay,
     KeychainAccess, Swifter, BlueSignals, Zip, Checksum, Logging]
  }

  /** `allCases` lists every case. */
  lemma AllCasesComplete(p: PackageDependency)
    ensures p in AllCases()
  {
    var all := AllCases();
    match p
    case XcodeprojPkg => assert all[0] == p;
    case CombineExt => assert all[1] == p;
    case SwiftToolsSupport => assert all[2] == p;
    case RxSwift => assert all[3] == p;
    case RxBlocking => assert all[4] == p;
    case RxRelay => assert all[5] == p;
    case KeychainAccess => assert all[6] == p;
    case Swifter => assert all[7] == p;
    case BlueSignals => assert all[8] == p;
    case Zip => assert all[9] == p;
    case Checksum => assert all[10] == p;
    case Logging => assert all[11] == p;
  }

  /** A short fingerprint of a package: the length and two characters of its version. */
  function VersionKey(r: Requirement): (int, char, char)
  {
    if |r.from| > 2 then (|r.from|, r.from[0], r.from[2]) else (|r.from|, ' ', ' ')
  }

  /** The fingerprint of each case's package. */
  function KeyOf(p: PackageDependency): (int, char, char)
  {
    match p
    case XcodeprojPkg => (6, '7', '1')
    case CombineExt => (5, '1', '3')
    case SwiftToolsSupport => (5, '0', '2')
    case RxSwift | RxBlocking | RxRelay => (5, '5', '1')
    case KeychainAccess => (5, '4', '2')
    case Swifter => (5, '1', '5')
    case BlueSignals => (6, '1', '0')
    case Zip => (5, '2', '1')
    case Checksum => (5, '1', '0')
    case Logging => (5, '1', '4')
  }

  lemma VersionKeyOfPackage(p: PackageDependency)
    ensures VersionKey(PackageOf(p).requirement) == KeyOf(p)
  {
  }

  /** Two cases share a package exactly when they are the same case or both RxSwift products. */
  lemma SamePackageOnlyForRx(a: PackageDependency, b: PackageDependency)
    ensures PackageOf(a) == PackageOf(b) <==> a == b || (IsRx(a) && IsRx(b))
  {
    VersionKeyOfPackage(a);
    VersionKeyOfPackage(b);
    KeyOfApartFromRx(a, b);
  }

  /** Only the RxSwift products share a fingerprint. */
  lemma KeyOfApartFromRx(a: PackageDependency, b: PackageDependency)
    ensures KeyOf(a) == KeyOf(b) ==> a == b || (IsRx(a) && IsRx(b))
  {
  }

  /** Different cases link different products. */
  lemma ProductNameInjective(a: PackageDependency, b: PackageDependency)
    ensures PackageTargetDependency(a) == PackageTargetDependency(b) <==> a == b
  {
  }

  /** A dependency of a helper-built target: a local one or a third-party package. */
  datatype Dependency = Local(dependency: TargetDependency) | ThirdParty(package: PackageDependency)

  /** The manifest dependency a wrapped dependency stands for. */
  function TargetDependencyOf(d: Dependency): (r: TargetDependency)
    ensures d.Local? ==> r == d.dependency
    ensures d.ThirdParty? ==> r.PackageProduct? && r.product == ProductName(d.package)
  {
    match d
    case Local(t) => t
    case ThirdParty(p) => PackageTargetDependency(p)
  }

  /** `dependencies.map(\.targetDependency)`. */
  function TargetDependencies(ds: seq<Dependency>): (r: seq<TargetDependency>)
    ensures |r| == |ds|
    ensures forall i :: 0 <= i < |ds| ==> r[i] == TargetDependencyOf(ds[i])
  {
    if ds == [] then [] else [TargetDependencyOf(ds[0])] + TargetDependencies(ds[1..])
  }
}
