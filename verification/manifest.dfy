/** The manifest-language types the project helpers build (`ProjectDescription`). */
module Manifest {
  import opened ProjectSettings

  /** What a manifest target can depend on. */
  datatype TargetDependency =
    | TargetNamed(name: string)
    | ProjectTarget(target: string, path: string)
    | Framework(path: string)
    | XCFramework(path: string)
    | Library(path: string)
    | PackageProduct(product: string)
    | Sdk(name: string)
    | Xctest

  /** Swift package version requirements. */
  datatype Requirement = UpToNextMajor(from: string) | UpToNextMinor(from: string)

  /** A remote Swift package. */
  datatype Package = Package(url: string, requirement: Requirement)

  datatype Product = App | StaticLibrary | DynamicLibrary | Framework | StaticFramework | UnitTests | UiTests | Bundle

  datatype Platform = IOS | MacOS | TvOS | WatchOS

  datatype DeploymentTarget = IOSTarget(version: string) | MacOSTarget(version: string)

  datatype InfoPlist = DefaultInfoPlist

  /** A manifest target. */
  datatype Target = Target(
    name: string,
    platform: Platform,
    product: Product,
    bundleId: string,
    deploymentTarget: DeploymentTarget,
    infoPlist: InfoPlist,
    sources: seq<string>,
    dependencies: seq<TargetDependency>,
    settings: Settings)

  /** A manifest project. */
  datatype Project = Project(name: string, packages: seq<Package>, settings: Settings, targets: seq<Target>)
}
