# Tuist core, modelled in Dafny

A Dafny model of the small, deterministic pieces of logic inside Tuist, a
generator and build driver for Xcode projects, with proofs of what each
piece promises. The model covers:

- **Dependency traversal** (`ValueGraphTraverser`). The depth-first walk
  `filterDependencies` uses an explicit stack, a visited set, and `test` and
  `skip` closures. Several queries are built on it: resource bundles, test
  targets depending on a target, app extensions, app clips, direct static
  dependencies, all dependencies, and `hasPackages`.
- **Build-phase scripts** (`TargetAction`). This covers the two initialisers,
  the accessors, `shellScript` and the pre/post partition.
- **Manifest settings** (`SettingValue`, `Configuration`,
  `CustomConfiguration`, `Settings`).
- **The tool's own manifest helpers**: `Module` naming, `Target.module`,
  `PackageDependency`/`Dependency`, and the root `Project.swift`.
- **Small transformers**:
  - Carthage product grouping (`CarthageGraphGenerator`);
  - the CocoaPods script mapper;
  - the DerivedData build directory (`XcodeBuildLocator`);
  - GitHub releases and assets, with their JSON keys and the latest-release
    request.
- **Three services**, over abstract collaborators: `tuist build`
  (`BuildService`), `tuist doc` (`DocService`), and the storyboard generator
  (`StoryboardGenerator`).

Every collaborator is a function-valued parameter. This includes the file
system, the decoders, the hasher, `which`, the generator, `xcodebuild`, the
documentation generator and server, and the platform and product traits.
Each service returns its outcome together with the calls it made, in order.

## Modules

| file | module | models |
|---|---|---|
| wrappers.dfy | Wrappers | `Option` and `Result`, with `:-` propagation (the Swift `throws`) |
| paths.dfy | Paths | `AbsolutePath` as a list of components; `appending`, `pathString`, `basename`, `extension`, `basenameWithoutExt` |
| strings.dfy | Strings | joining, splitting, substring search, `replacingOccurrences`, ASCII `capitalized` |
| json.dfy | Json | JSON values and key lookup, as `Codable` sees them |
| fatal_error.dfy | FatalErrors | the `ErrorType` of fatal errors |
| value_graph.dfy | ValueGraph | the graph, targets, dependencies, and the product/target traits |
| value_graph_traverser.dfy | ValueGraphTraverser | the walk and the queries |
| target_action.dfy | TargetActions | `TargetAction` |
| settings.dfy | ProjectSettings | `Settings.swift` |
| manifest.dfy | Manifest | the manifest types the helpers build (`Target`, `TargetDependency`, `Package`, `Project`) |
| module_helper.dfy | ModuleHelper | `Module.swift` |
| dependency_helper.dfy | DependencyHelper | `Dependency.swift` |
| target_module.dfy | TargetModule | `Target+Module.swift` |
| tuist_project.dfy | TuistProject | `Project.swift` |
| carthage_graph_generator.dfy | CarthageGraphGenerator | `generate(at:)` |
| cocoapods_graph_mapper.dfy | CocoaPodsGraphMapper | `map(graph:)` |
| xcode_build_locator.dfy | XcodeBuildLocator | `buildDirectory(for:configuration:sdk:developerEnvironment:)` |
| github_release.dfy | GitHubRelease | `GitHubRelease`, `GitHubReleaseAsset`, `latest(repositoryFullName:)` |
| build_service.dfy | BuildService | `BuildService.run` and `buildScheme` |
| doc_service.dfy | DocService | `DocService.run` |
| storyboard_generator.dfy | StoryboardGenerator | `generateMain`, `generateLaunchScreen`, the storyboard template |

## Where the model departs from the text of the code

- **`ValueGraphTraverser` stubs.** The live members of
  `ValueGraphTraverser` are stubs that return empty sets or `nil`. The only
  exception is `hasPackages`. Each stub carries its intended implementation
  as a commented-out body. The model follows those bodies, because the
  stubs state nothing.
- **`skip` polarity.** The documentation comment of `filterDependencies`
  (ValueGraphTraverser.swift:131) says a `false` from `skip` stops the walk.
  The code at :159-161 does the opposite: a `true` stops it. The model
  follows the code. `FilterDependencies` states that a skipped node is still
  collected when `test` holds. `BehindSkippedUnreachable` states that its
  successors are not reached through it.
- **Non-compiling spots.** The model follows the evident intent at these
  places:
  - `Settings.swift` assigns an undeclared `configurations` field (:140, :165). The model gives `Settings` a `configurations` list.
  - `Settings.swift` assigns a `[String: String]` base to a `[String: SettingValue]` field (:161-164). String settings are wrapped as string values.
  - `CustomConfiguration.debug` and `.release` pass their `[String: String]` settings to `Configuration(settings:)`, which takes `[String: SettingValue]` (:98, :110). The model's `DebugConfiguration` and `ReleaseConfiguration` keep the string settings and wrap each one as a string value (`WrapStrings`), as for the base at :161-164.
  - `BuildService.swift` omits the `outputPath` argument of `buildScheme` (:86, :92).
- **Traps become errors.** The model turns crashes into error results:
  - `tool!` in `shellScript` (TargetAction.swift:173) fails with `ToolMissing`;
  - the force-unwrapped trimmed lookup output in `shellScript` (TargetAction.swift:173) is folded into the `which` parameter, which answers `None` for it;
  - `workspacePath(...)!` in `buildScheme` (BuildService.swift:115) fails with `WorkspaceMissing`;
  - the decoder's `preconditionFailure` (Settings.swift:30) becomes a `None` result.

## Model

| member | source | states |
|---|---|---|
| ValueGraphTraverser.HasPackages | Sources/TuistCore/ValueGraph/ValueGraphTraverser.swift:8-13 | true exactly when some node's dependency set holds a package product |
| ValueGraphTraverser.FilterDependencies | Sources/TuistCore/ValueGraph/ValueGraphTraverser.swift:132-171 | terminates on any graph, cycles included. The result never holds the root. A node is in it exactly when it differs from the root, satisfies `test`, and is discovered by a walk that expands the root and every non-skipped node. So a skipped node is still collected, but nothing is pushed from it. Every result is the head of some edge |
| ValueGraphTraverser.TransitiveClosure | Sources/TuistCore/ValueGraph/ValueGraphTraverser.swift:132-134 | with the default closures, the result is the whole transitive closure of the root, minus the root |
| ValueGraphTraverser.NeverSkipIsClosure | Sources/TuistCore/ValueGraph/ValueGraphTraverser.swift:132-134 | a walk that never skips discovers exactly the nodes reachable along edges |
| ValueGraphTraverser.PrunedWithinClosure | Sources/TuistCore/ValueGraph/ValueGraphTraverser.swift:159-167 | pruning only removes nodes: whatever a pruned walk discovers is reachable along edges |
| ValueGraphTraverser.ReachedThroughExpanded | Sources/TuistCore/ValueGraph/ValueGraphTraverser.swift:163-167 | a discovered node other than the root was pushed by an expanded predecessor |
| ValueGraphTraverser.BehindSkippedUnreachable | Sources/TuistCore/ValueGraph/ValueGraphTraverser.swift:159-167 | a node whose every predecessor is a skipped non-root node is never discovered |
| ValueGraphTraverser.ReachableIsEdgeTarget | Sources/TuistCore/ValueGraph/ValueGraphTraverser.swift:163-167 | a discovered node other than the root is the head of some edge of the graph |
| ValueGraphTraverser.TargetAt | Sources/TuistCore/ValueGraph/ValueGraphTraverser.swift:23-26 | a target is found exactly when the project and the name are both present, and it is the stored one |
| ValueGraphTraverser.TargetsAt | Sources/TuistCore/ValueGraph/ValueGraphTraverser.swift:28-32 | empty for an unknown project; otherwise exactly the stored targets of that project |
| ValueGraphTraverser.TargetFrom | Sources/TuistCore/ValueGraph/ValueGraphTraverser.swift:73-79 | only a `.target` dependency yields a target, namely the one stored under its path and name |
| ValueGraphTraverser.DirectTargetDependencies | Sources/TuistCore/ValueGraph/ValueGraphTraverser.swift:34-43 | exactly the targets named by the direct dependencies of `(path, name)` that the graph holds |
| ValueGraphTraverser.ResourceBundleDependencies | Sources/TuistCore/ValueGraph/ValueGraphTraverser.swift:45-64 | empty when the target is absent or does not support resources. Otherwise, exactly the bundle targets other than the root that are discovered by a walk pruned at resource-capable targets |
| ValueGraphTraverser.BundleBehindHostNotClaimed | Sources/TuistCore/ValueGraph/ValueGraphTraverser.swift:50-60 | a bundle reachable only through other resource hosts is not discovered from the root |
| ValueGraphTraverser.TestTargetsDependingOn | Sources/TuistCore/ValueGraph/ValueGraphTraverser.swift:66-71 | only test-bundle targets of the same project that have a direct edge to the target |
| ValueGraphTraverser.ReverseIndex | Sources/TuistCore/ValueGraph/ValueGraphTraverser.swift:68-70 | the index holds an entry for an edge exactly when the graph has that edge |
| ValueGraphTraverser.ScanAgreesWithIndex | Sources/TuistCore/ValueGraph/ValueGraphTraverser.swift:66-71 | scanning the project's targets gives the same answer as looking up the reverse index |
| ValueGraphTraverser.TestTargetFollowsEdge | Sources/TuistCore/ValueGraph/ValueGraphTraverser.swift:68-70 | a same-project test bundle with a direct edge is in the result, and is not once that edge is removed |
| ValueGraphTraverser.AppExtensionDependencies | Sources/TuistCore/ValueGraph/ValueGraphTraverser.swift:81-88 | exactly the direct target dependencies whose product is one of the four extension kinds |
| ValueGraphTraverser.AppClipsDependency | Sources/TuistCore/ValueGraph/ValueGraphTraverser.swift:90-94 | some direct dependency that is an app clip, and `nil` exactly when there is none |
| ValueGraphTraverser.DirectStaticDependencies | Sources/TuistCore/ValueGraph/ValueGraphTraverser.swift:96-108 | exactly the product references of direct target dependencies with a static product |
| ValueGraphTraverser.OneHopReach | Sources/TuistCore/ValueGraph/ValueGraphTraverser.swift:144-166 | a walk whose `skip` holds for every node discovers, apart from the root, exactly the root's direct dependencies |
| ValueGraphTraverser.DirectByWalk | Sources/TuistCore/ValueGraph/ValueGraphTraverser.swift:144-166 | `filterDependencies` with a `skip` that always holds collects exactly the root's direct dependencies, other than the root, that pass `test` |
| ValueGraphTraverser.AppExtensionsByWalk | Sources/TuistCore/ValueGraph/ValueGraphTraverser.swift:81-88 | the traversal's one-hop answer is contained in `appExtensionDependencies`, and equals it when the target has no edge to itself |
| ValueGraphTraverser.DirectStaticsByWalk | Sources/TuistCore/ValueGraph/ValueGraphTraverser.swift:96-108 | the traversal's one-hop answer is contained in `directStaticDependencies`, and equals it when the target has no edge to itself |
| ValueGraphTraverser.AllDependencies | Sources/TuistCore/ValueGraph/ValueGraphTraverser.swift:112-124 | exactly the nodes reachable from some target of the project, each walk leaving out its own start |
| TargetActions.FileAction | Sources/TuistCore/Models/TargetAction.swift:105-126 | not embedded. The tool, path and arguments read back exactly as passed, and every other field is stored unchanged |
| TargetActions.TextAction | Sources/TuistCore/Models/TargetAction.swift:140-159 | embedded, with no tool, no path and no arguments; every other field is stored unchanged |
| TargetActions.EmbeddedIffTextInitialiser | Sources/TuistCore/Models/TargetAction.swift:31-38 | an action is embedded exactly when some text makes the text initialiser, applied to its other fields, rebuild it. It is a file action exactly when the file initialiser, applied to its accessors, rebuilds it |
| TargetActions.InitialiserDefaults | Sources/TuistCore/Models/TargetAction.swift:105-115 | both initialisers default to logging environment variables, no dependency analysis, and empty path lists |
| TargetActions.ShellScript | Sources/TuistCore/Models/TargetAction.swift:167-175 | a text action yields its text verbatim. With a path, the result is `"${PROJECT_DIR}"/` + the relative path + a space + the arguments joined by spaces. Otherwise the tool is looked up; a missing tool fails |
| TargetActions.PathTakesPrecedence | Sources/TuistCore/Models/TargetAction.swift:170-173 | with a script path, neither the tool nor the tool lookup affects the result |
| TargetActions.ArgumentsRecoverable | Sources/TuistCore/Models/TargetAction.swift:170-171 | given at least one argument, and no space in the relative path or any argument, the space-separated words after the script path are exactly the arguments |
| TargetActions.PreActions | Sources/TuistCore/Models/TargetAction.swift:179-181 | only pre actions |
| TargetActions.PostActions | Sources/TuistCore/Models/TargetAction.swift:183-185 | only post actions |
| TargetActions.PrePostPartition | Sources/TuistCore/Models/TargetAction.swift:178-186 | every action lands in exactly one of the two lists (the multisets add up to the input) |
| TargetActions.FiltersKeepOrder | Sources/TuistCore/Models/TargetAction.swift:178-186 | both filters distribute over concatenation, so relative order is kept |
| ProjectSettings.FromStringLiteral | Sources/ProjectDescription/Settings.swift:9-11 | a string literal is a string value holding that string |
| ProjectSettings.FromArrayLiteral | Sources/ProjectDescription/Settings.swift:13-15 | an array literal is an array value holding those elements |
| ProjectSettings.EncodeSettingValue | Sources/ProjectDescription/Settings.swift:33-41 | a string value encodes as that JSON string, and an array as a JSON array of its strings, element by element |
| ProjectSettings.DecodeSettingValue | Sources/ProjectDescription/Settings.swift:17-31 | a JSON string always decodes as that string value, taking precedence over an array. An array of strings decodes as the array value holding those strings in order. Anything else fails |
| ProjectSettings.SettingValueRoundTrip | Sources/ProjectDescription/Settings.swift:17-41 | decoding an encoded value gives it back, for both cases |
| ProjectSettings.MakeConfiguration | Sources/ProjectDescription/Settings.swift:56-59 | the settings and the xcconfig are stored as given |
| ProjectSettings.ConfigurationSettings | Sources/ProjectDescription/Settings.swift:61-63 | the same configuration as the initialiser |
| ProjectSettings.DebugConfiguration | Sources/ProjectDescription/Settings.swift:97-100 | the given name with the Debug variant, carrying the given string settings, each wrapped as a string value, and the xcconfig |
| ProjectSettings.ReleaseConfiguration | Sources/ProjectDescription/Settings.swift:109-112 | the given name with the Release variant, carrying the given string settings, each wrapped as a string value, and the xcconfig |
| ProjectSettings.SettingsWithDefaults | Sources/ProjectDescription/Settings.swift:136-146 | exactly `[Debug/.debug, Release/.release]` in that order, wrapping the given configurations, with the base and the default settings as given |
| ProjectSettings.SettingsWithConfigurations | Sources/ProjectDescription/Settings.swift:161-167 | the configurations as given, the string base settings wrapped as values, and the default settings as given |
| ProjectSettings.DefaultsAreRecommended | Sources/ProjectDescription/Settings.swift:136-167 | both initialisers default to `.recommended` and to empty base settings |
| ModuleHelper.Name | Tuist/ProjectDescriptionHelpers/Module.swift:9-16 | `ProjectDescription` for that module, otherwise `Tuist` + the capitalised raw value |
| ModuleHelper.ModuleDependency | Tuist/ProjectDescriptionHelpers/Module.swift:17-19 | a target dependency on the module's name |
| ModuleHelper.TestingName | Tuist/ProjectDescriptionHelpers/Module.swift:21-28 | `nil` exactly for `projectDescription`, otherwise `Tuist<Cap>Testing` |
| ModuleHelper.TestingDependency | Tuist/ProjectDescriptionHelpers/Module.swift:29-31 | `nil` exactly when there is no testing name, otherwise a target dependency on it |
| ModuleHelper.TestsName | Tuist/ProjectDescriptionHelpers/Module.swift:33-40 | never `nil`: `ProjectDescriptionTests` or `Tuist<Cap>Tests` |
| ModuleHelper.DerivedNames | Tuist/ProjectDescriptionHelpers/Module.swift:9-40 | the tests and testing names are the main name plus `Tests` and `Testing` |
| ModuleHelper.ConcreteNames | Tuist/ProjectDescriptionHelpers/Module.swift:9-16 | the names are `TuistSupport`, `TuistGraph` and `ProjectDescription` |
| ModuleHelper.ConcreteTestingNames | Tuist/ProjectDescriptionHelpers/Module.swift:21-28 | the testing names are `TuistSupportTesting` and `TuistGraphTesting` |
| ModuleHelper.NameInjective | Tuist/ProjectDescriptionHelpers/Module.swift:9-16 | different modules have different names |
| ModuleHelper.TargetNamesDistinct | Tuist/ProjectDescriptionHelpers/Module.swift:9-40 | a module's main, tests and testing names are pairwise different |
| DependencyHelper.PackageOf | Tuist/ProjectDescriptionHelpers/Dependency.swift:18-41 | only `swiftToolsSupport` and `zip` use up-to-next-minor requirements; the three Rx cases map to the one RxSwift package |
| DependencyHelper.SamePackageOnlyForRx | Tuist/ProjectDescriptionHelpers/Dependency.swift:18-41 | two cases share a package exactly when they are equal or both Rx products |
| DependencyHelper.PackageTargetDependency | Tuist/ProjectDescriptionHelpers/Dependency.swift:43-70 | always a package-product dependency on the case's product |
| DependencyHelper.ProductNameInjective | Tuist/ProjectDescriptionHelpers/Dependency.swift:43-70 | different cases give different target dependencies, in both directions |
| DependencyHelper.AllCases | Tuist/ProjectDescriptionHelpers/Dependency.swift:4-16 | twelve cases, pairwise different |
| DependencyHelper.AllCasesComplete | Tuist/ProjectDescriptionHelpers/Dependency.swift:4-16 | every case is listed |
| DependencyHelper.TargetDependencyOf | Tuist/ProjectDescriptionHelpers/Dependency.swift:77-82 | a local dependency is itself; a third-party one is its package's product |
| DependencyHelper.TargetDependencies | Tuist/ProjectDescriptionHelpers/Target+Module.swift:13 | the element-wise map, keeping length and order |
| TargetModule.ModuleSettings | Tuist/ProjectDescriptionHelpers/Target+Module.swift:28-31 | a Debug and a Release configuration with empty settings, no base and recommended defaults |
| TargetModule.TestDependencies | Tuist/ProjectDescriptionHelpers/Target+Module.swift:13-16 | the dependencies, then the module, then the extras, then the testing dependency when there is one |
| TargetModule.TestingDependencies | Tuist/ProjectDescriptionHelpers/Target+Module.swift:17 | the dependencies, then the module, then the extras |
| TargetModule.ModuleTargets | Tuist/ProjectDescriptionHelpers/Target+Module.swift:5-63 | main, tests, then testing (for modules that have one), with the right names, products, source globs and dependencies. Every target is macOS, uses `io.tuist.<name>`, and has the default Info.plist and settings |
| TargetModule.ModuleTargetsDistinct | Tuist/ProjectDescriptionHelpers/Target+Module.swift:19-60 | the targets of one module have pairwise different names and bundle identifiers |
| TargetModule.TestsLinkModule | Tuist/ProjectDescriptionHelpers/Target+Module.swift:13-17 | the tests and testing targets link the main target, and the tests link the testing target |
| TuistProject.DebugSettings | Project.swift:6-10 | the base settings plus `ENABLE_TESTABILITY = YES`, and nothing else changed |
| TuistProject.ReleaseSettings | Project.swift:12-15 | the base settings unchanged |
| TuistProject.DebugIsReleaseWithTestability | Project.swift:4-15 | Debug is Release with the testability switch added |
| TuistProject.Dedup | Project.swift:64 | the same elements, each once |
| TuistProject.AllPackages | Project.swift:64 | every case's package, in case order |
| TuistProject.Packages | Project.swift:64 | no duplicates, and only packages some case names |
| TuistProject.EveryCasePackaged | Project.swift:64 | every case's package is in the list |
| TuistProject.SupportTesting | Project.swift:24 | a local dependency on `TuistSupportTesting` |
| TuistProject.Targets | Project.swift:17-59 | eight targets |
| TuistProject.DescriptionShape | Project.swift:20-25 | ProjectDescription gives a framework and its unit tests |
| TuistProject.SupportShape | Project.swift:27-43 | support gives a static library, its unit tests and a static testing library |
| TuistProject.GraphShape | Project.swift:44-57 | graph gives a static library, its unit tests and a static testing library |
| TuistProject.TargetsLayout | Project.swift:17-59 | groups in the order ProjectDescription, support, graph; only the first target is a framework |
| TuistProject.ProjectSettingsOf | Project.swift:65-68 | Debug then Release, carrying the Debug and Release settings |
| TuistProject.TuistManifest | Project.swift:61-70 | named Tuist, with eight targets and no duplicate packages |
| TuistProject.ManifestConfigurations | Project.swift:65-68 | exactly the Debug and Release configurations, in that order |
| CarthageGraphGenerator.VersionFiles | Sources/TuistDependencies/Carthage/Utils/CarthageGraphGenerator.swift:19-21 | exactly the entries with extension `version` |
| CarthageGraphGenerator.ReadAll | Sources/TuistDependencies/Carthage/Utils/CarthageGraphGenerator.swift:24-25 | succeeds exactly when every read does, keeping order; otherwise the first failure |
| CarthageGraphGenerator.DecodeAll | Sources/TuistDependencies/Carthage/Utils/CarthageGraphGenerator.swift:26 | succeeds exactly when every decode does, keeping order; otherwise the first failure |
| CarthageGraphGenerator.AllProducts | Sources/TuistDependencies/Carthage/Utils/CarthageGraphGenerator.swift:27 | exactly the products of all files, the first file's products leading |
| CarthageGraphGenerator.FirstContainerConcat | Sources/TuistDependencies/Carthage/Utils/CarthageGraphGenerator.swift:27-33 | in a concatenation of product lists, a name's first container comes from the first list that has the name |
| CarthageGraphGenerator.FirstContainerByFile | Sources/TuistDependencies/Carthage/Utils/CarthageGraphGenerator.swift:27-33 | the flattening keeps file order: a name's first container is the one the earliest version file with that name gives it |
| CarthageGraphGenerator.FrameworkPath | Sources/TuistDependencies/Carthage/Utils/CarthageGraphGenerator.swift:35-41 | four components below `/`, ending in the container |
| CarthageGraphGenerator.FirstContainer | Sources/TuistDependencies/Carthage/Utils/CarthageGraphGenerator.swift:32-33 | present exactly for names some product has |
| CarthageGraphGenerator.Group | Sources/TuistDependencies/Carthage/Utils/CarthageGraphGenerator.swift:29-44 | each name maps to a single xcframework four levels below `/` |
| CarthageGraphGenerator.GroupIsFirstByName | Sources/TuistDependencies/Carthage/Utils/CarthageGraphGenerator.swift:29-44 | the keys are exactly the product names, each taking the first product's container |
| CarthageGraphGenerator.Generate | Sources/TuistDependencies/Carthage/Utils/CarthageGraphGenerator.swift:18-47 | a listing failure is the result. No external projects. Every key maps to one xcframework |
| CarthageGraphGenerator.GenerateOutcome | Sources/TuistDependencies/Carthage/Utils/CarthageGraphGenerator.swift:19-46 | a read or decode failure is the result, with no partial graph. On success, the keys are exactly the product names, each with its first container |
| CocoaPodsGraphMapper.MapNodes | Sources/TuistKit/GraphMappers/CocoaPodsGraphMapper.swift:7-15 | same length and order, each node given the placeholder script |
| CocoaPodsGraphMapper.Map | Sources/TuistKit/GraphMappers/CocoaPodsGraphMapper.swift:5-21 | no side effects and the same project keys. Target lists keep their lengths. Every target's scripts become the one placeholder, and nothing else changes |
| CocoaPodsGraphMapper.MapIdempotent | Sources/TuistKit/GraphMappers/CocoaPodsGraphMapper.swift:6-20 | mapping the mapped graph gives it back |
| XcodeBuildLocator.BuildDirectory | Sources/TuistAutomation/XcodeBuild/XcodeBuildLocator.swift:8-18 | a hasher failure propagates. Otherwise the path is derived data + `<basename>-<hash>`, `Build`, `Products`, `<configuration>-<sdk>`: four components deeper |
| XcodeBuildLocator.SamePathSameDirectory | Sources/TuistAutomation/XcodeBuild/XcodeBuildLocator.swift:10-11 | only the target's path matters: a project and a workspace at one path share a directory |
| XcodeBuildLocator.ConfigurationsApart | Sources/TuistAutomation/XcodeBuild/XcodeBuildLocator.swift:13-17 | different configurations for one SDK land in different directories |
| GitHubRelease.AssetKey | Sources/TuistSupport/GitHubClient/GitHubReleaseAsset.swift:17-20 | `name` under `name`, `browserDownloadURL` under `browser_download_url` |
| GitHubRelease.DecodeAsset | Sources/TuistSupport/GitHubClient/GitHubReleaseAsset.swift:3-20 | succeeds exactly when both keys hold strings |
| GitHubRelease.AssetRoundTrip | Sources/TuistSupport/GitHubClient/GitHubReleaseAsset.swift:3-20 | an encoded asset decodes to itself |
| GitHubRelease.DecodeAssets | Sources/TuistSupport/GitHubClient/GitHubRelease.swift:18 | succeeds exactly when every element is an asset, keeping the length |
| GitHubRelease.AssetsRoundTrip | Sources/TuistSupport/GitHubClient/GitHubRelease.swift:18 | an encoded asset list decodes to itself |
| GitHubRelease.ReleaseKey | Sources/TuistSupport/GitHubClient/GitHubRelease.swift:20-26 | `tagName` is stored under `tag_name`; the other fields keep their own names |
| GitHubRelease.ReleaseKeysDistinct | Sources/TuistSupport/GitHubClient/GitHubRelease.swift:20-26 | different fields use different keys |
| GitHubRelease.DecodeRelease | Sources/TuistSupport/GitHubClient/GitHubRelease.swift:20-26 | the tag is read from `tag_name`, and without it decoding fails |
| GitHubRelease.ReleaseRoundTrip | Sources/TuistSupport/GitHubClient/GitHubRelease.swift:4-39 | an encoded release decodes to itself, so every field is kept |
| GitHubRelease.Latest | Sources/TuistSupport/GitHubClient/GitHubRelease.swift:44-52 | a GET against the API URL, of the path `/repos/<full name>/releases/latest` |
| GitHubRelease.LatestInjective | Sources/TuistSupport/GitHubClient/GitHubRelease.swift:44-47 | different repositories get different requests |
| BuildService.ErrorTypeOf | Sources/TuistKit/Services/BuildService.swift:25-32 | both errors abort |
| BuildService.DescriptionNamesSchemes | Sources/TuistKit/Services/BuildService.swift:17-18 | the not-found message names the requested scheme and every available one |
| BuildService.MustGenerate | Sources/TuistKit/Services/BuildService.swift:72 | regenerate when asked to or when no workspace exists; a lookup failure is the result |
| BuildService.LoadGraph | Sources/TuistKit/Services/BuildService.swift:72-76 | one generate call when regenerating, otherwise one load call |
| BuildService.SchemeNames | Sources/TuistKit/Services/BuildService.swift:84 | the names, in order |
| BuildService.FirstNamed | Sources/TuistKit/Services/BuildService.swift:83 | the first scheme with the name, or `nil` exactly when there is none |
| BuildService.BuildScheme | Sources/TuistKit/Services/BuildService.swift:110-127 | no buildable target fails before any build. Otherwise at most one build, exactly when a workspace is found: of this scheme, on that workspace, with the given `clean` and the arguments the inspector gives for the scheme's buildable target and the configuration. It succeeds exactly when that build does |
| BuildService.BuildAllSucceeds | Sources/TuistKit/Services/BuildService.swift:87-94 | the entry builds succeed exactly when each scheme's `buildScheme`, with `clean` for the first only, succeeds |
| BuildService.BuildAllFirstFailure | Sources/TuistKit/Services/BuildService.swift:87-94 | a failed run of the entry builds fails with the outcome of the first failing scheme's build, every earlier one having succeeded |
| BuildService.BuildAllCalls | Sources/TuistKit/Services/BuildService.swift:87-127 | at most one build per entry scheme, one for each on success; the `k`-th build is the one `buildScheme` asks for the `k`-th scheme, cleaning only for the first and only when `clean` is set |
| BuildService.BuildEntries | Sources/TuistKit/Services/BuildService.swift:87-94 | the `forEach` with its `cleaned` flag agrees with the recursive definition `BuildAll`. It succeeds exactly when every scheme's build does; on failure its outcome is the first failing build's and the later schemes are not built. The builds are in order, at most one each, all of them on success, and only the first cleans, and only when `clean` is set. Each build is the one `buildScheme` asks for: that scheme's target arguments, on the found workspace |
| BuildService.Run | Sources/TuistKit/Services/BuildService.swift:63-106 | a load failure is the result, with only the load's calls. An absent named scheme fails, listing the buildable schemes, with no build. A present one gets exactly `buildScheme` with the caller's `clean`: its outcome is the run's and its calls follow the load. With no name, the outcome and calls are those of the entry builds (`BuildAll`): in order, only the first cleaning, stopping at the first failure. Every build runs on the workspace found after loading, with the inspector's arguments for the scheme's target and the configuration |
| DocService.ErrorTypeOf | Sources/TuistKit/Services/DocService.swift:24-31 | both errors abort |
| DocService.Candidates | Sources/TuistKit/Services/DocService.swift:62-64 | exactly the targets that do not depend on XCTest |
| DocService.FirstNamed | Sources/TuistKit/Services/DocService.swift:66 | the first target with the name (no earlier target has it), or `nil` exactly when there is none |
| DocService.BaseURL | Sources/TuistKit/Services/DocService.swift:75 | the server's base URL followed by `:4040` |
| DocService.MapError | Sources/TuistKit/Services/DocService.swift:93 | a collaborator's failure is carried unchanged |
| DocService.GenerateAndServe | Sources/TuistKit/Services/DocService.swift:77-94 | generates with HTML, the target name and the base URL. A missing `index.html` fails with `documentationNotGenerated` and never serves. A generator failure is the outcome, with no further call. Otherwise it serves the directory on 4040, and the server's result is the outcome |
| DocService.Run | Sources/TuistKit/Services/DocService.swift:59-95 | a load failure or an unknown target fails before generation, with only the load call. A temporary-directory failure is the outcome, with nothing generated. Otherwise the outcome and calls after the load are `GenerateAndServe`'s for the first matching target: a generator failure is the result; a generation with no `index.html` fails with `documentationNotGenerated`; otherwise the server is started on the directory and its result is the outcome |
| DocService.TestTargetsNotDocumented | Sources/TuistKit/Services/DocService.swift:62-68 | a name carried only by XCTest-dependent targets gives `targetNotFound` |
| StoryboardGenerator.ErrorTypeOf | Sources/TuistKit/Storyboards/StoryboardGenerator.swift:18-23 | both errors abort |
| StoryboardGenerator.Header | Sources/TuistKit/Storyboards/StoryboardGenerator.swift:95-102 | the same header for every platform |
| StoryboardGenerator.Dependencies | Sources/TuistKit/Storyboards/StoryboardGenerator.swift:121-138 | iOS and tvOS share one block |
| StoryboardGenerator.GenerateMain | Sources/TuistKit/Storyboards/StoryboardGenerator.swift:46-57 | fails with `alreadyExisting(path/Main.storyboard)` exactly when that file exists, writing nothing. Otherwise it writes the platform's template there |
| StoryboardGenerator.GenerateLaunchScreen | Sources/TuistKit/Storyboards/StoryboardGenerator.swift:59-76 | an app on a platform without launch-screen support fails before any existence check, and other products skip that check. `Launch Screen.storyboard` already existing fails with `alreadyExisting`. Otherwise the rewritten template is written |
| StoryboardGenerator.ControllerAttributeRewrite | Sources/TuistKit/Storyboards/StoryboardGenerator.swift:72 | the rewrite turns an attribute holding `STE-27-s1a` into one holding `STE-27-s1b` |
| StoryboardGenerator.FlagAttributeRewrite | Sources/TuistKit/Storyboards/StoryboardGenerator.swift:71 | the rewrite turns `launchScreen="NO"` into `launchScreen="YES"` |
| StoryboardGenerator.DocumentRewrite | Sources/TuistKit/Storyboards/StoryboardGenerator.swift:104-119 | the rewritten document line is the document line with the launch flag and controller id |
| StoryboardGenerator.ScenesRewrite | Sources/TuistKit/Storyboards/StoryboardGenerator.swift:140-160 | the rewritten scenes are the scenes with the launch controller id |
| StoryboardGenerator.LaunchScreenIsTemplate | Sources/TuistKit/Storyboards/StoryboardGenerator.swift:70-72 | the rewrite of the main template is the template built with `launchScreen="YES"` and `STE-27-s1b` throughout |
| StoryboardGenerator.MacOSLaunchScreenIsMain | Sources/TuistKit/Storyboards/StoryboardGenerator.swift:110-113 | on macOS, which has neither target, the launch screen equals the main storyboard |
| StoryboardGenerator.TemplateCloses | Sources/TuistKit/Storyboards/StoryboardGenerator.swift:85-93 | on every platform the generated storyboard ends with the scene list's closing tag, a newline and `</document>`, with nothing after it |
| StoryboardGenerator.LaunchScreenWritten | Sources/TuistKit/Storyboards/StoryboardGenerator.swift:59-76 | a successful launch-screen generation writes the launch template |

## Left out

- `GraphTraverser`: a delegation to a `Graph` type that is not part of this model.
- `Generator`: pure sequencing of loaders, linters and writers that are not part of this model.
- The content hasher: only a mock of it exists.
- Mocks and test scaffolding.
- `Xcode.swift`: it reads a plist, which is I/O through a foreign decoder.
- `ValueGraphTraverser`'s record fields (`name`, `path`, `workspace`, `projects`): they only read the graph's fields.
- Set iteration order: where the source builds a `Set`, the model returns a set, or lists its elements in an order left open. `AppClipsDependency` returns some matching element.
- `Version`: a release's `tagName` is kept as its text, because `TSCUtility.Version` parsing is not part of this model.
- `String.capitalized` is modelled for ASCII letters only, which is all the module raw values use.
- Storyboard XML: the macOS scenes (StoryboardGenerator.swift:163-873) are abbreviated: their opening and closing lines are kept and the markup in between is shortened. The other XML fragments are written out, and every platform's storyboard ends with `</scenes>` and `</document>`. The rewrite touches none of the macOS scenes.
- StoryboardGenerator.LaunchScreenIsTemplate: it takes as a hypothesis (`InertFragments`) that the fixed XML pieces contain neither rewrite target. This is not proved of the literals themselves. The solver cannot settle that a long string literal lacks a substring.
- StoryboardGenerator.LaunchScreenWritten: holds under the same `InertFragments` hypothesis.
- StoryboardGenerator.MacOSLaunchScreenIsMain: holds under the same `InertFragments` hypothesis. In the source text, `launchScreen=` and `STE-27` occur only in the iOS and tvOS document heads and scenes (StoryboardGenerator.swift:108, 116, 148, 881); the hypothesis says the same of the model's pieces.
- Storyboard errors: their description text is left out. Whether a platform supports launch screens is a parameter.
- Writing the storyboard file: modelled as the returned path and content.
- `CarthageVersionFile`: reduced to its `allProducts` list. The JSON decoder is a parameter.
- `Constants`: the Tuist, Dependencies and Carthage directory names are named constants whose values the proofs do not use. The GitHub API URL is a parameter.
- `URLComponents` and `URLRequest`: the request is the method, base URL and path.
- `HTTPResource`: the response parsing it wraps is left out.
- Logging in `BuildService`: side effects only.
- `BuildService`'s `outputPath`: it is only mentioned in a TODO and never used.
- `printFormattedOutput` and RxBlocking: left out.
- CocoaPods mapper: it assigns through a shared reference. The model builds new values, which is what the mapping evidently intends.
- `DocService`: the temporary directory is a parameter that may fail, and its cleanup is left out.
- TuistProject.Dedup: states set equality and no duplicates, not an order, because `Array(Set(...))` leaves the order unspecified.
- BuildService.DescriptionNamesSchemes: states that the message contains each scheme name, not its exact format.
- `Description` texts of `DocServiceError` are left out.
