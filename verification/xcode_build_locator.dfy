/** Where `xcodebuild` puts the products of a project or workspace (`XcodeBuildLocator`). */
module XcodeBuildLocator {
  import opened Wrappers
  import opened Paths

  /** What gets built: a project or a workspace, at a path. */
  datatype XcodeBuildTarget = Project(projectPath: AbsolutePath) | Workspace(workspacePath: AbsolutePath) {
    function Path(): AbsolutePath
    {
      match this
      case Project(p) => p
      case Workspace(p) => p
    }
  }

  /** A failure of the path hasher, carried unchanged. */
  datatype HashError = HashError(message: string)

  /**
   * `buildDirectory(for:configuration:sdk:developerEnvironment:)`:
   * `<derivedData>/<name>-<hash>/Build/Products/<configuration>-<sdk>`, where
   * the hash is that of the target's path string. The hasher and the
   * derived-data directory are parameters.
   */
  function BuildDirectory(target: XcodeBuildTarget, configuration: string, sdk: string,
                          derivedData: AbsolutePath, hashString: string -> Result<string, HashError>)
    : (r: Result<AbsolutePath, HashError>)
    ensures r.Failure? <==> hashString(target.Path().PathString()).Failure?
    ensures r.Failure? ==> r.error == hashString(target.Path().PathString()).error
    ensures r.Success? ==> IsDescendant(r.value, derivedData, 4)
    ensures r.Success? ==>
              r.value.components[|derivedData.components|..]
                == [BasenameWithoutExt(target.Path()) + "-" + hashString(target.Path().PathString()).value,
                    "Build", "Products", configuration + "-" + sdk]
  {
    var hash :- hashString(target.Path().PathString());
    var r := derivedData
      .Appending(BasenameWithoutExt(target.Path()) + "-" + hash)
      .Appending("Build")
      .Appending("Products")
      .Appending(configuration + "-" + sdk);
    assert r.components == derivedData.components
      + [BasenameWithoutExt(target.Path()) + "-" + hash, "Build", "Products", configuration + "-" + sdk];
    Success(r)
  }

  /** Only the path matters: a project and a workspace at the same path share a build directory. */
  lemma SamePathSameDirectory(a: XcodeBuildTarget, b: XcodeBuildTarget, configuration: string, sdk: string,
                              derivedData: AbsolutePath, hashString: string -> Result<string, HashError>)
    requires a.Path() == b.Path()
    ensures BuildDirectory(a, configuration, sdk, derivedData, hashString)
         == BuildDirectory(b, configuration, sdk, derivedData, hashString)
  {
  }

  /** Different configurations built for one SDK land in different directories. */
  lemma ConfigurationsApart(target: XcodeBuildTarget, c1: string, c2: string, sdk: string,
                            derivedData: AbsolutePath, hashString: string -> Result<string, HashError>)
    requires c1 != c2
    ensures var r1 := BuildDirectory(target, c1, sdk, derivedData, hashString);
            var r2 := BuildDirectory(target, c2, sdk, derivedData, hashString);
            r1.Success? ==> r1.value != r2.value
  {
    var r1 := BuildDirectory(target, c1, sdk, derivedData, hashString);
    var r2 := BuildDirectory(target, c2, sdk, derivedData, hashString);
    DashSuffixCancels(c1, c2, sdk);
    if r1.Success? {
      var k := |derivedData.components|;
      assert r1.value.components[k + 3] == c1 + "-" + sdk;
      assert r2.value.components[k + 3] == c2 + "-" + sdk;
    }
  }

  /** `<configuration>-<sdk>` determines the configuration once the SDK is fixed. */
  lemma DashSuffixCancels(a: string, b: string, sdk: string)
    ensures a + "-" + sdk == b + "-" + sdk ==> a == b
  {
    var x, y := a + "-" + sdk, b + "-" + sdk;
    assert x[..|a|] == a && y[..|b|] == b;
  }
}
