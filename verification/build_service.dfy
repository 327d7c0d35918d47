/**
 * `tuist build` (`BuildService`): get the graph, pick the schemes, and ask
 * `xcodebuild` to build each one, cleaning only before the first build.
 * Every collaborator is a parameter; the result is the outcome plus the
 * calls made to the generator and to `xcodebuild`, in order.
 */
module BuildService {
  import opened Wrappers
  import opened Strings
  import opened Paths
  import opened FatalErrors

  datatype Scheme = Scheme(name: string)

  /** The target a scheme builds, as the build-graph inspector finds it. */
  datatype BuildableTarget = BuildableTarget(name: string, projectPath: AbsolutePath)

  /** A failure of a collaborator, carried unchanged. */
  datatype CollaboratorError = CollaboratorError(message: string)

  datatype BuildServiceError =
    | SchemeNotFound(scheme: string, existing: seq<string>)
    | SchemeWithoutBuildableTargets(scheme: string)

  /** Why a run stopped. */
  datatype BuildFailure =
    | ServiceError(error: BuildServiceError)
    | Collaborator(cause: CollaboratorError)
    /** The inspector found no workspace after the graph was loaded; the source force-unwraps here. */
    | WorkspaceMissing

  /** Both service errors abort the command. */
  function ErrorTypeOf(e: BuildServiceError): (t: ErrorType)
    ensures t == Abort
  {
    match e
    case SchemeNotFound(_, _) => Abort
    case SchemeWithoutBuildableTargets(_) => Abort
  }

  /** The error message; the available schemes are listed separated by ", ". */
  function Description(e: BuildServiceError): string
  {
    match e
    case SchemeNotFound(scheme, existing) =>
      "Couldn't find scheme " + scheme + ". The available schemes are: " + Join(existing, ", ") + "."
    case SchemeWithoutBuildableTargets(scheme) =>
      "The scheme " + scheme + " cannot be built because it contains no buildable targets."
  }

  /** The not-found message names the requested scheme and every available one. */
  lemma DescriptionNamesSchemes(scheme: string, existing: seq<string>)
    ensures Contains(Description(SchemeNotFound(scheme, existing)), scheme)
    ensures forall i :: 0 <= i < |existing| ==> Contains(Description(SchemeNotFound(scheme, existing)), existing[i])
  {
    var head := "Couldn't find scheme " + scheme + ". The available schemes are: ";
    var d := Description(SchemeNotFound(scheme, existing));
    assert d == head + Join(existing, ", ") + ".";
    assert OccursAt(scheme, scheme, 0);
    ContainsConcat("Couldn't find scheme ", scheme, scheme);
    ContainsConcat("Couldn't find scheme " + scheme, ". The available schemes are: ", scheme);
    ContainsConcat(head, Join(existing, ", ") + ".", scheme);
    forall i | 0 <= i < |existing|
      ensures Contains(d, existing[i])
    {
      JoinContains(existing, ", ", i);
      ContainsConcat(Join(existing, ", "), ".", existing[i]);
      ContainsConcat(head, Join(existing, ", ") + ".", existing[i]);
      assert d == head + (Join(existing, ", ") + ".");
    }
  }

  /** A call to the generator or to `xcodebuild`. */
  datatype Call =
    | GenerateCall(path: AbsolutePath)
    | LoadCall(path: AbsolutePath)
    | BuildCall(workspace: AbsolutePath, scheme: string, clean: bool, arguments: seq<string>)

  /**
   * The collaborators: the workspace lookup (as it answers before and after
   * generation), the generator, the build-graph inspector and `xcodebuild`.
   */
  datatype Collaborators<!G> = Collaborators(
    workspacePath: (AbsolutePath, bool) -> Result<Option<AbsolutePath>, CollaboratorError>,
    generate: AbsolutePath -> Result<G, CollaboratorError>,
    load: AbsolutePath -> Result<G, CollaboratorError>,
    buildableSchemes: G -> seq<Scheme>,
    buildableEntrySchemes: G -> seq<Scheme>,
    buildableTarget: (Scheme, G) -> Option<BuildableTarget>,
    buildArguments: (BuildableTarget, Option<string>) -> seq<string>,
    build: (AbsolutePath, string, bool, seq<string>) -> Result<(), CollaboratorError>)

  /** The graph is regenerated when asked to, or when there is no workspace yet. */
  function MustGenerate<G>(c: Collaborators<G>, generate: bool, path: AbsolutePath)
    : (r: Result<bool, BuildFailure>)
    ensures generate ==> r == Success(true)
    ensures !generate ==> (r.Failure? <==> c.workspacePath(path, false).Failure?)
    ensures !generate && r.Success? ==> (r.value <==> c.workspacePath(path, false).value.None?)
  {
    if generate then Success(true)
    else
      match c.workspacePath(path, false)
      case Failure(e) => Failure(Collaborator(e))
      case Success(w) => Success(w.None?)
  }

  /** The names of the schemes, in order. */
  function SchemeNames(schemes: seq<Scheme>): (r: seq<string>)
    ensures |r| == |schemes|
    ensures forall i :: 0 <= i < |schemes| ==> r[i] == schemes[i].name
  {
    if schemes == [] then [] else [schemes[0].name] + SchemeNames(schemes[1..])
  }

  /** `first(where: { $0.name == name })`. */
  function FirstNamed(schemes: seq<Scheme>, name: string): (r: Option<nat>)
    ensures r.None? <==> forall i :: 0 <= i < |schemes| ==> schemes[i].name != name
    ensures r.Some? ==> r.value < |schemes| && schemes[r.value].name == name
    ensures r.Some? ==> forall i :: 0 <= i < r.value ==> schemes[i].name != name
  {
    if schemes == [] then None
    else if schemes[0].name == name then Some(0)
    else
      match FirstNamed(schemes[1..], name)
      case None => None
      case Some(i) => Some(i + 1)
  }

  /**
   * `call` builds `scheme` the way `buildScheme` asks for it: on the workspace
   * the lookup finds, under the scheme's name, with the arguments the
   * inspector gives for the scheme's buildable target and the configuration.
   */
  predicate BuildsScheme<G>(c: Collaborators<G>, call: Call, scheme: Scheme, graph: G, path: AbsolutePath,
                            generated: bool, configuration: Option<string>)
  {
    && c.buildableTarget(scheme, graph).Some?
    && c.workspacePath(path, generated).Success? && c.workspacePath(path, generated).value.Some?
    && call.BuildCall?
    && call == BuildCall(c.workspacePath(path, generated).value.value, scheme.name, call.clean,
                         c.buildArguments(c.buildableTarget(scheme, graph).value, configuration))
  }

  /**
   * `buildScheme`: a scheme without a buildable target fails before any
   * build; otherwise one `xcodebuild` call, on the workspace, with the
   * inspector's arguments.
   */
  function BuildScheme<G>(c: Collaborators<G>, scheme: Scheme, graph: G, path: AbsolutePath, generated: bool,
                          clean: bool, configuration: Option<string>)
    : (r: (Result<(), BuildFailure>, seq<Call>))
    ensures c.buildableTarget(scheme, graph).None? ==>
              r == (Failure(ServiceError(SchemeWithoutBuildableTargets(scheme.name))), [])
    ensures |r.1| <= 1
    ensures |r.1| == 1 ==> r.1[0].BuildCall? && r.1[0].scheme == scheme.name && r.1[0].clean == clean
    ensures |r.1| == 1 <==> c.buildableTarget(scheme, graph).Some? && c.workspacePath(path, generated).Success?
                            && c.workspacePath(path, generated).value.Some?
    ensures |r.1| == 1 ==> BuildsScheme(c, r.1[0], scheme, graph, path, generated, configuration)
    ensures r.0.Success? <==> |r.1| == 1 && c.build(r.1[0].workspace, scheme.name, clean, r.1[0].arguments).Success?
  {
    match c.buildableTarget(scheme, graph)
    case None => (Failure(ServiceError(SchemeWithoutBuildableTargets(scheme.name))), [])
    case Some(target) =>
      match c.workspacePath(path, generated)
      case Failure(e) => (Failure(Collaborator(e)), [])
      case Success(None) => (Failure(WorkspaceMissing), [])
      case Success(Some(workspace)) =>
        var arguments := c.buildArguments(target, configuration);
        var call := BuildCall(workspace, scheme.name, clean, arguments);
        match c.build(workspace, scheme.name, clean, arguments)
        case Failure(e) => (Failure(Collaborator(e)), [call])
        case Success(_) => (Success(()), [call])
  }

  /** The graph the run works on, and the first call it makes. */
  function LoadGraph<G>(c: Collaborators<G>, generate: bool, path: AbsolutePath)
    : (r: (Result<(G, bool), BuildFailure>, seq<Call>))
    ensures MustGenerate(c, generate, path).Failure? ==> r == (Failure(MustGenerate(c, generate, path).error), [])
    ensures MustGenerate(c, generate, path) == Success(true) ==> r.1 == [GenerateCall(path)]
    ensures MustGenerate(c, generate, path) == Success(false) ==> r.1 == [LoadCall(path)]
    ensures r.0.Success? ==> r.0.value.1 == MustGenerate(c, generate, path).value
  {
    match MustGenerate(c, generate, path)
    case Failure(e) => (Failure(e), [])
    case Success(true) =>
      (match c.generate(path)
       case Failure(e) => Failure(Collaborator(e))
       case Success(g) => Success((g, true)), [GenerateCall(path)])
    case Success(false) =>
      (match c.load(path)
       case Failure(e) => Failure(Collaborator(e))
       case Success(g) => Success((g, false)), [LoadCall(path)])
  }

  /**
   * The entry schemes' builds as a recursive definition: each scheme in
   * order, `clean` for the first only, stopping at the first failure, whose
   * outcome is the result.
   */
  function BuildAll<G>(c: Collaborators<G>, entries: seq<Scheme>, graph: G, path: AbsolutePath, generated: bool,
                       clean: bool, configuration: Option<string>)
    : (r: (Result<(), BuildFailure>, seq<Call>))
    ensures entries == [] ==> r == (Success(()), [])
    decreases |entries|
  {
    if entries == [] then (Success(()), [])
    else
      var step := BuildScheme(c, entries[0], graph, path, generated, clean, configuration);
      if step.0.Failure? then step
      else
        var rest := BuildAll(c, entries[1..], graph, path, generated, false, configuration);
        (rest.0, step.1 + rest.1)
  }

  /** The `clean` flag the `k`-th entry scheme is built with. */
  function CleanAt(clean: bool, k: nat): bool
  {
    clean && k == 0
  }

  /** The entry builds succeed exactly when every scheme's build succeeds. */
  lemma {:induction false} BuildAllSucceeds<G>(c: Collaborators<G>, entries: seq<Scheme>, graph: G, path: AbsolutePath,
                                               generated: bool, clean: bool, configuration: Option<string>)
    ensures BuildAll(c, entries, graph, path, generated, clean, configuration).0.Success? <==>
              forall k :: 0 <= k < |entries| ==>
                BuildScheme(c, entries[k], graph, path, generated, CleanAt(clean, k), configuration).0.Success?
    decreases |entries|
  {
    if entries != [] {
      var step := BuildScheme(c, entries[0], graph, path, generated, clean, configuration);
      assert CleanAt(clean, 0) == clean;
      if step.0.Success? {
        BuildAllSucceeds(c, entries[1..], graph, path, generated, false, configuration);
        forall k | 1 <= k < |entries|
          ensures BuildScheme(c, entries[k], graph, path, generated, CleanAt(clean, k), configuration)
               == BuildScheme(c, entries[1..][k - 1], graph, path, generated, CleanAt(false, k - 1), configuration)
        {
        }
      }
    }
  }

  /** A failed run of the entry builds fails as the first failing scheme's build does, every earlier one having succeeded. */
  lemma {:induction false} BuildAllFirstFailure<G>(c: Collaborators<G>, entries: seq<Scheme>, graph: G, path: AbsolutePath,
                                                   generated: bool, clean: bool, configuration: Option<string>)
    ensures var r := BuildAll(c, entries, graph, path, generated, clean, configuration).0;
            r.Failure? ==>
              exists i :: 0 <= i < |entries| &&
                r == BuildScheme(c, entries[i], graph, path, generated, CleanAt(clean, i), configuration).0 &&
                forall k :: 0 <= k < i ==>
                  BuildScheme(c, entries[k], graph, path, generated, CleanAt(clean, k), configuration).0.Success?
    decreases |entries|
  {
    var r := BuildAll(c, entries, graph, path, generated, clean, configuration).0;
    if entries != [] && r.Failure? {
      var step := BuildScheme(c, entries[0], graph, path, generated, clean, configuration);
      assert CleanAt(clean, 0) == clean;
      if step.0.Failure? {
        assert r == step.0;
      } else {
        BuildAllFirstFailure(c, entries[1..], graph, path, generated, false, configuration);
        var j :| 0 <= j < |entries[1..]| &&
                 r == BuildScheme(c, entries[1..][j], graph, path, generated, CleanAt(false, j), configuration).0 &&
                 forall k :: 0 <= k < j ==>
                   BuildScheme(c, entries[1..][k], graph, path, generated, CleanAt(false, k), configuration).0.Success?;
        assert entries[1..][j] == entries[j + 1] && CleanAt(false, j) == CleanAt(clean, j + 1);
        forall k | 0 <= k < j + 1
          ensures BuildScheme(c, entries[k], graph, path, generated, CleanAt(clean, k), configuration).0.Success?
        {
          if k > 0 {
            assert entries[1..][k - 1] == entries[k] && CleanAt(false, k - 1) == CleanAt(clean, k);
          }
        }
      }
    }
  }

  /**
   * The calls the entry builds make: at most one per scheme, one for each
   * when they all succeed, the `k`-th being the build `buildScheme` asks for
   * the `k`-th scheme, cleaning for the first only.
   */
  lemma {:induction false} BuildAllCalls<G>(c: Collaborators<G>, entries: seq<Scheme>, graph: G, path: AbsolutePath,
                                            generated: bool, clean: bool, configuration: Option<string>)
    ensures var r := BuildAll(c, entries, graph, path, generated, clean, configuration);
            && |r.1| <= |entries|
            && (r.0.Success? ==> |r.1| == |entries|)
            && forall k :: 0 <= k < |r.1| ==>
                 BuildsScheme(c, r.1[k], entries[k], graph, path, generated, configuration) && (r.1[k].clean <==> CleanAt(clean, k))
    decreases |entries|
  {
    if entries != [] {
      var step := BuildScheme(c, entries[0], graph, path, generated, clean, configuration);
      if step.0.Success? {
        BuildAllCalls(c, entries[1..], graph, path, generated, false, configuration);
        var rest := BuildAll(c, entries[1..], graph, path, generated, false, configuration);
        var r := BuildAll(c, entries, graph, path, generated, clean, configuration);
        assert r.1 == step.1 + rest.1;
        forall k | 1 <= k < |r.1|
          ensures BuildsScheme(c, r.1[k], entries[k], graph, path, generated, configuration) && (r.1[k].clean <==> CleanAt(clean, k))
        {
          assert r.1[k] == rest.1[k - 1] && entries[1..][k - 1] == entries[k];
        }
      }
    }
  }

  /** The facts `BuildAllCalls` gives, for an outcome known to be `BuildAll`'s. */
  lemma EntryCalls<G>(c: Collaborators<G>, entries: seq<Scheme>, graph: G, path: AbsolutePath, generated: bool,
                      clean: bool, configuration: Option<string>, r: Result<(), BuildFailure>, builds: seq<Call>)
    requires (r, builds) == BuildAll(c, entries, graph, path, generated, clean, configuration)
    ensures |builds| <= |entries|
    ensures r.Success? ==> |builds| == |entries|
    ensures forall k :: 0 <= k < |builds| ==> builds[k].BuildCall? && builds[k].scheme == entries[k].name
    ensures forall k :: 0 <= k < |builds| ==> (builds[k].clean <==> clean && k == 0)
    ensures forall k :: 0 <= k < |builds| ==>
              BuildsScheme(c, builds[k], entries[k], graph, path, generated, configuration)
  {
    BuildAllCalls(c, entries, graph, path, generated, clean, configuration);
  }

  /**
   * The `forEach` over the entry schemes: each is built in order, `clean`
   * goes to the first build only, and the first failure stops the rest.
   * The source's `cleaned` flag is the recursion's: the first scheme gets
   * `clean`, the schemes after it `false`.
   */
  method BuildEntries<G>(c: Collaborators<G>, entries: seq<Scheme>, graph: G, path: AbsolutePath, generated: bool,
                         clean: bool, configuration: Option<string>)
    returns (r: Result<(), BuildFailure>, builds: seq<Call>)
    ensures (r, builds) == BuildAll(c, entries, graph, path, generated, clean, configuration)
    ensures r.Success? <==> forall k :: 0 <= k < |entries| ==>
              BuildScheme(c, entries[k], graph, path, generated, CleanAt(clean, k), configuration).0.Success?
    ensures r.Failure? ==>
              exists i :: 0 <= i < |entries| &&
                r == BuildScheme(c, entries[i], graph, path, generated, CleanAt(clean, i), configuration).0 &&
                forall k :: 0 <= k < i ==>
                  BuildScheme(c, entries[k], graph, path, generated, CleanAt(clean, k), configuration).0.Success?
    ensures |builds| <= |entries|
    ensures r.Success? ==> |builds| == |entries|
    ensures forall k :: 0 <= k < |builds| ==> builds[k].BuildCall? && builds[k].scheme == entries[k].name
    ensures forall k :: 0 <= k < |builds| ==> (builds[k].clean <==> clean && k == 0)
    ensures forall k :: 0 <= k < |builds| ==>
              BuildsScheme(c, builds[k], entries[k], graph, path, generated, configuration)
  {
    if entries == [] {
      r, builds := Success(()), [];
    } else {
      var step := BuildScheme(c, entries[0], graph, path, generated, clean, configuration);
      if step.0.Failure? {
        r, builds := step.0, step.1;
      } else {
        var more;
        r, more := BuildEntries(c, entries[1..], graph, path, generated, false, configuration);
        builds := step.1 + more;
      }
    }
    EntryCalls(c, entries, graph, path, generated, clean, configuration, r, builds);
    BuildAllSucceeds(c, entries, graph, path, generated, clean, configuration);
    BuildAllFirstFailure(c, entries, graph, path, generated, clean, configuration);
  }

  /** The entry builds after the graph's load call, indexed as in the run's trace. */
  lemma EntriesTrace<G>(c: Collaborators<G>, first: seq<Call>, entries: seq<Scheme>, graph: G, path: AbsolutePath,
                        generated: bool, clean: bool, configuration: Option<string>)
    requires |first| == 1
    ensures var all := BuildAll(c, entries, graph, path, generated, clean, configuration);
            var trace := first + all.1;
            && |trace| - 1 <= |entries|
            && (all.0.Success? ==> |trace| - 1 == |entries|)
            && (forall k :: 1 <= k < |trace| ==> trace[k].BuildCall? && trace[k].scheme == entries[k - 1].name)
            && (forall k :: 1 <= k < |trace| ==> (trace[k].clean <==> clean && k == 1))
            && (forall k :: 1 <= k < |trace| ==> BuildsScheme(c, trace[k], entries[k - 1], graph, path, generated, configuration))
  {
    BuildAllCalls(c, entries, graph, path, generated, clean, configuration);
    var all := BuildAll(c, entries, graph, path, generated, clean, configuration);
    var trace := first + all.1;
    forall k | 1 <= k < |trace|
      ensures trace[k] == all.1[k - 1] && (CleanAt(clean, k - 1) <==> clean && k == 1)
    {
    }
  }

  /**
   * `run`: with a scheme name, build the first buildable scheme so named or
   * fail listing the buildable schemes; without one, build every buildable
   * entry scheme in order, passing `clean` on to the first build only.
   */
  method Run<G>(c: Collaborators<G>, schemeName: Option<string>, generate: bool, clean: bool,
                configuration: Option<string>, path: AbsolutePath)
    returns (r: Result<(), BuildFailure>, trace: seq<Call>)
    ensures LoadGraph(c, generate, path).0.Failure? ==>
              r == Failure(LoadGraph(c, generate, path).0.error) && trace == LoadGraph(c, generate, path).1
    ensures LoadGraph(c, generate, path).0.Success? ==>
              var graph := LoadGraph(c, generate, path).0.value.0;
              var schemes := c.buildableSchemes(graph);
              && |trace| >= 1 && trace[0] == LoadGraph(c, generate, path).1[0]
              && (forall k :: 1 <= k < |trace| ==> trace[k].BuildCall?)
              && (schemeName.Some? && FirstNamed(schemes, schemeName.value).None? ==>
                    r == Failure(ServiceError(SchemeNotFound(schemeName.value, SchemeNames(schemes)))) && |trace| == 1)
              && (schemeName.Some? && FirstNamed(schemes, schemeName.value).Some? &&
                  c.buildableTarget(schemes[FirstNamed(schemes, schemeName.value).value], graph).None? ==>
                    r == Failure(ServiceError(SchemeWithoutBuildableTargets(schemeName.value))) && |trace| == 1)
              && (schemeName.Some? && FirstNamed(schemes, schemeName.value).Some? ==>
                    && |trace| <= 2
                    && (r.Success? ==> |trace| == 2)
                    && (|trace| == 2 ==> trace[1].scheme == schemeName.value && trace[1].clean == clean)
                    && (|trace| == 2 ==> BuildsScheme(c, trace[1], schemes[FirstNamed(schemes, schemeName.value).value],
                                                      graph, path, LoadGraph(c, generate, path).0.value.1, configuration))
                    && var step := BuildScheme(c, schemes[FirstNamed(schemes, schemeName.value).value], graph, path,
                                               LoadGraph(c, generate, path).0.value.1, clean, configuration);
                       r == step.0 && trace == LoadGraph(c, generate, path).1 + step.1)
    ensures LoadGraph(c, generate, path).0.Success? && schemeName.None? ==>
              var entries := c.buildableEntrySchemes(LoadGraph(c, generate, path).0.value.0);
              && |trace| - 1 <= |entries|
              && (r.Success? ==> |trace| - 1 == |entries|)
              && (forall k :: 1 <= k < |trace| ==> trace[k].scheme == entries[k - 1].name)
              && (forall k :: 1 <= k < |trace| ==> (trace[k].clean <==> clean && k == 1))
              && (forall k :: 1 <= k < |trace| ==>
                    BuildsScheme(c, trace[k], entries[k - 1], LoadGraph(c, generate, path).0.value.0, path,
                                 LoadGraph(c, generate, path).0.value.1, configuration))
              && var all := BuildAll(c, entries, LoadGraph(c, generate, path).0.value.0, path,
                                     LoadGraph(c, generate, path).0.value.1, clean, configuration);
                 r == all.0 && trace == LoadGraph(c, generate, path).1 + all.1
  {
    var loaded := LoadGraph(c, generate, path);
    trace := loaded.1;
    if loaded.0.Failure? {
      r := Failure(loaded.0.error);
      return;
    }
    var graph, generated := loaded.0.value.0, loaded.0.value.1;
    var schemes := c.buildableSchemes(graph);
    if schemeName.Some? {
      match FirstNamed(schemes, schemeName.value) {
        case None =>
          r := Failure(ServiceError(SchemeNotFound(schemeName.value, SchemeNames(schemes))));
        case Some(i) =>
          var step := BuildScheme(c, schemes[i], graph, path, generated, clean, configuration);
          r := step.0;
          trace := trace + step.1;
      }
      return;
    }
    var entries := c.buildableEntrySchemes(graph);
    var builds;
    r, builds := BuildEntries(c, entries, graph, path, generated, clean, configuration);
    EntriesTrace(c, trace, entries, graph, path, generated, clean, configuration);
    trace := trace + builds;
  }
}
