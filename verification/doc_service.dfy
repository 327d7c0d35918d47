/**
 * `tuist doc` (`DocService`): find the target, generate its HTML
 * documentation into a temporary directory, and serve it. Every
 * collaborator is a parameter; the result is the outcome plus the calls
 * made, in order.
 */
module DocService {
  import opened Wrappers
  import opened Paths
  import opened FatalErrors

  datatype DocServiceError = TargetNotFound(name: string) | DocumentationNotGenerated

  /** Both errors abort the command. */
  function ErrorTypeOf(e: DocServiceError): (t: ErrorType)
    ensures t == Abort
  {
    match e
    case TargetNotFound(_) => Abort
    case DocumentationNotGenerated => Abort
  }

  /** A failure of a collaborator (loader, generator, server, file system), carried unchanged. */
  datatype CollaboratorError = CollaboratorError(message: string)

  datatype DocFailure = ServiceError(error: DocServiceError) | Collaborator(cause: CollaboratorError)

  /** The parts of a target the service reads. */
  datatype Target = Target(name: string, sources: seq<AbsolutePath>)

  /** A target in the loaded graph, with whether it links XCTest. */
  datatype TargetNode = TargetNode(target: Target, dependsOnXCTest: bool)

  datatype DocFormat = Html | Json

  const IndexName := "index.html"
  const Port: nat := 4040
  /** The port as it appears in the base URL. */
  const PortText := "4040"

  datatype Call =
    | LoadProjectCall(path: AbsolutePath)
    | GenerateCall(format: DocFormat, moduleName: string, baseURL: string, outputDirectory: string,
                   sourcesPaths: seq<AbsolutePath>)
    | ServeCall(directory: AbsolutePath, port: nat)

  /**
   * The collaborators: the project loader and the graph's targets at a path,
   * the temporary directory, the documentation generator, the file system's
   * existence check (as it answers after generation) and the server.
   */
  datatype Collaborators<!G> = Collaborators(
    loadProject: AbsolutePath -> Result<G, CollaboratorError>,
    targetsAt: (G, AbsolutePath) -> seq<TargetNode>,
    temporaryDirectory: Result<AbsolutePath, CollaboratorError>,
    generate: (DocFormat, string, string, string, seq<AbsolutePath>) -> Result<(), CollaboratorError>,
    fileExists: AbsolutePath -> bool,
    serverBaseURL: string,
    serve: (AbsolutePath, nat) -> Result<(), CollaboratorError>)

  /** The targets that do not depend on XCTest, in order. */
  function Candidates(nodes: seq<TargetNode>): (r: seq<Target>)
    ensures |r| <= |nodes|
    ensures forall t :: t in r <==> exists i :: 0 <= i < |nodes| && !nodes[i].dependsOnXCTest && nodes[i].target == t
  {
    if nodes == [] then []
    else
      var rest := Candidates(nodes[1..]);
      assert forall i :: 1 <= i < |nodes| ==> nodes[i] == nodes[1..][i - 1];
      if nodes[0].dependsOnXCTest then rest else [nodes[0].target] + rest
  }

  /** The first target with the given name (`first(where:)`). */
  function FirstNamed(targets: seq<Target>, name: string): (r: Option<Target>)
    ensures r.None? <==> forall i :: 0 <= i < |targets| ==> targets[i].name != name
    ensures r.Some? ==> r.value in targets && r.value.name == name
    ensures r.Some? ==> exists i :: 0 <= i < |targets| && targets[i] == r.value &&
                                    forall k :: 0 <= k < i ==> targets[k].name != name
  {
    if targets == [] then None
    else if targets[0].name == name then Some(targets[0])
    else
      var r := FirstNamed(targets[1..], name);
      assert forall i :: 1 <= i < |targets| ==> targets[i] == targets[1..][i - 1];
      if r.Some? then
        var j :| 0 <= j < |targets[1..]| && targets[1..][j] == r.value &&
                 forall k :: 0 <= k < j ==> targets[1..][k].name != name;
        assert targets[j + 1] == r.value && forall k :: 0 <= k < j + 1 ==> targets[k].name != name;
        r
      else r
  }

  /** The server's base URL with the port appended. */
  function BaseURL(serverBaseURL: string): (r: string)
    ensures |r| == |serverBaseURL| + 5
    ensures r[..|serverBaseURL|] == serverBaseURL && r[|serverBaseURL|..] == ":4040"
  {
    serverBaseURL + ":" + PortText
  }

  /** Generate into the directory, check for the index, then serve. */
  function GenerateAndServe<G>(c: Collaborators<G>, target: Target, targetName: string, directory: AbsolutePath)
    : (r: (Result<(), DocFailure>, seq<Call>))
    ensures |r.1| >= 1 && r.1[0] == GenerateCall(Html, targetName, BaseURL(c.serverBaseURL), directory.PathString(),
                                                  target.sources)
    ensures |r.1| == 2 <==> c.generate(Html, targetName, BaseURL(c.serverBaseURL), directory.PathString(),
                                       target.sources).Success? && c.fileExists(directory.Appending(IndexName))
    ensures |r.1| <= 2 && (|r.1| == 2 ==> r.1[1] == ServeCall(directory, Port) && r.0 == MapError(c.serve(directory, Port)))
    ensures (c.generate(Html, targetName, BaseURL(c.serverBaseURL), directory.PathString(), target.sources).Success?
             && !c.fileExists(directory.Appending(IndexName))) ==> r.0 == Failure(ServiceError(DocumentationNotGenerated))
    ensures c.generate(Html, targetName, BaseURL(c.serverBaseURL), directory.PathString(), target.sources).Failure? ==>
              r.0 == Failure(Collaborator(c.generate(Html, targetName, BaseURL(c.serverBaseURL), directory.PathString(),
                                                     target.sources).error))
              && |r.1| == 1
  {
    var baseURL := BaseURL(c.serverBaseURL);
    var generation := GenerateCall(Html, targetName, baseURL, directory.PathString(), target.sources);
    match c.generate(Html, targetName, baseURL, directory.PathString(), target.sources)
    case Failure(e) => (Failure(Collaborator(e)), [generation])
    case Success(_) =>
      if !c.fileExists(directory.Appending(IndexName)) then
        (Failure(ServiceError(DocumentationNotGenerated)), [generation])
      else
        (MapError(c.serve(directory, Port)), [generation, ServeCall(directory, Port)])
  }

  /** A collaborator's failure, as the service reports it. */
  function MapError(r: Result<(), CollaboratorError>): (m: Result<(), DocFailure>)
    ensures m.Success? <==> r.Success?
    ensures r.Failure? ==> m.error == Collaborator(r.error)
  {
    match r
    case Success(_) => Success(())
    case Failure(e) => Failure(Collaborator(e))
  }

  /**
   * `run(project:target:)`: a target name that no non-test target at the
   * path carries fails before anything is generated; a generation without
   * an index fails before the server starts; the server's own failure is
   * the result.
   */
  function Run<G>(c: Collaborators<G>, path: AbsolutePath, targetName: string): (r: (Result<(), DocFailure>, seq<Call>))
    ensures |r.1| >= 1 && r.1[0] == LoadProjectCall(path)
    ensures c.loadProject(path).Failure? ==> r == (Failure(Collaborator(c.loadProject(path).error)), [LoadProjectCall(path)])
    ensures c.loadProject(path).Success? ==>
              var targets := Candidates(c.targetsAt(c.loadProject(path).value, path));
              && (FirstNamed(targets, targetName).None? ==>
                    r == (Failure(ServiceError(TargetNotFound(targetName))), [LoadProjectCall(path)]))
              && (FirstNamed(targets, targetName).Some? && c.temporaryDirectory.Failure? ==>
                    r == (Failure(Collaborator(c.temporaryDirectory.error)), [LoadProjectCall(path)]))
              && (FirstNamed(targets, targetName).Some? && c.temporaryDirectory.Success? ==>
                    var directory := c.temporaryDirectory.value;
                    var step := GenerateAndServe(c, FirstNamed(targets, targetName).value, targetName, directory);
                    && r == (step.0, [LoadProjectCall(path)] + step.1)
                    && |r.1| >= 2
                    && r.1[1] == GenerateCall(Html, targetName, BaseURL(c.serverBaseURL), directory.PathString(),
                                              FirstNamed(targets, targetName).value.sources)
                    && (|r.1| == 3 ==> r.1[2] == ServeCall(directory, Port) && r.0 == MapError(c.serve(directory, Port)))
                    && (|r.1| == 2 ==> r.0.Failure?)
                    && (c.generate(Html, targetName, BaseURL(c.serverBaseURL), directory.PathString(),
                                   FirstNamed(targets, targetName).value.sources).Failure? ==>
                          r.0 == Failure(Collaborator(c.generate(Html, targetName, BaseURL(c.serverBaseURL),
                                                                 directory.PathString(),
                                                                 FirstNamed(targets, targetName).value.sources).error)))
                    && (c.generate(Html, targetName, BaseURL(c.serverBaseURL), directory.PathString(),
                                   FirstNamed(targets, targetName).value.sources).Success?
                        && !c.fileExists(directory.Appending(IndexName)) ==>
                          r.0 == Failure(ServiceError(DocumentationNotGenerated)))
                    && (|r.1| == 3 <==> c.generate(Html, targetName, BaseURL(c.serverBaseURL), directory.PathString(),
                                                   FirstNamed(targets, targetName).value.sources).Success?
                                        && c.fileExists(directory.Appending(IndexName))))
  {
    match c.loadProject(path)
    case Failure(e) => (Failure(Collaborator(e)), [LoadProjectCall(path)])
    case Success(graph) =>
      match FirstNamed(Candidates(c.targetsAt(graph, path)), targetName)
      case None => (Failure(ServiceError(TargetNotFound(targetName))), [LoadProjectCall(path)])
      case Some(target) =>
        match c.temporaryDirectory
        case Failure(e) => (Failure(Collaborator(e)), [LoadProjectCall(path)])
        case Success(directory) =>
          var step := GenerateAndServe(c, target, targetName, directory);
          (step.0, [LoadProjectCall(path)] + step.1)
  }

  /** A target that depends on XCTest is never documented, whatever its name. */
  lemma TestTargetsNotDocumented<G>(c: Collaborators<G>, path: AbsolutePath, targetName: string)
    requires c.loadProject(path).Success?
    requires forall n :: n in c.targetsAt(c.loadProject(path).value, path) && n.target.name == targetName ==>
               n.dependsOnXCTest
    ensures Run(c, path, targetName).0 == Failure(ServiceError(TargetNotFound(targetName)))
  {
    var nodes := c.targetsAt(c.loadProject(path).value, path);
    var targets := Candidates(nodes);
    forall i | 0 <= i < |targets|
      ensures targets[i].name != targetName
    {
      assert targets[i] in targets;
      var j :| 0 <= j < |nodes| && !nodes[j].dependsOnXCTest && nodes[j].target == targets[i];
      assert nodes[j] in nodes;
    }
  }
}
