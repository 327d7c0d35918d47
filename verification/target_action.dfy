/** Script build phases of a target (`TargetAction`) and their shell-script rendering. */
module TargetActions {
  import opened Wrappers
  import opened Strings
  import opened Paths

  /** When the action runs: before or after the sources and resources build phases. */
  datatype Order = Pre | Post

  /** A script file run by a tool, or an inline script text. */
  datatype Script =
    | File(tool: Option<string>, path: Option<AbsolutePath>, args: seq<string>)
    | Text(text: string)

  datatype TargetAction = TargetAction(
    name: string,
    order: Order,
    script: Script,
    inputPaths: seq<AbsolutePath>,
    inputFileListPaths: seq<AbsolutePath>,
    outputPaths: seq<AbsolutePath>,
    outputFileListPaths: seq<AbsolutePath>,
    showEnvVarsInLog: bool,
    basedOnDependencyAnalysis: Option<bool>)
  {
    /** The action runs an inline script. */
    predicate IsEmbeddedScript() { script.Text? }

    /** The tool to execute; none for inline scripts. */
    function Tool(): Option<string>
    {
      match script
      case File(tool, _, _) => tool
      case Text(_) => None
    }

    /** The script file to execute; none for inline scripts. */
    function Path(): Option<AbsolutePath>
    {
      match script
      case File(_, path, _) => path
      case Text(_) => None
    }

    /** The arguments passed to the script; none for inline scripts. */
    function Arguments(): seq<string>
    {
      match script
      case File(_, _, args) => args
      case Text(_) => []
    }
  }

  /** The initialiser taking a tool and/or a script path. */
  function FileAction(name: string, order: Order,
                      tool: Option<string> := None,
                      path: Option<AbsolutePath> := None,
                      arguments: seq<string> := [],
                      inputPaths: seq<AbsolutePath> := [],
                      inputFileListPaths: seq<AbsolutePath> := [],
                      outputPaths: seq<AbsolutePath> := [],
                      outputFileListPaths: seq<AbsolutePath> := [],
                      showEnvVarsInLog: bool := true,
                      basedOnDependencyAnalysis: Option<bool> := None): (a: TargetAction)
    ensures !a.IsEmbeddedScript()
    ensures a.Tool() == tool && a.Path() == path && a.Arguments() == arguments
    ensures a.name == name && a.order == order
    ensures a.inputPaths == inputPaths && a.inputFileListPaths == inputFileListPaths
    ensures a.outputPaths == outputPaths && a.outputFileListPaths == outputFileListPaths
    ensures a.showEnvVarsInLog == showEnvVarsInLog && a.basedOnDependencyAnalysis == basedOnDependencyAnalysis
  {
    TargetAction(name, order, File(tool, path, arguments), inputPaths, inputFileListPaths,
                 outputPaths, outputFileListPaths, showEnvVarsInLog, basedOnDependencyAnalysis)
  }

  /** The initialiser taking an inline script text. */
  function TextAction(name: string, order: Order, script: string,
                      inputPaths: seq<AbsolutePath> := [],
                      inputFileListPaths: seq<AbsolutePath> := [],
                      outputPaths: seq<AbsolutePath> := [],
                      outputFileListPaths: seq<AbsolutePath> := [],
                      showEnvVarsInLog: bool := true,
                      basedOnDependencyAnalysis: Option<bool> := None): (a: TargetAction)
    ensures a.IsEmbeddedScript()
    ensures a.Tool().None? && a.Path().None? && a.Arguments() == []
    ensures a.name == name && a.order == order
    ensures a.inputPaths == inputPaths && a.inputFileListPaths == inputFileListPaths
    ensures a.outputPaths == outputPaths && a.outputFileListPaths == outputFileListPaths
    ensures a.showEnvVarsInLog == showEnvVarsInLog && a.basedOnDependencyAnalysis == basedOnDependencyAnalysis
  {
    TargetAction(name, order, Text(script), inputPaths, inputFileListPaths,
                 outputPaths, outputFileListPaths, showEnvVarsInLog, basedOnDependencyAnalysis)
  }

  /** Every action is built by exactly one of the two initialisers, and `IsEmbeddedScript`
      tells which. */
  lemma EmbeddedIffTextInitialiser(a: TargetAction)
    ensures a.IsEmbeddedScript() <==>
              exists text :: a == TextAction(a.name, a.order, text, a.inputPaths, a.inputFileListPaths,
                                             a.outputPaths, a.outputFileListPaths, a.showEnvVarsInLog,
                                             a.basedOnDependencyAnalysis)
    ensures !a.IsEmbeddedScript() <==>
              a == FileAction(a.name, a.order, a.Tool(), a.Path(), a.Arguments(), a.inputPaths,
                              a.inputFileListPaths, a.outputPaths, a.outputFileListPaths,
                              a.showEnvVarsInLog, a.basedOnDependencyAnalysis)
  {
    if a.IsEmbeddedScript() {
      assert a == TextAction(a.name, a.order, a.script.text, a.inputPaths, a.inputFileListPaths,
                             a.outputPaths, a.outputFileListPaths, a.showEnvVarsInLog,
                             a.basedOnDependencyAnalysis);
    }
  }

  /** Both initialisers default to logging environment variables, no dependency-analysis
      setting and no input or output paths. */
  lemma InitialiserDefaults(name: string, order: Order, text: string)
    ensures var f := FileAction(name, order);
            f.showEnvVarsInLog && f.basedOnDependencyAnalysis.None? &&
            f.inputPaths == [] && f.inputFileListPaths == [] && f.outputPaths == [] && f.outputFileListPaths == [] &&
            f.Tool().None? && f.Path().None? && f.Arguments() == []
    ensures var t := TextAction(name, order, text);
            t.showEnvVarsInLog && t.basedOnDependencyAnalysis.None? &&
            t.inputPaths == [] && t.inputFileListPaths == [] && t.outputPaths == [] && t.outputFileListPaths == []
  {
  }

  /** Why a shell script could not be produced. */
  datatype ShellScriptError =
    | ToolNotFound(tool: string)  // the tool lookup threw or found nothing
    | ToolMissing                 // neither path nor tool: the source force-unwraps `tool`

  /** The command prefix every script-file action starts with. */
  const ProjectDirPrefix: string := "\"${PROJECT_DIR}\"/"

  /** `shellScript(sourceRootPath:)`. `relative` renders a path relative to the source root
      and `which` looks a tool up on the `PATH`; both are outside this model. `which` also
      stands for the trimming the source applies to the lookup's output (`spm_chomp`, then
      `spm_chuzzle`): it answers the trimmed path, or `None` where the source would fail,
      including output that trims to nothing, on which the source force-unwraps and crashes. */
  function ShellScript(a: TargetAction, sourceRoot: AbsolutePath,
                       relative: (AbsolutePath, AbsolutePath) -> string,
                       which: string -> Option<string>): (r: Result<string, ShellScriptError>)
    ensures a.IsEmbeddedScript() ==> r == Success(a.script.text)
    ensures !a.IsEmbeddedScript() && a.Path().Some? ==>
              r.Success? && r.value == ProjectDirPrefix + relative(a.Path().value, sourceRoot) + " " + Join(a.Arguments(), " ")
    ensures !a.IsEmbeddedScript() && a.Path().None? && a.Tool().None? ==> r == Failure(ToolMissing)
    ensures !a.IsEmbeddedScript() && a.Path().None? && a.Tool().Some? ==>
              (r.Success? <==> which(a.Tool().value).Some?) &&
              (r.Success? ==> r.value == which(a.Tool().value).value + " " + Join(a.Arguments(), " "))
  {
    match a.script
    case Text(text) => Success(text)
    case File(tool, path, args) =>
      if path.Some? then
        Success(ProjectDirPrefix + relative(path.value, sourceRoot) + " " + Join(args, " "))
      else if tool.None? then
        Failure(ToolMissing)
      else
        match which(tool.value)
        case None => Failure(ToolNotFound(tool.value))
        case Some(located) => Success(located + " " + Join(args, " "))
  }

  /** With a script path, the tool and the tool lookup play no part. */
  lemma PathTakesPrecedence(a: TargetAction, b: TargetAction, sourceRoot: AbsolutePath,
                            relative: (AbsolutePath, AbsolutePath) -> string,
                            which1: string -> Option<string>, which2: string -> Option<string>)
    requires !a.IsEmbeddedScript() && !b.IsEmbeddedScript()
    requires a.Path().Some? && a.Path() == b.Path() && a.Arguments() == b.Arguments()
    ensures ShellScript(a, sourceRoot, relative, which1) == ShellScript(b, sourceRoot, relative, which2)
  {
  }

  /** The arguments can be read back from the command line when none of them is empty or
      contains a space: they are exactly the space-separated words after the script path. */
  lemma {:induction false} ArgumentsRecoverable(a: TargetAction, sourceRoot: AbsolutePath,
                                                relative: (AbsolutePath, AbsolutePath) -> string,
                                                which: string -> Option<string>)
    requires !a.IsEmbeddedScript() && a.Path().Some?
    requires ' ' !in relative(a.Path().value, sourceRoot)
    requires |a.Arguments()| > 0
    requires forall i :: 0 <= i < |a.Arguments()| ==> ' ' !in a.Arguments()[i]
    ensures var r := ShellScript(a, sourceRoot, relative, which);
            r.Success? && Split(r.value, ' ')[1..] == a.Arguments()
  {
    var head := ProjectDirPrefix + relative(a.Path().value, sourceRoot);
    var parts := [head] + a.Arguments();
    assert ' ' !in ProjectDirPrefix;
    assert ' ' !in head;
    forall i | 0 <= i < |parts|
      ensures ' ' !in parts[i]
    {
      if i > 0 {
        assert parts[i] == a.Arguments()[i - 1];
      }
    }
    SplitJoin(parts, ' ');
    assert parts[1..] == a.Arguments();
    assert Join(parts, " ") == head + " " + Join(a.Arguments(), " ");
  }

  /** `preActions`: the actions ordered before the build phases, in order. */
  function PreActions(actions: seq<TargetAction>): (r: seq<TargetAction>)
    ensures forall i :: 0 <= i < |r| ==> r[i].order == Pre
  {
    if |actions| == 0 then []
    else (if actions[0].order == Pre then [actions[0]] else []) + PreActions(actions[1..])
  }

  /** `postActions`: the actions ordered after the build phases, in order. */
  function PostActions(actions: seq<TargetAction>): (r: seq<TargetAction>)
    ensures forall i :: 0 <= i < |r| ==> r[i].order == Post
  {
    if |actions| == 0 then []
    else (if actions[0].order == Post then [actions[0]] else []) + PostActions(actions[1..])
  }

  /** Every action lands in exactly one of the two lists. */
  lemma {:induction false} PrePostPartition(actions: seq<TargetAction>)
    ensures multiset(PreActions(actions)) + multiset(PostActions(actions)) == multiset(actions)
  {
    if |actions| > 0 {
      PrePostPartition(actions[1..]);
      assert actions == [actions[0]] + actions[1..];
    }
  }

  /** Both filters keep relative order: they distribute over concatenation. */
  lemma {:induction false} FiltersKeepOrder(xs: seq<TargetAction>, ys: seq<TargetAction>)
    ensures PreActions(xs + ys) == PreActions(xs) + PreActions(ys)
    ensures PostActions(xs + ys) == PostActions(xs) + PostActions(ys)
  {
    if |xs| > 0 {
      FiltersKeepOrder(xs[1..], ys);
      assert (xs + ys)[1..] == xs[1..] + ys;
    } else {
      assert xs + ys == ys;
    }
  }
}
