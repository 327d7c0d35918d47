/**
 * `StoryboardGenerator`: writes `Main.storyboard` or `Launch Screen.storyboard`
 * into a directory, refusing to overwrite, and derives the launch screen's
 * text from the main one by two textual replacements.
 */
module StoryboardGenerator {
  import opened Wrappers
  import opened Strings
  import opened Paths
  import opened FatalErrors
  import ValueGraph

  /** The platforms the generator knows about. */
  datatype Platform = IOS | MacOS | TvOS

  datatype StoryboardGenerationError =
    | AlreadyExisting(path: AbsolutePath)
    | LaunchScreenUnsupported(platform: Platform, product: ValueGraph.Product)

  /** Both errors abort the command. */
  function ErrorTypeOf(e: StoryboardGenerationError): (t: ErrorType)
    ensures t == Abort
  {
    match e
    case AlreadyExisting(_) => Abort
    case LaunchScreenUnsupported(_, _) => Abort
  }

  /** The one file a successful generation writes. */
  datatype FileWrite = FileWrite(path: AbsolutePath, content: string)

  const MainName := "Main.storyboard"
  const LaunchScreenName := "Launch Screen.storyboard"

  /** The launch-screen flag of the main storyboard, and of the launch screen. */
  const FlagOff := "NO"
  const FlagOn := "YES"
  /** The id of the initial view controller in the main storyboard, and in the launch screen. */
  const MainControllerId := "STE-27-s1a"
  const LaunchControllerId := "STE-27-s1b"

  /** An XML attribute, `name="value"`. */
  function Attribute(name: string, value: string): string
  {
    name + "=" + "\"" + value + "\""
  }

  /** The two texts the launch-screen rewrite looks for. */
  const FlagTarget := Attribute("launchScreen", FlagOff)
  const ControllerTarget := MainControllerId

  /**
   * The fixed XML around the parts the launch-screen rewrite touches: the
   * declaration, the `<document>` attributes before the initial controller,
   * the dependency blocks, and the scene lists before and after the initial
   * controller's line.
   */
  datatype Fragments = Fragments(
    header: string,
    iosDocumentHead: string,
    tvosDocumentHead: string,
    macosDocument: string,
    touchDependencies: string,
    cocoaDependencies: string,
    scenesHead: string,
    iosScenesTail: string,
    tvosScenesTail: string,
    macosScenes: string,
    controllerOpen: string,
    moduleProvider: string,
    sceneMember: string,
    documentEnd: string)

  const XmlHeader := "<?xml version=\"1.0\" encoding=\"UTF-8\"?>"

  const IOSDocumentHead :=
    "<document type=\"com.apple.InterfaceBuilder3.CocoaTouch.Storyboard.XIB\" version=\"3.0\" toolsVersion=\"13122.16\" targetRuntime=\"iOS.CocoaTouch\" propertyAccessControl=\"none\" useAutolayout=\"YES\" useTraitCollections=\"YES\" useSafeAreas=\"YES\" colorMatched=\"YES\""
  const TvOSDocumentHead :=
    "<document type=\"com.apple.InterfaceBuilder.AppleTV.Storyboard\" version=\"3.0\" toolsVersion=\"13122.16\" targetRuntime=\"AppleTV\" propertyAccessControl=\"none\" useAutolayout=\"YES\" useTraitCollections=\"YES\" useSafeAreas=\"YES\" colorMatched=\"YES\""
  const MacOSDocument :=
    "<document type=\"com.apple.InterfaceBuilder3.Cocoa.Storyboard.XIB\" version=\"3.0\" toolsVersion=\"11134\" targetRuntime=\"MacOSX.Cocoa\" propertyAccessControl=\"none\" useAutolayout=\"YES\" initialViewController=\"B8D-0N-5wS\">"

  /** The Cocoa Touch plug-in block, shared by iOS and tvOS. */
  const TouchDependencies :=
    "<dependencies>\n"
    + "<plugIn identifier=\"com.apple.InterfaceBuilder.IBCocoaTouchPlugin\" version=\"13104.12\"/>\n"
    + "<capability name=\"Safe area layout guides\" minToolsVersion=\"9.0\"/>\n"
    + "<capability name=\"documents saved in the Xcode 8 format\" minToolsVersion=\"8.0\"/>\n"
    + "</dependencies>"
  const CocoaDependencies :=
    "<dependencies>\n"
    + "<plugIn identifier=\"com.apple.InterfaceBuilder.CocoaPlugin\" version=\"11134\"/>\n"
    + "</dependencies>"

  /** The closing tag of every platform's scene list. */
  const ScenesClose := "</scenes>"

  /** The scene list up to the initial view controller, shared by iOS and tvOS. */
  const ScenesHead :=
    "<scenes>\n"
    + "<!--View Controller-->\n"
    + "<scene sceneID=\"tne-QT-ifu\">\n"
    + "<objects>"
  const IOSScenesBody :=
    "<view key=\"view\" contentMode=\"scaleToFill\" id=\"8bC-Xf-vdC\">\n"
    + "<rect key=\"frame\" x=\"0.0\" y=\"0.0\" width=\"375\" height=\"667\"/>\n"
    + "<autoresizingMask key=\"autoresizingMask\" widthSizable=\"YES\" heightSizable=\"YES\"/>\n"
    + "<color key=\"backgroundColor\" red=\"1\" green=\"1\" blue=\"1\" alpha=\"1\" colorSpace=\"custom\" customColorSpace=\"sRGB\"/>\n"
    + "<viewLayoutGuide key=\"safeArea\" id=\"6Tk-OE-BBY\"/>\n"
    + "</view>\n"
    + "</viewController>\n"
    + "<placeholder placeholderIdentifier=\"IBFirstResponder\" id=\"dkx-z0-nzr\" sceneMemberID=\"firstResponder\"/>\n"
    + "</objects>\n"
    + "</scene>\n"
  const IOSScenesTail := IOSScenesBody + ScenesClose
  const TvOSScenesBody :=
    "<layoutGuides>\n"
    + "<viewControllerLayoutGuide type=\"top\" id=\"y3c-jy-aDJ\"/>\n"
    + "<viewControllerLayoutGuide type=\"bottom\" id=\"wfy-db-euE\"/>\n"
    + "</layoutGuides>\n"
    + "<view key=\"view\" contentMode=\"scaleToFill\" id=\"8bC-Xf-vdC\">\n"
    + "<rect key=\"frame\" x=\"0.0\" y=\"0.0\" width=\"1920\" height=\"1080\"/>\n"
    + "<autoresizingMask key=\"autoresizingMask\" widthSizable=\"YES\" heightSizable=\"YES\"/>\n"
    + "<color key=\"backgroundColor\" red=\"0.0\" green=\"0.0\" blue=\"0.0\" alpha=\"0.0\" colorSpace=\"custom\" customColorSpace=\"sRGB\"/>\n"
    + "<viewLayoutGuide key=\"safeArea\" id=\"wu6-TO-1qx\"/>\n"
    + "</view>\n"
    + "</viewController>\n"
    + "<placeholder placeholderIdentifier=\"IBFirstResponder\" id=\"dkx-z0-nzr\" sceneMemberID=\"firstResponder\"/>\n"
    + "</objects>\n"
    + "</scene>\n"
  const TvOSScenesTail := TvOSScenesBody + ScenesClose
  /** The macOS scenes, abbreviated to the scene frames (the menu and window controller are left out). */
  const MacOSScenesBody :=
    "<scenes>\n"
    + "<!--Application-->\n"
    + "<scene sceneID=\"JPo-4y-FX3\">\n"
    + "<objects>\n"
    + "</objects>\n"
    + "<point key=\"canvasLocation\" x=\"75\" y=\"0.0\"/>\n"
    + "</scene>\n"
    + "<!--View Controller-->\n"
    + "<scene sceneID=\"hIz-AP-VOD\">\n"
    + "<objects>\n"
    + "<viewController id=\"XfG-lQ-9wD\" customModuleProvider=\"target\" sceneMemberID=\"viewController\">\n"
    + "<view key=\"view\" wantsLayer=\"YES\" id=\"m2S-Jp-Qdl\">\n"
    + "<rect key=\"frame\" x=\"0.0\" y=\"0.0\" width=\"480\" height=\"270\"/>\n"
    + "<autoresizingMask key=\"autoresizingMask\"/>\n"
    + "</view>\n"
    + "</viewController>\n"
    + "<customObject id=\"rPt-NT-nkU\" userLabel=\"First Responder\" customClass=\"NSResponder\" sceneMemberID=\"firstResponder\"/>\n"
    + "</objects>\n"
    + "<point key=\"canvasLocation\" x=\"75\" y=\"655\"/>\n"
    + "</scene>\n"
  const MacOSScenes := MacOSScenesBody + ScenesClose


  /** The initial view controller's opening tag, around its id. */
  const ControllerOpen := "<viewController"
  const ModuleProvider := "customModuleProvider=\"target\""
  const SceneMember := "sceneMemberID=\"viewController\">"
  const DocumentEnd := "</document>"

  /** The storyboard XML the generator writes (the macOS scenes abbreviated). */
  const Xml := Fragments(XmlHeader, IOSDocumentHead, TvOSDocumentHead, MacOSDocument, TouchDependencies,
                         CocoaDependencies, ScenesHead, IOSScenesTail, TvOSScenesTail, MacOSScenes,
                         ControllerOpen, ModuleProvider, SceneMember, DocumentEnd)

  /** The opening line of the initial view controller's scene element. */
  function ControllerLine(f: Fragments, id: string): string
  {
    f.controllerOpen + " " + Attribute("id", id) + " " + f.moduleProvider + " " + f.sceneMember
  }

  /** The XML declaration, the same for every platform. */
  function Header(f: Fragments, p: Platform): (r: string)
    ensures r == f.header
  {
    match p
    case IOS => f.header
    case MacOS => f.header
    case TvOS => f.header
  }

  /** The `<document>` line; only iOS carries the launch-screen flag, and macOS names its own controller. */
  function Document(f: Fragments, p: Platform, flag: string, id: string): string
  {
    match p
    case IOS => f.iosDocumentHead + " " + Attribute("initialViewController", id) + " " + Attribute("launchScreen", flag) + ">"
    case MacOS => f.macosDocument
    case TvOS => f.tvosDocumentHead + " " + Attribute("initialViewController", id) + ">"
  }

  /** iOS and tvOS share one dependency block. */
  function Dependencies(f: Fragments, p: Platform): (r: string)
    ensures p != MacOS ==> r == f.touchDependencies
  {
    match p
    case IOS => f.touchDependencies
    case MacOS => f.cocoaDependencies
    case TvOS => f.touchDependencies
  }

  function Scenes(f: Fragments, p: Platform, id: string): string
  {
    match p
    case IOS => f.scenesHead + "\n" + ControllerLine(f, id) + "\n" + f.iosScenesTail
    case MacOS => f.macosScenes
    case TvOS => f.scenesHead + "\n" + ControllerLine(f, id) + "\n" + f.tvosScenesTail
  }

  /**
   * The storyboard text with the launch-screen flag and the initial
   * controller's id left open: header, document, dependencies, scenes and
   * the closing tag, one per line.
   */
  function Template(f: Fragments, p: Platform, flag: string, id: string): string
  {
    Header(f, p) + "\n" + Document(f, p, flag, id) + "\n" + Dependencies(f, p) + "\n" + Scenes(f, p, id) + "\n" + f.documentEnd
  }

  /** The launch screen's two replacements, flag first. */
  function LaunchRewrite(s: string): string
  {
    ReplaceAll(ReplaceAll(s, FlagTarget, Attribute("launchScreen", FlagOn)), ControllerTarget, LaunchControllerId)
  }

  /**
   * `generateMain(path:platform:)`: refuses to overwrite an existing
   * `Main.storyboard`; otherwise writes the template with the flag off and
   * the main controller's id. The XML defaults to the generator's own.
   */
  function GenerateMain(path: AbsolutePath, platform: Platform, fileExists: AbsolutePath -> bool, xml: Fragments := Xml)
    : (r: Result<FileWrite, StoryboardGenerationError>)
    ensures r.Failure? <==> fileExists(path.Appending(MainName))
    ensures r.Failure? ==> r.error == AlreadyExisting(path.Appending(MainName))
    ensures r.Success? ==> r.value.path == path.Appending(MainName)
                           && r.value.content == Template(xml, platform, FlagOff, MainControllerId)
  {
    var storyboardPath := path.Appending(MainName);
    if fileExists(storyboardPath) then Failure(AlreadyExisting(storyboardPath))
    else Success(FileWrite(storyboardPath, Template(xml, platform, FlagOff, MainControllerId)))
  }

  /**
   * `generateLaunchScreen(path:platform:product:)`: an app on a platform
   * without launch-screen support fails before the file system is looked
   * at; other products skip that check; an existing file is not
   * overwritten; otherwise the main storyboard's text is written with the
   * two replacements applied. Launch-screen support is the platform's,
   * passed in.
   */
  function GenerateLaunchScreen(path: AbsolutePath, platform: Platform, product: ValueGraph.Product,
                                fileExists: AbsolutePath -> bool, supportsLaunchScreen: Platform -> bool,
                                xml: Fragments := Xml)
    : (r: Result<FileWrite, StoryboardGenerationError>)
    ensures product == ValueGraph.App && !supportsLaunchScreen(platform) ==>
              r == Failure(LaunchScreenUnsupported(platform, product))
    ensures (product != ValueGraph.App || supportsLaunchScreen(platform)) ==>
              && (r.Failure? <==> fileExists(path.Appending(LaunchScreenName)))
              && (r.Failure? ==> r.error == AlreadyExisting(path.Appending(LaunchScreenName)))
    ensures r.Success? ==> r.value.path == path.Appending(LaunchScreenName)
                           && r.value.content == LaunchRewrite(Template(xml, platform, FlagOff, MainControllerId))
  {
    if product == ValueGraph.App && !supportsLaunchScreen(platform) then
      Failure(LaunchScreenUnsupported(platform, product))
    else
      var storyboardPath := path.Appending(LaunchScreenName);
      if fileExists(storyboardPath) then Failure(AlreadyExisting(storyboardPath))
      else Success(FileWrite(storyboardPath, LaunchRewrite(Template(xml, platform, FlagOff, MainControllerId))))
  }

  /** Text holding neither target. */
  predicate Inert(s: string)
  {
    !Contains(s, FlagTarget) && !Contains(s, ControllerTarget)
  }

  /** Every fixed fragment holds neither target. */
  predicate InertFragments(f: Fragments)
  {
    && Inert(f.header) && Inert(f.iosDocumentHead) && Inert(f.tvosDocumentHead) && Inert(f.macosDocument)
    && Inert(f.touchDependencies) && Inert(f.cocoaDependencies) && Inert(f.scenesHead)
    && Inert(f.iosScenesTail) && Inert(f.tvosScenesTail) && Inert(f.macosScenes)
    && Inert(f.controllerOpen) && Inert(f.moduleProvider) && Inert(f.sceneMember) && Inert(f.documentEnd)
  }

  /** A one-character separator in neither target splits the rewrite in two. */
  lemma RewriteSplit(a: string, sep: string, b: string)
    requires |sep| == 1 && sep[0] !in FlagTarget && sep[0] !in ControllerTarget
    ensures LaunchRewrite(a + sep + b) == LaunchRewrite(a) + sep + LaunchRewrite(b)
  {
    var flagOn := Attribute("launchScreen", FlagOn);
    ReplaceSplit(a, sep, b, FlagTarget, flagOn);
    ReplaceSplit(ReplaceAll(a, FlagTarget, flagOn), sep, ReplaceAll(b, FlagTarget, flagOn),
                 ControllerTarget, LaunchControllerId);
  }

  /** A trailing character in neither target is kept as it is. */
  lemma RewriteAppend(a: string, sep: string)
    requires |sep| == 1 && sep[0] !in FlagTarget && sep[0] !in ControllerTarget
    ensures LaunchRewrite(a + sep) == LaunchRewrite(a) + sep
  {
    assert a + sep + "" == a + sep;
    RewriteSplit(a, sep, "");
  }

  /** Inert text is left as it is. */
  lemma RewriteLeaves(s: string)
    requires Inert(s)
    ensures LaunchRewrite(s) == s
  {
    ReplaceAbsent(s, FlagTarget, Attribute("launchScreen", FlagOn));
    ReplaceAbsent(s, ControllerTarget, LaunchControllerId);
  }

  /** An attribute holding the main controller's id comes out holding the launch screen's. */
  lemma ControllerAttributeRewrite(name: string)
    requires 'N' !in name && '7' !in name
    ensures LaunchRewrite(Attribute(name, MainControllerId)) == Attribute(name, LaunchControllerId)
  {
    var s := Attribute(name, MainControllerId);
    AbsentByChar(s, FlagTarget, 'N');
    ReplaceAbsent(s, FlagTarget, Attribute("launchScreen", FlagOn));
    assert s == (name + "=") + "\"" + (MainControllerId + "\"");
    ReplaceSplit(name + "=", "\"", MainControllerId + "\"", ControllerTarget, LaunchControllerId);
    AbsentByChar(name + "=", ControllerTarget, '7');
    ReplaceAbsent(name + "=", ControllerTarget, LaunchControllerId);
    ReplaceHead(MainControllerId, "\"", LaunchControllerId);
    assert (name + "=") + "\"" + (LaunchControllerId + "\"") == Attribute(name, LaunchControllerId);
  }

  /** The launch-screen flag is switched on. */
  lemma FlagAttributeRewrite()
    ensures LaunchRewrite(Attribute("launchScreen", FlagOff)) == Attribute("launchScreen", FlagOn)
  {
    var flagOn := Attribute("launchScreen", FlagOn);
    assert FlagTarget + "" == FlagTarget;
    ReplaceHead(FlagTarget, "", flagOn);
    assert flagOn + "" == flagOn;
    AbsentByChar(flagOn, ControllerTarget, '7');
    ReplaceAbsent(flagOn, ControllerTarget, LaunchControllerId);
  }

  /** The initial controller's scene line names the launch screen's controller afterwards. */
  lemma ControllerLineRewrite(f: Fragments)
    requires InertFragments(f)
    ensures LaunchRewrite(ControllerLine(f, MainControllerId)) == ControllerLine(f, LaunchControllerId)
  {
    IdLineRewrite(f.controllerOpen, f.moduleProvider, f.sceneMember);
  }

  /** A line `<open> id="…" <a> <b>` with inert fixed parts: only the id changes. */
  lemma IdLineRewrite(open: string, a: string, b: string)
    requires Inert(open) && Inert(a) && Inert(b)
    ensures LaunchRewrite(open + " " + Attribute("id", MainControllerId) + " " + a + " " + b)
         == open + " " + Attribute("id", LaunchControllerId) + " " + a + " " + b
  {
    var attribute := Attribute("id", MainControllerId);
    RewriteSplit(open + " " + attribute + " " + a, " ", b);
    RewriteSplit(open + " " + attribute, " ", a);
    RewriteSplit(open, " ", attribute);
    RewriteLeaves(open);
    RewriteLeaves(a);
    RewriteLeaves(b);
    ControllerAttributeRewrite("id");
  }

  /** The `<document>` line after the rewrite: on iOS both attributes change, on tvOS the controller only. */
  lemma DocumentRewrite(f: Fragments, p: Platform)
    requires InertFragments(f)
    ensures LaunchRewrite(Document(f, p, FlagOff, MainControllerId)) == Document(f, p, FlagOn, LaunchControllerId)
  {
    match p
    case IOS => IOSDocumentRewrite(f.iosDocumentHead);
    case MacOS => RewriteLeaves(f.macosDocument);
    case TvOS => TvOSDocumentRewrite(f.tvosDocumentHead);
  }

  /** The initial-controller attribute of a `<document>` line. */
  lemma InitialAttributeRewrite()
    ensures LaunchRewrite(Attribute("initialViewController", MainControllerId))
         == Attribute("initialViewController", LaunchControllerId)
  {
    ControllerAttributeRewrite("initialViewController");
  }

  lemma IOSDocumentRewrite(head: string)
    requires Inert(head)
    ensures LaunchRewrite(head + " " + Attribute("initialViewController", MainControllerId) + " "
                          + Attribute("launchScreen", FlagOff) + ">")
         == head + " " + Attribute("initialViewController", LaunchControllerId) + " " + Attribute("launchScreen", FlagOn) + ">"
  {
    var initial := Attribute("initialViewController", MainControllerId);
    var flag := Attribute("launchScreen", FlagOff);
    RewriteAppend(head + " " + initial + " " + flag, ">");
    RewriteSplit(head + " " + initial, " ", flag);
    RewriteSplit(head, " ", initial);
    RewriteLeaves(head);
    InitialAttributeRewrite();
    FlagAttributeRewrite();
  }

  lemma TvOSDocumentRewrite(head: string)
    requires Inert(head)
    ensures LaunchRewrite(head + " " + Attribute("initialViewController", MainControllerId) + ">")
         == head + " " + Attribute("initialViewController", LaunchControllerId) + ">"
  {
    var initial := Attribute("initialViewController", MainControllerId);
    RewriteAppend(head + " " + initial, ">");
    RewriteSplit(head, " ", initial);
    RewriteLeaves(head);
    InitialAttributeRewrite();
  }

  /** The scenes after the rewrite: only the initial controller's line changes. */
  lemma ScenesRewrite(f: Fragments, p: Platform)
    requires InertFragments(f)
    ensures LaunchRewrite(Scenes(f, p, MainControllerId)) == Scenes(f, p, LaunchControllerId)
  {
    match p
    case IOS =>
      RewriteSplit(f.scenesHead + "\n" + ControllerLine(f, MainControllerId), "\n", f.iosScenesTail);
      RewriteSplit(f.scenesHead, "\n", ControllerLine(f, MainControllerId));
      RewriteLeaves(f.scenesHead);
      RewriteLeaves(f.iosScenesTail);
      ControllerLineRewrite(f);
    case MacOS =>
      RewriteLeaves(f.macosScenes);
    case TvOS =>
      RewriteSplit(f.scenesHead + "\n" + ControllerLine(f, MainControllerId), "\n", f.tvosScenesTail);
      RewriteSplit(f.scenesHead, "\n", ControllerLine(f, MainControllerId));
      RewriteLeaves(f.scenesHead);
      RewriteLeaves(f.tvosScenesTail);
      ControllerLineRewrite(f);
  }

  /** A suffix no longer than the right operand is the right operand's. */
  lemma SuffixOfConcat(a: string, b: string, k: nat)
    requires k <= |b|
    ensures (a + b)[|a + b| - k..] == b[|b| - k..]
  {
  }

  /** Text that ends with `tail`. */
  predicate EndsWith(s: string, tail: string)
  {
    |tail| <= |s| && s[|s| - |tail|..] == tail
  }

  /** Whatever precedes it, `tail` ends the concatenation. */
  lemma EndsWithAppended(a: string, tail: string)
    ensures EndsWith(a + tail, tail)
  {
    SuffixOfConcat(a, tail, |tail|);
  }

  /** The generator's three scene lists each end with the closing tag. */
  lemma IOSScenesClosed()
    ensures EndsWith(IOSScenesTail, ScenesClose)
  {
    EndsWithAppended(IOSScenesBody, ScenesClose);
  }

  lemma TvOSScenesClosed()
    ensures EndsWith(TvOSScenesTail, ScenesClose)
  {
    EndsWithAppended(TvOSScenesBody, ScenesClose);
  }

  lemma MacOSScenesClosed()
    ensures EndsWith(MacOSScenes, ScenesClose)
  {
    EndsWithAppended(MacOSScenesBody, ScenesClose);
  }

  /** A platform's scene list ends as its fixed tail does. */
  lemma ScenesEnd(f: Fragments, p: Platform, id: string, tail: string)
    requires EndsWith(f.iosScenesTail, tail) && EndsWith(f.tvosScenesTail, tail) && EndsWith(f.macosScenes, tail)
    ensures EndsWith(Scenes(f, p, id), tail)
  {
    var before := f.scenesHead + "\n" + ControllerLine(f, id) + "\n";
    match p
    case IOS => SuffixOfConcat(before, f.iosScenesTail, |tail|);
    case MacOS =>
    case TvOS => SuffixOfConcat(before, f.tvosScenesTail, |tail|);
  }

  /** The template ends with the scene list's ending, a newline and the document's closing tag. */
  lemma TemplateEnd(f: Fragments, p: Platform, flag: string, id: string, tail: string)
    requires EndsWith(f.iosScenesTail, tail) && EndsWith(f.tvosScenesTail, tail) && EndsWith(f.macosScenes, tail)
    ensures EndsWith(Template(f, p, flag, id), tail + "\n" + f.documentEnd)
  {
    var s := Scenes(f, p, id);
    ScenesEnd(f, p, id, tail);
    var prefix := Header(f, p) + "\n" + Document(f, p, flag, id) + "\n" + Dependencies(f, p) + "\n" + s[..|s| - |tail|];
    assert s == s[..|s| - |tail|] + tail;
    assert Template(f, p, flag, id) == prefix + (tail + "\n" + f.documentEnd);
    EndsWithAppended(prefix, tail + "\n" + f.documentEnd);
  }

  /** Fragments carrying the generator's scene lists and closing tag end the same way. */
  lemma GeneratorTemplateEnd(f: Fragments, p: Platform, flag: string, id: string)
    requires f.iosScenesTail == IOSScenesTail && f.tvosScenesTail == TvOSScenesTail
    requires f.macosScenes == MacOSScenes && f.documentEnd == DocumentEnd
    ensures EndsWith(Template(f, p, flag, id), ScenesClose + "\n" + DocumentEnd)
  {
    IOSScenesClosed();
    TvOSScenesClosed();
    MacOSScenesClosed();
    TemplateEnd(f, p, flag, id, ScenesClose);
  }

  /**
   * The generator's storyboard, on every platform, ends by closing the scene
   * list and then the document: nothing follows the XML.
   */
  lemma TemplateCloses(p: Platform, flag: string, id: string)
    ensures EndsWith(Template(Xml, p, flag, id), ScenesClose + "\n" + DocumentEnd)
  {
    GeneratorTemplateEnd(Xml, p, flag, id);
  }

  /**
   * When the fixed XML holds neither target, the launch screen's text is the
   * template with the flag on and the launch screen's controller id: the two
   * replacements touch nothing else.
   */
  lemma LaunchScreenIsTemplate(f: Fragments, p: Platform)
    requires InertFragments(f)
    ensures LaunchRewrite(Template(f, p, FlagOff, MainControllerId)) == Template(f, p, FlagOn, LaunchControllerId)
  {
    var h, d, deps, sc := Header(f, p), Document(f, p, FlagOff, MainControllerId), Dependencies(f, p),
                          Scenes(f, p, MainControllerId);
    RewriteSplit(h + "\n" + d + "\n" + deps + "\n" + sc, "\n", f.documentEnd);
    RewriteSplit(h + "\n" + d + "\n" + deps, "\n", sc);
    RewriteSplit(h + "\n" + d, "\n", deps);
    RewriteSplit(h, "\n", d);
    RewriteLeaves(h);
    RewriteLeaves(f.documentEnd);
    RewriteLeaves(deps);
    DocumentRewrite(f, p);
    ScenesRewrite(f, p);
  }

  /** On macOS the launch screen's text is the main storyboard's. */
  lemma MacOSLaunchScreenIsMain(f: Fragments)
    requires InertFragments(f)
    ensures LaunchRewrite(Template(f, MacOS, FlagOff, MainControllerId)) == Template(f, MacOS, FlagOff, MainControllerId)
  {
    LaunchScreenIsTemplate(f, MacOS);
  }

  /**
   * A written launch screen is the template with the flag on and the launch
   * screen's controller id, when the fixed XML holds neither target.
   */
  lemma LaunchScreenWritten(path: AbsolutePath, platform: Platform, product: ValueGraph.Product,
                            fileExists: AbsolutePath -> bool, supportsLaunchScreen: Platform -> bool, xml: Fragments)
    requires InertFragments(xml)
    ensures var r := GenerateLaunchScreen(path, platform, product, fileExists, supportsLaunchScreen, xml);
            r.Success? ==> r.value.content == Template(xml, platform, FlagOn, LaunchControllerId)
  {
    LaunchScreenIsTemplate(xml, platform);
  }
}
