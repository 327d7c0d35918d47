/** The tool's own modules and the target names derived from them (`Module`). */
module ModuleHelper {
  import opened Wrappers
  import opened Strings
  import opened Manifest

  datatype Module = Support | Graph | ProjectDescription

  /** The enum's raw value. */
  function RawValue(m: Module): string
  {
    match m
    case Support => "support"
    case Graph => "graph"
    case ProjectDescription => "projectDescription"
  }

  /** The main target's name. */
  function Name(m: Module): (r: string)
    ensures m == ProjectDescription ==> r == "ProjectDescription"
    ensures m != ProjectDescription ==> r == "Tuist" + Capitalized(RawValue(m))
  {
    match m
    case ProjectDescription => "ProjectDescription"
    case _ => "Tuist" + Capitalized(RawValue(m))
  }

  /** A dependency on the main target. */
  function ModuleDependency(m: Module): (d: TargetDependency)
    ensures d == TargetNamed(Name(m))
  {
    TargetNamed(Name(m))
  }

  /** The testing-helpers target's name; `ProjectDescription` has none. */
  function TestingName(m: Module): (r: Option<string>)
    ensures r.None? <==> m == ProjectDescription
    ensures r.Some? ==> r.value == "Tuist" + Capitalized(RawValue(m)) + "Testing"
  {
    match m
    case ProjectDescription => None
    case _ => Some("Tuist" + Capitalized(RawValue(m)) + "Testing")
  }

  /** A dependency on the testing-helpers target, when there is one. */
  function TestingDependency(m: Module): (r: Option<TargetDependency>)
    ensures r.None? <==> TestingName(m).None?
    ensures r.Some? ==> r.value == TargetNamed(TestingName(m).value)
  {
    match TestingName(m)
    case None => None
    case Some(n) => Some(TargetNamed(n))
  }

  /** The unit-tests target's name; every module has one. */
  function TestsName(m: Module): (r: Option<string>)
    ensures r.Some?
    ensures m == ProjectDescription ==> r.value == "ProjectDescriptionTests"
    ensures m != ProjectDescription ==> r.value == "Tuist" + Capitalized(RawValue(m)) + "Tests"
  {
    match m
    case ProjectDescription => Some("ProjectDescriptionTests")
    case _ => Some("Tuist" + Capitalized(RawValue(m)) + "Tests")
  }

  /** The tests and testing targets are named after the main target. */
  lemma DerivedNames(m: Module)
    ensures TestsName(m) == Some(Name(m) + "Tests")
    ensures m != ProjectDescription ==> TestingName(m) == Some(Name(m) + "Testing")
  {
    if m == ProjectDescription {
      assert "ProjectDescription" + "Tests" == "ProjectDescriptionTests";
    } else {
      var c := Capitalized(RawValue(m));
      assert "Tuist" + c + "Tests" == ("Tuist" + c) + "Tests";
    }
  }

  /** Capitalising a lower-case word upper-cases its first letter only. */
  lemma CapitalizedWord(w: string, first: char, rest: string)
    requires w == [first] + rest && 'a' <= first <= 'z'
    requires forall i :: 0 <= i < |rest| ==> 'a' <= rest[i] <= 'z'
    ensures Capitalized(w) == [UpperChar(first)] + rest
  {
    assert w[1..] == rest;
    LowerOfLower(rest);
  }

  /** The concrete names. */
  lemma ConcreteNames()
    ensures Name(Support) == "TuistSupport" && Name(Graph) == "TuistGraph"
    ensures Name(ProjectDescription) == "ProjectDescription"
  {
    CapitalizedWord("support", 's', "upport");
    CapitalizedWord("graph", 'g', "raph");
    assert UpperChar('s') == 'S' && UpperChar('g') == 'G';
  }

  /** The concrete testing-target names. */
  lemma ConcreteTestingNames()
    ensures TestingName(Support) == Some("TuistSupportTesting") && TestingName(Graph) == Some("TuistGraphTesting")
  {
    ConcreteNames();
    DerivedNames(Support);
    DerivedNames(Graph);
    assert "TuistSupport" + "Testing" == "TuistSupportTesting";
    assert "TuistGraph" + "Testing" == "TuistGraphTesting";
  }

  /** Different modules have different main-target names. */
  lemma NameInjective(a: Module, b: Module)
    ensures Name(a) == Name(b) ==> a == b
  {
    ConcreteNames();
    assert Name(Support)[5] != Name(Graph)[5];
    assert Name(ProjectDescription)[0] != Name(Support)[0];
    assert Name(ProjectDescription)[0] != Name(Graph)[0];
  }

  /** The three target names a module produces are pairwise different. */
  lemma TargetNamesDistinct(m: Module)
    ensures Name(m) != TestsName(m).value
    ensures TestingName(m).Some? ==> Name(m) != TestingName(m).value && TestsName(m).value != TestingName(m).value
  {
    DerivedNames(m);
    if TestingName(m).Some? {
      var n := Name(m);
      assert TestsName(m).value[|n| + 4] == 's';
      assert TestingName(m).value[|n| + 4] == 'i';
    }
  }
}
