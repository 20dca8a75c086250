/**
 Worked instances of the package patcher: target names resolved to marker
 ids, and one source set seen through recursive and non-recursive package
 replacement.
 */
module PackageScenarios {
  import opened Strings
  import opened PackageId
  import opened PackageRemoval
  import opened PackagePatcher

  /** An empty target names the root package. */
  lemma EmptyTargetIsRoot()
    ensures DottedTargetId("") == RootPackageId
  {
  }

  /** A lone `.` names the root package too. */
  lemma DotTargetIsRoot()
    ensures DottedTargetId(".") == RootPackageId
  {
  }

  /** The scenario's marker, assembled from its two package segments. */
  lemma AppMarkerSegments()
    ensures "L" + "com" + "/" + "app" + "/" + PackageSuffix == AppMarker
  {
  }

  /** The scenario's package `com.app`, as a dotted name of two segments. */
  const AppName: string := "com" + "." + "app"

  /** A dotted package name becomes the `/`-separated marker descriptor. */
  lemma DottedTargets()
    ensures DottedTargetId(AppName) == AppMarker
  {
    DottedTwoSegments("com", "app");
    AppMarkerSegments();
  }

  /** A leading `.` is dropped, and the rest is read from the root: `.sub`
      names `Lsub/package-info;` whatever the patch's own package. */
  lemma LeadingDotIsAbsolute(isDescriptor: string -> bool)
    requires !isDescriptor(".sub")
    ensures ResolveTarget(isDescriptor, "Lcom/app/package-info;", Some(".sub")) == Ok("Lsub/package-info;")
  {
    assert StartsWith(".sub", ".");
    assert ".sub"[1..] == "sub";
    assert DottedPrefix("sub") == "Lsub/" by {
      ReplaceAbsent("sub", '.', '/');
    }
    assert "Lsub/" + PackageSuffix == "Lsub/package-info;";
  }

  const Keys: seq<string> := ["Lcom/app/package-info;", "Lcom/app/A;", "Lcom/app/sub/B;", "Lcom/other/C;"]

  const AppMarker: string := "Lcom/app/package-info;"

  /** Which of the scenario's source ids each kind of removal matches for
      the prefix `Lcom/app/`. */
  lemma ScenarioMatches()
    ensures PackagePrefix(AppMarker) == "Lcom/app/"
    ensures InPackage("Lcom/app/", "Lcom/app/package-info;")
    ensures InPackage("Lcom/app/", "Lcom/app/A;")
    ensures InSubtree("Lcom/app/", "Lcom/app/sub/B;") && !InPackage("Lcom/app/", "Lcom/app/sub/B;")
    ensures !InSubtree("Lcom/app/", "Lcom/other/C;")
  {
    InPackageOfParts("Lcom/app/", "package-info");
    assert "Lcom/app/package-info;" == "Lcom/app/" + "package-info" + ";";
    InPackageOfParts("Lcom/app/", "A");
    assert "Lcom/app/A;" == "Lcom/app/" + "A" + ";";
    InPackageOfParts("Lcom/app/", "sub/B");
    assert "Lcom/app/sub/B;" == "Lcom/app/" + "sub/B" + ";";
    assert '/' in "sub/B" by { assert "sub/B"[3] == '/'; }
    assert "Lcom/other/C;"[..9] != "Lcom/app/" by { assert "Lcom/other/C;"[5] != "Lcom/app/"[5]; }
  }

  lemma ScenarioKeysDistinct()
    ensures Distinct(Keys)
  {
  }

  /** Replacing package `com.app` recursively, with nothing targeted before,
      targets the marker, `A` and `sub/B`, and leaves `com/other/C` alone.
      `onSimpleAdd` then sees that state, and what it returns is added. */
  lemma RecursiveReplaceScenario(generic: GenericHooks, simpleAdd: SimpleAdd, isDescriptor: string -> bool, patch: ClassDef)
    ensures var p := Patcher(Keys, {}, false, [], []);
      var annotation := Annotation(None, true, None, false);
      var prepared := OnPrepare(generic, p, AppMarker, patch, annotation);
      var replaced := OnReplace(generic, simpleAdd, prepared.state, isDescriptor, AppMarker, patch, annotation);
      var made := simpleAdd(Patcher(Keys, {"Lcom/app/package-info;", "Lcom/app/A;", "Lcom/app/sub/B;"}, true, [], []), patch, annotation);
      && prepared.outcome == Pass
      && replaced.state.targeted == {"Lcom/app/package-info;", "Lcom/app/A;", "Lcom/app/sub/B;"}
      && replaced.state.conflicts == []
      && replaced.outcome == (if made.Ok? then Pass else Fail(made.error))
      && replaced.state.added == (if made.Ok? then [Patched(patch, made.value)] else [])
  {
    ScenarioKeysDistinct();
    ScenarioMatches();
    PackageIdAccepts();
  }

  /** The same replacement without recursion spares the sub-package. */
  lemma NonRecursiveReplaceScenario(generic: GenericHooks, simpleAdd: SimpleAdd, isDescriptor: string -> bool, patch: ClassDef)
    ensures var p := Patcher(Keys, {}, false, [], []);
      var annotation := Annotation(None, false, None, false);
      var prepared := OnPrepare(generic, p, AppMarker, patch, annotation);
      var replaced := OnReplace(generic, simpleAdd, prepared.state, isDescriptor, AppMarker, patch, annotation);
      var made := simpleAdd(Patcher(Keys, {"Lcom/app/package-info;", "Lcom/app/A;"}, true, [], []), patch, annotation);
      && replaced.state.targeted == {"Lcom/app/package-info;", "Lcom/app/A;"}
      && replaced.outcome == (if made.Ok? then Pass else Fail(made.error))
  {
    ScenarioKeysDistinct();
    ScenarioMatches();
    PackageIdAccepts();
    var annotation := Annotation(None, false, None, false);
    var prepared := OnPrepare(generic, Patcher(Keys, {}, false, [], []), AppMarker, patch, annotation);
    var replaced := OnReplace(generic, simpleAdd, prepared.state, isDescriptor, AppMarker, patch, annotation);
    assert replaced.state.targeted == {"Lcom/app/package-info;", "Lcom/app/A;"};
    assert replaced.state.conflicts == [];
    assert replaced.state.(added := []) == Patcher(Keys, {"Lcom/app/package-info;", "Lcom/app/A;"}, true, [], []);
  }

  /** Removing the package when `A` is already targeted by an earlier patch
      logs that one id as a conflict and still targets the rest. */
  lemma ConflictScenario(generic: GenericHooks, isDescriptor: string -> bool, patch: ClassDef)
    ensures var p := Patcher(Keys, {"Lcom/app/A;"}, true, [], []);
      var removed := OnRemove(generic, p, isDescriptor, AppMarker, patch, Annotation(None, true, None, false));
      && removed.outcome == Pass
      && removed.state.conflicts == ["Lcom/app/A;"]
      && removed.state.targeted == {"Lcom/app/package-info;", "Lcom/app/A;", "Lcom/app/sub/B;"}
      && removed.state.added == []
  {
    ScenarioKeysDistinct();
    ScenarioMatches();
    PackageIdAccepts();
  }

  /** A package patch that names a target class is refused at prepare time,
      before any class is targeted. */
  lemma TargetClassRefusedScenario(generic: GenericHooks, patch: ClassDef)
    ensures var p := Patcher(Keys, {}, false, [], []);
      var prepared := OnPrepare(generic, p, AppMarker, patch, Annotation(None, true, Some("Lcom/app/A;"), false));
      && prepared.outcome == Fail(InvalidElement(TargetClassElement))
      && prepared.state.targeted == {}
  {
  }
}
