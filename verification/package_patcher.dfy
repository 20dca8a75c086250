/**
 The package-level patcher: the three hooks the class-set patcher calls for
 every patch class (prepare, then replace or remove), specialised for
 package markers. A patch class that is not a package marker is passed on
 unchanged to the generic class-set patcher, whose hooks are a parameter of
 this model.
 */
module PackagePatcher {
  import opened Strings
  import opened TypeName
  import opened PackageId
  import opened PackageRemoval

  datatype Option<T> = None | Some(value: T)

  /** The annotation elements a package patch may not carry. */
  datatype Element = TargetClassElement | ContentOnlyElement

  /** `PatchException`s thrown by the hooks. `Raised` stands for any other
      exception, thrown by base-patcher code this model does not define. */
  datatype PatchError =
    | InvalidElement(element: Element)
    | TargetNotPackage
    | Raised(code: nat)

  datatype Result<T> = Ok(value: T) | Err(error: PatchError)

  datatype Outcome = Pass | Fail(error: PatchError)

  /** The annotation elements the package hooks read. */
  datatype Annotation = Annotation(
    target: Option<string>,
    recursive: bool,
    targetClass: Option<string>,
    contentOnly: bool)

  /** A patch class definition; its contents are not inspected here. */
  datatype ClassDef = ClassDef(handle: nat)

  /** A patch class and the class `onSimpleAdd` made of it, as recorded by
      `addPatched`. */
  datatype Patched = Patched(patch: ClassDef, patched: ClassDef)

  datatype Hook = PrepareHook | ReplaceHook | RemoveHook

  /** What the hooks read and change: the source map's keys in iteration
      order, the ids targeted so far, the `processingPackage` flag, the
      already-targeted ids logged at ERROR level, and the classes added to
      the result. */
  datatype Patcher = Patcher(
    sourceKeys: seq<string>,
    targeted: set<string>,
    processingPackage: bool,
    conflicts: seq<string>,
    added: seq<Patched>)

  /** The keys of a map are distinct. */
  predicate Valid(p: Patcher) {
    Distinct(p.sourceKeys)
  }

  /** The state after a hook call (including any effects made before a
      failure) and whether the call returned normally. */
  datatype Step = Step(state: Patcher, outcome: Outcome)

  /** The ids a package removal marks: source ids matching the target's prefix. */
  predicate Removes(p: Patcher, targetId: string, recursive: bool, id: string)
    requires |targetId| >= |PackageSuffix|
  {
    id in p.sourceKeys && Matches(PackagePrefix(targetId), recursive, id)
  }

  // ---------------------------------------------------------------------
  // Target resolution

  /** The package prefix a dotted package name stands for: `L` for the
      root, `L<name with / for .>/` otherwise. */
  function DottedPrefix(rest: string): (prefix: string)
    ensures |prefix| >= 1 && prefix[0] == 'L'
    ensures rest != [] ==> prefix[|prefix| - 1] == '/'
  {
    if rest == [] then "L" else "L" + Replace(rest, '.', '/') + "/"
  }

  /** The descriptor of `<rest>.<marker>` (of `<marker>` alone when the rest
      is empty) is the package prefix followed by `<marker>;`, for a marker
      name without dots such as `package-info`. */
  lemma DottedDescriptor(rest: string, marker: string)
    requires '.' !in marker
    ensures ToClassDescriptor(if |rest| != 0 then rest + "." + marker else marker)
      == DottedPrefix(rest) + (marker + ";")
  {
    ReplaceAbsent(marker, '.', '/');
    if rest != [] {
      var tail := "." + marker;
      var r := Replace(rest, '.', '/');
      assert rest + "." + marker == rest + tail;
      ReplaceAppend(".", marker, '.', '/');
      ReplaceAppend(rest, tail, '.', '/');
      assert ToClassDescriptor(rest + tail) == "L" + (r + ("/" + marker)) + ";";
      Regroup("L", r, "/", marker, ";");
    } else {
      assert ToClassDescriptor(marker) == "L" + marker + ";";
      assert "L" + marker + ";" == "L" + (marker + ";");
    }
  }

  /** Every dotted prefix names a package marker, and is recovered by
      stripping the marker suffix. */
  lemma DottedPrefixIsPackage(rest: string)
    ensures IsPackageId(DottedPrefix(rest) + PackageSuffix)
    ensures PackagePrefix(DottedPrefix(rest) + PackageSuffix) == DottedPrefix(rest)
  {
    var prefix := DottedPrefix(rest);
    var dir := prefix[1..];
    assert prefix == "L" + dir;
    assert "L" + dir + PackageSuffix == prefix + PackageSuffix;
    PackageIdOfDir(dir);
  }

  /** A dotted target: one leading `.` is dropped, `.package-info` is
      appended to a non-empty rest (the rest alone becomes `package-info`
      when empty), and the dotted name becomes a descriptor. The patch's own
      id plays no part, so the name is absolute. */
  function DottedTargetId(target: string): (id: string)
    ensures IsPackageId(id)
    ensures id == DottedPrefix(if StartsWith(target, ".") then target[1..] else target) + PackageSuffix
    ensures PackagePrefix(id) == DottedPrefix(if StartsWith(target, ".") then target[1..] else target)
  {
    var rest := if StartsWith(target, ".") then target[1..] else target;
    var name := if |rest| != 0 then rest + "." + PackageInfoName else PackageInfoName;
    DottedDescriptor(rest, PackageInfoName);
    DottedPrefixIsPackage(rest);
    TypeName.ToClassDescriptor(name)
  }

  /** A two-segment package name `a.b` names the marker `La/b/package-info;`. */
  lemma DottedTwoSegments(a: string, b: string)
    requires a != [] && '.' !in a && '.' !in b
    ensures DottedTargetId(a + "." + b) == "L" + a + "/" + b + "/" + PackageSuffix
  {
    var target := a + "." + b;
    assert !StartsWith(target, ".") by { assert target[0] == a[0]; }
    var r := a + "/" + b;
    assert Replace(target, '.', '/') == r by {
      assert target == a + ("." + b);
      ReplaceAppend(a, "." + b, '.', '/');
      ReplaceAppend(".", b, '.', '/');
      ReplaceAbsent(a, '.', '/');
      ReplaceAbsent(b, '.', '/');
      assert Replace(".", '.', '/') == "/";
    }
    assert DottedPrefix(target) == "L" + r + "/";
    assert DottedTargetId(target) == "L" + r + "/" + PackageSuffix;
    Flatten("L", a, "/", b);
  }

  /** `getPackageTargetId`: the patch's own id when there is no target; a
      target that is a class descriptor, verbatim; otherwise the dotted
      reading. The result must be a package marker. `isDescriptor` stands for
      `DexUtils.isClassDescriptor`. */
  function ResolveTarget(isDescriptor: string -> bool, patchId: string, target: Option<string>): (r: Result<string>)
    ensures r.Ok? ==> IsPackageId(r.value)
    ensures r.Err? ==> r.error == TargetNotPackage
    ensures target.None? ==> r == (if IsPackageId(patchId) then Ok(patchId) else Err(TargetNotPackage))
    ensures target.Some? && isDescriptor(target.value) ==>
      r == (if IsPackageId(target.value) then Ok(target.value) else Err(TargetNotPackage))
    ensures target.Some? && !isDescriptor(target.value) ==> r == Ok(DottedTargetId(target.value))
  {
    var targetId :=
      match target
      case None => patchId
      case Some(t) => if isDescriptor(t) then t else DottedTargetId(t);
    if IsPackageId(targetId) then Ok(targetId) else Err(TargetNotPackage)
  }

  /** An explicit target resolves the same way whatever the patch's own id. */
  lemma ExplicitTargetIgnoresPatchId(isDescriptor: string -> bool, patchId1: string, patchId2: string, target: string)
    ensures ResolveTarget(isDescriptor, patchId1, Some(target)) == ResolveTarget(isDescriptor, patchId2, Some(target))
  {
  }

  // ---------------------------------------------------------------------
  // Hooks

  /** The generic class-set patcher's hooks (`super.onPrepare`,
      `super.onReplace`, `super.onRemove`), which this model does not define:
      for a hook, a state, and the patch id, class and annotation, the state
      after the call and its outcome. */
  type GenericHooks = (Hook, Patcher, string, ClassDef, Annotation) -> Step

  /** Handing a hook to the generic patcher. The `processingPackage` flag is
      private to the package patcher, so the generic patcher leaves it as it
      was. */
  function Delegate(generic: GenericHooks, hook: Hook, p: Patcher, patchId: string, patch: ClassDef, annotation: Annotation): Step {
    var g := generic(hook, p, patchId, patch, annotation);
    Step(g.state.(processingPackage := p.processingPackage), g.outcome)
  }

  /** The base patcher's `onSimpleAdd(patch, annotation)`, which this model
      does not define: given the state it is called in, the class to add,
      or the exception it throws. */
  type SimpleAdd = (Patcher, ClassDef, Annotation) -> Result<ClassDef>

  /** `onPrepare`: the flag is set to whether the patch id is a package
      marker. A non-package is handed to the generic patcher; a package patch
      may carry neither a target class nor the content-only flag (checked in
      that order), and nothing else is checked or changed. */
  function OnPrepare(generic: GenericHooks, p: Patcher, patchId: string, patch: ClassDef, annotation: Annotation): (r: Step)
    ensures r.state.processingPackage == IsPackageId(patchId)
    ensures !IsPackageId(patchId) ==>
      r == Delegate(generic, PrepareHook, p.(processingPackage := false), patchId, patch, annotation)
    ensures IsPackageId(patchId) ==> r.state == p.(processingPackage := true)
    ensures IsPackageId(patchId) ==> (r.outcome.Fail? <==> annotation.targetClass.Some? || annotation.contentOnly)
    ensures IsPackageId(patchId) && annotation.targetClass.Some? ==> r.outcome == Fail(InvalidElement(TargetClassElement))
    ensures IsPackageId(patchId) && annotation.targetClass.None? && annotation.contentOnly ==>
      r.outcome == Fail(InvalidElement(ContentOnlyElement))
  {
    var isPackage := IsPackageId(patchId);
    var p' := p.(processingPackage := isPackage);
    if !isPackage then Delegate(generic, PrepareHook, p', patchId, patch, annotation)
    else if annotation.targetClass.Some? then Step(p', Fail(InvalidElement(TargetClassElement)))
    else if annotation.contentOnly then Step(p', Fail(InvalidElement(ContentOnlyElement)))
    else Step(p', Pass)
  }

  /** `onReplace`: outside a package, delegate; inside, resolve the target,
      remove the package's classes, then pass the patch to `onSimpleAdd` and
      record what it returns with `addPatched`. An exception from
      `onSimpleAdd` keeps the removal's effects. */
  function OnReplace(generic: GenericHooks, simpleAdd: SimpleAdd, p: Patcher, isDescriptor: string -> bool, patchId: string, patch: ClassDef, annotation: Annotation): (r: Step)
    requires p.processingPackage ==> Valid(p)
    ensures r.state.processingPackage == p.processingPackage
    ensures !p.processingPackage ==> r == Delegate(generic, ReplaceHook, p, patchId, patch, annotation)
    ensures p.processingPackage ==>
      && Valid(r.state) && r.state.sourceKeys == p.sourceKeys
      && p.targeted <= r.state.targeted && p.conflicts <= r.state.conflicts
    ensures p.processingPackage && ResolveTarget(isDescriptor, patchId, annotation.target).Err? ==>
      r == Step(p, Fail(TargetNotPackage))
    ensures p.processingPackage && ResolveTarget(isDescriptor, patchId, annotation.target).Ok? ==>
      var targetId := ResolveTarget(isDescriptor, patchId, annotation.target).value;
      var made := simpleAdd(r.state.(added := p.added), patch, annotation);
      && (forall id :: id in r.state.targeted <==> id in p.targeted || Removes(p, targetId, annotation.recursive, id))
      && (forall id :: id in r.state.conflicts[|p.conflicts|..] <==> id in p.targeted && Removes(p, targetId, annotation.recursive, id))
      && Distinct(r.state.conflicts[|p.conflicts|..])
      && r.outcome == (if made.Ok? then Pass else Fail(made.error))
      && r.state.added == (if made.Ok? then p.added + [Patched(patch, made.value)] else p.added)
  {
    if !p.processingPackage then Delegate(generic, ReplaceHook, p, patchId, patch, annotation)
    else
      match ResolveTarget(isDescriptor, patchId, annotation.target)
      case Err(e) => Step(p, Fail(e))
      case Ok(targetId) =>
        var sweep := RemovePackage(p.sourceKeys, targetId, annotation.recursive, p.targeted);
        var p' := p.(targeted := sweep.targeted, conflicts := p.conflicts + sweep.conflicts);
        assert p'.conflicts[|p.conflicts|..] == sweep.conflicts;
        match simpleAdd(p', patch, annotation)
        case Err(e) => Step(p', Fail(e))
        case Ok(patched) => Step(p'.(added := p.added + [Patched(patch, patched)]), Pass)
  }

  /** `onRemove`: outside a package, delegate; inside, resolve the target and
      remove the package's classes; nothing is added. */
  function OnRemove(generic: GenericHooks, p: Patcher, isDescriptor: string -> bool, patchId: string, patch: ClassDef, annotation: Annotation): (r: Step)
    requires p.processingPackage ==> Valid(p)
    ensures r.state.processingPackage == p.processingPackage
    ensures !p.processingPackage ==> r == Delegate(generic, RemoveHook, p, patchId, patch, annotation)
    ensures p.processingPackage ==>
      && Valid(r.state) && r.state.sourceKeys == p.sourceKeys
      && p.targeted <= r.state.targeted && p.conflicts <= r.state.conflicts
      && r.state.added == p.added
    ensures p.processingPackage && ResolveTarget(isDescriptor, patchId, annotation.target).Err? ==>
      r == Step(p, Fail(TargetNotPackage))
    ensures p.processingPackage && ResolveTarget(isDescriptor, patchId, annotation.target).Ok? ==>
      var targetId := ResolveTarget(isDescriptor, patchId, annotation.target).value;
      && r.outcome == Pass
      && (forall id :: id in r.state.targeted <==> id in p.targeted || Removes(p, targetId, annotation.recursive, id))
      && (forall id :: id in r.state.conflicts[|p.conflicts|..] <==> id in p.targeted && Removes(p, targetId, annotation.recursive, id))
      && Distinct(r.state.conflicts[|p.conflicts|..])
  {
    if !p.processingPackage then Delegate(generic, RemoveHook, p, patchId, patch, annotation)
    else
      match ResolveTarget(isDescriptor, patchId, annotation.target)
      case Err(e) => Step(p, Fail(e))
      case Ok(targetId) =>
        var sweep := RemovePackage(p.sourceKeys, targetId, annotation.recursive, p.targeted);
        var p' := p.(targeted := sweep.targeted, conflicts := p.conflicts + sweep.conflicts);
        assert p'.conflicts[|p.conflicts|..] == sweep.conflicts;
        Step(p', Pass)
  }

  // ---------------------------------------------------------------------
  // Hook sequences

  /** A package patch that passes prepare and names no explicit target
      replaces its own package: the package's source classes are targeted,
      and the replace returns normally, with one class added, exactly when
      `onSimpleAdd` does. */
  lemma PrepareThenReplaceOwnPackage(generic: GenericHooks, simpleAdd: SimpleAdd, p: Patcher, isDescriptor: string -> bool, patchId: string, patch: ClassDef, annotation: Annotation)
    requires Valid(p)
    requires IsPackageId(patchId) && annotation.targetClass.None? && !annotation.contentOnly
    requires annotation.target.None?
    ensures var prepared := OnPrepare(generic, p, patchId, patch, annotation);
      var replaced := OnReplace(generic, simpleAdd, prepared.state, isDescriptor, patchId, patch, annotation);
      var made := simpleAdd(replaced.state.(added := p.added), patch, annotation);
      && prepared.outcome == Pass
      && (replaced.outcome == Pass <==> made.Ok?)
      && (made.Ok? ==> replaced.state.added == p.added + [Patched(patch, made.value)])
      && (forall id :: id in replaced.state.targeted <==> id in p.targeted || Removes(p, patchId, annotation.recursive, id))
  {
  }

  /** A class that is not a package marker only passes through: prepare
      clears the flag, and prepare, replace and remove are then exactly the
      generic patcher's hooks, whatever those do. */
  lemma NonPackagePassesThrough(generic: GenericHooks, simpleAdd: SimpleAdd, p: Patcher, isDescriptor: string -> bool, patchId: string, patch: ClassDef, annotation: Annotation)
    requires !IsPackageId(patchId)
    ensures var prepared := OnPrepare(generic, p, patchId, patch, annotation);
      && !prepared.state.processingPackage
      && prepared == Delegate(generic, PrepareHook, p.(processingPackage := false), patchId, patch, annotation)
      && OnReplace(generic, simpleAdd, prepared.state, isDescriptor, patchId, patch, annotation)
         == Delegate(generic, ReplaceHook, prepared.state, patchId, patch, annotation)
      && OnRemove(generic, prepared.state, isDescriptor, patchId, patch, annotation)
         == Delegate(generic, RemoveHook, prepared.state, patchId, patch, annotation)
  {
  }
}
