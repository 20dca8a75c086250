# Package patching in DexPatcher, modelled in Dafny

DexPatcher merges a set of patch classes into the classes of an existing dex
file. A patch class named `package-info` stands for a whole package: replacing
or removing it replaces or removes every class of that package, and with the
`recursive` flag every class of its sub-packages too. `PackagePatcher`
implements that on top of the generic class-set patcher by overriding three
hooks:

- `onPrepare` decides whether the current patch class is a package marker and
  refuses the two annotation elements a package patch may not carry;
- `onReplace` and `onRemove` resolve the package the annotation targets, mark
  every matching source class as targeted, and (for replace) add the class
  that `onSimpleAdd` makes of the patch class.

The model is functional. Class ids are strings and are taken to be class
descriptors. The patcher's state is a `Patcher` record: the source map's keys
in iteration order, the targeted set, the `processingPackage` flag, the ids
logged as "already targeted", and the classes added (each patch class with
the class made of it). Each hook is a function from a state to a `Step`: the new
state plus `Pass` or `Fail(error)`. The state in a `Step` keeps effects made
before a failure; for example `onPrepare` sets the flag before it throws.

Modules:

- `Strings` (`strings.dfy`): `startsWith`, `endsWith`, `replace(char, char)`,
  and duplicate-free sequences.
- `TypeName` (`type_name.dfy`): dotted type names to class descriptors, as in
  section 4.3.2 of the Java Virtual Machine Specification (`L` ClassName `;`),
  using the `/`-separated internal form of section 4.2.1.
- `PackageId` (`package_id.dfy`): `isPackageId`, `PACKAGE_SUFFIX`, and the
  regex `L(.*/)?package-info;` written as an explicit predicate.
- `PackageRemoval` (`package_removal.dfy`): `removePackage` written as a fold
  over the source keys. The regexes `<prefix>.*;` and `<prefix>[^/]*;` become
  explicit predicates.
- `PackagePatcher` (`package_patcher.dfy`): target resolution and the three
  hooks.
- `PackageScenarios` (`package_scenarios.dfy`): worked instances.

Assumptions about code that is not part of this model:

- `Id.toClassDescriptor` and `Id.fromClassDescriptor` are the identity.
  `removePackage` already treats ids as descriptors.
- `TypeName.toClassDescriptor(n)` is `"L" + n.replace('.', '/') + ";"`.
- `DexUtils.isClassDescriptor` is not defined here. It is a parameter
  `isDescriptor: string -> bool` of resolution and of the replace/remove hooks.
- `addTarget(id, false)` fails exactly when `id` is already targeted.
- The generic hooks (`super.onPrepare/onReplace/onRemove`) are not defined
  here. They are a parameter `generic: GenericHooks` of the three hooks: any
  function from a hook, a state, the patch id, class and annotation to a
  `Step`. Whatever it does to the state, the private `processingPackage` flag
  keeps the value `PackagePatcher` gave it (`Delegate`).
- `onSimpleAdd` is not defined here either. It is a parameter
  `simpleAdd: SimpleAdd` of the replace hook. Given the state after removal,
  the patch and the annotation, it returns the class to add or throws
  (`Raised` stands for any exception thrown by such base-patcher code).
- `addPatched(patch, patched)` appends `Patched(patch, patched)` to `added`
  and does not throw.
- The source map's key sequence has no duplicates (`Valid`), as the keys of a map.

Three behaviours of the code that are easy to misread:

- A dotted target is absolute. `.sub` names `Lsub/package-info;` even on a
  patch in `com.app`; the leading `.` is just dropped
  (`PackageScenarios.LeadingDotIsAbsolute`).
- Removal also matches the package's own `package-info` class when it is among
  the source classes (`PackageScenarios.RecursiveReplaceScenario`).
- A second identical removal leaves the targeted set unchanged. It does not
  stay silent, though: every matching id is logged again as already targeted
  (`PackageRemoval.RemoveMatchingIdempotent`).

## Model

| member | source | states |
|---|---|---|
| PackageId.PackageIdOfDir | tool/src/main/java/lanchon/dexpatcher/core/patcher/PackagePatcher.java:31-37 | `L` + group + `package-info;` is a package id iff the group is empty or ends in `/`, i.e. the group matches `(.*/)?` |
| PackageId.PackageIdSplits | tool/src/main/java/lanchon/dexpatcher/core/patcher/PackagePatcher.java:31-37 | every package id splits as `L`, a group that is empty or ends in `/`, and `package-info;`: the converse reading of the regex |
| PackageId.PatternImpliesSuffix | tool/src/main/java/lanchon/dexpatcher/core/patcher/PackagePatcher.java:36 | the pattern alone implies the `endsWith(PACKAGE_SUFFIX)` test, so the conjunction adds nothing |
| PackageId.PackageIdAccepts | tool/src/main/java/lanchon/dexpatcher/core/patcher/PackagePatcher.java:31-37 | `Lcom/app/package-info;` and `Lpackage-info;` are package ids |
| PackageId.PackageIdRejects | tool/src/main/java/lanchon/dexpatcher/core/patcher/PackagePatcher.java:31-37 | `LFoopackage-info;` and `Lcom/app/Foopackage-info;` (written `L` + `Foo` + suffix and `L` + `com/app/Foo` + suffix) are not package ids, although they end in `package-info;` |
| PackageId.PackagePrefix | tool/src/main/java/lanchon/dexpatcher/core/patcher/PackagePatcher.java:107 | the prefix is 13 characters shorter than the id, and an id ending in `package-info;` is its prefix followed by that suffix |
| TypeName.ToClassDescriptor | tool/src/main/java/lanchon/dexpatcher/core/patcher/PackagePatcher.java:95 | the descriptor is `L`, the name with each `.` in the same place turned into `/` and every other character kept, then `;`; no `.` remains |
| TypeName.DescriptorRoundTrip | tool/src/main/java/lanchon/dexpatcher/core/patcher/PackagePatcher.java:95 | a dotted name without `/` is recovered from its descriptor |
| PackagePatcher.DottedDescriptor | tool/src/main/java/lanchon/dexpatcher/core/patcher/PackagePatcher.java:93-95 | the descriptor of `<rest>.package-info`, or of `package-info` when the rest is empty, is the package prefix followed by `package-info;` |
| PackagePatcher.DottedPrefixIsPackage | tool/src/main/java/lanchon/dexpatcher/core/patcher/PackagePatcher.java:93-99 | every prefix a dotted name produces gives a package id, so the `isPackageId` check after resolution never rejects a dotted target |
| PackagePatcher.DottedTargetId | tool/src/main/java/lanchon/dexpatcher/core/patcher/PackagePatcher.java:91-95 | a dotted target always yields a package id, whose removal prefix is `L` for an empty rest and `L<rest with / for .>/` otherwise; one leading `.` is dropped |
| PackagePatcher.DottedTwoSegments | tool/src/main/java/lanchon/dexpatcher/core/patcher/PackagePatcher.java:92-95 | a target `a.b` with dot-free segments names the marker `La/b/package-info;` |
| PackagePatcher.ResolveTarget | tool/src/main/java/lanchon/dexpatcher/core/patcher/PackagePatcher.java:84-104 | success always yields a package id, and the only failure is "target is not a package"; with no target the result is the patch id when it is a package; a descriptor target is used verbatim; a dotted target always succeeds |
| PackagePatcher.ExplicitTargetIgnoresPatchId | tool/src/main/java/lanchon/dexpatcher/core/patcher/PackagePatcher.java:88-97 | when a target is given, the result does not depend on the patch's own id |
| PackageRemoval.RemoveMatching | tool/src/main/java/lanchon/dexpatcher/core/patcher/PackagePatcher.java:109-118 | the targeted set only grows, and gains exactly the matching source ids. The conflicts are exactly the matching ids that were already targeted, each reported once |
| PackageRemoval.RemovePackage | tool/src/main/java/lanchon/dexpatcher/core/patcher/PackagePatcher.java:106-119 | with prefix = target id minus `package-info;`, the ids added all start with the prefix. They are exactly the source ids the pattern matches. Conflicts are exactly the matched ids already targeted, each logged once |
| PackageRemoval.InSubtreeSplits | tool/src/main/java/lanchon/dexpatcher/core/patcher/PackagePatcher.java:108-110 | an id accepted by the recursive matcher is the prefix, some characters, and `;` |
| PackageRemoval.InSubtreeOfParts | tool/src/main/java/lanchon/dexpatcher/core/patcher/PackagePatcher.java:108-110 | the prefix, any characters, and `;` are accepted by the recursive matcher (`<prefix>.*;`) |
| PackageRemoval.InPackageOfParts | tool/src/main/java/lanchon/dexpatcher/core/patcher/PackagePatcher.java:108-110 | the prefix, some characters, and `;` are accepted by the non-recursive matcher iff those characters hold no `/` (`<prefix>[^/]*;`) |
| PackageRemoval.NonRecursiveWithinRecursive | tool/src/main/java/lanchon/dexpatcher/core/patcher/PackagePatcher.java:108-112 | a non-recursive removal targets a subset of what a recursive removal targets |
| PackageRemoval.RemoveMatchingIdempotent | tool/src/main/java/lanchon/dexpatcher/core/patcher/PackagePatcher.java:109-116 | repeating a removal leaves the targeted set unchanged, and the repeat reports every matching id as already targeted |
| PackagePatcher.OnPrepare | tool/src/main/java/lanchon/dexpatcher/core/patcher/PackagePatcher.java:48-56 | the flag becomes exactly `isPackageId(patchId)`. A non-package gives exactly the generic `onPrepare`'s result. For a package nothing else changes, and it fails iff it has a target class or content-only, with the target-class error first |
| PackagePatcher.OnReplace | tool/src/main/java/lanchon/dexpatcher/core/patcher/PackagePatcher.java:59-70 | off the flag, the result is exactly the generic `onReplace`'s. On it, a resolution failure leaves the state untouched. Otherwise the targeted set gains exactly the matching source ids, and the already-targeted matches are logged once each. Then `onSimpleAdd` sees that state. If it throws, the replace fails with its error and the removal stays. If it returns a class, the patch is recorded once, paired with that class |
| PackagePatcher.OnRemove | tool/src/main/java/lanchon/dexpatcher/core/patcher/PackagePatcher.java:73-82 | as `OnReplace`, but nothing is added |
| PackagePatcher.PrepareThenReplaceOwnPackage | tool/src/main/java/lanchon/dexpatcher/core/patcher/PackagePatcher.java:48-70 | a valid package patch with no target replaces its own package: prepare passes and the package's source classes are targeted. Replace passes exactly when `onSimpleAdd` returns a class, and then the patch is recorded once with that class |
| PackagePatcher.NonPackagePassesThrough | tool/src/main/java/lanchon/dexpatcher/core/patcher/PackagePatcher.java:48-82 | for a non-package patch, prepare clears the flag, and prepare, replace and remove each give exactly the generic patcher's result for that hook |
| PackageScenarios.EmptyTargetIsRoot | tool/src/main/java/lanchon/dexpatcher/core/patcher/PackagePatcher.java:92-95 | the target `""` resolves to `Lpackage-info;` |
| PackageScenarios.DotTargetIsRoot | tool/src/main/java/lanchon/dexpatcher/core/patcher/PackagePatcher.java:92-95 | the target `"."` resolves to `Lpackage-info;` |
| PackageScenarios.DottedTargets | tool/src/main/java/lanchon/dexpatcher/core/patcher/PackagePatcher.java:92-95 | the target `com.app` (`AppName`) resolves to `Lcom/app/package-info;`, as an instance of `DottedTwoSegments` |
| PackageScenarios.LeadingDotIsAbsolute | tool/src/main/java/lanchon/dexpatcher/core/patcher/PackagePatcher.java:88-97 | on a patch in `com.app`, the target `".sub"` resolves to `Lsub/package-info;` |
| PackageScenarios.ScenarioMatches | tool/src/main/java/lanchon/dexpatcher/core/patcher/PackagePatcher.java:107-110 | with prefix `Lcom/app/`, `Lcom/app/A;` and the package's own marker match in both modes. `Lcom/app/sub/B;` matches only recursively. `Lcom/other/C;` matches in neither |
| PackageScenarios.RecursiveReplaceScenario | tool/src/main/java/lanchon/dexpatcher/core/patcher/PackagePatcher.java:48-70 | a recursive replace of `com.app` targets the marker, `A` and `sub/B`, leaves `com/other/C` alone, and logs no conflict. `onSimpleAdd` is called on exactly that state. The replace passes and records the patch with its result, or fails with its error |
| PackageScenarios.NonRecursiveReplaceScenario | tool/src/main/java/lanchon/dexpatcher/core/patcher/PackagePatcher.java:48-70 | a non-recursive replace of `com.app` targets only the marker and `A`, and `onSimpleAdd` is called on exactly that state |
| PackageScenarios.ConflictScenario | tool/src/main/java/lanchon/dexpatcher/core/patcher/PackagePatcher.java:106-118 | if `A` is already targeted, a removal logs exactly `[A]` as a conflict, still targets the rest, and returns normally |
| PackageScenarios.TargetClassRefusedScenario | tool/src/main/java/lanchon/dexpatcher/core/patcher/PackagePatcher.java:48-56 | a package patch with a target class fails prepare with the target-class error, and nothing is targeted |

## Left out

- Logging is left out: `log`, `isLogging`, the DEBUG messages, `shouldLogTarget`, `extendLogPrefixWithTargetLabel` and `Label.fromClassId`. They only produce diagnostics. The one ERROR message, "already targeted type", is kept as the `conflicts` sequence.
- The generic class-set patcher behind `super.onPrepare`, `super.onReplace` and `super.onRemove` is left out, along with `onSimpleAdd`, `addPatched` and `getSourceMap`. Their code is not part of this model. The generic `super` hooks and `onSimpleAdd` are uninterpreted parameters, so the model makes no claim about what the `super` hooks target, add or throw, or about what `onSimpleAdd` returns or throws.
- `DexUtils.isClassDescriptor` is not part of this model; it enters as an uninterpreted parameter.
- `Id` and `TypeName` internals are not part of this model. They are replaced by the assumptions listed above.
- `ClassDef` and the dexlib2 class structures are foreign library types. A patch class is an opaque `ClassDef(handle)`.
- The `java.util.regex` engine is left out. Both patterns are explicit predicates. The `InSubtree*`/`InPackage*`/`PackageId*` lemmas connect each predicate to the regex read as "prefix, any characters, suffix".
- Java's `null` annotation values are modelled as `Option`.
- PackageRemoval.RemoveMatching: requires the source keys to be duplicate-free. A map's key set has no duplicates, so a repeated key never arises.
- PackageRemoval.RemovePackage: requires a target id of at least 13 characters. A shorter id makes `substring` throw, and resolution only ever returns package ids, which are longer.
- PackagePatcher.OnReplace, PackagePatcher.OnRemove: require duplicate-free source keys only when the flag is set, the only case in which the package code reads them.
- PackagePatcher.OnReplace: `addPatched` is assumed to record the pair `(patch, patched)` and never to throw. Its code is not part of this model.
