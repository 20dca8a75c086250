/**
 Recognition of package markers. A package is represented in a dex file by a
 class named `package-info` in that package, so its class descriptor is
 `Lpackage-info;` for the root package and `L<dir>/package-info;` otherwise.
 Class ids are taken to be class descriptors (the id/descriptor conversion
 is the identity).
 */
module PackageId {
  import opened Strings

  /** The simple name of the package marker class. */
  const PackageInfoName: string := "package-info"

  /** `PACKAGE_SUFFIX`: the marker's simple name followed by the descriptor's `;`. */
  const PackageSuffix: string := PackageInfoName + ";"

  /** The descriptor of the root package's marker. */
  const RootPackageId: string := "L" + PackageSuffix

  // `PACKAGE_PATTERN`, `L(.*/)?package-info;`, restated without a regex
  // engine: either the root marker, or an `L` start and a `/package-info;`
  // end. The pattern is compiled with DOTALL, so `.*` spans any character.
  predicate MatchesPackagePattern(d: string) {
    d == RootPackageId || (StartsWith(d, "L") && EndsWith(d, "/" + PackageSuffix))
  }

  /** `isPackageId`: ends with the marker suffix and fully matches the pattern. */
  predicate IsPackageId(id: string) {
    EndsWith(id, PackageSuffix) && MatchesPackagePattern(id)
  }

  /** The part of a marker id before `package-info;`: `L` for the root
      package, `L<dir>/` otherwise. */
  function PackagePrefix(id: string): (prefix: string)
    requires |id| >= |PackageSuffix|
    ensures |prefix| + |PackageSuffix| == |id|
    ensures EndsWith(id, PackageSuffix) ==> id == prefix + PackageSuffix
  {
    id[..|id| - |PackageSuffix|]
  }

  /** The suffix test in `isPackageId` is implied by the pattern. */
  lemma PatternImpliesSuffix(d: string)
    requires MatchesPackagePattern(d)
    ensures IsPackageId(d)
  {
  }

  // Reading the regex `L(.*/)?package-info;` backwards: every marker id
  // splits as `L`, a group that is empty or ends in `/`, and the suffix.
  lemma PackageIdSplits(id: string)
    requires IsPackageId(id)
    ensures var dir := id[1..|id| - |PackageSuffix|];
      && id == "L" + dir + PackageSuffix
      && (dir == [] || dir[|dir| - 1] == '/')
  {
  }

  /** Reading the regex forwards: `L`, then a group, then the suffix, is a
      marker exactly when the group is empty or ends in `/`. This rejects
      `LFoopackage-info;` and `Lcom/app/Foopackage-info;`. */
  lemma PackageIdOfDir(dir: string)
    ensures IsPackageId("L" + dir + PackageSuffix) <==> (dir == [] || dir[|dir| - 1] == '/')
  {
    var id := "L" + dir + PackageSuffix;
    var n := |id|;
    assert id[n - 13..] == PackageSuffix;
    if dir == [] {
      assert id == RootPackageId;
    } else {
      assert id != RootPackageId;
      assert id[..1] == "L";
      assert id[n - 14] == dir[|dir| - 1];
      if dir[|dir| - 1] == '/' {
        assert id[n - 14..] == "/" + PackageSuffix;
      } else {
        assert id[n - 14..][0] != '/';
      }
    }
  }

  /** Markers at the root and inside a package are recognised. */
  lemma PackageIdAccepts()
    ensures IsPackageId("Lcom/app/package-info;")
    ensures IsPackageId(RootPackageId)
  {
  }

  /** A class whose simple name merely ends in `package-info` is not a
      marker, whether at the root (`LFoopackage-info;`) or inside a package
      (`Lcom/app/Foopackage-info;`). */
  lemma PackageIdRejects()
    ensures !IsPackageId("L" + "Foo" + PackageSuffix)
    ensures !IsPackageId("L" + "com/app/Foo" + PackageSuffix)
  {
    PackageIdOfDir("Foo");
    PackageIdOfDir("com/app/Foo");
  }
}
