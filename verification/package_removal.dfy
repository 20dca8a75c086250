/**
 Removal of a package's classes from the source class set. The package is
 named by the prefix of its marker id (`Lcom/app/` for
 `Lcom/app/package-info;`); removal walks the source map's key sequence in
 order and marks every matching id as targeted. An id that is already
 targeted is not fatal: it is reported as a conflict (an ERROR log entry)
 and the walk goes on.
 */
module PackageRemoval {
  import opened Strings
  import opened PackageId

  /** The recursive pattern `<prefix>.*;` (DOTALL): the prefix, then any
      characters, then a closing `;`. */
  predicate InSubtree(prefix: string, id: string) {
    StartsWith(id, prefix) && |id| > |prefix| && id[|id| - 1] == ';'
  }

  /** The non-recursive pattern `<prefix>[^/]*;`: as above, with no `/`
      between the prefix and the closing `;`. */
  predicate InPackage(prefix: string, id: string) {
    InSubtree(prefix, id) && forall i :: |prefix| <= i < |id| - 1 ==> id[i] != '/'
  }

  /** The test applied to each source id (`startsWith` and the pattern). */
  predicate Matches(prefix: string, recursive: bool, id: string) {
    if recursive then InSubtree(prefix, id) else InPackage(prefix, id)
  }

  /** Outcome of one removal walk: the new targeted set and, in key order,
      the ids reported as already targeted. */
  datatype Sweep = Sweep(targeted: set<string>, conflicts: seq<string>)

  /** `removePackage` as a fold over the source keys. `addTarget(id, false)`
      fails exactly when `id` is already targeted. */
  function RemoveMatching(keys: seq<string>, prefix: string, recursive: bool, targeted: set<string>): (r: Sweep)
    requires Distinct(keys)
    ensures targeted <= r.targeted
    ensures forall id :: id in r.targeted <==> id in targeted || (id in keys && Matches(prefix, recursive, id))
    ensures forall id :: id in r.conflicts <==> id in targeted && id in keys && Matches(prefix, recursive, id)
    ensures Distinct(r.conflicts)
    decreases |keys|
  {
    if keys == [] then Sweep(targeted, [])
    else
      var id := keys[0];
      assert keys == [id] + keys[1..];
      if !Matches(prefix, recursive, id) then
        RemoveMatching(keys[1..], prefix, recursive, targeted)
      else if id in targeted then
        var rest := RemoveMatching(keys[1..], prefix, recursive, targeted);
        Sweep(rest.targeted, [id] + rest.conflicts)
      else
        RemoveMatching(keys[1..], prefix, recursive, targeted + {id})
  }

  /** `removePackage(targetId, recursive)`: the prefix is the target id
      without its last 13 characters (the `package-info;` suffix on every
      id target resolution returns); a shorter id makes `substring` fail. */
  function RemovePackage(keys: seq<string>, targetId: string, recursive: bool, targeted: set<string>): (r: Sweep)
    requires Distinct(keys)
    requires |targetId| >= |PackageSuffix|
    ensures targeted <= r.targeted
    ensures forall id :: id in r.targeted - targeted ==> id in keys && StartsWith(id, PackagePrefix(targetId))
    ensures forall id :: id in r.targeted <==> id in targeted || (id in keys && Matches(PackagePrefix(targetId), recursive, id))
    ensures forall id :: id in r.conflicts <==> id in targeted && id in keys && Matches(PackagePrefix(targetId), recursive, id)
    ensures Distinct(r.conflicts)
  {
    RemoveMatching(keys, PackagePrefix(targetId), recursive, targeted)
  }

  // The recursive pattern `<prefix>.*;` read as a regex: an id matches
  // exactly when it is the prefix, some characters, and `;`.
  lemma InSubtreeSplits(prefix: string, id: string)
    requires InSubtree(prefix, id)
    ensures id == prefix + id[|prefix|..|id| - 1] + ";"
  {
  }

  lemma InSubtreeOfParts(prefix: string, rest: string)
    ensures InSubtree(prefix, prefix + rest + ";")
  {
  }

  /** The non-recursive pattern `<prefix>[^/]*;` read as a regex: the prefix,
      some characters, and `;` match exactly when those characters hold no
      `/`. */
  lemma InPackageOfParts(prefix: string, rest: string)
    ensures InPackage(prefix, prefix + rest + ";") <==> '/' !in rest
  {
    var id := prefix + rest + ";";
    InSubtreeOfParts(prefix, rest);
    assert forall i :: |prefix| <= i < |id| - 1 ==> id[i] == rest[i - |prefix|];
    if '/' in rest {
      var k :| 0 <= k < |rest| && rest[k] == '/';
      assert id[|prefix| + k] == '/';
    }
  }

  /** Everything a non-recursive removal matches, a recursive one matches. */
  lemma NonRecursiveWithinRecursive(keys: seq<string>, prefix: string, targeted: set<string>)
    requires Distinct(keys)
    ensures RemoveMatching(keys, prefix, false, targeted).targeted <= RemoveMatching(keys, prefix, true, targeted).targeted
  {
  }

  /** A second identical removal changes nothing in the targeted set; it
      reports every matching id as already targeted. */
  lemma RemoveMatchingIdempotent(keys: seq<string>, prefix: string, recursive: bool, targeted: set<string>)
    requires Distinct(keys)
    ensures var once := RemoveMatching(keys, prefix, recursive, targeted);
      var twice := RemoveMatching(keys, prefix, recursive, once.targeted);
      && twice.targeted == once.targeted
      && (forall id :: id in twice.conflicts <==> id in keys && Matches(prefix, recursive, id))
  {
  }
}
