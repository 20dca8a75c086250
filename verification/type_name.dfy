/**
 Conversion between a dotted Java type name (`com.app.Foo`) and a class
 descriptor (`Lcom/app/Foo;`), following section 4.3.2 of the Java Virtual
 Machine Specification (a class type is written `L` ClassName `;`) and the
 internal `/`-separated binary-name form of section 4.2.1.
 */
module TypeName {
  import opened Strings

  /** `TypeName.toClassDescriptor`: `L`, the name with `.` turned into `/`, `;`. */
  function ToClassDescriptor(name: string): (d: string)
    ensures |d| == |name| + 2
    ensures d[0] == 'L' && d[|d| - 1] == ';'
    ensures '.' !in d[1..|d| - 1]
    ensures forall i :: 0 <= i < |name| && name[i] != '.' ==> d[i + 1] == name[i]
    ensures forall i :: 0 <= i < |name| && name[i] == '.' ==> d[i + 1] == '/'
  {
    "L" + Replace(name, '.', '/') + ";"
  }

  /** The inverse of `ToClassDescriptor` on names without `/`: drop the `L`
      and `;`, turn `/` into `.`. */
  function FromClassDescriptor(d: string): (name: string)
    requires |d| >= 2
    ensures |name| == |d| - 2
    ensures '/' !in name
  {
    Replace(d[1..|d| - 1], '/', '.')
  }

  /** A dotted name (which never contains `/`) survives the trip to a
      descriptor and back. */
  lemma DescriptorRoundTrip(name: string)
    requires '/' !in name
    ensures FromClassDescriptor(ToClassDescriptor(name)) == name
  {
  }
}
