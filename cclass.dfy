/**
 * `CClass`: a class being assembled. It gathers imports, fields,
 * constructors and methods in place, copies constructors into a subclass,
 * and renders itself as a Java compilation unit.
 */
module Classes {
  import opened JavaLang
  import opened CTypes
  import opened Access
  import opened Parameters
  import opened ImmutableLists
  import opened Members
  import opened Indentation
  import opened Sorting

  /** Whether `superConstructors` passes a constructor on to a class of the same or another package. */
  predicate Inheritable(c: CConstructor, samePackage: bool)
  {
    c.access.visibility != PRIVATE && (c.access.visibility != PACKAGE || samePackage)
  }

  /** The constructors `superConstructors` copies, in order. */
  function Inherited(cs: seq<CConstructor>, samePackage: bool): (r: seq<CConstructor>)
    ensures |r| <= |cs|
  {
    if cs == [] then []
    else
      var last := cs[|cs| - 1];
      Inherited(cs[..|cs| - 1], samePackage) + (if Inheritable(last, samePackage) then [last] else [])
  }

  /** The copied constructors grow by at most one per constructor visited. */
  lemma InheritedStep(cs: seq<CConstructor>, i: nat, samePackage: bool)
    requires i < |cs|
    ensures Inherited(cs[..i + 1], samePackage) ==
      Inherited(cs[..i], samePackage) + (if Inheritable(cs[i], samePackage) then [cs[i]] else [])
  {
    assert cs[..i + 1][..i] == cs[..i];
  }

  /**
   * Where each copied constructor sits in `cs`: the positions, ascending,
   * of exactly the constructors that are passed on.
   */
  function InheritedIndices(cs: seq<CConstructor>, samePackage: bool): (idx: seq<nat>)
    ensures |idx| == |Inherited(cs, samePackage)|
    ensures forall k | 0 <= k < |idx| :: idx[k] < |cs| && Inherited(cs, samePackage)[k] == cs[idx[k]]
    ensures forall k, l | 0 <= k < l < |idx| :: idx[k] < idx[l]
    ensures forall i | 0 <= i < |cs| :: i in idx <==> Inheritable(cs[i], samePackage)
  {
    if cs == [] then []
    else
      var n := |cs| - 1;
      var rest := InheritedIndices(cs[..n], samePackage);
      IndicesExtend(cs, samePackage, rest);
      rest + (if Inheritable(cs[n], samePackage) then [n] else [])
  }

  /** The positions of the copied constructors, extended by the last constructor. */
  lemma IndicesExtend(cs: seq<CConstructor>, samePackage: bool, rest: seq<nat>)
    requires cs != []
    requires var init := cs[..|cs| - 1];
      |rest| == |Inherited(init, samePackage)| &&
      (forall k | 0 <= k < |rest| :: rest[k] < |init| && Inherited(init, samePackage)[k] == init[rest[k]]) &&
      (forall k, l | 0 <= k < l < |rest| :: rest[k] < rest[l]) &&
      (forall i | 0 <= i < |init| :: i in rest <==> Inheritable(init[i], samePackage))
    ensures var n := |cs| - 1; var idx := rest + (if Inheritable(cs[n], samePackage) then [n] else []);
      |idx| == |Inherited(cs, samePackage)| &&
      (forall k | 0 <= k < |idx| :: idx[k] < |cs| && Inherited(cs, samePackage)[k] == cs[idx[k]]) &&
      (forall k, l | 0 <= k < l < |idx| :: idx[k] < idx[l]) &&
      (forall i | 0 <= i < |cs| :: i in idx <==> Inheritable(cs[i], samePackage))
  {
    var n := |cs| - 1;
    var init := cs[..n];
    var r := Inherited(init, samePackage);
    assert forall i | 0 <= i < n :: cs[i] == init[i];
    if Inheritable(cs[n], samePackage) {
      var idx := rest + [n];
      assert Inherited(cs, samePackage) == r + [cs[n]];
      forall k | 0 <= k < |idx| ensures idx[k] < |cs| && Inherited(cs, samePackage)[k] == cs[idx[k]] {
        if k < |rest| { assert idx[k] == rest[k]; }
      }
      forall i | 0 <= i < |cs| ensures i in idx <==> Inheritable(cs[i], samePackage) {
        if i < n { assert i in idx <==> i in rest; }
      }
    } else {
      assert Inherited(cs, samePackage) == r;
      assert forall k | 0 <= k < |rest| :: rest[k] < n;
      assert n !in rest;
    }
  }

  /**
   * `superConstructors` copies a constructor exactly when it is not
   * private and, across packages, not package-private.
   */
  lemma {:induction false} InheritedMembers(cs: seq<CConstructor>, samePackage: bool, c: CConstructor)
    ensures c in Inherited(cs, samePackage) <==> c in cs && Inheritable(c, samePackage)
  {
    var r := Inherited(cs, samePackage);
    var idx := InheritedIndices(cs, samePackage);
    if c in r {
      var k :| 0 <= k < |r| && r[k] == c;
      assert cs[idx[k]] == c;
      assert idx[k] in idx;
    }
    if c in cs && Inheritable(c, samePackage) {
      var i :| 0 <= i < |cs| && cs[i] == c;
      assert i in idx;
      var k :| 0 <= k < |idx| && idx[k] == i;
      assert r[k] == c;
    }
  }

  /** The code of a copied constructor: `super(` and the parameter names joined by `, `, then `);`. */
  function SuperCall(ps: seq<CParameter>): (r: string)
    ensures |r| >= 8 && r[..6] == "super(" && r[|r| - 2..] == ");"
    ensures r[6..|r| - 2] == Join(Names(ps), ", ")
    ensures ps == [] ==> r == "super();"
    ensures |ps| == 1 ==> r == "super(" + ps[0].name + ");"
  {
    "super(" + Join(Names(ps), ", ") + ");"
  }

  /**
   * `copy` is what `superConstructors` makes of `original`: the same
   * visibility without `static` or `final`, the same parameters in order,
   * and a body that passes them on to `super`.
   */
  predicate CopiesAsSuper(original: CConstructor, copy: CConstructor)
  {
    copy.access == AccessSpecifier(original.access.visibility, false, false) &&
    copy.paramList.parameters == original.paramList.parameters &&
    copy.code == SuperCall(original.paramList.parameters)
  }

  /**
   * The constructor `superConstructors` builds from `original`: same
   * visibility, a new list of the same parameters, and the `super` call.
   */
  method SuperCopy(original: CConstructor) returns (copy: CConstructor)
    ensures CopiesAsSuper(original, copy) && fresh(copy.paramList)
  {
    var params := original.paramList.GetParameters();
    var list := new CImmutableList<CParameter>(params);
    var code := "super(" + Join(Names(params), ", ") + ");";
    copy := CConstructor(AccessSpecifier(original.access.visibility, false, false), list, code);
  }

  /** Every type a member mentions is among `imports`. */
  ghost predicate AllImported(fs: seq<CField>, cs: seq<CConstructor>, ms: seq<CMethod>, imports: set<CType>)
  {
    (forall i | 0 <= i < |fs| :: fs[i].fieldType in imports) &&
    (forall i | 0 <= i < |cs| :: ConstructorTypes(cs[i]) <= imports) &&
    (forall i | 0 <= i < |ms| :: MethodTypes(ms[i]) <= imports)
  }

  lemma ImportedGrows(fs: seq<CField>, cs: seq<CConstructor>, ms: seq<CMethod>, a: set<CType>, b: set<CType>)
    requires AllImported(fs, cs, ms, a) && a <= b
    ensures AllImported(fs, cs, ms, b)
  {
  }

  lemma MethodImported(fs: seq<CField>, cs: seq<CConstructor>, ms: seq<CMethod>, m: CMethod, imports: set<CType>)
    requires AllImported(fs, cs, ms, imports) && MethodTypes(m) <= imports
    ensures AllImported(fs, cs, ms + [m], imports)
  {
  }

  /** `copies` holds, one for one and in order, what `superConstructors` makes of `originals`. */
  predicate CopiesAll(originals: seq<CConstructor>, copies: seq<CConstructor>)
  {
    |originals| == |copies| && forall k | 0 <= k < |copies| :: CopiesAsSuper(originals[k], copies[k])
  }

  lemma CopiesAllAppend(originals: seq<CConstructor>, copies: seq<CConstructor>, original: CConstructor, copy: CConstructor)
    requires CopiesAll(originals, copies) && CopiesAsSuper(original, copy)
    ensures CopiesAll(originals + [original], copies + [copy])
  {
  }

  /**
   * `now` is `start` followed by one copy, in order, of each of `originals`:
   * what a list of constructors looks like after the copies were appended.
   */
  predicate CopiedOnto(start: seq<CConstructor>, now: seq<CConstructor>, originals: seq<CConstructor>)
  {
    |start| <= |now| && now[..|start|] == start && CopiesAll(originals, now[|start|..])
  }

  lemma CopiedOntoAppend(start: seq<CConstructor>, now: seq<CConstructor>, originals: seq<CConstructor>,
                         original: CConstructor, copy: CConstructor)
    requires CopiedOnto(start, now, originals) && CopiesAsSuper(original, copy)
    ensures CopiedOnto(start, now + [copy], originals + [original])
  {
    assert (now + [copy])[|start|..] == now[|start|..] + [copy];
    CopiesAllAppend(originals, now[|start|..], original, copy);
  }

  /** The parameter lists of the constructors from position `n` on were all allocated by the current method. */
  twostate predicate FreshFrom(new cs: seq<CConstructor>, n: nat)
  {
    forall k | n <= k < |cs| :: fresh(cs[k].paramList)
  }

  twostate lemma FreshFromAppend(new cs: seq<CConstructor>, n: nat, new c: CConstructor)
    requires FreshFrom(cs, n) && fresh(c.paramList)
    ensures FreshFrom(cs + [c], n)
  {
  }

  /** Every non-primitive import has a simple name, as the import filter needs. */
  predicate ImportsNamed(imports: set<CType>)
  {
    forall t | t in imports && !t.primitive :: HasSimpleName(t)
  }

  /**
   * The import filter: a reference type whose full name is not the
   * package's own name for it (`pkg.` followed by its simple name).
   */
  predicate Shown(t: CType, pkg: string)
    requires !t.primitive ==> HasSimpleName(t)
  {
    !t.primitive && FullName(t) != pkg + "." + SimpleName(t)
  }

  /** The imports that pass the filter. */
  function ShownImports(imports: set<CType>, pkg: string): (r: set<CType>)
    requires ImportsNamed(imports)
    ensures forall t | t in r :: t in imports && !t.primitive && HasSimpleName(t) && Shown(t, pkg)
    ensures forall t | t in imports && !t.primitive && Shown(t, pkg) :: t in r
  {
    set t | t in imports && !t.primitive && Shown(t, pkg)
  }

  /** The filter applied to a stream of imports, keeping their order. */
  function FilterShown(s: seq<CType>, pkg: string): seq<CType>
    requires forall i | 0 <= i < |s| :: !s[i].primitive ==> HasSimpleName(s[i])
  {
    if s == [] then []
    else
      var last := s[|s| - 1];
      FilterShown(s[..|s| - 1], pkg) + (if Shown(last, pkg) then [last] else [])
  }

  /** Filtering an iteration order of a set gives an iteration order of the filtered set. */
  lemma {:induction false} FilterEnumerates(s: seq<CType>, imports: set<CType>, pkg: string)
    requires ImportsNamed(imports) && Enumerates(s, imports)
    ensures Enumerates(FilterShown(s, pkg), ShownImports(imports, pkg))
  {
    FilterShownSubsequence(s, pkg);
    var f := FilterShown(s, pkg);
    var S := ShownImports(imports, pkg);
    forall x | x in S ensures x in f {
      var i :| 0 <= i < |s| && s[i] == x;
      FilterShownKeeps(s, pkg, i);
    }
  }

  /**
   * The filtered stream holds exactly the shown elements of the stream, and
   * its elements sit in the stream in the same order, so it has no duplicate
   * the stream does not have.
   */
  lemma {:induction false} FilterShownSubsequence(s: seq<CType>, pkg: string)
    requires forall i | 0 <= i < |s| :: !s[i].primitive ==> HasSimpleName(s[i])
    ensures forall k | 0 <= k < |FilterShown(s, pkg)| :: FilterShown(s, pkg)[k] in s && Shown(FilterShown(s, pkg)[k], pkg)
    ensures Distinct(s) ==> Distinct(FilterShown(s, pkg))
  {
    if s != [] {
      var init := s[..|s| - 1];
      var last := s[|s| - 1];
      FilterShownSubsequence(init, pkg);
      var f := FilterShown(s, pkg);
      var fi := FilterShown(init, pkg);
      assert forall k | 0 <= k < |fi| :: fi[k] in s by {
        forall k | 0 <= k < |fi| ensures fi[k] in s {
          var j :| 0 <= j < |init| && init[j] == fi[k];
          assert s[j] == fi[k];
        }
      }
      if Distinct(s) {
        assert Distinct(init);
        assert last !in init;
        assert forall k | 0 <= k < |fi| :: fi[k] in init;
      }
    }
  }

  /** An element of the stream that passes the filter is in the filtered stream. */
  lemma {:induction false} FilterShownKeeps(s: seq<CType>, pkg: string, i: nat)
    requires forall j | 0 <= j < |s| :: !s[j].primitive ==> HasSimpleName(s[j])
    requires i < |s| && Shown(s[i], pkg)
    ensures s[i] in FilterShown(s, pkg)
  {
    if i < |s| - 1 {
      FilterShownKeeps(s[..|s| - 1], pkg, i);
    }
  }

  /** Each iteration order of a set lists as many elements as the set has. */
  lemma {:induction false} EnumerationLength<T>(s: seq<T>, S: set<T>)
    requires Enumerates(s, S)
    ensures |s| == |S|
  {
    if s != [] {
      var init := s[..|s| - 1];
      var last := s[|s| - 1];
      assert last !in init;
      assert Enumerates(init, S - {last}) by {
        forall x | x in S - {last} ensures x in init {
          var j :| 0 <= j < |s| && s[j] == x;
        }
      }
      EnumerationLength(init, S - {last});
    }
  }

  /**
   * The import lines `toString` emits, in emission order: one `asImport`
   * line per shown import, sorted. A `HashSet` is visited in some unspecified
   * order; `Enumerate` fixes one, and `ImportLinesAnyOrder` shows that the
   * choice does not matter.
   */
  ghost function ImportLines(imports: set<CType>, pkg: string): (r: seq<string>)
    requires ImportsNamed(imports)
    ensures Sorted(r) && |r| == |ShownImports(imports, pkg)|
  {
    var e := Enumerate(ShownImports(imports, pkg));
    var m := Map(AsImport, e);
    SortCorrect(m);
    EnumerationLength(e, ShownImports(imports, pkg));
    assert |Sort(m)| == |multiset(Sort(m))| == |multiset(m)| == |m|;
    Sort(m)
  }

  /** Whatever order the set is visited in, filter, map and sort give the same lines. */
  lemma ImportLinesAnyOrder(s: seq<CType>, imports: set<CType>, pkg: string)
    requires ImportsNamed(imports) && Enumerates(s, imports)
    ensures Sort(Map(AsImport, FilterShown(s, pkg))) == ImportLines(imports, pkg)
  {
    var S := ShownImports(imports, pkg);
    FilterEnumerates(s, imports, pkg);
    EnumerationsPermute(FilterShown(s, pkg), Enumerate(S), S);
    MapPermutes(AsImport, FilterShown(s, pkg), Enumerate(S));
    SortIgnoresOrder(Map(AsImport, FilterShown(s, pkg)), Map(AsImport, Enumerate(S)));
  }

  /**
   * The import lines are ascending, there is one per shown import (two
   * imports with the same name share a line text, so lines may repeat), and
   * a line is there exactly when some shown import asks for it.
   */
  lemma ImportLinesCorrect(imports: set<CType>, pkg: string)
    requires ImportsNamed(imports)
    ensures var lines := ImportLines(imports, pkg);
      Sorted(lines) && |lines| == |ShownImports(imports, pkg)| &&
      forall l :: l in lines <==> exists t | t in imports && !t.primitive && Shown(t, pkg) :: AsImport(t) == l
  {
    var S := ShownImports(imports, pkg);
    var e := Enumerate(S);
    var m := Map(AsImport, e);
    SortCorrect(m);
    EnumerationLength(e, S);
    forall l ensures l in Sort(m) <==> exists t | t in imports && !t.primitive && Shown(t, pkg) :: AsImport(t) == l {
      assert l in Sort(m) <==> l in multiset(Sort(m));
      assert l in m <==> l in multiset(m);
      ShownLine(imports, pkg, l);
    }
  }

  /** A line is among the unsorted lines exactly when a shown import asks for it. */
  lemma {:induction false} ShownLine(imports: set<CType>, pkg: string, l: string)
    requires ImportsNamed(imports)
    ensures l in Map(AsImport, Enumerate(ShownImports(imports, pkg))) <==>
      exists t | t in imports && !t.primitive && Shown(t, pkg) :: AsImport(t) == l
  {
    if l in Map(AsImport, Enumerate(ShownImports(imports, pkg))) {
      LineHasImport(imports, pkg, l);
    }
    if exists t | t in imports && !t.primitive && Shown(t, pkg) :: AsImport(t) == l {
      var t :| t in imports && !t.primitive && Shown(t, pkg) && AsImport(t) == l;
      ImportHasLine(imports, pkg, t);
    }
  }

  lemma {:induction false} LineHasImport(imports: set<CType>, pkg: string, l: string)
    requires ImportsNamed(imports)
    requires l in Map(AsImport, Enumerate(ShownImports(imports, pkg)))
    ensures exists t | t in imports && !t.primitive && Shown(t, pkg) :: AsImport(t) == l
  {
    var e := Enumerate(ShownImports(imports, pkg));
    var m := Map(AsImport, e);
    var i :| 0 <= i < |m| && m[i] == l;
    assert e[i] in ShownImports(imports, pkg);
  }

  lemma {:induction false} ImportHasLine(imports: set<CType>, pkg: string, t: CType)
    requires ImportsNamed(imports) && t in imports && !t.primitive && Shown(t, pkg)
    ensures AsImport(t) in Map(AsImport, Enumerate(ShownImports(imports, pkg)))
  {
    var e := Enumerate(ShownImports(imports, pkg));
    assert t in e;
    var i :| 0 <= i < |e| && e[i] == t;
    assert Map(AsImport, e)[i] == AsImport(t);
  }

  /**
   * No type of the package's own, `pkg.Last` at any depth with `Last`
   * non-empty and undotted, passes the import filter.
   */
  lemma {:induction false} SamePackageNotShown(pkg: string, last: string, depth: Dimensions)
    requires last != "" && Free(last, {'.'})
    ensures var t := CType(pkg + "." + last, false, depth); HasSimpleName(t) && !Shown(t, pkg)
  {
    var t := CType(pkg + "." + last, false, depth);
    SimpleNameQualified(t, pkg, last);
    QualifiedBrackets(pkg, last, Brackets(depth));
  }

  lemma QualifiedBrackets(pkg: string, last: string, b: string)
    ensures pkg + "." + (last + b) == pkg + "." + last + b
  {
  }

  /** The superclass is worth mentioning: present and not `java.lang.Object`. */
  predicate ProperSuperclass(superclass: Option<CType>)
  {
    superclass.Some? && !Equals(superclass.value, OBJECT)
  }

  /** The line importing the superclass, unless it is in the class's own package. */
  function SuperImport(superclass: Option<CType>, pkg: string): (r: string)
    requires ProperSuperclass(superclass) ==> HasSimpleName(superclass.value)
    ensures r != "" ==> ProperSuperclass(superclass) && r == "import " + FullName(superclass.value) + ";\n"
    ensures r == "" <==> (!ProperSuperclass(superclass) ||
                          FullName(superclass.value) == pkg + "." + SimpleName(superclass.value))
  {
    if ProperSuperclass(superclass) then
      var sc := superclass.value;
      if FullName(sc) == pkg + "." + SimpleName(sc) then "" else "import " + FullName(sc) + ";\n"
    else ""
  }

  /** The ` extends` clause, naming the superclass by its simple name. */
  function Extends(superclass: Option<CType>): (r: string)
    requires ProperSuperclass(superclass) ==> HasSimpleName(superclass.value)
    ensures r == "" <==> !ProperSuperclass(superclass)
    ensures ProperSuperclass(superclass) ==> |r| >= 9 && r[..9] == " extends " && r[9..] == SimpleName(superclass.value)
  {
    if ProperSuperclass(superclass) then " extends " + SimpleName(superclass.value) else ""
  }

  /**
   * Without a proper superclass there is neither an `extends` clause nor an
   * import for it; with one there is `extends` and its simple name, and an
   * import line only when the superclass lies outside the package: a plain
   * type named `pkg.Last` is never imported, and an import line, when
   * there is one, names the superclass in full.
   */
  lemma SuperclassRules(superclass: Option<CType>, pkg: string)
    requires ProperSuperclass(superclass) ==> HasSimpleName(superclass.value)
    ensures !ProperSuperclass(superclass) ==> Extends(superclass) == "" && SuperImport(superclass, pkg) == ""
    ensures ProperSuperclass(superclass) ==> Extends(superclass) == " extends " + SimpleName(superclass.value)
    ensures SuperImport(superclass, pkg) != "" ==>
      ProperSuperclass(superclass) && SuperImport(superclass, pkg) == "import " + FullName(superclass.value) + ";\n"
    ensures forall last: string | ProperSuperclass(superclass) && last != "" && Free(last, {'.'}) &&
                                  superclass.value == CType(pkg + "." + last, false, 0) ::
      SuperImport(superclass, pkg) == ""
  {
    forall last: string | ProperSuperclass(superclass) && last != "" && Free(last, {'.'}) &&
                          superclass.value == CType(pkg + "." + last, false, 0)
      ensures SuperImport(superclass, pkg) == ""
    {
      SimpleNameQualified(superclass.value, pkg, last);
    }
  }

  /** `"\n"` when the condition holds, else nothing. */
  function Separator(b: bool): string
  {
    if b then "\n" else ""
  }

  /** The field declarations joined by newlines: empty exactly when there are none. */
  function FieldGroup(fs: seq<CField>): (r: string)
    requires forall i | 0 <= i < |fs| :: HasSimpleName(fs[i].fieldType)
    ensures r == "" <==> fs == []
  {
    var parts := seq(|fs|, i requires 0 <= i < |fs| && HasSimpleName(fs[i].fieldType) => FieldString(fs[i]));
    JoinEmptyIff(parts, "\n");
    Join(parts, "\n")
  }

  /** The constructors joined by newlines: empty exactly when there are none. */
  function ConstructorGroup(cs: seq<CConstructor>, className: string): (r: string)
    requires forall i | 0 <= i < |cs| :: Printable(cs[i].paramList.parameters)
    ensures r == "" <==> cs == []
  {
    var parts := seq(|cs|, i requires 0 <= i < |cs| && Printable(cs[i].paramList.parameters) =>
                             ConstructorString(cs[i], className));
    JoinEmptyIff(parts, "\n");
    Join(parts, "\n")
  }

  /** The methods joined by newlines: empty exactly when there are none. */
  function MethodGroup(ms: seq<CMethod>): (r: string)
    requires forall i | 0 <= i < |ms| :: MethodPrintable(ms[i])
    ensures r == "" <==> ms == []
  {
    var parts := seq(|ms|, i requires 0 <= i < |ms| && MethodPrintable(ms[i]) => MethodString(ms[i]));
    JoinEmptyIff(parts, "\n");
    Join(parts, "\n")
  }

  /** Where the first two and the last of four joined texts sit. */
  lemma Enclosed(a: string, b: string, c: string, d: string)
    ensures var r := a + (b + c) + d; |r| >= |a + b| + |d| && r[..|a + b|] == a + b && r[|r| - |d|..] == d
  {
    var r := a + (b + c) + d;
    assert r == (a + b) + c + d;
  }

  class CClass {
    const pkg: string
    const access: AccessSpecifier
    const name: string
    const superclass: Option<CType>
    var imports: set<CType>
    var fields: seq<CField>
    var constructors: seq<CConstructor>
    var methods: seq<CMethod>

    /** Every type a member mentions has been imported. */
    ghost predicate Valid()
      reads this
    {
      AllImported(fields, constructors, methods, imports)
    }

    /** The builder: the given package, modifiers, name and superclass (`null` is `None`), nothing else yet. */
    constructor (pkg: string, access: AccessSpecifier, name: string, superclass: Option<CType>)
      ensures this.pkg == pkg && this.access == access && this.name == name && this.superclass == superclass
      ensures imports == {} && fields == [] && constructors == [] && methods == []
      ensures Valid()
    {
      this.pkg := pkg;
      this.access := access;
      this.name := name;
      this.superclass := superclass;
      imports := {};
      fields := [];
      constructors := [];
      methods := [];
    }

    /** The builder with only package and name set: private, extending `java.lang.Object`. */
    constructor WithDefaults(pkg: string, name: string)
      ensures this.pkg == pkg && this.access == Default && this.name == name && this.superclass == Some(OBJECT)
      ensures imports == {} && fields == [] && constructors == [] && methods == []
      ensures Valid()
    {
      this.pkg := pkg;
      this.access := Default;
      this.name := name;
      this.superclass := Some(OBJECT);
      imports := {};
      fields := [];
      constructors := [];
      methods := [];
    }

    /** `getCType`: the class's own type, a reference type named `pkg.name`, not an array. */
    function GetCType(): (r: CType)
      ensures FullName(r) == pkg + "." + name && !r.primitive && !IsArray(r)
    {
      New(pkg + "." + name, 0).value
    }

    /** `importImplicitly`: one more import; nothing else changes. */
    method ImportImplicitly(t: CType)
      requires Valid()
      modifies this
      ensures imports == old(imports) + {t}
      ensures fields == old(fields) && constructors == old(constructors) && methods == old(methods)
      ensures Valid()
    {
      imports := imports + {t};
    }

    /** `addField`: imports the field's type and appends the field. */
    method AddField(field: CField)
      requires Valid()
      modifies this
      ensures imports == old(imports) + {field.fieldType}
      ensures fields == old(fields) + [field]
      ensures constructors == old(constructors) && methods == old(methods)
      ensures Valid()
    {
      imports := imports + {field.fieldType};
      fields := fields + [field];
    }

    /** `addConstructor`: imports the constructor's types and appends it. */
    method AddConstructor(ctor: CConstructor)
      modifies this
      ensures imports == old(imports) + ConstructorTypes(ctor)
      ensures constructors == old(constructors) + [ctor]
      ensures fields == old(fields) && methods == old(methods)
      ensures old(Valid()) ==> Valid()
    {
      imports := imports + ConstructorTypes(ctor);
      constructors := constructors + [ctor];
    }

    /** `addConstructor` applied to what `superConstructors` makes of `original`. */
    method AddSuperCopy(original: CConstructor) returns (copy: CConstructor)
      modifies this
      ensures CopiesAsSuper(original, copy) && fresh(copy.paramList)
      ensures constructors == old(constructors) + [copy]
      ensures imports == old(imports) && fields == old(fields) && methods == old(methods)
      ensures old(Valid()) ==> Valid()
    {
      copy := SuperCopy(original);
      AddConstructor(copy);
    }

    /** `addMethod`: imports the method's types and appends it. */
    method AddMethod(m: CMethod)
      requires Valid()
      modifies this
      ensures imports == old(imports) + MethodTypes(m)
      ensures methods == old(methods) + [m]
      ensures fields == old(fields) && constructors == old(constructors)
      ensures Valid()
    {
      ImportedGrows(fields, constructors, methods, imports, imports + MethodTypes(m));
      MethodImported(fields, constructors, methods, m, imports + MethodTypes(m));
      imports := imports + MethodTypes(m);
      methods := methods + [m];
    }

    /**
     * `superConstructors(other)`: for each constructor of this class, in
     * order, that `other` may call, a copy passing its parameters to
     * `super` is appended to `other`. The copies carry no types, so
     * `other`'s imports stay as they were; this class does not change.
     */
    method SuperConstructors(other: CClass)
      requires other != this && other.Valid()
      modifies other
      ensures CopiedOnto(old(other.constructors), other.constructors, Inherited(constructors, other.pkg == pkg))
      ensures FreshFrom(other.constructors, |old(other.constructors)|)
      ensures other.imports == old(other.imports)
      ensures other.fields == old(other.fields) && other.methods == old(other.methods)
      ensures other.Valid()
    {
      var samePackage := other.pkg == pkg;
      ghost var copied: seq<CConstructor> := [];
      for i := 0 to |constructors|
        invariant copied == Inherited(constructors[..i], samePackage)
        invariant CopiedOnto(old(other.constructors), other.constructors, copied)
        invariant FreshFrom(other.constructors, |old(other.constructors)|)
        invariant other.imports == old(other.imports)
        invariant other.fields == old(other.fields) && other.methods == old(other.methods)
      {
        var c := constructors[i];
        InheritedStep(constructors, i, samePackage);
        if c.access.visibility == PRIVATE {
          continue;
        }
        if c.access.visibility == PACKAGE && !samePackage {
          continue;
        }
        ghost var before := other.constructors;
        var copy := other.AddSuperCopy(c);
        CopiedOntoAppend(old(other.constructors), before, copied, c, copy);
        FreshFromAppend(before, |old(other.constructors)|, copy);
        copied := copied + [c];
      }
      assert constructors[..|constructors|] == constructors;
      assert other.Valid();
    }

    /** Everything `toString` needs a simple name for has one. */
    ghost predicate Renderable()
      reads this
    {
      ImportsNamed(imports) &&
      (forall i | 0 <= i < |fields| :: HasSimpleName(fields[i].fieldType)) &&
      (forall i | 0 <= i < |constructors| :: Printable(constructors[i].paramList.parameters)) &&
      (forall i | 0 <= i < |methods| :: MethodPrintable(methods[i])) &&
      (ProperSuperclass(superclass) ==> HasSimpleName(superclass.value))
    }

    /** The package declaration and the blank line after it. */
    function PackageLine(): string
    {
      "package " + pkg + ";\n\n"
    }

    /** The imports, the superclass import and the class declaration line. */
    ghost function Preamble(): string
      reads this
      requires Renderable()
    {
      Concat(ImportLines(imports, pkg)) + ClassDeclaration()
    }

    /** The superclass import, the class declaration line and its opening brace. */
    function ClassDeclaration(): string
      requires ProperSuperclass(superclass) ==> HasSimpleName(superclass.value)
    {
      "\n" + SuperImport(superclass, pkg) + "\n" + ToString(access) + "class " + name + Extends(superclass) + " {\n"
    }

    /** Everything up to and including the opening brace of the class body. */
    ghost function Head(): string
      reads this
      requires Renderable()
    {
      PackageLine() + Preamble()
    }

    /**
     * The class body between the braces: each member group indented by
     * four, with a newline after a group when a later group has text. The
     * separators test the joined texts for emptiness.
     */
    ghost function MemberText(): string
      reads this
      requires Renderable()
    {
      var fieldString := FieldGroup(fields);
      var constructorString := ConstructorGroup(constructors, name);
      var methodString := MethodGroup(methods);
      Indented(fieldString, 4) + Separator(|fieldString| != 0 && (|constructorString| != 0 || |methodString| != 0)) +
      Indented(constructorString, 4) + Separator(|constructorString| != 0 && |methodString| != 0) +
      Indented(methodString, 4) + Separator(|methodString| != 0)
    }

    /** `toString`: the head, the member groups, the closing brace. */
    ghost function ClassString(): (r: string)
      reads this
      requires Renderable()
      ensures var p := PackageLine() + Concat(ImportLines(imports, pkg)); var m := MemberText() + "}";
        |r| >= |p| + |m| && r[..|p|] == p && r[|r| - |m|..] == m
    {
      Enclosed(PackageLine(), Concat(ImportLines(imports, pkg)), ClassDeclaration(), MemberText() + "}");
      Head() + (MemberText() + "}")
    }

    /**
     * The separators in terms of the members: after the fields when there
     * are fields and constructors or methods, after the constructors when
     * there are both constructors and methods, after the methods when there
     * are methods.
     */
    lemma SeparatorRules()
      requires Renderable()
      ensures MemberText() ==
        Indented(FieldGroup(fields), 4) + Separator(fields != [] && (constructors != [] || methods != [])) +
        Indented(ConstructorGroup(constructors, name), 4) + Separator(constructors != [] && methods != []) +
        Indented(MethodGroup(methods), 4) + Separator(methods != [])
    {
    }

    /** An empty class still has one blank indented line per (empty) group. */
    lemma EmptyClassRendering()
      requires Renderable() && fields == [] && constructors == [] && methods == []
      ensures MemberText() == "    \n    \n    \n"
      ensures ClassString() == Head() + "    \n    \n    \n}"
    {
      EmptyMemberText();
      assert MemberText() + "}" == "    \n    \n    \n}";
    }

    lemma EmptyMemberText()
      requires Renderable() && fields == [] && constructors == [] && methods == []
      ensures MemberText() == "    \n    \n    \n"
    {
      IndentedEmpty();
      var blank := Indented("", 4);
      assert FieldGroup(fields) == "" && ConstructorGroup(constructors, name) == "" && MethodGroup(methods) == "";
      assert MemberText() == blank + "" + blank + "" + blank + "";
    }

    /**
     * The class's own type is never imported by its own source: a name
     * without dots, qualified by the package, is filtered out.
     */
    lemma OwnTypeNotImported()
      requires Renderable() && name != "" && Free(name, {'.'})
      ensures HasSimpleName(GetCType()) && !Shown(GetCType(), pkg)
      ensures GetCType() !in ShownImports(imports, pkg)
    {
      SamePackageNotShown(pkg, name, 0);
    }
  }
}
