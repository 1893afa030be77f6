/**
 * `CType`: a reference to a type by its dotted name, whether it is
 * primitive, and how many array dimensions (0 to 255) it has; the names
 * derived from it; and `CType.of`, which turns a class descriptor into a
 * `CType` and remembers the answer.
 */
module CTypes {
  import opened JavaLang

  const MaxArrayDimensions := 255

  /** The array depths the constructor admits. */
  type Dimensions = d: int | 0 <= d <= MaxArrayDimensions

  /**
   * A type reference. Java compares two of them by these three fields, which
   * is exactly equality of datatype values.
   */
  datatype CType = CType(name: string, primitive: bool, arrayDimensions: Dimensions)

  const BadDimensions := IllegalArgumentException("Array dimensions must be between 0 and 255 (inclusive)")

  /** The private constructor: rejects a depth outside 0..255. */
  function Create(name: string, primitive: bool, arrayDimensions: int): (r: Result<CType>)
    ensures r.Ok? <==> 0 <= arrayDimensions <= MaxArrayDimensions
    ensures r.Ok? ==> (r.value.name == name && r.value.primitive == primitive &&
                       r.value.arrayDimensions == arrayDimensions)
    ensures r.Err? ==> r.error == BadDimensions
  {
    if arrayDimensions < 0 || arrayDimensions > MaxArrayDimensions then Err(BadDimensions)
    else Ok(CType(name, primitive, arrayDimensions))
  }

  /** The public constructor `CType(name, arrayDimensions)`: never primitive. */
  function New(name: string, arrayDimensions: int): (r: Result<CType>)
    ensures r.Ok? <==> 0 <= arrayDimensions <= MaxArrayDimensions
    ensures r.Ok? ==> r.value == CType(name, false, arrayDimensions)
  {
    Create(name, false, arrayDimensions)
  }

  /** `CType(name)`: a plain, non-array reference type. */
  function Named(name: string): (r: CType)
    ensures New(name, 0) == Ok(r) && FullName(r) == name && !IsArray(r)
  {
    CType(name, false, 0)
  }

  /** `"[]"` once per dimension. */
  function Brackets(n: nat): string
  {
    if n == 0 then "" else Brackets(n - 1) + "[]"
  }

  /** `Brackets(n)` is exactly n copies of `[]`. */
  lemma {:induction false} BracketsShape(n: nat)
    ensures |Brackets(n)| == 2 * n
    ensures forall k | 0 <= k < n :: Brackets(n)[2 * k] == '[' && Brackets(n)[2 * k + 1] == ']'
  {
    if n > 0 {
      BracketsShape(n - 1);
      var b := Brackets(n - 1);
      assert Brackets(n) == b + "[]";
      forall k | 0 <= k < n
        ensures Brackets(n)[2 * k] == '[' && Brackets(n)[2 * k + 1] == ']'
      {
        if k < n - 1 {
          assert Brackets(n)[2 * k] == b[2 * k];
          assert Brackets(n)[2 * k + 1] == b[2 * k + 1];
        }
      }
    }
  }

  /** `getNameAsImport`: the dotted name without array brackets. */
  function NameAsImport(t: CType): string
  {
    t.name
  }

  /** `getName`: the dotted name followed by one `[]` per dimension. */
  function FullName(t: CType): string
  {
    NameAsImport(t) + Brackets(t.arrayDimensions)
  }

  /**
   * The full name is the bare name followed by exactly `arrayDimensions`
   * copies of `[]`.
   */
  lemma FullNameShape(t: CType)
    ensures |FullName(t)| == |t.name| + 2 * t.arrayDimensions
    ensures FullName(t)[..|t.name|] == t.name
    ensures forall k | 0 <= k < t.arrayDimensions ::
      FullName(t)[|t.name| + 2 * k] == '[' && FullName(t)[|t.name| + 2 * k + 1] == ']'
  {
    BracketsShape(t.arrayDimensions);
    var b := Brackets(t.arrayDimensions);
    assert FullName(t) == t.name + b;
    forall k | 0 <= k < t.arrayDimensions
      ensures FullName(t)[|t.name| + 2 * k] == '[' && FullName(t)[|t.name| + 2 * k + 1] == ']'
    {
      assert FullName(t)[|t.name| + 2 * k] == b[2 * k];
      assert FullName(t)[|t.name| + 2 * k + 1] == b[2 * k + 1];
    }
  }

  /** `isArray`: exactly when the full name carries brackets the import name lacks. */
  function IsArray(t: CType): (r: bool)
    ensures r <==> FullName(t) != NameAsImport(t)
  {
    BracketsShape(t.arrayDimensions);
    t.arrayDimensions > 0
  }

  /**
   * `name.split("\\.")` has a last element: false only for a non-empty name
   * made of dots alone, where `getSimpleName` throws.
   */
  predicate SimpleNameDefined(name: string)
  {
    name == [] || exists i | 0 <= i < |name| :: name[i] != '.'
  }

  /** The last dot-separated segment that `split` keeps. */
  function LastSegment(name: string): string
    requires SimpleNameDefined(name)
  {
    SplitEmptyIff(name, {'.'});
    var parts := Split(name, {'.'});
    parts[|parts| - 1]
  }

  /** The types whose simple name exists (see `SimpleNameDefined`). */
  predicate HasSimpleName(t: CType)
  {
    SimpleNameDefined(t.name)
  }

  /** `getSimpleName`: the last segment followed by one `[]` per dimension. */
  function SimpleName(t: CType): string
    requires SimpleNameDefined(t.name)
  {
    LastSegment(t.name) + Brackets(t.arrayDimensions)
  }

  /** A name without dots is its own simple name. */
  lemma SimpleNameUndotted(t: CType)
    requires Free(t.name, {'.'})
    ensures SimpleNameDefined(t.name) && SimpleName(t) == t.name + Brackets(t.arrayDimensions)
  {
    if t.name != [] { assert t.name[0] != '.'; }
  }

  /** A qualified name's simple name is its part after the last dot. */
  lemma SimpleNameQualified(t: CType, qualifier: string, last: string)
    requires t.name == qualifier + "." + last && last != "" && Free(last, {'.'})
    ensures SimpleNameDefined(t.name) && SimpleName(t) == last + Brackets(t.arrayDimensions)
  {
    assert t.name[|t.name| - 1] == last[|last| - 1] != '.';
    SplitLast(qualifier, '.', last, {'.'});
  }

  /** `arrayOf`: one more dimension, through the public (non-primitive) constructor. */
  function ArrayOf(t: CType): (r: Result<CType>)
    ensures r.Ok? <==> t.arrayDimensions < MaxArrayDimensions
    ensures r.Ok? ==> (r.value.name == t.name && !r.value.primitive &&
                       r.value.arrayDimensions == t.arrayDimensions + 1)
    ensures r.Err? ==> r.error == BadDimensions
  {
    New(t.name, t.arrayDimensions + 1)
  }

  /** `arrayBaseType`: the type itself at depth 0, else a fresh non-primitive depth-0 type. */
  function ArrayBaseType(t: CType): (r: CType)
    ensures r.name == t.name && r.arrayDimensions == 0
    ensures t.arrayDimensions == 0 ==> r == t
    ensures t.arrayDimensions > 0 ==> !r.primitive
  {
    if t.arrayDimensions == 0 then t else Named(t.name)
  }

  lemma ArrayBaseTypeIdempotent(t: CType)
    ensures ArrayBaseType(ArrayBaseType(t)) == ArrayBaseType(t)
  {
  }

  /** `arrayOf` applied `n` times, stopping at the first failure. */
  function ArrayOfTimes(t: CType, n: nat): Result<CType>
  {
    if n == 0 then Ok(t)
    else match ArrayOfTimes(t, n - 1)
      case Ok(u) => ArrayOf(u)
      case Err(e) => Err(e)
  }

  lemma {:induction false} ArrayOfTimesShape(t: CType, n: nat)
    requires t.arrayDimensions + n <= MaxArrayDimensions && n > 0
    ensures ArrayOfTimes(t, n) == Ok(CType(t.name, false, t.arrayDimensions + n))
  {
    if n > 1 { ArrayOfTimesShape(t, n - 1); }
  }

  /**
   * Base type and `arrayDimensions` applications of `arrayOf` give the type
   * back, for every reference type and for every type that is not an array.
   */
  lemma ArrayRoundTrip(t: CType)
    requires !t.primitive || t.arrayDimensions == 0
    ensures ArrayOfTimes(ArrayBaseType(t), t.arrayDimensions) == Ok(t)
  {
    if t.arrayDimensions > 0 {
      ArrayOfTimesShape(ArrayBaseType(t), t.arrayDimensions);
    }
  }

  /** `asImport`: nothing for a primitive, else one import line without brackets. */
  function AsImport(t: CType): (r: string)
    ensures r == "" <==> t.primitive
    ensures !t.primitive ==>
      |r| == |t.name| + 9 && r[..7] == "import " && r[7..|r| - 2] == t.name && r[|r| - 2..] == ";\n"
  {
    if t.primitive then "" else "import " + t.name + ";\n"
  }

  /**
   * The import line depends on the name alone, never on the dimensions, and
   * two reference types share one exactly when they share a name.
   */
  lemma AsImportByName(t: CType, u: CType)
    requires !t.primitive && !u.primitive
    ensures AsImport(t) == AsImport(u) <==> t.name == u.name
  {
    if AsImport(t) == AsImport(u) {
      var a, b := AsImport(t), AsImport(u);
      assert |t.name| == |u.name|;
      forall i | 0 <= i < |t.name| ensures t.name[i] == u.name[i] {
        assert a[7 + i] == b[7 + i];
      }
    }
  }

  /** `hashCode`: `Objects.hash(name, primitive, arrayDimensions)`. */
  function Hash(t: CType): (r: int)
    ensures -0x8000_0000 <= r < 0x8000_0000
  {
    ObjectsHash([StringHash(t.name), BooleanHash(t.primitive), t.arrayDimensions])
  }

  /** `equals`: same name, same primitive flag, same depth; equal types hash alike. */
  function Equals(a: CType, b: CType): (r: bool)
    ensures r <==> a == b
    ensures r ==> Hash(a) == Hash(b)
  {
    a.name == b.name && a.primitive == b.primitive && a.arrayDimensions == b.arrayDimensions
  }

  /**
   * `arrayOf` goes through the public constructor, which always clears the
   * primitive flag: an array of `int` made this way is a reference type
   * called `int`, which asks for an import and differs from what
   * `of(int[].class)` gives.
   */
  lemma ArrayOfDropsPrimitive()
    ensures ArrayOf(INT) == Ok(CType("int", false, 1))
    ensures AsImport(ArrayOf(INT).value) == "import int;\n"
    ensures ArrayOf(INT) != Derive(ArrayClass(IntClass))
  {
    assert Derive(ArrayClass(IntClass)).value.primitive;
  }

  /** `arrayOf` as evidently intended: one more dimension, same name, same kind. */
  function ArrayOfKeepingKind(t: CType): (r: Result<CType>)
    ensures r.Ok? <==> t.arrayDimensions < MaxArrayDimensions
    ensures r.Ok? ==> (r.value.name == t.name && r.value.primitive == t.primitive &&
                       r.value.arrayDimensions == t.arrayDimensions + 1)
  {
    Create(t.name, t.primitive, t.arrayDimensions + 1)
  }

  /** `arrayBaseType` as evidently intended: no dimensions, same name, same kind. */
  function ArrayBaseTypeKeepingKind(t: CType): (r: CType)
    ensures r.name == t.name && r.primitive == t.primitive && r.arrayDimensions == 0
    ensures t.arrayDimensions == 0 ==> r == t
  {
    if t.arrayDimensions == 0 then t else CType(t.name, t.primitive, 0)
  }

  /** A stand-in for a `java.lang.Class`: a named class or an array of one. */
  datatype ClassDesc = Base(className: string, isPrimitive: bool) | ArrayClass(component: ClassDesc)

  /** How many array levels wrap the base class. */
  function Depth(c: ClassDesc): nat
  {
    if c.ArrayClass? then Depth(c.component) + 1 else 0
  }

  /** The class under all array levels. */
  function BaseOf(c: ClassDesc): (r: ClassDesc)
    ensures r.Base?
  {
    if c.ArrayClass? then BaseOf(c.component) else c
  }

  /** `n` array levels around `c`, innermost first. */
  function Wrap(c: ClassDesc, n: nat): ClassDesc
    decreases n
  {
    if n == 0 then c else Wrap(ArrayClass(c), n - 1)
  }

  /** Every class descriptor is its base wrapped `Depth` times ... */
  lemma {:induction false} Decompose(c: ClassDesc)
    ensures Wrap(BaseOf(c), Depth(c)) == c
  {
    if c.ArrayClass? {
      Decompose(c.component);
      WrapOutside(BaseOf(c), Depth(c.component));
    }
  }

  lemma {:induction false} WrapOutside(c: ClassDesc, n: nat)
    ensures Wrap(c, n + 1) == ArrayClass(Wrap(c, n))
    decreases n
  {
    if n > 0 { WrapOutside(ArrayClass(c), n - 1); }
  }

  /** ... and in only one way. */
  lemma {:induction false} DecomposeUnique(b: ClassDesc, n: nat, c: ClassDesc)
    requires b.Base? && Wrap(b, n) == c
    ensures b == BaseOf(c) && n == Depth(c)
  {
    if n > 0 {
      WrapOutside(b, n - 1);
      DecomposeUnique(b, n - 1, c.component);
    }
  }

  /** What `of(c)` makes of a class it has not seen before. */
  function Derive(c: ClassDesc): (r: Result<CType>)
    ensures r.Ok? <==> Depth(c) <= MaxArrayDimensions
  {
    DeriveAt(BaseOf(c), Depth(c))
  }

  /** The type for `depth` array levels around the base class `base`. */
  function DeriveAt(base: ClassDesc, depth: nat): (r: Result<CType>)
    requires base.Base?
    ensures r.Ok? <==> depth <= MaxArrayDimensions
  {
    Create(Replace(base.className, '$', '.'), base.isPrimitive, depth)
  }

  /**
   * The derived type has the base class's name with `$` turned into `.`,
   * the base class's primitive flag, and one dimension per array level.
   */
  lemma DeriveShape(c: ClassDesc)
    requires Depth(c) <= MaxArrayDimensions
    ensures var t := Derive(c).value;
      t.arrayDimensions == Depth(c) && t.primitive == BaseOf(c).isPrimitive &&
      t.name == Replace(BaseOf(c).className, '$', '.') && Free(t.name, {'$'})
  {
  }

  /** The corrected `arrayOf` commutes with `of`: one more array level, one more dimension. */
  lemma {:induction false} ArrayOfKeepingKindMatchesOf(c: ClassDesc)
    requires Depth(c) < MaxArrayDimensions
    ensures ArrayOfKeepingKind(Derive(c).value) == Derive(ArrayClass(c))
  {
    var b, d := BaseOf(c), Depth(c);
    calc {
      ArrayOfKeepingKind(Derive(c).value);
      ArrayOfKeepingKind(DeriveAt(b, d).value);
      { DeriveAtDeeper(b, d); }
      DeriveAt(b, d + 1);
      { DeriveArrayClass(c); }
      Derive(ArrayClass(c));
    }
  }

  /** One more array level around a descriptor: same base, one level deeper. */
  lemma {:induction false} DeriveArrayClass(c: ClassDesc)
    ensures Derive(ArrayClass(c)) == DeriveAt(BaseOf(c), Depth(c) + 1)
  {
    var a := ArrayClass(c);
    assert BaseOf(a) == BaseOf(c);
    assert Depth(a) == Depth(c) + 1;
    assert Derive(a) == DeriveAt(BaseOf(a), Depth(a));
  }

  lemma DeriveAtDeeper(base: ClassDesc, d: nat)
    requires base.Base? && d < MaxArrayDimensions
    ensures ArrayOfKeepingKind(DeriveAt(base, d).value) == DeriveAt(base, d + 1)
  {
  }

  /** The corrected `arrayBaseType` commutes with `of`: the base class gives the base type. */
  lemma ArrayBaseTypeKeepingKindMatchesOf(c: ClassDesc)
    requires Depth(c) <= MaxArrayDimensions
    ensures Derive(BaseOf(c)) == Ok(ArrayBaseTypeKeepingKind(Derive(c).value))
  {
  }

  /** The corrected operations round-trip every type, primitive or not. */
  lemma ArrayRoundTripKeepingKind(t: CType)
    ensures ArrayOfKeepingKindTimes(ArrayBaseTypeKeepingKind(t), t.arrayDimensions) == Ok(t)
  {
    ArrayOfKeepingKindTimesShape(ArrayBaseTypeKeepingKind(t), t.arrayDimensions);
  }

  function ArrayOfKeepingKindTimes(t: CType, n: nat): Result<CType>
  {
    if n == 0 then Ok(t)
    else match ArrayOfKeepingKindTimes(t, n - 1)
      case Ok(u) => ArrayOfKeepingKind(u)
      case Err(e) => Err(e)
  }

  lemma {:induction false} ArrayOfKeepingKindTimesShape(t: CType, n: nat)
    requires t.arrayDimensions + n <= MaxArrayDimensions
    ensures ArrayOfKeepingKindTimes(t, n) == Ok(CType(t.name, t.primitive, t.arrayDimensions + n))
  {
    if n > 0 { ArrayOfKeepingKindTimesShape(t, n - 1); }
  }

  /** `getBaseTypeOfNDimensionalArray`: strip array levels until none is left. */
  method BaseTypeOfNDimensionalArray(clazz: ClassDesc) returns (r: ClassDesc)
    ensures r.Base? && Wrap(r, Depth(clazz)) == clazz
  {
    r := clazz;
    ghost var peeled := 0;
    while r.ArrayClass?
      invariant peeled + Depth(r) == Depth(clazz)
      invariant Wrap(r, peeled) == clazz
      decreases Depth(r)
    {
      r := r.component;
      peeled := peeled + 1;
    }
  }

  /** `countArrayDimensions`: the number of array levels. */
  method CountArrayDimensions(clazz: ClassDesc) returns (dimensions: nat)
    ensures Wrap(BaseOf(clazz), dimensions) == clazz
  {
    dimensions := 0;
    var c := clazz;
    while c.ArrayClass?
      invariant dimensions + Depth(c) == Depth(clazz)
      invariant BaseOf(c) == BaseOf(clazz)
      decreases Depth(c)
    {
      c := c.component;
      dimensions := dimensions + 1;
    }
    Decompose(clazz);
  }

  const VoidClass := Base("void", true)
  const ByteClass := Base("byte", true)
  const CharClass := Base("char", true)
  const ShortClass := Base("short", true)
  const IntClass := Base("int", true)
  const LongClass := Base("long", true)
  const FloatClass := Base("float", true)
  const DoubleClass := Base("double", true)
  const ObjectClass := Base("java.lang.Object", false)

  const VOID := CType("void", true, 0)
  const BYTE := CType("byte", true, 0)
  const CHAR := CType("char", true, 0)
  const SHORT := CType("short", true, 0)
  const INT := CType("int", true, 0)
  const LONG := CType("long", true, 0)
  const FLOAT := CType("float", true, 0)
  const DOUBLE := CType("double", true, 0)
  const OBJECT := CType("java.lang.Object", false, 0)

  /** A descriptor with no array levels and no `$` in its name becomes a depth-0 type as is. */
  lemma DeriveBase(c: ClassDesc)
    requires c.Base? && Free(c.className, {'$'})
    ensures Derive(c) == Ok(CType(c.className, c.isPrimitive, 0))
  {
    ReplaceAbsent(c.className, '$', '.');
  }

  /** The nine constants are exactly what `of` derives for their classes. */
  lemma BuiltinsDerived()
    ensures Derive(VoidClass) == Ok(VOID) && Derive(ByteClass) == Ok(BYTE)
    ensures Derive(CharClass) == Ok(CHAR) && Derive(ShortClass) == Ok(SHORT)
    ensures Derive(IntClass) == Ok(INT) && Derive(LongClass) == Ok(LONG)
    ensures Derive(FloatClass) == Ok(FLOAT) && Derive(DoubleClass) == Ok(DOUBLE)
    ensures Derive(ObjectClass) == Ok(OBJECT)
  {
    SmallBuiltinsDerived();
    WideBuiltinsDerived();
    DeriveBase(ObjectClass);
  }

  lemma SmallBuiltinsDerived()
    ensures Derive(VoidClass) == Ok(VOID) && Derive(ByteClass) == Ok(BYTE)
    ensures Derive(CharClass) == Ok(CHAR) && Derive(ShortClass) == Ok(SHORT)
  {
    DeriveBase(VoidClass);
    DeriveBase(ByteClass);
    DeriveBase(CharClass);
    DeriveBase(ShortClass);
  }

  lemma WideBuiltinsDerived()
    ensures Derive(IntClass) == Ok(INT) && Derive(LongClass) == Ok(LONG)
    ensures Derive(FloatClass) == Ok(FLOAT) && Derive(DoubleClass) == Ok(DOUBLE)
  {
    DeriveBase(IntClass);
    DeriveBase(LongClass);
    DeriveBase(FloatClass);
    DeriveBase(DoubleClass);
  }

  /** The classes the static initialiser passes to `of`, in declaration order. */
  const BuiltinClasses: seq<ClassDesc> :=
    [VoidClass, ByteClass, CharClass, ShortClass, IntClass, LongClass, FloatClass, DoubleClass, ObjectClass]

  /** The builtin classes are distinct, non-array classes. */
  lemma BuiltinClassesDistinct()
    ensures forall i | 0 <= i < |BuiltinClasses| :: BuiltinClasses[i].Base?
    ensures forall i, j | 0 <= i < j < |BuiltinClasses| :: BuiltinClasses[i] != BuiltinClasses[j]
  {
  }

  /** The cache behind `CType.of`. */
  class TypeRegistry {
    var typeMap: map<ClassDesc, CType>

    /** Every cached entry is what `of` would derive for its class. */
    ghost predicate Valid()
      reads this
    {
      forall c | c in typeMap :: Derive(c) == Ok(typeMap[c])
    }

    /**
     * The static initialiser: an empty map, then `of` on each builtin class,
     * which caches exactly those nine classes.
     */
    constructor ()
      ensures Valid()
      ensures typeMap.Keys == set c | c in BuiltinClasses
    {
      typeMap := map[];
      new;
      BuiltinClassesDistinct();
      for i := 0 to |BuiltinClasses|
        invariant Valid()
        invariant typeMap.Keys == set k | 0 <= k < i :: BuiltinClasses[k]
      {
        var t := Of(BuiltinClasses[i]);
      }
      assert forall c :: c in BuiltinClasses <==> exists k | 0 <= k < |BuiltinClasses| :: BuiltinClasses[k] == c;
    }

    /**
     * `of(clazz)`: the cached type when there is one, otherwise the derived
     * type, which is cached. An entry, once made, is never changed or removed.
     */
    method Of(clazz: ClassDesc) returns (r: Result<CType>)
      requires Valid()
      modifies this
      ensures Valid()
      ensures r == Derive(clazz)
      ensures clazz in old(typeMap) ==> r == Ok(old(typeMap)[clazz]) && typeMap == old(typeMap)
      ensures clazz !in old(typeMap) ==>
        typeMap == if r.Ok? then old(typeMap)[clazz := r.value] else old(typeMap)
    {
      if clazz in typeMap {
        return Ok(typeMap[clazz]);
      }
      var base := BaseTypeOfNDimensionalArray(clazz);
      var baseAgain := BaseTypeOfNDimensionalArray(clazz);
      var dimensions := CountArrayDimensions(clazz);
      DecomposeUnique(base, Depth(clazz), clazz);
      DecomposeUnique(baseAgain, Depth(clazz), clazz);
      DecomposeUnique(BaseOf(clazz), dimensions, clazz);
      r := Create(Replace(base.className, '$', '.'), baseAgain.isPrimitive, dimensions);
      if r.Ok? {
        typeMap := typeMap[clazz := r.value];
      }
    }
  }

  /** In a valid cache, each builtin class maps to its constant. */
  lemma BuiltinLookup(registry: TypeRegistry, i: nat)
    requires registry.Valid() && i < |BuiltinClasses| && BuiltinClasses[i] in registry.typeMap
    ensures registry.typeMap[BuiltinClasses[i]] == [VOID, BYTE, CHAR, SHORT, INT, LONG, FLOAT, DOUBLE, OBJECT][i]
  {
    BuiltinsDerived();
  }

  /** `getName` with its loop over the dimensions. */
  method GetName(t: CType) returns (r: string)
    ensures r == FullName(t)
  {
    r := NameAsImport(t);
    for i := 0 to t.arrayDimensions
      invariant r == t.name + Brackets(i)
    {
      r := r + "[]";
    }
  }

  /** `getSimpleName` with its loop over the dimensions. */
  method GetSimpleName(t: CType) returns (r: string)
    requires SimpleNameDefined(t.name)
    ensures r == SimpleName(t)
  {
    SplitEmptyIff(t.name, {'.'});
    var split := Split(t.name, {'.'});
    r := split[|split| - 1];
    for i := 0 to t.arrayDimensions
      invariant r == LastSegment(t.name) + Brackets(i)
    {
      r := r + "[]";
    }
  }
}
