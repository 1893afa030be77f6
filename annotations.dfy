/**
 * `CAnnotation` (an annotation type with a list of arguments) and
 * `CAnnotationArgument` (one `name = value` pair).
 */
module Annotations {
  import opened JavaLang
  import opened CTypes
  import opened ImmutableLists

  /** One argument: a name and the source text of its value. Not a type carrier. */
  datatype CAnnotationArgument = CAnnotationArgument(name: string, arg: string)

  /** `toString`: name, ` = `, value. */
  function ArgumentString(a: CAnnotationArgument): (r: string)
    ensures |r| == |a.name| + 3 + |a.arg|
    ensures r[..|a.name|] == a.name && r[|a.name|..|a.name| + 3] == " = " && r[|a.name| + 3..] == a.arg
  {
    a.name + " = " + a.arg
  }

  /** `hashCode`: `Objects.hash(name, arg)`. */
  function ArgumentHash(a: CAnnotationArgument): (r: int)
    ensures -0x8000_0000 <= r < 0x8000_0000
  {
    ObjectsHash([StringHash(a.name), StringHash(a.arg)])
  }

  /** `equals`: same value and same name; equal arguments hash alike. */
  function ArgumentEquals(a: CAnnotationArgument, b: CAnnotationArgument): (r: bool)
    ensures r <==> a == b
    ensures r ==> ArgumentHash(a) == ArgumentHash(b)
  {
    a.arg == b.arg && a.name == b.name
  }

  /** The carrier view of an argument: it does not implement `TypeCarrier`. */
  function ArgumentCarrier(a: CAnnotationArgument): Option<set<CType>>
  {
    None
  }

  /** An annotation: its type, and its arguments (by default a new empty list). */
  datatype CAnnotation = CAnnotation(annotationType: CType, params: CImmutableList<CAnnotationArgument>)

  /** The builder with only the type set: the arguments are a fresh empty list. */
  method DefaultAnnotation(annotationType: CType) returns (a: CAnnotation)
    ensures a.annotationType == annotationType && a.params.parameters == [] && fresh(a.params)
  {
    var params := new CImmutableList<CAnnotationArgument>([]);
    a := CAnnotation(annotationType, params);
  }

  /** `getTypes`: the annotation type and nothing else. */
  function AnnotationTypes(a: CAnnotation): (r: set<CType>)
    ensures a.annotationType in r && |r| == 1
  {
    {a.annotationType}
  }

  /** `hashCode`: the type's hash. */
  function AnnotationHash(a: CAnnotation): (r: int)
    ensures -0x8000_0000 <= r < 0x8000_0000
  {
    Hash(a.annotationType)
  }

  /**
   * `equals`: annotations of the same type are equal, whatever their
   * arguments; equal annotations hash alike.
   */
  function AnnotationEquals(a: CAnnotation, b: CAnnotation): (r: bool)
    ensures r <==> a.annotationType == b.annotationType
    ensures r ==> AnnotationHash(a) == AnnotationHash(b)
  {
    Equals(a.annotationType, b.annotationType)
  }

  /**
   * The `toString` template for some view of which arguments carry types:
   * the argument list in parentheses is shown exactly when the list's
   * `getTypes` is non-empty.
   */
  function AnnotationStringOver(a: CAnnotation, carrier: CarrierView<CAnnotationArgument>): (r: string)
    requires HasSimpleName(a.annotationType)
    ensures var head := "@" + SimpleName(a.annotationType);
      |r| >= |head| && r[..|head|] == head &&
      (r == head <==> a.params.GetTypes(carrier) == {})
  {
    var typesShown := a.params.GetTypes(carrier);
    "@" + SimpleName(a.annotationType) +
    (if |typesShown| > 0 then "(" + a.params.ToString(ArgumentString) + ")" else "")
  }

  /**
   * `toString` as written. Arguments carry no types, so the list's
   * `getTypes` is always empty and the result is the `@` and the simple
   * name alone, whatever the arguments.
   */
  function AnnotationString(a: CAnnotation): (r: string)
    requires HasSimpleName(a.annotationType)
    ensures r == "@" + SimpleName(a.annotationType)
  {
    AnnotationStringOver(a, ArgumentCarrier)
  }

  /** An annotation with an argument renders exactly as one without. */
  lemma ArgumentsNeverRendered(t: CType, params: CImmutableList<CAnnotationArgument>,
                               none: CImmutableList<CAnnotationArgument>)
    requires HasSimpleName(t) && |params.parameters| > 0 && none.parameters == []
    ensures AnnotationString(CAnnotation(t, params)) == AnnotationString(CAnnotation(t, none))
    ensures AnnotationString(CAnnotation(t, params)) != AnnotationStringWithArguments(CAnnotation(t, params))
  {
    var a := CAnnotation(t, params);
    var withArgs := AnnotationStringWithArguments(a);
    assert withArgs[|withArgs| - 1] == ')';
    assert |withArgs| > |AnnotationString(a)|;
  }

  /** `toString` as evidently intended: the arguments in parentheses when there are any. */
  function AnnotationStringWithArguments(a: CAnnotation): (r: string)
    requires HasSimpleName(a.annotationType)
    ensures var head := "@" + SimpleName(a.annotationType);
      |r| >= |head| && r[..|head|] == head && (r == head <==> a.params.parameters == [])
  {
    var head := "@" + SimpleName(a.annotationType);
    var tail := if |a.params.parameters| > 0 then "(" + a.params.ToString(ArgumentString) + ")" else "";
    assert (head + tail)[..|head|] == head;
    assert |a.params.parameters| > 0 ==> |head + tail| > |head|;
    head + tail
  }

  /**
   * The intended rendering: `@` and the simple name, then, exactly when
   * there are arguments, the arguments in parentheses; without arguments it
   * agrees with the code as written.
   */
  lemma AnnotationStringWithArgumentsShape(a: CAnnotation)
    requires HasSimpleName(a.annotationType)
    ensures var r := AnnotationStringWithArguments(a);
      var head := "@" + SimpleName(a.annotationType);
      r[..|head|] == head &&
      (a.params.parameters == [] <==> r == head) &&
      (a.params.parameters != [] ==>
         r[|r| - 1] == ')' && r[|head|] == '(' && r[|head| + 1..|r| - 1] == a.params.ToString(ArgumentString)) &&
      (a.params.parameters == [] ==> r == AnnotationString(a))
  {
    var head := "@" + SimpleName(a.annotationType);
    var r := AnnotationStringWithArguments(a);
    if a.params.parameters == [] {
      assert r == head + "";
    } else {
      var args := a.params.ToString(ArgumentString);
      assert r == head + (['('] + args + [')']);
      Parenthesized(head, args);
    }
  }

  /** A head followed by a parenthesised text: where each part sits. */
  lemma Parenthesized(head: string, args: string)
    ensures var r := head + (['('] + args + [')']);
      |r| == |head| + |args| + 2 && r[..|head|] == head && r[|head|] == '(' &&
      r[|head| + 1..|r| - 1] == args && r[|r| - 1] == ')'
  {
    var r := head + (['('] + args + [')']);
    forall i | 0 <= i < |args| ensures r[|head| + 1..|r| - 1][i] == args[i] {
      assert r[|head| + 1 + i] == args[i];
    }
  }
}
