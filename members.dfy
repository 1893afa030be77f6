/**
 * The members a class is assembled from: `CField`, `CConstructor` and
 * `CMethod`, each an immutable record with its source-text template.
 */
module Members {
  import opened JavaLang
  import opened CTypes
  import opened Access
  import opened Parameters
  import opened ImmutableLists
  import opened Indentation

  /** A field declaration; the initializer is source text, empty for none. */
  datatype CField = CField(access: AccessSpecifier, fieldType: CType, name: string, initializer: string)

  /** The builder with only type and name set: private, no initializer. */
  function DefaultField(fieldType: CType, name: string): (f: CField)
    ensures f.access == Default && f.fieldType == fieldType && f.name == name && f.initializer == ""
  {
    CField(Default, fieldType, name, "")
  }

  /** `type()`. */
  function FieldType(f: CField): (r: CType)
    ensures r == f.fieldType
  {
    f.fieldType
  }

  /** The declaration without initializer and semicolon: modifiers, type, name. */
  function Declaration(access: AccessSpecifier, t: CType, name: string): string
    requires HasSimpleName(t)
  {
    ToString(access) + SimpleName(t) + " " + name
  }

  /**
   * `toString`: the declaration, then ` = ` and the initializer only when
   * the initializer is non-empty, then `;`.
   */
  function FieldString(f: CField): (r: string)
    requires HasSimpleName(f.fieldType)
    ensures var d := Declaration(f.access, f.fieldType, f.name);
      |r| > |d| && r[..|d|] == d && r[|r| - 1] == ';' &&
      (f.initializer == "" <==> |r| == |d| + 1) &&
      (f.initializer != "" ==> r[|d|..] == " = " + f.initializer + ";")
  {
    var d := Declaration(f.access, f.fieldType, f.name);
    var tail := (if |f.initializer| > 0 then " = " + f.initializer else "") + ";";
    assert (d + tail)[..|d|] == d && (d + tail)[|d|..] == tail;
    d + tail
  }

  /** The body of a constructor or method: the code indented by four, between braces. */
  function Body(code: string): (r: string)
    ensures |r| >= 3 && r[..2] == "{\n" && r[|r| - 1] == '}'
    ensures code == "" ==> r == "{\n    \n}"
  {
    IndentedEmpty();
    "{\n" + Indented(code, 4) + "}"
  }

  /** A constructor: modifiers, parameters (by default a new empty list) and code. */
  datatype CConstructor = CConstructor(access: AccessSpecifier, paramList: CImmutableList<CParameter>, code: string)

  /** The builder with nothing set: private, no parameters, no code. */
  method DefaultConstructor() returns (c: CConstructor)
    ensures c.access == Default && c.paramList.parameters == [] && c.code == "" && fresh(c.paramList)
  {
    var params := new CImmutableList<CParameter>([]);
    c := CConstructor(Default, params, "");
  }

  /** The carrier view of a parameter: it does not implement `TypeCarrier`. */
  function ParameterCarrier(p: CParameter): Option<set<CType>>
  {
    None
  }

  /** A list of parameters renders the same as a `CParamList` of them. */
  lemma ParameterListRendering(list: CImmutableList<CParameter>)
    requires Printable(list.parameters)
    ensures list.ToString(ParameterString) == JoinParameters(list.parameters)
  {
    assert ElementStrings(list.parameters, ParameterString) == ParameterStrings(list.parameters);
  }

  /**
   * `toString(className)`: modifiers, the class name, the parameters in
   * parentheses, and the body.
   */
  function ConstructorString(c: CConstructor, className: string): (r: string)
    requires Printable(c.paramList.parameters)
    ensures var head := ToString(c.access) + className + "(" + JoinParameters(c.paramList.parameters) + ")";
      r == head + Body(c.code) && r[|r| - 1] == '}'
  {
    ParameterListRendering(c.paramList);
    ToString(c.access) + className + "(" + c.paramList.ToString(ParameterString) + ")" + Body(c.code)
  }

  /** With the defaults, a constructor renders as `private Name(){`, a blank indented line, `}`. */
  lemma DefaultConstructorRendering(c: CConstructor, className: string)
    requires c.access == Default && c.paramList.parameters == [] && c.code == ""
    ensures ConstructorString(c, className) == "private " + className + "(){\n    \n}"
  {
  }

  /** `getTypes`: the parameter list's types, which is always empty. */
  function ConstructorTypes(c: CConstructor): (r: set<CType>)
    ensures r == {}
  {
    c.paramList.GetTypes(ParameterCarrier)
  }

  /**
   * `equals`: constructors are equal exactly when they hold the same list
   * object (the list type compares by identity), whatever their modifiers
   * and code.
   */
  function ConstructorEquals(a: CConstructor, b: CConstructor): (r: bool)
    ensures r <==> a.paramList == b.paramList
  {
    a == b || a.paramList == b.paramList
  }

  /** A method: modifiers, return type (by default `void`), name, parameters, code. */
  datatype CMethod = CMethod(access: AccessSpecifier, returnType: CType, name: string,
                             paramList: CParamList, code: string)

  /** The builder with only name and code set: private, `void`, a new empty parameter list. */
  method DefaultMethod(name: string, code: string) returns (m: CMethod)
    ensures m.access == Default && m.returnType == VOID && m.name == name && m.code == code
    ensures m.paramList.parameters == [] && fresh(m.paramList)
  {
    var params := new CParamList([]);
    m := CMethod(Default, VOID, name, params, code);
  }

  /** Everything `toString` needs a simple name for. */
  predicate MethodPrintable(m: CMethod)
  {
    HasSimpleName(m.returnType) && Printable(m.paramList.parameters)
  }

  /**
   * `toString`: modifiers, the return type's simple name, the name, the
   * parameters in parentheses, and the body.
   */
  function MethodString(m: CMethod): (r: string)
    requires MethodPrintable(m)
    ensures var head := Declaration(m.access, m.returnType, m.name) + "(" + JoinParameters(m.paramList.parameters) + ")";
      r == head + Body(m.code) && r[|r| - 1] == '}'
  {
    ToString(m.access) + SimpleName(m.returnType) + " " + m.name + "(" + m.paramList.ToString() + ")" + Body(m.code)
  }

  /** `getTypes`: the return type and every parameter type, and nothing else. */
  function MethodTypes(m: CMethod): (r: set<CType>)
    ensures forall t :: t in r <==>
      t == m.returnType || exists i | 0 <= i < |m.paramList.parameters| :: m.paramList.parameters[i].paramType == t
  {
    var result := {m.returnType};
    result + m.paramList.GetTypes()
  }
}
