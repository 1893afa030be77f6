/**
 * `CParameter` (a typed name) and `CParamList` (an ordered list of them,
 * with its builder), as used in method signatures.
 */
module Parameters {
  import opened JavaLang
  import opened CTypes

  /** A parameter: its type and its name. Not a type carrier. */
  datatype CParameter = CParameter(paramType: CType, name: string)

  /** `toString`: the type's simple name, a space, the name. */
  function ParameterString(p: CParameter): (r: string)
    requires HasSimpleName(p.paramType)
    ensures |r| > |p.name| && r[|r| - |p.name|..] == p.name && r[|r| - |p.name| - 1] == ' '
    ensures r[..|r| - |p.name| - 1] == SimpleName(p.paramType)
  {
    SimpleName(p.paramType) + " " + p.name
  }

  /** `equals`: same type and same name; equal parameters hash alike. */
  function ParameterEquals(a: CParameter, b: CParameter): (r: bool)
    ensures r <==> a == b
    ensures r ==> ParameterHash(a) == ParameterHash(b)
  {
    Equals(a.paramType, b.paramType) && a.name == b.name
  }

  /** `hashCode`: `Objects.hash(type, name)`. */
  function ParameterHash(p: CParameter): (r: int)
    ensures -0x8000_0000 <= r < 0x8000_0000
  {
    ObjectsHash([Hash(p.paramType), StringHash(p.name)])
  }

  /** All parameters have a simple name, so each can be rendered. */
  predicate Printable(ps: seq<CParameter>)
  {
    forall i | 0 <= i < |ps| :: HasSimpleName(ps[i].paramType)
  }

  /** The parameter strings, in order. */
  function ParameterStrings(ps: seq<CParameter>): (r: seq<string>)
    requires Printable(ps)
    ensures |r| == |ps| && forall i | 0 <= i < |ps| :: r[i] == ParameterString(ps[i])
  {
    seq(|ps|, i requires 0 <= i < |ps| && Printable(ps) => ParameterString(ps[i]))
  }

  /** The types of the parameters, collected from the front. */
  function TypesOf(ps: seq<CParameter>): (r: set<CType>)
    ensures forall t :: t in r <==> exists i | 0 <= i < |ps| :: ps[i].paramType == t
  {
    if ps == [] then {}
    else
      var rest := TypesOf(ps[1..]);
      assert forall i | 1 <= i < |ps| :: ps[i] == ps[1..][i - 1];
      {ps[0].paramType} + rest
  }

  /** The parameter names, in order (what `superConstructors` passes on to `super`). */
  function Names(ps: seq<CParameter>): (r: seq<string>)
    ensures |r| == |ps| && forall i | 0 <= i < |ps| :: r[i] == ps[i].name
  {
    seq(|ps|, i requires 0 <= i < |ps| => ps[i].name)
  }

  /** `Collectors.joining(", ")` over the parameter strings. */
  function JoinParameters(ps: seq<CParameter>): (r: string)
    requires Printable(ps)
    ensures r == "" <==> ps == []
  {
    var parts := ParameterStrings(ps);
    JoinEmptyIff(parts, ", ");
    Join(parts, ", ")
  }

  /** One more parameter adds a comma, a space and its string at the end. */
  lemma JoinParametersAppend(ps: seq<CParameter>, p: CParameter)
    requires Printable(ps) && HasSimpleName(p.paramType) && ps != []
    ensures Printable(ps + [p])
    ensures JoinParameters(ps + [p]) == JoinParameters(ps) + ", " + ParameterString(p)
  {
    assert ParameterStrings(ps + [p]) == ParameterStrings(ps) + [ParameterString(p)];
    JoinAppend(ParameterStrings(ps), [ParameterString(p)], ", ");
  }

  /** A single parameter is rendered on its own, with no separator. */
  lemma JoinParametersSingle(p: CParameter)
    requires HasSimpleName(p.paramType)
    ensures JoinParameters([p]) == ParameterString(p)
  {
    assert ParameterStrings([p]) == [ParameterString(p)];
  }

  /**
   * `CParamList`: the parameters of a method, in the order given. Its list
   * is filled once, by the constructor, and never changed afterwards.
   */
  class CParamList {
    const parameters: seq<CParameter>

    /** `CParamList(Collection<CParameter>)`: the parameters in iteration order. */
    constructor (params: seq<CParameter>)
      ensures parameters == params
    {
      parameters := params;
    }

    /** `CParamList(CParameter...)`: the arguments in order. */
    constructor FromArray(params: array<CParameter>)
      ensures parameters == params[..]
    {
      var copied: seq<CParameter> := [];
      for i := 0 to params.Length
        invariant copied == params[..i]
      {
        copied := copied + [params[i]];
      }
      parameters := copied;
    }

    /** `getParameters`: the parameters in order. */
    function GetParameters(): (r: seq<CParameter>)
      ensures r == parameters
    {
      parameters
    }

    /** `getTypes`: the set of the parameters' types. */
    function GetTypes(): (r: set<CType>)
      ensures forall t :: t in r <==> exists i | 0 <= i < |parameters| :: parameters[i].paramType == t
      ensures |r| <= |parameters|
    {
      TypesCount(parameters);
      TypesOf(parameters)
    }

    /** `toString`: the parameter strings joined with `, `; empty exactly for no parameters. */
    function ToString(): (r: string)
      requires Printable(parameters)
      ensures r == "" <==> parameters == []
    {
      JoinParameters(parameters)
    }
  }

  /** There are never more distinct types than parameters. */
  lemma {:induction false} TypesCount(ps: seq<CParameter>)
    ensures |TypesOf(ps)| <= |ps|
  {
    if ps != [] {
      TypesCount(ps[1..]);
    }
  }

  /** `CParamList.builder()`: parameters collected one call at a time. */
  class CParamListBuilder {
    var params: seq<CParameter>

    constructor ()
      ensures params == []
    {
      params := [];
    }

    /** `addParam`: at the end. */
    method AddParam(param: CParameter)
      modifies this
      ensures params == old(params) + [param]
    {
      params := params + [param];
    }

    /** `build`: a new list holding the parameters in call order. */
    method Build() returns (list: CParamList)
      ensures fresh(list) && list.parameters == params
    {
      list := new CParamList(params);
    }
  }
}
