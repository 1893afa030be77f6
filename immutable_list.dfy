/**
 * `CImmutableList<T>`: an ordered list fixed at construction. Its `getTypes`
 * collects the types of those elements that are type carriers and ignores
 * the rest.
 */
module ImmutableLists {
  import opened JavaLang
  import opened CTypes

  /**
   * The types an element carries when it implements `TypeCarrier`, or
   * `None` when it does not. This stands in for the `instanceof` test.
   */
  type CarrierView<!T> = T -> Option<set<CType>>

  /** The union of what the carrier elements carry, collected from the front. */
  function CarriedTypes<T>(ps: seq<T>, carrier: CarrierView<T>): (r: set<CType>)
    ensures forall t :: t in r <==>
      exists i | 0 <= i < |ps| :: carrier(ps[i]).Some? && t in carrier(ps[i]).value
  {
    if ps == [] then {}
    else
      var rest := CarriedTypes(ps[1..], carrier);
      assert forall i | 1 <= i < |ps| :: ps[i] == ps[1..][i - 1];
      (match carrier(ps[0]) case Some(ts) => ts case None => {}) + rest
  }

  /** The element strings, in order. */
  function ElementStrings<T>(ps: seq<T>, show: T --> string): (r: seq<string>)
    requires forall i | 0 <= i < |ps| :: show.requires(ps[i])
    ensures |r| == |ps| && forall i | 0 <= i < |ps| :: r[i] == show(ps[i])
  {
    seq(|ps|, i requires 0 <= i < |ps| && (forall j | 0 <= j < |ps| :: show.requires(ps[j])) => show(ps[i]))
  }

  class CImmutableList<T> {
    const parameters: seq<T>

    /** `CImmutableList(Collection<T>)`: the elements in iteration order. */
    constructor (params: seq<T>)
      ensures parameters == params
    {
      parameters := params;
    }

    /** `getParameters`: the elements in order. */
    function GetParameters(): (r: seq<T>)
      ensures r == parameters
    {
      parameters
    }

    /**
     * `getTypes`: a type is in the result exactly when some carrier element
     * carries it; a list without carriers has no types.
     */
    function GetTypes(carrier: CarrierView<T>): (r: set<CType>)
      ensures forall t :: t in r <==>
        exists i | 0 <= i < |parameters| :: carrier(parameters[i]).Some? && t in carrier(parameters[i]).value
      ensures (forall i | 0 <= i < |parameters| :: carrier(parameters[i]).None?) ==> r == {}
    {
      CarriedTypes(parameters, carrier)
    }

    /** `toString`: the element strings joined with `, `; empty for no elements. */
    function ToString(show: T --> string): (r: string)
      requires forall i | 0 <= i < |parameters| :: show.requires(parameters[i])
      ensures parameters == [] ==> r == ""
      ensures |parameters| == 1 ==> r == show(parameters[0])
    {
      Join(ElementStrings(parameters, show), ", ")
    }
  }

  /** `CImmutableList.builder()`: elements collected one call at a time. */
  class CImmutableListBuilder<T> {
    var params: seq<T>

    constructor ()
      ensures params == []
    {
      params := [];
    }

    /** `addParam`: at the end. */
    method AddParam(param: T)
      modifies this
      ensures params == old(params) + [param]
    {
      params := params + [param];
    }

    /** `build`: a new list holding the elements in call order. */
    method Build() returns (list: CImmutableList<T>)
      ensures fresh(list) && list.parameters == params
    {
      list := new CImmutableList(params);
    }
  }
}
