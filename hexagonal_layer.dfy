/** The three layers of a hexagonal architecture, in declaration order. */
module HexagonalLayer {
  datatype HexagonalLayer = Domain | Infrastructure | Application

  /** Every layer, in the order the enumeration declares them. */
  const All: seq<HexagonalLayer> := [Domain, Infrastructure, Application]

  /** Keeps the layers of `ls` other than `layer`, in order. */
  function Without(ls: seq<HexagonalLayer>, layer: HexagonalLayer): (r: seq<HexagonalLayer>)
    ensures |r| <= |ls|
    ensures forall l :: l in r <==> l in ls && l != layer
  {
    if ls == [] then []
    else (if ls[0] == layer then [] else [ls[0]]) + Without(ls[1..], layer)
  }

  /** `all_but`: all the layers but `layer`, in declaration order. */
  function AllBut(layer: HexagonalLayer): (r: seq<HexagonalLayer>)
    ensures layer !in r
    ensures forall l :: l != layer ==> l in r
    ensures |r| == 2
  {
    Without(All, layer)
  }

  /** The order of the remaining layers follows the declaration order. */
  lemma AllButKeepsOrder()
    ensures AllBut(Domain) == [Infrastructure, Application]
    ensures AllBut(Infrastructure) == [Domain, Application]
    ensures AllBut(Application) == [Domain, Infrastructure]
  {
  }

  /** `__str__`: the member's name. */
  function Name(layer: HexagonalLayer): (r: string)
    ensures r in {"DOMAIN", "INFRASTRUCTURE", "APPLICATION"}
  {
    match layer
    case Domain => "DOMAIN"
    case Infrastructure => "INFRASTRUCTURE"
    case Application => "APPLICATION"
  }

  /** Distinct layers have distinct names. */
  lemma NameIsInjective(a: HexagonalLayer, b: HexagonalLayer)
    ensures Name(a) == Name(b) <==> a == b
  {
  }
}
