/** What a bag is worth, read off the value table of a map. */
module Prices {
  import opened World

  /** Every type can be looked up. */
  predicate KindsInRange(loot: seq<Loot>, values: seq<int>) {
    forall i :: 0 <= i < |loot| ==> 0 <= loot[i].kind < |values|
  }

  /** The sum of the values of the types. */
  function Price(loot: seq<Loot>, values: seq<int>): int
    requires KindsInRange(loot, values)
  {
    if loot == [] then 0 else Price(loot[..|loot| - 1], values) + values[loot[|loot| - 1].kind]
  }

  lemma {:induction false} BagValueIsPrice(values: seq<int>, bag: seq<Loot>)
    requires KindsInRange(bag, values)
    ensures BagValue(values, bag) == Price(bag, values)
  {
    if bag != [] {
      BagValueIsPrice(values, bag[..|bag| - 1]);
    }
  }
}
