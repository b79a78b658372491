/** How much loot appears in a session during a tick. */
module LootGenerator {
  import opened Basics

  function Shortage(lootCount: nat, looterCount: nat): nat {
    if lootCount > looterCount then 0 else looterCount - lootCount
  }

  /** std::clamp to [0, 1]. */
  function Clamp01(x: real): real {
    if x < 0.0 then 0.0 else if x > 1.0 then 1.0 else x
  }

  /** The weight is the product of the accumulated probability and the random draw, before it is clamped. */
  function Generated(lootCount: nat, looterCount: nat, weight: real): (n: nat)
    ensures n <= Shortage(lootCount, looterCount)
    ensures lootCount <= looterCount ==> lootCount + n <= looterCount
    ensures weight <= 0.0 ==> n == 0
    ensures weight >= 1.0 ==> n == Shortage(lootCount, looterCount)
    ensures lootCount <= looterCount && 0.0 <= weight <= 1.0 ==>
              n as real - 0.5 <= (looterCount - lootCount) as real * weight < n as real + 0.5
    ensures lootCount > looterCount ==> n == 0
  {
    var shortage := Shortage(lootCount, looterCount);
    ShareOfShortage(shortage, Clamp01(weight));
    Round(shortage as real * Clamp01(weight))
  }

  /** The integer nearest to a number, halves counting up. */
  predicate Nearest(n: int, x: real) {
    n as real - 0.5 <= x < n as real + 0.5
  }

  lemma NearestShareMonotone(s: real, v: real, w: real, m: int, n: int)
    requires s >= 0.0 && v <= w && Nearest(m, s * v) && Nearest(n, s * w)
    ensures m <= n
  {
    assert s * v <= s * w;
  }

  /** A greater weight never gives less loot. */
  lemma MoreWeightMoreLoot(lootCount: nat, looterCount: nat, v: real, w: real)
    requires v <= w
    ensures Generated(lootCount, looterCount, v) <= Generated(lootCount, looterCount, w)
  {
    if lootCount <= looterCount && 0.0 < v && w < 1.0 {
      NearestShareMonotone((looterCount - lootCount) as real, v, w,
                           Generated(lootCount, looterCount, v), Generated(lootCount, looterCount, w));
    }
  }

  lemma ShareOfShortage(shortage: nat, share: real)
    requires 0.0 <= share <= 1.0
    ensures 0 <= Round(shortage as real * share) <= shortage
    ensures share == 0.0 ==> Round(shortage as real * share) == 0
    ensures share == 1.0 ==> Round(shortage as real * share) == shortage
    ensures Nearest(Round(shortage as real * share), shortage as real * share)
  {
    PartOf(shortage as real, share);
    RoundIsNearest(shortage as real * share);
    RoundMonotone(0.0, shortage as real * share);
    RoundMonotone(shortage as real * share, shortage as real);
    RoundInteger(shortage);
  }

  lemma PartOf(s: real, share: real)
    requires 0.0 <= s && 0.0 <= share <= 1.0
    ensures 0.0 <= s * share <= s
    ensures share == 0.0 ==> s * share == 0.0
    ensures share == 1.0 ==> s * share == s
  {
  }

  lemma RoundInteger(n: int)
    ensures Round(n as real) == n
  {
  }

  /** The generator; it is shared by all sessions of a game. */
  class LootGenerator {
    var timeWithoutLoot: int

    constructor ()
      ensures timeWithoutLoot == 0
    {
      timeWithoutLoot := 0;
    }

    method Generate(timeDelta: int, lootCount: nat, looterCount: nat, weight: real) returns (generated: nat)
      modifies this
      ensures generated == Generated(lootCount, looterCount, weight)
      ensures lootCount <= looterCount && 0.0 <= weight <= 1.0 ==>
                generated as real - 0.5 <= (looterCount - lootCount) as real * weight < generated as real + 0.5
      ensures timeWithoutLoot == if generated > 0 then 0 else old(timeWithoutLoot) + timeDelta
    {
      timeWithoutLoot := timeWithoutLoot + timeDelta;
      var shortage := if lootCount > looterCount then 0 else looterCount - lootCount;
      var probability := Clamp01(weight);
      ShareOfShortage(shortage, probability);
      generated := Round(shortage as real * probability);
      if generated > 0 {
        timeWithoutLoot := 0;
      }
    }
  }
}
