/** What the order of the event lists means for the players: the earlier one is served. */
module Timing {
  import opened Collision
  import opened World
  import opened Invariants
  import opened Greedy
  import opened Preservation

  /** With separated times, a visible object goes to a gatherer of least time among those for whom it came with room in
      the bag, and to nobody else. */
  lemma EarliestTakes(w: World, t: TickInput, item: nat, k: nat)
    requires Inv(w) && TickPossible(w, t) && Separated(t.lootEvents)
    requires var v := Underway(w, t);
             && item < |v.game.loot| && v.game.loot[item].visible
             && Wins(Gathering(v.game, v.players), Order(t.plan), t.lootEvents, item, k)
    ensures var s := Gathering(Underway(w, t).game, Underway(w, t).players);
            forall j: nat ::
              j < |t.lootEvents| && t.lootEvents[j].item == item && HadRoom(s, Order(t.plan), t.lootEvents, j) ==>
              t.lootEvents[k].time <= t.lootEvents[j].time
    ensures var u := GatherLoot(Underway(w, t), t);
            forall i :: 0 <= i < |u.players| ==> (Carries(u.players[i], item) <==> i == t.lootEvents[k].gatherer)
  {
    hide Underway, LootOk, Gather, HadRoom;
    var v := Underway(w, t);
    var s := Gathering(v.game, v.players);
    UnderwayKeeps(w, t);
    WinnerHasIt(s, Order(t.plan), t.lootEvents, item, k);
    forall j: nat | j < |t.lootEvents| && t.lootEvents[j].item == item && HadRoom(s, Order(t.plan), t.lootEvents, j)
      ensures t.lootEvents[k].time <= t.lootEvents[j].time
    {
      WinnerIsEarliest(s, Order(t.plan), t.lootEvents, item, k, j);
    }
  }

  /** With separated times, the one player a tick may serve passed an office no later than any other, and all other
      players keep bag and score. */
  lemma EarliestVisitorIsServed(w: World, t: TickInput, j: nat)
    requires TickPossible(w, t) && Separated(t.officeEvents) && j < |t.officeEvents|
    ensures t.officeEvents[0].time <= t.officeEvents[j].time
    ensures var u := GatherLoot(Underway(w, t), t);
            forall k ::
              0 <= k < |u.players| && k != t.officeEvents[0].gatherer ==> Tick(w, t).players[k] == u.players[k]
  {
    hide GatherLoot, Underway, CashIn;
  }
}
