/** Loot of other maps: the loot loop does not ask on which map the gatherer is. */
module CrossMap {
  import opened Collision
  import opened World
  import opened Invariants
  import opened Greedy

  function OwnMap(p: PlayerState): string { p.session.mapInfo.id }

  /** An object is taken from a session of another map exactly if the gatherer's own session does not hold it. */
  lemma TakesFromElsewhereIff(s: Gathering, order: seq<string>, e: GatheringEvent) returns (m: string)
    requires LootOk(s.game, s.players) && IsOrder(order, s.game.sessions.Keys) && Grants(s, e)
    ensures Holds(s.game, m, e.item) && GatherOne(s, order, e) == Take(s, m, e.item, e.gatherer)
    ensures m != OwnMap(s.players[e.gatherer]) <==> !Holds(s.game, OwnMap(s.players[e.gatherer]), e.item)
  {
    SearchIsGreedy(s, order, e);
    m :| Holds(s.game, m, e.item) && GatherOne(s, order, e) == Take(s, m, e.item, e.gatherer);
    assert VisibleIffHeldOnce(s.game);
  }

  /** With one active session every gatherer takes loot of its own map only. */
  lemma OneSessionTakesItsOwn(s: Gathering, order: seq<string>, e: GatheringEvent, m: string)
    requires LootOk(s.game, s.players) && SessionsOk(s.game, s.players)
    requires IsOrder(order, s.game.sessions.Keys) && Grants(s, e)
    requires forall n :: n in s.game.sessions ==> n == m
    ensures OwnMap(s.players[e.gatherer]) == m && Holds(s.game, m, e.item)
    ensures GatherOne(s, order, e) == Take(s, m, e.item, e.gatherer)
  {
    var from := TakesFromElsewhereIff(s, order, e);
    assert MembershipOk(s.game, s.players, e.gatherer);
  }
}
