/** The players of the server, in the order they joined. */
module PlayerLists {
  import opened World
  import opened Objects

  function DogsOf(players: seq<Player>): set<Dog> { set p | p in players :: p.dog }

  function PlayerStates(players: seq<Player>): (states: seq<PlayerState>)
    reads players, DogsOf(players)
    ensures |states| == |players|
    ensures forall i :: 0 <= i < |players| ==> states[i] == players[i].State()
  {
    if players == [] then []
    else
      assert forall p :: p in players[..|players| - 1] ==> p in players && p.dog in DogsOf(players);
      PlayerStates(players[..|players| - 1]) + [players[|players| - 1].State()]
  }

  /** No two players share a dog, and a player's id is the index. */
  ghost predicate Numbered(players: seq<Player>) {
    && (forall i :: 0 <= i < |players| ==> players[i].id == i)
    && (forall i, j :: 0 <= i < j < |players| ==> players[i].dog != players[j].dog)
  }

  /** One player, and that player's dog, changed. */
  twostate lemma PlayerUpdated(players: seq<Player>, new k: nat)
    requires k < |players|
    requires forall i :: 0 <= i < |players| && i != k ==> players[i].State() == old(players[i].State())
    ensures PlayerStates(players) == old(PlayerStates(players))[k := players[k].State()]
  {
    hide PlayerStates, Player.State;
  }

  twostate lemma PlayersExtended(players: seq<Player>, new player: Player)
    requires forall p :: p in players ==> p.State() == old(p.State())
    ensures PlayerStates(players + [player]) == old(PlayerStates(players)) + [player.State()]
  {
    hide Player.State;
    forall i | 0 <= i < |players|
      ensures PlayerStates(players)[i] == old(PlayerStates(players))[i]
    {
      assert players[i] in players;
    }
    assert (players + [player])[..|players|] == players;
  }

  class Players {
    var players: seq<Player>
    var ids: nat

    constructor ()
      ensures Valid() && players == []
    {
      players, ids := [], 0;
    }

    ghost predicate Valid()
      reads this
    {
      ids == |players| && Numbered(players)
    }

    method Add(dog: Dog, session: GameSession) returns (player: Player)
      requires Valid() && forall p :: p in players ==> p.dog != dog
      modifies this
      ensures Valid() && fresh(player) && players == old(players) + [player]
      ensures player.dog == dog && player.session == session.State() && player.id == |old(players)| && player.online
      ensures player.State() == PlayerState(|old(players)|, session.State(), dog.State(), 0, true)
      ensures PlayerStates(players) == old(PlayerStates(players)) + [player.State()]
    {
      hide PlayerStates;
      assert forall i :: 0 <= i < |players| ==> players[i] in players;
      player := new Player(session, dog, ids);
      players := players + [player];
      ids := ids + 1;
      PlayersExtended(old(players), player);
    }
  }
}
