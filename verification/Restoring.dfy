/** Restoring an archive into the objects of a fresh server, as Snapshot says for values. */
module Restoring {
  import opened Basics
  import opened Tokens
  import opened World
  import opened Objects
  import opened Games
  import opened PlayerLists
  import opened Applications
  import opened Invariants
  import opened Snapshot
  import opened RoundTrip
  import S = Snapshot
  import W = World

  // ---------------------------------------------------------------- dogs

  method RestoreBag(dog: Dog, ids: seq<int>, loot: seq<LootObject>)
    modifies dog
    ensures dog.State() == TakeAll(old(dog.State()), ids, Values(loot))
  {
    hide Values;
    for k := 0 to |ids|
      invariant dog.State() == TakeAll(old(dog.State()), ids[..k], Values(loot))
    {
      assert ids[..k + 1][..k] == ids[..k];
      if 0 <= ids[k] < |loot| {
        var taken := dog.TakeLoot(loot[ids[k]]);
      }
    }
    assert ids[..|ids|] == ids;
  }

  method RestoreMotion(dog: Dog, s: DogSnapshot)
    modifies dog
    ensures dog.State() ==
            W.SetDirection(old(dog.State()).(name := s.name, pos := s.pos, start := s.start,
                                             nominalSpeed := s.nominalSpeed),
                           s.dir)
  {
    hide W.SetDirection;
    dog.name, dog.pos, dog.start, dog.nominalSpeed := s.name, s.pos, s.start, s.nominalSpeed;
    dog.SetDirection(s.dir);
  }

  method RestoreDog(dog: Dog, s: DogSnapshot, loot: seq<LootObject>)
    modifies dog
    ensures dog.State() == S.RestoreDog(old(dog.State()), s, Values(loot))
  {
    hide Values, TakeAll, W.SetDirection;
    RestoreMotion(dog, s);
    dog.capacity, dog.lastActivity, dog.startTime, dog.clock, dog.uuid :=
      s.capacity, s.lastActivity, s.startTime, s.clock, s.uuid;
    RestoreBag(dog, s.lootIds, loot);
  }

  // ---------------------------------------------------------------- loot

  method RestoreLootObject(s: Loot) returns (object_: LootObject)
    ensures fresh(object_) && object_.Value() == s
  {
    object_ := new LootObject(s.id, s.kind);
    object_.SetPosition(s.pos);
    if !s.visible {
      object_.SetInvisible();
    }
  }

  method RestoreLoot(saved: seq<Loot>) returns (loot: seq<LootObject>)
    ensures forall i :: 0 <= i < |loot| ==> fresh(loot[i])
    ensures Values(loot) == saved
  {
    hide Values;
    loot := [];
    for k := 0 to |saved|
      invariant forall i :: 0 <= i < |loot| ==> fresh(loot[i])
      invariant |loot| == k && forall i :: 0 <= i < k ==> loot[i].Value() == saved[i]
    {
      var object_ := RestoreLootObject(saved[k]);
      loot := loot + [object_];
    }
    assert Values(loot) == saved;
  }

  /** The whole loot list is replaced: nothing of a fresh game refers to it yet. */
  method RestoreGame(game: Game, a: Archive)
    requires game.Valid() && game.sessions == map[]
    requires a.lootNumber == |a.loot| && forall i :: 0 <= i < |a.loot| ==> a.loot[i].id == i
    modifies game`timer, game`lootNumber, game`loot
    ensures game.Valid() && forall i :: 0 <= i < |game.loot| ==> fresh(game.loot[i])
    ensures game.State() == S.RestoreGame(old(game.State()), a)
  {
    hide Values, States;
    game.timer := Trunc(a.timer) as real;
    game.lootNumber := a.lootNumber;
    game.loot := RestoreLoot(a.loot);
    assert forall i :: 0 <= i < |game.loot| ==> game.loot[i].Value() == Values(game.loot)[i];
  }

  // ---------------------------------------------------------------- sessions

  method AddNewLoot(game: Game, m: string, id: int, spot: SpotDraw)
    requires game.Valid() && m in game.sessions
    modifies game.loot, game.sessions[m]
    ensures game.Valid()
    ensures game.State() == S.AddNewLoot(old(game.State()), m, id, spot)
  {
    hide Values, States, Location;
    var session := game.sessions[m];
    assert session.State().mapInfo == session.mapInfo;
    if 0 <= id < |game.loot| {
      session.AddNewLoot(game.loot[id], id, spot);
      ValuesUpdated(game.loot, id);
    } else {
      ValuesSame(game.loot);
    }
    StatesUpdated(game.sessions, game.sessions, m);
  }

  method AddNewLoots(game: Game, m: string, ids: seq<int>, spots: nat -> SpotDraw)
    requires game.Valid() && m in game.sessions
    modifies game.loot, game.sessions[m]
    ensures game.Valid()
    ensures game.State() == S.AddNewLoots(old(game.State()), m, ids, spots)
  {
    hide Game.State, Game.Valid, S.AddNewLoot;
    game.StateShape();
    for k := 0 to |ids|
      invariant game.Valid()
      invariant game.State() == S.AddNewLoots(old(game.State()), m, ids[..k], spots)
    {
      AddNewLoot(game, m, ids[k], spots(k));
      assert ids[..k + 1][..k] == ids[..k];
    }
    assert ids[..|ids|] == ids;
  }

  method TellRetired(game: Game, m: string, retired: int)
    requires game.Valid() && m in game.sessions
    modifies game.sessions[m]
    ensures game.Valid()
    ensures game.State() == var g := old(game.State());
                            g.(sessions := g.sessions[m := g.sessions[m].(retired := retired)])
  {
    hide Values, States;
    game.sessions[m].retired := retired;
    ValuesSame(game.loot);
    StatesUpdated(game.sessions, game.sessions, m);
  }

  method RestoreSession(game: Game, m: string, s: SessionSnapshot, spots: nat -> SpotDraw)
    requires game.Valid() && m in game.sessions
    modifies game.loot, game.sessions[m]
    ensures game.Valid()
    ensures game.State() == S.RestoreSession(old(game.State()), m, s, spots)
  {
    hide Game.State, Game.Valid, S.AddNewLoots;
    game.StateShape();
    TellRetired(game, m, s.retired);
    AddNewLoots(game, m, s.lootIds, spots);
  }

  /** The loop over the maps; its index is declared inside, so the first entry is read every time. */
  method RestoreSessions(game: Game, saved: seq<SessionSnapshot>, spots: nat -> SpotDraw)
    requires game.Valid()
    modifies game.loot, game.sessions.Values
    ensures game.Valid()
    ensures game.State() == S.RestoreSessions(old(game.State()), game.config.maps, saved, spots)
  {
    hide Game.State, Game.Valid, S.RestoreSession;
    game.StateShape();
    var maps := game.config.maps;
    for k := 0 to |maps|
      invariant game.Valid()
      invariant game.State() == S.RestoreSessions(old(game.State()), maps[..k], saved, spots)
    {
      assert maps[..k + 1][..k] == maps[..k];
      var id := 0;
      if maps[k].id in game.sessions && id < |saved| {
        RestoreSession(game, maps[k].id, saved[id], spots);
        id := id + 1;
      }
    }
    assert maps[..|maps|] == maps;
  }

  // ---------------------------------------------------------------- players

  method RestorePlayer(app: Application, s: PlayerSnapshot, d: RestoreDraws) returns (player: Player)
    requires app.Valid() && FindMap(app.game.config.maps, s.mapId).Some?
    modifies app.game`sessions, app.game.sessions.Values, app.players
    ensures app.Valid() && app.game.Entered(old(app.game.sessions))
    ensures fresh(player) && fresh(player.dog) && app.players.players == old(app.players.players) + [player]
    ensures app.State() == S.RestorePlayer(old(app.State()), s, d)
  {
    hide PlayerStates, Game.State, Application.Valid, NewPlayer, EnterGame, FindMap, ById;
    app.game.StateShape();
    FindMapById(app.game.config.maps, s.mapId);
    var n := |app.players.players|;
    player := app.Enter(FindMap(app.game.config.maps, s.mapId).value, s.name, d.uuids(n), d.spots(n));
    SetScore(app, n, s);
  }

  method SetScore(app: Application, k: nat, s: PlayerSnapshot)
    requires app.Valid() && k < |app.players.players| && app.players.players[k].online
    modifies app.players.players[k]
    ensures app.Valid()
    ensures PlayerStates(app.players.players) ==
            var p := old(PlayerStates(app.players.players));
            p[k := p[k].(score := p[k].score + s.score, online := s.online)]
  {
    hide PlayerStates;
    app.players.players[k].AddValue(s.score);
    if !s.online {
      app.players.players[k].SetOffline();
    }
    PlayerUpdated(app.players.players, k);
  }

  /** Every player of the archive joins anew; a fresh server has only new players afterwards. */
  method RestorePlayers(app: Application, snaps: seq<PlayerSnapshot>, d: RestoreDraws)
    requires app.Valid() && app.players.players == []
    requires forall s :: s in snaps ==> FindMap(app.game.config.maps, s.mapId).Some?
    modifies app.game`sessions, app.game.sessions.Values, app.players
    ensures app.Valid() && app.game.Entered(old(app.game.sessions))
    ensures |app.players.players| == |snaps|
    ensures forall p :: p in app.players.players ==> fresh(p) && fresh(p.dog)
    ensures app.State() == S.RestorePlayers(old(app.State()), snaps, d)
  {
    hide Application.Valid, Application.State, FindMap, S.RestorePlayer;
    for k := 0 to |snaps|
      invariant app.Valid() && app.game.Entered(old(app.game.sessions))
      invariant |app.players.players| == k
      invariant forall p :: p in app.players.players ==> fresh(p) && fresh(p.dog)
      invariant app.State() == S.RestorePlayers(old(app.State()), snaps[..k], d)
    {
      assert snaps[..k + 1][..k] == snaps[..k];
      assert snaps[k] in snaps;
      var player := RestorePlayer(app, snaps[k], d);
    }
    assert snaps[..|snaps|] == snaps;
  }

  method RestoreDogs(app: Application, dogs: seq<DogSnapshot>)
    requires app.Valid()
    modifies DogsOf(app.players.players)
    ensures app.Valid()
    ensures PlayerStates(app.players.players) ==
            S.RestoreDogs(old(PlayerStates(app.players.players)), dogs, Values(app.game.loot))
  {
    hide PlayerStates, Values, S.RestoreDog;
    var players, loot := app.players.players, app.game.loot;
    for k := 0 to |players|
      invariant app.Valid()
      invariant forall i :: 0 <= i < |players| ==>
                  players[i].State() ==
                  if i < k && i < |dogs| then
                    old(players[i].State()).(dog := S.RestoreDog(old(players[i].dog.State()), dogs[i], Values(loot)))
                  else old(players[i].State())
    {
      if k < |dogs| {
        RestoreDog(players[k].dog, dogs[k], loot);
      }
    }
  }

  // ---------------------------------------------------------------- tokens

  method RestoreTokens(app: Application, tokens: seq<string>, owners: seq<int>)
    requires app.Valid() && forall o :: o in owners ==> 0 <= o < |app.players.players|
    modifies app.tokens
    ensures app.Valid()
    ensures ById(app.tokens.Table()) == S.RestoreTokens(old(ById(app.tokens.Table())), tokens, owners, |tokens|)
  {
    hide ById, Game.Valid;
    for k := 0 to |tokens|
      invariant app.Valid()
      invariant ById(app.tokens.Table()) == S.RestoreTokens(old(ById(app.tokens.Table())), tokens, owners, k)
    {
      if k < |owners| {
        assert owners[k] in owners;
        var player := app.players.players[owners[k]];
        IssueById(app.tokens.Table(), tokens[k], player);
        app.tokens.AddPlayerWithToken(tokens[k], player);
      }
    }
  }

  // ---------------------------------------------------------------- the whole server

  /** An archive whose references are in range, as every saved one is. */
  ghost predicate Readable(config: Config, a: Archive) {
    && a.lootNumber == |a.loot| && (forall i :: 0 <= i < |a.loot| ==> a.loot[i].id == i)
    && (forall s :: s in a.players ==> FindMap(config.maps, s.mapId).Some?)
    && (forall o :: o in a.tokenPlayers ==> 0 <= o < |a.players|)
  }

  /** What is saved in a reachable state can be restored. */
  lemma SavedIsReadable(w: World, listing: seq<seq<int>>)
    requires Inv(w) && ListsLoot(w.game, listing)
    ensures Readable(w.game.config, Save(w, listing))
  {
    hide Sound, RecordsOk, DogOk, FindMap, ListsLoot;
    var a := Save(w, listing);
    TokenPlayersCount(w.tokens, |w.tokens.issued|);
    forall s | s in a.players
      ensures FindMap(w.game.config.maps, s.mapId).Some?
    {
      var i :| 0 <= i < |a.players| && a.players[i] == s;
      assert MembershipOk(w.game, w.players, i);
      assert SessionOk(w.game, w.players, s.mapId);
    }
  }

  method RestoreItems(app: Application, a: Archive)
    requires app.Valid() && app.game.sessions == map[] && Readable(app.game.config, a)
    modifies app.game`timer, app.game`lootNumber, app.game`loot
    ensures app.Valid() && forall i :: 0 <= i < |app.game.loot| ==> fresh(app.game.loot[i])
    ensures app.State() == old(app.State()).(game := S.RestoreGame(old(app.State()).game, a))
  {
    hide Game.State, Game.Valid, PlayerStates, ById;
    RestoreGame(app.game, a);
  }

  method RestoreFloors(app: Application, saved: seq<SessionSnapshot>, spots: nat -> SpotDraw)
    requires app.Valid()
    modifies app.game.loot, app.game.sessions.Values
    ensures app.Valid()
    ensures app.State() == var v := old(app.State());
                           v.(game := S.RestoreSessions(v.game, app.game.config.maps, saved, spots))
  {
    hide Game.State, Game.Valid, PlayerStates, ById, S.RestoreSessions;
    RestoreSessions(app.game, saved, spots);
  }

  method RestoreBelongings(app: Application, a: Archive)
    requires app.Valid() && forall o :: o in a.tokenPlayers ==> 0 <= o < |app.players.players|
    modifies DogsOf(app.players.players), app.tokens
    ensures app.Valid()
    ensures app.State() == var v := old(app.State());
                           v.(players := S.RestoreDogs(v.players, a.dogs, v.game.loot),
                              tokens := S.RestoreTokens(v.tokens, a.tokens, a.tokenPlayers, |a.tokens|))
  {
    hide PlayerStates, ById, S.RestoreTokens, S.RestoreDogs, Application.Valid, Values, States;
    RestoreDogs(app, a.dogs);
    RestoreTokens(app, a.tokens, a.tokenPlayers);
  }

  method Restore(app: Application, a: Archive, d: RestoreDraws)
    requires app.Valid() && app.game.sessions == map[] && app.players.players == []
    requires Readable(app.game.config, a)
    modifies app.game`timer, app.game`lootNumber, app.game`loot, app.game`sessions, app.players, app.tokens
    ensures app.Valid()
    ensures app.State() == S.Restore(old(app.State()), a, d)
  {
    hide Application.Valid, Application.State, S.RestoreGame, S.RestorePlayers, S.RestoreSessions, S.RestoreDogs,
         S.RestoreTokens;
    RestoreItems(app, a);
    RestorePlayers(app, a.players, d);
    app.StateShape();
    ghost var sessions := app.game.sessions;
    assert forall m :: m in sessions ==> fresh(sessions[m]);
    RestoreFloors(app, a.sessions, d.lootSpots);
    RestoreBelongings(app, a);
  }
}
