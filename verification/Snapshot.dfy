/** Saving the whole game and restoring it into a fresh one. */
module Snapshot {
  import opened Basics
  import opened Tokens
  import opened World

  // ---------------------------------------------------------------- the archive

  /** A bag is saved as a list of loot ids. */
  datatype DogSnapshot = DogSnapshot(name: string, nominalSpeed: real, pos: Coords, start: Coords, speed: Coords,
                                     dir: string,
                                     capacity: int, lastActivity: real, startTime: real, clock: real, uuid: int,
                                     lootIds: seq<int>)

  datatype PlayerSnapshot = PlayerSnapshot(mapId: string, name: string, score: int, online: bool)

  datatype SessionSnapshot = SessionSnapshot(retired: int, lootIds: seq<int>)

  datatype Archive = Archive(timer: real, lootNumber: int, loot: seq<Loot>, tokens: seq<string>, tokenPlayers: seq<int>,
                             players: seq<PlayerSnapshot>, sessions: seq<SessionSnapshot>, dogs: seq<DogSnapshot>)

  function SaveDog(d: DogState): DogSnapshot {
    DogSnapshot(d.name, d.nominalSpeed, d.pos, d.start, d.speed, d.dir, d.capacity, d.lastActivity, d.startTime,
                d.clock, d.uuid,
                seq(|d.bag|, k requires 0 <= k < |d.bag| => d.bag[k].id))
  }

  function SavePlayer(p: PlayerState): PlayerSnapshot {
    PlayerSnapshot(p.session.mapInfo.id, p.dog.name, p.score, p.online)
  }

  /** The maps that have a session, in the order of the map list. */
  function ActiveMaps(maps: seq<MapInfo>, sessions: map<string, SessionState>): seq<string> {
    if maps == [] then []
    else ActiveMaps(maps[..|maps| - 1], sessions) +
         if maps[|maps| - 1].id in sessions then [maps[|maps| - 1].id] else []
  }

  function Active(g: GameState): (active: seq<string>)
  {
    ActiveMaps(g.config.maps, g.sessions)
  }

  /** The players found for the tokens, in token order. */
  function TokenPlayers(t: TokenTable<nat>, n: nat): seq<int>
    requires n <= |t.issued|
  {
    if n == 0 then []
    else TokenPlayers(t, n - 1) + if t.issued[n - 1] in t.owner then [t.owner[t.issued[n - 1]]] else []
  }

  /** The loot ids of a session are listed in whatever order its map has. */
  ghost predicate ListsLoot(g: GameState, listing: seq<seq<int>>) {
    && |listing| == |Active(g)|
    && forall k :: 0 <= k < |listing| && Active(g)[k] in g.sessions ==>
         forall id :: id in listing[k] <==> id in g.sessions[Active(g)[k]].loot
  }

  lemma {:induction false} ActiveMapsHaveSessions(maps: seq<MapInfo>, sessions: map<string, SessionState>)
    ensures forall m ::
              m in ActiveMaps(maps, sessions) <==> m in sessions && exists i :: 0 <= i < |maps| && maps[i].id == m
  {
    if maps != [] {
      var n := |maps| - 1;
      ActiveMapsHaveSessions(maps[..n], sessions);
      forall m | m in sessions && exists i :: 0 <= i < |maps| && maps[i].id == m
        ensures m in ActiveMaps(maps, sessions)
      {
        var i :| 0 <= i < |maps| && maps[i].id == m;
        assert i < n ==> maps[..n][i].id == m;
      }
      forall m | m in ActiveMaps(maps, sessions)
        ensures m in sessions && exists i :: 0 <= i < |maps| && maps[i].id == m
      {
        if m in ActiveMaps(maps[..n], sessions) {
          var i :| 0 <= i < n && maps[..n][i].id == m;
          assert maps[i].id == m;
        } else {
          assert maps[n].id == m;
        }
      }
    }
  }

  function SaveSessions(g: GameState, listing: seq<seq<int>>): (saved: seq<SessionSnapshot>)
    requires ListsLoot(g, listing)
    ensures |saved| == |Active(g)|
  {
    ActiveMapsHaveSessions(g.config.maps, g.sessions);
    seq(|listing|, k requires 0 <= k < |listing| => SessionSnapshot(g.sessions[Active(g)[k]].retired, listing[k]))
  }

  function Save(w: World, listing: seq<seq<int>>): Archive
    requires ListsLoot(w.game, listing)
  {
    Archive(w.game.timer, w.game.lootNumber, w.game.loot, w.tokens.issued, TokenPlayers(w.tokens, |w.tokens.issued|),
            seq(|w.players|, i requires 0 <= i < |w.players| => SavePlayer(w.players[i])),
            SaveSessions(w.game, listing),
            seq(|w.players|, i requires 0 <= i < |w.players| => SaveDog(w.players[i].dog)))
  }

  // ---------------------------------------------------------------- restoring

  /** The random values of a restore: a placeholder UUID and a location for each dog, and the places of session loot. */
  datatype RestoreDraws = RestoreDraws(uuids: nat -> int, spots: nat -> SpotDraw, lootSpots: nat -> SpotDraw)

  /** The timer goes through an int. */
  function RestoreGame(g: GameState, a: Archive): GameState {
    g.(timer := Trunc(a.timer) as real, lootNumber := a.lootNumber, loot := a.loot)
  }

  function RestorePlayer(w: World, s: PlayerSnapshot, d: RestoreDraws): World {
    match FindMap(w.game.config.maps, s.mapId)
    case None => w
    case Some(m) =>
      var n := |w.players|;
      var p := NewPlayer(w.game, n, m, s.name, d.uuids(n), d.spots(n));
      w.(game := EnterGame(w.game, m), players := w.players + [p.(score := p.score + s.score, online := s.online)])
  }

  function RestorePlayers(w: World, snaps: seq<PlayerSnapshot>, d: RestoreDraws): World {
    if snaps == [] then w else RestorePlayer(RestorePlayers(w, snaps[..|snaps| - 1], d), snaps[|snaps| - 1], d)
  }

  /** AddNewLoot: the object is placed anew, and the session shares it. */
  function AddNewLoot(g: GameState, m: string, id: int, spot: SpotDraw): GameState
    requires m in g.sessions
  {
    if !(0 <= id < |g.loot|) then g
    else
      var s := g.sessions[m];
      g.(loot := g.loot[id := g.loot[id].(pos := AtCell(Location(s.mapInfo, g.config.random, spot)))],
         sessions := g.sessions[m := s.(loot := s.loot + {id})])
  }

  function AddNewLoots(g: GameState, m: string, ids: seq<int>, spots: nat -> SpotDraw): (h: GameState)
    requires m in g.sessions
    ensures h.sessions.Keys == g.sessions.Keys
  {
    if ids == [] then g
    else AddNewLoot(AddNewLoots(g, m, ids[..|ids| - 1], spots), m, ids[|ids| - 1], spots(|ids| - 1))
  }

  function RestoreSession(g: GameState, m: string, s: SessionSnapshot, spots: nat -> SpotDraw): (h: GameState)
    requires m in g.sessions
    ensures h.sessions.Keys == g.sessions.Keys
  {
    var told := g.(sessions := g.sessions[m := g.sessions[m].(retired := s.retired)]);
    AddNewLoots(told, m, s.lootIds, spots)
  }

  /** The loop over the maps. Its index is declared inside the loop, so each session reads the first entry. */
  function RestoreSessions(g: GameState, maps: seq<MapInfo>, saved: seq<SessionSnapshot>,
                           spots: nat -> SpotDraw): (h: GameState)
    ensures h.sessions.Keys == g.sessions.Keys
  {
    if maps == [] then g
    else
      var h := RestoreSessions(g, maps[..|maps| - 1], saved, spots);
      var m := maps[|maps| - 1].id;
      if m in h.sessions && saved != [] then RestoreSession(h, m, saved[0], spots) else h
  }

  function TakeLoot(d: DogState, loot: Loot): DogState {
    if HasRoom(d) then d.(bag := d.bag + [loot]) else d
  }

  function TakeAll(d: DogState, ids: seq<int>, loot: seq<Loot>): DogState {
    if ids == [] then d
    else
      var e, id := TakeAll(d, ids[..|ids| - 1], loot), ids[|ids| - 1];
      if 0 <= id < |loot| then TakeLoot(e, loot[id]) else e
  }

  /** The saved velocity is not used: SetDirection sets it anew. */
  function RestoreDog(d: DogState, s: DogSnapshot, loot: seq<Loot>): DogState {
    var placed := SetDirection(d.(name := s.name, pos := s.pos, start := s.start, nominalSpeed := s.nominalSpeed),
                               s.dir);
    TakeAll(placed.(capacity := s.capacity, lastActivity := s.lastActivity, startTime := s.startTime, clock := s.clock,
                    uuid := s.uuid),
            s.lootIds, loot)
  }

  function RestoreDogs(players: seq<PlayerState>, dogs: seq<DogSnapshot>, loot: seq<Loot>): (after: seq<PlayerState>)
    ensures |after| == |players|
    ensures forall i :: 0 <= i < |players| ==>
              after[i] ==
              if i < |dogs| then players[i].(dog := RestoreDog(players[i].dog, dogs[i], loot)) else players[i]
  {
    seq(|players|, i requires 0 <= i < |players| =>
      if i < |dogs| then players[i].(dog := RestoreDog(players[i].dog, dogs[i], loot)) else players[i])
  }

  function RestoreTokens(t: TokenTable<nat>, tokens: seq<string>, owners: seq<int>, n: nat): TokenTable<nat>
    requires n <= |tokens|
  {
    if n == 0 then t
    else
      var before := RestoreTokens(t, tokens, owners, n - 1);
      if n - 1 < |owners| && owners[n - 1] >= 0 then Issue(before, tokens[n - 1], owners[n - 1]) else before
  }

  function Restore(w: World, a: Archive, d: RestoreDraws): World {
    var v := RestorePlayers(w.(game := RestoreGame(w.game, a)), a.players, d);
    var g := RestoreSessions(v.game, v.game.config.maps, a.sessions, d.lootSpots);
    v.(game := g, players := RestoreDogs(v.players, a.dogs, g.loot),
       tokens := RestoreTokens(v.tokens, a.tokens, a.tokenPlayers, |a.tokens|))
  }

  /** A fresh server with the same maps and the same database. */
  function Fresh(w: World): World { Start(w.game.config).(records := w.records) }
}
