/** What every reachable state satisfies. */
module Invariants {
  import opened Basics
  import opened Roads
  import opened Tokens
  import opened World

  /** AddMap refuses a second map with the same id. */
  ghost predicate ConfigOk(c: Config) {
    forall i, j :: 0 <= i < j < |c.maps| ==> c.maps[i].id != c.maps[j].id
  }

  // ---------------------------------------------------------------- loot

  /** The id of a loot object is its index, and the counter is the number of objects. */
  ghost predicate IdsAreIndices(g: GameState) {
    g.lootNumber == |g.loot| && forall i :: 0 <= i < |g.loot| ==> g.loot[i].id == i
  }

  predicate IsVisible(g: GameState, id: int) {
    0 <= id < |g.loot| && g.loot[id].visible
  }

  ghost predicate Holds(g: GameState, m: string, id: int) {
    m in g.sessions && id in g.sessions[m].loot
  }

  /** A loot object is visible if and only if exactly one session holds it. */
  ghost predicate VisibleIffHeldOnce(g: GameState) {
    && (forall m, id :: Holds(g, m, id) ==> IsVisible(g, id))
    && (forall id :: IsVisible(g, id) ==> exists m :: Holds(g, m, id))
    && (forall m, n, id :: Holds(g, m, id) && Holds(g, n, id) ==> m == n)
  }

  ghost predicate Bagged(players: seq<PlayerState>, i: int, k: int) {
    0 <= i < |players| && 0 <= k < |players[i].dog.bag|
  }

  /** A bag holds copies of objects that are no longer visible. */
  ghost predicate BagsHoldTaken(g: GameState, players: seq<PlayerState>) {
    forall i, k :: Bagged(players, i, k) ==>
      var b := players[i].dog.bag[k];
      0 <= b.id < |g.loot| && g.loot[b.id] == b.(visible := false)
  }

  /** No object is in two bags, nor twice in one. */
  ghost predicate BagsAreDisjoint(players: seq<PlayerState>) {
    forall i, k, j, l ::
      Bagged(players, i, k) && Bagged(players, j, l) &&
      players[i].dog.bag[k].id == players[j].dog.bag[l].id
      ==> i == j && k == l
  }

  ghost predicate BagsWithinCapacity(players: seq<PlayerState>) {
    forall i :: 0 <= i < |players| && 0 <= players[i].dog.capacity ==> |players[i].dog.bag| <= players[i].dog.capacity
  }

  ghost predicate LootOk(g: GameState, players: seq<PlayerState>) {
    && IdsAreIndices(g)
    && VisibleIffHeldOnce(g)
    && BagsHoldTaken(g, players)
    && BagsAreDisjoint(players)
    && BagsWithinCapacity(players)
  }

  // ---------------------------------------------------------------- sessions

  predicate PlaysOn(p: PlayerState, m: string) { p.session.mapInfo.id == m }

  function DogCount(players: seq<PlayerState>, m: string): nat {
    if players == [] then 0
    else DogCount(players[..|players| - 1], m) + if PlaysOn(players[|players| - 1], m) then 1 else 0
  }

  /** A session belongs to a loaded map and has its bag capacity, was not told of any retirement, and has no more
      loot than dogs. */
  ghost predicate SessionOk(g: GameState, players: seq<PlayerState>, m: string)
    requires m in g.sessions
  {
    var s := g.sessions[m];
    && FindMap(g.config.maps, m) == Some(s.mapInfo)
    && s.mapInfo.id == m
    && s.retired == 0
    && s.capacity == (if s.mapInfo.bagCapacity != 0 then s.mapInfo.bagCapacity else g.config.bagCapacity)
    && s.dogs == DogCount(players, m) > 0
    && |s.loot| <= s.dogs
  }

  /** A player's copy of the session dates from the moment the dog was added, and dogs are numbered per session. */
  ghost predicate MembershipOk(g: GameState, players: seq<PlayerState>, i: nat)
    requires i < |players|
  {
    var p := players[i];
    var m := p.session.mapInfo.id;
    && p.id == i
    && m in g.sessions && p.session.mapInfo == g.sessions[m].mapInfo
    && p.dog.id == DogCount(players[..i], m)
    && p.session.dogs == p.dog.id + 1
  }

  /** Without random placement, the loot lying in a session is where new loot is put. */
  ghost predicate PlacementOk(g: GameState) {
    !g.config.random ==>
      forall m, id :: Holds(g, m, id) && IsVisible(g, id) ==>
        g.loot[id].pos == AtCell(g.sessions[m].mapInfo.roads[0].start)
  }

  ghost predicate SessionsOk(g: GameState, players: seq<PlayerState>) {
    && (forall m :: m in g.sessions ==> SessionOk(g, players, m))
    && (forall i :: 0 <= i < |players| ==> MembershipOk(g, players, i))
    && PlacementOk(g)
  }

  // ---------------------------------------------------------------- dogs and records

  /** The rounded cell of the dog is an integer point of a road of its map. */
  ghost predicate OnRoads(p: PlayerState) {
    OnSomeRoad(p.session.mapInfo.roads, CellOf(p.dog.pos))
  }

  predicate WholeSpeed(n: real) { n == n.Floor as real }

  /** A dog stands, or runs along one axis at its nominal speed. */
  predicate SpeedOk(d: DogState) {
    && WholeSpeed(d.nominalSpeed)
    && (d.speed == Coords(0.0, 0.0) ||
        (d.speed.y == 0.0 && Abs(d.speed.x) == Abs(d.nominalSpeed)) ||
        (d.speed.x == 0.0 && Abs(d.speed.y) == Abs(d.nominalSpeed)))
  }

  ghost predicate DogOk(p: PlayerState, retirementTime: real) {
    && OnRoads(p)
    && SpeedOk(p.dog)
    && (retirementTime >= EPSILON && !p.online ==> p.dog.start == p.dog.pos)
  }

  function RecordCount(records: seq<Record>, uuid: int): nat {
    if records == [] then 0
    else RecordCount(records[..|records| - 1], uuid) + if records[|records| - 1].uuid == uuid then 1 else 0
  }

  ghost predicate UuidsDiffer(players: seq<PlayerState>) {
    forall i, j :: 0 <= i < j < |players| ==> players[i].dog.uuid != players[j].dog.uuid
  }

  /** Retired players have exactly one record, the others none. */
  ghost predicate RecordsOk(players: seq<PlayerState>, records: seq<Record>) {
    && UuidsDiffer(players)
    && (forall i :: 0 <= i < |players| ==>
          RecordCount(records, players[i].dog.uuid) == if players[i].online then 0 else 1)
    && (forall r :: r in records ==> exists i :: 0 <= i < |players| && players[i].dog.uuid == r.uuid)
  }

  ghost predicate TokensOk(w: World) {
    Sound(w.tokens) && |w.tokens.issued| == |w.players|
  }

  ghost predicate Inv(w: World) {
    && ConfigOk(w.game.config)
    && LootOk(w.game, w.players)
    && SessionsOk(w.game, w.players)
    && (forall p :: p in w.players ==> DogOk(p, w.game.config.retirementTime))
    && RecordsOk(w.players, w.records)
    && TokensOk(w)
  }

  lemma StartOk(config: Config)
    requires ConfigOk(config)
    ensures Inv(Start(config))
  {
  }
}
