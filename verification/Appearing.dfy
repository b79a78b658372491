/** What appears, field by field: the dog of a joiner, and the loot of a tick. */
module Appearing {
  import opened Basics
  import opened Roads
  import opened Tokens
  import opened LootGenerator
  import opened World
  import opened Invariants
  import opened Preservation

  // ---------------------------------------------------------------- places

  /** The draws of a spot are in the ranges from which the original draws them. */
  predicate SpotInRange(roads: seq<Road>, draw: SpotDraw) {
    && draw.road < |roads|
    && match roads[draw.road]
       case Horizontal(s, ex) => draw.x <= (if s.x <= ex then ex - s.x else s.x - ex) && draw.y == 0
       case Vertical(s, ey) => draw.x == 0 && draw.y <= (if s.y <= ey then ey - s.y else s.y - ey)
  }

  /** The drawn point of the drawn road, counted from its smaller end. */
  function DrawnPoint(roads: seq<Road>, draw: SpotDraw): Coords
    requires SpotInRange(roads, draw)
  {
    match roads[draw.road]
    case Horizontal(s, ex) => Coords(((if s.x <= ex then s.x else ex) + draw.x) as real, s.y as real)
    case Vertical(s, ey) => Coords(s.x as real, ((if s.y <= ey then s.y else ey) + draw.y) as real)
  }

  /** The place is the start of the first road, or with random placement the drawn point of the drawn road. */
  predicate Placed(m: MapInfo, random: bool, draw: SpotDraw, at: Coords) {
    && (!random ==> at == Coords(m.roads[0].start.x as real, m.roads[0].start.y as real))
    && (random && SpotInRange(m.roads, draw) ==> at == DrawnPoint(m.roads, draw))
  }

  lemma LocationIsPlaced(m: MapInfo, random: bool, draw: SpotDraw)
    ensures Placed(m, random, draw, AtCell(Location(m, random, draw)))
  {
  }

  // ---------------------------------------------------------------- joiners

  /** Somebody joins exactly if some loaded map has the id asked for and the name is not empty; otherwise nothing
      happens. */
  lemma JoinAdmitsIff(w: World, name: string, mapId: string, uuid: int, spot: SpotDraw, draws: seq<Draws>)
    requires DrawsFresh(w.tokens, draws)
    ensures var v := Join(w, name, mapId, uuid, spot, draws);
            && (|v.players| == |w.players| + 1 <==>
                name != "" && exists m :: m in w.game.config.maps && m.id == mapId)
            && (|v.players| == |w.players| + 1 || v == w)
  {
    hide EnterGame, NewPlayer, FirstFresh, FindMap;
    FindMapById(w.game.config.maps, mapId);
  }

  /** The new player stands on the map asked for, with a dog numbered among those of the map, the speed of the map
      without its fraction, and an empty bag of the map's capacity, or the game's if the map has none. */
  lemma JoinerIs(w: World, name: string, m: MapInfo, uuid: int, spot: SpotDraw, draws: seq<Draws>)
    requires Inv(w) && DrawsFresh(w.tokens, draws) && m in w.game.config.maps && name != ""
    ensures var c := w.game.config;
            var v := Join(w, name, m.id, uuid, spot, draws);
            |v.players| == |w.players| + 1 &&
            var p := v.players[|w.players|];
            && v.players == w.players + [p] && v.records == w.records && v.game.loot == w.game.loot
            && p.id == |w.players| && p.score == 0 && p.online
            && p.session.mapInfo == m && p.session.dogs == DogCount(w.players, m.id) + 1
            && p.dog == DogState(name, DogCount(w.players, m.id), uuid, Trunc(m.dogSpeed) as real,
                                 p.dog.pos, p.dog.pos, Coords(0.0, 0.0), "U", [],
                                 if m.bagCapacity != 0 then m.bagCapacity else c.bagCapacity, 0.0, 0.0, 0.0)
            && Placed(m, c.random, spot, p.dog.pos)
            && v.tokens.issued[..|w.players|] == w.tokens.issued && |v.tokens.issued| == |w.players| + 1
  {
    hide LootOk, DogOk, RecordsOk, Location, FirstFresh, FindMap, Trunc, Placed;
    FindMapById(w.game.config.maps, m.id);
    SameIdSameMap(w.game.config, m, FindMap(w.game.config.maps, m.id).value);
    LocationIsPlaced(m, w.game.config.random, spot);
    if m.id in w.game.sessions {
      assert SessionOk(w.game, w.players, m.id);
    } else {
      NobodyWithoutSession(w.game, w.players, w.players, m.id);
    }
  }

  lemma SameIdSameMap(c: Config, m: MapInfo, n: MapInfo)
    requires ConfigOk(c) && m in c.maps && n in c.maps && m.id == n.id
    ensures m == n
  {
  }

  lemma {:induction false} NobodyWithoutSession(g: GameState, players: seq<PlayerState>, some: seq<PlayerState>,
                                                m: string)
    requires SessionsOk(g, players) && m !in g.sessions && some <= players
    ensures DogCount(some, m) == 0
  {
    if some != [] {
      NobodyWithoutSession(g, players, some[..|some| - 1], m);
      assert MembershipOk(g, players, |some| - 1);
    }
  }

  // ---------------------------------------------------------------- loot

  /** With a value table, the type is the draw, and every type of the table can be drawn. */
  lemma LootKindIs(m: MapInfo, draw: nat)
    requires 0 < |m.lootValues| <= 0x1_0000_0000
    ensures 0 <= LootKind(m, draw) < |m.lootValues|
    ensures draw < |m.lootValues| ==> LootKind(m, draw) == draw
  {
  }

  /** The j-th new object of a session. */
  predicate IsDrawn(loot: Loot, id: int, m: MapInfo, random: bool, draw: LootDraw) {
    && loot.id == id && loot.visible
    && (draw.kind < |m.lootValues| <= 0x1_0000_0000 ==> loot.kind == draw.kind)
    && Placed(m, random, draw.spot, loot.pos)
  }

  /** What n new objects in one session change, and what they leave alone. */
  ghost predicate Added(g: GameState, h: GameState, mapId: string, items: nat -> LootDraw, n: nat)
    requires mapId in g.sessions
  {
    && h == g.(loot := h.loot, lootNumber := g.lootNumber + n, sessions := h.sessions)
    && |h.loot| == |g.loot| + n && h.loot[..|g.loot|] == g.loot
    && (forall j :: 0 <= j < n ==>
          IsDrawn(h.loot[|g.loot| + j], g.lootNumber + j, g.sessions[mapId].mapInfo, g.config.random, items(j)))
    && h.sessions == g.sessions[mapId := g.sessions[mapId].(
          loot := g.sessions[mapId].loot + IdsFrom(g.lootNumber, n))]
  }

  function IdsFrom(first: int, n: nat): set<int> {
    if n == 0 then {} else IdsFrom(first, n - 1) + {first + n - 1}
  }

  /** The object that AddLoot appends. */
  lemma AddLootAppends(g: GameState, mapId: string, item: LootDraw)
    requires mapId in g.sessions
    ensures var h := AddLoot(g, mapId, item);
            |h.loot| == |g.loot| + 1 &&
            IsDrawn(h.loot[|g.loot|], g.lootNumber, g.sessions[mapId].mapInfo, g.config.random, item)
  {
    hide Location, Placed, LootKind;
    var s := g.sessions[mapId];
    LocationIsPlaced(s.mapInfo, g.config.random, item.spot);
    if 0 < |s.mapInfo.lootValues| <= 0x1_0000_0000 {
      LootKindIs(s.mapInfo, item.kind);
    }
  }

  lemma AddedOneMore(g: GameState, h: GameState, mapId: string, items: nat -> LootDraw, n: nat)
    requires mapId in g.sessions && Added(g, h, mapId, items, n)
    ensures Added(g, AddLoot(h, mapId, items(n)), mapId, items, n + 1)
  {
    hide Location, IsDrawn, LootKind;
    AddLootAppends(h, mapId, items(n));
    var f, s := AddLoot(h, mapId, items(n)), g.sessions[mapId];
    assert s.loot + IdsFrom(g.lootNumber, n + 1) == s.loot + IdsFrom(g.lootNumber, n) + {g.lootNumber + n};
    assert f.sessions == h.sessions[mapId := s.(loot := s.loot + IdsFrom(g.lootNumber, n + 1))];
    assert f.loot[..|h.loot|] == h.loot;
  }

  lemma {:induction false} AddLootsAdds(g: GameState, mapId: string, items: nat -> LootDraw, n: nat)
    requires mapId in g.sessions
    ensures Added(g, AddLoots(g, mapId, items, n), mapId, items, n)
  {
    hide AddLoot, IsDrawn;
    if n == 0 {
      var s := g.sessions[mapId];
      assert s.loot + IdsFrom(g.lootNumber, n) == s.loot;
      assert g.sessions[mapId := s] == g.sessions;
    } else {
      AddLootsAdds(g, mapId, items, n - 1);
      AddedOneMore(g, AddLoots(g, mapId, items, n - 1), mapId, items, n - 1);
    }
  }

  /** The integer nearest to the weighted shortage, halves counting up. */
  predicate NearestShare(n: int, s: SessionState, weight: real) {
    n as real - 0.5 <= (s.dogs - |s.loot|) as real * weight < n as real + 0.5
  }

  lemma LootersAreDogs(s: SessionState, weight: real)
    requires s.retired == 0 && |s.loot| <= s.dogs < 0x1_0000_0000 && 0.0 <= weight <= 1.0
    ensures NearestShare(Generated(|s.loot|, s.Looters(), weight), s, weight)
  {
    assert s.Looters() == s.dogs;
  }

  /** The loot that appears in a session in a tick: the nearest integer to the weighted shortage, with halves counting
      up, every object as it was drawn; and the generator's clock starts again exactly if something appears. */
  lemma SessionGetsShare(g: GameState, players: seq<PlayerState>, ms: int, draw: SessionDraw)
    requires SessionsOk(g, players) && draw.mapId in g.sessions && g.sessions[draw.mapId].dogs < 0x1_0000_0000
    requires 0.0 <= draw.weight <= 1.0
    ensures var h, s := GenerateFor(g, ms, draw), g.sessions[draw.mapId];
            |h.loot| >= |g.loot| && |s.loot| <= s.dogs &&
            var n := |h.loot| - |g.loot|;
            && NearestShare(n, s, draw.weight)
            && h.lootClock == (if n == 0 then g.lootClock + ms else 0)
            && Added(g.(lootClock := h.lootClock), h, draw.mapId, draw.items, n)
  {
    hide AddLoots, Added, NearestShare, Generated;
    assert SessionOk(g, players, draw.mapId);
    var s := g.sessions[draw.mapId];
    LootersAreDogs(s, draw.weight);
    var n := Generated(|s.loot|, s.Looters(), draw.weight);
    var f := g.(lootClock := if n > 0 then 0 else g.lootClock + ms);
    AddLootsAdds(f, draw.mapId, draw.items, n);
    AddedCount(f, AddLoots(f, draw.mapId, draw.items, n), draw.mapId, draw.items, n);
  }

  lemma AddedCount(g: GameState, h: GameState, mapId: string, items: nat -> LootDraw, n: nat)
    requires mapId in g.sessions && Added(g, h, mapId, items, n)
    ensures |h.loot| == |g.loot| + n && h.lootClock == g.lootClock
  {
  }

  // ---------------------------------------------------------------- all sessions of a tick

  /** The session gains its share of loot, and nothing else of it changes. */
  ghost predicate GainsShare(s: SessionState, t: SessionState, weight: real) {
    && t == s.(loot := t.loot) && s.loot <= t.loot
    && NearestShare(|t.loot| - |s.loot|, s, weight)
  }

  lemma OneMore(held: set<int>, ids: set<int>, id: int)
    requires id !in held && id !in ids
    ensures |held + (ids + {id})| == |held + ids| + 1
  {
    assert held + (ids + {id}) == held + ids + {id};
  }

  lemma {:induction false} IdsAreNew(first: int, n: nat)
    ensures forall id :: id in IdsFrom(first, n) <==> first <= id < first + n
  {
    if n > 0 {
      IdsAreNew(first, n - 1);
    }
  }

  lemma {:induction false} NewIdsCount(held: set<int>, first: int, n: nat)
    requires forall id :: id in held ==> id < first
    ensures |held + IdsFrom(first, n)| == |held| + n
  {
    if n == 0 {
      assert held + IdsFrom(first, n) == held;
    } else {
      NewIdsCount(held, first, n - 1);
      IdsAreNew(first, n - 1);
      OneMore(held, IdsFrom(first, n - 1), first + n - 1);
    }
  }

  lemma ThisSessionGains(g: GameState, players: seq<PlayerState>, ms: int, draw: SessionDraw)
    requires LootOk(g, players) && SessionsOk(g, players)
    requires draw.mapId in g.sessions && g.sessions[draw.mapId].dogs < 0x1_0000_0000 && 0.0 <= draw.weight <= 1.0
    ensures var h := GenerateFor(g, ms, draw);
            draw.mapId in h.sessions && GainsShare(g.sessions[draw.mapId], h.sessions[draw.mapId], draw.weight)
  {
    hide GenerateFor, NearestShare, SessionsOk, BagsHoldTaken, BagsAreDisjoint, BagsWithinCapacity, IsDrawn;
    var h, s := GenerateFor(g, ms, draw), g.sessions[draw.mapId];
    SessionGetsShare(g, players, ms, draw);
    var n := |h.loot| - |g.loot|;
    forall id | id in s.loot
      ensures id < g.lootNumber
    {
      assert Holds(g, draw.mapId, id);
    }
    NewIdsCount(s.loot, g.lootNumber, n);
  }

  lemma OtherSessionsStay(g: GameState, ms: int, draw: SessionDraw, m: string)
    requires m in g.sessions && m != draw.mapId
    ensures m in GenerateFor(g, ms, draw).sessions && GenerateFor(g, ms, draw).sessions[m] == g.sessions[m]
  {
    if draw.mapId in g.sessions {
      var s := g.sessions[draw.mapId];
      var n := Generated(|s.loot|, s.Looters(), draw.weight);
      AddLootsAdds(g.(lootClock := if n > 0 then 0 else g.lootClock + ms), draw.mapId, draw.items, n);
    }
  }

  lemma {:induction false} UnplannedSessionStays(g: GameState, ms: int, plan: seq<SessionDraw>, m: string)
    requires m in g.sessions && forall i :: 0 <= i < |plan| ==> plan[i].mapId != m
    ensures var h := GenerateLoot(g, ms, plan); m in h.sessions && h.sessions[m] == g.sessions[m]
  {
    hide GenerateFor;
    if plan != [] {
      UnplannedSessionStays(g, ms, plan[..|plan| - 1], m);
      OtherSessionsStay(GenerateLoot(g, ms, plan[..|plan| - 1]), ms, plan[|plan| - 1], m);
    }
  }

  /** Every session of a tick gains its share, whatever the order in which the sessions are visited. */
  lemma {:induction false} EverySessionGains(g: GameState, players: seq<PlayerState>, ms: int, plan: seq<SessionDraw>,
                                             k: nat)
    requires LootOk(g, players) && SessionsOk(g, players)
    requires forall i, j :: 0 <= i < j < |plan| ==> plan[i].mapId != plan[j].mapId
    requires k < |plan| && plan[k].mapId in g.sessions && g.sessions[plan[k].mapId].dogs < 0x1_0000_0000
    requires 0.0 <= plan[k].weight <= 1.0
    ensures var h, m := GenerateLoot(g, ms, plan), plan[k].mapId;
            m in h.sessions && GainsShare(g.sessions[m], h.sessions[m], plan[k].weight)
  {
    hide GenerateFor, GainsShare, LootOk, SessionsOk;
    var before, last := plan[..|plan| - 1], plan[|plan| - 1];
    GenerateLootKeeps(g, players, ms, before);
    if k == |before| {
      UnplannedSessionStays(g, ms, before, last.mapId);
      ThisSessionGains(GenerateLoot(g, ms, before), players, ms, last);
    } else {
      EverySessionGains(g, players, ms, before, k);
      OtherSessionsStay(GenerateLoot(g, ms, before), ms, last, plan[k].mapId);
    }
  }

  /** In a tick every session gains the integer nearest to its weighted difference of dogs and loot lying about. */
  lemma TickSharesOut(w: World, t: TickInput, k: nat)
    requires Inv(w) && IsOrder(Order(t.plan), w.game.sessions.Keys)
    requires k < |t.plan| && w.game.sessions[t.plan[k].mapId].dogs < 0x1_0000_0000 && 0.0 <= t.plan[k].weight <= 1.0
    ensures var m := t.plan[k].mapId;
            m in Generate(w, t).game.sessions &&
            GainsShare(w.game.sessions[m], Generate(w, t).game.sessions[m], t.plan[k].weight)
  {
    hide GenerateLoot, GainsShare, LootOk, SessionsOk, RecordsOk, DogOk;
    assert forall i :: 0 <= i < |t.plan| ==> Order(t.plan)[i] == t.plan[i].mapId;
    EverySessionGains(w.game, w.players, t.ms, t.plan, k);
  }
}
