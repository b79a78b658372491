/** Joining, steering, generating loot and stepping keep the invariant. */
module Preservation {
  import opened Basics
  import opened Roads
  import opened Movement
  import opened Tokens
  import opened LootGenerator
  import opened World
  import opened Invariants

  // ---------------------------------------------------------------- generating loot

  lemma AddLootKeepsLootOk(g: GameState, players: seq<PlayerState>, m: string, item: LootDraw)
    requires LootOk(g, players) && m in g.sessions
    ensures LootOk(AddLoot(g, m, item), players)
  {
    var h := AddLoot(g, m, item);
    var id := g.lootNumber;
    assert forall n, i :: Holds(h, n, i) <==> Holds(g, n, i) || (n == m && i == id);
    assert forall i :: IsVisible(h, i) <==> IsVisible(g, i) || i == id;
    assert Holds(h, m, id);
    forall i | IsVisible(h, i)
      ensures exists n :: Holds(h, n, i)
    {
      if i != id {
        var n :| Holds(g, n, i);
        assert Holds(h, n, i);
      }
    }
    forall i, k | Bagged(players, i, k)
      ensures var b := players[i].dog.bag[k]; 0 <= b.id < |g.loot|
    {
    }
  }

  lemma AddLootKeepsSessionsOk(g: GameState, players: seq<PlayerState>, m: string, item: LootDraw)
    requires LootOk(g, players) && SessionsOk(g, players) && m in g.sessions
    requires |g.sessions[m].loot| < g.sessions[m].dogs
    ensures SessionsOk(AddLoot(g, m, item), players)
    ensures |AddLoot(g, m, item).sessions[m].loot| <= |g.sessions[m].loot| + 1
  {
    var h := AddLoot(g, m, item);
    var id := g.lootNumber;
    assert forall n, i :: Holds(h, n, i) ==> Holds(g, n, i) || (n == m && i == id);
    forall n | n in h.sessions
      ensures SessionOk(h, players, n)
    {
      assert SessionOk(g, players, n);
    }
    forall i | 0 <= i < |players|
      ensures MembershipOk(h, players, i)
    {
      assert MembershipOk(g, players, i);
    }
    forall n, i | !h.config.random && Holds(h, n, i) && IsVisible(h, i)
      ensures h.loot[i].pos == AtCell(h.sessions[n].mapInfo.roads[0].start)
    {
      assert i != id ==> Holds(g, n, i) && IsVisible(g, i);
      assert i == id ==> !Holds(g, n, i);
    }
  }

  lemma {:induction false} AddLootsKeep(g: GameState, players: seq<PlayerState>, m: string, items: nat -> LootDraw,
                                        n: nat)
    requires LootOk(g, players) && SessionsOk(g, players) && m in g.sessions
    requires |g.sessions[m].loot| + n <= g.sessions[m].dogs
    ensures var h := AddLoots(g, m, items, n);
            && LootOk(h, players) && SessionsOk(h, players)
            && h.sessions.Keys == g.sessions.Keys && h.config == g.config
            && h.sessions[m].dogs == g.sessions[m].dogs
            && |h.sessions[m].loot| <= |g.sessions[m].loot| + n
  {
    hide LootOk, SessionsOk, Location, LootKind;
    if n > 0 {
      AddLootsKeep(g, players, m, items, n - 1);
      var h := AddLoots(g, m, items, n - 1);
      AddLootKeepsLootOk(h, players, m, items(n - 1));
      AddLootKeepsSessionsOk(h, players, m, items(n - 1));
    }
  }

  lemma GenerateForKeeps(g: GameState, players: seq<PlayerState>, ms: int, draw: SessionDraw)
    requires LootOk(g, players) && SessionsOk(g, players)
    ensures var h := GenerateFor(g, ms, draw);
            LootOk(h, players) && SessionsOk(h, players) && h.sessions.Keys == g.sessions.Keys && h.config == g.config
  {
    if draw.mapId in g.sessions {
      assert SessionOk(g, players, draw.mapId);
      var s := g.sessions[draw.mapId];
      var n := Generated(|s.loot|, s.Looters(), draw.weight);
      assert s.Looters() <= s.dogs;
      var h := g.(lootClock := if n > 0 then 0 else g.lootClock + ms);
      ClockIsNoState(g, h, players);
      AddLootsKeep(h, players, draw.mapId, draw.items, n);
    }
  }

  lemma ClockIsNoState(g: GameState, h: GameState, players: seq<PlayerState>)
    requires h == g.(lootClock := h.lootClock, timer := h.timer)
    requires LootOk(g, players) && SessionsOk(g, players)
    ensures LootOk(h, players) && SessionsOk(h, players)
  {
    assert forall m, id :: Holds(h, m, id) <==> Holds(g, m, id);
    assert forall id :: IsVisible(h, id) <==> IsVisible(g, id);
    assert forall m :: m in g.sessions ==> SessionOk(g, players, m);
    forall i | 0 <= i < |players|
      ensures MembershipOk(h, players, i)
    {
      assert MembershipOk(g, players, i);
    }
  }

  lemma {:induction false} GenerateLootKeeps(g: GameState, players: seq<PlayerState>, ms: int, plan: seq<SessionDraw>)
    requires LootOk(g, players) && SessionsOk(g, players)
    ensures var h := GenerateLoot(g, ms, plan);
            LootOk(h, players) && SessionsOk(h, players) && h.sessions.Keys == g.sessions.Keys && h.config == g.config
  {
    if plan != [] {
      GenerateLootKeeps(g, players, ms, plan[..|plan| - 1]);
      GenerateForKeeps(GenerateLoot(g, ms, plan[..|plan| - 1]), players, ms, plan[|plan| - 1]);
    }
  }

  // ---------------------------------------------------------------- joining

  lemma DogCountAppend(players: seq<PlayerState>, p: PlayerState, m: string)
    ensures DogCount(players + [p], m) == DogCount(players, m) + if PlaysOn(p, m) then 1 else 0
  {
  }

  lemma {:induction false} DogCountZero(players: seq<PlayerState>, m: string)
    requires forall p :: p in players ==> !PlaysOn(p, m)
    ensures DogCount(players, m) == 0
  {
    if players != [] {
      DogCountZero(players[..|players| - 1], m);
    }
  }

  /** The dog count of a session, whether or not it has been started yet. */
  lemma NextDogId(g: GameState, players: seq<PlayerState>, m: MapInfo)
    requires SessionsOk(g, players) && FindMap(g.config.maps, m.id) == Some(m)
    ensures var s := GetGameSession(g, m).sessions[m.id];
            s.dogs == DogCount(players, m.id) && s.mapInfo == m && s.retired == 0
  {
    if m.id in g.sessions {
      assert SessionOk(g, players, m.id);
    } else {
      forall p | p in players
        ensures !PlaysOn(p, m.id)
      {
        var i :| 0 <= i < |players| && players[i] == p;
        assert MembershipOk(g, players, i);
      }
      DogCountZero(players, m.id);
    }
  }

  lemma EnterGameKeepsLootOk(g: GameState, players: seq<PlayerState>, m: MapInfo, p: PlayerState)
    requires LootOk(g, players) && p.dog.bag == []
    ensures LootOk(EnterGame(g, m), players + [p])
  {
    var h, after := EnterGame(g, m), players + [p];
    assert forall n, id :: Holds(h, n, id) <==> Holds(g, n, id);
    assert forall id :: IsVisible(h, id) <==> IsVisible(g, id);
    assert forall i, k :: Bagged(after, i, k) <==> Bagged(players, i, k);
  }

  lemma EnterGameKeepsSessionsOk(g: GameState, players: seq<PlayerState>, m: MapInfo, name: string, uuid: int,
                                 spot: SpotDraw)
    requires SessionsOk(g, players) && FindMap(g.config.maps, m.id) == Some(m)
    ensures SessionsOk(EnterGame(g, m), players + [NewPlayer(g, |players|, m, name, uuid, spot)])
  {
    var h, p := EnterGame(g, m), NewPlayer(g, |players|, m, name, uuid, spot);
    var after := players + [p];
    NextDogId(g, players, m);
    assert PlaysOn(p, m.id);
    forall n | n in h.sessions
      ensures SessionOk(h, after, n)
    {
      assert n in g.sessions ==> SessionOk(g, players, n);
      DogCountAppend(players, p, n);
    }
    forall i | 0 <= i < |after|
      ensures MembershipOk(h, after, i)
    {
      if i < |players| {
        assert MembershipOk(g, players, i);
        assert after[..i] == players[..i];
        var n := players[i].session.mapInfo.id;
        assert SessionOk(g, players, n);
      } else {
        assert after[..i] == players;
      }
    }
    assert forall n, id :: Holds(h, n, id) ==> Holds(g, n, id) && h.sessions[n].mapInfo == g.sessions[n].mapInfo;
    assert forall id :: IsVisible(h, id) <==> IsVisible(g, id);
  }

  /** Dogs are placed on integer points of roads. */
  lemma LocationIsOnRoad(m: MapInfo, random: bool, draw: SpotDraw)
    ensures OnSomeRoad(m.roads, Location(m, random, draw))
  {
    var r := if random then m.roads[RandomItem(|m.roads| - 1, draw.road)] else m.roads[0];
    assert OnRoad(r, Location(m, random, draw));
  }

  lemma NewPlayerOk(g: GameState, count: nat, m: MapInfo, name: string, uuid: int, spot: SpotDraw, retirementTime: real)
    ensures DogOk(NewPlayer(g, count, m, name, uuid, spot), retirementTime)
  {
    var s := GetGameSession(g, m).sessions[m.id];
    LocationIsOnRoad(s.mapInfo, g.config.random, spot);
    CellOfAtCell(Location(s.mapInfo, g.config.random, spot));
  }

  lemma RecordsOkAfterJoin(players: seq<PlayerState>, p: PlayerState, records: seq<Record>)
    requires RecordsOk(players, records) && p.online
    requires forall q :: q in players ==> q.dog.uuid != p.dog.uuid
    ensures RecordsOk(players + [p], records)
  {
    var after := players + [p];
    assert forall i :: 0 <= i < |players| ==> after[i] == players[i] && players[i] in players;
    forall r | r in records
      ensures r.uuid != p.dog.uuid && exists i :: 0 <= i < |after| && after[i].dog.uuid == r.uuid
    {
      var i :| 0 <= i < |players| && players[i].dog.uuid == r.uuid;
      assert after[i].dog.uuid == r.uuid;
    }
    NoRecord(records, p.dog.uuid);
  }

  lemma {:induction false} NoRecord(records: seq<Record>, uuid: int)
    requires forall r :: r in records ==> r.uuid != uuid
    ensures RecordCount(records, uuid) == 0
  {
    if records != [] {
      NoRecord(records[..|records| - 1], uuid);
    }
  }

  lemma JoinKeeps(w: World, name: string, mapId: string, uuid: int, spot: SpotDraw, draws: seq<Draws>)
    requires Inv(w) && Possible(w, JoinEvent(name, mapId, uuid, spot, draws))
    ensures Inv(Join(w, name, mapId, uuid, spot, draws))
  {
    hide LootOk, SessionsOk, DogOk, RecordsOk, ConfigOk, FirstFresh, FindMap;
    FindMapById(w.game.config.maps, mapId);
    var found := FindMap(w.game.config.maps, mapId);
    if found.Some? && name != "" {
      var m := found.value;
      var p := NewPlayer(w.game, |w.players|, m, name, uuid, spot);
      EnterGameKeepsLootOk(w.game, w.players, m, p);
      EnterGameKeepsSessionsOk(w.game, w.players, m, name, uuid, spot);
      NewPlayerOk(w.game, |w.players|, m, name, uuid, spot, w.game.config.retirementTime);
      RecordsOkAfterJoin(w.players, p, w.records);
      IssueKeepsSound(w.tokens, FirstFresh(w.tokens, draws));
    }
  }

  // ---------------------------------------------------------------- changes of dogs that leave loot alone

  /** The same player, as far as loot, sessions and identities are concerned. */
  ghost predicate SameHolder(p: PlayerState, q: PlayerState) {
    && q.id == p.id && q.session == p.session
    && q.dog.id == p.dog.id && q.dog.bag == p.dog.bag && q.dog.capacity == p.dog.capacity
  }

  lemma SameHoldersKeep(g: GameState, players: seq<PlayerState>, after: seq<PlayerState>)
    requires LootOk(g, players) && SessionsOk(g, players)
    requires |after| == |players| && forall i :: 0 <= i < |players| ==> SameHolder(players[i], after[i])
    ensures LootOk(g, after) && SessionsOk(g, after)
  {
    assert forall i, k :: Bagged(after, i, k) <==> Bagged(players, i, k);
    forall m | m in g.sessions
      ensures SessionOk(g, after, m)
    {
      assert SessionOk(g, players, m);
      SameDogCount(players, after, m);
    }
    forall i | 0 <= i < |after|
      ensures MembershipOk(g, after, i)
    {
      assert MembershipOk(g, players, i);
      SameDogCount(players[..i], after[..i], players[i].session.mapInfo.id);
    }
  }

  lemma {:induction false} SameDogCount(players: seq<PlayerState>, after: seq<PlayerState>, m: string)
    requires |after| == |players| && forall i :: 0 <= i < |players| ==> players[i].session == after[i].session
    ensures DogCount(after, m) == DogCount(players, m)
  {
    if players != [] {
      SameDogCount(players[..|players| - 1], after[..|after| - 1], m);
    }
  }

  lemma ActKeeps(w: World, header: string, direction: string)
    requires Inv(w)
    ensures Inv(Act(w, header, direction))
  {
    hide LootOk, SessionsOk, RecordsOk, ConfigOk, Sound, TokenOf, Find;
    var v := Act(w, header, direction);
    assert forall i :: 0 <= i < |w.players| ==> SameHolder(w.players[i], v.players[i]);
    SameHoldersKeep(w.game, w.players, v.players);
    forall p | p in v.players
      ensures DogOk(p, w.game.config.retirementTime)
    {
      var i :| 0 <= i < |v.players| && v.players[i] == p;
      assert w.players[i] in w.players;
      assert DogOk(w.players[i], w.game.config.retirementTime);
    }
    SameIdentitiesKeepRecords(w.players, v.players, w.records);
  }

  lemma SameIdentitiesKeepRecords(players: seq<PlayerState>, after: seq<PlayerState>, records: seq<Record>)
    requires RecordsOk(players, records) && |after| == |players|
    requires forall i :: 0 <= i < |players| ==>
               after[i].dog.uuid == players[i].dog.uuid && after[i].online == players[i].online
    ensures RecordsOk(after, records)
  {
    forall r | r in records
      ensures exists i :: 0 <= i < |after| && after[i].dog.uuid == r.uuid
    {
      var i :| 0 <= i < |players| && players[i].dog.uuid == r.uuid;
      assert after[i].dog.uuid == r.uuid;
    }
  }

  // ---------------------------------------------------------------- stepping

  /** A dog whose speed does not count as activity stands still. */
  lemma StandingDog(d: DogState)
    requires SpeedOk(d) && !IsMoving(d.speed)
    ensures d.speed == Coords(0.0, 0.0) || d.nominalSpeed == 0.0
    ensures HeadingOf(d.speed) == None
  {
  }

  /** Running dogs retire exactly when the retirement time is below the tolerance; otherwise only standing dogs do. */
  lemma RunningDogRetiresIff(p: PlayerState, ms: int, retirementTime: real)
    requires p.online && IsMoving(p.dog.speed)
    ensures Retires(p, ms, retirementTime) <==> retirementTime < EPSILON
  {
  }

  lemma RetiringDogStands(p: PlayerState, ms: int, retirementTime: real)
    requires DogOk(p, retirementTime) && Retires(p, ms, retirementTime)
    requires retirementTime >= EPSILON || !IsMoving(p.dog.speed)
    ensures var q := StepPlayer(p, ms, retirementTime);
            !q.online && q.dog.start == q.dog.pos == p.dog.pos
  {
    if IsMoving(p.dog.speed) {
      RunningDogRetiresIff(p, ms, retirementTime);
    }
    StandingDog(p.dog);
  }

  lemma StepPlayerKeepsDogOk(p: PlayerState, ms: int, retirementTime: real)
    requires DogOk(p, retirementTime)
    ensures DogOk(StepPlayer(p, ms, retirementTime), retirementTime)
    ensures SameHolder(p, StepPlayer(p, ms, retirementTime))
  {
    if p.online {
      MoveStaysOnRoads(p.session.mapInfo.roads, p.dog.pos, p.dog.speed, ms);
      if retirementTime >= EPSILON && Retires(p, ms, retirementTime) {
        RetiringDogStands(p, ms, retirementTime);
      }
    }
  }

  lemma {:induction false} RecordCountConcat(a: seq<Record>, b: seq<Record>, uuid: int)
    ensures RecordCount(a + b, uuid) == RecordCount(a, uuid) + RecordCount(b, uuid)
  {
    if b == [] {
      assert a + b == a;
    } else {
      RecordCountConcat(a, b[..|b| - 1], uuid);
      assert (a + b)[..|a + b| - 1] == a + b[..|b| - 1];
    }
  }

  /** A step inserts one row for each player who retires in it, and nothing else. */
  lemma {:induction false} NewRecordsExact(players: seq<PlayerState>, ms: int, retirementTime: real, i: nat)
    requires UuidsDiffer(players) && i < |players|
    ensures RecordCount(NewRecords(players, ms, retirementTime), players[i].dog.uuid) ==
            if Retires(players[i], ms, retirementTime) then 1 else 0
    decreases |players|
  {
    var n := |players| - 1;
    var before, p := players[..n], players[n];
    var row := Record(p.dog.uuid, p.dog.name, p.score, Refresh(p.dog, ms).clock - p.dog.startTime);
    RecordCountConcat(NewRecords(before, ms, retirementTime),
                      if Retires(p, ms, retirementTime) then [row] else [], players[i].dog.uuid);
    assert RecordCount([row], players[i].dog.uuid) == if i == n then 1 else 0;
    if i < n {
      NewRecordsExact(before, ms, retirementTime, i);
    } else {
      forall r | r in NewRecords(before, ms, retirementTime)
        ensures r.uuid != p.dog.uuid
      {
        NewRecordsBelong(before, ms, retirementTime, r);
      }
      NoRecord(NewRecords(before, ms, retirementTime), p.dog.uuid);
    }
  }

  lemma {:induction false} NewRecordsBelong(players: seq<PlayerState>, ms: int, retirementTime: real, r: Record)
    requires r in NewRecords(players, ms, retirementTime)
    ensures exists i :: 0 <= i < |players| && players[i].dog.uuid == r.uuid
  {
    var n := |players| - 1;
    if r in NewRecords(players[..n], ms, retirementTime) {
      NewRecordsBelong(players[..n], ms, retirementTime, r);
      var i :| 0 <= i < n && players[..n][i].dog.uuid == r.uuid;
      assert players[i].dog.uuid == r.uuid;
    } else {
      assert players[n].dog.uuid == r.uuid;
    }
  }

  lemma StepKeepsRecordsOk(players: seq<PlayerState>, records: seq<Record>, ms: int, retirementTime: real)
    requires RecordsOk(players, records)
    ensures RecordsOk(StepPlayers(players, ms, retirementTime), records + NewRecords(players, ms, retirementTime))
  {
    hide NewRecords, Move, IdleTooLong, IsMoving, Seconds;
    var after := StepPlayers(players, ms, retirementTime);
    var rows := NewRecords(players, ms, retirementTime);
    forall i | 0 <= i < |after|
      ensures RecordCount(records + rows, after[i].dog.uuid) == if after[i].online then 0 else 1
    {
      NewRecordsExact(players, ms, retirementTime, i);
      RecordCountConcat(records, rows, players[i].dog.uuid);
    }
    forall r | r in records + rows
      ensures exists i :: 0 <= i < |after| && after[i].dog.uuid == r.uuid
    {
      if r in rows {
        NewRecordsBelong(players, ms, retirementTime, r);
      }
      var i :| 0 <= i < |players| && players[i].dog.uuid == r.uuid;
      assert after[i].dog.uuid == r.uuid;
    }
  }

  /** The first half of a tick. */
  lemma UnderwayKeeps(w: World, t: TickInput)
    requires Inv(w)
    ensures Inv(Underway(w, t))
    ensures Underway(w, t).game.sessions.Keys == w.game.sessions.Keys
  {
    GenerateLootKeeps(w.game, w.players, t.ms, t.plan);
    var u, v := Generate(w, t), Underway(w, t);
    var r := w.game.config.retirementTime;
    ClockIsNoState(u.game, v.game, u.players);
    forall i | 0 <= i < |w.players|
      ensures SameHolder(w.players[i], v.players[i]) && DogOk(v.players[i], r)
    {
      assert w.players[i] in w.players;
      StepPlayerKeepsDogOk(w.players[i], t.ms, r);
    }
    SameHoldersKeep(v.game, w.players, v.players);
    StepKeepsRecordsOk(w.players, w.records, t.ms, r);
  }
}
