/** The value ledger: points are exactly the values of the loot that was brought to offices. */
module Ledger {
  import opened Collision
  import opened LootGenerator
  import opened World
  import opened Prices
  import opened Invariants
  import opened Greedy
  import opened Preservation
  import opened Runs

  /** All maps of the game have the same non-empty value table; a game with one map is the simplest case. */
  ghost predicate OneTable(c: Config, values: seq<int>) {
    |values| > 0 && forall m :: m in c.maps ==> m.lootValues == values
  }

  function TotalScore(players: seq<PlayerState>): int {
    if players == [] then 0 else TotalScore(players[..|players| - 1]) + players[|players| - 1].score
  }

  function BagIds(bag: seq<Loot>): set<int> { set k | 0 <= k < |bag| :: bag[k].id }

  /** The ids in some bag. */
  function Carried(players: seq<PlayerState>): set<int> {
    set i, k | 0 <= i < |players| && 0 <= k < |players[i].dog.bag| :: players[i].dog.bag[k].id
  }

  /** The values of the loot that is neither lying about nor carried. */
  function Banked(loot: seq<Loot>, carried: set<int>, values: seq<int>): int
    requires KindsInRange(loot, values)
  {
    if loot == [] then 0
    else
      var last := loot[|loot| - 1];
      Banked(loot[..|loot| - 1], carried, values) +
      if last.visible || |loot| - 1 in carried then 0 else values[last.kind]
  }

  ghost predicate LedgerOk(w: World, values: seq<int>) {
    && KindsInRange(w.game.loot, values)
    && TotalScore(w.players) == Banked(w.game.loot, Carried(w.players), values)
  }

  // ---------------------------------------------------------------- sums

  lemma {:induction false} BankedSame(loot: seq<Loot>, carried: set<int>, after: seq<Loot>, carriedAfter: set<int>,
                                         values: seq<int>)
    requires |after| == |loot| && KindsInRange(loot, values)
    requires forall i :: 0 <= i < |loot| ==>
               && after[i].kind == loot[i].kind
               && (after[i].visible || i in carriedAfter <==> loot[i].visible || i in carried)
    ensures Banked(after, carriedAfter, values) == Banked(loot, carried, values)
  {
    if loot != [] {
      BankedSame(loot[..|loot| - 1], carried, after[..|after| - 1], carriedAfter, values);
    }
  }

  lemma {:induction false} BankedRelease(loot: seq<Loot>, carried: set<int>, id: int, values: seq<int>)
    requires KindsInRange(loot, values)
    requires 0 <= id < |loot| && id in carried && !loot[id].visible
    ensures Banked(loot, carried - {id}, values) == Banked(loot, carried, values) + values[loot[id].kind]
  {
    var before := loot[..|loot| - 1];
    if id < |before| {
      BankedRelease(before, carried, id, values);
    } else {
      BankedSame(before, carried, before, carried - {id}, values);
    }
  }

  /** Releasing a whole bag adds the value of the bag. */
  lemma {:induction false} BankedReleaseBag(loot: seq<Loot>, carried: set<int>, bag: seq<Loot>, values: seq<int>)
    requires BagIds(bag) <= carried && KindsInRange(loot, values)
    requires forall k :: 0 <= k < |bag| ==>
               0 <= bag[k].id < |loot| && !loot[bag[k].id].visible && loot[bag[k].id].kind == bag[k].kind
    requires forall k, l :: 0 <= k < |bag| && 0 <= l < |bag| && bag[k].id == bag[l].id ==> k == l
    ensures KindsInRange(bag, values)
    ensures Banked(loot, carried - BagIds(bag), values) == Banked(loot, carried, values) + Price(bag, values)
  {
    if bag == [] {
      assert carried - BagIds(bag) == carried;
    } else {
      var rest, last := bag[..|bag| - 1], bag[|bag| - 1];
      BagIdsSplit(bag);
      BankedReleaseBag(loot, carried, rest, values);
      assert last.id in BagIds(bag);
      BankedRelease(loot, carried - BagIds(rest), last.id, values);
      assert carried - BagIds(bag) == carried - BagIds(rest) - {last.id};
    }
  }

  lemma BagIdsSplit(bag: seq<Loot>)
    requires bag != []
    ensures BagIds(bag) == BagIds(bag[..|bag| - 1]) + {bag[|bag| - 1].id}
  {
    var rest := bag[..|bag| - 1];
    forall id | id in BagIds(bag)
      ensures id in BagIds(rest) + {bag[|bag| - 1].id}
    {
      var k :| 0 <= k < |bag| && bag[k].id == id;
      assert k < |rest| ==> rest[k].id == id;
    }
    forall id | id in BagIds(rest)
      ensures id in BagIds(bag)
    {
      var k :| 0 <= k < |rest| && rest[k].id == id;
      assert bag[k].id == id;
    }
  }

  lemma {:induction false} TotalScoreUpdate(players: seq<PlayerState>, k: nat, q: PlayerState)
    requires k < |players|
    ensures TotalScore(players[k := q]) == TotalScore(players) - players[k].score + q.score
  {
    var n := |players| - 1;
    if k < n {
      assert players[k := q][..n] == players[..n][k := q];
      TotalScoreUpdate(players[..n], k, q);
    } else {
      assert players[k := q][..n] == players[..n];
    }
  }

  lemma {:induction false} TotalScoreSame(players: seq<PlayerState>, after: seq<PlayerState>)
    requires |after| == |players| && forall i :: 0 <= i < |players| ==> after[i].score == players[i].score
    ensures TotalScore(after) == TotalScore(players)
  {
    if players != [] {
      TotalScoreSame(players[..|players| - 1], after[..|after| - 1]);
    }
  }

  lemma CarriedSame(players: seq<PlayerState>, after: seq<PlayerState>)
    requires |after| == |players| && forall i :: 0 <= i < |players| ==> after[i].dog.bag == players[i].dog.bag
    ensures Carried(after) == Carried(players)
  {
  }

  // ---------------------------------------------------------------- joining, steering, generating, stepping

  lemma JoinKeepsLedger(w: World, e: Event, values: seq<int>)
    requires e.JoinEvent? && Possible(w, e) && LedgerOk(w, values)
    ensures LedgerOk(Apply(w, e), values)
  {
    var v := Apply(w, e);
    if v != w {
      assert v.players[..|v.players| - 1] == w.players;
      assert forall i, k :: Bagged(v.players, i, k) ==> Bagged(w.players, i, k);
      assert Carried(v.players) == Carried(w.players);
    }
  }

  lemma ActKeepsLedger(w: World, header: string, direction: string, values: seq<int>)
    requires LedgerOk(w, values)
    ensures LedgerOk(Act(w, header, direction), values)
  {
    TotalScoreSame(w.players, Act(w, header, direction).players);
    CarriedSame(w.players, Act(w, header, direction).players);
  }

  lemma AddLootKeepsBanked(g: GameState, carried: set<int>, m: string, item: LootDraw, values: seq<int>)
    requires m in g.sessions && g.sessions[m].mapInfo.lootValues == values && |values| > 0
    requires KindsInRange(g.loot, values)
    ensures var h := AddLoot(g, m, item);
            KindsInRange(h.loot, values) && Banked(h.loot, carried, values) == Banked(g.loot, carried, values)
  {
  }

  lemma {:induction false} AddLootsKeepBanked(g: GameState, carried: set<int>, m: string, items: nat -> LootDraw,
                                              n: nat,
                                                 values: seq<int>)
    requires m in g.sessions && g.sessions[m].mapInfo.lootValues == values && |values| > 0
    requires KindsInRange(g.loot, values)
    ensures var h := AddLoots(g, m, items, n);
            && h.sessions[m].mapInfo == g.sessions[m].mapInfo
            && KindsInRange(h.loot, values) && Banked(h.loot, carried, values) == Banked(g.loot, carried, values)
  {
    if n > 0 {
      AddLootsKeepBanked(g, carried, m, items, n - 1, values);
      AddLootKeepsBanked(AddLoots(g, m, items, n - 1), carried, m, items(n - 1), values);
    }
  }

  lemma SessionTable(g: GameState, players: seq<PlayerState>, m: string, values: seq<int>)
    requires SessionsOk(g, players) && OneTable(g.config, values) && m in g.sessions
    ensures g.sessions[m].mapInfo.lootValues == values
  {
    assert SessionOk(g, players, m);
    FindMapById(g.config.maps, m);
  }

  lemma {:induction false} GenerateKeepsBanked(g: GameState, players: seq<PlayerState>, ms: int, plan: seq<SessionDraw>,
                                                  values: seq<int>)
    requires LootOk(g, players) && SessionsOk(g, players) && OneTable(g.config, values) && KindsInRange(g.loot, values)
    ensures var h := GenerateLoot(g, ms, plan);
            && KindsInRange(h.loot, values)
            && Banked(h.loot, Carried(players), values) == Banked(g.loot, Carried(players), values)
  {
    if plan != [] {
      GenerateKeepsBanked(g, players, ms, plan[..|plan| - 1], values);
      GenerateLootKeeps(g, players, ms, plan[..|plan| - 1]);
      var h, draw := GenerateLoot(g, ms, plan[..|plan| - 1]), plan[|plan| - 1];
      if draw.mapId in h.sessions {
        SessionTable(h, players, draw.mapId, values);
        var s := h.sessions[draw.mapId];
        var n := Generated(|s.loot|, s.Looters(), draw.weight);
        AddLootsKeepBanked(h.(lootClock := if n > 0 then 0 else h.lootClock + ms), Carried(players), draw.mapId,
                           draw.items, n,
                           values);
      }
    }
  }

  lemma UnderwayKeepsLedger(w: World, t: TickInput, values: seq<int>)
    requires Inv(w) && OneTable(w.game.config, values) && LedgerOk(w, values)
    ensures LedgerOk(Underway(w, t), values)
  {
    GenerateKeepsBanked(w.game, w.players, t.ms, t.plan, values);
    TotalScoreSame(w.players, Underway(w, t).players);
    CarriedSame(w.players, Underway(w, t).players);
  }

  // ---------------------------------------------------------------- gathering

  /** Loot that is picked up was not counted before, and is carried after. */
  lemma TakeKeepsBanked(s: Gathering, m: string, item: nat, gatherer: nat, values: seq<int>)
    requires m in s.game.sessions && item < |s.game.loot| && gatherer < |s.players|
    requires IdsAreIndices(s.game) && s.game.loot[item].visible && KindsInRange(s.game.loot, values)
    ensures var t := Take(s, m, item, gatherer);
            && KindsInRange(t.game.loot, values)
            && Banked(t.game.loot, Carried(t.players), values) == Banked(s.game.loot, Carried(s.players), values)
            && TotalScore(t.players) == TotalScore(s.players)
  {
    var t := Take(s, m, item, gatherer);
    TakeCarries(s, m, item, gatherer);
    BankedSame(s.game.loot, Carried(s.players), t.game.loot, Carried(t.players), values);
    TotalScoreUpdate(s.players, gatherer, t.players[gatherer]);
  }

  lemma TakeCarries(s: Gathering, m: string, item: nat, gatherer: nat)
    requires m in s.game.sessions && item < |s.game.loot| && gatherer < |s.players|
    requires IdsAreIndices(s.game)
    ensures Carried(Take(s, m, item, gatherer).players) == Carried(s.players) + {item}
  {
    var players, after := s.players, Take(s, m, item, gatherer).players;
    var n := |players[gatherer].dog.bag|;
    assert after[gatherer].dog.bag == players[gatherer].dog.bag + [s.game.loot[item]];
    assert after[gatherer].dog.bag[n].id == item;
    forall id | id in Carried(after)
      ensures id in Carried(players) + {item}
    {
      var i, k :| 0 <= i < |after| && 0 <= k < |after[i].dog.bag| && after[i].dog.bag[k].id == id;
      if i != gatherer || k < n {
        assert players[i].dog.bag[k].id == id;
      }
    }
    forall id | id in Carried(players)
      ensures id in Carried(after)
    {
      var i, k :| 0 <= i < |players| && 0 <= k < |players[i].dog.bag| && players[i].dog.bag[k].id == id;
      assert after[i].dog.bag[k].id == id;
    }
  }

  lemma {:induction false} GatherKeepsBanked(s: Gathering, order: seq<string>, events: seq<GatheringEvent>,
                                             values: seq<int>)
    requires LootOk(s.game, s.players) && IsOrder(order, s.game.sessions.Keys) && KindsInRange(s.game.loot, values)
    ensures var t := Gather(s, order, events);
            && KindsInRange(t.game.loot, values)
            && Banked(t.game.loot, Carried(t.players), values) == Banked(s.game.loot, Carried(s.players), values)
            && TotalScore(t.players) == TotalScore(s.players)
  {
    if events != [] {
      var before, e := events[..|events| - 1], events[|events| - 1];
      var t := Gather(s, order, before);
      GatherKeepsBanked(s, order, before, values);
      GatherKeeps(s, order, before);
      SearchIsGreedy(t, order, e);
      if Grants(t, e) {
        var m :| Holds(t.game, m, e.item) && GatherOne(t, order, e) == Take(t, m, e.item, e.gatherer);
        TakeKeepsBanked(t, m, e.item, e.gatherer, values);
      }
    }
  }

  // ---------------------------------------------------------------- offices

  /** Cashing in turns the value of the bag into points, once. */
  lemma {:induction false} CashInConserves(p: PlayerState, sessions: map<string, SessionState>, order: seq<string>,
                                              values: seq<int>)
    requires forall m :: m in sessions ==> sessions[m].mapInfo.lootValues == values
    ensures var q := CashIn(p, sessions, order);
            && q.score + BagValue(values, q.dog.bag) == p.score + BagValue(values, p.dog.bag)
            && (q.dog.bag == p.dog.bag || q.dog.bag == [])
  {
    if order != [] {
      CashInConserves(p, sessions, order[..|order| - 1], values);
    }
  }

  lemma EmptiedBagReleases(players: seq<PlayerState>, k: nat, q: PlayerState)
    requires k < |players| && BagsAreDisjoint(players) && q.dog.bag == []
    ensures Carried(players[k := q]) == Carried(players) - BagIds(players[k].dog.bag)
    ensures BagIds(players[k].dog.bag) <= Carried(players)
  {
    var after, bag := players[k := q], players[k].dog.bag;
    assert forall l :: 0 <= l < |bag| ==> Bagged(players, k, l) && bag[l].id in BagIds(bag);
    forall id | id in Carried(after)
      ensures id in Carried(players) && id !in BagIds(bag)
    {
      var i, j :| 0 <= i < |after| && 0 <= j < |after[i].dog.bag| && after[i].dog.bag[j].id == id;
      assert Bagged(players, i, j) && i != k;
    }
    forall id | id in Carried(players) && id !in BagIds(bag)
      ensures id in Carried(after)
    {
      var i, j :| 0 <= i < |players| && 0 <= j < |players[i].dog.bag| && players[i].dog.bag[j].id == id;
      assert after[i].dog.bag[j].id == id;
    }
  }

  lemma CashOfficesKeepsLedger(w: World, t: TickInput, values: seq<int>)
    requires Inv(w) && OneTable(w.game.config, values) && LedgerOk(w, values)
    ensures LedgerOk(CashOffices(w, t), values)
  {
    if t.officeEvents != [] && t.officeEvents[0].gatherer < |w.players| {
      var k := t.officeEvents[0].gatherer;
      forall m | m in w.game.sessions
        ensures w.game.sessions[m].mapInfo.lootValues == values
      {
        SessionTable(w.game, w.players, m, values);
      }
      var p, q := w.players[k], CashIn(w.players[k], w.game.sessions, Order(t.plan));
      CashInConserves(p, w.game.sessions, Order(t.plan), values);
      TotalScoreUpdate(w.players, k, q);
      if q.dog.bag == p.dog.bag {
        CarriedSame(w.players, w.players[k := q]);
      } else {
        EmptiedBagReleases(w.players, k, q);
        assert forall l :: 0 <= l < |p.dog.bag| ==> Bagged(w.players, k, l);
        BankedReleaseBag(w.game.loot, Carried(w.players), p.dog.bag, values);
        BagValueIsPrice(values, p.dog.bag);
      }
    }
  }

  // ---------------------------------------------------------------- runs

  lemma EventKeepsLedger(w: World, e: Event, values: seq<int>)
    requires Inv(w) && Possible(w, e) && OneTable(w.game.config, values) && LedgerOk(w, values)
    ensures LedgerOk(Apply(w, e), values)
  {
    match e
    case JoinEvent(_, _, _, _, _) => JoinKeepsLedger(w, e, values);
    case ActionEvent(header, direction) => ActKeepsLedger(w, header, direction, values);
    case TickEvent(t) =>
      var v := Underway(w, t);
      UnderwayKeeps(w, t);
      UnderwayKeepsLedger(w, t, values);
      GenerateLootKeeps(w.game, w.players, t.ms, t.plan);
      GatherKeepsBanked(Gathering(v.game, v.players), Order(t.plan), t.lootEvents, values);
      GatherLootKeeps(v, t);
      CashOfficesKeepsLedger(GatherLoot(v, t), t, values);
  }

  lemma {:induction false} RunKeepsLedger(w: World, events: seq<Event>, values: seq<int>)
    requires Inv(w) && IsRun(w, events) && OneTable(w.game.config, values) && LedgerOk(w, values)
    ensures LedgerOk(After(w, events), values)
    decreases |events|
  {
    if events != [] {
      EventKeepsLedger(w, events[0], values);
      StepKeeps(w, events[0]);
      RunKeepsLedger(Apply(w, events[0]), events[1..], values);
    }
  }

  /** In every reachable state the points of all players are the values of the loot that is neither visible nor
      in a bag, and every type an office may look up is in range of the table of any session. */
  lemma PointsAreBankedLoot(config: Config, events: seq<Event>, values: seq<int>)
    requires ConfigOk(config) && OneTable(config, values) && IsRun(Start(config), events)
    ensures var w := After(Start(config), events);
            && KindsInRange(w.game.loot, values)
            && TotalScore(w.players) == Banked(w.game.loot, Carried(w.players), values)
            && forall m, i, k :: m in w.game.sessions && Bagged(w.players, i, k) ==>
                 0 <= w.players[i].dog.bag[k].kind < |w.game.sessions[m].mapInfo.lootValues|
  {
    StartOk(config);
    RunKeeps(Start(config), events);
    RunKeepsLedger(Start(config), events, values);
    var w := After(Start(config), events);
    forall m, i, k | m in w.game.sessions && Bagged(w.players, i, k)
      ensures 0 <= w.players[i].dog.bag[k].kind < |w.game.sessions[m].mapInfo.lootValues|
    {
      SessionTable(w.game, w.players, m, values);
    }
  }
}
