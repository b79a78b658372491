/** The main theorems about runs: arbitrary interleavings of joins, actions and ticks. */
module Runs {
  import opened Basics
  import opened Roads
  import opened Collision
  import opened Tokens
  import opened LootGenerator
  import opened World
  import opened Invariants
  import opened Greedy
  import opened Preservation

  // ---------------------------------------------------------------- the second half of a tick

  lemma GatherKeepsSessionsOk(s: Gathering, t: Gathering)
    requires LootOk(s.game, s.players) && SessionsOk(s.game, s.players) && GatherFrame(s, t)
    ensures SessionsOk(t.game, t.players)
  {
    hide IdsAreIndices, BagsHoldTaken, BagsAreDisjoint, BagsWithinCapacity;
    assert forall i :: 0 <= i < |s.players| ==> OnlyBagGrows(s.players[i], t.players[i]);
    forall m | m in t.game.sessions
      ensures SessionOk(t.game, t.players, m)
    {
      assert SessionOk(s.game, s.players, m);
      SameDogCount(s.players, t.players, m);
      SubsetIsSmaller(t.game.sessions[m].loot, s.game.sessions[m].loot);
    }
    forall i | 0 <= i < |t.players|
      ensures MembershipOk(t.game, t.players, i)
    {
      assert MembershipOk(s.game, s.players, i);
      SameDogCount(s.players[..i], t.players[..i], s.players[i].session.mapInfo.id);
    }
    assert forall m, id :: Holds(t.game, m, id) ==> Holds(s.game, m, id);
    assert forall id :: IsVisible(t.game, id) ==> IsVisible(s.game, id);
  }

  lemma {:induction false} SubsetIsSmaller<T>(a: set<T>, b: set<T>)
    requires a <= b
    ensures |a| <= |b|
  {
    assert b == a + (b - a);
  }

  lemma GatherLootKeeps(w: World, t: TickInput)
    requires Inv(w) && IsOrder(Order(t.plan), w.game.sessions.Keys)
    ensures Inv(GatherLoot(w, t))
    ensures GatherFrame(Gathering(w.game, w.players), Gathering(GatherLoot(w, t).game, GatherLoot(w, t).players))
  {
    hide LootOk, SessionsOk, RecordsOk, ConfigOk, Sound, Gather;
    var s, v := Gathering(w.game, w.players), GatherLoot(w, t);
    GatherKeeps(s, Order(t.plan), t.lootEvents);
    GatherKeepsSessionsOk(s, Gathering(v.game, v.players));
    assert forall i :: 0 <= i < |w.players| ==> OnlyBagGrows(w.players[i], v.players[i]);
    forall p | p in v.players
      ensures DogOk(p, w.game.config.retirementTime)
    {
      var i :| 0 <= i < |v.players| && v.players[i] == p;
      assert w.players[i] in w.players;
      assert DogOk(w.players[i], w.game.config.retirementTime);
    }
    SameIdentitiesKeepRecords(w.players, v.players, w.records);
  }

  /** Cashing in empties a bag or leaves it alone, and changes nothing else but the score. */
  lemma {:induction false} CashInFrame(p: PlayerState, sessions: map<string, SessionState>, order: seq<string>)
    ensures var q := CashIn(p, sessions, order);
            ((q.dog.bag == p.dog.bag && q.score == p.score) || q.dog.bag == []) &&
            q == p.(score := q.score, dog := p.dog.(bag := q.dog.bag))
  {
    if order != [] {
      CashInFrame(p, sessions, order[..|order| - 1]);
    }
  }

  lemma BagEmptiedKeepsLootOk(g: GameState, players: seq<PlayerState>, k: nat, q: PlayerState)
    requires LootOk(g, players) && k < |players| && q.dog.capacity == players[k].dog.capacity
    requires q.dog.bag == players[k].dog.bag || q.dog.bag == []
    ensures LootOk(g, players[k := q])
  {
  }

  lemma SameMembersKeepSessionsOk(g: GameState, players: seq<PlayerState>, after: seq<PlayerState>)
    requires SessionsOk(g, players) && |after| == |players|
    requires forall i :: 0 <= i < |players| ==>
               && after[i].session == players[i].session
               && after[i].id == players[i].id && after[i].dog.id == players[i].dog.id
    ensures SessionsOk(g, after)
  {
    forall m | m in g.sessions
      ensures SessionOk(g, after, m)
    {
      assert SessionOk(g, players, m);
      SameDogCount(players, after, m);
    }
    forall i | 0 <= i < |after|
      ensures MembershipOk(g, after, i)
    {
      assert MembershipOk(g, players, i);
      SameDogCount(players[..i], after[..i], players[i].session.mapInfo.id);
    }
  }

  lemma CashOfficesKeeps(w: World, t: TickInput)
    requires Inv(w)
    ensures Inv(CashOffices(w, t))
  {
    var v := CashOffices(w, t);
    if t.officeEvents != [] && t.officeEvents[0].gatherer < |w.players| {
      var k := t.officeEvents[0].gatherer;
      var p, q := w.players[k], v.players[k];
      CashInFrame(p, w.game.sessions, Order(t.plan));
      BagEmptiedKeepsLootOk(w.game, w.players, k, q);
      SameMembersKeepSessionsOk(w.game, w.players, v.players);
      assert DogOk(p, w.game.config.retirementTime);
      SameIdentitiesKeepRecords(w.players, v.players, w.records);
    }
  }

  lemma TickKeeps(w: World, t: TickInput)
    requires Inv(w) && TickPossible(w, t)
    ensures Inv(Tick(w, t))
  {
    UnderwayKeeps(w, t);
    GatherLootKeeps(Underway(w, t), t);
    CashOfficesKeeps(GatherLoot(Underway(w, t), t), t);
  }

  // ---------------------------------------------------------------- runs

  /** Every event keeps the whole invariant. */
  lemma StepKeeps(w: World, e: Event)
    requires Inv(w) && Possible(w, e)
    ensures Inv(Apply(w, e))
    ensures Apply(w, e).game.config == w.game.config
  {
    match e
    case JoinEvent(name, mapId, uuid, spot, draws) =>
      JoinKeeps(w, name, mapId, uuid, spot, draws);
    case ActionEvent(header, direction) =>
      ActKeeps(w, header, direction);
    case TickEvent(t) =>
      TickKeeps(w, t);
      TickKeepsConfig(w, t);
  }

  lemma TickKeepsConfig(w: World, t: TickInput)
    requires Inv(w) && TickPossible(w, t)
    ensures Tick(w, t).game.config == w.game.config
  {
    UnderwayKeeps(w, t);
    GenerateLootKeeps(w.game, w.players, t.ms, t.plan);
    GatherLootKeeps(Underway(w, t), t);
  }

  lemma {:induction false} RunKeeps(w: World, events: seq<Event>)
    requires Inv(w) && IsRun(w, events)
    ensures Inv(After(w, events))
    ensures After(w, events).game.config == w.game.config
    decreases |events|
  {
    if events != [] {
      StepKeeps(w, events[0]);
      RunKeeps(Apply(w, events[0]), events[1..]);
    }
  }

  /** Road confinement: in every reachable state the rounded cell of every dog is an integer point of a road of
      its map, so the set of roads its next move consults is never empty. */
  lemma DogsStayOnRoads(config: Config, events: seq<Event>, k: nat)
    requires ConfigOk(config) && IsRun(Start(config), events)
    requires k < |After(Start(config), events).players|
    ensures var p := After(Start(config), events).players[k];
            && OnSomeRoad(p.session.mapInfo.roads, CellOf(p.dog.pos))
            && RoadsAt(p.session.mapInfo.roads, CellOf(p.dog.pos)) != []
  {
    StartOk(config);
    RunKeeps(Start(config), events);
    var p := After(Start(config), events).players[k];
    assert DogOk(p, config.retirementTime);
    var r :| r in p.session.mapInfo.roads && OnRoad(r, CellOf(p.dog.pos));
    assert r in RoadsAt(p.session.mapInfo.roads, CellOf(p.dog.pos));
  }

  /** Loot partition and loot bound, in every reachable state. */
  lemma LootIsPartitioned(config: Config, events: seq<Event>)
    requires ConfigOk(config) && IsRun(Start(config), events)
    ensures var w := After(Start(config), events);
            && w.game.lootNumber == |w.game.loot|
            && (forall i :: 0 <= i < |w.game.loot| ==> w.game.loot[i].id == i)
            && VisibleIffHeldOnce(w.game)
            && BagsHoldTaken(w.game, w.players) && BagsAreDisjoint(w.players) && BagsWithinCapacity(w.players)
            && forall m :: m in w.game.sessions ==> |w.game.sessions[m].loot| <= w.game.sessions[m].dogs
  {
    StartOk(config);
    RunKeeps(Start(config), events);
    var w := After(Start(config), events);
    assert forall m :: m in w.game.sessions ==> SessionOk(w.game, w.players, m);
  }

  /** In every reachable state the k-th token, presented in a header, steers the k-th player. */
  lemma KthTokenIsKthPlayer(config: Config, events: seq<Event>, k: nat)
    requires ConfigOk(config) && IsRun(Start(config), events)
    ensures var w := After(Start(config), events);
            && Sound(w.tokens)
            && |w.tokens.issued| == |w.players|
            && (k < |w.players| ==>
                  && TokenOf(BEARER + w.tokens.issued[k]) == Some(w.tokens.issued[k])
                  && Find(w.tokens, w.tokens.issued[k]) == Some(k))
  {
    StartOk(config);
    RunKeeps(Start(config), events);
    var w := After(Start(config), events);
    if k < |w.players| {
      AuthenticatesKthPlayer(w.tokens, k);
    }
  }

  // ---------------------------------------------------------------- retirement

  /** Offline, and at rest for the collision detector: with a retirement time above the tolerance that goes without
      saying, below it only for dogs that stood when they retired. */
  ghost predicate Retired(w: World, k: nat) {
    && k < |w.players| && !w.players[k].online
    && (w.game.config.retirementTime >= EPSILON || w.players[k].dog.start == w.players[k].dog.pos)
  }

  /** What retirement freezes. */
  ghost predicate Frozen(p: PlayerState, q: PlayerState) {
    && !q.online
    && q.id == p.id && q.score == p.score
    && q.dog.uuid == p.dog.uuid && q.dog.pos == p.dog.pos && q.dog.start == p.dog.start && q.dog.bag == p.dog.bag
  }

  lemma {:induction false} GatheringSkipsResting(s: Gathering, order: seq<string>, events: seq<GatheringEvent>, k: nat)
    requires k < |s.players|
    requires forall e :: e in events ==> e.gatherer != k
    ensures k < |Gather(s, order, events).players|
    ensures Gather(s, order, events).players[k] == s.players[k]
  {
    if events != [] {
      GatheringSkipsResting(s, order, events[..|events| - 1], k);
      assert events[|events| - 1] in events;
    }
  }

  lemma NoEventForResting(items: seq<Item>, players: seq<PlayerState>, events: seq<GatheringEvent>, k: nat)
    requires ExactEvents(items, DogGatherers(players), events)
    requires k < |players| && players[k].dog.start == players[k].dog.pos
    ensures forall e :: e in events ==> e.gatherer != k
  {
    forall e | e in events
      ensures e.gatherer != k
    {
      assert multiset(events)[e] > 0;
      assert IsEvent(items, DogGatherers(players), e);
    }
  }

  /** A player at rest after the first half of a tick comes out of the second half unchanged. */
  lemma RestingPlayerIsLeftAlone(w: World, t: TickInput, k: nat)
    requires Inv(w) && TickPossible(w, t) && k < |w.players|
    requires Underway(w, t).players[k].dog.start == Underway(w, t).players[k].dog.pos
    ensures k < |Tick(w, t).players| && Tick(w, t).players[k] == Underway(w, t).players[k]
  {
    UnderwayKeeps(w, t);
    RestingPlayerGathersNothing(Underway(w, t), t, k);
  }

  lemma RestingPlayerGathersNothing(v: World, t: TickInput, k: nat)
    requires Inv(v) && IsOrder(Order(t.plan), v.game.sessions.Keys)
    requires ExactEvents(LootItems(v.game.loot), DogGatherers(v.players), t.lootEvents)
    requires ExactEvents(OfficeItems(v.game.config.maps), DogGatherers(v.players), t.officeEvents)
    requires k < |v.players| && v.players[k].dog.start == v.players[k].dog.pos
    ensures k < |CashOffices(GatherLoot(v, t), t).players|
    ensures CashOffices(GatherLoot(v, t), t).players[k] == v.players[k]
  {
    NoEventForResting(LootItems(v.game.loot), v.players, t.lootEvents, k);
    NoEventForResting(OfficeItems(v.game.config.maps), v.players, t.officeEvents, k);
    GatheringSkipsResting(Gathering(v.game, v.players), Order(t.plan), t.lootEvents, k);
    GatherLootKeeps(v, t);
    hide Gather, Inv, ExactEvents, CashIn;
    if t.officeEvents != [] {
      assert t.officeEvents[0] in t.officeEvents;
    }
  }

  lemma EventFreezesRetired(w: World, e: Event, k: nat)
    requires Inv(w) && Possible(w, e) && Retired(w, k)
    ensures k < |Apply(w, e).players| && Frozen(w.players[k], Apply(w, e).players[k])
  {
    assert DogOk(w.players[k], w.game.config.retirementTime);
    if e.TickEvent? {
      RestingPlayerIsLeftAlone(w, e.input, k);
    }
  }

  /** Retirement is final: once offline, a player's dog, bag and score never change again. */
  lemma {:induction false} RetirementIsFinal(w: World, events: seq<Event>, k: nat)
    requires Inv(w) && IsRun(w, events) && Retired(w, k)
    ensures k < |After(w, events).players| && Frozen(w.players[k], After(w, events).players[k])
    decreases |events|
  {
    if events != [] {
      EventFreezesRetired(w, events[0], k);
      StepKeeps(w, events[0]);
      RetirementIsFinal(Apply(w, events[0]), events[1..], k);
    }
  }

  /** The tick in which a player retires already leaves the dog where it stood, with its bag and score. */
  lemma RetiringTickFreezes(w: World, t: TickInput, k: nat)
    requires Inv(w) && TickPossible(w, t) && k < |w.players|
    requires Retires(w.players[k], t.ms, w.game.config.retirementTime)
    requires w.game.config.retirementTime >= EPSILON || !IsMoving(w.players[k].dog.speed)
    ensures k < |Tick(w, t).players|
    ensures var q := Tick(w, t).players[k];
            && !q.online && q.dog.start == q.dog.pos == w.players[k].dog.pos
            && q.dog.bag == w.players[k].dog.bag && q.score == w.players[k].score
  {
    assert DogOk(w.players[k], w.game.config.retirementTime);
    GenerateLootKeeps(w.game, w.players, t.ms, t.plan);
    RetiringDogStands(w.players[k], t.ms, w.game.config.retirementTime);
    RestingPlayerIsLeftAlone(w, t, k);
  }

  /** In every reachable state a retired player has exactly one record, and any other player none. */
  lemma RetirementIsRecordedOnce(config: Config, events: seq<Event>, k: nat)
    requires ConfigOk(config) && IsRun(Start(config), events)
    requires k < |After(Start(config), events).players|
    ensures var w := After(Start(config), events);
            RecordCount(w.records, w.players[k].dog.uuid) == if w.players[k].online then 0 else 1
  {
    StartOk(config);
    RunKeeps(Start(config), events);
  }

  /** Equal up to bag and score. */
  ghost predicate SameMotion(p: PlayerState, q: PlayerState) {
    q == p.(score := q.score, dog := p.dog.(bag := q.dog.bag))
  }

  lemma {:induction false} GatherKeepsMotion(s: Gathering, order: seq<string>, events: seq<GatheringEvent>, k: nat)
    requires k < |s.players|
    ensures |Gather(s, order, events).players| == |s.players|
    ensures SameMotion(s.players[k], Gather(s, order, events).players[k])
  {
    if events != [] {
      GatherKeepsMotion(s, order, events[..|events| - 1], k);
    }
  }

  /** Gathering and offices do not touch what moves a dog. */
  lemma SecondHalfKeepsMotion(v: World, t: TickInput, k: nat)
    requires k < |v.players|
    ensures |CashOffices(GatherLoot(v, t), t).players| == |v.players|
    ensures SameMotion(v.players[k], CashOffices(GatherLoot(v, t), t).players[k])
  {
    hide CashIn, Gather;
    GatherKeepsMotion(Gathering(v.game, v.players), Order(t.plan), t.lootEvents, k);
    var u := GatherLoot(v, t);
    CashInFrame(u.players[k], u.game.sessions, Order(t.plan));
  }

  lemma {:induction false} GenerateKeepsConfig(g: GameState, ms: int, plan: seq<SessionDraw>)
    ensures GenerateLoot(g, ms, plan).config == g.config && GenerateLoot(g, ms, plan).timer == g.timer
    ensures GenerateLoot(g, ms, plan).sessions.Keys == g.sessions.Keys
    ensures forall m :: m in g.sessions ==> GenerateLoot(g, ms, plan).sessions[m].mapInfo == g.sessions[m].mapInfo
  {
    if plan != [] {
      GenerateKeepsConfig(g, ms, plan[..|plan| - 1]);
      var h, draw := GenerateLoot(g, ms, plan[..|plan| - 1]), plan[|plan| - 1];
      if draw.mapId in h.sessions {
        var s := h.sessions[draw.mapId];
        var n := Generated(|s.loot|, s.Looters(), draw.weight);
        AddLootsKeepConfig(h.(lootClock := if n > 0 then 0 else h.lootClock + ms), draw.mapId, draw.items, n);
      }
    }
  }

  lemma {:induction false} AddLootsKeepConfig(g: GameState, mapId: string, items: nat -> LootDraw, n: nat)
    requires mapId in g.sessions
    ensures var h := AddLoots(g, mapId, items, n);
            && h.config == g.config && h.timer == g.timer && h.sessions.Keys == g.sessions.Keys
            && forall m :: m in g.sessions ==> h.sessions[m].mapInfo == g.sessions[m].mapInfo
  {
    hide Location, LootKind;
    if n > 0 {
      AddLootsKeepConfig(g, mapId, items, n - 1);
    }
  }

  /** To the motion of one player, a tick of the game is a step of that player. */
  lemma TickMovesLikeStep(w: World, t: TickInput, k: nat)
    requires k < |w.players|
    ensures |Tick(w, t).players| == |w.players|
    ensures SameMotion(StepPlayer(w.players[k], t.ms, w.game.config.retirementTime), Tick(w, t).players[k])
  {
    hide GatherLoot, CashOffices, StepPlayer, GenerateLoot;
    GenerateKeepsConfig(w.game, t.ms, t.plan);
    SecondHalfKeepsMotion(Underway(w, t), t, k);
  }

  // ---------------------------------------------------------------- play time

  /** The milliseconds of all ticks of a run. */
  function Elapsed(events: seq<Event>): int {
    if events == [] then 0 else (if events[0].TickEvent? then events[0].input.ms else 0) + Elapsed(events[1..])
  }

  /** The identity of a dog, which no event changes. */
  ghost predicate SameDog(p: PlayerState, q: PlayerState) {
    q.dog.uuid == p.dog.uuid && q.dog.name == p.dog.name && q.dog.startTime == p.dog.startTime
  }

  lemma EventAddsToClock(w: World, e: Event, k: nat)
    requires Inv(w) && Possible(w, e) && k < |w.players|
    ensures k < |Apply(w, e).players|
    ensures var q := Apply(w, e).players[k];
            SameDog(w.players[k], q) && q.dog.clock == w.players[k].dog.clock + Seconds(Elapsed([e]))
  {
    hide Inv, Tick, TickPossible, DrawsFresh;
    assert [e][1..] == [];
    if e.TickEvent? {
      TickMovesLikeStep(w, e.input, k);
    }
  }

  lemma {:induction false} RunAddsToClock(w: World, events: seq<Event>, k: nat)
    requires Inv(w) && IsRun(w, events) && k < |w.players|
    ensures k < |After(w, events).players|
    ensures var q := After(w, events).players[k];
            SameDog(w.players[k], q) && q.dog.clock == w.players[k].dog.clock + Seconds(Elapsed(events))
    decreases |events|
  {
    hide Inv, Apply, TickPossible, DrawsInRange;
    if events != [] {
      EventAddsToClock(w, events[0], k);
      StepKeeps(w, events[0]);
      RunAddsToClock(Apply(w, events[0]), events[1..], k);
      assert Elapsed(events) == Elapsed([events[0]]) + Elapsed(events[1..]);
    }
  }

  lemma {:induction false} RetiringRowIsInserted(players: seq<PlayerState>, ms: int, retirementTime: real, k: nat)
    requires k < |players| && Retires(players[k], ms, retirementTime)
    ensures var p := players[k];
            Record(p.dog.uuid, p.dog.name, p.score, Refresh(p.dog, ms).clock - p.dog.startTime)
            in NewRecords(players, ms, retirementTime)
    decreases |players|
  {
    if k < |players| - 1 {
      RetiringRowIsInserted(players[..|players| - 1], ms, retirementTime, k);
    }
  }

  lemma JoinerStartsAtZero(w: World, e: Event)
    requires e.JoinEvent? && Possible(w, e) && |Apply(w, e).players| == |w.players| + 1
    ensures var p := Apply(w, e).players[|w.players|];
            p.dog.uuid == e.uuid && p.dog.name == e.name && p.dog.startTime == 0.0 && p.dog.clock == 0.0
  {
  }

  /** The record of a player who joins with e, plays through the events, and retires in the tick t: the play
      time is the sum of all ticks since the join. */
  lemma RecordShowsPlayTime(w: World, e: Event, events: seq<Event>, t: TickInput)
    requires Inv(w) && e.JoinEvent? && Possible(w, e) && |Apply(w, e).players| == |w.players| + 1
    requires IsRun(Apply(w, e), events) && TickPossible(After(Apply(w, e), events), t)
    ensures |w.players| < |After(Apply(w, e), events).players|
    ensures var v := After(Apply(w, e), events);
            var p := v.players[|w.players|];
            Retires(p, t.ms, v.game.config.retirementTime) ==>
              Record(e.uuid, e.name, p.score, Seconds(Elapsed(events) + t.ms)) in Tick(v, t).records
  {
    hide Apply, Tick, After, IsRun, Inv, Retires, TickPossible, Elapsed, Seconds;
    StepKeeps(w, e);
    RunKeeps(Apply(w, e), events);
    JoinerStartsAtZero(w, e);
    RunAddsToClock(Apply(w, e), events, |w.players|);
    var v := After(Apply(w, e), events);
    if Retires(v.players[|w.players|], t.ms, v.game.config.retirementTime) {
      RetiringTickInserts(v, t, |w.players|);
      SecondsAdd(Elapsed(events), t.ms);
    }
  }

  lemma SecondsAdd(first: int, second: int)
    ensures Seconds(first + second) == Seconds(first) + Seconds(second)
  {
  }

  lemma RetiringTickInserts(v: World, t: TickInput, k: nat)
    requires Inv(v) && k < |v.players| && Retires(v.players[k], t.ms, v.game.config.retirementTime)
    ensures var p := v.players[k];
            Record(p.dog.uuid, p.dog.name, p.score, p.dog.clock + Seconds(t.ms) - p.dog.startTime) in Tick(v, t).records
  {
    GenerateLootKeeps(v.game, v.players, t.ms, t.plan);
    RetiringRowIsInserted(v.players, t.ms, v.game.config.retirementTime, k);
  }
}
