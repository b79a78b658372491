/** Reachable states in which an office pays nobody, a restart breaks the loot partition, and a dog takes the loot of
    another map. */
module Failures {
  import opened Basics
  import opened Roads
  import opened Movement
  import opened Geometry
  import opened Collision
  import opened Tokens
  import opened LootGenerator
  import opened World
  import opened Invariants
  import opened Runs
  import opened CrossMap
  import opened Offices
  import opened Snapshot
  import opened RoundTrip
  import opened Witnesses

  const SQUARE: Road := Horizontal(Cell(0, 0), 10)

  const BALL: Loot := Loot(0, 0, Coords(0.0, 0.0), true)

  lemma OverOne(q: real)
    ensures q / 1.0 == q
  {
  }

  lemma UnitLength()
    ensures SqLength(Coords(1.0, 0.0)) == 1.0
  {
  }

  lemma UnitDot(u: real)
    ensures Dot(Coords(u, 0.0), Coords(1.0, 0.0)) == u
  {
  }

  lemma SquareOf(u: real)
    ensures SqLength(Coords(u, 0.0)) == u * u
  {
  }

  lemma UnitProject(u: real)
    ensures Project(u * u, u, 1.0) == CollectionResult(0.0, u)
  {
    OverOne(u * u);
    OverOne(u);
  }

  lemma UnitStepAt(a: Coords, b: Coords, c: Coords, u: real)
    requires a != b && Minus(b, a) == Coords(1.0, 0.0) && Minus(c, a) == Coords(u, 0.0)
    ensures TryCollectPoint(a, b, c) == CollectionResult(0.0, u)
  {
    hide SqLength, Dot, Project, Minus;
    UnitLength();
    UnitDot(u);
    SquareOf(u);
    UnitProject(u);
  }

  /** A segment of length one along the street, seen from another point of it. */
  lemma UnitStep(x: real, y: real)
    ensures Coords(x, 0.0) != Coords(x + 1.0, 0.0)
    ensures TryCollectPoint(Coords(x, 0.0), Coords(x + 1.0, 0.0), Coords(y, 0.0)) == CollectionResult(0.0, y - x)
  {
    hide TryCollectPoint;
    UnitStepAt(Coords(x, 0.0), Coords(x + 1.0, 0.0), Coords(y, 0.0), y - x);
  }

  /** A second of running along the street. */
  lemma RunsOneUnit(x: int)
    requires 0 <= x < 10
    ensures Move([SQUARE], Coords(x as real, 0.0), Coords(1.0, 0.0), 1000) == Moved(Coords(x as real + 1.0, 0.0), false)
  {
    var pos := Coords(x as real, 0.0);
    assert Way(Right, Coords(1.0, 0.0), 1000) == 1.0;
    CellOfAtCell(Cell(x, 0));
    MoveMeetsClosedForm(Right, [SQUARE], pos, 1.0);
    assert SQUARE in [SQUARE] && Indexed(SQUARE, CellOf(pos)) && Allows(Right, SQUARE, x as real + 1.0);
    assert SQUARE in Consulted([SQUARE], pos);
  }

  /** The draws of a session in which everything lies where it is put first, and is of type 0. */
  function Drawn(id: string, weight: real): SessionDraw { SessionDraw(id, weight, (k: nat) => LootDraw(0, HERE)) }

  // ---------------------------------------------------------------- an office that does not pay

  predicate IsSquare(m: MapInfo) {
    m.roads == [SQUARE] && m.offices == [Cell(2, 0)] && m.lootValues == [5] && m.dogSpeed == 1.0 && m.bagCapacity == 0
  }

  /** The first player runs with an empty bag. */
  ghost predicate SetsOut(w: World, m: MapInfo) {
    && w.game.config == LoneConfig(m) && w.game.lootNumber == 0 && w.game.loot == []
    && w.game.sessions == map[m.id := SessionState(m, 1, {}, 3, 0)]
    && w.tokens.owner == map[FirstToken() := 0]
    && |w.players| == 1
    && var p := w.players[0];
       && p.online && p.session == SessionState(m, 1, {}, 3, 0)
       && p.dog.pos == Coords(0.0, 0.0) && p.dog.speed == Coords(1.0, 0.0) && p.dog.bag == [] && p.dog.capacity == 3
  }

  function FirstSecond(m: MapInfo): TickInput {
    TickInput(1000, [Drawn(m.id, 1.0)], [GatheringEvent(0, 0, 0.0, 0.0)], [])
  }

  /** The first player has the ball and is about to reach the office. */
  ghost predicate Carries(w: World, m: MapInfo, dogs: nat) {
    && w.game.config == LoneConfig(m) && w.game.loot == [BALL.(visible := false)]
    && w.game.sessions == map[m.id := SessionState(m, dogs, {}, 3, 0)]
    && w.tokens.owner.Keys == (if dogs == 1 then {FirstToken()} else {FirstToken(), TokenText(1, 0)})
    && |w.players| == dogs && dogs >= 1
    && w.players[0].online && w.players[0].session == SessionState(m, 1, {}, 3, 0)
    && w.players[0].dog.pos == Coords(1.0, 0.0) && w.players[0].dog.speed == Coords(1.0, 0.0)
    && w.players[0].dog.bag == [BALL] && w.players[0].dog.uuid == 0
    && (dogs == 2 ==> w.players[1].online && w.players[1].dog.speed == Coords(0.0, 0.0))
  }

  lemma DrawnBall(g: GameState, m: MapInfo)
    requires m.roads == [SQUARE] && m.lootValues == [5] && !g.config.random && g.lootNumber == 0 && g.loot == []
    requires m.id in g.sessions && g.sessions[m.id] == SessionState(m, 1, {}, 3, 0)
    ensures GenerateFor(g, 1000, Drawn(m.id, 1.0)) ==
            g.(loot := [BALL], lootNumber := 1, lootClock := 0,
               sessions := g.sessions[m.id := SessionState(m, 1, {0}, 3, 0)])
  {
    var draw := Drawn(m.id, 1.0);
    assert Generated(0, 1, 1.0) == 1;
    var h := g.(lootClock := 0);
    assert AddLoots(h, m.id, draw.items, 0) == h;
    assert AddLoots(h, m.id, draw.items, 1) == AddLoot(h, m.id, draw.items(0));
  }

  lemma DrawnNothing(g: GameState, id: string)
    ensures GenerateFor(g, 1000, Drawn(id, 0.0)) == g.(lootClock := GenerateFor(g, 1000, Drawn(id, 0.0)).lootClock)
  {
  }

  lemma OneDraw(g: GameState, d: SessionDraw)
    ensures GenerateLoot(g, 1000, [d]) == GenerateFor(g, 1000, d)
  {
    assert [d][..0] == [];
    assert GenerateLoot(g, 1000, [d][..0]) == g;
  }

  lemma TwoDraws(g: GameState, d: SessionDraw, e: SessionDraw)
    ensures GenerateLoot(g, 1000, [d, e]) == GenerateFor(GenerateFor(g, 1000, d), 1000, e)
  {
    OneDraw(g, d);
    assert [d, e][..1] == [d];
  }

  /** The only event of the first tick: the ball is picked up where it lies. */
  lemma BallIsPassed()
    ensures Detected([Item(Coords(0.0, 0.0), 0.0)], [Gatherer(Coords(0.0, 0.0), Coords(1.0, 0.0), DOG_WIDTH)],
                     [GatheringEvent(0, 0, 0.0, 0.0)])
    ensures Detected([Item(Coords(2.0, 0.0), OFFICE_WIDTH)], [Gatherer(Coords(0.0, 0.0), Coords(1.0, 0.0), DOG_WIDTH)],
                     [])
  {
    hide TryCollectPoint;
    UnitStep(0.0, 0.0);
    UnitStep(0.0, 2.0);
    var gatherers := [Gatherer(Coords(0.0, 0.0), Coords(1.0, 0.0), DOG_WIDTH)];
    OneDetected([Item(Coords(0.0, 0.0), 0.0)], gatherers, GatheringEvent(0, 0, 0.0, 0.0));
    NothingDetected([Item(Coords(2.0, 0.0), OFFICE_WIDTH)], gatherers);
  }

  lemma OneOffice(m: MapInfo)
    requires IsSquare(m)
    ensures OfficeItems([m]) == [Item(Coords(2.0, 0.0), OFFICE_WIDTH)]
  {
    assert OfficeItems([m]) == OfficesOf(m.offices) + OfficeItems([]);
  }

  lemma BallIsTaken(s: Gathering, m: MapInfo)
    requires s.game.loot == [BALL] && s.game.sessions == map[m.id := SessionState(m, 1, {0}, 3, 0)]
    requires |s.players| == 1 && s.players[0].dog.bag == [] && s.players[0].dog.capacity == 3
    ensures Gather(s, [m.id], [GatheringEvent(0, 0, 0.0, 0.0)]) ==
            Gathering(s.game.(loot := [BALL.(visible := false)], sessions := map[m.id := SessionState(m, 1, {}, 3, 0)]),
                      [s.players[0].(dog := s.players[0].dog.(bag := [BALL]))])
  {
    var events := [GatheringEvent(0, 0, 0.0, 0.0)];
    assert events[..0] == [];
    assert Gather(s, [m.id], events) == GatherOne(s, [m.id], events[0]);
    assert HolderOf(s.game.sessions, [m.id], 0) == Some(m.id);
    assert {0} - {0} == {};
    var u := Take(s, m.id, 0, 0);
    assert u.game.sessions[m.id] == SessionState(m, 1, {}, 3, 0);
    assert u.game.sessions == map[m.id := SessionState(m, 1, {}, 3, 0)];
    assert s.players[0].dog.bag + [BALL] == [BALL];
    assert u.players == [s.players[0].(dog := s.players[0].dog.(bag := [BALL]))];
  }

  lemma FirstSecondPasses(w: World, m: MapInfo)
    requires SetsOut(w, m) && IsSquare(m) && w.players[0].dog.uuid == 0
    ensures TickPossible(w, FirstSecond(m)) && Carries(Tick(w, FirstSecond(m)), m, 1)
  {
    hide Detected, Move, GenerateLoot, GenerateFor, OfficeItems, Gather;
    var t := FirstSecond(m);
    var v := Underway(w, t);
    OneDraw(w.game, Drawn(m.id, 1.0));
    DrawnBall(w.game, m);
    RunsOneUnit(0);
    assert v.players == [StepPlayer(w.players[0], 1000, 60.0)];
    assert LootItems(v.game.loot) == [Item(Coords(0.0, 0.0), 0.0)];
    assert DogGatherers(v.players) == [Gatherer(Coords(0.0, 0.0), Coords(1.0, 0.0), DOG_WIDTH)];
    BallIsPassed();
    OneOffice(m);
    assert Order(t.plan) == [m.id] && m.id in [m.id];
    BallIsTaken(Gathering(v.game, v.players), m);
  }

  lemma RunnerJoins(m: MapInfo)
    requires IsSquare(m)
    ensures Possible(Start(LoneConfig(m)), Joining(m))
    ensures var w := Apply(Start(LoneConfig(m)), Joining(m));
            && Possible(w, Turning("R"))
            && SetsOut(Apply(w, Turning("R")), m) && Apply(w, Turning("R")).players[0].dog.uuid == 0
  {
    LoneJoins(m);
    LoneTurns(Apply(Start(LoneConfig(m)), Joining(m)), m, "R");
  }

  function Another(m: MapInfo): Event { JoinEvent("bim", m.id, 1, HERE, SECOND_DRAW) }

  lemma AnotherJoins(w: World, m: MapInfo)
    requires Carries(w, m, 1)
    ensures DrawsFresh(w.tokens, SECOND_DRAW)
    ensures Possible(w, Another(m)) && Carries(Apply(w, Another(m)), m, 2)
  {
    hide Tick, TickPossible, Act, TokenOf;
    TokensDiffer();
    assert TokenText(SECOND_DRAW[0].first, SECOND_DRAW[0].second) !in w.tokens.owner;
    assert FindMap(w.game.config.maps, m.id) == Some(m);
  }

  function SecondSecond(m: MapInfo): TickInput {
    TickInput(1000, [Drawn(m.id, 0.0)], [], [GatheringEvent(0, 0, 0.0, 1.0)])
  }

  lemma OfficeIsPassed(at: Coords)
    ensures var gatherers := [Gatherer(Coords(1.0, 0.0), Coords(2.0, 0.0), DOG_WIDTH), Gatherer(at, at, DOG_WIDTH)];
            && Detected([Item(Coords(0.0, 0.0), 0.0)], gatherers, [])
            && Detected([Item(Coords(2.0, 0.0), OFFICE_WIDTH)], gatherers, [GatheringEvent(0, 0, 0.0, 1.0)])
  {
    hide TryCollectPoint;
    UnitStep(1.0, 0.0);
    UnitStep(1.0, 2.0);
    var gatherers := [Gatherer(Coords(1.0, 0.0), Coords(2.0, 0.0), DOG_WIDTH), Gatherer(at, at, DOG_WIDTH)];
    NothingDetected([Item(Coords(0.0, 0.0), 0.0)], gatherers);
    OneDetected([Item(Coords(2.0, 0.0), OFFICE_WIDTH)], gatherers, GatheringEvent(0, 0, 0.0, 1.0));
  }

  lemma SecondSecondPasses(w: World, m: MapInfo)
    requires Carries(w, m, 2) && IsSquare(m)
    ensures TickPossible(w, SecondSecond(m)) && |Tick(w, SecondSecond(m)).players| == 2
    ensures Tick(w, SecondSecond(m)).players[0].dog.bag == [BALL]
  {
    hide Detected, Move, GenerateLoot, OfficeItems;
    var t := SecondSecond(m);
    var v := Underway(w, t);
    QuietGeneratesNothing(w.game, 1000, t.plan);
    RunsOneUnit(1);
    var p, q := StepPlayer(w.players[0], 1000, 60.0), StepPlayer(w.players[1], 1000, 60.0);
    assert v.players == [p, q];
    StandsStill(w.players[1], 1000);
    assert LootItems(v.game.loot) == [Item(Coords(0.0, 0.0), 0.0)];
    assert DogGatherers(v.players) ==
           [Gatherer(Coords(1.0, 0.0), Coords(2.0, 0.0), DOG_WIDTH), Gatherer(q.dog.pos, q.dog.pos, DOG_WIDTH)];
    OfficeIsPassed(q.dog.pos);
    OneOffice(m);
    assert Order(t.plan) == [m.id] && m.id in [m.id];
    var u := GatherLoot(v, t);
    assert u.players == v.players && u.game == v.game;
    CashInEmptiesIff(p, u.game.sessions, [m.id]);
    assert !Matches(p, u.game.sessions, [m.id]);
  }

  lemma StandsStill(p: PlayerState, ms: int)
    requires p.online && p.dog.speed == Coords(0.0, 0.0)
    ensures var q := StepPlayer(p, ms, 60.0); q.dog.start == q.dog.pos == p.dog.pos
  {
  }

  /** A player with a full bag passes an office first of all, and is not paid: since that player joined, another has. */
  lemma OfficeDoesNotPay(m: MapInfo) returns (events: seq<Event>, t: TickInput)
    requires IsSquare(m)
    ensures var w := Start(LoneConfig(m));
            && IsRun(w, events) && TickPossible(After(w, events), t)
            && |t.officeEvents| == 1 && t.officeEvents[0].gatherer == 0
            && |After(w, events).players| == |Tick(After(w, events), t).players| == 2
            && After(w, events).players[0].dog.bag == Tick(After(w, events), t).players[0].dog.bag == [BALL]
  {
    hide IsRun, After, Possible, Apply, IsSquare, Tick, TickPossible;
    var w0 := Start(LoneConfig(m));
    NoEventsYet(w0);
    RunnerJoins(m);
    events := AndThen(w0, [], w0, Joining(m));
    var w1 := Apply(w0, Joining(m));
    events := AndThen(w0, events, w1, Turning("R"));
    var w2 := Apply(w1, Turning("R"));
    FirstSecondPasses(w2, m);
    IsTick(w2, FirstSecond(m));
    events := AndThen(w0, events, w2, TickEvent(FirstSecond(m)));
    var w3 := Apply(w2, TickEvent(FirstSecond(m)));
    AnotherJoins(w3, m);
    events := AndThen(w0, events, w3, Another(m));
    SecondSecondPasses(Apply(w3, Another(m)), m);
    t := SecondSecond(m);
  }

  lemma IsTick(w: World, t: TickInput)
    ensures Possible(w, TickEvent(t)) <==> TickPossible(w, t)
    ensures Apply(w, TickEvent(t)) == Tick(w, t)
  {
  }

  // ---------------------------------------------------------------- two maps

  predicate IsPlain(m: MapInfo) {
    m.roads == [SQUARE] && m.offices == [] && m.lootValues == [5] && m.dogSpeed == 1.0 && m.bagCapacity == 0
  }

  predicate ArePlain(a: MapInfo, b: MapInfo) { IsPlain(a) && IsPlain(b) && a.id != b.id }

  function PairConfig(a: MapInfo, b: MapInfo): Config { Config([a, b], false, 3, 60.0) }

  function OneDog(m: MapInfo): SessionState { SessionState(m, 1, {}, 3, 0) }

  function Arrival(id: int, m: MapInfo): PlayerState {
    PlayerState(id, OneDog(m),
                DogState(if id == 0 then "rex" else "bim", 0, id, 1.0, Coords(0.0, 0.0), Coords(0.0, 0.0),
                                        Coords(0.0, 0.0), "U", [], 3, 0.0, 0.0, 0.0), 0, true)
  }

  /** One player on each map. */
  function PairGame(a: MapInfo, b: MapInfo): GameState {
    GameState(PairConfig(a, b), 0.0, 0, 0, [], map[a.id := OneDog(a), b.id := OneDog(b)])
  }

  function Pair(a: MapInfo, b: MapInfo): World {
    World(PairGame(a, b), [Arrival(0, a), Arrival(1, b)],
          Issue(Issue(TokenTable([], map[]), FirstToken(), 0), TokenText(1, 0), 1), [])
  }

  lemma PairJoins(a: MapInfo, b: MapInfo) returns (events: seq<Event>)
    requires ArePlain(a, b)
    ensures IsRun(Start(PairConfig(a, b)), events) && After(Start(PairConfig(a, b)), events) == Pair(a, b)
  {
    var w0 := Start(PairConfig(a, b));
    var e, f := Joining(a), Another(b);
    FirstOfPair(a, b);
    SecondOfPair(a, b);
    hide IsRun, After, Possible, Apply;
    NoEventsYet(w0);
    events := AndThen(w0, [], w0, e);
    events := AndThen(w0, events, Apply(w0, e), f);
  }

  function Half(a: MapInfo, b: MapInfo): World {
    World(PairGame(a, b).(sessions := map[a.id := OneDog(a)]), [Arrival(0, a)],
          Issue(TokenTable([], map[]), FirstToken(), 0), [])
  }

  lemma FirstOfPair(a: MapInfo, b: MapInfo)
    requires ArePlain(a, b)
    ensures Possible(Start(PairConfig(a, b)), Joining(a)) && Apply(Start(PairConfig(a, b)), Joining(a)) == Half(a, b)
  {
    var w := Start(PairConfig(a, b));
    assert FindMap(w.game.config.maps, a.id) == Some(a);
    assert TokenText(FIRST_DRAW[0].first, FIRST_DRAW[0].second) !in w.tokens.owner;
    assert GetGameSession(w.game, a).sessions[a.id] == SessionState(a, 0, {}, 3, 0);
  }

  lemma SecondEnters(a: MapInfo, b: MapInfo)
    requires ArePlain(a, b)
    ensures EnterGame(Half(a, b).game, b) == PairGame(a, b)
    ensures NewPlayer(Half(a, b).game, 1, b, "bim", 1, HERE) == Arrival(1, b)
  {
    assert GetGameSession(Half(a, b).game, b).sessions[b.id] == SessionState(b, 0, {}, 3, 0);
  }

  lemma SecondOfPair(a: MapInfo, b: MapInfo)
    requires ArePlain(a, b)
    ensures Possible(Half(a, b), Another(b)) && Apply(Half(a, b), Another(b)) == Pair(a, b)
  {
    hide EnterGame, NewPlayer, TokenText, FindMap;
    var w := Half(a, b);
    TokensDiffer();
    SecondEnters(a, b);
    FindsSecond(a, b);
    assert TokenText(SECOND_DRAW[0].first, SECOND_DRAW[0].second) !in w.tokens.owner;
  }

  lemma FindsSecond(a: MapInfo, b: MapInfo)
    requires a.id != b.id
    ensures FindMap([a, b], b.id) == Some(b)
  {
    assert [a, b][1..] == [b];
  }

  /** The ball appears on one of the maps. */
  lemma PairBallAppears(g: GameState, x: MapInfo, y: MapInfo)
    requires IsPlain(x) && x.id != y.id && !g.config.random && g.lootNumber == 0 && g.loot == []
    requires g.sessions == map[x.id := OneDog(x), y.id := OneDog(y)]
    ensures var plan := [Drawn(x.id, 1.0), Drawn(y.id, 0.0)];
            var h := GenerateLoot(g, 1000, plan);
            && Order(plan) == [x.id, y.id] && IsOrder([x.id, y.id], g.sessions.Keys)
            && h == g.(loot := [BALL], lootNumber := 1, lootClock := h.lootClock,
                       sessions := map[x.id := OneDog(x).(loot := {0}), y.id := OneDog(y)])
  {
    hide GenerateFor, GenerateLoot;
    TwoDraws(g, Drawn(x.id, 1.0), Drawn(y.id, 0.0));
    DrawnBall(g, x);
    DrawnNothing(GenerateFor(g, 1000, Drawn(x.id, 1.0)), y.id);
    var order := [x.id, y.id];
    assert order[0] == x.id && order[1] == y.id;
  }

  lemma NoOffices(a: MapInfo, b: MapInfo)
    requires a.offices == [] && b.offices == []
    ensures OfficeItems([a, b]) == []
  {
    assert [a, b][1..] == [b] && [b][1..] == [];
    assert OfficeItems([b]) == OfficesOf(b.offices) + OfficeItems([]);
    assert OfficeItems([a, b]) == OfficesOf(a.offices) + OfficeItems([b]);
  }

  // ---------------------------------------------------------------- a restart that mixes up loot

  function BallOn(a: MapInfo, b: MapInfo): TickInput {
    TickInput(1000, [Drawn(a.id, 1.0), Drawn(b.id, 0.0)], [], [])
  }

  lemma BallLies(a: MapInfo, b: MapInfo)
    requires ArePlain(a, b)
    ensures TickPossible(Pair(a, b), BallOn(a, b))
    ensures var g := Tick(Pair(a, b), BallOn(a, b)).game;
            && g.config == PairConfig(a, b)
            && g.sessions == map[a.id := OneDog(a).(loot := {0}), b.id := OneDog(b)]
  {
    hide Detected, GenerateLoot, OfficeItems;
    var w, t := Pair(a, b), BallOn(a, b);
    var v := Underway(w, t);
    PairBallAppears(w.game, a, b);
    NoOffices(a, b);
    StandsStill(w.players[0], 1000);
    StandsStill(w.players[1], 1000);
    NothingDetected(LootItems(v.game.loot), DogGatherers(v.players));
    NothingDetected([], DogGatherers(v.players));
  }

  lemma PairIsActive(g: GameState, a: MapInfo, b: MapInfo)
    requires g.config.maps == [a, b] && a.id in g.sessions && b.id in g.sessions
    ensures Active(g) == [a.id, b.id]
  {
    assert [a, b][..1] == [a] && [a][..0] == [];
    assert ActiveMaps([a], g.sessions) == [a.id];
  }

  /** A reachable state with two sessions and one object lying about: no restart gives the invariant back. */
  lemma RestartBreaksPartition(a: MapInfo, b: MapInfo) returns (events: seq<Event>)
    requires ArePlain(a, b)
    ensures IsRun(Start(PairConfig(a, b)), events)
    ensures var w := After(Start(PairConfig(a, b)), events);
            && ListsLoot(w.game, [[0], []])
            && forall listing, d :: ListsLoot(w.game, listing) ==> !Inv(Restored(w, listing, d))
  {
    var w0 := Start(PairConfig(a, b));
    events := PairJoins(a, b);
    BallLies(a, b);
    IsTick(Pair(a, b), BallOn(a, b));
    events := AndThen(w0, events, Pair(a, b), TickEvent(BallOn(a, b)));
    RunIsGood(w0, events, a, b);
    NoRestartHelps(After(w0, events), a, b);
  }

  lemma RunIsGood(w: World, events: seq<Event>, a: MapInfo, b: MapInfo)
    requires w == Start(PairConfig(a, b)) && ArePlain(a, b) && IsRun(w, events)
    ensures Inv(After(w, events))
  {
    StartOk(PairConfig(a, b));
    RunKeeps(w, events);
  }

  lemma NoRestartHelps(w: World, a: MapInfo, b: MapInfo)
    requires Inv(w) && w.game.config.maps == [a, b] && a.id != b.id
    requires w.game.sessions == map[a.id := OneDog(a).(loot := {0}), b.id := OneDog(b)]
    ensures ListsLoot(w.game, [[0], []])
    ensures forall listing, d :: ListsLoot(w.game, listing) ==> !Inv(Restored(w, listing, d))
  {
    hide Inv, Restored;
    PairIsActive(w.game, a, b);
    assert a.id in w.game.sessions && w.game.sessions[a.id].loot != {};
    forall listing, d | ListsLoot(w.game, listing)
      ensures !Inv(Restored(w, listing, d))
    {
      RestoreKeepsInvariantIff(w, listing, d);
    }
  }

  // ---------------------------------------------------------------- loot of another map

  function Elsewhere(a: MapInfo, b: MapInfo): TickInput {
    TickInput(1000, [Drawn(b.id, 1.0), Drawn(a.id, 0.0)], [GatheringEvent(0, 0, 0.0, 0.0)], [])
  }

  function Running(a: MapInfo, b: MapInfo): World {
    Pair(a, b).(players := [Arrival(0, a).(dog := SetDirection(Arrival(0, a).dog, "R")), Arrival(1, b)])
  }

  lemma FirstRuns(a: MapInfo, b: MapInfo)
    requires ArePlain(a, b)
    ensures Possible(Pair(a, b), Turning("R")) && Apply(Pair(a, b), Turning("R")) == Running(a, b)
  {
    hide Tick, TickPossible, Join, DrawsFresh, DrawsInRange;
    TokensDiffer();
  }

  lemma TakenElsewhere(a: MapInfo, b: MapInfo)
    requires ArePlain(a, b)
    ensures var w, t := Running(a, b), Elsewhere(a, b);
            && TickPossible(w, t)
            && Holds(Underway(w, t).game, b.id, 0)
            && |Tick(w, t).players| == 2 && OwnMap(Tick(w, t).players[0]) == a.id
            && Tick(w, t).players[0].dog.bag == [BALL]
  {
    hide Detected, GenerateLoot, OfficeItems, Move;
    var w, t := Running(a, b), Elsewhere(a, b);
    var v := Underway(w, t);
    assert w.game.sessions == map[b.id := OneDog(b), a.id := OneDog(a)];
    PairBallAppears(w.game, b, a);
    NoOffices(a, b);
    RunsOneUnit(0);
    StandsStill(w.players[1], 1000);
    var at := w.players[1].dog.pos;
    assert LootItems(v.game.loot) == [Item(Coords(0.0, 0.0), 0.0)];
    assert DogGatherers(v.players) ==
           [Gatherer(Coords(0.0, 0.0), Coords(1.0, 0.0), DOG_WIDTH), Gatherer(at, at, DOG_WIDTH)];
    BallIsPassedByOne(at);
    var s := Gathering(v.game, v.players);
    assert t.lootEvents[..0] == [];
    assert Gather(s, [b.id, a.id], t.lootEvents) == GatherOne(s, [b.id, a.id], t.lootEvents[0]);
    assert HolderOf(s.game.sessions, [b.id, a.id], 0) == Some(b.id);
  }

  lemma BallIsPassedByOne(at: Coords)
    ensures var gatherers := [Gatherer(Coords(0.0, 0.0), Coords(1.0, 0.0), DOG_WIDTH), Gatherer(at, at, DOG_WIDTH)];
            && Detected([Item(Coords(0.0, 0.0), 0.0)], gatherers, [GatheringEvent(0, 0, 0.0, 0.0)])
            && Detected([], gatherers, [])
  {
    hide TryCollectPoint;
    UnitStep(0.0, 0.0);
    var gatherers := [Gatherer(Coords(0.0, 0.0), Coords(1.0, 0.0), DOG_WIDTH), Gatherer(at, at, DOG_WIDTH)];
    OneDetected([Item(Coords(0.0, 0.0), 0.0)], gatherers, GatheringEvent(0, 0, 0.0, 0.0));
    NothingDetected([], gatherers);
  }

  /** A reachable tick in which a dog on one map takes what lies on another. */
  lemma DogTakesLootOfAnotherMap(a: MapInfo, b: MapInfo) returns (events: seq<Event>, t: TickInput)
    requires ArePlain(a, b)
    ensures var w := Start(PairConfig(a, b));
            && IsRun(w, events) && TickPossible(After(w, events), t)
            && var v := After(w, events);
               && Holds(Underway(v, t).game, b.id, 0)
               && |Tick(v, t).players| == 2 && OwnMap(Tick(v, t).players[0]) == a.id
               && Tick(v, t).players[0].dog.bag == [BALL]
  {
    hide IsRun, After, Possible, Apply, Tick, TickPossible, Pair, Running, Underway;
    var w0 := Start(PairConfig(a, b));
    events := PairJoins(a, b);
    FirstRuns(a, b);
    events := AndThen(w0, events, Pair(a, b), Turning("R"));
    TakenElsewhere(a, b);
    t := Elsewhere(a, b);
  }
}
