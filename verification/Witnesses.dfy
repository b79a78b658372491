/** Concrete runs of the game, from its start, that show what the code does not keep. */
module Witnesses {
  import opened Basics
  import opened Roads
  import opened Movement
  import opened Strips
  import opened Collision
  import opened Tokens
  import opened World

  // ---------------------------------------------------------------- building runs

  lemma {:induction false} Extend(w: World, events: seq<Event>, e: Event)
    requires IsRun(w, events) && Possible(After(w, events), e)
    ensures IsRun(w, events + [e]) && After(w, events + [e]) == Apply(After(w, events), e)
    decreases |events|
  {
    hide TickPossible, DrawsInRange, Apply;
    var longer := events + [e];
    if events == [] {
      assert longer == [e] && longer[1..] == [];
    } else {
      assert longer[0] == events[0] && longer[1..] == events[1..] + [e];
      Extend(Apply(w, events[0]), events[1..], e);
    }
  }

  /** One more event at the end of a run that has led to w. */
  lemma AndThen(start: World, events: seq<Event>, w: World, e: Event) returns (longer: seq<Event>)
    requires IsRun(start, events) && After(start, events) == w && Possible(w, e)
    ensures |longer| == |events| + 1 && IsRun(start, longer) && After(start, longer) == Apply(w, e)
  {
    hide IsRun, After, Possible, Apply;
    Extend(start, events, e);
    longer := events + [e];
  }

  lemma NoEventsYet(w: World)
    ensures IsRun(w, []) && After(w, []) == w
  {
  }

  const HERE := SpotDraw(0, 0, 0)

  const FIRST_DRAW := [Draws(0, 0)]

  const SECOND_DRAW := [Draws(1, 0)]

  function FirstToken(): string { TokenText(0, 0) }

  lemma TokensDiffer()
    ensures TokenText(1, 0) != TokenText(0, 0)
    ensures TokenOf(BEARER + TokenText(0, 0)) == Some(TokenText(0, 0))
  {
    assert TokenText(0, 0)[0] == '0' && TokenText(1, 0)[0] == '1';
    TokenIsValid(0, 0);
    TokenOfBearer(TokenText(0, 0));
  }

  /** A tick in which no loot appears, in sessions listed by the plan. */
  function Quiet(ids: seq<string>): seq<SessionDraw> {
    seq(|ids|, i requires 0 <= i < |ids| => SessionDraw(ids[i], 0.0, (k: nat) => LootDraw(0, HERE)))
  }

  lemma {:induction false} QuietGeneratesNothing(g: GameState, ms: int, plan: seq<SessionDraw>)
    requires forall d :: d in plan ==> d.weight <= 0.0
    ensures GenerateLoot(g, ms, plan) == g.(lootClock := GenerateLoot(g, ms, plan).lootClock)
  {
    if plan != [] {
      QuietGeneratesNothing(g, ms, plan[..|plan| - 1]);
    }
  }

  lemma NothingDetected(items: seq<Item>, gatherers: seq<Gatherer>)
    requires forall e :: !IsEvent(items, gatherers, e)
    ensures Detected(items, gatherers, [])
  {
  }

  lemma OneDetected(items: seq<Item>, gatherers: seq<Gatherer>, e: GatheringEvent)
    requires forall x :: IsEvent(items, gatherers, x) <==> x == e
    ensures Detected(items, gatherers, [e])
  {
  }

  /** A tick without loot and offices moves the players and does nothing else. */
  lemma EmptyTick(w: World, ms: int, plan: seq<SessionDraw>)
    requires w.game.loot == [] && OfficeItems(w.game.config.maps) == []
    requires IsOrder(Order(plan), w.game.sessions.Keys) && forall d :: d in plan ==> d.weight <= 0.0
    ensures var t := TickInput(ms, plan, [], []);
            && TickPossible(w, t)
            && Tick(w, t).players == StepPlayers(w.players, ms, w.game.config.retirementTime)
            && Tick(w, t).tokens == w.tokens
            && Tick(w, t).game == w.game.(timer := Tick(w, t).game.timer, lootClock := Tick(w, t).game.lootClock)
  {
    QuietGeneratesNothing(w.game, ms, plan);
    var v := Underway(w, TickInput(ms, plan, [], []));
    NothingDetected(LootItems(v.game.loot), DogGatherers(v.players));
    NothingDetected(OfficeItems(v.game.config.maps), DogGatherers(v.players));
  }

  // ---------------------------------------------------------------- a lone player

  function LoneConfig(m: MapInfo): Config { Config([m], false, 3, 60.0) }

  function Joining(m: MapInfo): Event { JoinEvent("rex", m.id, 0, HERE, FIRST_DRAW) }

  function Turning(direction: string): Event { ActionEvent(BEARER + FirstToken(), direction) }

  function Passing(m: MapInfo, ms: int): Event { TickEvent(TickInput(ms, Quiet([m.id]), [], [])) }

  /** One player alone on a map without loot. */
  ghost predicate Lone(w: World, m: MapInfo) {
    && w.game.config == LoneConfig(m)
    && w.game.loot == [] && w.game.sessions.Keys == {m.id}
    && |w.players| == 1 && w.players[0].session.mapInfo == m && w.players[0].online
    && w.players[0].dog.nominalSpeed == Trunc(m.dogSpeed) as real
    && w.tokens.owner == map[FirstToken() := 0]
  }

  lemma LoneJoins(m: MapInfo)
    ensures Possible(Start(LoneConfig(m)), Joining(m))
    ensures var w := Apply(Start(LoneConfig(m)), Joining(m));
            && Lone(w, m)
            && w.players[0].dog.pos == AtCell(m.roads[0].start) && w.players[0].dog.speed == Coords(0.0, 0.0)
  {
    assert Start(LoneConfig(m)).game.config.maps == [m];
    assert TokenText(FIRST_DRAW[0].first, FIRST_DRAW[0].second) !in Start(LoneConfig(m)).tokens.owner;
  }

  lemma LoneTurns(w: World, m: MapInfo, direction: string)
    requires Lone(w, m)
    ensures Possible(w, Turning(direction))
    ensures Apply(w, Turning(direction)) ==
            w.(players := [w.players[0].(dog := SetDirection(w.players[0].dog, direction))])
    ensures Lone(Apply(w, Turning(direction)), m)
  {
    TokensDiffer();
  }

  lemma LonePasses(w: World, m: MapInfo, ms: int)
    requires Lone(w, m) && m.offices == [] && IsMoving(w.players[0].dog.speed)
    ensures Possible(w, Passing(m, ms))
    ensures Apply(w, Passing(m, ms)).players == [StepPlayer(w.players[0], ms, 60.0)]
    ensures Lone(Apply(w, Passing(m, ms)), m)
  {
    assert Order(Quiet([m.id])) == [m.id];
    assert m.id in [m.id];
    EmptyTick(w, ms, Quiet([m.id]));
    assert w.players == [w.players[0]];
  }

  // ---------------------------------------------------------------- leaving the nominal width

  const LANE: Road := Vertical(Cell(5, 0), 10)

  const STREET: Road := Horizontal(Cell(0, 0), 4)

  const LONG_STREET: Road := Horizontal(Cell(0, 0), 10)

  lemma TickMoves(p: PlayerState, ms: int)
    requires p.online
    ensures StepPlayer(p, ms, 60.0).dog.pos == Move(p.session.mapInfo.roads, p.dog.pos, p.dog.speed, ms).pos
    ensures StepPlayer(p, ms, 60.0).session == p.session
  {
  }

  /** The overshoot lets a dog out of its lane: it ends between the lane and a street whose index reaches one cell too
      far, in no strip of either. */
  lemma OvershootMove()
    ensures var roads := [LANE, STREET];
            && HeadingOf(Coords(-1.0, 0.0)) == Some(Left)
            && Move(roads, Coords(5.0, 0.0), Coords(-1.0, 0.0), 450).pos == Coords(4.55, 0.0)
            && OnTarmac(roads, Coords(5.0, 0.0)) && !OnTarmac(roads, Coords(4.55, 0.0))
  {
    var roads := [LANE, STREET];
    var pos := Coords(5.0, 0.0);
    var m := MoveBy(Left, roads, pos, 0.45);
    assert Way(Left, Coords(-1.0, 0.0), 450) == 0.45;
    MoveMeetsClosedForm(Left, roads, pos, 0.45);
    assert STREET in roads && Indexed(STREET, CellOf(pos)) && Allows(Left, STREET, -4.55);
    assert STREET in Consulted(roads, pos);
    assert InStrip(LANE, pos, HALF_WIDTH);
  }

  /** A dog that has stopped beside the axis of a lane turns into it. */
  lemma CrossingMove()
    ensures var roads := [LONG_STREET, LANE];
            && Move(roads, Coords(0.0, 0.0), Coords(1.0, 0.0), 5450).pos == Coords(5.45, 0.0)
            && Move(roads, Coords(5.45, 0.0), Coords(0.0, 1.0), 3000).pos == Coords(5.45, 3.0)
            && OnTarmac(roads, Coords(5.45, 0.0)) && !OnTarmac(roads, Coords(5.45, 3.0))
  {
    var roads := [LONG_STREET, LANE];
    assert Way(Right, Coords(1.0, 0.0), 5450) == 5.45 && Way(Down, Coords(0.0, 1.0), 3000) == 3.0;
    MoveMeetsClosedForm(Right, roads, Coords(0.0, 0.0), 5.45);
    MoveMeetsClosedForm(Down, roads, Coords(5.45, 0.0), 3.0);
    assert LONG_STREET in roads && Indexed(LONG_STREET, CellOf(Coords(0.0, 0.0))) && Allows(Right, LONG_STREET, 5.45);
    assert LONG_STREET in Consulted(roads, Coords(0.0, 0.0));
    assert LANE in roads && Indexed(LANE, CellOf(Coords(5.45, 0.0))) && Allows(Down, LANE, 3.0);
    assert LANE in Consulted(roads, Coords(5.45, 0.0));
    assert InStrip(LONG_STREET, Coords(5.45, 0.0), HALF_WIDTH);
  }

  /** One join, one turn and one tick are enough to leave the nominal width of all roads. */
  lemma OvershootLeavesNominalWidth(m: MapInfo) returns (events: seq<Event>)
    requires m.roads == [LANE, STREET] && m.offices == [] && m.dogSpeed == 1.0
    ensures |events| == 3 && IsRun(Start(LoneConfig(m)), events)
    ensures var w := After(Start(LoneConfig(m)), events);
            |w.players| == 1 && w.players[0].session.mapInfo == m && !OnTarmac(m.roads, w.players[0].dog.pos)
  {
    hide IsRun, After, Possible, Apply, Move, OnTarmac;
    var w0 := Start(LoneConfig(m));
    NoEventsYet(w0);
    LoneJoins(m);
    events := AndThen(w0, [], w0, Joining(m));
    var w1 := Apply(w0, Joining(m));
    LoneTurns(w1, m, "L");
    events := AndThen(w0, events, w1, Turning("L"));
    var w2 := Apply(w1, Turning("L"));
    LonePasses(w2, m, 450);
    events := AndThen(w0, events, w2, Passing(m, 450));
    TickMoves(w2.players[0], 450);
    OvershootMove();
  }

  /** Without any overshoot: a dog goes past a lane by less than half a cell and turns. */
  lemma TurnLeavesNominalWidth(m: MapInfo) returns (events: seq<Event>)
    requires m.roads == [LONG_STREET, LANE] && m.offices == [] && m.dogSpeed == 1.0
    ensures |events| == 5 && IsRun(Start(LoneConfig(m)), events)
    ensures var w := After(Start(LoneConfig(m)), events);
            |w.players| == 1 && w.players[0].session.mapInfo == m && !OnTarmac(m.roads, w.players[0].dog.pos)
  {
    hide IsRun, After, Possible, Apply, Move, OnTarmac;
    var w0 := Start(LoneConfig(m));
    NoEventsYet(w0);
    LoneJoins(m);
    events := AndThen(w0, [], w0, Joining(m));
    var w1 := Apply(w0, Joining(m));
    LoneTurns(w1, m, "R");
    events := AndThen(w0, events, w1, Turning("R"));
    var w2 := Apply(w1, Turning("R"));
    LonePasses(w2, m, 5450);
    events := AndThen(w0, events, w2, Passing(m, 5450));
    var w3 := Apply(w2, Passing(m, 5450));
    TickMoves(w2.players[0], 5450);
    CrossingMove();
    LoneTurns(w3, m, "D");
    events := AndThen(w0, events, w3, Turning("D"));
    var w4 := Apply(w3, Turning("D"));
    LonePasses(w4, m, 3000);
    events := AndThen(w0, events, w4, Passing(m, 3000));
    TickMoves(w4.players[0], 3000);
  }
}
