/** The game as a state machine on values: what a join, an action and a tick do to the whole state.
    The classes of Objects, Games and Applications are proved to do exactly this. */
module World {
  import opened Basics
  import opened Roads
  import opened Movement
  import opened Collision
  import opened Tokens
  import opened LootGenerator

  // ---------------------------------------------------------------- state

  /** Maps are loaded with at least one road: the original takes the front of the list unchecked. */
  type RoadList = roads: seq<Road> | |roads| > 0 witness [Horizontal(Cell(0, 0), 0)]

  /** A loaded map: its roads, the cell-to-roads index, its offices and the values of its loot types. */
  datatype MapInfo = MapInfo(id: string, roads: RoadList, cells: RoadIndex, offices: seq<Cell>,
                             lootValues: seq<int>, dogSpeed: real, bagCapacity: int)

  datatype Loot = Loot(id: int, kind: int, pos: Coords, visible: bool)

  datatype DogState = DogState(name: string, id: int, uuid: int, nominalSpeed: real, pos: Coords, start: Coords,
                               speed: Coords, dir: string, bag: seq<Loot>, capacity: int,
                               lastActivity: real, startTime: real, clock: real)

  /** The loot of a session is given by the ids of the objects it shares with the game. */
  datatype SessionState = SessionState(mapInfo: MapInfo, dogs: nat, loot: set<int>, capacity: int, retired: int) {
    /** unsigned GetNumberOfPlayers() */
    function Looters(): nat { (dogs - retired) % 0x1_0000_0000 }
  }

  /** A player keeps a copy of the session, made when the dog was added. */
  datatype PlayerState = PlayerState(id: int, session: SessionState, dog: DogState, score: int, online: bool)

  datatype Config = Config(maps: seq<MapInfo>, random: bool, bagCapacity: int, retirementTime: real)

  datatype GameState = GameState(config: Config, timer: real, lootClock: int, lootNumber: int, loot: seq<Loot>,
                                 sessions: map<string, SessionState>)

  /** A row of the retired_players table. */
  datatype Record = Record(uuid: int, name: string, score: int, playTime: real)

  datatype World = World(game: GameState, players: seq<PlayerState>, tokens: TokenTable<nat>, records: seq<Record>)

  function Start(config: Config): World {
    World(GameState(config, 0.0, 0, 0, [], map[]), [], TokenTable([], map[]), [])
  }

  // ---------------------------------------------------------------- random values

  /** loot_gen::GetRandomItem: any value from 0 to max, as the draw decides. */
  function RandomItem(max: nat, draw: nat): (r: nat)
    ensures r <= max
    ensures draw <= max ==> r == draw
  {
    draw % (max + 1)
  }

  datatype SpotDraw = SpotDraw(road: nat, x: nat, y: nat)

  function RandomLocation(roads: RoadList, draw: SpotDraw): Cell {
    var r := roads[RandomItem(|roads| - 1, draw.road)];
    Cell(r.MinX() + RandomItem(r.MaxX() - r.MinX(), draw.x), r.MinY() + RandomItem(r.MaxY() - r.MinY(), draw.y))
  }

  function Location(m: MapInfo, random: bool, draw: SpotDraw): Cell {
    if random then RandomLocation(m.roads, draw) else m.roads[0].start
  }

  // ---------------------------------------------------------------- joining and steering

  function FindMap(maps: seq<MapInfo>, id: string): Option<MapInfo> {
    if maps == [] then None else if maps[0].id == id then Some(maps[0]) else FindMap(maps[1..], id)
  }

  /** A map is found exactly if the list has one with the id. */
  lemma {:induction false} FindMapById(maps: seq<MapInfo>, id: string)
    ensures FindMap(maps, id).Some? <==> exists m :: m in maps && m.id == id
    ensures FindMap(maps, id).Some? ==> FindMap(maps, id).value.id == id && FindMap(maps, id).value in maps
  {
    if maps != [] && maps[0].id != id {
      FindMapById(maps[1..], id);
      if m :| m in maps && m.id == id {
        assert m in maps[1..];
      }
    }
  }

  /** A new session replaces whatever session the map had. */
  function StartGameSession(g: GameState, m: MapInfo): GameState {
    g.(sessions := g.sessions[m.id :=
      SessionState(m, 0, {}, if m.bagCapacity != 0 then m.bagCapacity else g.config.bagCapacity, 0)])
  }

  function GetGameSession(g: GameState, m: MapInfo): GameState {
    if m.id in g.sessions then g else StartGameSession(g, m)
  }

  function NewDog(s: SessionState, random: bool, name: string, uuid: int, draw: SpotDraw): DogState {
    var at := AtCell(Location(s.mapInfo, random, draw));
    DogState(name, s.dogs, uuid, Trunc(s.mapInfo.dogSpeed) as real, at, at, Coords(0.0, 0.0), "U", [], s.capacity,
             0.0, 0.0, 0.0)
  }

  function AddDog(s: SessionState): SessionState { s.(dogs := s.dogs + 1) }

  /** GetGameSession, AddDog and Players::Add. */
  function EnterGame(g: GameState, m: MapInfo): GameState {
    var h := GetGameSession(g, m);
    h.(sessions := h.sessions[m.id := AddDog(h.sessions[m.id])])
  }

  function NewPlayer(g: GameState, count: nat, m: MapInfo, name: string, uuid: int, draw: SpotDraw): PlayerState {
    var s := GetGameSession(g, m).sessions[m.id];
    PlayerState(count, AddDog(s), NewDog(s, g.config.random, name, uuid, draw), 0, true)
  }

  function Join(w: World, name: string, mapId: string, uuid: int, spot: SpotDraw, draws: seq<Draws>): World
    requires DrawsFresh(w.tokens, draws)
  {
    match FindMap(w.game.config.maps, mapId)
    case None => w
    case Some(m) =>
      if name == "" then w
      else
        World(EnterGame(w.game, m),
              w.players + [NewPlayer(w.game, |w.players|, m, name, uuid, spot)],
              Issue(w.tokens, FirstFresh(w.tokens, draws), |w.players|),
              w.records)
  }

  function SetDirection(d: DogState, direction: string): DogState {
    var v :=
      if direction == "L" then Coords(-d.nominalSpeed, 0.0)
      else if direction == "R" then Coords(d.nominalSpeed, 0.0)
      else if direction == "U" then Coords(0.0, -d.nominalSpeed)
      else if direction == "D" then Coords(0.0, d.nominalSpeed)
      else Coords(0.0, 0.0);
    d.(speed := v, dir := direction)
  }

  function Act(w: World, header: string, direction: string): World {
    match TokenOf(header)
    case None => w
    case Some(token) =>
      match Find(w.tokens, token)
      case None => w
      case Some(k) =>
        if k < |w.players| && w.players[k].online then
          w.(players := w.players[k := w.players[k].(dog := SetDirection(w.players[k].dog, direction))])
        else w
  }

  // ---------------------------------------------------------------- tick, part 1: loot appears

  datatype LootDraw = LootDraw(kind: nat, spot: SpotDraw)

  /** The random values of one session: the weight of the generator, and a source of loot. */
  datatype SessionDraw = SessionDraw(mapId: string, weight: real, items: nat -> LootDraw)

  /** Types are drawn up to the size of the type list minus one, as an unsigned number. */
  function LootKind(m: MapInfo, draw: nat): int {
    RandomItem((|m.lootValues| - 1) % 0x1_0000_0000, draw)
  }

  function AddLoot(g: GameState, mapId: string, item: LootDraw): GameState
    requires mapId in g.sessions
  {
    var s := g.sessions[mapId];
    var pos := AtCell(Location(s.mapInfo, g.config.random, item.spot));
    g.(loot := g.loot + [Loot(g.lootNumber, LootKind(s.mapInfo, item.kind), pos, true)],
       lootNumber := g.lootNumber + 1,
       sessions := g.sessions[mapId := s.(loot := s.loot + {g.lootNumber})])
  }

  function AddLoots(g: GameState, mapId: string, items: nat -> LootDraw, n: nat): (h: GameState)
    requires mapId in g.sessions
    ensures mapId in h.sessions
  {
    if n == 0 then g else AddLoot(AddLoots(g, mapId, items, n - 1), mapId, items(n - 1))
  }

  function GenerateFor(g: GameState, ms: int, draw: SessionDraw): GameState {
    if draw.mapId !in g.sessions then g
    else
      var s := g.sessions[draw.mapId];
      var n := Generated(|s.loot|, s.Looters(), draw.weight);
      AddLoots(g.(lootClock := if n > 0 then 0 else g.lootClock + ms), draw.mapId, draw.items, n)
  }

  /** Game::GenerateLoot, for sessions iterated in the order of the plan. */
  function GenerateLoot(g: GameState, ms: int, plan: seq<SessionDraw>): GameState {
    if plan == [] then g else GenerateFor(GenerateLoot(g, ms, plan[..|plan| - 1]), ms, plan[|plan| - 1])
  }

  // ---------------------------------------------------------------- tick, part 2: clocks, moves, retirement

  function Seconds(ms: int): real { ms as real / 1000.0 }

  predicate IsMoving(v: Coords) { Abs(v.x - v.y) > EPSILON }

  /** The first half of a player's step: the clock, and the last activity if the dog moves. */
  function Refresh(d: DogState, ms: int): DogState {
    var clock := d.clock + Seconds(ms);
    d.(clock := clock)
  }

  function NoteActivity(d: DogState): DogState {
    if IsMoving(d.speed) then d.(lastActivity := d.clock) else d
  }

  predicate IdleTooLong(d: DogState, retirementTime: real) {
    var idle := d.clock - d.lastActivity;
    idle > retirementTime || Abs(idle - retirementTime) < EPSILON
  }

  predicate Retires(p: PlayerState, ms: int, retirementTime: real) {
    p.online && IdleTooLong(NoteActivity(Refresh(p.dog, ms)), retirementTime)
  }

  function StepDog(d: DogState, roads: seq<Road>, ms: int): DogState {
    var e := NoteActivity(Refresh(d, ms));
    var m := Move(roads, d.pos, d.speed, ms);
    e.(speed := if m.stop then Coords(0.0, 0.0) else d.speed, start := d.pos, pos := m.pos)
  }

  function StepPlayer(p: PlayerState, ms: int, retirementTime: real): PlayerState {
    if !p.online then p.(dog := Refresh(p.dog, ms))
    else p.(dog := StepDog(p.dog, p.session.mapInfo.roads, ms), online := !Retires(p, ms, retirementTime))
  }

  function StepPlayers(players: seq<PlayerState>, ms: int, retirementTime: real): (stepped: seq<PlayerState>)
    ensures |stepped| == |players|
    ensures forall i :: 0 <= i < |players| ==> stepped[i] == StepPlayer(players[i], ms, retirementTime)
  {
    seq(|players|, i requires 0 <= i < |players| => StepPlayer(players[i], ms, retirementTime))
  }

  /** The rows inserted during a step, in player order. */
  function NewRecords(players: seq<PlayerState>, ms: int, retirementTime: real): seq<Record> {
    if players == [] then []
    else
      var p := players[|players| - 1];
      NewRecords(players[..|players| - 1], ms, retirementTime) +
      if Retires(p, ms, retirementTime) then
        [Record(p.dog.uuid, p.dog.name, p.score, Refresh(p.dog, ms).clock - p.dog.startTime)]
      else []
  }

  // ---------------------------------------------------------------- tick, part 3: loot is gathered

  const LOOT_WIDTH: real := 0.0
  const OFFICE_WIDTH: real := 0.5
  const DOG_WIDTH: real := 0.6

  function LootItems(loot: seq<Loot>): (items: seq<Item>)
    ensures |items| == |loot|
    ensures forall i :: 0 <= i < |loot| ==> items[i] == Item(loot[i].pos, LOOT_WIDTH)
  {
    seq(|loot|, i requires 0 <= i < |loot| => Item(loot[i].pos, LOOT_WIDTH))
  }

  function DogGatherers(players: seq<PlayerState>): (gatherers: seq<Gatherer>)
    ensures |gatherers| == |players|
    ensures forall i :: 0 <= i < |players| ==>
              gatherers[i] == Gatherer(players[i].dog.start, players[i].dog.pos, DOG_WIDTH)
  {
    seq(|players|, i requires 0 <= i < |players| => Gatherer(players[i].dog.start, players[i].dog.pos, DOG_WIDTH))
  }

  /** bag_.size() < bag_capacity_, where the comparison is between unsigned numbers. */
  predicate HasRoom(d: DogState) {
    d.capacity < 0 || |d.bag| < d.capacity
  }

  /** The first session, in iteration order, that holds a loot id. */
  function HolderOf(sessions: map<string, SessionState>, order: seq<string>, id: int): (m: Option<string>)
    ensures m.Some? ==> m.value in sessions && id in sessions[m.value].loot
    ensures m.None? ==> forall k :: k in order && k in sessions ==> id !in sessions[k].loot
    decreases |order|
  {
    if order == [] then None
    else if order[0] in sessions && id in sessions[order[0]].loot then Some(order[0])
    else HolderOf(sessions, order[1..], id)
  }

  datatype Gathering = Gathering(game: GameState, players: seq<PlayerState>)

  function Take(s: Gathering, m: string, item: nat, gatherer: nat): Gathering
    requires m in s.game.sessions && item < |s.game.loot| && gatherer < |s.players|
  {
    var loot, p, session := s.game.loot[item], s.players[gatherer], s.game.sessions[m];
    Gathering(
      s.game.(loot := s.game.loot[item := loot.(visible := false)],
              sessions := s.game.sessions[m := session.(loot := session.loot - {loot.id})]),
      s.players[gatherer := p.(dog := p.dog.(bag := p.dog.bag + [loot]))])
  }

  /** One iteration of the loot loop. Events always carry indices in range. */
  function GatherOne(s: Gathering, order: seq<string>, e: GatheringEvent): Gathering {
    if e.item >= |s.game.loot| || e.gatherer >= |s.players| then s
    else
      match HolderOf(s.game.sessions, order, s.game.loot[e.item].id)
      case None => s
      case Some(m) => if HasRoom(s.players[e.gatherer].dog) then Take(s, m, e.item, e.gatherer) else s
  }

  function Gather(s: Gathering, order: seq<string>, events: seq<GatheringEvent>): Gathering {
    if events == [] then s else GatherOne(Gather(s, order, events[..|events| - 1]), order, events[|events| - 1])
  }

  // ---------------------------------------------------------------- tick, part 4: offices

  /** The flattened list of all offices, in map order. */
  function OfficeItems(maps: seq<MapInfo>): seq<Item> {
    if maps == [] then [] else OfficesOf(maps[0].offices) + OfficeItems(maps[1..])
  }

  function OfficesOf(offices: seq<Cell>): (items: seq<Item>)
    ensures |items| == |offices|
    ensures forall i :: 0 <= i < |offices| ==> items[i] == Item(AtCell(offices[i]), OFFICE_WIDTH)
  {
    seq(|offices|, i requires 0 <= i < |offices| => Item(AtCell(offices[i]), OFFICE_WIDTH))
  }

  /** A lookup in the value table of a map; out of range the original is undefined, and this reads 0. */
  function ValueOf(values: seq<int>, kind: int): int {
    if 0 <= kind < |values| then values[kind] else 0
  }

  function BagValue(values: seq<int>, bag: seq<Loot>): int {
    if bag == [] then 0 else BagValue(values, bag[..|bag| - 1]) + ValueOf(values, bag[|bag| - 1].kind)
  }

  /** The loop over the sessions for one player at an office: sessions are matched by their number of dogs. */
  function CashIn(p: PlayerState, sessions: map<string, SessionState>, order: seq<string>): PlayerState {
    if order == [] then p
    else
      var q := CashIn(p, sessions, order[..|order| - 1]);
      var m := order[|order| - 1];
      if m in sessions && sessions[m].dogs == q.session.dogs then
        q.(score := q.score + BagValue(sessions[m].mapInfo.lootValues, q.dog.bag), dog := q.dog.(bag := []))
      else q
  }

  /** The office loop: it leaves after its first event. */
  function VisitOffices(s: Gathering, order: seq<string>, events: seq<GatheringEvent>): seq<PlayerState> {
    if events == [] || events[0].gatherer >= |s.players| then s.players
    else
      var g := events[0].gatherer;
      s.players[g := CashIn(s.players[g], s.game.sessions, order)]
  }

  // ---------------------------------------------------------------- whole ticks and runs

  /** Everything a tick does not determine by itself. The session map is iterated in the order of the plan. */
  datatype TickInput = TickInput(ms: int, plan: seq<SessionDraw>, lootEvents: seq<GatheringEvent>,
                                 officeEvents: seq<GatheringEvent>)

  function Order(plan: seq<SessionDraw>): (order: seq<string>)
    ensures |order| == |plan|
    ensures forall i :: 0 <= i < |plan| ==> order[i] == plan[i].mapId
  {
    seq(|plan|, i requires 0 <= i < |plan| => plan[i].mapId)
  }

  function Generate(w: World, t: TickInput): World {
    w.(game := GenerateLoot(w.game, t.ms, t.plan))
  }

  function StepAll(w: World, t: TickInput): World {
    var r := w.game.config.retirementTime;
    w.(game := w.game.(timer := w.game.timer + Seconds(t.ms)),
       players := StepPlayers(w.players, t.ms, r),
       records := w.records + NewRecords(w.players, t.ms, r))
  }

  function GatherLoot(w: World, t: TickInput): World {
    var s := Gather(Gathering(w.game, w.players), Order(t.plan), t.lootEvents);
    w.(game := s.game, players := s.players)
  }

  function CashOffices(w: World, t: TickInput): World {
    w.(players := VisitOffices(Gathering(w.game, w.players), Order(t.plan), t.officeEvents))
  }

  function Underway(w: World, t: TickInput): World { StepAll(Generate(w, t), t) }

  function Tick(w: World, t: TickInput): World {
    CashOffices(GatherLoot(Underway(w, t), t), t)
  }

  /** The order lists every session once, and the event lists are outcomes of the collision detector. */
  ghost predicate TickPossible(w: World, t: TickInput) {
    && IsOrder(Order(t.plan), w.game.sessions.Keys)
    && var v := Underway(w, t);
       && Detected(LootItems(v.game.loot), DogGatherers(v.players), t.lootEvents)
       && Detected(OfficeItems(v.game.config.maps), DogGatherers(v.players), t.officeEvents)
  }

  ghost predicate IsOrder(order: seq<string>, keys: set<string>) {
    && (forall i, j :: 0 <= i < j < |order| ==> order[i] != order[j])
    && (forall k :: k in order <==> k in keys)
  }

  datatype Event =
    | JoinEvent(name: string, mapId: string, uuid: int, spot: SpotDraw, draws: seq<Draws>)
    | ActionEvent(header: string, direction: string)
    | TickEvent(input: TickInput)

  /** What the environment guarantees: fresh UUIDs, 64-bit draws that end up fresh, and possible ticks. */
  ghost predicate Possible(w: World, e: Event) {
    match e
    case JoinEvent(_, _, uuid, _, draws) =>
      DrawsInRange(draws) && DrawsFresh(w.tokens, draws) && forall p :: p in w.players ==> p.dog.uuid != uuid
    case ActionEvent(_, _) => true
    case TickEvent(t) => TickPossible(w, t)
  }

  function Apply(w: World, e: Event): World
    requires e.JoinEvent? ==> DrawsFresh(w.tokens, e.draws)
  {
    match e
    case JoinEvent(name, mapId, uuid, spot, draws) => Join(w, name, mapId, uuid, spot, draws)
    case ActionEvent(header, direction) => Act(w, header, direction)
    case TickEvent(t) => Tick(w, t)
  }

  /** A run: every event is possible when its turn comes. */
  ghost predicate IsRun(w: World, events: seq<Event>)
    decreases |events|
  {
    events == [] || (Possible(w, events[0]) && IsRun(Apply(w, events[0]), events[1..]))
  }

  ghost function After(w: World, events: seq<Event>): World
    requires IsRun(w, events)
    decreases |events|
  {
    if events == [] then w else After(Apply(w, events[0]), events[1..])
  }
}
