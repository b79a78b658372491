/** What survives any alternation of runs and restarts, loot and several sessions included. */
module Restarts {
  import opened Basics
  import opened Roads
  import opened Collision
  import opened Tokens
  import opened World
  import opened Invariants
  import opened Preservation
  import opened Runs
  import opened Snapshot
  import opened RoundTrip

  /** The map is one of the loaded maps, and the one found under its id. */
  ghost predicate IsLoaded(config: Config, m: MapInfo) {
    FindMap(config.maps, m.id) == Some(m)
  }

  ghost predicate SessionsLoaded(g: GameState) {
    forall m :: m in g.sessions ==> g.sessions[m].mapInfo.id == m && IsLoaded(g.config, g.sessions[m].mapInfo)
  }

  ghost predicate PlayersLoaded(config: Config, players: seq<PlayerState>) {
    forall i :: 0 <= i < |players| ==> players[i].id == i && IsLoaded(config, players[i].session.mapInfo)
  }

  /** The invariant without its clauses about loot and dog counts. */
  ghost predicate Core(w: World) {
    && SessionsLoaded(w.game)
    && PlayersLoaded(w.game.config, w.players)
    && (forall p :: p in w.players ==> DogOk(p, w.game.config.retirementTime))
    && RecordsOk(w.players, w.records)
    && TokensOk(w)
  }

  lemma InvIsCore(w: World)
    requires Inv(w)
    ensures Core(w)
  {
    forall m | m in w.game.sessions
      ensures IsLoaded(w.game.config, w.game.sessions[m].mapInfo) && w.game.sessions[m].mapInfo.id == m
    {
      assert SessionOk(w.game, w.players, m);
    }
    forall i | 0 <= i < |w.players|
      ensures w.players[i].id == i && IsLoaded(w.game.config, w.players[i].session.mapInfo)
    {
      assert MembershipOk(w.game, w.players, i);
      assert SessionOk(w.game, w.players, w.players[i].session.mapInfo.id);
    }
  }

  // ---------------------------------------------------------------- events

  /** Changes of players that leave identity, map, record and place alone. */
  lemma CoreOfSamePlayers(w: World, v: World)
    requires Core(w) && v.game.config == w.game.config && SessionsLoaded(v.game)
    requires v.tokens == w.tokens && |v.players| == |w.players| && RecordsOk(v.players, v.records)
    requires forall i :: 0 <= i < |w.players| ==>
               && v.players[i].id == w.players[i].id && v.players[i].session == w.players[i].session
               && DogOk(v.players[i], w.game.config.retirementTime)
    ensures Core(v)
  {
    hide RecordsOk, DogOk, Sound, IsLoaded;
    forall p | p in v.players
      ensures DogOk(p, w.game.config.retirementTime)
    {
      var i :| 0 <= i < |v.players| && v.players[i] == p;
    }
  }

  lemma EnterGameKeepsSessionsLoaded(g: GameState, m: MapInfo)
    requires SessionsLoaded(g) && IsLoaded(g.config, m)
    ensures SessionsLoaded(EnterGame(g, m)) && EnterGame(g, m).config == g.config
    ensures GetGameSession(g, m).sessions[m.id].mapInfo == m
  {
    hide FindMap;
  }

  lemma JoinKeepsCore(w: World, e: Event)
    requires Core(w) && e.JoinEvent? && Possible(w, e)
    ensures Core(Apply(w, e)) && Apply(w, e).game.config == w.game.config
  {
    hide DogOk, RecordsOk, FirstFresh, Sound, EnterGame;
    FindMapById(w.game.config.maps, e.mapId);
    var found := FindMap(w.game.config.maps, e.mapId);
    if found.Some? && e.name != "" {
      var m := found.value;
      var p := NewPlayer(w.game, |w.players|, m, e.name, e.uuid, e.spot);
      EnterGameKeepsSessionsLoaded(w.game, m);
      NewPlayerOk(w.game, |w.players|, m, e.name, e.uuid, e.spot, w.game.config.retirementTime);
      RecordsOkAfterJoin(w.players, p, w.records);
      IssueKeepsSound(w.tokens, FirstFresh(w.tokens, e.draws));
    }
  }

  lemma ActKeepsCore(w: World, header: string, direction: string)
    requires Core(w)
    ensures Core(Act(w, header, direction)) && Act(w, header, direction).game.config == w.game.config
  {
    hide SessionsLoaded, PlayersLoaded, RecordsOk, Sound, TokenOf, Find;
    var v := Act(w, header, direction);
    forall i | 0 <= i < |w.players|
      ensures DogOk(v.players[i], w.game.config.retirementTime)
    {
      assert w.players[i] in w.players;
      assert DogOk(w.players[i], w.game.config.retirementTime);
    }
    SameIdentitiesKeepRecords(w.players, v.players, w.records);
    CoreOfSamePlayers(w, v);
  }

  lemma {:induction false} GatherKeepsMaps(s: Gathering, order: seq<string>, events: seq<GatheringEvent>)
    ensures var g := Gather(s, order, events).game;
            && g.config == s.game.config && g.sessions.Keys == s.game.sessions.Keys
            && forall m :: m in s.game.sessions ==> g.sessions[m].mapInfo == s.game.sessions[m].mapInfo
  {
    if events != [] {
      GatherKeepsMaps(s, order, events[..|events| - 1]);
    }
  }

  lemma TickKeepsMaps(w: World, t: TickInput)
    ensures var g := Tick(w, t).game;
            && g.config == w.game.config && g.sessions.Keys == w.game.sessions.Keys
            && forall m :: m in w.game.sessions ==> g.sessions[m].mapInfo == w.game.sessions[m].mapInfo
  {
    hide Gather, GenerateLoot, VisitOffices, StepPlayers, NewRecords;
    GenerateKeepsConfig(w.game, t.ms, t.plan);
    var v := Underway(w, t);
    GatherKeepsMaps(Gathering(v.game, v.players), Order(t.plan), t.lootEvents);
  }

  lemma SameMotionIsDogOk(p: PlayerState, q: PlayerState, retirementTime: real)
    requires SameMotion(p, q) && DogOk(p, retirementTime)
    ensures DogOk(q, retirementTime)
    ensures q.id == p.id && q.session == p.session && q.dog.uuid == p.dog.uuid && q.online == p.online
  {
  }

  lemma TickKeepsCore(w: World, t: TickInput)
    requires Core(w)
    ensures Core(Tick(w, t)) && Tick(w, t).game.config == w.game.config
  {
    hide Tick, DogOk, RecordsOk, Sound, StepPlayer, IsLoaded, SameMotion, NewRecords;
    var r, v := w.game.config.retirementTime, Tick(w, t);
    TickKeepsMaps(w, t);
    TickKeepsTables(w, t);
    StepKeepsRecordsOk(w.players, w.records, t.ms, r);
    if w.players != [] {
      TickMovesLikeStep(w, t, 0);
    }
    forall i | 0 <= i < |w.players|
      ensures i < |v.players| && DogOk(v.players[i], r)
      ensures v.players[i].id == w.players[i].id && v.players[i].session == w.players[i].session
      ensures v.players[i].dog.uuid == StepPlayer(w.players[i], t.ms, r).dog.uuid
      ensures v.players[i].online == StepPlayer(w.players[i], t.ms, r).online
    {
      assert w.players[i] in w.players;
      TickMovesLikeStep(w, t, i);
      StepPlayerKeepsDogOk(w.players[i], t.ms, r);
      SameMotionIsDogOk(StepPlayer(w.players[i], t.ms, r), v.players[i], r);
    }
    SameIdentitiesKeepRecords(StepPlayers(w.players, t.ms, r), v.players, v.records);
    CoreOfSamePlayers(w, v);
  }

  lemma TickKeepsTables(w: World, t: TickInput)
    ensures Tick(w, t).tokens == w.tokens
    ensures Tick(w, t).records == w.records + NewRecords(w.players, t.ms, w.game.config.retirementTime)
    ensures w.players == [] ==> Tick(w, t).players == []
  {
    hide NewRecords, GenerateLoot, CashIn;
    GenerateKeepsConfig(w.game, t.ms, t.plan);
    if w.players == [] {
      NobodyGathers(Gathering(Underway(w, t).game, []), Order(t.plan), t.lootEvents);
    }
  }

  lemma {:induction false} NobodyGathers(s: Gathering, order: seq<string>, events: seq<GatheringEvent>)
    requires s.players == []
    ensures Gather(s, order, events) == s
  {
    if events != [] {
      NobodyGathers(s, order, events[..|events| - 1]);
    }
  }

  lemma EventKeepsCore(w: World, e: Event)
    requires Core(w) && Possible(w, e)
    ensures Core(Apply(w, e)) && Apply(w, e).game.config == w.game.config
  {
    hide Core, Tick, Act, TickPossible;
    match e
    case JoinEvent(_, _, _, _, _) => JoinKeepsCore(w, e);
    case ActionEvent(header, direction) => ActKeepsCore(w, header, direction);
    case TickEvent(t) => TickKeepsCore(w, t);
  }

  // ---------------------------------------------------------------- restarts

  /** What a restart leaves of a player, whatever becomes of the loot. */
  ghost predicate SamePlace(p: PlayerState, q: PlayerState) {
    && q.id == p.id && q.score == p.score && q.online == p.online
    && q.dog.uuid == p.dog.uuid && q.dog.pos == p.dog.pos && q.dog.start == p.dog.start
  }

  /** The state after the first n players have joined anew. */
  ghost predicate RejoinedUpTo(w: World, v: World, n: nat)
    requires n <= |w.players|
  {
    && |v.players| == n && v.game.config == w.game.config && SessionsLoaded(v.game)
    && v.tokens == TokenTable([], map[]) && v.records == w.records
    && forall i :: 0 <= i < n ==>
         && v.players[i].id == i && v.players[i].session.mapInfo == w.players[i].session.mapInfo
         && v.players[i].score == w.players[i].score && v.players[i].online == w.players[i].online
  }

  lemma OnePlayerRejoins(w: World, v: World, n: nat, d: RestoreDraws)
    requires PlayersLoaded(w.game.config, w.players) && n < |w.players| && RejoinedUpTo(w, v, n)
    ensures RejoinedUpTo(w, RestorePlayer(v, SavePlayer(w.players[n]), d), n + 1)
  {
    hide FindMap, SessionsLoaded, EnterGame, GetGameSession, NewDog;
    var m := w.players[n].session.mapInfo;
    assert IsLoaded(w.game.config, m);
    EnterGameKeepsSessionsLoaded(v.game, m);
  }

  lemma {:induction false} PlayersRejoin(w: World, v: World, n: nat, d: RestoreDraws, snaps: seq<PlayerSnapshot>)
    requires PlayersLoaded(w.game.config, w.players) && n <= |w.players|
    requires |snaps| == n && forall i :: 0 <= i < n ==> snaps[i] == SavePlayer(w.players[i])
    requires RejoinedUpTo(w, v, 0)
    ensures RejoinedUpTo(w, RestorePlayers(v, snaps, d), n)
  {
    hide RejoinedUpTo, PlayersLoaded, RestorePlayer;
    if n > 0 {
      PlayersRejoin(w, v, n - 1, d, snaps[..n - 1]);
      OnePlayerRejoins(w, RestorePlayers(v, snaps[..n - 1], d), n - 1, d);
    }
  }

  /** The same sessions with the same maps. */
  ghost predicate SameMaps(g: GameState, h: GameState) {
    && h.config == g.config && h.sessions.Keys == g.sessions.Keys
    && forall m :: m in g.sessions ==> h.sessions[m].mapInfo == g.sessions[m].mapInfo
  }

  lemma {:induction false} AddNewLootsKeepMaps(g: GameState, m: string, ids: seq<int>, spots: nat -> SpotDraw)
    requires m in g.sessions
    ensures SameMaps(g, AddNewLoots(g, m, ids, spots))
  {
    hide Location;
    if ids != [] {
      AddNewLootsKeepMaps(g, m, ids[..|ids| - 1], spots);
    }
  }

  lemma {:induction false} RestoreSessionsKeepMaps(g: GameState, maps: seq<MapInfo>, saved: seq<SessionSnapshot>,
                                                   spots: nat -> SpotDraw)
    ensures SameMaps(g, RestoreSessions(g, maps, saved, spots))
  {
    if maps != [] {
      RestoreSessionsKeepMaps(g, maps[..|maps| - 1], saved, spots);
      var h, m := RestoreSessions(g, maps[..|maps| - 1], saved, spots), maps[|maps| - 1].id;
      if m in h.sessions && saved != [] {
        AddNewLootsKeepMaps(h.(sessions := h.sessions[m := h.sessions[m].(retired := saved[0].retired)]), m,
                            saved[0].lootIds, spots);
      }
    }
  }

  lemma {:induction false} TakeAllFillsBag(d: DogState, ids: seq<int>, loot: seq<Loot>)
    ensures TakeAll(d, ids, loot) == d.(bag := TakeAll(d, ids, loot).bag)
  {
    if ids != [] {
      TakeAllFillsBag(d, ids[..|ids| - 1], loot);
    }
  }

  lemma DogIsPutBack(p: PlayerState, q: PlayerState, loot: seq<Loot>, retirementTime: real)
    requires DogOk(p, retirementTime) && q.online == p.online && q.session.mapInfo == p.session.mapInfo
    ensures var r := q.(dog := RestoreDog(q.dog, SaveDog(p.dog), loot));
            && DogOk(r, retirementTime)
            && r.dog.uuid == p.dog.uuid && r.dog.pos == p.dog.pos && r.dog.start == p.dog.start
  {
    var d, s := q.dog, SaveDog(p.dog);
    var placed := d.(name := s.name, pos := s.pos, start := s.start, nominalSpeed := s.nominalSpeed);
    var e := SetDirection(placed, s.dir).(capacity := s.capacity, lastActivity := s.lastActivity,
                                          startTime := s.startTime,
                                          clock := s.clock, uuid := s.uuid);
    TakeAllFillsBag(e, s.lootIds, loot);
  }

  lemma RestartRejoins(w: World, listing: seq<seq<int>>, d: RestoreDraws)
    requires Core(w) && ListsLoot(w.game, listing)
    ensures RejoinedUpTo(w, Rejoined(w, listing, d), |w.players|)
  {
    hide DogOk, RecordsOk, Sound, RestorePlayers, FindMap;
    var a := Save(w, listing);
    PlayersRejoin(w, Fresh(w).(game := RestoreGame(Fresh(w).game, a)), |w.players|, d, a.players);
  }

  /** A restart puts every player back in its place and gives back every token and record. */
  lemma RestartKeeps(w: World, listing: seq<seq<int>>, d: RestoreDraws)
    requires Core(w) && ListsLoot(w.game, listing)
    ensures var r := Restored(w, listing, d);
            && Core(r) && r.game.config == w.game.config
            && r.tokens == w.tokens && r.records == w.records && |r.players| == |w.players|
            && forall i :: 0 <= i < |w.players| ==> SamePlace(w.players[i], r.players[i])
  {
    hide DogOk, RecordsOk, Sound, RestorePlayers, RestoreSessions, RestoreTokens, RestoreDog, SaveDog, IsLoaded;
    var v, r := Rejoined(w, listing, d), Restored(w, listing, d);
    RestartRejoins(w, listing, d);
    RestoreSessionsKeepMaps(v.game, w.game.config.maps, SaveSessions(w.game, listing), d.lootSpots);
    AllTokensRestored(w.tokens);
    forall i | 0 <= i < |w.players|
      ensures DogOk(r.players[i], w.game.config.retirementTime) && SamePlace(w.players[i], r.players[i])
    {
      assert w.players[i] in w.players;
      DogIsPutBack(w.players[i], v.players[i], r.game.loot, w.game.config.retirementTime);
    }
    forall p | p in r.players
      ensures DogOk(p, w.game.config.retirementTime)
    {
      var i :| 0 <= i < |r.players| && r.players[i] == p;
    }
    SameIdentitiesKeepRecords(w.players, r.players, w.records);
  }

  // ---------------------------------------------------------------- lives

  /** A life of the server: events, and restarts from an archive just saved. */
  datatype Turn = Play(event: Event) | Restart(listing: seq<seq<int>>, draws: RestoreDraws)

  ghost predicate Allowed(w: World, turn: Turn) {
    match turn
    case Play(e) => Possible(w, e)
    case Restart(listing, _) => ListsLoot(w.game, listing)
  }

  ghost function Next(w: World, turn: Turn): World
    requires Allowed(w, turn)
  {
    match turn
    case Play(e) => Apply(w, e)
    case Restart(listing, draws) => Restored(w, listing, draws)
  }

  ghost predicate IsLife(w: World, turns: seq<Turn>)
    decreases |turns|
  {
    turns == [] || (Allowed(w, turns[0]) && IsLife(Next(w, turns[0]), turns[1..]))
  }

  ghost function Outcome(w: World, turns: seq<Turn>): World
    requires IsLife(w, turns)
    decreases |turns|
  {
    if turns == [] then w else Outcome(Next(w, turns[0]), turns[1..])
  }

  lemma TurnKeepsCore(w: World, turn: Turn)
    requires Core(w) && Allowed(w, turn)
    ensures Core(Next(w, turn)) && Next(w, turn).game.config == w.game.config
  {
    hide Core, Apply, Restored, Possible, ListsLoot;
    match turn
    case Play(e) => EventKeepsCore(w, e);
    case Restart(listing, draws) => RestartKeeps(w, listing, draws);
  }

  lemma {:induction false} LifeKeepsCore(w: World, turns: seq<Turn>)
    requires Core(w) && IsLife(w, turns)
    ensures Core(Outcome(w, turns)) && Outcome(w, turns).game.config == w.game.config
    decreases |turns|
  {
    hide Core, Next, Allowed;
    if turns != [] {
      TurnKeepsCore(w, turns[0]);
      LifeKeepsCore(Next(w, turns[0]), turns[1..]);
    }
  }

  /** Whatever alternation of events and restarts a server has been through: dogs are on roads, tokens belong to their
      players, and the records are exactly those of the retired players. */
  lemma EveryLifeKeepsPlayers(config: Config, turns: seq<Turn>, k: nat)
    requires ConfigOk(config) && IsLife(Start(config), turns)
    requires k < |Outcome(Start(config), turns).players|
    ensures var w := Outcome(Start(config), turns);
            && OnSomeRoad(w.players[k].session.mapInfo.roads, CellOf(w.players[k].dog.pos))
            && |w.tokens.issued| == |w.players| && Find(w.tokens, w.tokens.issued[k]) == Some(k)
            && RecordCount(w.records, w.players[k].dog.uuid) == if w.players[k].online then 0 else 1
  {
    StartOk(config);
    InvIsCore(Start(config));
    LifeKeepsCore(Start(config), turns);
    var w := Outcome(Start(config), turns);
    hide IsLife, Outcome, SessionsLoaded, PlayersLoaded;
    AuthenticatesKthPlayer(w.tokens, k);
    assert DogOk(w.players[k], w.game.config.retirementTime);
  }

  // ---------------------------------------------------------------- retirement for life

  lemma RetiredKeepsPlaceInTick(w: World, t: TickInput, k: nat)
    requires Core(w) && TickPossible(w, t) && Retired(w, k)
    ensures |Tick(w, t).players| == |w.players| && SamePlace(w.players[k], Tick(w, t).players[k])
  {
    hide Core, StepPlayer, GenerateLoot, Gather, CashIn;
    var v := Underway(w, t);
    var s := Gathering(v.game, v.players);
    GenerateKeepsConfig(w.game, t.ms, t.plan);
    RetiredStepsInPlace(w, t, k);
    NoEventForResting(LootItems(v.game.loot), v.players, t.lootEvents, k);
    NoEventForResting(OfficeItems(v.game.config.maps), v.players, t.officeEvents, k);
    GatheringSkipsResting(s, Order(t.plan), t.lootEvents, k);
    TickMovesLikeStep(w, t, k);
    if t.officeEvents != [] {
      assert t.officeEvents[0] in t.officeEvents;
    }
  }

  lemma RetiredStepsInPlace(w: World, t: TickInput, k: nat)
    requires Core(w) && Retired(w, k)
    ensures var q := StepPlayer(w.players[k], t.ms, w.game.config.retirementTime);
            SamePlace(w.players[k], q) && q.dog.start == q.dog.pos
  {
    assert w.players[k] in w.players;
    assert DogOk(w.players[k], w.game.config.retirementTime);
  }

  lemma RetiredKeepsPlace(w: World, turn: Turn, k: nat)
    requires Core(w) && Allowed(w, turn) && Retired(w, k)
    ensures Retired(Next(w, turn), k) && SamePlace(w.players[k], Next(w, turn).players[k])
  {
    hide Core, Restored, ListsLoot, Tick, TickPossible, FirstFresh, NewPlayer, EnterGame, TokenOf, SetDirection;
    TurnKeepsCore(w, turn);
    match turn
    case Restart(listing, draws) => RestartKeeps(w, listing, draws);
    case Play(e) =>
      if e.TickEvent? {
        RetiredKeepsPlaceInTick(w, e.input, k);
      }
  }

  /** Retirement is for life: over events and restarts alike, place and score never change again. */
  lemma {:induction false} RetirementIsForLife(w: World, turns: seq<Turn>, k: nat)
    requires Core(w) && IsLife(w, turns) && Retired(w, k)
    ensures k < |Outcome(w, turns).players| && SamePlace(w.players[k], Outcome(w, turns).players[k])
    decreases |turns|
  {
    hide Core, Next, Allowed, Retired;
    if turns != [] {
      TurnKeepsCore(w, turns[0]);
      RetiredKeepsPlace(w, turns[0], k);
      RetirementIsForLife(Next(w, turns[0]), turns[1..], k);
    } else {
      RetiredIsPlayer(w, k);
    }
  }

  lemma RetiredIsPlayer(w: World, k: nat)
    requires Retired(w, k)
    ensures k < |w.players| && SamePlace(w.players[k], w.players[k])
  {
  }
}
