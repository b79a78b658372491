/** The running server: joins, actions and ticks change its objects exactly as World changes its values. */
module Applications {
  import opened Basics
  import opened Collision
  import opened Tokens
  import opened World
  import opened Steering
  import opened Objects
  import opened Games
  import opened Loader
  import opened Providers
  import opened PlayerLists
  import W = World

  /** Players are told apart by their ids. */
  function ById(t: TokenTable<Player>): TokenTable<nat> {
    TokenTable(t.issued, map token | token in t.owner :: t.owner[token].id)
  }

  /** Whether a draw is fresh depends on the tokens alone. */
  lemma {:induction false} SameDraws(t: TokenTable<Player>, draws: seq<Draws>)
    requires DrawsFresh(t, draws)
    ensures DrawsFresh(ById(t), draws) && FirstFresh(ById(t), draws) == FirstFresh(t, draws)
    decreases |draws|
  {
    if TokenText(draws[0].first, draws[0].second) in t.owner {
      var i :| 0 <= i < |draws| && TokenText(draws[i].first, draws[i].second) !in t.owner;
      assert draws[1..][i - 1] == draws[i];
      SameDraws(t, draws[1..]);
    }
  }

  lemma IssueById(t: TokenTable<Player>, token: string, player: Player)
    ensures ById(Issue(t, token, player)) == Issue(ById(t), token, player.id)
  {
  }

  class Application {
    const game: Game
    const players: Players
    const tokens: PlayerTokens<Player>
    var records: seq<Record>

    constructor (config: Config)
      requires AllLoaded(config)
      ensures Valid() && game.config == config
      ensures State() == Start(config)
    {
      game := new Game(config);
      players := new Players();
      tokens := new PlayerTokens();
      records := [];
    }

    ghost predicate Valid()
      reads game, game.sessions.Values, players, tokens
    {
      && game.Valid() && players.Valid() && AllLoaded(game.config)
      && (forall p :: p in players.players ==> Loaded(p.session.mapInfo))
      && (forall token :: token in tokens.owner ==> tokens.owner[token] in players.players)
    }

    function State(): World
      reads this, game, game.generator, game.loot, game.sessions.Values
      reads players, players.players, DogsOf(players.players), tokens
    {
      W.World(game.State(), PlayerStates(players.players), ById(tokens.Table()), records)
    }

    lemma StateShape()
      ensures State().game.config == game.config
      ensures State().game.sessions.Keys == game.sessions.Keys
      ensures State().tokens.owner.Keys == tokens.Table().owner.Keys
    {
    }

    method Steer(k: nat, direction: string)
      requires Valid() && k < |players.players|
      modifies players.players[k].dog
      ensures Valid()
      ensures PlayerStates(players.players) ==
              var p := old(PlayerStates(players.players)); p[k := p[k].(dog := W.SetDirection(p[k].dog, direction))]
    {
      hide PlayerStates, W.SetDirection;
      players.players[k].dog.SetDirection(direction);
      PlayerUpdated(players.players, k);
    }

    /** The id of the player of an authorization header, unless the header is malformed, the token unknown or the player
        retired. */
    method FindOnline(header: string) returns (id: Option<nat>)
      requires Valid()
      ensures var token := TokenOf(header);
              var k := if token.None? then None else Find(ById(tokens.Table()), token.value);
              var known := k.Some? && k.value < |players.players|;
              id == if known && PlayerStates(players.players)[k.value].online then k else None
      ensures id.Some? ==> id.value < |players.players|
    {
      hide PlayerStates, Loaded;
      var start := FirstSpace(header);
      var valid := CheckToken(header);
      if start >= |header| || !valid {
        return None;
      }
      var token := header[start + 1..];
      if token !in tokens.owner {
        return None;
      }
      var player := tokens.owner[token];
      assert players.players[player.id] == player;
      return if player.online then Some(player.id) else None;
    }

    /** A move request; the reply says whether it was carried out. */
    method Act(header: string, direction: string) returns (done: bool)
      requires Valid()
      modifies DogsOf(players.players)
      ensures Valid()
      ensures State() == W.Act(old(State()), header, direction)
      ensures done <==> exists token :: MayAct(old(State()), header, token)
      ensures !done ==> State() == old(State())
      ensures forall token :: MayAct(old(State()), header, token) ==>
                OnlyTurns(old(State()), State(), old(State()).tokens.owner[token], direction)
    {
      hide PlayerStates, Game.State, W.SetDirection, Valid, ById, MayAct, OnlyTurns, TokenOf;
      ActTurns(State(), header, direction);
      MayActIff(State(), header);
      var id := FindOnline(header);
      done := id.Some?;
      if done {
        Steer(id.value, direction);
      }
    }

    method Enter(m: MapInfo, name: string, uuid: int, spot: SpotDraw) returns (player: Player)
      requires Valid() && m in game.config.maps
      modifies game`sessions, game.sessions.Values, players
      ensures Valid() && fresh(player) && fresh(player.dog) && player.online
      ensures players.players == old(players.players) + [player] && player.id == |old(players.players)|
      ensures game.Entered(old(game.sessions))
      ensures game.State() == W.EnterGame(old(game.State()), m)
      ensures PlayerStates(players.players) ==
              old(PlayerStates(players.players)) +
              [NewPlayer(old(game.State()), |old(players.players)|, m, name, uuid, spot)]
    {
      hide PlayerStates, Game.State, Game.Valid, NewDog, Player.State, Numbered, Players.Valid, Loaded,
           W.EnterGame, W.GetGameSession, W.AddDog, GameSession.State;
      game.StateShape();
      var session, dog := game.EnterGame(m, name, uuid, spot);
      player := players.Add(dog, session);
    }

    method GiveToken(player: Player, draws: seq<Draws>) returns (token: string)
      requires Valid() && player in players.players && DrawsFresh(tokens.Table(), draws)
      modifies tokens
      ensures Valid()
      ensures token == FirstFresh(old(tokens.Table()), draws)
      ensures ById(tokens.Table()) == Issue(old(ById(tokens.Table())), token, player.id)
    {
      hide FirstFresh, ById, Game.Valid, Players.Valid;
      IssueById(tokens.Table(), FirstFresh(tokens.Table(), draws), player);
      token := tokens.AddPlayer(player, draws);
    }

    method Admit(m: MapInfo, name: string, uuid: int, spot: SpotDraw, draws: seq<Draws>) returns (token: string)
      requires Valid() && m in game.config.maps && DrawsFresh(tokens.Table(), draws)
      modifies game`sessions, game.sessions.Values, players, tokens
      ensures Valid() && token == FirstFresh(old(tokens.Table()), draws)
      ensures State() == var w := old(State());
                         W.World(W.EnterGame(w.game, m),
                                 w.players + [NewPlayer(w.game, |w.players|, m, name, uuid, spot)],
                                 Issue(w.tokens, token, |w.players|), w.records)
    {
      hide PlayerStates, Game.State, Valid, NewPlayer, W.EnterGame, FirstFresh, ById;
      var player := Enter(m, name, uuid, spot);
      token := GiveToken(player, draws);
    }

    /** A join request; it is refused for an unknown map and for an empty name. */
    method Join(name: string, mapId: string, uuid: int, spot: SpotDraw, draws: seq<Draws>)
      returns (token: Option<string>)
      requires Valid() && DrawsFresh(tokens.Table(), draws)
      modifies game`sessions, game.sessions.Values, players, tokens
      ensures Valid()
      ensures DrawsFresh(old(State()).tokens, draws) && State() == W.Join(old(State()), name, mapId, uuid, spot, draws)
      ensures token.Some? <==> name != "" && exists m :: m in game.config.maps && m.id == mapId
      ensures token.Some? ==> token.value == FirstFresh(old(tokens.Table()), draws)
    {
      hide PlayerStates, Game.State, Valid, NewPlayer, W.EnterGame, FirstFresh, ById, FindMap, Issue;
      game.StateShape();
      SameDraws(tokens.Table(), draws);
      var m := FindMap(game.config.maps, mapId);
      FindMapById(game.config.maps, mapId);
      if m.None? || name == "" {
        return None;
      }
      var text := Admit(m.value, name, uuid, spot, draws);
      return Some(text);
    }

    method MovePlayer(k: nat, ms: int) returns (row: Option<Record>)
      requires Valid() && k < |players.players|
      modifies players.players[k], players.players[k].dog
      ensures Valid()
      ensures PlayerStates(players.players) ==
              old(PlayerStates(players.players))[
                k := StepPlayer(old(players.players[k].State()), ms, game.config.retirementTime)]
      ensures NewRecords([old(players.players[k].State())], ms, game.config.retirementTime) ==
              if row.Some? then [row.value] else []
      ensures old(players.players[k].State()) == old(PlayerStates(players.players))[k]
    {
      hide PlayerStates, StepPlayer, NewRecords, Player.State;
      row := players.players[k].Step(ms, game.config.retirementTime);
      PlayerUpdated(players.players, k);
    }

    method MovePlayers(ms: int)
      requires Valid()
      modifies this`records, players.players, DogsOf(players.players)
      ensures Valid()
      ensures PlayerStates(players.players) ==
              StepPlayers(old(PlayerStates(players.players)), ms, game.config.retirementTime)
      ensures records == old(records) + NewRecords(old(PlayerStates(players.players)), ms, game.config.retirementTime)
    {
      hide Valid, Players.Valid, Numbered, StepPlayer, NewRecords, PlayerStates, PartlyStepped, Player.State;
      var retirementTime := game.config.retirementTime;
      ghost var was := PlayerStates(players.players);
      StepEnds(was, ms, retirementTime);
      for k := 0 to |players.players|
        invariant Valid()
        invariant PlayerStates(players.players) == PartlyStepped(was, k, ms, retirementTime)
        invariant records == old(records) + NewRecords(was[..k], ms, retirementTime)
      {
        var row := MovePlayer(k, ms);
        if row.Some? {
          records := records + [row.value];
        }
        StepOneMore(was, k, ms, retirementTime);
      }
    }

    /** The part of the state that the loops over the events change. */
    function Scene(): Gathering
      reads game, game.generator, game.loot, game.sessions.Values
      reads players, players.players, DogsOf(players.players)
    {
      Gathering(game.State(), PlayerStates(players.players))
    }

    method OfferLoot(object_: LootObject, gatherer: nat) returns (taken: bool)
      requires Valid() && gatherer < |players.players|
      modifies players.players[gatherer].dog
      ensures Valid()
      ensures taken == HasRoom(old(PlayerStates(players.players))[gatherer].dog)
      ensures PlayerStates(players.players) ==
              var p := old(PlayerStates(players.players));
              var d := p[gatherer].dog;
              if taken then p[gatherer := p[gatherer].(dog := d.(bag := d.bag + [object_.Value()]))] else p
    {
      hide PlayerStates;
      taken := players.players[gatherer].dog.TakeLoot(object_);
      PlayerUpdated(players.players, gatherer);
    }

    /** A session that holds the object is found: the gatherer takes it if there is room in the bag. */
    method Take(m: string, item: nat, gatherer: nat)
      requires Valid() && item < |game.loot| && gatherer < |players.players|
      requires game.Holds(m, game.loot[item].id)
      modifies game.loot[item], game.sessions[m], players.players[gatherer].dog
      ensures Valid()
      ensures Scene() == var s := old(Scene());
                         if HasRoom(s.players[gatherer].dog) then W.Take(s, m, item, gatherer) else s
    {
      hide PlayerStates, Values, States, Numbered, Game.Filed, Loaded, AllLoaded, Player.State,
           LootObject.Value, GameSession.State, HasRoom, Players.Valid;
      var object_ := game.sessions[m].loot[game.loot[item].id];
      assert object_.Value() == game.State().loot[item];
      var taken := OfferLoot(object_, gatherer);
      if taken {
        game.Withdraw(m, item);
      }
    }

    /** One event of the loot loop: the sessions are searched in their order, and the search ends at the first holder.
        */
    method GatherOne(order: seq<string>, e: GatheringEvent)
      requires Valid() && e.item < |game.loot| && e.gatherer < |players.players|
      modifies game.loot, game.sessions.Values, DogsOf(players.players)
      ensures Valid()
      ensures Scene() == W.GatherOne(old(Scene()), order, e)
    {
      var id := game.loot[e.item].id;
      for k := 0 to |order|
        invariant Valid() && Scene() == old(Scene())
        invariant HolderOf(Scene().game.sessions, order, id) == HolderOf(Scene().game.sessions, order[k..], id)
      {
        assert order[k..][1..] == order[k + 1..];
        if !game.Holds(order[k], id) {
          continue;
        }
        Take(order[k], e.item, e.gatherer);
        return;
      }
    }

    method FindLootEvents() returns (events: seq<GatheringEvent>)
      requires Valid()
      ensures Detected(LootItems(Scene().game.loot), DogGatherers(Scene().players), events)
      ensures forall n :: 0 <= n < |events| ==> events[n].item < |game.loot| && events[n].gatherer < |players.players|
    {
      hide PlayerStates, Values, StrictWeakOrder, Witnessed, PassesBy;
      var items, gatherers := LootItems(Values(game.loot)), DogGatherers(PlayerStates(players.players));
      events := FindGatherEvents(items, gatherers);
      EventsInRange(items, gatherers, events);
    }

    method FindOfficeEvents() returns (events: seq<GatheringEvent>)
      requires Valid()
      ensures Detected(OfficeItems(game.config.maps), DogGatherers(PlayerStates(players.players)), events)
      ensures forall n :: 0 <= n < |events| ==> events[n].gatherer < |players.players|
    {
      hide PlayerStates, StrictWeakOrder, Witnessed, PassesBy;
      var items := AllOffices(game.config.maps);
      var gatherers := DogGatherers(PlayerStates(players.players));
      events := FindGatherEvents(items, gatherers);
      EventsInRange(items, gatherers, events);
    }

    /** The loot loop over the events of the detector. */
    method GatherLoot(order: seq<string>) returns (events: seq<GatheringEvent>)
      requires Valid()
      modifies game.loot, game.sessions.Values, DogsOf(players.players)
      ensures Valid()
      ensures Detected(LootItems(old(Scene()).game.loot), DogGatherers(old(Scene()).players), events)
      ensures Scene() == Gather(old(Scene()), order, events)
    {
      hide Valid, Scene, Detected, W.GatherOne;
      events := FindLootEvents();
      for n := 0 to |events|
        invariant Valid()
        invariant Scene() == Gather(old(Scene()), order, events[..n])
      {
        GatherOne(order, events[n]);
        assert events[..n + 1][..n] == events[..n];
      }
      assert events[..|events|] == events;
    }

    /** The sessions are matched by their number of dogs with the player's own copy of a session. */
    method PayOut(order: seq<string>, player: Player)
      modifies player, player.dog
      ensures player.State() == CashIn(old(player.State()), game.State().sessions, order)
    {
      hide States;
      for n := 0 to |order|
        invariant player.State() == CashIn(old(player.State()), game.State().sessions, order[..n])
      {
        assert order[..n + 1][..n] == order[..n];
        if game.DogCount(order[n]) == Some(player.session.dogs) {
          player.CashIn(game.sessions[order[n]].mapInfo.lootValues);
        }
      }
      assert order[..|order|] == order;
    }

    method VisitOffice(order: seq<string>, k: nat)
      requires Valid() && k < |players.players|
      modifies players.players[k], players.players[k].dog
      ensures Valid()
      ensures PlayerStates(players.players) ==
              var p := old(PlayerStates(players.players)); p[k := CashIn(p[k], game.State().sessions, order)]
    {
      hide PlayerStates, CashIn, Player.State, Game.State;
      PayOut(order, players.players[k]);
      PlayerUpdated(players.players, k);
    }

    /** The office loop: it leaves after its first event. */
    method CashOffices(order: seq<string>) returns (events: seq<GatheringEvent>)
      requires Valid()
      modifies players.players, DogsOf(players.players)
      ensures Valid()
      ensures Detected(OfficeItems(game.config.maps), DogGatherers(old(PlayerStates(players.players))), events)
      ensures PlayerStates(players.players) == VisitOffices(old(Scene()), order, events)
    {
      hide Valid, Detected, CashIn, PlayerStates, Game.State;
      events := FindOfficeEvents();
      if events != [] {
        VisitOffice(order, events[0].gatherer);
      }
    }

    method AgeGame(ms: int, plan: seq<SessionDraw>)
      requires Valid()
      modifies game`loot, game`lootNumber, game`timer, game.generator, game.sessions.Values
      ensures Valid() && game.Grown(old(game.loot))
      ensures game.State() == var g := W.GenerateLoot(old(game.State()), ms, plan); g.(timer := g.timer + Seconds(ms))
    {
      hide Loaded, PlayerStates, Game.State, Game.Valid, Players.Valid, W.GenerateLoot;
      game.GenerateLoot(ms, plan);
      game.AddTime(1.0 * ms as real / 1000.0);
    }

    /** Loot appears, clocks advance, dogs move, idle players retire. */
    method Advance(ms: int, plan: seq<SessionDraw>)
      requires Valid()
      modifies this`records, game`loot, game`lootNumber, game`timer, game.generator, game.sessions.Values
      modifies players.players, DogsOf(players.players)
      ensures Valid() && game.Grown(old(game.loot))
      ensures game.State() == var g := W.GenerateLoot(old(game.State()), ms, plan); g.(timer := g.timer + Seconds(ms))
      ensures PlayerStates(players.players) ==
              StepPlayers(old(PlayerStates(players.players)), ms, game.config.retirementTime)
      ensures records == old(records) + NewRecords(old(PlayerStates(players.players)), ms, game.config.retirementTime)
    {
      hide PlayerStates, Game.State, Valid, StepPlayer, NewRecords, W.GenerateLoot;
      AgeGame(ms, plan);
      MovePlayers(ms);
    }

    /** The two event loops. */
    method Collect(order: seq<string>) returns (lootEvents: seq<GatheringEvent>, officeEvents: seq<GatheringEvent>)
      requires Valid()
      modifies game.loot, game.sessions.Values, players.players, DogsOf(players.players)
      ensures Valid()
      ensures Detected(LootItems(old(Scene()).game.loot), DogGatherers(old(Scene()).players), lootEvents)
      ensures var s := Gather(old(Scene()), order, lootEvents);
              Detected(OfficeItems(game.config.maps), DogGatherers(s.players), officeEvents) &&
              Scene() == Gathering(s.game, VisitOffices(s, order, officeEvents))
    {
      hide Valid, PlayerStates, Game.State, Gather, VisitOffices, Detected;
      lootEvents := GatherLoot(order);
      officeEvents := CashOffices(order);
    }

    /** Both halves of a tick, with the state between them. */
    method AdvanceAndCollect(ms: int, plan: seq<SessionDraw>)
      returns (lootEvents: seq<GatheringEvent>, officeEvents: seq<GatheringEvent>,
               ghost aged: GameState, ghost moved: seq<PlayerState>)
      requires Valid()
      modifies this`records, game`loot, game`lootNumber, game`timer, game.generator, game.loot, game.sessions.Values
      modifies players.players, DogsOf(players.players)
      ensures Valid()
      ensures aged == var g := W.GenerateLoot(old(game.State()), ms, plan); g.(timer := g.timer + Seconds(ms))
      ensures aged.config == game.config
      ensures moved == StepPlayers(old(PlayerStates(players.players)), ms, game.config.retirementTime)
      ensures records == old(records) + NewRecords(old(PlayerStates(players.players)), ms, game.config.retirementTime)
      ensures Detected(LootItems(aged.loot), DogGatherers(moved), lootEvents)
      ensures var s := Gather(Gathering(aged, moved), Order(plan), lootEvents);
              Detected(OfficeItems(game.config.maps), DogGatherers(s.players), officeEvents) &&
              Scene() == Gathering(s.game, VisitOffices(s, Order(plan), officeEvents))
    {
      hide PlayerStates, Game.State, Valid, StepPlayers, NewRecords, W.GenerateLoot, Gather, VisitOffices, Detected;
      Advance(ms, plan);
      game.StateShape();
      ghost var was, now := old(game.loot), game.loot;
      assert forall i :: 0 <= i < |now| ==> now[i] in was || fresh(now[i]);
      aged, moved := game.State(), PlayerStates(players.players);
      lootEvents, officeEvents := Collect(Order(plan));
    }

    /** A tick; the plan lists the sessions in the order in which the session map is iterated. */
    method Tick(ms: int, plan: seq<SessionDraw>)
      returns (lootEvents: seq<GatheringEvent>, officeEvents: seq<GatheringEvent>)
      requires Valid() && IsOrder(Order(plan), game.sessions.Keys)
      modifies this`records, game`loot, game`lootNumber, game`timer, game.generator, game.loot, game.sessions.Values
      modifies players.players, DogsOf(players.players)
      ensures Valid()
      ensures State() == W.Tick(old(State()), TickInput(ms, plan, lootEvents, officeEvents))
      ensures TickPossible(old(State()), TickInput(ms, plan, lootEvents, officeEvents))
    {
      hide PlayerStates, Game.State, Valid, StepPlayers, NewRecords, W.GenerateLoot, Gather, VisitOffices, Detected,
           ById, W.Tick, TickPossible, IsOrder;
      game.StateShape();
      ghost var aged, moved;
      lootEvents, officeEvents, aged, moved := AdvanceAndCollect(ms, plan);
      TickInParts(old(State()), TickInput(ms, plan, lootEvents, officeEvents), aged, moved);
    }
  }

  /** Taking loot moves nobody, so both detector runs of a tick see the same gatherers. */
  lemma {:induction false} GatheringMovesNobody(s: Gathering, order: seq<string>, events: seq<GatheringEvent>)
    ensures DogGatherers(Gather(s, order, events).players) == DogGatherers(s.players)
  {
    if events != [] {
      GatheringMovesNobody(s, order, events[..|events| - 1]);
      var before := Gather(s, order, events[..|events| - 1]);
      assert DogGatherers(GatherOne(before, order, events[|events| - 1]).players) == DogGatherers(before.players);
    }
  }

  lemma TickInParts(w: World, t: TickInput, aged: GameState, moved: seq<PlayerState>)
    requires IsOrder(Order(t.plan), w.game.sessions.Keys)
    requires aged == var g := W.GenerateLoot(w.game, t.ms, t.plan); g.(timer := g.timer + Seconds(t.ms))
    requires aged.config == w.game.config
    requires moved == StepPlayers(w.players, t.ms, w.game.config.retirementTime)
    requires Detected(LootItems(aged.loot), DogGatherers(moved), t.lootEvents)
    requires Detected(OfficeItems(w.game.config.maps),
                      DogGatherers(Gather(Gathering(aged, moved), Order(t.plan), t.lootEvents).players),
                      t.officeEvents)
    ensures TickPossible(w, t)
    ensures var s := Gather(Gathering(aged, moved), Order(t.plan), t.lootEvents);
            W.Tick(w, t) == W.World(s.game, VisitOffices(s, Order(t.plan), t.officeEvents), w.tokens,
                                    w.records + NewRecords(w.players, t.ms, w.game.config.retirementTime))
  {
    hide Detected, IsOrder, Gather, StepPlayers, NewRecords, W.GenerateLoot, VisitOffices;
    GatheringMovesNobody(Gathering(aged, moved), Order(t.plan), t.lootEvents);
  }

  lemma EventsInRange(items: seq<Item>, gatherers: seq<Gatherer>, events: seq<GatheringEvent>)
    requires Detected(items, gatherers, events)
    ensures forall n :: 0 <= n < |events| ==> events[n].item < |items| && events[n].gatherer < |gatherers|
  {
    forall n | 0 <= n < |events|
      ensures events[n].item < |items| && events[n].gatherer < |gatherers|
    {
      assert events[n] in multiset(events);
    }
  }

  function PartlyStepped(was: seq<PlayerState>, k: nat, ms: int, retirementTime: real): (players: seq<PlayerState>)
    requires k <= |was|
    ensures |players| == |was|
    ensures forall i :: k <= i < |was| ==> players[i] == was[i]
  {
    StepPlayers(was[..k], ms, retirementTime) + was[k..]
  }

  lemma StepEnds(was: seq<PlayerState>, ms: int, retirementTime: real)
    ensures PartlyStepped(was, 0, ms, retirementTime) == was
    ensures PartlyStepped(was, |was|, ms, retirementTime) == StepPlayers(was, ms, retirementTime)
    ensures NewRecords(was[..0], ms, retirementTime) == []
    ensures was[..|was|] == was
  {
  }

  lemma StepOneMore(was: seq<PlayerState>, k: nat, ms: int, retirementTime: real)
    requires k < |was|
    ensures PartlyStepped(was, k + 1, ms, retirementTime) ==
            PartlyStepped(was, k, ms, retirementTime)[k := StepPlayer(was[k], ms, retirementTime)]
    ensures NewRecords(was[..k + 1], ms, retirementTime) ==
            NewRecords(was[..k], ms, retirementTime) + NewRecords([was[k]], ms, retirementTime)
  {
    hide StepPlayer;
    assert was[..k + 1][..k] == was[..k];
  }
}
