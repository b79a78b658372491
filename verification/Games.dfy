/** The game: its sessions, and the loot objects it shares with them. */
module Games {
  import opened Basics
  import opened LootGenerator
  import opened World
  import opened Objects
  import W = World

  /** The values of a list of loot objects. */
  function Values(loot: seq<LootObject>): (values: seq<Loot>)
    reads loot
    ensures |values| == |loot|
    ensures forall i :: 0 <= i < |loot| ==> values[i] == loot[i].Value()
  {
    if loot == [] then [] else Values(loot[..|loot| - 1]) + [loot[|loot| - 1].Value()]
  }

  /** The values of the sessions. */
  function States(sessions: map<string, GameSession>): (states: map<string, SessionState>)
    reads sessions.Values
  {
    map m | m in sessions :: sessions[m].State()
  }

  twostate lemma StatesUpdated(was: map<string, GameSession>, new now: map<string, GameSession>, new key: string)
    requires now.Keys == was.Keys + {key}
    requires forall m :: m in was && m != key ==> now[m] == was[m] && was[m].State() == old(was[m].State())
    ensures States(now) == old(States(was))[key := now[key].State()]
    ensures key in old(States(was)) <==> key in was
    ensures key in was ==> old(States(was))[key] == old(was[key].State())
  {
    hide GameSession.State;
  }

  twostate lemma ValuesSame(loot: seq<LootObject>)
    requires forall o :: o in loot ==> o.Value() == old(o.Value())
    ensures Values(loot) == old(Values(loot))
  {
    hide Values;
    forall i | 0 <= i < |loot|
      ensures Values(loot)[i] == old(Values(loot))[i]
    {
      assert loot[i] in loot;
    }
  }

  twostate lemma ValuesExtended(loot: seq<LootObject>, new object_: LootObject)
    requires forall o :: o in loot ==> o.Value() == old(o.Value())
    ensures Values(loot + [object_]) == old(Values(loot)) + [object_.Value()]
  {
    ValuesSame(loot);
    assert (loot + [object_])[..|loot|] == loot;
  }

  twostate lemma ValuesUpdated(loot: seq<LootObject>, new k: nat)
    requires k < |loot|
    requires forall i :: 0 <= i < |loot| && i != k ==> loot[i].Value() == old(loot[i].Value())
    ensures Values(loot) == old(Values(loot))[k := loot[k].Value()]
    ensures old(loot[k].Value()) == old(Values(loot))[k]
  {
    hide Values, LootObject.Value;
  }

  class Game {
    const config: Config
    const generator: LootGenerator
    var timer: real
    var lootNumber: int
    var loot: seq<LootObject>
    var sessions: map<string, GameSession>

    constructor (config: Config)
      ensures Valid() && this.config == config && fresh(generator)
      ensures loot == [] && sessions == map[]
      ensures State() == Start(config).game
    {
      this.config := config;
      generator := new LootGenerator();
      timer, lootNumber, loot, sessions := 0.0, 0, [], map[];
    }

    ghost predicate Numbered()
      reads this`loot, this`lootNumber
    {
      lootNumber == |loot| && forall i :: 0 <= i < |loot| ==> loot[i].id == i
    }

    /** A session is filed under the id of its map, so no two ids have the same session. */
    ghost predicate Filed()
      reads this`sessions
    {
      forall m :: m in sessions ==>
        sessions[m].mapInfo.id == m && sessions[m].mapInfo in config.maps && sessions[m].random == config.random
    }

    /** The loot in a session is the very object that the game lists under the same id. */
    ghost predicate Shared(s: GameSession)
      reads this`loot, s`loot
    {
      forall id :: id in s.loot ==> 0 <= id < |loot| && s.loot[id] == loot[id]
    }

    ghost predicate Valid()
      reads this, sessions.Values
    {
      Numbered() && Filed() && forall m :: m in sessions ==> Shared(sessions[m])
    }

    function State(): GameState
      reads this, generator, loot, sessions.Values
    {
      GameState(config, timer, generator.timeWithoutLoot, lootNumber, Values(loot), States(sessions))
    }

    lemma StateShape()
      ensures State().config == config && State().sessions.Keys == sessions.Keys
    {
    }

    method StartGameSession(m: MapInfo) returns (s: GameSession)
      requires Valid() && m in config.maps
      modifies this`sessions
      ensures Valid() && fresh(s) && sessions == old(sessions)[m.id := s]
      ensures State() == W.StartGameSession(old(State()), m)
    {
      hide Values, States, GameSession.State;
      s := NewSession(m);
      sessions := sessions[m.id := s];
      StatesUpdated(old(sessions), sessions, m.id);
      ValuesSame(loot);
    }

    method NewSession(m: MapInfo) returns (s: GameSession)
      ensures fresh(s) && s.loot == map[] && s.random == config.random && s.mapInfo == m
      ensures s.State() == SessionState(m, 0, {}, if m.bagCapacity != 0 then m.bagCapacity else config.bagCapacity, 0)
    {
      s := new GameSession(m, config.random);
      s.SetBagCapacity(if m.bagCapacity != 0 then m.bagCapacity else config.bagCapacity);
    }

    method GetGameSession(m: MapInfo) returns (s: GameSession)
      requires Valid() && m in config.maps
      modifies this`sessions
      ensures Valid() && m.id in sessions && sessions[m.id] == s
      ensures if m.id in old(sessions) then sessions == old(sessions)
              else fresh(s) && sessions == old(sessions)[m.id := s]
      ensures State() == W.GetGameSession(old(State()), m)
    {
      if m.id in sessions {
        s := sessions[m.id];
      } else {
        s := StartGameSession(m);
      }
    }

    /** The sessions that were started are new. */
    twostate predicate Entered(was: map<string, GameSession>)
      reads this
    {
      forall m :: m in sessions ==> (m in was && sessions[m] == was[m]) || fresh(sessions[m])
    }

    /** A dog enters the session of a map, which is started for the first one. */
    method EnterGame(m: MapInfo, name: string, uuid: int, spot: SpotDraw) returns (session: GameSession, dog: Dog)
      requires Valid() && m in config.maps
      modifies this`sessions, sessions.Values
      ensures Valid() && fresh(dog)
      ensures session.State().mapInfo in config.maps
      ensures m.id in sessions && session == sessions[m.id] && (m.id in old(sessions) || fresh(session))
      ensures sessions == if m.id in old(sessions) then old(sessions) else old(sessions)[m.id := session]
      ensures dog.State() == NewDog(W.GetGameSession(old(State()), m).sessions[m.id], config.random, name, uuid, spot)
      ensures session.State() == W.AddDog(W.GetGameSession(old(State()), m).sessions[m.id])
      ensures State() == W.EnterGame(old(State()), m)
    {
      session := GetGameSession(m);
      dog := AddDog(session, name, uuid, spot);
    }

    method AddDog(session: GameSession, name: string, uuid: int, spot: SpotDraw) returns (dog: Dog)
      requires Valid() && session.mapInfo.id in sessions && sessions[session.mapInfo.id] == session
      modifies session
      ensures Valid() && fresh(dog)
      ensures dog.State() == NewDog(old(session.State()), config.random, name, uuid, spot)
      ensures session.State() == W.AddDog(old(session.State()))
      ensures State().sessions == old(State()).sessions[session.mapInfo.id := session.State()]
      ensures State() == old(State()).(sessions := State().sessions)
    {
      hide Values, States, NewDog, GameSession.State;
      dog := session.AddDog(name, uuid, spot);
      StatesUpdated(sessions, sessions, session.mapInfo.id);
      ValuesSame(loot);
    }

    method NewLoot(kind: int) returns (object_: LootObject)
      requires lootNumber == |loot|
      modifies this`loot, this`lootNumber
      ensures fresh(object_) && object_.id == old(lootNumber)
      ensures lootNumber == old(lootNumber) + 1 && loot == old(loot) + [object_]
      ensures object_.Value() == Loot(old(lootNumber), kind, Coords(0.0, 0.0), true)
    {
      object_ := new LootObject(lootNumber, kind);
      lootNumber := lootNumber + 1;
      loot := loot + [object_];
    }

    /** A new object, listed by the game and shared with the session. */
    method ShareLoot(session: GameSession, item: LootDraw) returns (object_: LootObject)
      requires Valid() && session.mapInfo.id in sessions && sessions[session.mapInfo.id] == session
      modifies this`loot, this`lootNumber, session
      ensures Valid() && fresh(object_) && loot == old(loot) + [object_] && lootNumber == old(lootNumber) + 1
      ensures session.State() == old(session.State()).(loot := old(session.State()).loot + {old(lootNumber)})
      ensures object_.Value() == Loot(old(lootNumber), LootKind(session.mapInfo, item.kind),
                                      AtCell(Location(session.mapInfo, config.random, item.spot)), true)
    {
      hide Location, LootKind;
      object_ := NewLoot(LootKind(session.mapInfo, item.kind));
      session.AddNewLoot(object_, object_.id, item.spot);
    }

    /** What the loot list gained is new. */
    twostate predicate Grown(was: seq<LootObject>)
      reads this
    {
      forall o: object :: o in loot ==> o in was || fresh(o)
    }

    method AddLoot(mapId: string, item: LootDraw)
      requires Valid() && mapId in sessions
      modifies this`loot, this`lootNumber, sessions[mapId]
      ensures Valid() && Grown(old(loot))
      ensures State() == W.AddLoot(old(State()), mapId, item)
    {
      hide Location, LootKind, Values, States;
      var session := sessions[mapId];
      assert session.State().mapInfo == session.mapInfo;
      hide GameSession.State, Numbered;
      var object_ := ShareLoot(session, item);
      StatesUpdated(sessions, sessions, mapId);
      ValuesExtended(old(loot), object_);
    }

    method AddLoots(mapId: string, items: nat -> LootDraw, n: nat)
      requires Valid() && mapId in sessions
      modifies this`loot, this`lootNumber, sessions[mapId]
      ensures Valid() && Grown(old(loot))
      ensures State() == W.AddLoots(old(State()), mapId, items, n)
    {
      hide Valid, State, W.AddLoot;
      StateShape();
      for i := 0 to n
        invariant Valid() && Grown(old(loot))
        invariant State() == W.AddLoots(old(State()), mapId, items, i)
      {
        AddLoot(mapId, items(i));
      }
    }

    method GenerateFor(ms: int, draw: SessionDraw)
      requires Valid()
      modifies this`loot, this`lootNumber, generator, sessions.Values
      ensures Valid() && Grown(old(loot))
      ensures State() == W.GenerateFor(old(State()), ms, draw)
    {
      if draw.mapId in sessions {
        var n := CountLoot(ms, sessions[draw.mapId], draw.weight);
        hide Valid, State;
        AddLoots(draw.mapId, draw.items, n);
      }
    }

    method CountLoot(ms: int, session: GameSession, weight: real) returns (n: nat)
      requires Valid()
      modifies generator
      ensures Valid()
      ensures n == Generated(|session.State().loot|, session.State().Looters(), weight)
      ensures State() == old(State()).(lootClock := if n > 0 then 0 else old(State()).lootClock + ms)
    {
      n := generator.Generate(ms, |session.loot|, session.GetNumberOfPlayers(), weight);
      hide Values, States;
    }

    /** The sessions are visited in the order of the plan. */
    method GenerateLoot(ms: int, plan: seq<SessionDraw>)
      requires Valid()
      modifies this`loot, this`lootNumber, generator, sessions.Values
      ensures Valid() && Grown(old(loot))
      ensures State() == W.GenerateLoot(old(State()), ms, plan)
    {
      hide Valid, State, W.GenerateFor;
      for k := 0 to |plan|
        invariant Valid() && Grown(old(loot))
        invariant State() == W.GenerateLoot(old(State()), ms, plan[..k])
      {
        GenerateFor(ms, plan[k]);
        assert plan[..k + 1][..k] == plan[..k];
      }
      assert plan[..|plan|] == plan;
    }

    method AddTime(seconds: real)
      requires Valid()
      modifies this`timer
      ensures Valid()
      ensures State() == old(State()).(timer := old(State()).timer + seconds)
    {
      timer := timer + seconds;
    }

    predicate Holds(m: string, id: int)
      reads this, sessions.Values
      ensures Holds(m, id) <==> m in State().sessions && id in State().sessions[m].loot
    {
      m in sessions && id in sessions[m].loot
    }

    /** The number of dogs of a session, and the map it plays on. */
    function DogCount(m: string): (count: Option<nat>)
      reads this, sessions.Values
      ensures count == if m in State().sessions then Some(State().sessions[m].dogs) else None
      ensures m in sessions ==> State().sessions[m].mapInfo == sessions[m].mapInfo
    {
      if m in sessions then Some(|sessions[m].dogs|) else None
    }

    /** An object is taken off the map. */
    method Withdraw(m: string, item: nat)
      requires Valid() && m in sessions && item < |loot|
      modifies loot[item], sessions[m]
      ensures Valid()
      ensures State() == var g := old(State());
                         g.(loot := g.loot[item := g.loot[item].(visible := false)],
                            sessions := g.sessions[m := g.sessions[m].(loot := g.sessions[m].loot - {g.loot[item].id})])
    {
      hide Values, States, GameSession.State;
      loot[item].SetInvisible();
      sessions[m].DeleteLootObject(loot[item].id);
      StatesUpdated(sessions, sessions, m);
      ValuesUpdated(loot, item);
    }
  }
}
