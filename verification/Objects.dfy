/** Loot objects, dogs, sessions and players. Each method is proved to do what the state machine of World says. */
module Objects {
  import opened Basics
  import opened Roads
  import opened Movement
  import opened World
  import opened Prices
  import opened Activity
  import W = World

  /** An object lying on a map; the game and one session share it. */
  class LootObject {
    const id: int
    const kind: int
    var pos: Coords
    var visible: bool

    constructor (id: int, kind: int)
      ensures this.id == id && this.kind == kind
      ensures Value() == Loot(id, kind, Coords(0.0, 0.0), true)
    {
      this.id, this.kind := id, kind;
      pos, visible := Coords(0.0, 0.0), true;
    }

    function Value(): Loot
      reads this
    {
      Loot(id, kind, pos, visible)
    }

    method SetPosition(at: Coords)
      modifies this
      ensures Value() == old(Value()).(pos := at)
    {
      pos := at;
    }

    method SetInvisible()
      modifies this
      ensures Value() == old(Value()).(visible := false)
    {
      visible := false;
    }
  }

  class Dog {
    var name: string
    const id: int
    var uuid: int
    var nominalSpeed: real
    var pos: Coords
    var start: Coords
    var speed: Coords
    var dir: string
    /** Copies of loot objects, which nobody else refers to. */
    var bag: seq<Loot>
    var capacity: int
    var lastActivity: real
    var startTime: real
    var clock: real

    constructor (name: string, id: int, speed: real, at: Coords, uuid: int)
      ensures State() == DogState(name, id, uuid, speed, at, at, Coords(0.0, 0.0), "U", [], 0, 0.0, 0.0, 0.0)
    {
      this.name, this.id, this.uuid := name, id, uuid;
      nominalSpeed, pos, start := speed, at, at;
      this.speed, dir, bag, capacity := Coords(0.0, 0.0), "U", [], 0;
      lastActivity, startTime, clock := 0.0, 0.0, 0.0;
    }

    function State(): DogState
      reads this
    {
      DogState(name, id, uuid, nominalSpeed, pos, start, speed, dir, bag, capacity, lastActivity, startTime, clock)
    }

    method SetDirection(direction: string)
      modifies this
      ensures State() == W.SetDirection(old(State()), direction)
    {
      if direction == "L" {
        speed := Coords(-nominalSpeed, 0.0);
      } else if direction == "R" {
        speed := Coords(nominalSpeed, 0.0);
      } else if direction == "U" {
        speed := Coords(0.0, -nominalSpeed);
      } else if direction == "D" {
        speed := Coords(0.0, nominalSpeed);
      } else {
        speed := Coords(0.0, 0.0);
      }
      dir := direction;
    }

    method TakeLoot(loot: LootObject) returns (taken: bool)
      modifies this
      ensures taken == HasRoom(old(State()))
      ensures State() == if taken then old(State()).(bag := old(bag) + [loot.Value()]) else old(State())
    {
      if capacity < 0 || |bag| < capacity {
        bag := bag + [loot.Value()];
        return true;
      }
      return false;
    }

    method ReturnLoot() returns (returned: seq<Loot>)
      modifies this
      ensures returned == old(bag)
      ensures State() == old(State()).(bag := [])
    {
      returned := bag;
      bag := [];
    }

    /** Reading the idle time also records the activity of a moving dog. */
    method GetRetirementTime() returns (idle: real)
      modifies this
      ensures State() == NoteActivity(old(State()))
      ensures speed.x == speed.y ==> lastActivity == old(lastActivity)
      ensures Abs(speed.x - speed.y) > EPSILON ==> lastActivity == clock
      ensures idle == clock - lastActivity
    {
      if Abs(speed.x - speed.y) > EPSILON {
        lastActivity := clock;
      }
      idle := clock - lastActivity;
    }

    method RefreshTime(time: real)
      modifies this
      ensures State() == old(State()).(clock := old(clock) + time)
    {
      clock := clock + time;
    }

    method SetPosition(x: real, y: real)
      modifies this
      ensures State() == old(State()).(start := old(pos), pos := Coords(x, y))
    {
      start := pos;
      pos := Coords(x, y);
    }

    method Stop()
      modifies this
      ensures State() == old(State()).(speed := Coords(0.0, 0.0))
    {
      speed := Coords(0.0, 0.0);
    }
  }

  class GameSession {
    const mapInfo: MapInfo
    const random: bool
    var dogs: seq<Dog>
    var loot: map<int, LootObject>
    var capacity: int
    var retired: int

    constructor (m: MapInfo, random: bool)
      ensures mapInfo == m && this.random == random && loot == map[]
      ensures State() == SessionState(m, 0, {}, 0, 0)
    {
      mapInfo, this.random := m, random;
      dogs, loot, capacity, retired := [], map[], 0, 0;
    }

    function State(): SessionState
      reads this
    {
      SessionState(mapInfo, |dogs|, loot.Keys, capacity, retired)
    }

    /** The subtraction is between unsigned numbers. */
    function GetNumberOfPlayers(): (n: nat)
      reads this
      ensures n == State().Looters()
    {
      (|dogs| - retired) % 0x1_0000_0000
    }

    method SetBagCapacity(newCapacity: int)
      modifies this
      ensures State() == old(State()).(capacity := newCapacity)
      ensures dogs == old(dogs) && loot == old(loot)
    {
      capacity := newCapacity;
    }

    method AddDog(name: string, uuid: int, spot: SpotDraw) returns (dog: Dog)
      modifies this
      ensures fresh(dog) && dogs == old(dogs) + [dog] && loot == old(loot)
      ensures dog.State() == NewDog(old(State()), random, name, uuid, spot)
      ensures State() == W.AddDog(old(State()))
    {
      var start := Location(mapInfo, random, spot);
      var dogSpeed := Trunc(mapInfo.dogSpeed);
      dog := new Dog(name, |dogs|, dogSpeed as real, AtCell(start), uuid);
      dogs := dogs + [dog];
      dog.capacity := capacity;
    }

    /** The object is placed, and from now on shared with the session. */
    method AddNewLoot(object_: LootObject, id: int, spot: SpotDraw)
      modifies this, object_
      ensures loot == old(loot)[id := object_] && dogs == old(dogs)
      ensures State() == old(State()).(loot := old(State()).loot + {id})
      ensures object_.Value() == old(object_.Value()).(pos := AtCell(Location(mapInfo, random, spot)))
    {
      object_.SetPosition(AtCell(Location(mapInfo, random, spot)));
      loot := loot[id := object_];
    }

    method DeleteLootObject(id: int)
      modifies this
      ensures loot == old(loot) - {id} && dogs == old(dogs)
      ensures State() == old(State()).(loot := old(State()).loot - {id})
    {
      if id in loot {
        loot := loot - {id};
      }
    }
  }

  class Player {
    /** The copy of the session made when the player entered. */
    const session: SessionState
    const dog: Dog
    const id: nat
    var score: int
    var online: bool

    constructor (session: GameSession, dog: Dog, id: nat)
      ensures this.dog == dog && this.id == id && this.session == session.State()
      ensures score == 0 && online
    {
      this.session, this.dog, this.id := session.State(), dog, id;
      score, online := 0, true;
    }

    function State(): PlayerState
      reads this, dog
    {
      PlayerState(id, session, dog.State(), score, online)
    }

    method AddValue(value: int)
      modifies this
      ensures State() == old(State()).(score := old(score) + value)
    {
      score := score + value;
    }

    method SetOffline()
      modifies this
      ensures State() == old(State()).(online := false)
    {
      online := false;
    }

    /** One matching session in the office loop: the bag is returned and its objects are paid for. */
    method CashIn(values: seq<int>)
      modifies this, dog
      ensures State() == old(State()).(score := old(score) + BagValue(values, old(dog.bag)),
                                       dog := old(dog.State()).(bag := []))
      ensures KindsInRange(old(dog.bag), values) ==> score == old(score) + Price(old(dog.bag), values)
    {
      var returned := dog.ReturnLoot();
      for k := 0 to |returned|
        invariant State() == old(State()).(score := old(score) + BagValue(values, returned[..k]),
                                           dog := old(dog.State()).(bag := []))
      {
        AddValue(ValueOf(values, returned[k].kind));
        assert returned[..k + 1][..k] == returned[..k];
      }
      assert returned[..|returned|] == returned;
      if KindsInRange(returned, values) {
        BagValueIsPrice(values, returned);
      }
    }

    /** The four branches of a step: the new position, and whether a road end was reached. */
    method Travel(ms: int) returns (x: real, y: real, stop: bool)
      requires Indexes(session.mapInfo.cells, session.mapInfo.roads)
      ensures Moved(Coords(x, y), stop) == Move(session.mapInfo.roads, dog.pos, dog.speed, ms)
    {
      hide ClosedForm, Indexed;
      ghost var all: seq<Road> := session.mapInfo.roads;
      var position, speed := dog.pos, dog.speed;
      var roads := GetRoadMap(session.mapInfo.cells, CellOf(position));
      GetRoadMapExact(session.mapInfo.cells, all, CellOf(position));
      x, y, stop := position.x, position.y, false;
      var expectedX := position.x + speed.x * ms as real / 1000.0;
      var expectedY := position.y + speed.y * ms as real / 1000.0;
      if speed.x - EPSILON > 0.0 {
        x, stop := Clamp(Right, roads, position.x, expectedX);
        FreeWay(Right, position.x, speed.x, ms);
        ClampedIsMove(Right, all, roads, position, speed, ms, expectedX, x, stop);
      } else if speed.x + EPSILON < 0.0 {
        x, stop := Clamp(Left, roads, position.x, expectedX);
        FreeWay(Left, position.x, speed.x, ms);
        ClampedIsMove(Left, all, roads, position, speed, ms, expectedX, x, stop);
      } else if speed.y - EPSILON > 0.0 {
        y, stop := Clamp(Down, roads, position.y, expectedY);
        FreeWay(Down, position.y, speed.y, ms);
        ClampedIsMove(Down, all, roads, position, speed, ms, expectedY, y, stop);
      } else if speed.y + EPSILON < 0.0 {
        y, stop := Clamp(Up, roads, position.y, expectedY);
        FreeWay(Up, position.y, speed.y, ms);
        ClampedIsMove(Up, all, roads, position, speed, ms, expectedY, y, stop);
      }
    }

    /** The retirement check; the row is what a retirement inserts in the table. */
    method Retire(retirementTime: real) returns (row: Option<Record>)
      requires online
      modifies this, dog
      ensures dog.State() == NoteActivity(old(dog.State()))
      ensures State() == old(State()).(dog := dog.State(), online := !IdleTooLong(dog.State(), retirementTime))
      ensures row == if online then None else Some(Record(dog.uuid, dog.name, score, dog.clock - dog.startTime))
    {
      row := None;
      var copy := session;
      var idle := dog.GetRetirementTime();
      var late := idle > retirementTime;
      if !late {
        idle := dog.GetRetirementTime();
        late := Abs(idle - retirementTime) < EPSILON;
      }
      if late {
        SetOffline();
        copy := copy.(retired := copy.retired + 1);
        row := Some(Record(dog.uuid, dog.name, score, dog.clock - dog.startTime));
      }
    }

    /** One iteration of the player loop. */
    method Step(ms: int, retirementTime: real) returns (row: Option<Record>)
      requires Indexes(session.mapInfo.cells, session.mapInfo.roads)
      modifies this, dog
      ensures State() == StepPlayer(old(State()), ms, retirementTime)
      ensures NewRecords([old(State())], ms, retirementTime) == (if row.Some? then [row.value] else [])
      ensures row ==
              if !old(online) || online then None
              else Some(Record(dog.uuid, dog.name, score, dog.clock - dog.startTime))
      ensures old(online && dog.speed == Coords(0.0, 0.0)) ==>
                && dog.lastActivity == old(dog.lastActivity)
                && (online <==>
                    old(dog.clock) + ms as real / 1000.0 - old(dog.lastActivity) <= retirementTime - EPSILON)
    {
      hide Move, IdleTooLong, IsMoving;
      if old(online && dog.speed == Coords(0.0, 0.0)) {
        StandingStep(State(), ms, retirementTime);
      }
      dog.RefreshTime(1.0 * ms as real / 1000.0);
      if !online {
        return None;
      }
      var x, y, stop := Travel(ms);
      row := Retire(retirementTime);
      if stop {
        dog.Stop();
      }
      dog.SetPosition(x, y);
    }
  }
}
