/** How near is near enough: what a tick collects and who pays a visit, in coordinates and with the widths written out.
    Dogs are 0.6 wide, offices 0.5, and loot has no width. */
module Vicinity {
  import opened Basics
  import opened Geometry
  import opened Collision
  import opened World
  import opened Invariants
  import opened Prices
  import opened Offices
  import opened Greedy
  import opened Preservation
  import opened Runs

  /** The last move of the dog passes the point within a distance. */
  ghost predicate WalksBy(d: DogState, at: Coords, distance: real) {
    d.start != d.pos && Passes(d.start, d.pos, at, distance)
  }

  /** The last move of the dog passes an office of some loaded map within 1.1 cells. */
  ghost predicate WalksByOffice(c: Config, d: DogState) {
    exists m, o :: 0 <= m < |c.maps| && 0 <= o < |c.maps[m].offices| &&
                   WalksBy(d, Coords(c.maps[m].offices[o].x as real, c.maps[m].offices[o].y as real), 1.1)
  }

  lemma {:induction false} LootStaysPut(s: Gathering, order: seq<string>, events: seq<GatheringEvent>)
    ensures var t := Gather(s, order, events);
            && t.game.config == s.game.config && |t.players| == |s.players| && |t.game.loot| == |s.game.loot|
            && forall i :: 0 <= i < |s.game.loot| ==>
                 t.game.loot[i] == s.game.loot[i].(visible := t.game.loot[i].visible)
  {
    if events != [] {
      LootStaysPut(s, order, events[..|events| - 1]);
    }
  }

  /** What the dogs and the loot of a tick's event loops have in common with the outcome of the tick. */
  lemma PlacesAfterTick(w: World, t: TickInput)
    ensures var v, z := Underway(w, t), Tick(w, t);
            && z.game.config == v.game.config == w.game.config
            && |z.players| == |v.players| && |z.game.loot| == |v.game.loot|
            && (forall i :: 0 <= i < |v.game.loot| ==> z.game.loot[i].pos == v.game.loot[i].pos)
            && forall k :: 0 <= k < |v.players| ==>
                 z.players[k].dog.start == v.players[k].dog.start && z.players[k].dog.pos == v.players[k].dog.pos
  {
    hide StepPlayers, GenerateLoot, NewRecords, Gather, VisitOffices;
    var v := Underway(w, t);
    GenerateKeepsConfig(w.game, t.ms, t.plan);
    LootStaysPut(Gathering(v.game, v.players), Order(t.plan), t.lootEvents);
    forall k | 0 <= k < |v.players|
      ensures |Tick(w, t).players| == |v.players| && SameMotion(v.players[k], Tick(w, t).players[k])
    {
      SecondHalfKeepsMotion(v, t, k);
    }
    VisitsKeepCount(GatherLoot(v, t), t);
  }

  lemma VisitsKeepCount(w: World, t: TickInput)
    ensures |CashOffices(w, t).players| == |w.players|
  {
    hide CashIn;
  }

  /** A tick has an event for a player and an object exactly if the player's dog moved past it within 0.6 cells. */
  lemma LootEventIff(w: World, t: TickInput, k: nat, i: nat)
    requires TickPossible(w, t) && k < |Tick(w, t).players| && i < |Tick(w, t).game.loot|
    ensures (exists e :: e in t.lootEvents && e.item == i && e.gatherer == k) <==>
            WalksBy(Tick(w, t).players[k].dog, Tick(w, t).game.loot[i].pos, 0.6)
  {
    hide Tick, Underway, IsEvent, Passes;
    PlacesAfterTick(w, t);
    var v := Underway(w, t);
    DetectedPairs(LootItems(v.game.loot), DogGatherers(v.players), t.lootEvents);
  }

  lemma {:induction false} OfficeAt(maps: seq<MapInfo>, m: nat, o: nat) returns (i: nat)
    requires m < |maps| && o < |maps[m].offices|
    ensures i < |OfficeItems(maps)|
    ensures OfficeItems(maps)[i] == Item(Coords(maps[m].offices[o].x as real, maps[m].offices[o].y as real), 0.5)
  {
    if m == 0 {
      i := o;
    } else {
      i := OfficeAt(maps[1..], m - 1, o);
      i := |maps[0].offices| + i;
    }
  }

  lemma {:induction false} ItemIsOffice(maps: seq<MapInfo>, i: nat) returns (m: nat, o: nat)
    requires i < |OfficeItems(maps)|
    ensures m < |maps| && o < |maps[m].offices|
    ensures OfficeItems(maps)[i] == Item(Coords(maps[m].offices[o].x as real, maps[m].offices[o].y as real), 0.5)
  {
    if i < |maps[0].offices| {
      m, o := 0, i;
    } else {
      m, o := ItemIsOffice(maps[1..], i - |maps[0].offices|);
      m := m + 1;
    }
  }

  /** A tick has an event for a player at an office exactly if the player's dog moved past one within 1.1 cells. */
  lemma OfficeEventIff(w: World, t: TickInput, k: nat)
    requires TickPossible(w, t) && k < |Tick(w, t).players|
    ensures (exists e :: e in t.officeEvents && e.gatherer == k) <==>
            WalksByOffice(w.game.config, Tick(w, t).players[k].dog)
  {
    hide Tick, Underway, IsEvent, Passes, OfficeItems;
    PlacesAfterTick(w, t);
    var v, d := Underway(w, t), Tick(w, t).players[k].dog;
    var maps, offices := w.game.config.maps, OfficeItems(w.game.config.maps);
    DetectedPairs(offices, DogGatherers(v.players), t.officeEvents);
    if e :| e in t.officeEvents && e.gatherer == k {
      var m, o := ItemIsOffice(maps, e.item);
      assert PassesBy(DogGatherers(v.players)[k], offices[e.item]);
    }
    if WalksByOffice(w.game.config, d) {
      var m, o :| 0 <= m < |maps| && 0 <= o < |maps[m].offices| &&
                  WalksBy(d, Coords(maps[m].offices[o].x as real, maps[m].offices[o].y as real), 1.1);
      var i := OfficeAt(maps, m, o);
      assert PassesBy(DogGatherers(v.players)[k], offices[i]);
    }
  }

  // ---------------------------------------------------------------- what comes of it

  /** The state of a tick after the loot loop, in which nobody has been paid yet. */
  function Loaded(w: World, t: TickInput): World { GatherLoot(Underway(w, t), t) }

  lemma {:induction false} NewInBagHadEvent(s: Gathering, order: seq<string>, events: seq<GatheringEvent>, k: nat,
                                            i: nat)
    requires IdsAreIndices(s.game) && k < |s.players|
    ensures |Gather(s, order, events).players| == |s.players| && IdsAreIndices(Gather(s, order, events).game)
    ensures Carries(Gather(s, order, events).players[k], i) && !Carries(s.players[k], i) ==>
              exists e :: e in events && e.item == i && e.gatherer == k
  {
    if events != [] {
      var before, last := events[..|events| - 1], events[|events| - 1];
      NewInBagHadEvent(s, order, before, k, i);
      var t, u := Gather(s, order, before), Gather(s, order, events);
      assert forall e :: e in before ==> e in events;
      assert last in events;
      if Carries(u.players[k], i) && !Carries(t.players[k], i) {
        var n :| 0 <= n < |u.players[k].dog.bag| && u.players[k].dog.bag[n].id == i;
        assert n < |t.players[k].dog.bag| ==> u.players[k].dog.bag[n] != t.players[k].dog.bag[n];
      }
    }
  }

  /** Every event of a tick is a player moving past an object within 0.6 cells. */
  lemma LootEventInPassing(w: World, t: TickInput, e: GatheringEvent)
    requires TickPossible(w, t) && e in t.lootEvents
    ensures e.gatherer < |Tick(w, t).players| && e.item < |Tick(w, t).game.loot|
    ensures WalksBy(Tick(w, t).players[e.gatherer].dog, Tick(w, t).game.loot[e.item].pos, 0.6)
  {
    hide Tick, Underway, IsEvent, Passes;
    PlacesAfterTick(w, t);
    var v := Underway(w, t);
    DetectedPairs(LootItems(v.game.loot), DogGatherers(v.players), t.lootEvents);
    LootEventIff(w, t, e.gatherer, e.item);
  }

  lemma UnderwayIsSound(w: World, t: TickInput)
    requires Inv(w)
    ensures var v := Underway(w, t);
            && LootOk(v.game, v.players) && v.game.sessions.Keys == w.game.sessions.Keys
            && |v.players| == |w.players| && forall k :: 0 <= k < |w.players| ==>
                 && v.players[k].dog.bag == w.players[k].dog.bag && v.players[k].score == w.players[k].score
                 && v.players[k].session == w.players[k].session
  {
    hide LootOk, GenerateLoot, NewRecords;
    UnderwayKeeps(w, t);
  }

  lemma LoadedShape(w: World, t: TickInput)
    ensures Loaded(w, t).game == Tick(w, t).game
    ensures |Loaded(w, t).players| == |Tick(w, t).players|
    ensures var s := Gather(Gathering(Underway(w, t).game, Underway(w, t).players), Order(t.plan), t.lootEvents);
            Loaded(w, t).players == s.players && Loaded(w, t).game == s.game
  {
    hide Underway, Gather;
    VisitsKeepCount(Loaded(w, t), t);
  }

  /** A player gets an object into the bag only by moving past it within 0.6 cells. */
  lemma TakenInPassing(w: World, t: TickInput, k: nat, i: nat)
    requires Inv(w) && TickPossible(w, t) && k < |w.players|
    ensures |Loaded(w, t).players| == |Tick(w, t).players| == |w.players|
    ensures Carries(Loaded(w, t).players[k], i) && !Carries(w.players[k], i) ==>
              i < |Tick(w, t).game.loot| && WalksBy(Tick(w, t).players[k].dog, Tick(w, t).game.loot[i].pos, 0.6)
  {
    hide Tick, Inv, Gather, TickPossible, WalksBy, Underway, Loaded;
    var v := Underway(w, t);
    UnderwayIsSound(w, t);
    LoadedShape(w, t);
    NewInBagHadEvent(Gathering(v.game, v.players), Order(t.plan), t.lootEvents, k, i);
    if Carries(Loaded(w, t).players[k], i) && !Carries(w.players[k], i) {
      var e :| e in t.lootEvents && e.item == i && e.gatherer == k;
      LootEventInPassing(w, t, e);
    }
  }

  /** An object that still lies about after a tick was passed within 0.6 cells only by players whose bag had got
      full; a negative capacity is no limit. */
  lemma PassedOnlyWithFullBag(w: World, t: TickInput, k: nat, i: nat)
    requires Inv(w) && TickPossible(w, t) && k < |Tick(w, t).players| && i < |Tick(w, t).game.loot|
    requires Tick(w, t).game.loot[i].visible && WalksBy(Tick(w, t).players[k].dog, Tick(w, t).game.loot[i].pos, 0.6)
    ensures |Loaded(w, t).players| == |Tick(w, t).players|
    ensures var d := Loaded(w, t).players[k].dog; 0 <= d.capacity == |d.bag|
  {
    hide Tick, Inv, Gather, Detected, WalksBy, Underway, Loaded, LootOk;
    var v := Underway(w, t);
    UnderwayIsSound(w, t);
    LoadedShape(w, t);
    LootEventIff(w, t, k, i);
    var e :| e in t.lootEvents && e.item == i && e.gatherer == k;
    GatheringIsMaximal(Gathering(v.game, v.players), Order(t.plan), t.lootEvents);
    GatherKeeps(Gathering(v.game, v.players), Order(t.plan), t.lootEvents);
    FullMeans(Loaded(w, t).game, Loaded(w, t).players, k);
  }

  lemma FullMeans(g: GameState, players: seq<PlayerState>, k: nat)
    requires LootOk(g, players) && k < |players| && !HasRoom(players[k].dog)
    ensures 0 <= players[k].dog.capacity == |players[k].dog.bag|
  {
  }

  lemma LoadedKeepsScores(w: World, t: TickInput, k: nat)
    requires Inv(w) && k < |w.players|
    ensures |Loaded(w, t).players| == |w.players|
    ensures var p, q := w.players[k], Loaded(w, t).players[k]; q.score == p.score && q.session == p.session
  {
    hide Inv, Underway, Gather, Tick;
    var v := Underway(w, t);
    UnderwayIsSound(w, t);
    GatherKeepsMotionAndScore(Gathering(v.game, v.players), Order(t.plan), t.lootEvents, k);
  }

  lemma {:induction false} GatherKeepsMotionAndScore(s: Gathering, order: seq<string>, events: seq<GatheringEvent>,
                                                     k: nat)
    requires k < |s.players|
    ensures |Gather(s, order, events).players| == |s.players|
    ensures var q := Gather(s, order, events).players[k];
            q.score == s.players[k].score && q.session == s.players[k].session
  {
    if events != [] {
      GatherKeepsMotionAndScore(s, order, events[..|events| - 1], k);
    }
  }

  /** A player whose last move did not pass an office within 1.1 cells earns nothing and keeps the bag. */
  lemma NoVisitNoPay(w: World, t: TickInput, k: nat)
    requires Inv(w) && TickPossible(w, t) && k < |w.players|
    ensures |Loaded(w, t).players| == |Tick(w, t).players| == |w.players|
    ensures var q := Tick(w, t).players[k];
            !WalksByOffice(w.game.config, q.dog) ==>
              q.score == w.players[k].score && q.dog.bag == Loaded(w, t).players[k].dog.bag
  {
    hide Inv, Underway, Gather, TickPossible, WalksByOffice, Loaded, CashIn;
    LoadedKeepsScores(w, t, k);
    LoadedShape(w, t);
    if !WalksByOffice(w.game.config, Tick(w, t).players[k].dog) {
      OfficeEventIff(w, t, k);
      assert t.officeEvents != [] ==> t.officeEvents[0] in t.officeEvents;
      VisitsAreFirst(Loaded(w, t), t, k);
      assert Tick(w, t) == CashOffices(Loaded(w, t), t) by { hide *; TickIsLoadedThenPaid(w, t); }
    }
  }

  lemma TickIsLoadedThenPaid(w: World, t: TickInput)
    ensures Tick(w, t) == CashOffices(Loaded(w, t), t)
  {
  }

  /** Nobody but the player of the first event is touched, and that player is paid. */
  lemma VisitsAreFirst(u: World, t: TickInput, k: nat)
    requires k < |u.players|
    ensures |CashOffices(u, t).players| == |u.players|
    ensures CashOffices(u, t).players[k] ==
            if t.officeEvents != [] && t.officeEvents[0].gatherer == k then
              CashIn(u.players[k], u.game.sessions, Order(t.plan))
            else u.players[k]
  {
    hide CashIn;
  }

  /** The only player who moved past an office within 1.1 cells hands in the bag for the values of the table of the
      first session that matches. */
  lemma OnlyVisitorIsPaid(w: World, t: TickInput, k: nat, n: nat)
    requires Inv(w) && TickPossible(w, t) && k < |w.players| && |Tick(w, t).players| == |w.players|
    requires forall j :: 0 <= j < |w.players| ==>
               (WalksByOffice(w.game.config, Tick(w, t).players[j].dog) <==> j == k)
    requires MatchesFirst(w.players[k], Tick(w, t).game.sessions, Order(t.plan), n)
    requires |Loaded(w, t).players| == |w.players|
    requires KindsInRange(Loaded(w, t).players[k].dog.bag,
                          Tick(w, t).game.sessions[t.plan[n].mapId].mapInfo.lootValues)
    ensures var table := Tick(w, t).game.sessions[t.plan[n].mapId].mapInfo.lootValues;
            && Tick(w, t).players[k].score == w.players[k].score + Price(Loaded(w, t).players[k].dog.bag, table)
            && Tick(w, t).players[k].dog.bag == []
  {
    hide Inv, Underway, Gather, Tick, TickPossible, WalksByOffice, Loaded, CashIn, CashOffices, Price, KindsInRange;
    LoadedKeepsScores(w, t, k);
    LoadedShape(w, t);
    OfficeEventIff(w, t, k);
    TickIsLoadedThenPaid(w, t);
    var e := t.officeEvents[0];
    assert e in t.officeEvents;
    OfficeEventInPassing(w, t, e);
    VisitsAreFirst(Loaded(w, t), t, k);
    FirstMatchPaysPrice(Loaded(w, t).players[k], Tick(w, t).game.sessions, Order(t.plan), n);
  }

  lemma OfficeEventInPassing(w: World, t: TickInput, e: GatheringEvent)
    requires TickPossible(w, t) && e in t.officeEvents
    ensures e.gatherer < |Tick(w, t).players| && WalksByOffice(w.game.config, Tick(w, t).players[e.gatherer].dog)
  {
    hide Tick, Underway, IsEvent, Passes, OfficeItems, WalksByOffice;
    PlacesAfterTick(w, t);
    var v := Underway(w, t);
    DetectedPairs(OfficeItems(w.game.config.maps), DogGatherers(v.players), t.officeEvents);
    OfficeEventIff(w, t, e.gatherer);
  }
}
