/** The loot loop: it hands out loot greedily and keeps the loot partition. */
module Greedy {
  import opened Collision
  import opened World
  import opened Invariants

  /** What gathering leaves alone, and the direction in which it changes the rest. */
  ghost predicate GatherFrame(s: Gathering, t: Gathering) {
    && t.game == s.game.(loot := t.game.loot, sessions := t.game.sessions)
    && |t.game.loot| == |s.game.loot|
    && (forall i :: 0 <= i < |s.game.loot| ==>
          && t.game.loot[i] == s.game.loot[i].(visible := t.game.loot[i].visible)
          && (t.game.loot[i].visible ==> s.game.loot[i].visible))
    && t.game.sessions.Keys == s.game.sessions.Keys
    && (forall m :: m in s.game.sessions ==>
          && t.game.sessions[m] == s.game.sessions[m].(loot := t.game.sessions[m].loot)
          && t.game.sessions[m].loot <= s.game.sessions[m].loot)
    && |t.players| == |s.players|
    && (forall i :: 0 <= i < |s.players| ==> OnlyBagGrows(s.players[i], t.players[i]))
  }

  ghost predicate OnlyBagGrows(p: PlayerState, q: PlayerState) {
    && q == p.(dog := p.dog.(bag := q.dog.bag))
    && p.dog.bag <= q.dog.bag
  }

  lemma GatherFrameTransitive(s: Gathering, t: Gathering, u: Gathering)
    requires GatherFrame(s, t) && GatherFrame(t, u)
    ensures GatherFrame(s, u)
  {
    forall i | 0 <= i < |s.players|
      ensures OnlyBagGrows(s.players[i], u.players[i])
    {
      assert OnlyBagGrows(s.players[i], t.players[i]) && OnlyBagGrows(t.players[i], u.players[i]);
    }
  }

  /** The event of a gatherer with room for an item still lying about. */
  predicate Grants(s: Gathering, e: GatheringEvent) {
    e.item < |s.game.loot| && e.gatherer < |s.players| &&
    s.game.loot[e.item].visible && HasRoom(s.players[e.gatherer].dog)
  }

  /** The search through the sessions comes to this, whatever the order of the session map. */
  lemma SearchIsGreedy(s: Gathering, order: seq<string>, e: GatheringEvent)
    requires LootOk(s.game, s.players) && IsOrder(order, s.game.sessions.Keys)
    ensures Grants(s, e) ==>
              exists m :: Holds(s.game, m, e.item) && GatherOne(s, order, e) == Take(s, m, e.item, e.gatherer)
    ensures !Grants(s, e) ==> GatherOne(s, order, e) == s
  {
    if e.item < |s.game.loot| && e.gatherer < |s.players| {
      match HolderOf(s.game.sessions, order, e.item)
      case None =>
        assert forall m :: !Holds(s.game, m, e.item);
        assert !IsVisible(s.game, e.item);
      case Some(m) =>
        assert Holds(s.game, m, e.item);
        assert IsVisible(s.game, e.item);
    }
  }

  lemma TakeKeepsFrame(s: Gathering, m: string, item: nat, gatherer: nat)
    requires m in s.game.sessions && item < |s.game.loot| && gatherer < |s.players|
    ensures GatherFrame(s, Take(s, m, item, gatherer))
  {
  }

  lemma TakeKeepsVisibility(s: Gathering, m: string, item: nat, gatherer: nat)
    requires IdsAreIndices(s.game) && VisibleIffHeldOnce(s.game)
    requires Holds(s.game, m, item) && item < |s.game.loot| && gatherer < |s.players|
    ensures IdsAreIndices(Take(s, m, item, gatherer).game)
    ensures VisibleIffHeldOnce(Take(s, m, item, gatherer).game)
  {
    var g, h := s.game, Take(s, m, item, gatherer).game;
    assert forall n, id :: Holds(h, n, id) <==> Holds(g, n, id) && !(n == m && id == item);
    assert forall id :: IsVisible(h, id) <==> IsVisible(g, id) && id != item;
    forall id | IsVisible(h, id)
      ensures exists n :: Holds(h, n, id)
    {
      var n :| Holds(g, n, id);
      assert Holds(h, n, id);
    }
  }

  lemma TakeKeepsBags(s: Gathering, m: string, item: nat, gatherer: nat)
    requires LootOk(s.game, s.players)
    requires Holds(s.game, m, item) && item < |s.game.loot| && gatherer < |s.players|
    requires s.game.loot[item].visible && HasRoom(s.players[gatherer].dog)
    ensures var t := Take(s, m, item, gatherer);
            BagsHoldTaken(t.game, t.players) && BagsAreDisjoint(t.players) && BagsWithinCapacity(t.players)
  {
    var t := Take(s, m, item, gatherer);
    var old_, new_ := s.players[gatherer].dog.bag, t.players[gatherer].dog.bag;
    assert new_ == old_ + [s.game.loot[item]];
    forall i, k | Bagged(t.players, i, k)
      ensures Bagged(s.players, i, k) || (i == gatherer && k == |old_|)
      ensures t.players[i].dog.bag[k] == if i == gatherer && k == |old_| then s.game.loot[item]
              else s.players[i].dog.bag[k]
    {
    }
    forall i, k | Bagged(s.players, i, k)
      ensures s.players[i].dog.bag[k].id != item
    {
    }
  }

  lemma TakeKeepsLootOk(s: Gathering, m: string, item: nat, gatherer: nat)
    requires LootOk(s.game, s.players)
    requires Holds(s.game, m, item) && item < |s.game.loot| && gatherer < |s.players|
    requires s.game.loot[item].visible && HasRoom(s.players[gatherer].dog)
    ensures var t := Take(s, m, item, gatherer); LootOk(t.game, t.players)
  {
    TakeKeepsVisibility(s, m, item, gatherer);
    TakeKeepsBags(s, m, item, gatherer);
  }

  lemma GatherOneKeeps(s: Gathering, order: seq<string>, e: GatheringEvent)
    requires LootOk(s.game, s.players) && IsOrder(order, s.game.sessions.Keys)
    ensures var t := GatherOne(s, order, e); LootOk(t.game, t.players) && GatherFrame(s, t)
  {
    SearchIsGreedy(s, order, e);
    if Grants(s, e) {
      var m :| Holds(s.game, m, e.item) && GatherOne(s, order, e) == Take(s, m, e.item, e.gatherer);
      TakeKeepsFrame(s, m, e.item, e.gatherer);
      TakeKeepsLootOk(s, m, e.item, e.gatherer);
    }
  }

  /** The whole loop keeps the loot partition. */
  lemma {:induction false} GatherKeeps(s: Gathering, order: seq<string>, events: seq<GatheringEvent>)
    requires LootOk(s.game, s.players) && IsOrder(order, s.game.sessions.Keys)
    ensures var t := Gather(s, order, events); LootOk(t.game, t.players) && GatherFrame(s, t)
  {
    if events != [] {
      var before := events[..|events| - 1];
      var t := Gather(s, order, before);
      GatherKeeps(s, order, before);
      GatherOneKeeps(t, order, events[|events| - 1]);
      GatherFrameTransitive(s, t, Gather(s, order, events));
    }
  }

  /** The state in which the k-th event of the loop is handled. */
  function Stage(s: Gathering, order: seq<string>, events: seq<GatheringEvent>, k: nat): Gathering
    requires k <= |events|
  {
    Gather(s, order, events[..k])
  }

  lemma NextStage(s: Gathering, order: seq<string>, events: seq<GatheringEvent>, k: nat)
    requires LootOk(s.game, s.players) && IsOrder(order, s.game.sessions.Keys)
    requires k < |events|
    ensures var now, next := Stage(s, order, events, k), Stage(s, order, events, k + 1);
            && GatherFrame(s, now) && LootOk(now.game, now.players)
            && if Grants(now, events[k]) then exists m :: Holds(now.game, m, events[k].item) &&
                                                          next == Take(now, m, events[k].item, events[k].gatherer)
               else next == now
  {
    var now := Stage(s, order, events, k);
    GatherKeeps(s, order, events[..k]);
    assert events[..k + 1][..k] == events[..k];
    assert Stage(s, order, events, k + 1) == GatherOne(now, order, events[k]);
    SearchIsGreedy(now, order, events[k]);
  }

  /** The j-th event had a gatherer with room when its turn came. */
  ghost predicate HadRoom(s: Gathering, order: seq<string>, events: seq<GatheringEvent>, j: nat)
    requires j < |events|
  {
    var now := Stage(s, order, events, j);
    events[j].gatherer < |now.players| && HasRoom(now.players[events[j].gatherer].dog)
  }

  /** An object stays visible exactly as long as no event for it finds a gatherer with room, so the first
      such event takes it. */
  lemma {:induction false} FirstWithRoomTakes(s: Gathering, order: seq<string>, events: seq<GatheringEvent>, item: nat,
                                              k: nat)
    requires LootOk(s.game, s.players) && IsOrder(order, s.game.sessions.Keys)
    requires item < |s.game.loot| && k <= |events|
    ensures |Stage(s, order, events, k).game.loot| == |s.game.loot|
    ensures Stage(s, order, events, k).game.loot[item].visible <==>
            && s.game.loot[item].visible
            && forall j: nat :: j < k && events[j].item == item ==> !HadRoom(s, order, events, j)
  {
    if k > 0 {
      FirstWithRoomTakes(s, order, events, item, k - 1);
      NextStage(s, order, events, k - 1);
      var now := Stage(s, order, events, k - 1);
      assert Grants(now, events[k - 1]) && events[k - 1].item == item ==> HadRoom(s, order, events, k - 1);
      assert events[k - 1].item == item && now.game.loot[item].visible && HadRoom(s, order, events, k - 1)
        ==> Grants(now, events[k - 1]);
    }
  }

  predicate Carries(p: PlayerState, item: int) {
    exists n :: 0 <= n < |p.dog.bag| && p.dog.bag[n].id == item
  }

  /** The k-th event is the first for an item whose gatherer had room. */
  ghost predicate Wins(s: Gathering, order: seq<string>, events: seq<GatheringEvent>, item: nat, k: nat) {
    && k < |events| && events[k].item == item && HadRoom(s, order, events, k)
    && forall j: nat :: j < k && events[j].item == item ==> !HadRoom(s, order, events, j)
  }

  lemma OneEventOn(s: Gathering, order: seq<string>, events: seq<GatheringEvent>, k: nat)
    requires LootOk(s.game, s.players) && IsOrder(order, s.game.sessions.Keys) && k < |events|
    ensures GatherFrame(Stage(s, order, events, k), Stage(s, order, events, k + 1))
  {
    hide LootOk, GatherOne;
    GatherKeeps(s, order, events[..k]);
    assert events[..k + 1][..k] == events[..k];
    GatherOneKeeps(Stage(s, order, events, k), order, events[k]);
  }

  lemma {:induction false} BagsGrowAlong(s: Gathering, order: seq<string>, events: seq<GatheringEvent>, i: nat, k: nat)
    requires LootOk(s.game, s.players) && IsOrder(order, s.game.sessions.Keys)
    requires i <= k <= |events|
    ensures GatherFrame(Stage(s, order, events, i), Stage(s, order, events, k))
    decreases k
  {
    hide GatherFrame, Stage, LootOk, IsOrder;
    if i < k {
      BagsGrowAlong(s, order, events, i, k - 1);
      OneEventOn(s, order, events, k - 1);
      GatherFrameTransitive(Stage(s, order, events, i), Stage(s, order, events, k - 1), Stage(s, order, events, k));
    } else {
      FrameOfItself(Stage(s, order, events, i));
    }
  }

  lemma FrameOfItself(s: Gathering)
    ensures GatherFrame(s, s)
  {
  }

  /** The gatherer of the first event with room has the object when the loop is over, and nobody else has. */
  lemma WinnerHasIt(s: Gathering, order: seq<string>, events: seq<GatheringEvent>, item: nat, k: nat)
    requires LootOk(s.game, s.players) && IsOrder(order, s.game.sessions.Keys)
    requires item < |s.game.loot| && s.game.loot[item].visible && Wins(s, order, events, item, k)
    ensures var t := Gather(s, order, events);
            && events[k].gatherer < |t.players| && item < |t.game.loot| && !t.game.loot[item].visible
            && forall i :: 0 <= i < |t.players| ==> (Carries(t.players[i], item) <==> i == events[k].gatherer)
  {
    var now, next, end := Stage(s, order, events, k), Stage(s, order, events, k + 1), Gather(s, order, events);
    var g := events[k].gatherer;
    FirstWithRoomTakes(s, order, events, item, k);
    NextStage(s, order, events, k);
    var bag := next.players[g].dog.bag;
    assert bag[|bag| - 1].id == item;
    BagsGrowAlong(s, order, events, k + 1, |events|);
    assert events[..|events|] == events;
    assert OnlyBagGrows(next.players[g], end.players[g]);
    var at := |bag| - 1;
    assert end.players[g].dog.bag[at].id == item;
    GatherKeeps(s, order, events);
    forall i | 0 <= i < |end.players| && Carries(end.players[i], item)
      ensures i == g
    {
      var n :| 0 <= n < |end.players[i].dog.bag| && end.players[i].dog.bag[n].id == item;
      assert Bagged(end.players, i, n) && Bagged(end.players, g, at);
    }
  }

  /** With times in order, the winner is a gatherer of least time among those for whom the object came with room. */
  lemma WinnerIsEarliest(s: Gathering, order: seq<string>, events: seq<GatheringEvent>, item: nat, k: nat, j: nat)
    requires TimesAscend(events) && Wins(s, order, events, item, k)
    requires j < |events| && events[j].item == item && HadRoom(s, order, events, j)
    ensures events[k].time <= events[j].time
  {
  }

  /** When the loop is over, every event has its object collected by someone or its gatherer's bag full. */
  lemma {:induction false} GatheringIsMaximal(s: Gathering, order: seq<string>, events: seq<GatheringEvent>)
    requires LootOk(s.game, s.players) && IsOrder(order, s.game.sessions.Keys)
    ensures forall e :: e in events ==> !Grants(Gather(s, order, events), e)
  {
    if events != [] {
      var before, last := events[..|events| - 1], events[|events| - 1];
      var t := Gather(s, order, before);
      GatheringIsMaximal(s, order, before);
      GatherKeeps(s, order, before);
      GatherOneKeeps(t, order, last);
      SearchIsGreedy(t, order, last);
      var u := Gather(s, order, events);
      forall e | e in events
        ensures !Grants(u, e)
      {
        if e in before {
          RoomOnlyShrinks(t, u, e);
        } else {
          assert e == last;
        }
      }
    }
  }

  lemma RoomOnlyShrinks(s: Gathering, t: Gathering, e: GatheringEvent)
    requires GatherFrame(s, t)
    ensures Grants(t, e) ==> Grants(s, e)
  {
    if Grants(t, e) {
      assert OnlyBagGrows(s.players[e.gatherer], t.players[e.gatherer]);
    }
  }
}
