/** The collision detector: which gatherers pass close enough to which items, and in what order. */
module Collision {
  import opened Basics
  import opened Geometry

  datatype Item = Item(position: Coords, width: real)

  datatype Gatherer = Gatherer(startPos: Coords, endPos: Coords, width: real)

  datatype GatheringEvent = GatheringEvent(item: nat, gatherer: nat, sqDistance: real, time: real)

  /** The tolerance of the sort, and its comparator. */
  const TIME_EPSILON: real := 0.00001

  predicate Before(left: GatheringEvent, right: GatheringEvent) {
    left.time < right.time - TIME_EPSILON
  }

  /** The event of a moving gatherer that passes close enough to an item. */
  predicate IsEvent(items: seq<Item>, gatherers: seq<Gatherer>, e: GatheringEvent) {
    && e.item < |items| && e.gatherer < |gatherers|
    && var g := gatherers[e.gatherer];
       g.startPos != g.endPos &&
       var r := TryCollectPoint(g.startPos, g.endPos, items[e.item].position);
       r.IsCollected(g.width + items[e.item].width) && e.sqDistance == r.sqDistance && e.time == r.projRatio
  }

  /** A list that holds every event once and nothing else. */
  ghost predicate ExactEvents(items: seq<Item>, gatherers: seq<Gatherer>, events: seq<GatheringEvent>) {
    forall e :: multiset(events)[e] == if IsEvent(items, gatherers, e) then 1 else 0
  }

  ghost predicate StrictWeakOrder(events: seq<GatheringEvent>) {
    && (forall x :: x in events ==> !Before(x, x))
    && (forall x, y, z :: x in events && y in events && z in events && Before(x, y) && Before(y, z) ==> Before(x, z))
    && (forall x, y, z :: x in events && y in events && z in events && !Before(x, y) && !Before(y, z) ==> !Before(x, z))
  }

  /** Sorted with respect to the comparator. */
  ghost predicate Ordered(events: seq<GatheringEvent>) {
    forall i, j :: 0 <= i < j < |events| ==> !Before(events[j], events[i])
  }

  predicate Near(x: GatheringEvent, y: GatheringEvent) {
    -0.00001 <= x.time - y.time <= 0.00001
  }

  /** No two events have different times within the tolerance. */
  ghost predicate Separated(events: seq<GatheringEvent>) {
    forall x, y :: x in events && y in events && Near(x, y) ==> x.time == y.time
  }

  /** The comparator orders a list properly exactly when no event is near two events that are not near each other. */
  lemma StrictWeakOrderIff(events: seq<GatheringEvent>)
    ensures StrictWeakOrder(events) <==>
            forall x, y, z :: x in events && y in events && z in events && Near(x, y) && Near(y, z) ==> Near(x, z)
    ensures Separated(events) ==> StrictWeakOrder(events)
  {
    if StrictWeakOrder(events) {
      forall x, y, z | x in events && y in events && z in events && Near(x, y) && Near(y, z)
        ensures Near(x, z)
      {
        assert !Before(x, y) && !Before(y, z) && !Before(z, y) && !Before(y, x);
      }
    }
    if forall x, y, z :: x in events && y in events && z in events && Near(x, y) && Near(y, z) ==> Near(x, z) {
      forall x, y, z | x in events && y in events && z in events && !Before(x, y) && !Before(y, z)
        ensures !Before(x, z)
      {
        assert Near(x, y) || Before(y, x);
      }
    }
  }

  /** Sorting with the comparator. std::sort promises a sorted result only for a strict weak order. */
  method SortByTime(events: seq<GatheringEvent>) returns (sorted: seq<GatheringEvent>)
    ensures multiset(sorted) == multiset(events)
    ensures StrictWeakOrder(events) ==> Ordered(sorted)
  {
    sorted := [];
    for n := 0 to |events|
      invariant multiset(sorted) == multiset(events[..n])
      invariant StrictWeakOrder(events) ==> Ordered(sorted)
    {
      ghost var done := events[..n];
      assert events[..n + 1] == done + [events[n]];
      forall x | x in sorted
        ensures x in events
      {
        assert x in multiset(sorted);
        assert x in done;
      }
      sorted := Insert(sorted, events[n], events);
    }
    assert events[..|events|] == events;
  }

  method Insert(sorted: seq<GatheringEvent>, e: GatheringEvent, ghost events: seq<GatheringEvent>)
    returns (longer: seq<GatheringEvent>)
    requires e in events && forall x :: x in sorted ==> x in events
    requires StrictWeakOrder(events) ==> Ordered(sorted)
    ensures multiset(longer) == multiset(sorted) + multiset{e}
    ensures StrictWeakOrder(events) ==> Ordered(longer)
  {
    var k := |sorted|;
    while k > 0 && Before(e, sorted[k - 1])
      invariant 0 <= k <= |sorted|
      invariant forall j :: k <= j < |sorted| ==> Before(e, sorted[j])
    {
      k := k - 1;
    }
    longer := sorted[..k] + [e] + sorted[k..];
    assert sorted == sorted[..k] + sorted[k..];
    if StrictWeakOrder(events) {
      InsertKeepsOrder(sorted, e, events, k);
    }
  }

  lemma InsertKeepsOrder(sorted: seq<GatheringEvent>, e: GatheringEvent, events: seq<GatheringEvent>, k: nat)
    requires StrictWeakOrder(events) && Ordered(sorted) && k <= |sorted|
    requires e in events && forall x :: x in sorted ==> x in events
    requires k > 0 ==> !Before(e, sorted[k - 1])
    requires forall j :: k <= j < |sorted| ==> Before(e, sorted[j])
    ensures Ordered(sorted[..k] + [e] + sorted[k..])
  {
    forall i | 0 <= i < k
      ensures !Before(e, sorted[i])
    {
      assert sorted[i] in events && sorted[k - 1] in events;
      assert i < k - 1 ==> !Before(sorted[k - 1], sorted[i]);
    }
    var longer := sorted[..k] + [e] + sorted[k..];
    forall i, j | 0 <= i < j < |longer|
      ensures !Before(longer[j], longer[i])
    {
      assert longer[i] == if i < k then sorted[i] else if i == k then e else sorted[i - 1];
      assert longer[j] == if j < k then sorted[j] else if j == k then e else sorted[j - 1];
    }
  }

  ghost predicate TimesAscend(events: seq<GatheringEvent>) {
    forall i, j :: 0 <= i < j < |events| ==> events[i].time <= events[j].time
  }

  /** What the detector promises: every event once, in the order of the sort, which is the order of time unless
      different times are within the tolerance. */
  ghost predicate Detected(items: seq<Item>, gatherers: seq<Gatherer>, events: seq<GatheringEvent>) {
    && ExactEvents(items, gatherers, events)
    && (StrictWeakOrder(events) ==> Ordered(events))
    && (Separated(events) ==> TimesAscend(events))
  }

  /** The gatherer moves, and its way passes the item within the sum of both widths. */
  ghost predicate PassesBy(g: Gatherer, item: Item) {
    g.startPos != g.endPos && Passes(g.startPos, g.endPos, item.position, g.width + item.width)
  }

  /** The time and the distance of an event are those of the moment in which the gatherer is abreast of the item. */
  predicate Witnessed(items: seq<Item>, gatherers: seq<Gatherer>, e: GatheringEvent) {
    && e.item < |items| && e.gatherer < |gatherers|
    && var g, at := gatherers[e.gatherer], items[e.item].position;
       var dx := at.x - (g.startPos.x + e.time * (g.endPos.x - g.startPos.x));
       var dy := at.y - (g.startPos.y + e.time * (g.endPos.y - g.startPos.y));
       && g.startPos != g.endPos
       && PassesAt(g.startPos, g.endPos, at, g.width + items[e.item].width, e.time)
       && e.sqDistance == dx * dx + dy * dy
  }

  lemma EventIsWitnessed(items: seq<Item>, gatherers: seq<Gatherer>, e: GatheringEvent)
    ensures IsEvent(items, gatherers, e) <==> Witnessed(items, gatherers, e)
  {
    hide TryCollectPoint;
    if e.item < |items| && e.gatherer < |gatherers| && gatherers[e.gatherer].startPos != gatherers[e.gatherer].endPos {
      var g, item := gatherers[e.gatherer], items[e.item];
      CollectedAt(g.startPos, g.endPos, item.position, g.width + item.width, e.time);
      DistanceAttained(g.startPos, g.endPos, item.position);
    }
  }

  /** A pair is in the list exactly if the gatherer passes by the item. */
  lemma DetectedPairs(items: seq<Item>, gatherers: seq<Gatherer>, events: seq<GatheringEvent>)
    requires ExactEvents(items, gatherers, events)
    ensures forall e :: e in events <==> Witnessed(items, gatherers, e)
    ensures forall i, g :: 0 <= i < |items| && 0 <= g < |gatherers| ==>
              ((exists e :: e in events && e.item == i && e.gatherer == g) <==> PassesBy(gatherers[g], items[i]))
  {
    hide IsEvent, PassesAt;
    forall e
      ensures e in events <==> Witnessed(items, gatherers, e)
    {
      assert e in events <==> multiset(events)[e] > 0;
      EventIsWitnessed(items, gatherers, e);
    }
    forall i, g | 0 <= i < |items| && 0 <= g < |gatherers| && PassesBy(gatherers[g], items[i])
      ensures exists e :: e in events && e.item == i && e.gatherer == g
    {
      var from, to, at := gatherers[g].startPos, gatherers[g].endPos, items[i].position;
      var t :| PassesAt(from, to, at, gatherers[g].width + items[i].width, t);
      var dx, dy := at.x - (from.x + t * (to.x - from.x)), at.y - (from.y + t * (to.y - from.y));
      assert Witnessed(items, gatherers, GatheringEvent(i, g, dx * dx + dy * dy, t));
    }
  }

  /** The two nested loops: every gatherer that moves, and every item. */
  method CollectEvents(items: seq<Item>, gatherers: seq<Gatherer>) returns (events: seq<GatheringEvent>)
    ensures ExactEvents(items, gatherers, events)
  {
    events := [];
    for g := 0 to |gatherers|
      invariant forall e :: multiset(events)[e] == if IsEvent(items, gatherers, e) && e.gatherer < g then 1 else 0
    {
      var gatherer := gatherers[g];
      if gatherer.startPos != gatherer.endPos {
        for i := 0 to |items|
          invariant forall e ::
                      multiset(events)[e] ==
                      var handled := e.gatherer < g || (e.gatherer == g && e.item < i);
                      if IsEvent(items, gatherers, e) && handled then 1 else 0
        {
          var result := TryCollectPoint(gatherer.startPos, gatherer.endPos, items[i].position);
          if result.IsCollected(gatherer.width + items[i].width) {
            events := events + [GatheringEvent(i, g, result.sqDistance, result.projRatio)];
          }
        }
      }
    }
  }

  /** The events in the order of the sort. A pair has an event exactly if the gatherer passes by the item. */
  method FindGatherEvents(items: seq<Item>, gatherers: seq<Gatherer>) returns (events: seq<GatheringEvent>)
    ensures Detected(items, gatherers, events)
    ensures StrictWeakOrder(events) ==>
              forall i, j :: 0 <= i < j < |events| ==> events[i].time <= events[j].time + 0.00001
    ensures forall e :: e in events ==> Witnessed(items, gatherers, e)
    ensures forall i, g :: 0 <= i < |items| && 0 <= g < |gatherers| ==>
              ((exists e :: e in events && e.item == i && e.gatherer == g) <==> PassesBy(gatherers[g], items[i]))
  {
    hide ExactEvents, StrictWeakOrder, Ordered, Separated, Witnessed, PassesBy, TimesAscend;
    var found := CollectEvents(items, gatherers);
    events := SortByTime(found);
    SortingDetects(items, gatherers, found, events);
    DetectedPairs(items, gatherers, events);
  }

  lemma SortingDetects(items: seq<Item>, gatherers: seq<Gatherer>, found: seq<GatheringEvent>,
                       events: seq<GatheringEvent>)
    requires ExactEvents(items, gatherers, found) && multiset(events) == multiset(found)
    requires StrictWeakOrder(found) ==> Ordered(events)
    ensures Detected(items, gatherers, events)
    ensures StrictWeakOrder(events) ==>
              forall i, j :: 0 <= i < j < |events| ==> events[i].time <= events[j].time + 0.00001
  {
    hide IsEvent, StrictWeakOrder;
    SameElements(found, events);
    StrictWeakOrderIff(found);
    if StrictWeakOrder(events) {
      forall i, j | 0 <= i < j < |events|
        ensures events[i].time <= events[j].time + 0.00001
        ensures Separated(events) ==> events[i].time <= events[j].time
      {
        assert events[i] in events && events[j] in events;
        assert !Before(events[j], events[i]);
        assert Near(events[j], events[i]) || events[i].time < events[j].time;
      }
    }
  }

  lemma SameElements(x: seq<GatheringEvent>, y: seq<GatheringEvent>)
    requires multiset(x) == multiset(y)
    ensures forall e :: e in x <==> e in y
    ensures StrictWeakOrder(x) <==> StrictWeakOrder(y)
    ensures Separated(x) <==> Separated(y)
  {
    assert forall e :: e in x <==> e in multiset(x);
    assert forall e :: e in y <==> e in multiset(y);
  }

  /** The comparator is no strict weak order on these three events: it ties neighbours but not the ends. */
  lemma ComparatorIsNoOrderInGeneral()
    ensures var e := (t: real) => GatheringEvent(0, 0, 0.0, t);
            !StrictWeakOrder([e(0.0), e(0.000008), e(0.000016)])
  {
    var x, y := GatheringEvent(0, 0, 0.0, 0.0), GatheringEvent(0, 0, 0.0, 0.000008);
    var z := GatheringEvent(0, 0, 0.0, 0.000016);
    var events := [x, y, z];
    assert x == events[0] && y == events[1] && z == events[2];
    assert !Before(x, y) && !Before(y, z) && Before(x, z);
  }
}
