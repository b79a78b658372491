/** How one tick moves one dog: the four clamping loops over the roads of the dog's cell. */
module Movement {
  import opened Basics
  import opened Roads

  /** The branch of the tick taken for a velocity, tried in this order. */
  datatype Heading = Right | Left | Down | Up

  function HeadingOf(v: Coords): Option<Heading> {
    if v.x - EPSILON > 0.0 then Some(Right)
    else if v.x + EPSILON < 0.0 then Some(Left)
    else if v.y - EPSILON > 0.0 then Some(Down)
    else if v.y + EPSILON < 0.0 then Some(Up)
    else None
  }

  /** The coordinate that grows when moving along a heading. */
  function Along(h: Heading, p: Coords): real {
    match h
    case Right => p.x
    case Left => -p.x
    case Down => p.y
    case Up => -p.y
  }

  function WithAlong(h: Heading, p: Coords, a: real): Coords {
    match h
    case Right => Coords(a, p.y)
    case Left => Coords(-a, p.y)
    case Down => Coords(p.x, a)
    case Up => Coords(p.x, -a)
  }

  /** How far along a heading a road lets a dog go: half the road width of 0.8 beyond its last cell. */
  function Edge(h: Heading, r: Road): real {
    match h
    case Right => r.MaxX() as real + 0.4
    case Left => -(r.MinX() as real - 0.4)
    case Down => r.MaxY() as real + 0.4
    case Up => -(r.MinY() as real - 0.4)
  }

  /** The free displacement of a tick. */
  function Way(h: Heading, v: Coords, ms: int): real {
    Along(h, v) * ms as real / 1000.0
  }

  /** The two variables of a clamping loop, the coordinate being taken along the heading. */
  datatype Advance = Advance(reach: real, stop: bool)

  /** The loop body. */
  function Visit(h: Heading, r: Road, target: real, a: Advance): Advance {
    if target > Edge(h, r) + EPSILON && target > a.reach + EPSILON then Advance(Max(a.reach, Edge(h, r)), true)
    else if target > a.reach + EPSILON then Advance(target, false)
    else a
  }

  function VisitAll(h: Heading, order: seq<Road>, target: real, a: Advance): Advance
    decreases |order|
  {
    if order == [] then a else VisitAll(h, order[1..], target, Visit(h, order[0], target, a))
  }

  /** The roads whose limits a dog at pos has to respect. */
  function Consulted(roads: seq<Road>, pos: Coords): set<Road> {
    set r | r in roads && Indexed(r, CellOf(pos))
  }

  /** A road that lets the whole displacement through. */
  predicate Allows(h: Heading, r: Road, target: real) {
    target <= Edge(h, r) + EPSILON
  }

  /** What a clamping loop means: it speaks of the set of roads and of no order. */
  ghost predicate ClosedForm(h: Heading, roads: set<Road>, from: real, target: real, a: Advance) {
    if roads == {} || target <= from + EPSILON then a == Advance(from, false)
    else if exists r :: r in roads && Allows(h, r, target) then a == Advance(target, false)
    else
      && a.stop
      && from <= a.reach
      && (forall r :: r in roads ==> Edge(h, r) <= a.reach)
      && (a.reach == from || exists r :: r in roads && a.reach == Edge(h, r))
  }

  lemma ClosedFormIsUnique(h: Heading, roads: set<Road>, from: real, target: real, a: Advance, b: Advance)
    requires ClosedForm(h, roads, from, target, a)
    requires ClosedForm(h, roads, from, target, b)
    ensures a == b
  {
  }

  /** One more iteration of a loop keeps the closed form. */
  lemma VisitKeepsClosedForm(h: Heading, seen: set<Road>, r: Road, from: real, target: real, a: Advance)
    requires ClosedForm(h, seen, from, target, a)
    ensures ClosedForm(h, seen + {r}, from, target, Visit(h, r, target, a))
  {
  }

  lemma {:induction false} VisitAllClosedForm(
    h: Heading, seen: set<Road>, order: seq<Road>, from: real, target: real, a: Advance)
    requires ClosedForm(h, seen, from, target, a)
    ensures ClosedForm(h, seen + Elements(order), from, target, VisitAll(h, order, target, a))
    decreases |order|
  {
    if order == [] {
      assert seen + Elements(order) == seen;
    } else {
      VisitKeepsClosedForm(h, seen, order[0], from, target, a);
      VisitAllClosedForm(h, seen + {order[0]}, order[1..], from, target, Visit(h, order[0], target, a));
      assert order == [order[0]] + order[1..];
      assert seen + {order[0]} + Elements(order[1..]) == seen + Elements(order);
    }
  }

  /** The result of a clamping loop does not depend on the order, nor on the multiplicity, of the road pointers. */
  lemma OrderIsIrrelevant(h: Heading, order: seq<Road>, other: seq<Road>, from: real, target: real)
    requires forall r :: r in order <==> r in other
    ensures VisitAll(h, order, target, Advance(from, false)) == VisitAll(h, other, target, Advance(from, false))
    ensures ClosedForm(h, Elements(order), from, target, VisitAll(h, order, target, Advance(from, false)))
  {
    var all := Elements(order);
    assert all == Elements(other);
    VisitAllClosedForm(h, {}, order, from, target, Advance(from, false));
    VisitAllClosedForm(h, {}, other, from, target, Advance(from, false));
    assert {} + all == all;
    ClosedFormIsUnique(h, all, from, target,
                       VisitAll(h, order, target, Advance(from, false)),
                       VisitAll(h, other, target, Advance(from, false)));
  }

  datatype Moved = Moved(pos: Coords, stop: bool)

  function MoveBy(h: Heading, roads: seq<Road>, pos: Coords, way: real): Moved {
    var a := VisitAll(h, RoadsAt(roads, CellOf(pos)), Along(h, pos) + way, Advance(Along(h, pos), false));
    Moved(WithAlong(h, pos, a.reach), a.stop)
  }

  /** The movement part of a tick for a dog at pos with velocity v. */
  function Move(roads: seq<Road>, pos: Coords, v: Coords, ms: int): Moved {
    match HeadingOf(v)
    case None => Moved(pos, false)
    case Some(h) => MoveBy(h, roads, pos, Way(h, v, ms))
  }

  ghost predicate MoveClosedForm(h: Heading, roads: seq<Road>, pos: Coords, target: real, m: Moved) {
    && ClosedForm(h, Consulted(roads, pos), Along(h, pos), target, Advance(Along(h, m.pos), m.stop))
    && m.pos == WithAlong(h, pos, Along(h, m.pos))
  }

  lemma MoveMeetsClosedForm(h: Heading, roads: seq<Road>, pos: Coords, way: real)
    ensures MoveClosedForm(h, roads, pos, Along(h, pos) + way, MoveBy(h, roads, pos, way))
  {
    var at := RoadsAt(roads, CellOf(pos));
    OrderIsIrrelevant(h, at, at, Along(h, pos), Along(h, pos) + way);
    assert Elements(at) == Consulted(roads, pos);
  }

  /** Going along an indexed road, no further than it allows, ends in a cell of that road or in the cell left. */
  lemma ReachStaysIndexed(h: Heading, r: Road, pos: Coords, reach: real)
    requires Indexed(r, CellOf(pos))
    requires Along(h, pos) <= reach && Allows(h, r, reach)
    ensures var c := CellOf(WithAlong(h, pos, reach));
            Indexed(r, c) && (OnRoad(r, c) || c == CellOf(pos))
  {
    var end := WithAlong(h, pos, reach);
    RoundNear(pos.x);
    RoundNear(pos.y);
    RoundNear(end.x);
    RoundNear(end.y);
    match h {
      case Right => RoundMonotone(pos.x, end.x);
      case Left => RoundMonotone(end.x, pos.x);
      case Down => RoundMonotone(pos.y, end.y);
      case Up => RoundMonotone(end.y, pos.y);
    }
  }

  /** A loop that advances is let through by one of the roads. */
  lemma LimitingRoad(h: Heading, roads: set<Road>, from: real, target: real, a: Advance) returns (r: Road)
    requires ClosedForm(h, roads, from, target, a)
    requires from < a.reach
    ensures r in roads && Allows(h, r, a.reach)
  {
    r :| r in roads && Allows(h, r, a.reach);
  }

  /** Whatever a move does, a dog whose rounded cell is a point of a road ends in such a cell. */
  lemma MoveStaysOnRoads(roads: seq<Road>, pos: Coords, v: Coords, ms: int)
    requires OnSomeRoad(roads, CellOf(pos))
    ensures OnSomeRoad(roads, CellOf(Move(roads, pos, v, ms).pos))
  {
    match HeadingOf(v)
    case None =>
    case Some(h) =>
      var m := Move(roads, pos, v, ms);
      MoveMeetsClosedForm(h, roads, pos, Way(h, v, ms));
      if Along(h, m.pos) == Along(h, pos) {
        assert m.pos == pos;
      } else {
        var r := LimitingRoad(h, Consulted(roads, pos), Along(h, pos), Along(h, pos) + Way(h, v, ms),
                              Advance(Along(h, m.pos), m.stop));
        ReachStaysIndexed(h, r, pos, Along(h, m.pos));
      }
  }

  /** A move never overshoots the free displacement, and never goes backwards. */
  lemma MoveIsBounded(h: Heading, roads: seq<Road>, pos: Coords, way: real)
    ensures Along(h, pos) <= Along(h, MoveBy(h, roads, pos, way).pos) <= Along(h, pos) + Max(0.0, way)
  {
    MoveMeetsClosedForm(h, roads, pos, way);
  }

  /** The same for the loops alone: ahead is what is consulted where the first part ends. */
  lemma SplitClosedForm(h: Heading, roads: set<Road>, ahead: set<Road>, from: real, near: real, far: real,
                        half: Advance, rest: Advance, whole: Advance)
    requires from + EPSILON < near && near + EPSILON < far
    requires ClosedForm(h, roads, from, near, half)
    requires ClosedForm(h, roads, from, far, whole)
    requires !half.stop ==> ClosedForm(h, ahead, half.reach, far, rest)
    requires forall r :: r in roads && Allows(h, r, half.reach) ==> r in ahead
    ensures if half.stop then whole == half else whole.reach <= rest.reach
  {
    if !half.stop && half.reach < whole.reach {
      var r := LimitingRoad(h, roads, from, far, whole);
      assert Allows(h, r, half.reach);
    }
  }

  lemma SplitMoveClosedForm(h: Heading, roads: seq<Road>, pos: Coords, first: real, second: real,
                            half: Moved, rest: Moved, whole: Moved)
    requires first > EPSILON && second > EPSILON
    requires MoveClosedForm(h, roads, pos, Along(h, pos) + first, half)
    requires MoveClosedForm(h, roads, pos, Along(h, pos) + (first + second), whole)
    requires MoveClosedForm(h, roads, half.pos, Along(h, half.pos) + second, rest)
    ensures if half.stop then whole == half else Along(h, whole.pos) <= Along(h, rest.pos)
  {
    hide Indexed, CellOf, Edge;
    if Consulted(roads, pos) != {} {
      forall r | r in Consulted(roads, pos) && Allows(h, r, Along(h, half.pos))
        ensures r in Consulted(roads, half.pos)
      {
        ReachStaysIndexed(h, r, pos, Along(h, half.pos));
      }
      SplitClosedForm(h, Consulted(roads, pos), Consulted(roads, half.pos), Along(h, pos),
                      Along(h, pos) + first, Along(h, pos) + (first + second),
                      Advance(Along(h, half.pos), half.stop), Advance(Along(h, rest.pos), rest.stop),
                      Advance(Along(h, whole.pos), whole.stop));
    }
  }

  /** Doing part of a displacement first never makes a dog fall short: the road that limits the whole
      displacement is still indexed in the intermediate cell. */
  lemma SplitMoveGoesAsFar(h: Heading, roads: seq<Road>, pos: Coords, first: real, second: real,
                           half: Moved, rest: Moved, whole: Moved)
    requires first > EPSILON && second > EPSILON
    requires half == MoveBy(h, roads, pos, first)
    requires rest == MoveBy(h, roads, half.pos, second)
    requires whole == MoveBy(h, roads, pos, first + second)
    ensures if half.stop then whole == half else Along(h, whole.pos) <= Along(h, rest.pos)
  {
    hide MoveBy, MoveClosedForm, Along;
    MoveMeetsClosedForm(h, roads, pos, first);
    MoveMeetsClosedForm(h, roads, half.pos, second);
    MoveMeetsClosedForm(h, roads, pos, first + second);
    SplitMoveClosedForm(h, roads, pos, first, second, half, rest, whole);
  }

  lemma WayAdds(h: Heading, v: Coords, first: int, second: int)
    ensures Way(h, v, first + second) == Way(h, v, first) + Way(h, v, second)
  {
  }

  /** One pass of the two loops of the tick that let a coordinate grow (x for Right, y for Down). */
  method GrowPast(h: Heading, road: Road, expected: real, was: real, stopped: bool)
    returns (current: real, stop: bool)
    requires Growing(h)
    ensures Advance(current, stop) == Visit(h, road, expected, Advance(was, stopped))
  {
    current, stop := was, stopped;
    var furthest := if h == Right then MaxInt(road.start.x, road.End().x) else MaxInt(road.start.y, road.End().y);
    var possibleMax := furthest as real + 0.8 / 2.0;
    if expected > possibleMax + EPSILON && expected > current + EPSILON {
      current := Max(current, possibleMax);
      stop := true;
    } else if expected > current + EPSILON {
      current := expected;
      stop := false;
    }
  }

  /** One pass of the two loops that let a coordinate shrink (x for Left, y for Up). */
  method ShrinkPast(h: Heading, road: Road, expected: real, was: real, stopped: bool)
    returns (current: real, stop: bool)
    requires !Growing(h)
    ensures Advance(-current, stop) == Visit(h, road, -expected, Advance(-was, stopped))
  {
    current, stop := was, stopped;
    var furthest := if h == Left then MinInt(road.start.x, road.End().x) else MinInt(road.start.y, road.End().y);
    var possibleMin := furthest as real - 0.8 / 2.0;
    if expected < possibleMin - EPSILON && expected < current - EPSILON {
      current := Min(current, possibleMin);
      stop := true;
    } else if expected < current - EPSILON {
      current := expected;
      stop := false;
    }
  }

  predicate Growing(h: Heading) { h == Right || h == Down }

  /** A coordinate, turned so that it grows along the heading. */
  function Turned(h: Heading, x: real): real { if Growing(h) then x else -x }

  /** A whole loop. The set of road pointers is visited in whatever order the pointers have. */
  method Clamp(h: Heading, roads: multiset<Road>, position: real, expected: real)
    returns (current: real, stop: bool)
    ensures ClosedForm(h, (set r | r in roads), Turned(h, position), Turned(h, expected),
                       Advance(Turned(h, current), stop))
  {
    current, stop := position, false;
    var rest := roads;
    ghost var seen: set<Road> := {};
    ghost var from, target := Turned(h, position), Turned(h, expected);
    assert ClosedForm(h, seen, from, target, Advance(Turned(h, current), stop));
    hide ClosedForm, Visit;
    while rest != multiset{}
      invariant forall r :: r in roads <==> r in seen || r in rest
      invariant ClosedForm(h, seen, from, target, Advance(Turned(h, current), stop))
      decreases |rest|
    {
      var road :| road in rest;
      VisitKeepsClosedForm(h, seen, road, from, target, Advance(Turned(h, current), stop));
      seen := seen + {road};
      rest := rest - multiset{road};
      if Growing(h) {
        current, stop := GrowPast(h, road, expected, current, stop);
      } else {
        current, stop := ShrinkPast(h, road, expected, current, stop);
      }
    }
    assert seen == (set r | r in roads);
  }

  /** A clamping loop over the pointers of the dog's cell does what Move says. */
  lemma ClampedIsMove(h: Heading, roads: seq<Road>, at: multiset<Road>, pos: Coords, v: Coords, ms: int,
                      expected: real, current: real, stop: bool)
    requires HeadingOf(v) == Some(h)
    requires forall r :: r in at <==> r in roads && Indexed(r, CellOf(pos))
    requires Turned(h, expected) == Along(h, pos) + Way(h, v, ms)
    requires ClosedForm(h, (set r | r in at), Along(h, pos), Turned(h, expected), Advance(Turned(h, current), stop))
    ensures Moved(WithAlong(h, pos, Turned(h, current)), stop) == Move(roads, pos, v, ms)
  {
    var way := Way(h, v, ms);
    var m := MoveBy(h, roads, pos, way);
    MoveMeetsClosedForm(h, roads, pos, way);
    assert (set r | r in at) == Consulted(roads, pos);
    ClosedFormIsUnique(h, Consulted(roads, pos), Along(h, pos), Along(h, pos) + way,
                       Advance(Turned(h, current), stop), Advance(Along(h, m.pos), m.stop));
  }

  /** The free displacement, as the tick computes it for the coordinate that changes. */
  lemma FreeWay(h: Heading, x: real, v: real, ms: int)
    ensures Turned(h, x + v * ms as real / 1000.0) == Turned(h, x) + Turned(h, v) * ms as real / 1000.0
  {
  }
}
