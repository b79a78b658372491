/** When a dog stays within the nominal width of the roads, and when it does not. */
module Strips {
  import opened Basics
  import opened Roads
  import opened Movement

  /** Half the nominal width of 0.8, and the tolerance of the clamping loops. */
  const HALF_WIDTH: real := 0.4 + EPSILON

  /** The strip of the given half width around the axis of a road. */
  predicate InStrip(r: Road, p: Coords, half: real) {
    && r.MinX() as real - half <= p.x <= r.MaxX() as real + half
    && r.MinY() as real - half <= p.y <= r.MaxY() as real + half
  }

  ghost predicate OnTarmac(roads: seq<Road>, p: Coords) {
    exists r :: r in roads && InStrip(r, p, HALF_WIDTH)
  }

  /** The strips that follow from the rounded cell are a whole cell wide. */
  lemma OnRoadIsInStrip(roads: seq<Road>, p: Coords)
    requires OnSomeRoad(roads, CellOf(p))
    ensures exists r :: r in roads && InStrip(r, p, 0.5)
  {
    var r :| r in roads && OnRoad(r, CellOf(p));
    RoundNear(p.x);
    RoundNear(p.y);
    assert InStrip(r, p, 0.5);
  }

  // ---------------------------------------------------------------- roads and cells, seen along a heading

  function Sideways(h: Heading): bool { h == Right || h == Left }

  /** The coordinate that a heading leaves alone. */
  function Side(h: Heading, p: Coords): real { if Sideways(h) then p.y else p.x }

  function CellAlong(h: Heading, c: Cell): int {
    match h
    case Right => c.x
    case Left => -c.x
    case Down => c.y
    case Up => -c.y
  }

  function CellSide(h: Heading, c: Cell): int { if Sideways(h) then c.y else c.x }

  /** The first and the last integer point of a road along a heading. */
  function Near(h: Heading, r: Road): int {
    match h
    case Right => r.MinX()
    case Left => -r.MaxX()
    case Down => r.MinY()
    case Up => -r.MaxY()
  }

  function Far(h: Heading, r: Road): int {
    match h
    case Right => r.MaxX()
    case Left => -r.MinX()
    case Down => r.MaxY()
    case Up => -r.MinY()
  }

  function Low(h: Heading, r: Road): int { if Sideways(h) then r.MinY() else r.MinX() }

  function High(h: Heading, r: Road): int { if Sideways(h) then r.MaxY() else r.MaxX() }

  /** A road that leads across a heading, over more than one cell. */
  predicate RunsAcross(h: Heading, r: Road) { Low(h, r) < High(h, r) }

  /** A road that is indexed at a cell only because of the overshoot, and lies ahead of it. */
  predicate AheadOnly(h: Heading, r: Road, c: Cell) {
    PastEnd(r, c) && Near(h, r) == CellAlong(h, c) + 1
  }

  lemma RoadAlong(h: Heading, r: Road)
    ensures Near(h, r) <= Far(h, r) && Low(h, r) <= High(h, r)
    ensures Near(h, r) == Far(h, r) || Low(h, r) == High(h, r)
    ensures Edge(h, r) == Far(h, r) as real + 0.4
  {
  }

  lemma StripAlong(h: Heading, r: Road, p: Coords, half: real)
    ensures InStrip(r, p, half) <==>
            && Near(h, r) as real - half <= Along(h, p) <= Far(h, r) as real + half
            && Low(h, r) as real - half <= Side(h, p) <= High(h, r) as real + half
  {
  }

  lemma IndexAlong(h: Heading, r: Road, c: Cell)
    ensures OnRoad(r, c) <==> Near(h, r) <= CellAlong(h, c) <= Far(h, r) && Low(h, r) <= CellSide(h, c) <= High(h, r)
    ensures PastEnd(r, c) ==>
              || Near(h, r) == Far(h, r) == CellAlong(h, c)
              || (Low(h, r) == High(h, r) == CellSide(h, c) && (Far(h, r) == CellAlong(h, c) - 1 || AheadOnly(h, r, c)))
  {
  }

  lemma CellIsNear(h: Heading, p: Coords)
    ensures CellAlong(h, CellOf(p)) as real - 0.5 <= Along(h, p) <= CellAlong(h, CellOf(p)) as real + 0.5
    ensures CellSide(h, CellOf(p)) as real - 0.5 <= Side(h, p) <= CellSide(h, CellOf(p)) as real + 0.5
  {
    RoundNear(p.x);
    RoundNear(p.y);
  }

  lemma AlongOf(h: Heading, p: Coords, a: real)
    ensures Along(h, WithAlong(h, p, a)) == a && Side(h, WithAlong(h, p, a)) == Side(h, p)
    ensures WithAlong(h, p, Along(h, p)) == p
  {
  }

  // ---------------------------------------------------------------- where a move lands

  /** How far the roads of a cell let a dog go. */
  function Furthest(h: Heading, roads: seq<Road>): real
    requires roads != []
  {
    if |roads| == 1 then Edge(h, roads[0]) else Max(Edge(h, roads[0]), Furthest(h, roads[1..]))
  }

  /** The coordinate reached by a move, from the roads of the cell and the free displacement. */
  function Landing(h: Heading, roads: seq<Road>, from: real, way: real): real {
    if roads == [] || way <= EPSILON then from
    else if from + way <= Furthest(h, roads) + EPSILON then from + way
    else Max(from, Furthest(h, roads))
  }

  lemma {:induction false} FurthestIsMax(h: Heading, roads: seq<Road>)
    requires roads != []
    ensures forall r :: r in roads ==> Edge(h, r) <= Furthest(h, roads)
    ensures exists r :: r in roads && Edge(h, r) == Furthest(h, roads)
  {
    assert roads[0] in roads;
    if |roads| > 1 {
      FurthestIsMax(h, roads[1..]);
      var r :| r in roads[1..] && Edge(h, r) == Furthest(h, roads[1..]);
      assert r in roads;
    }
  }

  lemma MoveLands(h: Heading, roads: seq<Road>, pos: Coords, way: real)
    ensures MoveBy(h, roads, pos, way).pos ==
            WithAlong(h, pos, Landing(h, RoadsAt(roads, CellOf(pos)), Along(h, pos), way))
  {
    var at := RoadsAt(roads, CellOf(pos));
    var m := MoveBy(h, roads, pos, way);
    MoveMeetsClosedForm(h, roads, pos, way);
    if at == [] {
      assert Consulted(roads, pos) == {};
    } else {
      FurthestIsMax(h, at);
      assert at[0] in Consulted(roads, pos);
      assert forall r :: r in at <==> r in Consulted(roads, pos);
      assert (exists r :: r in Consulted(roads, pos) && Allows(h, r, Along(h, pos) + way)) <==>
             Along(h, pos) + way <= Furthest(h, at) + EPSILON;
    }
  }

  /** A landing that is an advance is let through by a road of the cell. */
  lemma LandingIsAllowed(h: Heading, roads: seq<Road>, from: real, way: real) returns (r: Road)
    requires from < Landing(h, roads, from, way)
    ensures r in roads && Allows(h, r, Landing(h, roads, from, way))
  {
    FurthestIsMax(h, roads);
    r :| r in roads && Edge(h, r) == Furthest(h, roads);
  }

  // ---------------------------------------------------------------- staying within the strips

  /** The dog is within the nominal width of the line of cells along the heading. */
  predicate OnGridLine(h: Heading, p: Coords) {
    Abs(Side(h, p) - CellSide(h, CellOf(p)) as real) <= HALF_WIDTH
  }

  /** The gap between the cell and the next one, when a road reaches the cell by its overshoot only, and no road of
      the cell itself leads on. */
  ghost predicate InGap(h: Heading, roads: seq<Road>, c: Cell, a: real) {
    && CellAlong(h, c) as real + HALF_WIDTH < a < (CellAlong(h, c) + 1) as real - HALF_WIDTH
    && (exists r :: r in roads && AheadOnly(h, r, c))
    && forall r :: r in roads && OnRoad(r, c) ==> Far(h, r) == CellAlong(h, c)
  }

  /** A road across the heading whose strip holds the point. */
  ghost predicate OnCrossing(h: Heading, roads: seq<Road>, p: Coords) {
    exists r :: r in roads && RunsAcross(h, r) && InStrip(r, p, HALF_WIDTH)
  }

  /** What decides, before the move, whether it ends in a strip. */
  ghost predicate KeepsToStrips(h: Heading, roads: seq<Road>, pos: Coords, way: real) {
    var a := Landing(h, RoadsAt(roads, CellOf(pos)), Along(h, pos), way);
    if OnGridLine(h, pos) then !InGap(h, roads, CellOf(pos), a) else OnCrossing(h, roads, WithAlong(h, pos, a))
  }

  /** A strip that holds a point of the grid line, between the own cell and another along the heading, belongs to a
      road of the own cell. */
  lemma StripOfNeighbour(h: Heading, r: Road, pos: Coords, a: real)
    requires InStrip(r, WithAlong(h, pos, a), HALF_WIDTH) && OnGridLine(h, pos)
    requires var k := CellAlong(h, CellOf(pos)) as real; k - 0.5 <= a < k + 1.0 - HALF_WIDTH
    ensures CellAlong(h, CellOf(pos)) as real + HALF_WIDTH < a ==>
              OnRoad(r, CellOf(pos)) && Far(h, r) > CellAlong(h, CellOf(pos))
    ensures a < CellAlong(h, CellOf(pos)) as real - HALF_WIDTH ==>
              OnRoad(r, CellOf(pos)) && Near(h, r) < CellAlong(h, CellOf(pos))
  {
    AlongOf(h, pos, a);
    StripAlong(h, r, WithAlong(h, pos, a), HALF_WIDTH);
    IndexAlong(h, r, CellOf(pos));
  }

  /** A strip that holds a point of the grid line no further than the own cell, or the near part of a road of it. */
  lemma RoadOfCellHolds(h: Heading, roads: seq<Road>, r: Road, pos: Coords, a: real)
    requires r in roads && OnRoad(r, CellOf(pos)) && OnGridLine(h, pos) && OnTarmac(roads, pos)
    requires Along(h, pos) <= a <= Far(h, r) as real + HALF_WIDTH
    ensures OnTarmac(roads, WithAlong(h, pos, a))
  {
    var c := CellOf(pos);
    AlongOf(h, pos, a);
    IndexAlong(h, r, c);
    CellIsNear(h, pos);
    if CellAlong(h, c) as real - HALF_WIDTH <= a {
      StripAlong(h, r, WithAlong(h, pos, a), HALF_WIDTH);
    } else {
      var q :| q in roads && InStrip(q, pos, HALF_WIDTH);
      AlongOf(h, pos, Along(h, pos));
      StripOfNeighbour(h, q, pos, Along(h, pos));
      IndexAlong(h, q, c);
      StripAlong(h, q, pos, HALF_WIDTH);
      StripAlong(h, q, WithAlong(h, pos, a), HALF_WIDTH);
    }
  }

  /** On the grid line, a landing that is an advance and not in the gap is in a strip. */
  lemma LandingHolds(h: Heading, roads: seq<Road>, pos: Coords, a: real, r: Road)
    requires OnSomeRoad(roads, CellOf(pos)) && OnTarmac(roads, pos) && OnGridLine(h, pos)
    requires r in roads && Indexed(r, CellOf(pos)) && Allows(h, r, a) && Along(h, pos) < a
    requires !InGap(h, roads, CellOf(pos), a)
    ensures OnTarmac(roads, WithAlong(h, pos, a))
  {
    var c := CellOf(pos);
    var own :| own in roads && OnRoad(own, c);
    CellIsNear(h, pos);
    RoadAlong(h, r);
    IndexAlong(h, r, c);
    IndexAlong(h, own, c);
    if OnRoad(r, c) {
      RoadOfCellHolds(h, roads, r, pos, a);
    } else if a <= Far(h, own) as real + HALF_WIDTH {
      RoadOfCellHolds(h, roads, own, pos, a);
    } else if a < (CellAlong(h, c) + 1) as real - HALF_WIDTH {
      var q :| q in roads && OnRoad(q, c) && Far(h, q) != CellAlong(h, c);
      IndexAlong(h, q, c);
      RoadOfCellHolds(h, roads, q, pos, a);
    } else {
      AlongOf(h, pos, a);
      StripAlong(h, r, WithAlong(h, pos, a), HALF_WIDTH);
    }
  }

  lemma GapHoldsNoStrip(h: Heading, roads: seq<Road>, pos: Coords, a: real)
    requires OnGridLine(h, pos) && InGap(h, roads, CellOf(pos), a)
    ensures !OnTarmac(roads, WithAlong(h, pos, a))
  {
    forall r | r in roads
      ensures !InStrip(r, WithAlong(h, pos, a), HALF_WIDTH)
    {
      if InStrip(r, WithAlong(h, pos, a), HALF_WIDTH) {
        StripOfNeighbour(h, r, pos, a);
      }
    }
  }

  lemma BesideTheLine(s: real, x: int, low: int)
    requires x as real - 0.5 <= s <= x as real + 0.5 && low as real - HALF_WIDTH <= s <= low as real + HALF_WIDTH
    ensures low == x && Abs(s - x as real) <= HALF_WIDTH
  {
  }

  /** Off the grid line, only a road across the heading has a strip that holds the dog. */
  lemma OffLineStripIsCrossing(h: Heading, r: Road, pos: Coords, a: real)
    requires !OnGridLine(h, pos) && InStrip(r, WithAlong(h, pos, a), HALF_WIDTH)
    ensures RunsAcross(h, r)
  {
    hide InStrip, WithAlong, CellOf, Side, CellSide, Low, High, Along, CellAlong, Near, Far;
    RoadAlong(h, r);
    AlongOf(h, pos, a);
    CellIsNear(h, pos);
    StripAlong(h, r, WithAlong(h, pos, a), HALF_WIDTH);
    if Low(h, r) == High(h, r) {
      BesideTheLine(Side(h, pos), CellSide(h, CellOf(pos)), Low(h, r));
    }
  }

  /** For every move of a dog that is in a strip and whose rounded cell is on a road: it ends in a strip exactly under
      the condition, which looks at the roads, the position and the free displacement only. */
  lemma StripsAreKeptIff(h: Heading, roads: seq<Road>, pos: Coords, way: real)
    requires OnSomeRoad(roads, CellOf(pos)) && OnTarmac(roads, pos)
    ensures OnTarmac(roads, MoveBy(h, roads, pos, way).pos) <==> KeepsToStrips(h, roads, pos, way)
  {
    var at := RoadsAt(roads, CellOf(pos));
    var a := Landing(h, at, Along(h, pos), way);
    MoveLands(h, roads, pos, way);
    AlongOf(h, pos, a);
    if !OnGridLine(h, pos) {
      forall r | r in roads && InStrip(r, WithAlong(h, pos, a), HALF_WIDTH)
        ensures RunsAcross(h, r)
      {
        OffLineStripIsCrossing(h, r, pos, a);
      }
    } else if InGap(h, roads, CellOf(pos), a) {
      GapHoldsNoStrip(h, roads, pos, a);
    } else if Along(h, pos) < a {
      var r := LandingIsAllowed(h, at, Along(h, pos), way);
      LandingHolds(h, roads, pos, a, r);
    }
  }

  /** The converse of the overshoot: with no road of the cell ahead by its overshoot only, the grid line is safe. */
  lemma GridLineWithoutOvershootIsSafe(h: Heading, roads: seq<Road>, pos: Coords, way: real)
    requires OnSomeRoad(roads, CellOf(pos)) && OnTarmac(roads, pos) && OnGridLine(h, pos)
    requires forall r :: r in roads && Indexed(r, CellOf(pos)) ==> OnRoad(r, CellOf(pos))
    ensures OnTarmac(roads, MoveBy(h, roads, pos, way).pos)
  {
    forall r | r in roads && AheadOnly(h, r, CellOf(pos))
      ensures false
    {
      IndexAlong(h, r, CellOf(pos));
    }
    StripsAreKeptIff(h, roads, pos, way);
  }

  /** Off the grid line the dog is on a road across the heading, and safe for as long as it does not leave it. */
  lemma OffLineSafeAtOwnCrossing(h: Heading, roads: seq<Road>, pos: Coords, way: real)
    requires OnSomeRoad(roads, CellOf(pos)) && OnTarmac(roads, pos) && !OnGridLine(h, pos)
    requires Landing(h, RoadsAt(roads, CellOf(pos)), Along(h, pos), way) <=
             CellAlong(h, CellOf(pos)) as real + HALF_WIDTH
    ensures OnTarmac(roads, MoveBy(h, roads, pos, way).pos)
  {
    hide InStrip, WithAlong, CellOf, Side, CellSide, Low, High, Along, CellAlong, Near, Far, OnGridLine;
    var a := Landing(h, RoadsAt(roads, CellOf(pos)), Along(h, pos), way);
    var q :| q in roads && InStrip(q, pos, HALF_WIDTH);
    AlongOf(h, pos, Along(h, pos));
    OffLineStripIsCrossing(h, q, pos, Along(h, pos));
    RoadAlong(h, q);
    CellIsNear(h, pos);
    StripAlong(h, q, pos, HALF_WIDTH);
    BesideTheLine(Along(h, pos), CellAlong(h, CellOf(pos)), Near(h, q));
    MoveLands(h, roads, pos, way);
    AlongOf(h, pos, a);
    StripAlong(h, q, WithAlong(h, pos, a), HALF_WIDTH);
  }

  /** The same for the move of a tick, with any velocity. */
  lemma TickKeepsToStripsIff(roads: seq<Road>, pos: Coords, v: Coords, ms: int)
    requires OnSomeRoad(roads, CellOf(pos)) && OnTarmac(roads, pos)
    ensures OnTarmac(roads, Move(roads, pos, v, ms).pos) <==>
            (HeadingOf(v).Some? ==> KeepsToStrips(HeadingOf(v).value, roads, pos, Way(HeadingOf(v).value, v, ms)))
  {
    if HeadingOf(v).Some? {
      var h := HeadingOf(v).value;
      StripsAreKeptIff(h, roads, pos, Way(h, v, ms));
    }
  }
}
