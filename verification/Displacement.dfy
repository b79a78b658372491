/** Where a tick takes a running dog, in coordinates: one theorem for each of the four directions. */
module Displacement {
  import opened Basics
  import opened Roads
  import opened Movement
  import opened World
  import opened Runs

  /** The roads that are found in the cell at which the dog is, rounding each coordinate. */
  predicate Found(roads: seq<Road>, pos: Coords, r: Road) {
    r in roads && FoundAt(r, Round(pos.x), Round(pos.y))
  }

  /** A road is found at its integer points, and one cell past the end if it is given in increasing order. */
  predicate FoundAt(r: Road, x: int, y: int) {
    match r
    case Horizontal(s, ex) => y == s.y && (s.x <= x <= ex || ex <= x <= s.x || (s.x <= ex && x == ex + 1))
    case Vertical(s, ey) => x == s.x && (s.y <= y <= ey || ey <= y <= s.y || (s.y <= ey && y == ey + 1))
  }

  lemma FoundIsIndexed(r: Road, c: Cell)
    ensures Indexed(r, c) <==> FoundAt(r, c.x, c.y)
  {
  }

  /** The ends of a road. */
  function East(r: Road): int { if r.Horizontal? && r.start.x < r.endX then r.endX else r.start.x }

  function West(r: Road): int { if r.Horizontal? && r.endX < r.start.x then r.endX else r.start.x }

  function South(r: Road): int { if r.Vertical? && r.start.y < r.endY then r.endY else r.start.y }

  function North(r: Road): int { if r.Vertical? && r.endY < r.start.y then r.endY else r.start.y }

  /** The way covered in some milliseconds, in cells. */
  function Covered(speed: real, ms: int): real { speed * ms as real / 1000.0 }

  /** A run towards growing numbers, past the limits of some roads: it is free if one road lets it through, ends at
      the greatest limit otherwise, or at once if that is already passed. */
  ghost predicate RunsUp(found: set<Road>, limit: Road -> real, from: real, way: real, to: real, stop: bool) {
    if found == {} || way <= EPSILON then to == from && !stop
    else if exists r :: r in found && from + way <= limit(r) + EPSILON then to == from + way && !stop
    else
      && stop && from <= to && (forall r :: r in found ==> limit(r) <= to)
      && (to == from || exists r :: r in found && to == limit(r))
  }

  /** A run towards shrinking numbers. */
  ghost predicate RunsDown(found: set<Road>, limit: Road -> real, from: real, way: real, to: real, stop: bool) {
    if found == {} || way <= EPSILON then to == from && !stop
    else if exists r :: r in found && limit(r) - EPSILON <= from - way then to == from - way && !stop
    else
      && stop && to <= from && (forall r :: r in found ==> to <= limit(r))
      && (to == from || exists r :: r in found && to == limit(r))
  }

  function FoundRoads(roads: seq<Road>, pos: Coords): set<Road> {
    set r | r in roads && Found(roads, pos, r)
  }

  lemma ConsultedAreFound(roads: seq<Road>, pos: Coords)
    ensures Consulted(roads, pos) == FoundRoads(roads, pos)
  {
    forall r
      ensures r in Consulted(roads, pos) <==> Found(roads, pos, r)
    {
      FoundIsIndexed(r, CellOf(pos));
    }
  }

  /** Half the width of 0.8 beyond the last cell. */
  function EastLimit(r: Road): real { East(r) as real + 0.4 }

  function WestLimit(r: Road): real { West(r) as real - 0.4 }

  function SouthLimit(r: Road): real { South(r) as real + 0.4 }

  function NorthLimit(r: Road): real { North(r) as real - 0.4 }

  lemma EdgesAreLimits(r: Road)
    ensures Edge(Right, r) == EastLimit(r) && Edge(Left, r) == -WestLimit(r)
    ensures Edge(Down, r) == SouthLimit(r) && Edge(Up, r) == -NorthLimit(r)
  {
  }

  /** The closed form of the loops in terms of limits. */
  lemma ClosedFormIsRunUp(h: Heading, found: set<Road>, limit: Road -> real, from: real, way: real, a: Advance)
    requires ClosedForm(h, found, from, from + way, a) && forall r :: Edge(h, r) == limit(r)
    ensures RunsUp(found, limit, from, way, a.reach, a.stop)
  {
    hide Edge;
    assert forall r :: Allows(h, r, from + way) <==> from + way <= limit(r) + EPSILON;
  }

  lemma ClosedFormIsRunDown(h: Heading, found: set<Road>, limit: Road -> real, from: real, way: real, a: Advance)
    requires ClosedForm(h, found, -from, -from + way, a) && forall r :: Edge(h, r) == -limit(r)
    ensures RunsDown(found, limit, from, way, -a.reach, a.stop)
  {
    hide Edge;
    assert forall r :: Allows(h, r, -from + way) <==> limit(r) - EPSILON <= from - way;
  }

  lemma MoveRight(roads: seq<Road>, pos: Coords, v: Coords, ms: int)
    requires v.y == 0.0 && v.x > EPSILON
    ensures var m := Move(roads, pos, v, ms);
            m.pos.y == pos.y &&
            RunsUp(FoundRoads(roads, pos), EastLimit, pos.x, Covered(v.x, ms), m.pos.x, m.stop)
  {
    hide Edge, Found, FoundRoads, RunsUp, RunsDown, ClosedForm, MoveBy;
    var m := Move(roads, pos, v, ms);
    assert HeadingOf(v) == Some(Right) && Way(Right, v, ms) == Covered(v.x, ms);
    MoveMeetsClosedForm(Right, roads, pos, Covered(v.x, ms));
    ConsultedAreFound(roads, pos);
    forall r: Road
      ensures Edge(Right, r) == EastLimit(r)
    {
      EdgesAreLimits(r);
    }
    ClosedFormIsRunUp(Right, FoundRoads(roads, pos), EastLimit, pos.x, Covered(v.x, ms),
                      Advance(m.pos.x, m.stop));
  }

  lemma MoveLeft(roads: seq<Road>, pos: Coords, v: Coords, ms: int)
    requires v.y == 0.0 && v.x < -EPSILON
    ensures var m := Move(roads, pos, v, ms);
            m.pos.y == pos.y &&
            RunsDown(FoundRoads(roads, pos), WestLimit, pos.x, Covered(-v.x, ms), m.pos.x, m.stop)
  {
    hide Edge, Found, FoundRoads, RunsUp, RunsDown, ClosedForm, MoveBy;
    var m := Move(roads, pos, v, ms);
    assert HeadingOf(v) == Some(Left) && Way(Left, v, ms) == Covered(-v.x, ms);
    MoveMeetsClosedForm(Left, roads, pos, Covered(-v.x, ms));
    ConsultedAreFound(roads, pos);
    forall r: Road
      ensures Edge(Left, r) == -WestLimit(r)
    {
      EdgesAreLimits(r);
    }
    ClosedFormIsRunDown(Left, FoundRoads(roads, pos), WestLimit, pos.x, Covered(-v.x, ms),
                      Advance(-m.pos.x, m.stop));
  }

  lemma MoveDown(roads: seq<Road>, pos: Coords, v: Coords, ms: int)
    requires v.x == 0.0 && v.y > EPSILON
    ensures var m := Move(roads, pos, v, ms);
            m.pos.x == pos.x &&
            RunsUp(FoundRoads(roads, pos), SouthLimit, pos.y, Covered(v.y, ms), m.pos.y, m.stop)
  {
    hide Edge, Found, FoundRoads, RunsUp, RunsDown, ClosedForm, MoveBy;
    var m := Move(roads, pos, v, ms);
    assert HeadingOf(v) == Some(Down) && Way(Down, v, ms) == Covered(v.y, ms);
    MoveMeetsClosedForm(Down, roads, pos, Covered(v.y, ms));
    ConsultedAreFound(roads, pos);
    forall r: Road
      ensures Edge(Down, r) == SouthLimit(r)
    {
      EdgesAreLimits(r);
    }
    ClosedFormIsRunUp(Down, FoundRoads(roads, pos), SouthLimit, pos.y, Covered(v.y, ms),
                      Advance(m.pos.y, m.stop));
  }

  lemma MoveUp(roads: seq<Road>, pos: Coords, v: Coords, ms: int)
    requires v.x == 0.0 && v.y < -EPSILON
    ensures var m := Move(roads, pos, v, ms);
            m.pos.x == pos.x &&
            RunsDown(FoundRoads(roads, pos), NorthLimit, pos.y, Covered(-v.y, ms), m.pos.y, m.stop)
  {
    hide Edge, Found, FoundRoads, RunsUp, RunsDown, ClosedForm, MoveBy;
    var m := Move(roads, pos, v, ms);
    assert HeadingOf(v) == Some(Up) && Way(Up, v, ms) == Covered(-v.y, ms);
    MoveMeetsClosedForm(Up, roads, pos, Covered(-v.y, ms));
    ConsultedAreFound(roads, pos);
    forall r: Road
      ensures Edge(Up, r) == -NorthLimit(r)
    {
      EdgesAreLimits(r);
    }
    ClosedFormIsRunDown(Up, FoundRoads(roads, pos), NorthLimit, pos.y, Covered(-v.y, ms),
                      Advance(-m.pos.y, m.stop));
  }

  /** A dog that runs along an axis gets as far as the roads found let it; a standing dog stays where it is. */
  ghost predicate Displaced(found: set<Road>, from: Coords, v: Coords, ms: int, to: Coords, stop: bool) {
    && (v.y == 0.0 && v.x > EPSILON ==>
          to.y == from.y && RunsUp(found, EastLimit, from.x, Covered(v.x, ms), to.x, stop))
    && (v.y == 0.0 && v.x < -EPSILON ==>
          to.y == from.y && RunsDown(found, WestLimit, from.x, Covered(-v.x, ms), to.x, stop))
    && (v.x == 0.0 && v.y > EPSILON ==>
          to.x == from.x && RunsUp(found, SouthLimit, from.y, Covered(v.y, ms), to.y, stop))
    && (v.x == 0.0 && v.y < -EPSILON ==>
          to.x == from.x && RunsDown(found, NorthLimit, from.y, Covered(-v.y, ms), to.y, stop))
    && (v == Coords(0.0, 0.0) ==> to == from && !stop)
  }

  lemma MoveDisplaces(roads: seq<Road>, pos: Coords, v: Coords, ms: int)
    ensures var m := Move(roads, pos, v, ms); Displaced(FoundRoads(roads, pos), pos, v, ms, m.pos, m.stop)
  {
    hide RunsUp, RunsDown, FoundRoads, MoveBy, Covered;
    if v.y == 0.0 && v.x > EPSILON {
      MoveRight(roads, pos, v, ms);
    } else if v.y == 0.0 && v.x < -EPSILON {
      MoveLeft(roads, pos, v, ms);
    } else if v.x == 0.0 && v.y > EPSILON {
      MoveDown(roads, pos, v, ms);
    } else if v.x == 0.0 && v.y < -EPSILON {
      MoveUp(roads, pos, v, ms);
    }
  }

  // ---------------------------------------------------------------- ticks

  /** A step of a dog: where the way ends it stops. */
  ghost predicate Travels(d: DogState, e: DogState, roads: seq<Road>, ms: int, stop: bool) {
    && e.start == d.pos
    && e.speed == (if stop then Coords(0.0, 0.0) else d.speed)
    && Displaced(FoundRoads(roads, d.pos), d.pos, d.speed, ms, e.pos, stop)
  }

  lemma StepRuns(p: PlayerState, ms: int, retirementTime: real)
    requires p.online
    ensures exists stop ::
              Travels(p.dog, StepPlayer(p, ms, retirementTime).dog, p.session.mapInfo.roads, ms, stop)
  {
    hide Move, Displaced, Retires;
    var roads, d, e := p.session.mapInfo.roads, p.dog, StepPlayer(p, ms, retirementTime).dog;
    MoveDisplaces(roads, d.pos, d.speed, ms);
    assert Travels(d, e, roads, ms, Move(roads, d.pos, d.speed, ms).stop);
  }

  lemma SameMotionRuns(d: DogState, p: PlayerState, q: PlayerState, roads: seq<Road>, ms: int, stop: bool)
    requires SameMotion(p, q) && Travels(d, p.dog, roads, ms, stop)
    ensures Travels(d, q.dog, roads, ms, stop)
  {
    hide Displaced;
  }

  /** What a tick does to the place and the speed of an online player's dog; the dog of a retired player stays. */
  lemma TickRuns(w: World, t: TickInput, k: nat)
    requires k < |w.players|
    ensures |Tick(w, t).players| == |w.players|
    ensures var p, q := w.players[k], Tick(w, t).players[k];
            if p.online then exists stop :: Travels(p.dog, q.dog, p.session.mapInfo.roads, t.ms, stop)
            else q.dog.pos == p.dog.pos && q.dog.start == p.dog.start && q.dog.speed == p.dog.speed
  {
    hide Tick, Travels, Move;
    var p, r := w.players[k], w.game.config.retirementTime;
    TickMovesLikeStep(w, t, k);
    if p.online {
      StepRuns(p, t.ms, r);
      var stop :| Travels(p.dog, StepPlayer(p, t.ms, r).dog, p.session.mapInfo.roads, t.ms, stop);
      SameMotionRuns(p.dog, StepPlayer(p, t.ms, r), Tick(w, t).players[k], p.session.mapInfo.roads, t.ms, stop);
    }
  }
}
