/** Roads and the cell-to-roads index that the map loader builds. */
module Roads {
  import opened Basics

  /** The two constructors of the original Road class. */
  datatype Road =
    | Horizontal(start: Cell, endX: int)
    | Vertical(start: Cell, endY: int)
  {
    function End(): Cell {
      match this
      case Horizontal(s, ex) => Cell(ex, s.y)
      case Vertical(s, ey) => Cell(s.x, ey)
    }

    function MinX(): int { MinInt(start.x, End().x) }
    function MaxX(): int { MaxInt(start.x, End().x) }
    function MinY(): int { MinInt(start.y, End().y) }
    function MaxY(): int { MaxInt(start.y, End().y) }
  }

  /** One entry of the "roads" array of a map: "x1" and "y1" are each optional. */
  datatype RoadSpec = RoadSpec(x0: int, y0: int, x1: Option<int>, y1: Option<int>)

  /** The cell is an integer point of the road. */
  predicate OnRoad(r: Road, c: Cell) {
    r.MinX() <= c.x <= r.MaxX() && r.MinY() <= c.y <= r.MaxY()
  }

  /** The cell just past the end of a road given in increasing order. */
  predicate PastEnd(r: Road, c: Cell) {
    match r
    case Horizontal(s, ex) => s.x <= ex && c == Cell(ex + 1, s.y)
    case Vertical(s, ey) => s.y <= ey && c == Cell(s.x, ey + 1)
  }

  predicate Indexed(r: Road, c: Cell) {
    OnRoad(r, c) || PastEnd(r, c)
  }

  predicate OnSomeRoad(roads: seq<Road>, c: Cell) {
    exists r :: r in roads && OnRoad(r, c)
  }

  predicate Increasing(r: Road) {
    match r
    case Horizontal(s, ex) => s.x <= ex
    case Vertical(s, ey) => s.y <= ey
  }

  /** How many pointers to one loaded road the index holds at a cell: the end cell of a road given in
      increasing order is entered by both loops. */
  function Copies(r: Road, c: Cell): nat {
    if !Indexed(r, c) then 0 else if Increasing(r) && c == r.End() then 2 else 1
  }

  /** How many pointers to roads equal to r the index holds at a cell once the given roads are loaded. */
  function IndexCount(roads: seq<Road>, c: Cell, r: Road): nat {
    if roads == [] then 0
    else
      var last := roads[|roads| - 1];
      IndexCount(roads[..|roads| - 1], c, r) + if last == r then Copies(r, c) else 0
  }

  /** The roads of the index at a cell, listed in loading order. */
  function RoadsAt(roads: seq<Road>, c: Cell): (at: seq<Road>)
    ensures forall r :: r in at <==> r in roads && Indexed(r, c)
  {
    if roads == [] then []
    else RoadsAt(roads[..|roads| - 1], c) + if Indexed(roads[|roads| - 1], c) then [roads[|roads| - 1]] else []
  }

  function RoadsOf(spec: RoadSpec): seq<Road> {
    (if spec.x1.Some? then [Horizontal(Cell(spec.x0, spec.y0), spec.x1.value)] else []) +
    (if spec.y1.Some? then [Vertical(Cell(spec.x0, spec.y0), spec.y1.value)] else [])
  }

  /** The index agrees with the geometry of the roads, except for the one cell past an increasing end. */
  lemma {:induction false} IndexExact(roads: seq<Road>, c: Cell, r: Road)
    ensures IndexCount(roads, c, r) > 0 <==> r in roads && (OnRoad(r, c) || PastEnd(r, c))
  {
    if roads != [] {
      IndexExact(roads[..|roads| - 1], c, r);
      assert roads == roads[..|roads| - 1] + [roads[|roads| - 1]];
    }
  }

  /** The index of a loaded map, as the map loader leaves it. */
  type RoadIndex = map<Cell, multiset<Road>>

  function HeldIn(cells: RoadIndex, c: Cell, r: Road): nat {
    if c in cells then cells[c][r] else 0
  }

  ghost predicate Indexes(cells: RoadIndex, roads: seq<Road>) {
    forall c, r :: HeldIn(cells, c, r) == IndexCount(roads, c, r)
  }

  /** Map::GetRoadMap: the pointers consulted for a cell, with nothing said about their order. */
  function GetRoadMap(cells: RoadIndex, c: Cell): multiset<Road> {
    if c in cells then cells[c] else multiset{}
  }

  lemma GetRoadMapExact(cells: RoadIndex, roads: seq<Road>, c: Cell)
    requires Indexes(cells, roads)
    ensures forall r :: r in GetRoadMap(cells, c) <==> r in roads && Indexed(r, c)
  {
    forall r
      ensures r in GetRoadMap(cells, c) <==> r in roads && Indexed(r, c)
    {
      assert GetRoadMap(cells, c)[r] == HeldIn(cells, c, r);
      IndexExact(roads, c, r);
    }
  }

  /** The index of a map under construction, and the roads loaded so far. */
  class RoadMap {
    var roads: seq<Road>
    var cells: RoadIndex

    constructor ()
      ensures roads == [] && Valid()
    {
      roads, cells := [], map[];
    }

    ghost predicate Valid()
      reads this
    {
      Indexes(cells, roads)
    }

    method AddRoadMap(c: Cell, r: Road)
      modifies this`cells
      ensures forall d, q :: HeldIn(cells, d, q) == old(HeldIn(cells, d, q)) + if d == c && q == r then 1 else 0
    {
      cells := cells[c := (if c in cells then cells[c] else multiset{}) + multiset{r}];
    }

    /** The two loop pairs of the loader; a spec may carry both "x1" and "y1". */
    method LoadRoad(spec: RoadSpec)
      requires Valid()
      modifies this
      ensures Valid()
      ensures roads == old(roads) + RoadsOf(spec)
      ensures spec.x1.None? && spec.y1.None? ==> roads == old(roads)
      ensures spec.x1.Some? && spec.y1.None? ==>
                roads == old(roads) + [Horizontal(Cell(spec.x0, spec.y0), spec.x1.value)]
      ensures spec.x1.None? && spec.y1.Some? ==>
                roads == old(roads) + [Vertical(Cell(spec.x0, spec.y0), spec.y1.value)]
      ensures spec.x1.Some? && spec.y1.Some? ==>
                roads == old(roads) + [Horizontal(Cell(spec.x0, spec.y0), spec.x1.value),
                                       Vertical(Cell(spec.x0, spec.y0), spec.y1.value)]
    {
      if spec.x1.Some? {
        LoadHorizontal(spec.x0, spec.y0, spec.x1.value);
      }
      if spec.y1.Some? {
        LoadVertical(spec.x0, spec.y0, spec.y1.value);
      }
    }

    method LoadHorizontal(startX: int, y0: int, endX: int)
      requires Valid()
      modifies this
      ensures Valid()
      ensures roads == old(roads) + [Horizontal(Cell(startX, y0), endX)]
    {
      var x0, x1 := startX, endX;
      var road := Horizontal(Cell(x0, y0), x1);
      while x0 <= x1
        invariant startX <= x0 <= MaxInt(startX, endX + 1) && roads == old(roads)
        invariant forall c, r ::
          HeldIn(cells, c, r) ==
          old(HeldIn(cells, c, r)) + (if r == road && c.y == y0 && startX <= c.x < x0 then 1 else 0)
        decreases x1 - x0
      {
        AddRoadMap(Cell(x0, y0), road);
        x0 := x0 + 1;
      }
      while x1 <= x0
        invariant endX <= x1 <= x0 + 1 && x0 == MaxInt(startX, endX + 1) && roads == old(roads)
        invariant forall c, r ::
          HeldIn(cells, c, r) ==
          old(HeldIn(cells, c, r)) +
          (if r == road && c.y == y0 && startX <= c.x < x0 && startX <= endX then 1 else 0) +
          (if r == road && c.y == y0 && endX <= c.x < x1 then 1 else 0)
        decreases x0 - x1
      {
        AddRoadMap(Cell(x1, y0), road);
        x1 := x1 + 1;
      }
      Extend(road, old(roads));
    }

    method LoadVertical(x0: int, startY: int, endY: int)
      requires Valid()
      modifies this
      ensures Valid()
      ensures roads == old(roads) + [Vertical(Cell(x0, startY), endY)]
    {
      var y0, y1 := startY, endY;
      var road := Vertical(Cell(x0, y0), y1);
      while y0 <= y1
        invariant startY <= y0 <= MaxInt(startY, endY + 1) && roads == old(roads)
        invariant forall c, r ::
          HeldIn(cells, c, r) ==
          old(HeldIn(cells, c, r)) + (if r == road && c.x == x0 && startY <= c.y < y0 then 1 else 0)
        decreases y1 - y0
      {
        AddRoadMap(Cell(x0, y0), road);
        y0 := y0 + 1;
      }
      while y1 <= y0
        invariant endY <= y1 <= y0 + 1 && y0 == MaxInt(startY, endY + 1) && roads == old(roads)
        invariant forall c, r ::
          HeldIn(cells, c, r) ==
          old(HeldIn(cells, c, r)) +
          (if r == road && c.x == x0 && startY <= c.y < y0 && startY <= endY then 1 else 0) +
          (if r == road && c.x == x0 && endY <= c.y < y1 then 1 else 0)
        decreases y0 - y1
      {
        AddRoadMap(Cell(x0, y1), road);
        y1 := y1 + 1;
      }
      Extend(road, old(roads));
    }

    /** Map::AddRoad, once every cell of the road has been entered in the index. */
    method Extend(road: Road, ghost before: seq<Road>)
      requires roads == before
      requires forall c, r :: HeldIn(cells, c, r) == IndexCount(before, c, r) + if r == road then Copies(r, c) else 0
      modifies this`roads
      ensures Valid()
      ensures roads == before + [road]
    {
      roads := roads + [road];
      assert roads[..|roads| - 1] == before;
    }
  }
}
