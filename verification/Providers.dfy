/** The providers of the collision detector: the offices of all maps, numbered as one list. */
module Providers {
  import opened Basics
  import opened Collision
  import opened World

  method ItemsCount(maps: seq<MapInfo>) returns (count: nat)
    ensures count == |OfficeItems(maps)|
  {
    count := 0;
    for k := 0 to |maps|
      invariant count + |OfficeItems(maps[k..])| == |OfficeItems(maps)|
    {
      assert maps[k..][1..] == maps[k + 1..];
      count := count + |maps[k].offices|;
    }
  }

  /** The index is counted down by the offices of the maps passed over. */
  method GetItem(maps: seq<MapInfo>, idx: nat) returns (item: Item)
    ensures item == if idx < |OfficeItems(maps)| then OfficeItems(maps)[idx] else Item(Coords(0.0, 0.0), 0.0)
  {
    var rest := idx;
    for k := 0 to |maps|
      invariant 0 <= rest <= idx
      invariant idx - rest + |OfficeItems(maps[k..])| == |OfficeItems(maps)|
      invariant OfficeItems(maps)[idx - rest..] == OfficeItems(maps[k..])
    {
      ghost var left := OfficeItems(maps[k..]);
      assert left == OfficesOf(maps[k].offices) + OfficeItems(maps[k + 1..]) by {
        assert maps[k..][1..] == maps[k + 1..];
      }
      if rest < |maps[k].offices| {
        assert OfficeItems(maps)[idx] == left[rest];
        return Item(AtCell(maps[k].offices[rest]), OFFICE_WIDTH);
      }
      rest := rest - |maps[k].offices|;
      assert OfficeItems(maps)[idx - rest..] == left[|maps[k].offices|..];
    }
    return Item(Coords(0.0, 0.0), 0.0);
  }

  method AllOffices(maps: seq<MapInfo>) returns (items: seq<Item>)
    ensures items == OfficeItems(maps)
  {
    items := [];
    var count := ItemsCount(maps);
    for idx := 0 to count
      invariant items == OfficeItems(maps)[..idx]
    {
      var item := GetItem(maps, idx);
      items := items + [item];
    }
  }
}
