/** Loading the maps of a game: roads with their index, offices, loot values and defaults. */
module Loader {
  import opened Basics
  import opened Roads
  import opened World
  import opened Invariants

  /** One entry of the "maps" array; "dogSpeed" and "bagCapacity" are optional. */
  datatype MapSpec = MapSpec(id: string, roads: seq<RoadSpec>, offices: seq<Cell>, lootValues: seq<int>,
                             dogSpeed: Option<real>, bagCapacity: Option<int>)

  function AllRoads(specs: seq<RoadSpec>): seq<Road> {
    if specs == [] then [] else AllRoads(specs[..|specs| - 1]) + RoadsOf(specs[|specs| - 1])
  }

  /** The index of the map is the one its roads call for. */
  ghost predicate Loaded(m: MapInfo) { Indexes(m.cells, m.roads) }

  ghost predicate AllLoaded(config: Config) { forall m :: m in config.maps ==> Loaded(m) }

  /** The map that an entry describes, with the defaults filled in. */
  predicate Describes(spec: MapSpec, speed: real, m: MapInfo) {
    && m.id == spec.id && m.roads == AllRoads(spec.roads)
    && m.offices == spec.offices && m.lootValues == spec.lootValues
    && m.dogSpeed == (if spec.dogSpeed.Some? then spec.dogSpeed.value else speed)
    && m.bagCapacity == (if spec.bagCapacity.Some? then spec.bagCapacity.value else 0)
  }

  method LoadMap(spec: MapSpec, speed: real) returns (m: MapInfo)
    requires AllRoads(spec.roads) != []
    ensures Loaded(m) && Describes(spec, speed, m)
  {
    var built := new RoadMap();
    for k := 0 to |spec.roads|
      invariant fresh(built) && built.Valid() && built.roads == AllRoads(spec.roads[..k])
    {
      built.LoadRoad(spec.roads[k]);
      assert spec.roads[..k + 1][..k] == spec.roads[..k];
    }
    assert spec.roads[..|spec.roads|] == spec.roads;
    m := MapInfo(spec.id, built.roads, built.cells, spec.offices, spec.lootValues,
                 if spec.dogSpeed.Some? then spec.dogSpeed.value else speed,
                 if spec.bagCapacity.Some? then spec.bagCapacity.value else 0);
  }

  /** Loading fails exactly if two maps have the same id; otherwise the maps satisfy what the server starts from. */
  method LoadMaps(specs: seq<MapSpec>, speed: real, random: bool, bagCapacity: int, retirementTime: real)
    returns (config: Option<Config>)
    requires forall s :: s in specs ==> AllRoads(s.roads) != []
    ensures config.None? <==> exists i, j :: 0 <= i < j < |specs| && specs[i].id == specs[j].id
    ensures config.Some? ==>
              && config.value == Config(config.value.maps, random, bagCapacity, retirementTime)
              && AllLoaded(config.value) && ConfigOk(config.value)
              && |config.value.maps| == |specs|
              && forall k :: 0 <= k < |specs| ==> Describes(specs[k], speed, config.value.maps[k])
  {
    var maps: seq<MapInfo> := [];
    for k := 0 to |specs|
      invariant |maps| == k && forall i :: 0 <= i < k ==> Loaded(maps[i])
      invariant forall i :: 0 <= i < k ==> Describes(specs[i], speed, maps[i])
      invariant forall i, j :: 0 <= i < j < k ==> specs[i].id != specs[j].id
    {
      for i := 0 to k
        invariant forall j :: 0 <= j < i ==> maps[j].id != specs[k].id
      {
        if maps[i].id == specs[k].id {
          return None;
        }
      }
      var m := LoadMap(specs[k], speed);
      maps := maps + [m];
    }
    return Some(Config(maps, random, bagCapacity, retirementTime));
  }
}
