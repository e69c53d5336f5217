/** The immutable per-tick index of positioned trips, viewports and attribute filters
    (crates/core/src/state.rs, crates/core/src/filter.rs). */
module VehicleIndexes {
  import opened Collections
  import opened Domain
  import opened LiveState

  predicate Between(x: real, a: real, b: real) {
    a <= x <= b || b <= x <= a
  }

  /** The inclusive envelope spanned by the box's corners, in whichever order they are given. */
  predicate InEnvelope(b: BBox, lat: real, lon: real) {
    Between(lat, b.minLat, b.maxLat) && Between(lon, b.minLon, b.maxLon)
  }

  datatype Filters = Filters(vehicleTypes: seq<VehicleType>, dataowners: seq<string>, search: string)

  const NO_FILTERS := Filters([], [], "")

  function AsciiLower(c: char): char {
    if 'A' <= c <= 'Z' then (c as int + 32) as char else c
  }

  function Lower(s: string): string {
    Map(s, AsciiLower)
  }

  predicate Mentions(field: Option<string>, query: string) {
    field.Some? && Contains(Lower(field.value), query)
  }

  /** Empty lists and an empty search match everything. */
  predicate Matches(f: Filters, t: LiveTrip) {
    && (f.vehicleTypes == [] || t.schedule.vehicleType in f.vehicleTypes)
    && (f.dataowners == [] || exists d :: d in f.dataowners && Lower(d) == Lower(t.key.dataowner))
    && (f.search == "" || (
          var q := Lower(f.search);
          || Mentions(Some(t.key.vehicleNumber), q) || Mentions(t.schedule.linePublicNumber, q)
          || Mentions(t.journey.linePlanningNumber, q) || Mentions(t.journey.blockCode, q)
          || Mentions(t.journey.journeyNumber, q)))
  }

  // ---------------------------------------------------------------- what an index holds

  /** An index as a map: the positioned trips by id. */
  type Index = map<string, LiveTrip>

  function Positioned(trips: Trips): Index {
    map id | id in trips && trips[id].motion.HasPosition() :: trips[id]
  }

  ghost predicate IndexOk(idx: Index) {
    forall id :: id in idx ==> idx[id].id == id && idx[id].motion.HasPosition()
  }

  predicate Hit(t: LiveTrip, bbox: BBox, filters: Filters) {
    t.motion.HasPosition() && InEnvelope(bbox, t.motion.lat.v, t.motion.lon.v) && Matches(filters, t)
  }

  function Hits(idx: Index, bbox: BBox, filters: Filters): set<string> {
    set id | id in idx && Hit(idx[id], bbox, filters)
  }

  function Ids(trips: seq<LiveTrip>): seq<string> {
    Map(trips, (t: LiveTrip) => t.id)
  }

  /** The built index: trips in slot order and the slot of each id. */
  datatype VehicleIndex = VehicleIndex(vehicles: seq<LiveTrip>, byId: map<string, nat>) {
    ghost predicate Valid() {
      && (forall i :: 0 <= i < |vehicles| ==> vehicles[i].motion.HasPosition())
      && (forall i :: 0 <= i < |vehicles| ==> vehicles[i].id in byId && byId[vehicles[i].id] == i)
      && (forall id :: id in byId ==> byId[id] < |vehicles| && vehicles[byId[id]].id == id)
    }

    ghost function Contents(): Index
      requires Valid()
    {
      map id | id in byId :: vehicles[byId[id]]
    }

    function Get(id: string): (r: Option<LiveTrip>)
      requires Valid()
      ensures r == if id in Contents() then Some(Contents()[id]) else None
    {
      if id in byId then Some(vehicles[byId[id]]) else None
    }

    /** Trips inside `bbox` passing `filters`, each once, in no particular order. */
    method Query(bbox: BBox, filters: Filters) returns (hits: seq<LiveTrip>)
      requires Valid()
      ensures NoDup(Ids(hits)) && Range(Ids(hits)) == Hits(Contents(), bbox, filters)
      ensures forall t :: t in hits ==> t.id in Contents() && t == Contents()[t.id]
    {
      hide Hit;
      hits := [];
      for i := 0 to |vehicles|
        invariant NoDup(Ids(hits))
        invariant forall t :: t in hits ==> t.id in Contents() && t == Contents()[t.id] && byId[t.id] < i && Hit(t, bbox, filters)
        invariant forall j :: 0 <= j < i && Hit(vehicles[j], bbox, filters) ==> vehicles[j] in hits
      {
        if Hit(vehicles[i], bbox, filters) {
          assert forall j :: 0 <= j < |hits| ==> Ids(hits)[j] == hits[j].id && hits[j] in hits;
          assert vehicles[i].id !in Ids(hits);
          hits := hits + [vehicles[i]];
        }
      }
      forall id ensures id in Range(Ids(hits)) <==> id in Hits(Contents(), bbox, filters) {
        if id in Ids(hits) {
          var j :| 0 <= j < |hits| && Ids(hits)[j] == id;
          assert hits[j] in hits;
        }
        if id in Hits(Contents(), bbox, filters) {
          var t := vehicles[byId[id]];
          assert t in hits;
          var j :| 0 <= j < |hits| && hits[j] == t;
          assert Ids(hits)[j] == id;
        }
      }
    }
  }

  /** `build_index`: exactly the positioned trips, whatever order the fleet is walked in. */
  method BuildIndex(trips: Trips) returns (idx: VehicleIndex)
    requires Keyed(trips)
    ensures idx.Valid() && idx.Contents() == Positioned(trips)
  {
    var vehicles: seq<LiveTrip>, byId: map<string, nat> := [], map[];
    var todo := trips.Keys;
    while todo != {}
      invariant todo <= trips.Keys
      invariant VehicleIndex(vehicles, byId).Valid()
      invariant forall id :: id in byId <==> id in Positioned(trips) && id !in todo
      invariant forall id :: id in byId ==> vehicles[byId[id]] == trips[id]
      decreases todo
    {
      var id :| id in todo;
      todo := todo - {id};
      if trips[id].motion.HasPosition() {
        byId := byId[id := |vehicles|];
        vehicles := vehicles + [trips[id]];
      }
    }
    idx := VehicleIndex(vehicles, byId);
  }
}
