/** The viewport query over stops: a coordinate grid that must answer like a scan of the feed
    (crates/gtfs/src/stops.rs, crates/api/src/rest.rs). */
module StopGrid {
  import opened Collections
  import opened Domain
  import opened Gtfs

  type Stops = map<string, StopInfo>

  /** Every stop is filed under its own id. */
  ghost predicate Filed(stops: Stops) {
    forall id :: id in stops ==> stops[id].stopId == id
  }

  predicate Inside(b: BBox, s: StopInfo) {
    && s.lat.Finite? && s.lon.Finite?
    && b.minLat <= s.lat.v <= b.maxLat && b.minLon <= s.lon.v <= b.maxLon
  }

  /** The brute-force answer: the positioned quays in the box. */
  function QuaysIn(stops: Stops, b: BBox): set<StopInfo> {
    set id | id in stops && stops[id].IsQuay() && Inside(b, stops[id]) :: stops[id]
  }

  // ---------------------------------------------------------------- cells

  const CELL_LAT: real := 0.05
  const CELL_LON: real := 0.08
  /** `as i32` on a float saturates. */
  function AsI32(x: int): int {
    if x < I32_MIN then I32_MIN else if x > I32_MAX then I32_MAX else x
  }

  type Cell = (int, int)

  function CellOf(lat: real, lon: real): Cell {
    (AsI32((lat / CELL_LAT).Floor), AsI32((lon / CELL_LON).Floor))
  }

  lemma FloorMonotone(x: real, y: real)
    requires x <= y
    ensures x.Floor <= y.Floor
  {}

  /** A stop in the box lies in one of the cells the box spans. */
  lemma CellInWindow(b: BBox, s: StopInfo)
    requires Inside(b, s)
    ensures var lo, hi, c := CellOf(b.minLat, b.minLon), CellOf(b.maxLat, b.maxLon), CellOf(s.lat.v, s.lon.v);
      lo.0 <= c.0 <= hi.0 && lo.1 <= c.1 <= hi.1
  {
    FloorMonotone(b.minLat / CELL_LAT, s.lat.v / CELL_LAT);
    FloorMonotone(s.lat.v / CELL_LAT, b.maxLat / CELL_LAT);
    FloorMonotone(b.minLon / CELL_LON, s.lon.v / CELL_LON);
    FloorMonotone(s.lon.v / CELL_LON, b.maxLon / CELL_LON);
  }

  // ---------------------------------------------------------------- the index

  /** Slots of the indexed quays (id and lower-cased name), and the slots of each cell. */
  datatype Grid = Grid(slots: seq<(string, string)>, cells: map<Cell, seq<nat>>)

  predicate Positioned(s: StopInfo) {
    s.lat.Finite? && s.lon.Finite?
  }

  ghost predicate SlotsOk(slots: seq<(string, string)>, stops: Stops, lower: string -> string) {
    && (forall i, j :: 0 <= i < j < |slots| ==> slots[i].0 != slots[j].0)
    && (forall i :: 0 <= i < |slots| ==> slots[i].0 in stops && stops[slots[i].0].IsQuay()
                                         && slots[i].1 == lower(stops[slots[i].0].name))
  }

  /** The stop of a slot is positioned and lies in cell `c`. */
  ghost predicate LiesIn(slots: seq<(string, string)>, stops: Stops, k: nat, c: Cell) {
    && k < |slots| && slots[k].0 in stops
    && Positioned(stops[slots[k].0]) && CellOf(stops[slots[k].0].lat.v, stops[slots[k].0].lon.v) == c
  }

  ghost predicate CellOk(slots: seq<(string, string)>, stops: Stops, c: Cell, ks: seq<nat>) {
    NoDup(ks) && forall k :: k in ks ==> LiesIn(slots, stops, k, c)
  }

  ghost predicate CellsOk(g: Grid, stops: Stops) {
    && (forall c :: c in g.cells ==> CellOk(g.slots, stops, c, g.cells[c]))
    && (forall c, k: nat :: LiesIn(g.slots, stops, k, c) ==> c in g.cells && k in g.cells[c])
  }

  /** Exactly the quays are indexed, each positioned one in exactly its cell. */
  ghost predicate GridOk(g: Grid, stops: Stops, lower: string -> string) {
    && SlotsOk(g.slots, stops, lower) && CellsOk(g, stops)
    && forall id :: id in stops && stops[id].IsQuay() ==> exists i :: 0 <= i < |g.slots| && g.slots[i].0 == id
  }

  method BuildGrid(stops: Stops, lower: string -> string) returns (g: Grid)
    requires Filed(stops)
    ensures GridOk(g, stops, lower)
  {
    g := Grid([], map[]);
    var todo := stops.Keys;
    while todo != {}
      invariant todo <= stops.Keys
      invariant SlotsOk(g.slots, stops, lower) && CellsOk(g, stops)
      invariant forall i :: 0 <= i < |g.slots| ==> g.slots[i].0 !in todo
      invariant forall id :: id in stops && stops[id].IsQuay() && id !in todo ==> exists i :: 0 <= i < |g.slots| && g.slots[i].0 == id
      decreases todo
    {
      var id :| id in todo;
      var stop := stops[id];
      if stop.IsQuay() {
        ghost var before := g;
        g := AddQuay(g, stop, stops, lower);
        assert forall i :: 0 <= i < |before.slots| ==> g.slots[i] == before.slots[i];
        assert g.slots[|before.slots|].0 == id;
      }
      todo := todo - {id};
    }
  }

  method AddQuay(g: Grid, stop: StopInfo, stops: Stops, lower: string -> string) returns (r: Grid)
    requires SlotsOk(g.slots, stops, lower) && CellsOk(g, stops)
    requires stop.stopId in stops && stops[stop.stopId] == stop && stop.IsQuay()
    requires forall i :: 0 <= i < |g.slots| ==> g.slots[i].0 != stop.stopId
    ensures r.slots == g.slots + [(stop.stopId, lower(stop.name))]
    ensures SlotsOk(r.slots, stops, lower) && CellsOk(r, stops)
  {
    var slot := |g.slots|;
    var slots := g.slots + [(stop.stopId, lower(stop.name))];
    forall d, k: nat ensures k < |g.slots| ==> (LiesIn(slots, stops, k, d) <==> LiesIn(g.slots, stops, k, d)) {}
    var cells := g.cells;
    if Positioned(stop) {
      var c := CellOf(stop.lat.v, stop.lon.v);
      var had := if c in cells then cells[c] else [];
      assert CellOk(g.slots, stops, c, had) && slot !in had;
      assert LiesIn(slots, stops, slot, c);
      cells := cells[c := had + [slot]];
      assert CellOk(slots, stops, c, had + [slot]);
    }
    forall d | d in g.cells ensures CellOk(slots, stops, d, g.cells[d]) {
      assert CellOk(g.slots, stops, d, g.cells[d]);
    }
    hide CellOk;
    r := Grid(slots, cells);
  }

  // ---------------------------------------------------------------- the query

  function V(n: Num): real {
    if n.Finite? then n.v else 0.0
  }

  /** Squared distance from the box centre, longitudes scaled by `coslat`. */
  function Distance(b: BBox, coslat: real, s: StopInfo): real {
    var dLat := V(s.lat) - (b.minLat + b.maxLat) / 2.0;
    var dLon := (V(s.lon) - (b.minLon + b.maxLon) / 2.0) * coslat;
    dLat * dLat + dLon * dLon
  }

  function Nearer(b: BBox, coslat: real): (StopInfo, StopInfo) -> bool {
    (s: StopInfo, t: StopInfo) => Distance(b, coslat, s) <= Distance(b, coslat, t)
  }

  /** The answer to a viewport query: the nearest quays in the box, nearest first, up to the
      limit, each once. */
  ghost predicate NearestQuays(r: seq<StopInfo>, stops: Stops, b: BBox, coslat: real, limit: nat) {
    NoDup(r) && BestK(r, multiset(QuaysIn(stops, b)), Nearer(b, coslat), limit)
  }

  ghost function InCell(stops: Stops, b: BBox, c: Cell): set<StopInfo> {
    set s | s in QuaysIn(stops, b) && CellOf(s.lat.v, s.lon.v) == c
  }

  // One of the first `i` listed slots is that of `s`, which is in the box.
  ghost predicate Listed(slots: seq<(string, string)>, stops: Stops, ks: seq<nat>, i: nat, b: BBox, s: StopInfo) {
    && Inside(b, s)
    && exists j :: 0 <= j < i <= |ks| && ks[j] < |slots| && slots[ks[j]].0 in stops && stops[slots[ks[j]].0] == s
  }

  /** The quays of one cell that really are in the box. */
  method CellHits(g: Grid, stops: Stops, ghost lower: string -> string, b: BBox, c: Cell) returns (hits: seq<StopInfo>)
    requires Filed(stops) && GridOk(g, stops, lower)
    ensures NoDup(hits) && Range(hits) == InCell(stops, b, c)
  {
    hits := [];
    if c !in g.cells {
      CellEmpty(g, stops, lower, b, c);
      return;
    }
    var slots := g.cells[c];
    assert CellOk(g.slots, stops, c, slots);
    assert forall j :: 0 <= j < |slots| ==> slots[j] in slots && LiesIn(g.slots, stops, slots[j], c);
    for i := 0 to |slots|
      invariant NoDup(hits)
      invariant forall s :: s in hits <==> Listed(g.slots, stops, slots, i, b, s)
    {
      var s := stops[g.slots[slots[i]].0];
      ListedNext(g.slots, stops, slots, i, b);
      if Inside(b, s) {
        NotListedYet(g.slots, stops, slots, i, b, lower);
        hits := hits + [s];
      }
      hide Listed;
    }
    CellListed(g, stops, lower, b, c);
  }

  lemma ListedNext(slots: seq<(string, string)>, stops: Stops, ks: seq<nat>, i: nat, b: BBox)
    requires i < |ks| && ks[i] < |slots| && slots[ks[i]].0 in stops
    ensures forall s :: Listed(slots, stops, ks, i + 1, b, s) <==> Listed(slots, stops, ks, i, b, s) || (s == stops[slots[ks[i]].0] && Inside(b, s))
  {
    forall s | Listed(slots, stops, ks, i, b, s) ensures Listed(slots, stops, ks, i + 1, b, s) {
      var j :| 0 <= j < i <= |ks| && ks[j] < |slots| && slots[ks[j]].0 in stops && stops[slots[ks[j]].0] == s;
    }
  }

  lemma NotListedYet(slots: seq<(string, string)>, stops: Stops, ks: seq<nat>, i: nat, b: BBox, lower: string -> string)
    requires SlotsOk(slots, stops, lower) && Filed(stops) && NoDup(ks)
    requires i < |ks| && ks[i] < |slots|
    ensures !Listed(slots, stops, ks, i, b, stops[slots[ks[i]].0])
  {}

  lemma CellListed(g: Grid, stops: Stops, lower: string -> string, b: BBox, c: Cell)
    requires Filed(stops) && GridOk(g, stops, lower) && c in g.cells
    ensures forall s :: s in InCell(stops, b, c) <==> Listed(g.slots, stops, g.cells[c], |g.cells[c]|, b, s)
  {
    var ks := g.cells[c];
    assert CellOk(g.slots, stops, c, ks);
    forall s ensures s in InCell(stops, b, c) <==> Listed(g.slots, stops, ks, |ks|, b, s) {
      if s in InCell(stops, b, c) {
        var i :| 0 <= i < |g.slots| && g.slots[i].0 == s.stopId;
        assert LiesIn(g.slots, stops, i, c);
        var j :| 0 <= j < |ks| && ks[j] == i;
        assert stops[g.slots[ks[j]].0] == s;
      }
      if Listed(g.slots, stops, ks, |ks|, b, s) {
        var j :| 0 <= j < |ks| && ks[j] < |g.slots| && g.slots[ks[j]].0 in stops && stops[g.slots[ks[j]].0] == s;
        assert LiesIn(g.slots, stops, ks[j], c);
      }
    }
  }

  lemma CellEmpty(g: Grid, stops: Stops, lower: string -> string, b: BBox, c: Cell)
    requires Filed(stops) && GridOk(g, stops, lower) && c !in g.cells
    ensures InCell(stops, b, c) == {}
  {
    forall s | s in QuaysIn(stops, b) ensures CellOf(s.lat.v, s.lon.v) != c {
      var i :| 0 <= i < |g.slots| && g.slots[i].0 == s.stopId;
      assert !LiesIn(g.slots, stops, i, c);
    }
  }

  /** The quays in the box whose cell precedes `(y, x)`, rows first. */
  ghost function Before(stops: Stops, b: BBox, y: int, x: int): set<StopInfo> {
    set s | s in QuaysIn(stops, b) && (CellOf(s.lat.v, s.lon.v).0 < y || (CellOf(s.lat.v, s.lon.v).0 == y && CellOf(s.lat.v, s.lon.v).1 < x))
  }

  /** `in_bbox`: walking the cells the box spans answers like scanning the whole feed. */
  method InBBox(g: Grid, stops: Stops, ghost lower: string -> string, b: BBox, coslat: real, limit: nat) returns (r: seq<StopInfo>)
    requires Filed(stops) && GridOk(g, stops, lower)
    ensures NearestQuays(r, stops, b, coslat, limit)
  {
    var lo, hi := CellOf(b.minLat, b.minLon), CellOf(b.maxLat, b.maxLon);
    var hits: seq<StopInfo> := [];
    NoneBefore(stops, b);
    var y := lo.0;
    while y <= hi.0
      invariant NoDup(hits) && Range(hits) == Before(stops, b, y, lo.1)
      invariant y <= hi.0 + 1 || y == lo.0
    {
      var x := lo.1;
      while x <= hi.1
        invariant NoDup(hits) && Range(hits) == Before(stops, b, y, x)
        invariant x <= hi.1 + 1 || x == lo.1
      {
        var more := CellHits(g, stops, lower, b, (y, x));
        assert Before(stops, b, y, x + 1) == Before(stops, b, y, x) + InCell(stops, b, (y, x));
        NoDupAppend(hits, more);
        RangeAppend(hits, more);
        hits := hits + more;
        x := x + 1;
      }
      RowDone(stops, b, y, x);
      y := y + 1;
    }
    AllBefore(stops, b, y);
    r := Truncated(hits, stops, b, coslat, limit);
  }

  lemma NoneBefore(stops: Stops, b: BBox)
    ensures Before(stops, b, CellOf(b.minLat, b.minLon).0, CellOf(b.minLat, b.minLon).1) == {}
  {
    forall s | s in QuaysIn(stops, b)
      ensures s !in Before(stops, b, CellOf(b.minLat, b.minLon).0, CellOf(b.minLat, b.minLon).1)
    {
      CellInWindow(b, s);
    }
  }

  lemma RowDone(stops: Stops, b: BBox, y: int, x: int)
    requires x > CellOf(b.maxLat, b.maxLon).1
    ensures Before(stops, b, y, x) == Before(stops, b, y + 1, CellOf(b.minLat, b.minLon).1)
  {
    forall s | s in QuaysIn(stops, b)
      ensures s in Before(stops, b, y, x) <==> s in Before(stops, b, y + 1, CellOf(b.minLat, b.minLon).1)
    {
      CellInWindow(b, s);
    }
  }

  lemma AllBefore(stops: Stops, b: BBox, y: int)
    requires y > CellOf(b.maxLat, b.maxLon).0
    ensures Before(stops, b, y, CellOf(b.minLat, b.minLon).1) == QuaysIn(stops, b)
  {
    forall s | s in QuaysIn(stops, b) ensures s in Before(stops, b, y, CellOf(b.minLat, b.minLon).1) {
      CellInWindow(b, s);
    }
  }

  // Sort by distance and keep the first `limit`.
  method Truncated(hits: seq<StopInfo>, ghost stops: Stops, b: BBox, coslat: real, limit: nat) returns (r: seq<StopInfo>)
    requires NoDup(hits) && Range(hits) == QuaysIn(stops, b)
    ensures NearestQuays(r, stops, b, coslat, limit)
  {
    hide Distance;
    var le := Nearer(b, coslat);
    var sorted := StableSort(hits, le);
    StableSortSorted(hits, le);
    NoDupMultiset(hits);
    MultisetNoDup(sorted);
    PoolOf(hits, QuaysIn(stops, b));
    TakeIsBestK(sorted, le, limit);
    r := sorted[..if limit <= |sorted| then limit else |sorted|];
  }

  lemma PoolOf<T>(s: seq<T>, all: set<T>)
    requires NoDup(s) && Range(s) == all
    ensures multiset(s) == multiset(all) && |multiset(all)| == |all| == |s|
  {
    NoDupMultiset(s);
    forall x ensures multiset(s)[x] == multiset(all)[x] {
      assert x in s <==> x in multiset(s);
    }
    assert multiset(s) == multiset(all);
    assert |multiset(s)| == |s|;
  }

  // ---------------------------------------------------------------- the endpoint

  datatype StopsResponse = BadRequest | Unavailable | Stops(stops: seq<StopInfo>, truncated: bool)

  const MAX_AREA: real := 1.0
  const DEFAULT_LIMIT: nat := 800
  const MAX_LIMIT: nat := 2_000

  function Area(b: BBox): real {
    AbsReal(b.maxLon - b.minLon) * AbsReal(b.maxLat - b.minLat)
  }

  function Limit(asked: Option<nat>): (limit: nat)
    ensures 1 <= limit <= 2_000
    ensures asked.None? ==> limit == 800
    ensures asked.Some? && 1 <= asked.value <= 2_000 ==> limit == asked.value
  {
    var n := asked.GetOr(DEFAULT_LIMIT);
    if n < 1 then 1 else if n > MAX_LIMIT then MAX_LIMIT else n
  }

  /** A response that may be believed: the nearest quays, flagged truncated unless it is certain
      that the limit dropped nothing. */
  ghost predicate Answers(resp: StopsResponse, stops: Stops, b: BBox, coslat: real, asked: Option<nat>) {
    resp.Stops? ==> (
      && NearestQuays(resp.stops, stops, b, coslat, Limit(asked))
      && (resp.truncated <==> |QuaysIn(stops, b)| >= Limit(asked)))
  }

  /** `stops_in_viewport`; `bbox` is absent when the parameter is missing or unreadable, `grid` until
      the indexes are built. */
  method StopsInViewport(grid: Option<Grid>, stops: Stops, ghost lower: string -> string, bbox: Option<BBox>, coslat: BBox -> real,
                         asked: Option<nat>) returns (resp: StopsResponse)
    requires Filed(stops) && (grid.Some? ==> GridOk(grid.value, stops, lower))
    ensures bbox.Some? ==> Answers(resp, stops, bbox.value, coslat(bbox.value), asked)
    ensures resp.BadRequest? <==> bbox.None? || Area(bbox.value) > MAX_AREA
    ensures resp.Unavailable? <==> bbox.Some? && Area(bbox.value) <= MAX_AREA && grid.None?
  {
    if bbox.None? {
      return BadRequest;
    }
    var b := bbox.value;
    if Area(b) > MAX_AREA {
      return BadRequest;
    }
    var limit := Limit(asked);
    if grid.None? {
      return Unavailable;
    }
    var found := InBBox(grid.value, stops, lower, b, coslat(b), limit);
    MultisetSize(QuaysIn(stops, b));
    resp := Stops(found, |found| >= limit);
  }

  lemma {:induction false} MultisetSize<T>(s: set<T>)
    ensures |multiset(s)| == |s|
  {
    if s != {} {
      var x :| x in s;
      MultisetSize(s - {x});
      assert multiset(s) == multiset(s - {x}) + multiset{x};
    }
  }

  /** An untruncated answer is the whole box. */
  lemma UntruncatedIsComplete(resp: StopsResponse, stops: Stops, b: BBox, coslat: real, asked: Option<nat>)
    requires Answers(resp, stops, b, coslat, asked) && resp.Stops? && !resp.truncated
    ensures Range(resp.stops) == QuaysIn(stops, b)
  {
    var pool, got := multiset(QuaysIn(stops, b)), multiset(resp.stops);
    MultisetSize(QuaysIn(stops, b));
    assert |got| == |resp.stops| == |pool|;
    assert got == pool by {
      assert |pool - got| == |pool| - |got|;
    }
    forall s ensures s in Range(resp.stops) <==> s in QuaysIn(stops, b) {
      assert s in got <==> s in pool;
    }
  }

  // ---------------------------------------------------------------- what the query is about

  /** A stop is in the answer's pool exactly when the feed files it, it is neither a station nor a stop
      area, it has a position, and that lies in the box, edges included. */
  lemma PoolMeans(stops: Stops, b: BBox, s: StopInfo)
    requires Filed(stops)
    ensures s in QuaysIn(stops, b) <==>
      && s.stopId in stops && stops[s.stopId] == s
      && s.locationType != 1 && !(|s.stopId| >= 9 && s.stopId[..9] == "stoparea:")
      && s.lat.Finite? && s.lon.Finite?
      && b.minLat <= s.lat.v && s.lat.v <= b.maxLat && b.minLon <= s.lon.v && s.lon.v <= b.maxLon
  {
    assert |"stoparea:"| == 9;
    assert "stoparea:" <= s.stopId <==> |s.stopId| >= 9 && s.stopId[..9] == "stoparea:";
  }

  /** The distance is that of a plane around the box centre, its longitudes scaled: nothing at the centre,
      the offset squared along either axis, and the sum of both in between. */
  lemma DistanceIsPlanar(b: BBox, coslat: real, s: StopInfo, north: real, east: real)
    requires s.lat == Finite((b.minLat + b.maxLat) / 2.0 + north) && s.lon == Finite((b.minLon + b.maxLon) / 2.0 + east)
    ensures Distance(b, coslat, s) == north * north + (east * coslat) * (east * coslat)
  {
    var y, x := V(s.lat) - (b.minLat + b.maxLat) / 2.0, (V(s.lon) - (b.minLon + b.maxLon) / 2.0) * coslat;
    assert y == north && x == east * coslat;
  }

  /** The size limit is on the area, whichever way round the corners are. */
  lemma AreaIgnoresCorners(b: BBox)
    ensures Area(b) == Area(BBox(b.maxLat, b.minLon, b.minLat, b.maxLon)) == Area(BBox(b.minLat, b.maxLon, b.maxLat, b.minLon))
    ensures b.minLat <= b.maxLat && b.minLon <= b.maxLon ==> Area(b) == (b.maxLon - b.minLon) * (b.maxLat - b.minLat)
  {}
}
