/** The in-memory fleet and its lifecycle rules (crates/core/src/state.rs). */
module LiveState {
  import opened Collections
  import opened Domain
  import Gtfs
  import TrainDelays

  /** Opaque geometry: the RD projection and the great-circle bearing. */
  datatype Geo = Geo(rdToWgs84: (Num, Num) -> (Num, Num), bearing: (Num, Num, Num, Num) -> Num)

  /** What an event is applied against: the feed and delay curves loaded at that moment. */
  datatype World = World(store: Gtfs.GtfsStore, clock: Gtfs.Clock, geo: Geo, delays: Option<map<string, TrainDelays.TrainDelay>>)

  type Trips = map<string, LiveTrip>

  const JITTER: real := 0.000001

  /** `(a - b).abs() > 1e-6`; a comparison with NaN is false. */
  predicate Differs(a: Num, b: Num) {
    a.Finite? && b.Finite? && AbsReal(a.v - b.v) > JITTER
  }

  function FixFrom(ev: PosEvent, geo: Geo): Option<(Num, Num)> {
    if ev.lat.Some? && ev.lon.Some? then Some((ev.lat.value, ev.lon.value))
    else if ev.rdX.Some? && ev.rdY.Some? then Some(geo.rdToWgs84(ev.rdX.value, ev.rdY.value))
    else None
  }

  /** The event asserts that the vehicle is at a station now. */
  predicate StationEvent(kind: MessageKind) {
    kind == Init || kind == Arrival || kind == OnStop || kind == Departure
  }

  // ---------------------------------------------------------------- one event on one trip

  /** `set_position`. */
  function MovedTo(m: Motion, lat: Num, lon: Num, geo: Geo): Motion {
    if m.HasPosition() then
      m.(bearing := if Differs(lat, m.lat) || Differs(lon, m.lon) then geo.bearing(m.lat, m.lon, lat, lon) else m.bearing,
         prevLat := m.lat, prevLon := m.lon, lat := lat, lon := lon)
    else m.(lat := lat, lon := lon)
  }

  method SetPosition(motion: Motion, lat: Num, lon: Num, geo: Geo) returns (m: Motion)
    ensures m == MovedTo(motion, lat, lon, geo)
  {
    m := motion;
    if m.HasPosition() {
      var b := geo.bearing(m.lat, m.lon, lat, lon);
      if Differs(lat, m.lat) || Differs(lon, m.lon) {
        m := m.(bearing := b);
      }
      m := m.(prevLat := m.lat);
      m := m.(prevLon := m.lon);
    }
    m := m.(lat := lat);
    m := m.(lon := lon);
  }

  // The fields an event carries, each left alone when the event lacks it.

  function UpdatedMotion(m: Motion, ev: PosEvent, geo: Geo): Motion {
    var fix := FixFrom(ev, geo);
    var n := if fix.Some? then MovedTo(m, fix.value.0, fix.value.1, geo).(schedulePositioned := false) else m;
    n.(bearing := ev.bearing.GetOr(n.bearing))
  }

  function UpdatedStatus(s: Status, ev: PosEvent): Status {
    s.(speedKmh := if ev.speedKmh.Some? then ev.speedKmh else s.speedKmh,
       delaySeconds := ev.punctuality.GetOr(s.delaySeconds),
       delayKnown := s.delayKnown || ev.punctuality.Some?,
       lastKind := Some(ev.kind),
       lastUpdate := ev.timestamp)
  }

  function UpdatedJourney(j: Journey, ev: PosEvent): Journey {
    Journey(if ev.linePlanningNumber.Some? then ev.linePlanningNumber else j.linePlanningNumber,
            if ev.journeyNumber.Some? then ev.journeyNumber else j.journeyNumber,
            if ev.operatingDay.Some? then ev.operatingDay else j.operatingDay,
            if ev.blockCode.Some? then ev.blockCode else j.blockCode)
  }

  function UpdatedType(v: VehicleType, ev: PosEvent): VehicleType {
    if v == Unknown then ev.vehicleType.GetOr(Unknown) else v
  }

  function Updated(t: LiveTrip, ev: PosEvent, geo: Geo): LiveTrip {
    t.(motion := UpdatedMotion(t.motion, ev, geo),
       schedule := t.schedule.(vehicleType := UpdatedType(t.schedule.vehicleType, ev)),
       status := UpdatedStatus(t.status, ev),
       journey := UpdatedJourney(t.journey, ev))
  }

  method ApplyFields(trip: LiveTrip, ev: PosEvent, geo: Geo) returns (t: LiveTrip)
    ensures t == Updated(trip, ev, geo)
  {
    var m := SetMotion(trip.motion, ev, geo);
    var v := trip.schedule.vehicleType;
    if ev.vehicleType.Some? && v == Unknown {
      v := ev.vehicleType.value;
    }
    var s := SetStatus(trip.status, ev);
    var j := SetJourney(trip.journey, ev);
    t := trip.(motion := m, schedule := trip.schedule.(vehicleType := v), status := s, journey := j);
  }

  method SetMotion(motion: Motion, ev: PosEvent, geo: Geo) returns (m: Motion)
    ensures m == UpdatedMotion(motion, ev, geo)
  {
    m := motion;
    var fix := FixFrom(ev, geo);
    if fix.Some? {
      m := SetPosition(m, fix.value.0, fix.value.1, geo);
      m := m.(schedulePositioned := false);
    }
    if ev.bearing.Some? {
      m := m.(bearing := ev.bearing.value);
    }
  }

  method SetStatus(status: Status, ev: PosEvent) returns (s: Status)
    ensures s == UpdatedStatus(status, ev)
  {
    s := status;
    if ev.speedKmh.Some? {
      s := s.(speedKmh := ev.speedKmh);
    }
    if ev.punctuality.Some? {
      s := s.(delaySeconds := ev.punctuality.value, delayKnown := true);
    }
    s := s.(lastKind := Some(ev.kind));
    s := s.(lastUpdate := ev.timestamp);
  }

  method SetJourney(journey: Journey, ev: PosEvent) returns (j: Journey)
    ensures j == UpdatedJourney(journey, ev)
  {
    j := journey;
    if ev.linePlanningNumber.Some? { j := j.(linePlanningNumber := ev.linePlanningNumber); }
    if ev.journeyNumber.Some? { j := j.(journeyNumber := ev.journeyNumber); }
    if ev.operatingDay.Some? { j := j.(operatingDay := ev.operatingDay); }
    if ev.blockCode.Some? { j := j.(blockCode := ev.blockCode); }
  }

  /** `apply_train_delay`: punctuality, day and line code of a train, from its delay curve. */
  function TrainDelayed(t: LiveTrip, w: World): LiveTrip {
    if t.key.dataowner != Gtfs.TRAIN_DATAOWNER || w.delays.None? || t.journey.journeyNumber.None? then t
    else
      match Lookup(w.delays.value, t.journey.journeyNumber.value)
      case None => t
      case Some(curve) =>
        var d := TrainDelays.At(curve.points, t.status.lastUpdate);
        t.(status := t.status.(delaySeconds := d.GetOr(t.status.delaySeconds), delayKnown := t.status.delayKnown || d.Some?),
           journey := t.journey.(
             operatingDay := if curve.operatingDay.Some? then curve.operatingDay else t.journey.operatingDay,
             linePlanningNumber := if t.journey.linePlanningNumber.Some? then t.journey.linePlanningNumber else curve.lineCode))
  }

  /** Arrival at and departure from a stop. */
  function StopMarked(s: Status, ev: PosEvent): Status {
    match ev.kind
    case Arrival => s.(atStop := true, currentStopId := ev.userStopCode)
    case OnStop => s.(atStop := true, currentStopId := ev.userStopCode)
    case Departure => s.(atStop := false, currentStopId := None)
    case OnRoute => s.(atStop := false, currentStopId := None)
    case _ => s
  }

  predicate NewJourney(t: LiveTrip, ev: PosEvent) {
    && ev.journeyNumber.Some? && t.journey.journeyNumber.Some?
    && ev.journeyNumber != t.journey.journeyNumber
  }

  /** The trip an event updates: a fresh one on INIT, on first sight and on a journey change. */
  function BaseTrip(slot: Option<LiveTrip>, ev: PosEvent): LiveTrip {
    var blank := NewTrip(ev.key, ev.timestamp);
    if ev.kind == Init then blank.(status := blank.status.(hasInit := true))
    else if slot.None? || NewJourney(slot.value, ev) then blank
    else slot.value
  }

  /** The trip as the schedule anchor sees it: fields, delay and enrichment are in. */
  function Refreshed(base: LiveTrip, ev: PosEvent, w: World): LiveTrip {
    var t := TrainDelayed(Updated(base.(status := StopMarked(base.status, ev)), ev, w.geo), w);
    if ev.kind == Init || t.schedule.linePublicNumber.None? then Gtfs.Enriched(w.store, w.clock, t) else t
  }

  /** The anchor may place the trip: it has no position, or only a schedule-derived one. */
  predicate Anchorable(m: Motion) {
    !m.HasPosition() || m.schedulePositioned
  }

  /** `anchor_to_schedule`. */
  function Anchored(t: LiveTrip, ev: PosEvent, w: World): LiveTrip {
    if !StationEvent(ev.kind) || !Anchorable(t.motion) then t
    else
      match Gtfs.ScheduledPosition(w.store, w.clock, t)
      case None => t
      case Some((lat, lon)) => t.(motion := MovedTo(t.motion, lat, lon, w.geo).(schedulePositioned := true))
  }

  /** One event on one vehicle's slot. */
  function ApplyToSlot(slot: Option<LiveTrip>, ev: PosEvent, w: World): Option<LiveTrip> {
    if ev.kind == End then None else Some(Anchored(Refreshed(BaseTrip(slot, ev), ev, w), ev, w))
  }

  // ---------------------------------------------------------------- the fleet

  function SetSlot(trips: Trips, id: string, slot: Option<LiveTrip>): Trips {
    match slot
    case Some(t) => trips[id := t]
    case None => trips - {id}
  }

  function Applied(trips: Trips, ev: PosEvent, w: World): Trips {
    SetSlot(trips, ev.key.Id(), ApplyToSlot(Lookup(trips, ev.key.Id()), ev, w))
  }

  predicate Fresh(t: LiveTrip, now: Instant, staleAfter: int) {
    t.status.lastUpdate >= now - staleAfter
  }

  function Pruned(trips: Trips, now: Instant, staleAfter: int): Trips {
    map id | id in trips && Fresh(trips[id], now, staleAfter) :: trips[id]
  }

  /** Slot key, trip id and vehicle key agree. */
  ghost predicate Keyed(trips: Trips) {
    forall id :: id in trips ==> trips[id].id == id && trips[id].key.Id() == id
  }

  lemma KeyedKept(trips: Trips, ev: PosEvent, w: World, now: Instant, staleAfter: int)
    requires Keyed(trips)
    ensures Keyed(Applied(trips, ev, w)) && Keyed(Pruned(trips, now, staleAfter))
  {
    var slot := Lookup(trips, ev.key.Id());
    if ev.kind != End {
      IdentityKept(slot, ev, w);
    }
  }

  lemma IdentityKept(slot: Option<LiveTrip>, ev: PosEvent, w: World)
    requires ev.kind != End
    ensures var t, base := ApplyToSlot(slot, ev, w).value, BaseTrip(slot, ev); t.id == base.id && t.key == base.key
  {
    var base := BaseTrip(slot, ev);
    Gtfs.EnrichmentOnlyAdds(w.store, w.clock, TrainDelayed(Updated(base.(status := StopMarked(base.status, ev)), ev, w.geo), w));
  }

  class Fleet {
    var trips: Trips
    const staleAfter: int

    constructor (staleAfter: int)
      ensures trips == map[] && this.staleAfter == staleAfter
    {
      trips := map[];
      this.staleAfter := staleAfter;
    }

    /** Apply one event; returns the vehicle id and whether the trip was removed. */
    method Apply(ev: PosEvent, w: World) returns (id: string, removed: bool)
      modifies this
      ensures trips == Applied(old(trips), ev, w)
      ensures id == ev.key.Id() && removed == (ev.kind == End)
    {
      hide Updated;
      hide TrainDelayed;
      hide Gtfs.Enriched;
      hide Anchored;
      id := ev.key.Id();
      if ev.kind == Init {
        var trip := NewTrip(ev.key, ev.timestamp);
        trip := trip.(status := trip.status.(hasInit := true));
        trip := ApplyFields(trip, ev, w.geo);
        trip := TrainDelayed(trip, w);
        trip := Gtfs.EnrichTrip(w.store, w.clock, trip);
        trip := Anchor(trip, ev, w);
        trips := trips[id := trip];
        removed := false;
      } else if ev.kind == End {
        trips := trips - {id};
        removed := true;
      } else {
        var entry := if id in trips then trips[id] else NewTrip(ev.key, ev.timestamp);
        if NewJourney(entry, ev) {
          entry := NewTrip(ev.key, ev.timestamp);
        }
        if ev.kind == Arrival || ev.kind == OnStop {
          entry := entry.(status := entry.status.(atStop := true, currentStopId := ev.userStopCode));
        } else if ev.kind == Departure || ev.kind == OnRoute {
          entry := entry.(status := entry.status.(atStop := false, currentStopId := None));
        }
        entry := ApplyFields(entry, ev, w.geo);
        entry := TrainDelayed(entry, w);
        if entry.schedule.linePublicNumber.None? {
          entry := Gtfs.EnrichTrip(w.store, w.clock, entry);
        }
        entry := Anchor(entry, ev, w);
        trips := trips[id := entry];
        removed := false;
      }
    }

    method Anchor(trip: LiveTrip, ev: PosEvent, w: World) returns (t: LiveTrip)
      ensures t == Anchored(trip, ev, w)
    {
      t := trip;
      if !StationEvent(ev.kind) || (t.motion.HasPosition() && !t.motion.schedulePositioned) {
        return;
      }
      var station := Gtfs.FindScheduledPosition(w.store, w.clock, t);
      if station.Some? {
        var m := SetPosition(t.motion, station.value.0, station.value.1, w.geo);
        t := t.(motion := m.(schedulePositioned := true));
      }
    }

    /** Removes exactly the trips silent for longer than the window, and names each once. */
    method PruneStale(now: Instant) returns (removed: seq<string>)
      modifies this
      ensures trips == Pruned(old(trips), now, staleAfter)
      ensures NoDup(removed) && Range(removed) == old(trips).Keys - trips.Keys
    {
      removed := [];
      var all := trips;
      var todo := all.Keys;
      while todo != {}
        invariant todo <= all.Keys && all == old(trips)
        invariant trips == map id | id in all && (id in todo || Fresh(all[id], now, staleAfter)) :: all[id]
        invariant NoDup(removed) && Range(removed) == all.Keys - trips.Keys
        decreases todo
      {
        var id :| id in todo;
        todo := todo - {id};
        if !Fresh(all[id], now, staleAfter) {
          assert id in trips && id !in Range(removed);
          NoDupAppend(removed, [id]);
          RangeAppend(removed, [id]);
          removed := removed + [id];
          trips := trips - {id};
          assert Range([id]) == {id};
        }
      }
    }
  }
}
