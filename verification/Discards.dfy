/** When an event throws a trip away and when it keeps it, and what it acts on: spelled out on the
    numbers and kinds themselves (crates/core/src/state.rs). */
module Discards {
  import opened Collections
  import opened Domain
  import opened LiveState
  import opened Lifecycle
  import Gtfs

  /** Two known, different journey numbers. */
  predicate OtherJourney(a: Option<string>, b: Option<string>) {
    match (a, b)
    case (Some(x), Some(y)) => x != y
    case _ => false
  }

  predicate Ordinary(ev: PosEvent) {
    ev.kind != Init && ev.kind != End
  }

  // The trip that an ordinary event updates.
  lemma OrdinaryBase(t: LiveTrip, ev: PosEvent)
    requires Ordinary(ev)
    ensures BaseTrip(Some(t), ev) == if OtherJourney(t.journey.journeyNumber, ev.journeyNumber) then NewTrip(ev.key, ev.timestamp) else t
  {}

  /** INIT, and an event naming another known journey than the trip's, leave nothing of the trip they
      find: the outcome is that of first sight. END removes it. */
  lemma DiscardedTripIsForgotten(t: LiveTrip, ev: PosEvent, w: World)
    requires ev.kind == Init || ev.kind == End || OtherJourney(t.journey.journeyNumber, ev.journeyNumber)
    ensures ApplyToSlot(Some(t), ev, w) == ApplyToSlot(None, ev, w)
    ensures ApplyToSlot(Some(t), ev, w).None? <==> ev.kind == End
  {
    hide Refreshed, Anchored;
  }

  /** An ordinary event throws away the trip it finds exactly when both journey numbers are known and
      different: what an INIT left, and only that, tells. */
  lemma DiscardedIff(t: LiveTrip, ev: PosEvent, w: World)
    requires Ordinary(ev) && t.status.hasInit
    ensures var r := ApplyToSlot(Some(t), ev, w);
      r.Some? && (r.value.status.hasInit <==> !OtherJourney(t.journey.journeyNumber, ev.journeyNumber))
  {
    OrdinaryBase(t, ev);
    HasInitStays(BaseTrip(Some(t), ev), ev, w);
    hide Refreshed, Anchored, BaseTrip;
  }

  lemma HasInitStays(base: LiveTrip, ev: PosEvent, w: World)
    ensures Anchored(Refreshed(base, ev, w), ev, w).status.hasInit == base.status.hasInit
  {
    var u := Updated(base.(status := StopMarked(base.status, ev)), ev, w.geo);
    Gtfs.EnrichmentOnlyAdds(w.store, w.clock, TrainDelayed(u, w));
    hide Gtfs.Enriched, UpdatedMotion, Gtfs.ScheduledPosition, MovedTo;
  }

  /** Otherwise the trip goes on: its first facts, a match once made, everything the schedule said, a
      delay once known, and its place, unless the event brings a fix or the schedule places it. */
  lemma KeptTripGoesOn(t: LiveTrip, ev: PosEvent, w: World)
    requires Ordinary(ev) && !OtherJourney(t.journey.journeyNumber, ev.journeyNumber)
    ensures var r := ApplyToSlot(Some(t), ev, w);
      && r.Some? && r.value.key == t.key && r.value.status.hasInit == t.status.hasInit
      && (t.journey.journeyNumber.Some? ==> r.value.journey.journeyNumber == t.journey.journeyNumber)
      && (t.schedule.matchedTripId.Some? ==> r.value.schedule.matchedTripId == t.schedule.matchedTripId)
      && (t.schedule.linePublicNumber.Some? ==> r.value.schedule.linePublicNumber == t.schedule.linePublicNumber)
      && (t.schedule.destination.Some? ==> r.value.schedule.destination == t.schedule.destination)
      && (t.schedule.operatorName.Some? ==> r.value.schedule.operatorName == t.schedule.operatorName)
      && (t.status.delayKnown ==> r.value.status.delayKnown)
  {
    OrdinaryBase(t, ev);
    var u := Updated(t.(status := StopMarked(t.status, ev)), ev, w.geo);
    Gtfs.EnrichmentOnlyAdds(w.store, w.clock, TrainDelayed(u, w));
    hide Gtfs.Enriched, UpdatedMotion, Gtfs.ScheduledPosition, MovedTo, BaseTrip;
  }

  /** The event brings coordinates: both of WGS84, else both of the Dutch grid. */
  predicate BringsFix(ev: PosEvent) {
    (ev.lat.Some? && ev.lon.Some?) || (ev.rdX.Some? && ev.rdY.Some?)
  }

  /** An ordinary event without coordinates, on a trip it keeps, moves it only if it says the vehicle
      is arriving at, standing at or leaving a station, and the trip has no place of its own. */
  lemma PlaceStays(t: LiveTrip, ev: PosEvent, w: World)
    requires Ordinary(ev) && !OtherJourney(t.journey.journeyNumber, ev.journeyNumber) && !BringsFix(ev)
    requires || !(ev.kind == Arrival || ev.kind == OnStop || ev.kind == Departure)
             || (t.motion.lat.Finite? && t.motion.lon.Finite? && !t.motion.schedulePositioned)
    ensures var r := ApplyToSlot(Some(t), ev, w);
      && r.Some? && (r.value.motion.lat, r.value.motion.lon) == (t.motion.lat, t.motion.lon)
      && (r.value.motion.prevLat, r.value.motion.prevLon) == (t.motion.prevLat, t.motion.prevLon)
      && r.value.motion.schedulePositioned == t.motion.schedulePositioned
  {
    OrdinaryBase(t, ev);
    MotionOfRefreshed(t, ev, w);
    hide Refreshed, BaseTrip, Gtfs.ScheduledPosition;
  }

  lemma MotionOfRefreshed(base: LiveTrip, ev: PosEvent, w: World)
    ensures Refreshed(base, ev, w).motion == UpdatedMotion(base.motion, ev, w.geo)
  {
    var u := Updated(base.(status := StopMarked(base.status, ev)), ev, w.geo);
    Gtfs.EnrichmentOnlyAdds(w.store, w.clock, TrainDelayed(u, w));
    assert TrainDelayed(u, w).motion == u.motion;
    hide Gtfs.Enriched, UpdatedMotion, TrainDelayed;
  }

  /** Where a fix puts a trip: at the WGS84 coordinates if both are there, else at the projection of
      the Dutch grid's x and y, in that order. */
  lemma FixPlaces(slot: Option<LiveTrip>, ev: PosEvent, w: World)
    requires ev.kind != End && BringsFix(ev)
    ensures var r := ApplyToSlot(slot, ev, w);
      var at := if ev.lat.Some? && ev.lon.Some? then (ev.lat.value, ev.lon.value) else w.geo.rdToWgs84(ev.rdX.value, ev.rdY.value);
      r.Some? && (at.0.Finite? && at.1.Finite? ==> (r.value.motion.lat, r.value.motion.lon) == at && !r.value.motion.schedulePositioned)
  {
    EventPlaces(slot, ev, w);
    hide Refreshed, BaseTrip, Gtfs.ScheduledPosition;
  }

  /** A trip without a place of its own is anchored by exactly four kinds of event. */
  lemma AnchoringKinds(slot: Option<LiveTrip>, ev: PosEvent, w: World)
    requires ev.kind != End && !BringsFix(ev)
    requires var base := BaseTrip(slot, ev); !base.motion.HasPosition() && !base.motion.schedulePositioned
    ensures var r, station := ApplyToSlot(slot, ev, w), Gtfs.ScheduledPosition(w.store, w.clock, Refreshed(BaseTrip(slot, ev), ev, w));
      && r.Some?
      && (r.value.motion.schedulePositioned <==>
            (ev.kind == Init || ev.kind == Arrival || ev.kind == OnStop || ev.kind == Departure) && station.Some?)
      && (r.value.motion.schedulePositioned ==> Some((r.value.motion.lat, r.value.motion.lon)) == station)
  {
    EventPlaces(slot, ev, w);
    hide Refreshed, BaseTrip, Gtfs.ScheduledPosition;
  }

  // ---------------------------------------------------------------- a train's line

  /** The line code a train's delay curve knows, for the number the trip has after the event. */
  function CurveLine(number: Option<string>, w: World): Option<string> {
    if number.None? || w.delays.None? || number.value !in w.delays.value then None else w.delays.value[number.value].lineCode
  }

  function FirstKnown(a: Option<string>, b: Option<string>, c: Option<string>): Option<string> {
    if a.Some? then a else if b.Some? then b else c
  }

  /** The line of a train it keeps, after an ordinary event: the event's, else the trip's own, else its
      curve's; or, in the event that makes its match, the line code of the candidate matched. */
  lemma TrainLineAfterEvent(t: LiveTrip, ev: PosEvent, w: World)
    requires Ordinary(ev) && !OtherJourney(t.journey.journeyNumber, ev.journeyNumber) && t.key.dataowner == "IFF"
    ensures var r := ApplyToSlot(Some(t), ev, w);
      && r.Some?
      && var number, m := r.value.journey.journeyNumber, r.value.schedule.matchedTripId;
         if m == t.schedule.matchedTripId then
           r.value.journey.linePlanningNumber == FirstKnown(ev.linePlanningNumber, t.journey.linePlanningNumber, CurveLine(number, w))
         else
           && number.Some? && number.value in w.store.trainTrips
           && exists c :: c in w.store.trainTrips[number.value] && m == Some(c.tripId) && r.value.journey.linePlanningNumber == Some(c.lineCode)
  {
    OrdinaryBase(t, ev);
    var u := Updated(t.(status := StopMarked(t.status, ev)), ev, w.geo);
    var d := TrainDelayed(u, w);
    CurveNamesLine(u, w);
    MatchNamesLine(w.store, w.clock, d);
    Gtfs.EnrichmentOnlyAdds(w.store, w.clock, d);
    hide Gtfs.Enriched, UpdatedMotion, UpdatedStatus, Gtfs.ScheduledPosition, MovedTo, BaseTrip, TrainDelayed, CurveLine;
  }

  lemma CurveNamesLine(u: LiveTrip, w: World)
    requires u.key.dataowner == "IFF"
    ensures var d := TrainDelayed(u, w);
      && d.journey.linePlanningNumber == FirstKnown(u.journey.linePlanningNumber, CurveLine(u.journey.journeyNumber, w), None)
      && d.journey.journeyNumber == u.journey.journeyNumber && d.schedule == u.schedule && d.key == u.key
  {}

  lemma MatchNamesLine(store: Gtfs.GtfsStore, clock: Gtfs.Clock, d: LiveTrip)
    requires d.key.dataowner == "IFF"
    ensures var r, number := Gtfs.Enriched(store, clock, d), d.journey.journeyNumber;
      if r.schedule.matchedTripId == d.schedule.matchedTripId then r.journey.linePlanningNumber == d.journey.linePlanningNumber
      else
        && number.Some? && number.value in store.trainTrips
        && exists c :: c in store.trainTrips[number.value] && r.schedule.matchedTripId == Some(c.tripId) && r.journey.linePlanningNumber == Some(c.lineCode)
  {
    if d.schedule.matchedTripId.None? && d.journey.journeyNumber.Some? {
      var fromFeed := if d.journey.operatingDay.Some? then clock.parseDay(d.journey.operatingDay.value) else None;
      Gtfs.TrainResolution(store, d.journey.journeyNumber.value, fromFeed.GetOr(clock.serviceDate(d.status.lastUpdate)));
    }
    hide Gtfs.ResolvedTrain, Gtfs.WithRoute;
  }
}
