/** What enrichment and the schedule anchor read from the feed, column by column
    (crates/gtfs/src/model.rs). */
module Enrichment {
  import opened Collections
  import opened Dates
  import opened Domain
  import opened Gtfs
  import opened LiveState

  // ---------------------------------------------------------------- the match

  predicate Unmatched(t: LiveTrip) {
    t.schedule.matchedTripId.None?
  }

  /** Anything but a train is matched to the trip the feed files under owner, line and journey, in that
      order, and to none if it lacks line or journey or the feed files none. */
  lemma BusIsMatchedByRealtimeId(store: GtfsStore, clock: Clock, t: LiveTrip)
    requires t.key.dataowner != "IFF" && Unmatched(t)
    ensures var j, r := t.journey, Enriched(store, clock, t).schedule.matchedTripId;
      && (j.linePlanningNumber.None? || j.journeyNumber.None? ==> r.None?)
      && (j.linePlanningNumber.Some? && j.journeyNumber.Some? ==>
            var filed := t.key.dataowner + ":" + j.linePlanningNumber.value + ":" + j.journeyNumber.value;
            r == if filed in store.tripByKey then Some(store.tripByKey[filed]) else None)
  {
    DescribingLeavesMatch(store, Matched(store, clock, t));
    hide Described;
  }

  /** The day a train is looked up on: the one it names if readable, else that of its last fix. */
  function LookupDay(clock: Clock, t: LiveTrip): Date {
    var named := if t.journey.operatingDay.Some? then clock.parseDay(t.journey.operatingDay.value) else None;
    if named.Some? then named.value else clock.serviceDate(t.status.lastUpdate)
  }

  /** A candidate of the number runs on the day. */
  predicate Candidate(store: GtfsStore, number: string, c: TrainTrip, day: Date) {
    && number in store.trainTrips && c in store.trainTrips[number] && c.tripId in store.trips
    && store.trips[c.tripId].serviceId in store.serviceDates
    && Ymd(day) in store.serviceDates[store.trips[c.tripId].serviceId]
  }

  /** A train is matched to a candidate of its number that runs on the looked-up day, else on the day
      before, and to none if neither has one; the match gives its line code, and the day and public line
      where those are still unknown. */
  lemma TrainIsMatchedByNumber(store: GtfsStore, clock: Clock, t: LiveTrip)
    requires t.key.dataowner == "IFF" && Unmatched(t) && t.journey.journeyNumber.Some?
    ensures var number, date, r := t.journey.journeyNumber.value, LookupDay(clock, t), Enriched(store, clock, t);
      var today := exists c :: Candidate(store, number, c, date);
      var before := Pred(date).Some? && exists c :: Candidate(store, number, c, Pred(date).value);
      && (r.schedule.matchedTripId.Some? <==> today || before)
      && (today || before ==>
            var day := if today then date else Pred(date).value;
            exists c :: (
              && Candidate(store, number, c, day)
              && r.schedule.matchedTripId == Some(c.tripId) && r.journey.linePlanningNumber == Some(c.lineCode)
              && r.journey.operatingDay == (if t.journey.operatingDay.Some? then t.journey.operatingDay else Some(clock.formatDay(day)))
              && r.schedule.linePublicNumber == if t.schedule.linePublicNumber.Some? then t.schedule.linePublicNumber else Some(c.lineCode)))
  {
    var number, date := t.journey.journeyNumber.value, LookupDay(clock, t);
    TrainResolution(store, number, date);
    CandidatesRun(store, number, date);
    if Pred(date).Some? {
      CandidatesRun(store, number, Pred(date).value);
    }
    var found := ResolvedTrain(store, number, date);
    var m := Matched(store, clock, t);
    DescribingLeavesMatch(store, m);
    hide ResolvedTrain, Described, RunsNumber;
    if found.Some? {
      var (c, day) := found.value;
      assert Candidate(store, number, c, day);
    }
  }

  lemma CandidatesRun(store: GtfsStore, number: string, date: Date)
    ensures RunsNumber(store, number, date) <==> exists c :: Candidate(store, number, c, date)
    ensures forall c :: Candidate(store, number, c, date) <==> number in store.trainTrips && c in store.trainTrips[number] && TripRunsOn(store, c.tripId, Ymd(date))
  {
    if RunsNumber(store, number, date) {
      var c :| c in store.trainTrips[number] && TripRunsOn(store, c.tripId, Ymd(date));
      assert Candidate(store, number, c, date);
    }
  }

  lemma DescribingLeavesMatch(store: GtfsStore, m: LiveTrip)
    ensures var d := Described(store, m);
      && d.schedule.matchedTripId == m.schedule.matchedTripId
      && d.journey.linePlanningNumber == m.journey.linePlanningNumber && d.journey.operatingDay == m.journey.operatingDay
      && (m.schedule.linePublicNumber.Some? ==> d.schedule.linePublicNumber == m.schedule.linePublicNumber)
  {}

  // ---------------------------------------------------------------- the columns

  function Non(text: string): Option<string> {
    if text == "" then None else Some(text)
  }

  function Or<T>(first: Option<T>, second: Option<T>): Option<T> {
    if first.Some? then first else second
  }

  /** The field stays if it was known, and otherwise holds the feed's column. */
  predicate FilledFrom<T(==)>(before: Option<T>, column: Option<T>, after: Option<T>) {
    after == Or(before, column)
  }

  /** With a matched trip in the feed each field still empty holds its column: headsign and block of the
      trip; mode, short name and colours of its route (a train just matched has its public line from the
      match); the operator is the name of the route's agency. */
  lemma EmptyFieldsAreFilled(store: GtfsStore, clock: Clock, t: LiveTrip)
    requires var id := Enriched(store, clock, t).schedule.matchedTripId; id.Some? && id.value in store.trips
    ensures var r := Enriched(store, clock, t); var trip := store.trips[r.schedule.matchedTripId.value];
      var s := t.schedule;
      && FilledFrom(s.destination, Non(trip.headsign), r.schedule.destination)
      && FilledFrom(t.journey.blockCode, trip.blockId, r.journey.blockCode)
      && (trip.routeId in store.routes ==>
            var route := store.routes[trip.routeId];
            && r.schedule.vehicleType == (if s.vehicleType != Unknown then s.vehicleType else route.vehicleType)
            && FilledFrom(s.agencyId, route.agencyId, r.schedule.agencyId)
            && FilledFrom(s.operatorName,
                          if route.agencyId.Some? && route.agencyId.value in store.agencies then Some(store.agencies[route.agencyId.value]) else None,
                          r.schedule.operatorName)
            && (t.key.dataowner != "IFF" || !Unmatched(t) ==> FilledFrom(s.linePublicNumber, Non(route.shortName), r.schedule.linePublicNumber))
            && r.schedule.lineColor == (if s.lineColor.Some? then s.lineColor else route.color)
            && r.schedule.lineTextColor == (if s.lineColor.Some? then s.lineTextColor else route.textColor))
  {
    MatchLeavesSchedule(store, clock, t);
    hide Matched;
  }

  // Matching touches of the schedule only the match and a train's public line.
  lemma MatchLeavesSchedule(store: GtfsStore, clock: Clock, t: LiveTrip)
    ensures var m := Matched(store, clock, t);
      && m.schedule == t.schedule.(matchedTripId := m.schedule.matchedTripId, linePublicNumber := m.schedule.linePublicNumber)
      && m.journey.blockCode == t.journey.blockCode
      && (t.key.dataowner != "IFF" || !Unmatched(t) ==> m.schedule.linePublicNumber == t.schedule.linePublicNumber)
  {
    hide ResolvedTrain;
  }

  // ---------------------------------------------------------------- after every event

  /** Whenever a trip is left without a public line, the feed of that moment has nothing more to add to
      it; after INIT it never has. */
  lemma NothingLeftToAdd(slot: Option<LiveTrip>, ev: PosEvent, w: World)
    requires ev.kind != End
    ensures var r := ApplyToSlot(slot, ev, w);
      && r.Some? && (r.value.schedule.linePublicNumber.None? || ev.kind == Init ==> Enriched(w.store, w.clock, r.value) == r.value)
  {
    var base := BaseTrip(slot, ev);
    var d := TrainDelayed(Updated(base.(status := StopMarked(base.status, ev)), ev, w.geo), w);
    EnrichmentOnlyAdds(w.store, w.clock, d);
    var mid := Refreshed(base, ev, w);
    assert mid.schedule.linePublicNumber.None? || ev.kind == Init ==> Enriched(w.store, w.clock, mid) == mid;
    var r := Anchored(mid, ev, w);
    assert r == mid.(motion := r.motion);
    MotionIsNotRead(w.store, w.clock, mid, r.motion);
    hide Enriched, Refreshed, BaseTrip;
  }

  lemma MotionIsNotRead(store: GtfsStore, clock: Clock, t: LiveTrip, m: Motion)
    ensures Enriched(store, clock, t.(motion := m)) == Enriched(store, clock, t).(motion := m)
  {
    hide ResolvedTrain, WithRoute;
  }

  // ---------------------------------------------------------------- the anchor

  /** How far a call is from a moment: the nearer of its arrival and departure. */
  function Distance(a: int, b: int): int {
    if a <= b then b - a else a - b
  }

  /** Seconds between a call and the time it would be on an undelayed clock. */
  function Off(st: StopTime, at: int): int {
    if Distance(st.arrival, at) <= Distance(st.departure, at) then Distance(st.arrival, at) else Distance(st.departure, at)
  }

  /** A trip with a match, a readable day and its midnight is anchored at the stop of the first call
      nearest `late` seconds before the fix, `late` being its delay if known: exactly when that call is
      at most 90 seconds off and its stop is in the feed. */
  lemma AnchoredAtNearestCall(store: GtfsStore, clock: Clock, t: LiveTrip, day: Date, midnight: Instant, k: nat)
    requires t.schedule.matchedTripId.Some? && t.schedule.matchedTripId.value in store.stopTimes
    requires t.journey.operatingDay.Some? && clock.parseDay(t.journey.operatingDay.value) == Some(day)
    requires clock.localMidnight(day) == Some(midnight)
    requires var calls := store.stopTimes[t.schedule.matchedTripId.value];
      var at := WholeSeconds(t.status.lastUpdate - midnight) - (if t.status.delayKnown then t.status.delaySeconds else 0);
      && k < |calls|
      && (forall j :: 0 <= j < k ==> Off(calls[j], at) > Off(calls[k], at))
      && (forall j :: 0 <= j < |calls| ==> Off(calls[j], at) >= Off(calls[k], at))
    ensures var calls := store.stopTimes[t.schedule.matchedTripId.value];
      var at := WholeSeconds(t.status.lastUpdate - midnight) - (if t.status.delayKnown then t.status.delaySeconds else 0);
      ScheduledPosition(store, clock, t) ==
        if Off(calls[k], at) <= 90 && calls[k].stopId in store.stops
        then Some((store.stops[calls[k].stopId].lat, store.stops[calls[k].stopId].lon))
        else None
  {
    var calls := store.stopTimes[t.schedule.matchedTripId.value];
    var at := WholeSeconds(t.status.lastUpdate - midnight) - (if t.status.delayKnown then t.status.delaySeconds else 0);
    assert CallsOf(store, t) == Some(calls) && AnchorTarget(clock, t) == Some(at);
    NearestIsBest(calls, at, k);
    ResidualIsOff(calls[k], at);
    hide Residual, Off, BestCall, AnchorTarget, CallsOf;
  }

  lemma ResidualIsOff(st: StopTime, at: int)
    ensures Residual(st, at) == Off(st, at)
  {}

  // The first call least off is the one the scan keeps.
  lemma NearestIsBest(calls: seq<StopTime>, at: int, k: nat)
    requires k < |calls|
    requires forall j :: 0 <= j < k ==> Off(calls[j], at) > Off(calls[k], at)
    requires forall j :: 0 <= j < |calls| ==> Off(calls[j], at) >= Off(calls[k], at)
    ensures BestCall(calls, at, |calls|) == k
  {
    hide Residual, Off, BestCall;
    var b := BestCall(calls, at, |calls|);
    BestCallIsFirstMinimum(calls, at, |calls|);
    forall j | 0 <= j < |calls| ensures Residual(calls[j], at) == Off(calls[j], at) {
      ResidualIsOff(calls[j], at);
    }
    assert Off(calls[b], at) <= Off(calls[k], at);
  }

  /** Without a match, its calls, a readable day or that day's midnight there is no anchor. */
  lemma NoAnchorWithoutSchedule(store: GtfsStore, clock: Clock, t: LiveTrip)
    requires || t.schedule.matchedTripId.None? || t.schedule.matchedTripId.value !in store.stopTimes
             || store.stopTimes[t.schedule.matchedTripId.value] == []
             || t.journey.operatingDay.None? || clock.parseDay(t.journey.operatingDay.value).None?
             || clock.localMidnight(clock.parseDay(t.journey.operatingDay.value).value).None?
    ensures ScheduledPosition(store, clock, t).None?
  {}
}
