/** The schedule store and what it adds to a live trip (crates/gtfs/src/model.rs). */
module Gtfs {
  import opened Collections
  import opened Dates
  import opened Domain
  import Services

  datatype RouteInfo = RouteInfo(routeId: string, agencyId: Option<string>, shortName: string,
                                 vehicleType: VehicleType, color: Option<string>, textColor: Option<string>)

  datatype TripInfo = TripInfo(tripId: string, routeId: string, headsign: string, blockId: Option<string>,
                               serviceId: string, realtimeTripId: Option<string>)

  datatype StopInfo = StopInfo(stopId: string, name: string, lat: Num, lon: Num, locationType: int) {
    /** A boardable quay: neither a station nor a `stoparea:` grouping row. */
    predicate IsQuay() {
      locationType != 1 && !("stoparea:" <= stopId)
    }
  }

  /** Times are seconds since the service day's local midnight and may exceed 86400. */
  datatype StopTime = StopTime(stopId: string, stopSequence: nat, arrival: int, departure: int)

  datatype TrainTrip = TrainTrip(tripId: string, lineCode: string)

  datatype GtfsStore = GtfsStore(
    agencies: map<string, string>,
    routes: map<string, RouteInfo>,
    trips: map<string, TripInfo>,
    stops: map<string, StopInfo>,
    stopTimes: map<string, seq<StopTime>>,
    tripByKey: map<string, string>,
    serviceDates: map<string, seq<nat>>,
    trainTrips: map<string, seq<TrainTrip>>)

  /** The local calendar, as opaque functions: date text, and midnights in Europe/Amsterdam. */
  datatype Clock = Clock(
    parseDay: string -> Option<Date>,
    formatDay: Date -> string,
    serviceDate: Instant -> Date,
    localMidnight: Date -> Option<Instant>)

  const TRAIN_DATAOWNER: string := "IFF"

  // ---------------------------------------------------------------- train numbers

  predicate TripRunsOn(store: GtfsStore, tripId: string, date: nat) {
    tripId in store.trips && Services.Runs(store.serviceDates, store.trips[tripId].serviceId, date)
  }

  /** `c` is the first candidate running on `date`. */
  ghost predicate IsFirstRunning(store: GtfsStore, candidates: seq<TrainTrip>, date: nat, c: TrainTrip) {
    exists i :: (
      && 0 <= i < |candidates| && candidates[i] == c && TripRunsOn(store, c.tripId, date)
      && forall j :: 0 <= j < i ==> !TripRunsOn(store, candidates[j].tripId, date))
  }

  function FirstRunning(store: GtfsStore, candidates: seq<TrainTrip>, date: nat): (r: Option<TrainTrip>)
    ensures r.None? <==> forall c :: c in candidates ==> !TripRunsOn(store, c.tripId, date)
    ensures r.Some? ==> IsFirstRunning(store, candidates, date, r.value)
  {
    if candidates == [] then None
    else if TripRunsOn(store, candidates[0].tripId, date) then Some(candidates[0])
    else
      var r := FirstRunning(store, candidates[1..], date);
      assert r.Some? ==> IsFirstRunning(store, candidates, date, r.value) by {
        if r.Some? {
          var i :| 0 <= i < |candidates[1..]| && candidates[1..][i] == r.value
            && forall j :: 0 <= j < i ==> !TripRunsOn(store, candidates[1..][j].tripId, date);
          assert candidates[i + 1] == r.value;
          forall j | 0 <= j < i + 1 ensures !TripRunsOn(store, candidates[j].tripId, date) {
            if j > 0 { assert candidates[j] == candidates[1..][j - 1]; }
          }
        }
      }
      r
  }

  /** The rail trip running a number on `date`, else on the day before, with the day it runs. */
  function ResolvedTrain(store: GtfsStore, number: string, date: Date): Option<(TrainTrip, Date)> {
    if number !in store.trainTrips then None
    else
      var candidates := store.trainTrips[number];
      match FirstRunning(store, candidates, Ymd(date))
      case Some(c) => Some((c, date))
      case None =>
        match Pred(date)
        case None => None
        case Some(day) =>
          match FirstRunning(store, candidates, Ymd(day))
          case Some(c) => Some((c, day))
          case None => None
  }

  method ResolveTrainTrip(store: GtfsStore, number: string, date: Date) returns (r: Option<(TrainTrip, Date)>)
    ensures r == ResolvedTrain(store, number, date)
  {
    if number !in store.trainTrips {
      return None;
    }
    var candidates := store.trainTrips[number];
    var day := date;
    var k := 0;
    while k < 2
      invariant 0 <= k <= 2
      invariant k == 0 ==> day == date
      invariant k >= 1 ==> FirstRunning(store, candidates, Ymd(date)).None? && Pred(date).Some?
      invariant k == 1 ==> day == Pred(date).value
      invariant k == 2 ==> FirstRunning(store, candidates, Ymd(Pred(date).value)).None?
    {
      var c := FirstRunning(store, candidates, Ymd(day));
      if c.Some? {
        return Some((c.value, day));
      }
      var before := Pred(day);
      if before.None? {
        return None;
      }
      day := before.value;
      k := k + 1;
    }
    r := None;
  }

  ghost predicate RunsNumber(store: GtfsStore, number: string, date: Date) {
    number in store.trainTrips && exists c :: c in store.trainTrips[number] && TripRunsOn(store, c.tripId, Ymd(date))
  }

  /** A number resolves exactly when one of its trips runs on the date or the day before; the
      answer runs on the returned day, and the given date is preferred. */
  lemma TrainResolution(store: GtfsStore, number: string, date: Date)
    ensures var r := ResolvedTrain(store, number, date);
      && (r.Some? <==> RunsNumber(store, number, date) || (Pred(date).Some? && RunsNumber(store, number, Pred(date).value)))
      && (r.Some? ==> r.value.0 in store.trainTrips[number] && TripRunsOn(store, r.value.0.tripId, Ymd(r.value.1)))
      && (r.Some? ==> r.value.1 == if RunsNumber(store, number, date) then date else Pred(date).value)
  {
    if number in store.trainTrips {
      var candidates := store.trainTrips[number];
      var r := FirstRunning(store, candidates, Ymd(date));
      assert RunsNumber(store, number, date) <==> r.Some?;
      if Pred(date).Some? {
        var q := FirstRunning(store, candidates, Ymd(Pred(date).value));
        assert RunsNumber(store, number, Pred(date).value) <==> q.Some?;
      }
    }
  }

  /** A candidate of the number has a service that the calendar schedules on the date. */
  ghost predicate NumberScheduled(store: GtfsStore, calendar: seq<Services.CalendarRow>, exceptions: seq<Services.ExceptionRow>,
                                  number: string, date: Date) {
    number in store.trainTrips && exists c :: (
      && c in store.trainTrips[number] && c.tripId in store.trips
      && Services.Scheduled(calendar, exceptions, store.trips[c.tripId].serviceId, date))
  }

  lemma RunsIfScheduled(store: GtfsStore, calendar: seq<Services.CalendarRow>, exceptions: seq<Services.ExceptionRow>, number: string, date: Date)
    requires Services.Lists(store.serviceDates, calendar, exceptions)
    ensures RunsNumber(store, number, date) <==> NumberScheduled(store, calendar, exceptions, number, date)
  {
    if number in store.trainTrips {
      forall c | c in store.trainTrips[number] && c.tripId in store.trips
        ensures TripRunsOn(store, c.tripId, Ymd(date)) <==> Services.Scheduled(calendar, exceptions, store.trips[c.tripId].serviceId, date)
      {
        assert TripRunsOn(store, c.tripId, Ymd(date))
          <==> store.trips[c.tripId].serviceId in store.serviceDates && Ymd(date) in store.serviceDates[store.trips[c.tripId].serviceId];
      }
      hide Services.Scheduled, Services.Runs;
    }
  }

  /** From the feed's calendar tables to the train: with their dates parsed into the store, a number
      resolves exactly when the calendar schedules one of its trips on the date or the day before, and
      to a day on which it does, the date itself if possible. */
  method ResolveFromTables(feed: GtfsStore, calendar: seq<Services.CalendarRow>, exceptions: seq<Services.ExceptionRow>, number: string, date: Date)
      returns (r: Option<(TrainTrip, Date)>)
    ensures r.Some? <==>
      NumberScheduled(feed, calendar, exceptions, number, date)
      || (Pred(date).Some? && NumberScheduled(feed, calendar, exceptions, number, Pred(date).value))
    ensures r.Some? ==> r.value.1 == if NumberScheduled(feed, calendar, exceptions, number, date) then date else Pred(date).value
    ensures r.Some? ==>
      && r.value.0 in feed.trainTrips[number] && r.value.0.tripId in feed.trips
      && Services.Scheduled(calendar, exceptions, feed.trips[r.value.0.tripId].serviceId, r.value.1)
  {
    var serviceDates := Services.ParseServices(calendar, exceptions);
    var store := feed.(serviceDates := serviceDates);
    r := ResolveTrainTrip(store, number, date);
    TrainResolution(store, number, date);
    RunsIfScheduled(store, calendar, exceptions, number, date);
    if Pred(date).Some? {
      RunsIfScheduled(store, calendar, exceptions, number, Pred(date).value);
    }
    hide ResolvedTrain, RunsNumber, Services.Scheduled;
    assert r.Some? ==> TripRunsOn(store, r.value.0.tripId, Ymd(r.value.1));
  }

  // ---------------------------------------------------------------- enrichment

  function RealtimeTripId(dataowner: string, line: string, journey: string): string {
    dataowner + ":" + line + ":" + journey
  }

  /** Match a trip that has no GTFS trip yet; trains by number and day, others by realtime id. */
  function Matched(store: GtfsStore, clock: Clock, t: LiveTrip): LiveTrip {
    var j := t.journey;
    if t.schedule.matchedTripId.Some? || j.journeyNumber.None? then t
    else if t.key.dataowner == TRAIN_DATAOWNER then
      var fromFeed := if j.operatingDay.Some? then clock.parseDay(j.operatingDay.value) else None;
      match ResolvedTrain(store, j.journeyNumber.value, fromFeed.GetOr(clock.serviceDate(t.status.lastUpdate)))
      case None => t
      case Some((c, day)) =>
        t.(journey := j.(linePlanningNumber := Some(c.lineCode),
                         operatingDay := Some(j.operatingDay.GetOr(clock.formatDay(day)))),
           schedule := t.schedule.(linePublicNumber := Some(t.schedule.linePublicNumber.GetOr(c.lineCode)),
                                   matchedTripId := Some(c.tripId)))
    else if j.linePlanningNumber.None? then t
    else
      var id := RealtimeTripId(t.key.dataowner, j.linePlanningNumber.value, j.journeyNumber.value);
      t.(schedule := t.schedule.(matchedTripId := Lookup(store.tripByKey, id)))
  }

  /** The route's share of the schedule fields, each only where still unknown. */
  function WithRoute(store: GtfsStore, r: RouteInfo, s: Schedule): Schedule {
    Schedule(
      if s.vehicleType == Unknown then r.vehicleType else s.vehicleType,
      if s.operatorName.Some? then s.operatorName
      else if r.agencyId.None? then None else Lookup(store.agencies, r.agencyId.value),
      if s.agencyId.None? then r.agencyId else s.agencyId,
      if s.linePublicNumber.None? && r.shortName != "" then Some(r.shortName) else s.linePublicNumber,
      s.destination,
      s.matchedTripId,
      if s.lineColor.None? then r.color else s.lineColor,
      if s.lineColor.None? then r.textColor else s.lineTextColor)
  }

  /** Fill each schedule-derived field that is still unknown, from the matched trip. */
  function Described(store: GtfsStore, t: LiveTrip): LiveTrip {
    if t.schedule.matchedTripId.None? || t.schedule.matchedTripId.value !in store.trips then t
    else
      var info := store.trips[t.schedule.matchedTripId.value];
      var s := t.schedule.(destination := if t.schedule.destination.None? && info.headsign != "" then Some(info.headsign)
                                          else t.schedule.destination);
      t.(journey := t.journey.(blockCode := if t.journey.blockCode.None? then info.blockId else t.journey.blockCode),
         schedule := if info.routeId in store.routes then WithRoute(store, store.routes[info.routeId], s) else s)
  }

  /** `enrich_trip`. */
  function Enriched(store: GtfsStore, clock: Clock, trip: LiveTrip): LiveTrip {
    Described(store, Matched(store, clock, trip))
  }

  method EnrichTrip(store: GtfsStore, clock: Clock, trip: LiveTrip) returns (t: LiveTrip)
    ensures t == Enriched(store, clock, trip)
  {
    t := Matched(store, clock, trip);
    if t.schedule.matchedTripId.Some? && t.schedule.matchedTripId.value in store.trips {
      var info := store.trips[t.schedule.matchedTripId.value];
      var j, s := t.journey, t.schedule;
      if s.destination.None? && info.headsign != "" {
        s := s.(destination := Some(info.headsign));
      }
      if j.blockCode.None? {
        j := j.(blockCode := info.blockId);
      }
      if info.routeId in store.routes {
        s := FillRoute(store, store.routes[info.routeId], s);
      }
      t := t.(journey := j, schedule := s);
    }
  }

  method FillRoute(store: GtfsStore, r: RouteInfo, schedule: Schedule) returns (s: Schedule)
    ensures s == WithRoute(store, r, schedule)
  {
    s := schedule;
    if s.linePublicNumber.None? && r.shortName != "" {
      s := s.(linePublicNumber := Some(r.shortName));
    }
    if s.vehicleType == Unknown {
      s := s.(vehicleType := r.vehicleType);
    }
    if s.operatorName.None? {
      s := s.(operatorName := if r.agencyId.None? then None else Lookup(store.agencies, r.agencyId.value));
    }
    if s.agencyId.None? {
      s := s.(agencyId := r.agencyId);
    }
    if s.lineColor.None? {
      s := s.(lineColor := r.color, lineTextColor := r.textColor);
    }
  }

  ghost predicate Kept<T>(before: Option<T>, after: Option<T>) {
    before.Some? ==> after == before
  }

  /** `e` says about the vehicle what `t` says: observations are equal and known schedule facts
      survive. Only matching a train may replace its line code. */
  ghost predicate OnlyAdds(t: LiveTrip, e: LiveTrip) {
    && e.id == t.id && e.key == t.key && e.motion == t.motion && e.status == t.status
    && e.journey.journeyNumber == t.journey.journeyNumber
    && Kept(t.journey.operatingDay, e.journey.operatingDay) && Kept(t.journey.blockCode, e.journey.blockCode)
    && (e.journey.linePlanningNumber == t.journey.linePlanningNumber
        || (t.key.dataowner == TRAIN_DATAOWNER && t.schedule.matchedTripId.None?))
    && (t.schedule.vehicleType != Unknown ==> e.schedule.vehicleType == t.schedule.vehicleType)
    && Kept(t.schedule.operatorName, e.schedule.operatorName) && Kept(t.schedule.agencyId, e.schedule.agencyId)
    && Kept(t.schedule.linePublicNumber, e.schedule.linePublicNumber)
    && Kept(t.schedule.destination, e.schedule.destination)
    && Kept(t.schedule.matchedTripId, e.schedule.matchedTripId) && Kept(t.schedule.lineColor, e.schedule.lineColor)
  }

  lemma MatchingOnlyAdds(store: GtfsStore, clock: Clock, t: LiveTrip)
    ensures OnlyAdds(t, Matched(store, clock, t))
    ensures Matched(store, clock, t).schedule.matchedTripId.None? ==> Matched(store, clock, t) == t
  {}

  lemma DescribingOnlyAdds(store: GtfsStore, t: LiveTrip)
    ensures OnlyAdds(t, Described(store, t))
    ensures Described(store, t).journey.linePlanningNumber == t.journey.linePlanningNumber
    ensures Described(store, t).schedule.matchedTripId == t.schedule.matchedTripId
    ensures Described(store, Described(store, t)) == Described(store, t)
  {
    if t.schedule.matchedTripId.Some? && t.schedule.matchedTripId.value in store.trips {
      var info := store.trips[t.schedule.matchedTripId.value];
      if info.routeId in store.routes {
        RouteFillsOnce(store, store.routes[info.routeId], t.schedule);
      }
    }
  }

  lemma RouteFillsOnce(store: GtfsStore, r: RouteInfo, s: Schedule)
    ensures forall d :: WithRoute(store, r, WithRoute(store, r, s.(destination := d))) == WithRoute(store, r, s.(destination := d))
  {
    forall d ensures WithRoute(store, r, WithRoute(store, r, s.(destination := d))) == WithRoute(store, r, s.(destination := d)) {
      var a := WithRoute(store, r, s.(destination := d));
      var b := WithRoute(store, r, a);
      assert b.operatorName == a.operatorName && b.lineTextColor == a.lineTextColor;
    }
  }

  /** Only trains get their line and day from the schedule. */
  lemma OnlyTrainsAreRenamed(store: GtfsStore, clock: Clock, t: LiveTrip)
    requires t.key.dataowner != TRAIN_DATAOWNER
    ensures var j := Enriched(store, clock, t).journey;
      j.linePlanningNumber == t.journey.linePlanningNumber && j.operatingDay == t.journey.operatingDay
  {}

  /** Enrichment only ever adds, and enriching again against the same feed changes nothing. */
  lemma EnrichmentOnlyAdds(store: GtfsStore, clock: Clock, t: LiveTrip)
    ensures OnlyAdds(t, Enriched(store, clock, t))
    ensures Enriched(store, clock, Enriched(store, clock, t)) == Enriched(store, clock, t)
  {
    var m := Matched(store, clock, t);
    MatchingOnlyAdds(store, clock, t);
    DescribingOnlyAdds(store, m);
    if m.schedule.matchedTripId.None? {
      assert Described(store, m) == m;
    } else {
      assert Matched(store, clock, Described(store, m)) == Described(store, m);
    }
  }

  // ---------------------------------------------------------------- schedule anchoring

  const ANCHOR_TOLERANCE: int := 90

  function Abs(x: int): nat {
    if x < 0 then -x else x
  }

  function Residual(st: StopTime, target: int): nat {
    var a, d := Abs(st.arrival - target), Abs(st.departure - target);
    if d < a then d else a
  }

  /** The first of the first `n` calls whose residual is smallest. */
  function BestCall(times: seq<StopTime>, target: int, n: nat): (k: nat)
    requires 0 < n <= |times|
    ensures k < n
  {
    if n == 1 then 0
    else
      var b := BestCall(times, target, n - 1);
      if Residual(times[n - 1], target) < Residual(times[b], target) then n - 1 else b
  }

  lemma {:induction false} BestCallIsFirstMinimum(times: seq<StopTime>, target: int, n: nat)
    requires 0 < n <= |times|
    ensures var k := BestCall(times, target, n);
      && (forall j :: 0 <= j < k ==> Residual(times[j], target) > Residual(times[k], target))
      && (forall j :: 0 <= j < n ==> Residual(times[j], target) >= Residual(times[k], target))
  {
    if n > 1 {
      BestCallIsFirstMinimum(times, target, n - 1);
    }
  }

  /** Seconds since the operating day's midnight, corrected for the known delay. */
  function AnchorTarget(clock: Clock, trip: LiveTrip): Option<int> {
    if trip.journey.operatingDay.None? then None
    else
      match clock.parseDay(trip.journey.operatingDay.value)
      case None => None
      case Some(day) =>
        match clock.localMidnight(day)
        case None => None
        case Some(midnight) =>
          var now := WholeSeconds(trip.status.lastUpdate - midnight);
          Some(if trip.status.delayKnown then now - trip.status.delaySeconds else now)
  }

  function CallsOf(store: GtfsStore, trip: LiveTrip): Option<seq<StopTime>> {
    if trip.schedule.matchedTripId.None? then None else Lookup(store.stopTimes, trip.schedule.matchedTripId.value)
  }

  /** Where a trip without a fix of its own should be by now: at the stop of the call nearest its
      delay-corrected clock, if near enough. */
  function ScheduledPosition(store: GtfsStore, clock: Clock, trip: LiveTrip): Option<(Num, Num)> {
    var calls, target := CallsOf(store, trip), AnchorTarget(clock, trip);
    if calls.None? || target.None? || calls.value == [] then None
    else
      var st := calls.value[BestCall(calls.value, target.value, |calls.value|)];
      if Residual(st, target.value) > ANCHOR_TOLERANCE || st.stopId !in store.stops then None
      else Some((store.stops[st.stopId].lat, store.stops[st.stopId].lon))
  }

  method FindScheduledPosition(store: GtfsStore, clock: Clock, trip: LiveTrip) returns (r: Option<(Num, Num)>)
    ensures r == ScheduledPosition(store, clock, trip)
  {
    var calls, goal := CallsOf(store, trip), AnchorTarget(clock, trip);
    if calls.None? || goal.None? {
      return None;
    }
    var times, target := calls.value, goal.value;
    var best: Option<(nat, StopTime)> := None;
    for i := 0 to |times|
      invariant i == 0 ==> best.None?
      invariant i > 0 ==> var k := BestCall(times, target, i); best == Some((Residual(times[k], target), times[k]))
    {
      var d := Residual(times[i], target);
      if best.None? || d < best.value.0 {
        best := Some((d, times[i]));
      }
    }
    if best.None? || best.value.0 > ANCHOR_TOLERANCE || best.value.1.stopId !in store.stops {
      return None;
    }
    var s := store.stops[best.value.1.stopId];
    r := Some((s.lat, s.lon));
  }

  /** A named station is where the trip's first residual-minimising call is, at most 90 s off;
      no station is named only when there is nothing to match or no call comes that close. */
  lemma AnchorNamesNearestCall(store: GtfsStore, clock: Clock, trip: LiveTrip)
    ensures var r, calls, target := ScheduledPosition(store, clock, trip), CallsOf(store, trip), AnchorTarget(clock, trip);
      && (r.Some? ==> calls.Some? && target.Some? && NearestCallAt(store, calls.value, target.value, r.value))
      && (r.None? && calls.Some? && target.Some? ==> NoCallClose(store, calls.value, target.value))
  {
    var calls, target := CallsOf(store, trip), AnchorTarget(clock, trip);
    if calls.Some? && target.Some? && calls.value != [] {
      BestCallIsFirstMinimum(calls.value, target.value, |calls.value|);
      var k := BestCall(calls.value, target.value, |calls.value|);
      assert calls.value[k] in calls.value;
      if ScheduledPosition(store, clock, trip).Some? {
        assert IsNearest(calls.value, target.value, k);
      }
    }
  }

  ghost predicate IsNearest(calls: seq<StopTime>, target: int, k: nat) {
    && k < |calls|
    && (forall j :: 0 <= j < k ==> Residual(calls[j], target) > Residual(calls[k], target))
    && (forall j :: 0 <= j < |calls| ==> Residual(calls[j], target) >= Residual(calls[k], target))
  }

  ghost predicate NearestCallAt(store: GtfsStore, calls: seq<StopTime>, target: int, position: (Num, Num)) {
    exists k: nat :: (
      && IsNearest(calls, target, k) && Residual(calls[k], target) <= 90
      && calls[k].stopId in store.stops
      && position == (store.stops[calls[k].stopId].lat, store.stops[calls[k].stopId].lon))
  }

  ghost predicate NoCallClose(store: GtfsStore, calls: seq<StopTime>, target: int) {
    || (forall st :: st in calls ==> Residual(st, target) > 90)
    || (exists k: nat :: IsNearest(calls, target, k) && calls[k].stopId !in store.stops)
  }
}
