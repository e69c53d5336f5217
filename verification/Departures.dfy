/** The day-scoped departure board: calls per stop for today's trips and for yesterday's
    after-midnight ones (crates/gtfs/src/stops.rs, crates/api/src/rest.rs). */
module DepartureBoard {
  import opened Collections
  import opened Dates
  import opened Domain
  import opened Gtfs

  const DAY_SECS: int := 86_400
  const CUT: int := -21_600

  // ---------------------------------------------------------------- what a board should hold

  /** One scheduled call, in seconds from today's local midnight. */
  datatype Sched = Sched(tripId: string, arrival: int, departure: int, sequence: nat, today: bool)

  /** When a trip runs, seen from `date`: today, or yesterday shifted a day back. A trip running
      on both dates is only taken today. */
  function Shift(store: GtfsStore, date: Date, t: TripInfo): Option<int> {
    if TripDay(store, t, date) then Some(0)
    else if Pred(date).Some? && TripDay(store, t, Pred(date).value) then Some(-DAY_SECS)
    else None
  }

  predicate TripDay(store: GtfsStore, t: TripInfo, day: Date) {
    Services.Runs(store.serviceDates, t.serviceId, Ymd(day))
  }

  function Scheduled(tripId: string, st: StopTime, shift: int): Sched {
    Sched(tripId, st.arrival + shift, st.departure + shift, st.stopSequence, shift == 0)
  }

  /** The rows of one trip that call at `stop`. */
  ghost function Rows(times: seq<StopTime>, tripId: string, shift: int, stop: string): multiset<Sched> {
    if times == [] then multiset{}
    else
      var last := times[|times| - 1];
      Rows(times[..|times| - 1], tripId, shift, stop)
        + if last.stopId == stop then multiset{Scheduled(tripId, last, shift)} else multiset{}
  }

  ghost function TripCalls(store: GtfsStore, date: Date, tripId: string, stop: string): multiset<Sched> {
    if tripId !in store.trips || tripId !in store.stopTimes then multiset{}
    else
      match Shift(store, date, store.trips[tripId])
      case None => multiset{}
      case Some(shift) => Rows(store.stopTimes[tripId], tripId, shift, stop)
  }

  /** Scanning the whole feed: every call at `stop` of the trips in `ids`. */
  ghost function Pool(store: GtfsStore, date: Date, ids: set<string>, stop: string): multiset<Sched> {
    if ids == {} then multiset{}
    else
      var id :| id in ids;
      Pool(store, date, ids - {id}, stop) + TripCalls(store, date, id, stop)
  }

  lemma {:induction false} PoolSplit(store: GtfsStore, date: Date, ids: set<string>, id: string, stop: string)
    requires id in ids
    ensures Pool(store, date, ids, stop) == Pool(store, date, ids - {id}, stop) + TripCalls(store, date, id, stop)
  {
    var first :| first in ids && Pool(store, date, ids, stop) == Pool(store, date, ids - {first}, stop) + TripCalls(store, date, first, stop);
    if first != id {
      PoolSplit(store, date, ids - {first}, id, stop);
      PoolSplit(store, date, ids - {id}, first, stop);
      assert ids - {first} - {id} == ids - {id} - {first};
    }
  }

  ghost function AllCalls(store: GtfsStore, date: Date, stop: string): multiset<Sched> {
    Pool(store, date, store.trips.Keys, stop)
  }

  /** A carried-over call this far before midnight is not worth keeping. */
  predicate Kept(c: Sched) {
    c.today || c.departure >= -21_600
  }

  // ---------------------------------------------------------------- the board

  datatype DayTrip = DayTrip(tripId: string, rtId: Option<string>)
  datatype Call = Call(trip: nat, arrival: int, departure: int, sequence: nat, today: bool)
  datatype Board = Board(dayTrips: seq<DayTrip>, calls: map<string, seq<Call>>)

  function At(calls: map<string, seq<Call>>, stop: string): seq<Call> {
    if stop in calls then calls[stop] else []
  }

  function Resolved(dayTrips: seq<DayTrip>, c: Call): Sched {
    Sched(if c.trip < |dayTrips| then dayTrips[c.trip].tripId else "", c.arrival, c.departure, c.sequence, c.today)
  }

  function ResolvedAll(dayTrips: seq<DayTrip>, cs: seq<Call>): seq<Sched> {
    Map(cs, c => Resolved(dayTrips, c))
  }

  /** What a stop's list says, in any order. */
  ghost function View(dayTrips: seq<DayTrip>, calls: map<string, seq<Call>>, stop: string): multiset<Sched> {
    multiset(ResolvedAll(dayTrips, At(calls, stop)))
  }

  ghost predicate FiledTrips(store: GtfsStore) {
    forall id :: id in store.trips ==> store.trips[id].tripId == id
  }

  ghost predicate SlotsValid(dayTrips: seq<DayTrip>, calls: map<string, seq<Call>>) {
    forall stop, c :: stop in calls && c in calls[stop] ==> c.trip < |dayTrips|
  }

  ghost predicate TripsKnown(dayTrips: seq<DayTrip>, store: GtfsStore) {
    forall d :: d in dayTrips ==> d.tripId in store.trips && d.rtId == store.trips[d.tripId].realtimeTripId
  }

  predicate NoLater(a: Sched, b: Sched) {
    a.departure <= b.departure
  }

  /** Each stop's list holds exactly its kept calls. */
  ghost predicate Holds(b: Board, store: GtfsStore, date: Date, ids: set<string>) {
    && SlotsValid(b.dayTrips, b.calls) && TripsKnown(b.dayTrips, store)
    && forall stop :: HoldsAt(b, store, date, ids, stop)
  }

  ghost predicate HoldsAt(b: Board, store: GtfsStore, date: Date, ids: set<string>, stop: string) {
    View(b.dayTrips, b.calls, stop) == Where(Pool(store, date, ids, stop), Kept)
  }

  ghost predicate BoardOk(b: Board, store: GtfsStore, date: Date) {
    && Holds(b, store, date, store.trips.Keys)
    && forall stop :: Sorted(At(b.calls, stop), EarlierCall)
  }

  predicate EarlierCall(a: Call, b: Call) {
    a.departure <= b.departure
  }

  /** `build_board`, over the trips in any order. */
  method BuildBoard(store: GtfsStore, date: Date) returns (b: Board)
    requires FiledTrips(store)
    ensures BoardOk(b, store, date)
  {
    b := Board([], map[]);
    var todo := store.trips.Keys;
    ghost var done := {};
    assert forall stop :: HoldsAt(b, store, date, {}, stop);
    while todo != {}
      invariant done !! todo && done + todo == store.trips.Keys
      invariant Holds(b, store, date, done)
      decreases todo
    {
      var id :| id in todo;
      b := AddTrip(b, store, date, id, done);
      todo := todo - {id};
      done := done + {id};
    }
    assert done == store.trips.Keys;
    var calls := SortEach(b.calls);
    StillHolds(b, calls, store, date, done);
    b := Board(b.dayTrips, calls);
  }

  // Reordering each list keeps what the board holds.
  lemma StillHolds(b: Board, calls: map<string, seq<Call>>, store: GtfsStore, date: Date, ids: set<string>)
    requires Holds(b, store, date, ids)
    requires forall stop :: multiset(At(calls, stop)) == multiset(At(b.calls, stop))
    ensures Holds(Board(b.dayTrips, calls), store, date, ids)
  {
    forall stop, c | stop in calls && c in calls[stop] ensures c.trip < |b.dayTrips| {
      assert calls[stop] == At(calls, stop) && c in multiset(At(calls, stop)) && c in multiset(At(b.calls, stop));
    }
    forall stop ensures HoldsAt(Board(b.dayTrips, calls), store, date, ids, stop) {
      assert HoldsAt(b, store, date, ids, stop);
      MapMultiset(At(calls, stop), At(b.calls, stop), c => Resolved(b.dayTrips, c));
    }
  }

  lemma {:induction false} MapMultiset<A, B>(s: seq<A>, t: seq<A>, f: A -> B)
    requires multiset(s) == multiset(t)
    ensures multiset(Map(s, f)) == multiset(Map(t, f))
  {
    if s == [] {
      assert |t| == |multiset(t)| == 0;
    } else {
      var x := s[0];
      assert s == [] + [x] + s[1..];
      assert x in multiset(t);
      var i :| 0 <= i < |t| && t[i] == x;
      var a, b := t[..i], t[i + 1..];
      assert t == a + [x] + b;
      TakeOut([], x, s[1..]);
      TakeOut(a, x, b);
      SameRest(multiset([] + s[1..]), multiset(a + b), x);
      assert [] + s[1..] == s[1..];
      MapMultiset(s[1..], a + b, f);
      MapOne([], x, s[1..], f);
      MapOne(a, x, b, f);
    }
  }

  lemma MapOne<A, B>(s: seq<A>, x: A, t: seq<A>, f: A -> B)
    ensures multiset(Map(s + [x] + t, f)) == multiset(Map(s + t, f)) + multiset{f(x)}
  {
    MapAppend(s, t, f);
    assert Map(s + [x] + t, f) == Map(s, f) + [f(x)] + Map(t, f);
  }

  method SortEach(calls: map<string, seq<Call>>) returns (r: map<string, seq<Call>>)
    ensures forall stop :: multiset(At(r, stop)) == multiset(At(calls, stop)) && Sorted(At(r, stop), EarlierCall)
  {
    r := map[];
    var todo := calls.Keys;
    while todo != {}
      invariant todo <= calls.Keys && r.Keys == calls.Keys - todo
      invariant forall stop :: stop in r ==> multiset(r[stop]) == multiset(calls[stop]) && Sorted(r[stop], EarlierCall)
      decreases todo
    {
      var stop :| stop in todo;
      var sorted := SortUnstable(calls[stop], EarlierCall);
      r := r[stop := sorted];
      todo := todo - {stop};
    }
  }

  /** One trip's turn in `build_board`. */
  method AddTrip(b: Board, store: GtfsStore, date: Date, id: string, ghost done: set<string>) returns (r: Board)
    requires FiledTrips(store) && id in store.trips && id !in done
    requires Holds(b, store, date, done)
    ensures Holds(r, store, date, done + {id})
  {
    var trip := store.trips[id];
    var shift := Shift(store, date, trip);
    if shift.None? || id !in store.stopTimes {
      NoCalls(b, store, date, done, id);
      return b;
    }
    var dayTrips := b.dayTrips + [DayTrip(trip.tripId, trip.realtimeTripId)];
    var calls := AddRows(b.calls, b.dayTrips, dayTrips, store.stopTimes[id], shift.value);
    r := Board(dayTrips, calls);
    hide HoldsAt, GainedAt, SlotsValid;
    forall stop ensures HoldsAt(r, store, date, done + {id}, stop) {
      assert GainedAt(b.dayTrips, b.calls, dayTrips, calls, store.stopTimes[id], id, shift.value, stop);
      TripHeld(b, r, store, date, done, id, stop);
    }
  }

  lemma NoCalls(b: Board, store: GtfsStore, date: Date, done: set<string>, id: string)
    requires Holds(b, store, date, done) && id !in done
    requires forall stop :: TripCalls(store, date, id, stop) == multiset{}
    ensures Holds(b, store, date, done + {id})
  {
    forall stop ensures HoldsAt(b, store, date, done + {id}, stop) {
      assert HoldsAt(b, store, date, done, stop);
      PoolGrows(store, date, done, id, stop);
    }
  }

  lemma TripHeld(b: Board, r: Board, store: GtfsStore, date: Date, done: set<string>, id: string, stop: string)
    requires HoldsAt(b, store, date, done, stop) && id !in done && id in store.trips && id in store.stopTimes
    requires Shift(store, date, store.trips[id]).Some?
    requires GainedAt(b.dayTrips, b.calls, r.dayTrips, r.calls, store.stopTimes[id], id, Shift(store, date, store.trips[id]).value, stop)
    ensures HoldsAt(r, store, date, done + {id}, stop)
  {
    PoolGrows(store, date, done, id, stop);
  }

  lemma PoolGrows(store: GtfsStore, date: Date, done: set<string>, id: string, stop: string)
    requires id !in done
    ensures Where(Pool(store, date, done + {id}, stop), Kept)
         == Where(Pool(store, date, done, stop), Kept) + Where(TripCalls(store, date, id, stop), Kept)
    ensures Where(multiset{}, Kept) == multiset{}
  {
    PoolSplit(store, date, done + {id}, id, stop);
    assert done + {id} - {id} == done;
    WhereUnion(Pool(store, date, done, stop), TripCalls(store, date, id, stop), Kept);
  }

  lemma WhereUnion<T(!new)>(a: multiset<T>, b: multiset<T>, p: T -> bool)
    ensures Where(a + b, p) == Where(a, p) + Where(b, p)
  {}

  /** A stop has gained exactly the kept calls of `times` there. */
  ghost predicate GainedAt(before: seq<DayTrip>, had: map<string, seq<Call>>, dayTrips: seq<DayTrip>, calls: map<string, seq<Call>>,
                           times: seq<StopTime>, tripId: string, shift: int, stop: string) {
    View(dayTrips, calls, stop) == View(before, had, stop) + Where(Rows(times, tripId, shift, stop), Kept)
  }

  ghost predicate Gained(before: seq<DayTrip>, had: map<string, seq<Call>>, dayTrips: seq<DayTrip>, calls: map<string, seq<Call>>,
                         times: seq<StopTime>, tripId: string, shift: int) {
    && SlotsValid(dayTrips, calls)
    && forall stop :: GainedAt(before, had, dayTrips, calls, times, tripId, shift, stop)
  }

  // The inner loop: the calls of the trip in the last slot.
  method AddRows(had: map<string, seq<Call>>, ghost before: seq<DayTrip>, dayTrips: seq<DayTrip>, times: seq<StopTime>, shift: int)
      returns (calls: map<string, seq<Call>>)
    requires SlotsValid(before, had) && |dayTrips| == |before| + 1 && before <= dayTrips
    ensures Gained(before, had, dayTrips, calls, times, dayTrips[|before|].tripId, shift)
  {
    var slot := |dayTrips| - 1;
    calls := had;
    ghost var tripId := dayTrips[slot].tripId;
    NoRows(before, dayTrips, calls, tripId, shift);
    assert times[..0] == [];
    hide *;
    for i := 0 to |times|
      invariant Gained(before, had, dayTrips, calls, times[..i], tripId, shift)
    {
      RowStep(before, had, dayTrips, calls, times, i, tripId, shift);
      calls := WithRow(calls, slot, times[i], shift);
    }
    assert times[..|times|] == times;
  }

  function CallOf(slot: nat, st: StopTime, shift: int): Call {
    Call(slot, st.arrival + shift, st.departure + shift, st.stopSequence, shift == 0)
  }

  function WithRow(calls: map<string, seq<Call>>, slot: nat, st: StopTime, shift: int): map<string, seq<Call>> {
    // Yesterday's calls from before the cut are not indexed.
    if shift != 0 && st.departure + shift < CUT then calls
    else calls[st.stopId := At(calls, st.stopId) + [CallOf(slot, st, shift)]]
  }

  lemma RowStep(before: seq<DayTrip>, had: map<string, seq<Call>>, dayTrips: seq<DayTrip>, calls: map<string, seq<Call>>,
                times: seq<StopTime>, i: nat, tripId: string, shift: int)
    requires i < |times| && |dayTrips| > 0 && tripId == dayTrips[|dayTrips| - 1].tripId
    requires Gained(before, had, dayTrips, calls, times[..i], tripId, shift)
    ensures Gained(before, had, dayTrips, WithRow(calls, |dayTrips| - 1, times[i], shift), times[..i + 1], tripId, shift)
  {
    SlotsStayValid(dayTrips, calls, times[i].stopId, CallOf(|dayTrips| - 1, times[i], shift));
    hide SlotsValid, GainedAt;
    var more, upTo := WithRow(calls, |dayTrips| - 1, times[i], shift), times[..i + 1];
    forall stop ensures GainedAt(before, had, dayTrips, more, upTo, tripId, shift, stop) {
      RowStepAt(before, had, dayTrips, calls, times, i, tripId, shift, stop);
    }
  }

  lemma RowStepAt(before: seq<DayTrip>, had: map<string, seq<Call>>, dayTrips: seq<DayTrip>, calls: map<string, seq<Call>>,
                  times: seq<StopTime>, i: nat, tripId: string, shift: int, stop: string)
    requires i < |times| && |dayTrips| > 0 && tripId == dayTrips[|dayTrips| - 1].tripId
    requires GainedAt(before, had, dayTrips, calls, times[..i], tripId, shift, stop)
    ensures GainedAt(before, had, dayTrips, WithRow(calls, |dayTrips| - 1, times[i], shift), times[..i + 1], tripId, shift, stop)
  {
    hide View, Where, Rows, WithRow;
    RowAt(dayTrips, calls, times, i, tripId, shift, stop);
    var c := Scheduled(tripId, times[i], shift);
    Reassociate(View(before, had, stop), Where(Rows(times[..i], tripId, shift, stop), Kept), Only(c, Kept(c) && stop == times[i].stopId));
  }

  lemma Reassociate<T>(a: multiset<T>, b: multiset<T>, c: multiset<T>)
    ensures a + b + c == a + (b + c)
  {}

  lemma RowAt(dayTrips: seq<DayTrip>, calls: map<string, seq<Call>>, times: seq<StopTime>, i: nat, tripId: string, shift: int, stop: string)
    requires i < |times| && |dayTrips| > 0 && tripId == dayTrips[|dayTrips| - 1].tripId
    ensures var c := Scheduled(tripId, times[i], shift); var gain := Only(c, Kept(c) && stop == times[i].stopId);
      && View(dayTrips, WithRow(calls, |dayTrips| - 1, times[i], shift), stop) == View(dayTrips, calls, stop) + gain
      && Where(Rows(times[..i + 1], tripId, shift, stop), Kept) == Where(Rows(times[..i], tripId, shift, stop), Kept) + gain
  {
    hide View, Where, Rows;
    RowsGrow(times, i, tripId, shift, stop);
    var c := CallOf(|dayTrips| - 1, times[i], shift);
    assert Resolved(dayTrips, c) == Scheduled(tripId, times[i], shift);
    CallAdded(dayTrips, calls, times[i].stopId, c, stop);
  }

  lemma SlotsStayValid(dayTrips: seq<DayTrip>, calls: map<string, seq<Call>>, at: string, c: Call)
    requires SlotsValid(dayTrips, calls) && c.trip < |dayTrips|
    ensures SlotsValid(dayTrips, calls[at := At(calls, at) + [c]])
  {}

  lemma NoRows(before: seq<DayTrip>, dayTrips: seq<DayTrip>, calls: map<string, seq<Call>>, tripId: string, shift: int)
    requires SlotsValid(before, calls) && before <= dayTrips
    ensures Gained(before, calls, dayTrips, calls, [], tripId, shift)
  {
    forall stop ensures View(before, calls, stop) == View(dayTrips, calls, stop) {
      SlotsKeep(before, dayTrips, calls, stop);
    }
  }

  lemma RowsGrow(times: seq<StopTime>, i: nat, tripId: string, shift: int, stop: string)
    requires i < |times|
    ensures var c := Scheduled(tripId, times[i], shift);
      Where(Rows(times[..i + 1], tripId, shift, stop), Kept)
        == Where(Rows(times[..i], tripId, shift, stop), Kept) + Only(c, Kept(c) && stop == times[i].stopId)
  {
    hide Where;
    assert times[..i + 1][..i] == times[..i];
    WhereAdd(Rows(times[..i], tripId, shift, stop), Scheduled(tripId, times[i], shift), Kept);
  }

  function Only<T>(x: T, keep: bool): multiset<T> {
    if keep then multiset{x} else multiset{}
  }

  lemma CallAdded(dayTrips: seq<DayTrip>, calls: map<string, seq<Call>>, at: string, c: Call, stop: string)
    ensures View(dayTrips, calls[at := At(calls, at) + [c]], stop) == View(dayTrips, calls, stop) + Only(Resolved(dayTrips, c), stop == at)
  {
    if stop == at {
      assert ResolvedAll(dayTrips, At(calls, at) + [c]) == ResolvedAll(dayTrips, At(calls, at)) + [Resolved(dayTrips, c)];
    }
  }

  lemma SlotsKeep(before: seq<DayTrip>, dayTrips: seq<DayTrip>, calls: map<string, seq<Call>>, stop: string)
    requires SlotsValid(before, calls) && before <= dayTrips
    ensures View(before, calls, stop) == View(dayTrips, calls, stop)
  {
    var cs := At(calls, stop);
    forall k | 0 <= k < |cs| ensures Resolved(before, cs[k]) == Resolved(dayTrips, cs[k]) {
      assert cs[k] in calls[stop];
    }
    assert ResolvedAll(before, cs) == ResolvedAll(dayTrips, cs);
  }

  // ---------------------------------------------------------------- the queries

  datatype Listing = Listing(stop: StopInfo, trip: TripInfo, route: Option<RouteInfo>, rtId: Option<string>,
                                 arrival: int, departure: int, sequence: nat)

  /** A scheduled call, described from the feed. */
  function Shown(store: GtfsStore, stop: StopInfo, c: Sched): Listing
    requires c.tripId in store.trips
  {
    var trip := store.trips[c.tripId];
    Listing(stop, trip, Lookup(store.routes, trip.routeId), trip.realtimeTripId, c.arrival, c.departure, c.sequence)
  }

  ghost predicate Lists(r: seq<Listing>, store: GtfsStore, stopId: string, calls: seq<Sched>) {
    && |r| == |calls| && stopId in store.stops
    && forall k :: 0 <= k < |r| ==> calls[k].tripId in store.trips && r[k] == Shown(store, store.stops[stopId], calls[k])
  }

  /** `r` describes the best `limit` calls of `pool`, in departure order. */
  ghost predicate ListsFirst(r: seq<Listing>, store: GtfsStore, stopId: string, pool: multiset<Sched>, limit: nat) {
    exists calls :: Lists(r, store, stopId, calls) && BestK(calls, pool, NoLater, limit)
  }

  /** `r` describes all calls of `pool`, by arrival. */
  ghost predicate ListsByArrival(r: seq<Listing>, store: GtfsStore, stopId: string, pool: multiset<Sched>) {
    exists calls :: Lists(r, store, stopId, calls) && Sorted(calls, NoLaterArrival) && multiset(calls) == pool
  }

  /** A listing gives the trip's own row and its route's, if the feed has it, and the call's times. */
  lemma ListingSays(store: GtfsStore, stop: StopInfo, c: Sched)
    requires c.tripId in store.trips
    ensures var l, trip := Shown(store, stop, c), store.trips[c.tripId];
      && l.stop == stop && l.trip == trip && l.rtId == trip.realtimeTripId
      && l.arrival == c.arrival && l.departure == c.departure && l.sequence == c.sequence
      && l.route == if trip.routeId in store.routes then Some(store.routes[trip.routeId]) else None
  {}

  method Describe(b: Board, store: GtfsStore, stopId: string, calls: seq<Call>) returns (r: seq<Listing>)
    requires stopId in store.stops && TripsKnown(b.dayTrips, store)
    requires forall c :: c in calls ==> c.trip < |b.dayTrips|
    ensures Lists(r, store, stopId, ResolvedAll(b.dayTrips, calls))
  {
    r := [];
    for k := 0 to |calls|
      invariant Lists(r, store, stopId, ResolvedAll(b.dayTrips, calls[..k]))
    {
      var c := calls[k];
      assert c in calls;
      var day := b.dayTrips[c.trip];
      assert day in b.dayTrips;
      var trip := store.trips[day.tripId];
      r := r + [Listing(store.stops[stopId], trip, Lookup(store.routes, trip.routeId), day.rtId, c.arrival, c.departure, c.sequence)];
    }
    assert calls[..|calls|] == calls;
  }

  function InWindow(from: int, window: int): Sched -> bool {
    (c: Sched) => from <= c.departure <= from + window
  }

  ghost predicate FitsI32(store: GtfsStore) {
    forall id, k :: id in store.stopTimes && 0 <= k < |store.stopTimes[id]| ==>
      I32_MIN + DAY_SECS < store.stopTimes[id][k].departure <= I32_MAX
  }

  function SaturatingAdd(a: int, b: int): int {
    if a + b > I32_MAX then I32_MAX else if a + b < I32_MIN then I32_MIN else a + b
  }

  /** First index whose departure is not before `from`. */
  method PartitionPoint(calls: seq<Call>, from: int) returns (k: nat)
    requires Sorted(calls, EarlierCall)
    ensures k <= |calls|
    ensures forall i :: 0 <= i < |calls| ==> (i < k <==> calls[i].departure < from)
  {
    var lo, hi := 0, |calls|;
    while lo < hi
      invariant 0 <= lo <= hi <= |calls|
      invariant forall i :: 0 <= i < lo ==> calls[i].departure < from
      invariant forall i :: hi <= i < |calls| ==> calls[i].departure >= from
    {
      var mid := lo + (hi - lo) / 2;
      if calls[mid].departure < from {
        forall i | 0 <= i <= mid ensures calls[i].departure < from {
          assert i == mid || EarlierCall(calls[i], calls[mid]);
        }
        lo := mid + 1;
      } else {
        forall i | mid <= i < |calls| ensures calls[i].departure >= from {
          assert i == mid || EarlierCall(calls[mid], calls[i]);
        }
        hi := mid;
      }
    }
    k := lo;
  }

  /** The calls the board would list with no limit. */
  ghost function Listable(store: GtfsStore, date: Date, stopId: string, from: int, window: int): multiset<Sched> {
    Where(Where(AllCalls(store, date, stopId), Kept), InWindow(from, window))
  }

  /** `departures`: the first `limit` listable calls in departure order. */
  method Departures(b: Board, store: GtfsStore, ghost date: Date, stopId: string, from: int, window: int, limit: nat)
      returns (r: seq<Listing>)
    requires BoardOk(b, store, date) && FitsI32(store)
    requires I32_MIN <= from <= I32_MAX && I32_MIN <= window <= I32_MAX
    ensures stopId !in store.stops ==> r == []
    ensures stopId in store.stops ==> ListsFirst(r, store, stopId, Listable(store, date, stopId, from, window), limit)
  {
    r := [];
    if stopId !in store.stops {
      return;
    }
    ListUsable(b, store, date, stopId);
    var start, end := WindowSlice(At(b.calls, stopId), from, SaturatingAdd(from, window));
    SliceListed(b, store, date, stopId, from, window, start, end, limit);
    hide BestK, Listable, FitsI32, BoardOk, ResolvedAll;
    ghost var listed;
    r, listed := DescribeFirst(b, store, stopId, At(b.calls, stopId)[start..end], limit);
  }

  method DescribeFirst(b: Board, store: GtfsStore, stopId: string, calls: seq<Call>, limit: nat) returns (r: seq<Listing>, ghost listed: seq<Sched>)
    requires stopId in store.stops && TripsKnown(b.dayTrips, store)
    requires forall c :: c in calls ==> c.trip < |b.dayTrips|
    ensures Lists(r, store, stopId, listed)
    ensures var slice := ResolvedAll(b.dayTrips, calls); listed == slice[..if limit <= |slice| then limit else |slice|]
  {
    var n := if limit <= |calls| then limit else |calls|;
    assert forall c :: c in calls[..n] ==> c in calls;
    r := Describe(b, store, stopId, calls[..n]);
    listed := ResolvedAll(b.dayTrips, calls[..n]);
    assert listed == ResolvedAll(b.dayTrips, calls)[..n];
  }

  lemma ListUsable(b: Board, store: GtfsStore, date: Date, stopId: string)
    requires BoardOk(b, store, date)
    ensures Sorted(At(b.calls, stopId), EarlierCall) && TripsKnown(b.dayTrips, store)
    ensures forall c :: c in At(b.calls, stopId) ==> c.trip < |b.dayTrips|
  {}

  /** From `start` to `end` is what `partition_point` and `take_while` leave. */
  ghost predicate IsWindow(calls: seq<Call>, from: int, until: int, start: nat, end: nat) {
    && start <= end <= |calls|
    && (forall i :: 0 <= i < |calls| ==> (i < start <==> calls[i].departure < from))
    && (forall i :: start <= i < end ==> calls[i].departure <= until)
    && (end < |calls| ==> calls[end].departure > until)
  }

  method WindowSlice(calls: seq<Call>, from: int, until: int) returns (start: nat, end: nat)
    requires Sorted(calls, EarlierCall)
    ensures IsWindow(calls, from, until, start, end)
  {
    start := PartitionPoint(calls, from);
    end := start;
    while end < |calls| && calls[end].departure <= until
      invariant start <= end <= |calls|
      invariant forall i :: start <= i < end ==> calls[i].departure <= until
    {
      end := end + 1;
    }
  }

  lemma SliceListed(b: Board, store: GtfsStore, date: Date, stopId: string, from: int, window: int, start: nat, end: nat, limit: nat)
    requires BoardOk(b, store, date) && FitsI32(store)
    requires I32_MIN <= from <= I32_MAX && I32_MIN <= window <= I32_MAX
    requires IsWindow(At(b.calls, stopId), from, SaturatingAdd(from, window), start, end)
    ensures var slice := ResolvedAll(b.dayTrips, At(b.calls, stopId)[start..end]);
      BestK(slice[..if limit <= |slice| then limit else |slice|], Listable(store, date, stopId, from, window), NoLater, limit)
  {
    var calls := At(b.calls, stopId);
    StopList(b, store, date, stopId);
    hide BoardOk, FitsI32, AllCalls, Where, BestK, Kept, At;
    SliceIsBest(b.dayTrips, calls, from, window, start, end, limit);
  }

  // What the board says of one stop.
  lemma StopList(b: Board, store: GtfsStore, date: Date, stopId: string)
    requires BoardOk(b, store, date) && FitsI32(store)
    ensures var all := ResolvedAll(b.dayTrips, At(b.calls, stopId));
      && multiset(all) == Where(AllCalls(store, date, stopId), Kept) && Sorted(all, NoLater)
      && forall i :: 0 <= i < |At(b.calls, stopId)| ==> I32_MIN < At(b.calls, stopId)[i].departure <= I32_MAX
  {
    var calls := At(b.calls, stopId);
    var all := ResolvedAll(b.dayTrips, calls);
    assert HoldsAt(b, store, date, store.trips.Keys, stopId);
    forall i | 0 <= i < |calls| ensures I32_MIN < calls[i].departure <= I32_MAX {
      CallsFit(b, store, date, stopId, i);
    }
    assert Sorted(calls, EarlierCall);
    hide Where, AllCalls, BoardOk, FitsI32;
    forall i, j | 0 <= i < j < |all| ensures NoLater(all[i], all[j]) {
      assert EarlierCall(calls[i], calls[j]);
    }
  }

  lemma SliceIsBest(dayTrips: seq<DayTrip>, calls: seq<Call>, from: int, window: int, start: nat, end: nat, limit: nat)
    requires IsWindow(calls, from, SaturatingAdd(from, window), start, end) && Sorted(ResolvedAll(dayTrips, calls), NoLater)
    requires I32_MIN <= from <= I32_MAX && forall i :: 0 <= i < |calls| ==> I32_MIN < calls[i].departure <= I32_MAX
    ensures var slice := ResolvedAll(dayTrips, calls[start..end]);
      BestK(slice[..if limit <= |slice| then limit else |slice|], Where(multiset(ResolvedAll(dayTrips, calls)), InWindow(from, window)), NoLater, limit)
  {
    var all := ResolvedAll(dayTrips, calls);
    WindowExact(dayTrips, calls, from, window, start, end);
    ResolvedSlice(dayTrips, calls, start, end);
    hide Where, BestK, ResolvedAll, IsWindow;
    WhereSlice(all, InWindow(from, window), start, end);
    TakeIsBestK(all[start..end], NoLater, limit);
  }

  lemma WindowExact(dayTrips: seq<DayTrip>, calls: seq<Call>, from: int, window: int, start: nat, end: nat)
    requires IsWindow(calls, from, SaturatingAdd(from, window), start, end) && Sorted(ResolvedAll(dayTrips, calls), NoLater)
    requires I32_MIN <= from <= I32_MAX && forall i :: 0 <= i < |calls| ==> I32_MIN < calls[i].departure <= I32_MAX
    ensures start <= end <= |ResolvedAll(dayTrips, calls)|
    ensures forall i :: 0 <= i < |calls| ==> (InWindow(from, window)(ResolvedAll(dayTrips, calls)[i]) <==> start <= i < end)
  {
    var all := ResolvedAll(dayTrips, calls);
    forall i | 0 <= i < |calls| ensures InWindow(from, window)(all[i]) <==> start <= i < end {
      assert all[i].departure == calls[i].departure;
      assert end < i ==> NoLater(all[end], all[i]) && all[end].departure == calls[end].departure;
    }
  }

  lemma ResolvedSlice(dayTrips: seq<DayTrip>, calls: seq<Call>, a: nat, b: nat)
    requires a <= b <= |calls|
    ensures |ResolvedAll(dayTrips, calls)| == |calls|
    ensures ResolvedAll(dayTrips, calls[a..b]) == ResolvedAll(dayTrips, calls)[a..b]
  {}

  lemma WhereSlice<T(!new)>(s: seq<T>, p: T -> bool, a: nat, b: nat)
    requires a <= b <= |s|
    requires forall i :: 0 <= i < |s| ==> (p(s[i]) <==> a <= i < b)
    ensures Where(multiset(s), p) == multiset(s[a..b])
  {
    assert s == s[..a] + s[a..b] + s[b..];
    forall x ensures Where(multiset(s), p)[x] == multiset(s[a..b])[x] {
      assert x in s[..a] ==> !p(x);
      assert x in s[a..b] ==> p(x);
      assert x in s[b..] ==> !p(x);
      assert multiset(s)[x] == multiset(s[..a])[x] + multiset(s[a..b])[x] + multiset(s[b..])[x];
    }
  }

  // Saturation is out of reach of the feed's own times.
  lemma CallsFit(b: Board, store: GtfsStore, date: Date, stop: string, i: nat)
    requires BoardOk(b, store, date) && FitsI32(store) && i < |At(b.calls, stop)|
    ensures I32_MIN < At(b.calls, stop)[i].departure <= I32_MAX
  {
    var c := ResolvedAll(b.dayTrips, At(b.calls, stop))[i];
    assert HoldsAt(b, store, date, store.trips.Keys, stop);
    assert c in View(b.dayTrips, b.calls, stop);
    PoolFits(store, date, store.trips.Keys, stop, c);
  }

  lemma {:induction false} PoolFits(store: GtfsStore, date: Date, ids: set<string>, stop: string, c: Sched)
    requires FitsI32(store) && c in Pool(store, date, ids, stop)
    ensures I32_MIN < c.departure <= I32_MAX
  {
    var id :| id in ids && Pool(store, date, ids, stop) == Pool(store, date, ids - {id}, stop) + TripCalls(store, date, id, stop);
    if c in TripCalls(store, date, id, stop) {
      RowsFit(store.stopTimes[id], id, Shift(store, date, store.trips[id]).value, stop, c);
    } else {
      PoolFits(store, date, ids - {id}, stop, c);
    }
  }

  lemma {:induction false} RowsFit(times: seq<StopTime>, tripId: string, shift: int, stop: string, c: Sched)
    requires c in Rows(times, tripId, shift, stop)
    ensures exists k :: 0 <= k < |times| && c == Scheduled(tripId, times[k], shift) && times[k].stopId == stop
  {
    if c in Rows(times[..|times| - 1], tripId, shift, stop) {
      RowsFit(times[..|times| - 1], tripId, shift, stop, c);
      var k :| 0 <= k < |times| - 1 && c == Scheduled(tripId, times[k], shift) && times[k].stopId == stop;
    } else {
      assert c == Scheduled(tripId, times[|times| - 1], shift);
    }
  }

  predicate NoLaterArrival(a: Sched, b: Sched) {
    a.arrival <= b.arrival
  }

  /** `calls_on_service_date`: today's calls, all of them, by arrival. */
  method CallsOnServiceDate(b: Board, store: GtfsStore, ghost date: Date, stopId: string)
      returns (r: seq<Listing>)
    requires BoardOk(b, store, date)
    ensures stopId !in store.stops ==> r == []
    ensures stopId in store.stops ==> ListsByArrival(r, store, stopId, Where(AllCalls(store, date, stopId), RunsToday))
  {
    r := [];
    if stopId !in store.stops {
      return;
    }
    var calls := TodayByArrival(At(b.calls, stopId));
    TodaysCalls(b, store, date, stopId, calls);
    hide BoardOk, Where, AllCalls, Filter, ResolvedAll;
    r := Describe(b, store, stopId, calls);
  }

  method TodayByArrival(calls: seq<Call>) returns (r: seq<Call>)
    ensures multiset(r) == multiset(Filter(calls, IsToday)) && Sorted(r, ArrivesEarlier)
  {
    var today := Filter(calls, IsToday);
    StableSortSorted(today, ArrivesEarlier);
    r := StableSort(today, ArrivesEarlier);
  }

  predicate ArrivesEarlier(a: Call, b: Call) {
    a.arrival <= b.arrival
  }

  lemma TodaysCalls(b: Board, store: GtfsStore, date: Date, stopId: string, calls: seq<Call>)
    requires BoardOk(b, store, date)
    requires multiset(calls) == multiset(Filter(At(b.calls, stopId), IsToday)) && Sorted(calls, ArrivesEarlier)
    ensures TripsKnown(b.dayTrips, store) && forall c :: c in calls ==> c.trip < |b.dayTrips|
    ensures multiset(ResolvedAll(b.dayTrips, calls)) == Where(AllCalls(store, date, stopId), RunsToday)
    ensures Sorted(ResolvedAll(b.dayTrips, calls), NoLaterArrival)
  {
    var cs := At(b.calls, stopId);
    var today := Filter(cs, IsToday);
    assert HoldsAt(b, store, date, store.trips.Keys, stopId);
    hide AllCalls, Where, Filter;
    SameMembers(calls, today);
    MapMultiset(calls, today, c => Resolved(b.dayTrips, c));
    TodayOnly(b.dayTrips, cs);
    FilterIsWhere(ResolvedAll(b.dayTrips, cs), RunsToday);
    WhereTwice(AllCalls(store, date, stopId), Kept, RunsToday);
    ByArrival(b.dayTrips, calls);
  }

  lemma ByArrival(dayTrips: seq<DayTrip>, calls: seq<Call>)
    requires Sorted(calls, ArrivesEarlier)
    ensures Sorted(ResolvedAll(dayTrips, calls), NoLaterArrival)
  {
    var all := ResolvedAll(dayTrips, calls);
    forall i, j | 0 <= i < j < |all| ensures NoLaterArrival(all[i], all[j]) {
      assert ArrivesEarlier(calls[i], calls[j]);
    }
  }

  predicate IsToday(c: Call) { c.today }

  predicate RunsToday(c: Sched) { c.today }

  lemma {:induction false} TodayOnly(dayTrips: seq<DayTrip>, cs: seq<Call>)
    ensures ResolvedAll(dayTrips, Filter(cs, IsToday)) == Filter(ResolvedAll(dayTrips, cs), RunsToday)
  {
    hide Filter, ResolvedAll;
    if cs == [] {
      NoneToday(dayTrips);
    } else {
      var c, rest := cs[0], cs[1..];
      assert cs == [c] + rest;
      TodayOnly(dayTrips, rest);
      FilterFirst(c, rest, IsToday);
      FilterFirst(Resolved(dayTrips, c), ResolvedAll(dayTrips, rest), RunsToday);
      ResolvedFirst(dayTrips, c, rest);
      ResolvedFirst(dayTrips, c, Filter(rest, IsToday));
    }
  }

  lemma NoneToday(dayTrips: seq<DayTrip>)
    ensures ResolvedAll(dayTrips, Filter([], IsToday)) == Filter(ResolvedAll(dayTrips, []), RunsToday)
  {}

  lemma ResolvedFirst(dayTrips: seq<DayTrip>, c: Call, rest: seq<Call>)
    ensures ResolvedAll(dayTrips, [c] + rest) == [Resolved(dayTrips, c)] + ResolvedAll(dayTrips, rest)
  {}

  // ---------------------------------------------------------------- is the board the whole story?

  /** The brute-force window over the whole feed. */
  ghost function Due(store: GtfsStore, date: Date, stopId: string, from: int, window: int): multiset<Sched> {
    Where(AllCalls(store, date, stopId), InWindow(from, window))
  }

  /** From six hours before midnight on, the board answers like a scan of the feed. */
  lemma BoardIsComplete(store: GtfsStore, date: Date, stopId: string, from: int, window: int)
    requires from >= -21_600
    ensures Listable(store, date, stopId, from, window) == Due(store, date, stopId, from, window)
  {
    WhereTwice(AllCalls(store, date, stopId), Kept, InWindow(from, window));
  }

  /** For an earlier start the limit-free board is the scan exactly when no carried-over call of
      the window was cut. */
  lemma BoardIsCompleteIff(store: GtfsStore, date: Date, stopId: string, from: int, window: int)
    ensures Listable(store, date, stopId, from, window) == Due(store, date, stopId, from, window) <==>
      forall c :: c in AllCalls(store, date, stopId) && from <= c.departure <= from + window ==> Kept(c)
  {
    var all := AllCalls(store, date, stopId);
    var due, listable := Due(store, date, stopId, from, window), Listable(store, date, stopId, from, window);
    hide AllCalls, Where;
    forall c ensures c in due <==> c in all && from <= c.departure <= from + window {
      assert due[c] == if InWindow(from, window)(c) then all[c] else 0;
    }
    forall c ensures listable[c] == if Kept(c) then due[c] else 0 {}
    if forall c :: c in due ==> Kept(c) {
      forall c ensures listable[c] == due[c] {
        assert due[c] > 0 ==> c in due;
      }
      assert listable == due;
    }
  }

  /** The condition bites: a trip of yesterday leaving at 17:59:59, asked for with a start before
      18:00 yesterday, is missing. */
  lemma EarlyWindowLosesACall(store: GtfsStore, date: Date, stopId: string)
    requires store.trips.Keys == {"t"} && "t" in store.stopTimes && Pred(date).Some?
    requires store.stopTimes["t"] == [StopTime(stopId, 1, 64_799, 64_799)]
    requires !TripDay(store, store.trips["t"], date) && TripDay(store, store.trips["t"], Pred(date).value)
    ensures Listable(store, date, stopId, -21_601, 60) == multiset{}
    ensures Sched("t", -21_601, -21_601, 1, false) in Due(store, date, stopId, -21_601, 60)
  {
    var c := Sched("t", -21_601, -21_601, 1, false);
    PoolSplit(store, date, store.trips.Keys, "t", stopId);
    assert store.trips.Keys - {"t"} == {};
    var st := StopTime(stopId, 1, 64_799, 64_799);
    assert [st][..0] == [];
    assert Rows([st], "t", -DAY_SECS, stopId) == Rows([], "t", -DAY_SECS, stopId) + multiset{c};
    assert TripCalls(store, date, "t", stopId) == multiset{c};
    assert AllCalls(store, date, stopId) == multiset{c};
    assert Due(store, date, stopId, -21_601, 60)[c] == 1;
  }

  // A feed with one trip that leaves one stop, on the listed dates.
  function OneTripFeed(dates: seq<nat>, leaves: int): GtfsStore {
    GtfsStore(map[], map[], map["t" := TripInfo("t", "r", "", None, "s", None)], map["q" := StopInfo("q", "Quay", NaN, NaN, 0)],
              map["t" := [StopTime("q", 1, leaves, leaves)]], map[], map["s" := dates], map[])
  }

  const SECOND_OF_MAY: Date := Civil(2026, 5, 2)

  /** Such a feed: the first of May's trip leaves at 17:59:59, and the board of the second misses it. */
  lemma EarlyWindowFails()
    ensures var feed := OneTripFeed([20_260_501], 64_799);
      && FiledTrips(feed) && FitsI32(feed)
      && Listable(feed, SECOND_OF_MAY, "q", -21_601, 60) != Due(feed, SECOND_OF_MAY, "q", -21_601, 60)
  {
    EarlyWindowLosesACall(OneTripFeed([20_260_501], 64_799), SECOND_OF_MAY, "q");
  }

  /** The union of both service dates, which a trip running on both would enter twice. */
  ghost function Carried(store: GtfsStore, date: Date, tripId: string, stop: string): multiset<Sched> {
    if tripId in store.trips && tripId in store.stopTimes && Pred(date).Some?
       && TripDay(store, store.trips[tripId], date) && TripDay(store, store.trips[tripId], Pred(date).value)
    then Rows(store.stopTimes[tripId], tripId, -DAY_SECS, stop)
    else multiset{}
  }

  ghost function BothDates(store: GtfsStore, date: Date, ids: set<string>, stop: string): multiset<Sched> {
    if ids == {} then multiset{}
    else
      var id :| id in ids;
      BothDates(store, date, ids - {id}, stop) + TripCalls(store, date, id, stop) + Carried(store, date, id, stop)
  }

  predicate CallsAt(times: seq<StopTime>, stop: string) {
    exists k :: 0 <= k < |times| && times[k].stopId == stop
  }

  /** A trip that calls at the stop on both dates. */
  predicate RunsTwice(store: GtfsStore, date: Date, id: string, stop: string) {
    && id in store.trips && id in store.stopTimes && Pred(date).Some? && CallsAt(store.stopTimes[id], stop)
    && TripDay(store, store.trips[id], date) && TripDay(store, store.trips[id], Pred(date).value)
  }

  /** The board's scan is the union of both service dates exactly when no trip calls at the stop
      on both. */
  lemma UnionOfDatesIff(store: GtfsStore, date: Date, ids: set<string>, stop: string)
    ensures Pool(store, date, ids, stop) <= BothDates(store, date, ids, stop)
    ensures Pool(store, date, ids, stop) == BothDates(store, date, ids, stop) <==> forall id :: id in ids ==> !RunsTwice(store, date, id, stop)
  {
    var pool, both := Pool(store, date, ids, stop), BothDates(store, date, ids, stop);
    UnionSize(store, date, ids, stop);
    assert both == pool + (both - pool) && |both| == |pool| + |both - pool|;
  }

  /** It is not the union in general: a trip on both dates is on the board once. */
  lemma UnionOfDatesFails()
    ensures var feed := OneTripFeed([20_260_501, 20_260_502], 90_000);
      AllCalls(feed, SECOND_OF_MAY, "q") != BothDates(feed, SECOND_OF_MAY, feed.trips.Keys, "q")
  {
    var feed := OneTripFeed([20_260_501, 20_260_502], 90_000);
    assert feed.stopTimes["t"][0].stopId == "q" && Pred(SECOND_OF_MAY) == Some(Civil(2026, 5, 1));
    assert RunsTwice(feed, SECOND_OF_MAY, "t", "q");
    UnionOfDatesIff(feed, SECOND_OF_MAY, feed.trips.Keys, "q");
  }

  lemma {:induction false} UnionSize(store: GtfsStore, date: Date, ids: set<string>, stop: string)
    ensures Pool(store, date, ids, stop) <= BothDates(store, date, ids, stop)
    ensures |Pool(store, date, ids, stop)| == |BothDates(store, date, ids, stop)| <==> forall id :: id in ids ==> !RunsTwice(store, date, id, stop)
  {
    if ids != {} {
      var first :| first in ids && BothDates(store, date, ids, stop)
        == BothDates(store, date, ids - {first}, stop) + TripCalls(store, date, first, stop) + Carried(store, date, first, stop);
      PoolSplit(store, date, ids, first, stop);
      UnionSize(store, date, ids - {first}, stop);
      CarriedIff(store, date, first, stop);
      hide TripCalls, Carried, RunsTwice, Pool, BothDates;
      SizesAdd(Pool(store, date, ids - {first}, stop), BothDates(store, date, ids - {first}, stop),
               TripCalls(store, date, first, stop), Carried(store, date, first, stop));
      assert forall id :: id in ids <==> id == first || id in ids - {first};
    }
  }

  lemma SizesAdd<T>(p: multiset<T>, q: multiset<T>, t: multiset<T>, c: multiset<T>)
    requires p <= q
    ensures p + t <= q + t + c
    ensures |p + t| == |q + t + c| <==> |p| == |q| && c == multiset{}
  {
    assert |q - p| == |q| - |p|;
    assert |c| == 0 <==> c == multiset{};
  }

  lemma CarriedIff(store: GtfsStore, date: Date, id: string, stop: string)
    ensures Carried(store, date, id, stop) == multiset{} <==> !RunsTwice(store, date, id, stop)
  {
    if id in store.stopTimes {
      RowsEmpty(store.stopTimes[id], id, -DAY_SECS, stop);
    }
  }

  lemma {:induction false} RowsEmpty(times: seq<StopTime>, tripId: string, shift: int, stop: string)
    ensures Rows(times, tripId, shift, stop) == multiset{} <==> !CallsAt(times, stop)
  {
    if times != [] {
      var front := times[..|times| - 1];
      RowsEmpty(front, tripId, shift, stop);
      if CallsAt(front, stop) {
        var k :| 0 <= k < |front| && front[k].stopId == stop;
        assert times[k].stopId == stop;
      }
      if times[|times| - 1].stopId == stop {
        assert Scheduled(tripId, times[|times| - 1], shift) in Rows(times, tripId, shift, stop);
      }
    }
  }

  /** `departures` asked for nothing earlier than the cut is the brute-force board. */
  method DeparturesDue(b: Board, store: GtfsStore, ghost date: Date, stopId: string, from: int, window: int, limit: nat)
      returns (r: seq<Listing>)
    requires BoardOk(b, store, date) && FitsI32(store) && stopId in store.stops
    requires -21_600 <= from <= I32_MAX && I32_MIN <= window <= I32_MAX
    ensures ListsFirst(r, store, stopId, Due(store, date, stopId, from, window), limit)
  {
    BoardIsComplete(store, date, stopId, from, window);
    r := Departures(b, store, date, stopId, from, window, limit);
  }

  // ---------------------------------------------------------------- the endpoint

  const DEFAULT_WINDOW_MIN: int := 90
  const MAX_WINDOW_MIN: int := 360
  const DEFAULT_DEPARTURES: nat := 25
  const MAX_DEPARTURES: nat := 100
  const GRACE: int := 60

  datatype Response = Unavailable | NotFound | Ok(departures: seq<Listing>)

  function Clamp(n: int, lo: int, hi: int): (r: int)
    requires lo <= hi
    ensures lo <= r <= hi && (lo <= n <= hi ==> r == n)
  {
    if n < lo then lo else if n > hi then hi else n
  }

  /** `stop_departures` before its live enrichment, at `now` seconds past local midnight: what is
      due from a minute ago until the window's end, over the whole feed. */
  method StopDepartures(board: Option<Board>, store: GtfsStore, ghost date: Date, stopId: string, now: int, askedWindow: Option<int>, askedLimit: Option<nat>)
      returns (resp: Response)
    requires FitsI32(store) && (board.Some? ==> BoardOk(board.value, store, date))
    requires 0 <= now < DAY_SECS
    ensures resp.Unavailable? <==> board.None?
    ensures resp.NotFound? <==> board.Some? && stopId !in store.stops
    ensures resp.Ok? ==>
      var window := Clamp(askedWindow.GetOr(90), 1, 360) * 60;
      ListsFirst(resp.departures, store, stopId, Due(store, date, stopId, now - 60, window + 60), Clamp(askedLimit.GetOr(25), 1, 100))
  {
    hide BoardOk, ListsFirst, Due, FitsI32, Listable;
    if board.None? {
      return Unavailable;
    }
    if stopId !in store.stops {
      return NotFound;
    }
    var window := Clamp(askedWindow.GetOr(DEFAULT_WINDOW_MIN), 1, MAX_WINDOW_MIN) * 60;
    var limit := Clamp(askedLimit.GetOr(DEFAULT_DEPARTURES), 1, MAX_DEPARTURES);
    var r := DeparturesDue(board.value, store, date, stopId, now - GRACE, window + GRACE, limit);
    resp := Ok(r);
  }
}
