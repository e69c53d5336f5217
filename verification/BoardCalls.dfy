/** The calls a departure board is about, read off the feed's tables row by row
    (crates/gtfs/src/stops.rs). */
module BoardCalls {
  import opened Collections
  import opened Dates
  import opened Gtfs
  import opened DepartureBoard

  predicate ServiceOn(store: GtfsStore, tripId: string, day: Date) {
    && tripId in store.trips && store.trips[tripId].serviceId in store.serviceDates
    && Ymd(day) in store.serviceDates[store.trips[tripId].serviceId]
  }

  /** Row `k` of the call's trip is this call: as written and flagged today if the trip runs on the
      date; a day of 86400 seconds earlier and unflagged if it runs the day before and not on the date. */
  predicate IsRow(store: GtfsStore, date: Date, stop: string, c: Sched, k: nat) {
    && c.tripId in store.stopTimes && k < |store.stopTimes[c.tripId]|
    && var st := store.stopTimes[c.tripId][k];
       && st.stopId == stop && c.sequence == st.stopSequence
       && if ServiceOn(store, c.tripId, date) then
            c.arrival == st.arrival && c.departure == st.departure && c.today
          else
            && Pred(date).Some? && ServiceOn(store, c.tripId, Pred(date).value)
            && c.arrival == st.arrival - 86_400 && c.departure == st.departure - 86_400 && !c.today
  }

  /** The rows of the feed that are this call. */
  function RowsOf(store: GtfsStore, date: Date, stop: string, c: Sched): set<nat> {
    if c.tripId in store.stopTimes then set k | 0 <= k < |store.stopTimes[c.tripId]| && IsRow(store, date, stop, c, k) else {}
  }

  /** The board's scan holds each call as often as the feed has rows that are it. */
  lemma CallsAreRows(store: GtfsStore, date: Date, stop: string, c: Sched)
    ensures AllCalls(store, date, stop)[c] == |RowsOf(store, date, stop, c)|
  {
    hide TripCalls;
    PoolCounts(store, date, store.trips.Keys, stop, c);
    TripCounts(store, date, stop, c);
  }

  /** So it holds a call exactly when some row is it. */
  lemma CallIffRow(store: GtfsStore, date: Date, stop: string, c: Sched)
    ensures c in AllCalls(store, date, stop) <==> exists k: nat :: IsRow(store, date, stop, c, k)
  {
    CallsAreRows(store, date, stop, c);
    if k: nat :| IsRow(store, date, stop, c, k) {
      assert k in RowsOf(store, date, stop, c);
    }
    if RowsOf(store, date, stop, c) != {} {
      var k :| k in RowsOf(store, date, stop, c);
      assert IsRow(store, date, stop, c, k);
    }
  }

  lemma {:induction false} PoolCounts(store: GtfsStore, date: Date, ids: set<string>, stop: string, c: Sched)
    ensures Pool(store, date, ids, stop)[c] == if c.tripId in ids then TripCalls(store, date, c.tripId, stop)[c] else 0
  {
    if ids != {} {
      var id :| id in ids && Pool(store, date, ids, stop) == Pool(store, date, ids - {id}, stop) + TripCalls(store, date, id, stop);
      PoolCounts(store, date, ids - {id}, stop, c);
      OwnCalls(store, date, id, stop, c);
    }
  }

  // A trip's calls bear its id.
  lemma OwnCalls(store: GtfsStore, date: Date, id: string, stop: string, c: Sched)
    ensures c.tripId != id ==> TripCalls(store, date, id, stop)[c] == 0
  {
    if c in TripCalls(store, date, id, stop) {
      RowsFit(store.stopTimes[id], id, Shift(store, date, store.trips[id]).value, stop, c);
    }
  }

  // One trip holds a call as often as its rows are it.
  lemma TripCounts(store: GtfsStore, date: Date, stop: string, c: Sched)
    ensures (if c.tripId in store.trips then TripCalls(store, date, c.tripId, stop)[c] else 0) == |RowsOf(store, date, stop, c)|
  {
    var rows := RowsOf(store, date, stop, c);
    if c.tripId in store.trips && c.tripId in store.stopTimes && Shift(store, date, store.trips[c.tripId]).Some? {
      var times, shift := store.stopTimes[c.tripId], Shift(store, date, store.trips[c.tripId]).value;
      RowsCount(times, shift, stop, c);
      assert rows == RowSet(times, shift, stop, c);
    } else {
      assert rows == {};
    }
  }

  ghost function RowSet(times: seq<StopTime>, shift: int, stop: string, c: Sched): set<nat> {
    set k | 0 <= k < |times| && times[k].stopId == stop && Scheduled(c.tripId, times[k], shift) == c
  }

  lemma {:induction false} RowsCount(times: seq<StopTime>, shift: int, stop: string, c: Sched)
    ensures Rows(times, c.tripId, shift, stop)[c] == |RowSet(times, shift, stop, c)|
  {
    hide RowSet;
    if times != [] {
      RowsCount(times[..|times| - 1], shift, stop, c);
      RowSetNext(times, shift, stop, c);
    } else {
      NoRowSet(shift, stop, c);
    }
  }

  lemma NoRowSet(shift: int, stop: string, c: Sched)
    ensures RowSet([], shift, stop, c) == {}
  {}

  lemma RowSetNext(times: seq<StopTime>, shift: int, stop: string, c: Sched)
    requires times != []
    ensures var n := |times| - 1;
      |RowSet(times, shift, stop, c)| == |RowSet(times[..n], shift, stop, c)| + if times[n].stopId == stop && Scheduled(c.tripId, times[n], shift) == c then 1 else 0
  {
    var n := |times| - 1;
    RowSetGrows(times, shift, stop, c);
    assert n !in RowSet(times[..n], shift, stop, c);
    hide RowSet, Scheduled;
  }

  lemma RowSetGrows(times: seq<StopTime>, shift: int, stop: string, c: Sched)
    requires times != []
    ensures var n := |times| - 1;
      RowSet(times, shift, stop, c) == RowSet(times[..n], shift, stop, c) + if times[n].stopId == stop && Scheduled(c.tripId, times[n], shift) == c then {n} else {}
  {
    hide Scheduled;
    var n := |times| - 1;
    forall k: nat | k < n ensures times[..n][k] == times[k] {}
  }

  /** A trip running on the date stands on the board at the times its table gives, whether or not it
      ran the day before. */
  lemma DailyTripIsOnTheBoard(store: GtfsStore, date: Date, tripId: string, k: nat)
    requires ServiceOn(store, tripId, date) && tripId in store.stopTimes && k < |store.stopTimes[tripId]|
    ensures var st := store.stopTimes[tripId][k]; var c := Sched(tripId, st.arrival, st.departure, st.stopSequence, true);
      c in AllCalls(store, date, st.stopId) && c in Where(AllCalls(store, date, st.stopId), DepartureBoard.Kept)
  {
    var st := store.stopTimes[tripId][k];
    var c := Sched(tripId, st.arrival, st.departure, st.stopSequence, true);
    assert IsRow(store, date, st.stopId, c, k);
    CallIffRow(store, date, st.stopId, c);
    assert Where(AllCalls(store, date, st.stopId), DepartureBoard.Kept)[c] == AllCalls(store, date, st.stopId)[c];
  }
}
