/** Concrete runs that reach the states in which the stronger claims fail. */
module Scenarios {
  import opened Collections
  import opened Domain
  import opened LiveState
  import opened VehicleIndexes
  import opened StreamServer
  import opened VehicleStores
  import opened LiveClients
  import opened Replication
  import opened Convergence
  import Gtfs
  import Lifecycle
  import Watchdog

  const START := System(map[], map[], map[], map[], NewClient(true), map[], [])

  lemma StartIsReachable()
    ensures Reachable(START)
  {
    var states: seq<System>, steps: seq<Step> := [START], [];
    assert Behavior(states, steps) && states[|steps|] == START;
  }

  /** Reachability is closed under steps. */
  lemma StepIsReachable(s: System, step: Step)
    requires Reachable(s) && Enabled(s, step)
    ensures Reachable(After(s, step))
  {
    hide Initial, Enabled, After;
    var states, steps :| Behavior(states, steps) && states[|steps|] == s;
    var states2, steps2 := states + [After(s, step)], steps + [step];
    assert Behavior(states2, steps2) && states2[|steps2|] == After(s, step);
  }

  // ---------------------------------------------------------------- an unwatched connection

  // Connected and opened.
  lemma OpenedRun(view: View) returns (s: System)
    ensures Reachable(s) && s.client.watchful && s.client.ws == Some(0) && s.client.view.Some?
    ensures s.socks == map[0 := SockOpen]
  {
    hide Reachable;
    StartIsReachable();
    StepIsReachable(START, Connect(view, 0));
    var s1 := After(START, Connect(view, 0));
    StepIsReachable(s1, SocketOpens(0));
    s := After(s1, SocketOpens(0));
  }

  // ... and suspended: the old socket is closing.
  lemma SuspendedRun(view: View) returns (s: System)
    ensures Reachable(s) && s.client.watchful && s.client.ws.None? && s.client.view.Some?
    ensures s.socks == map[0 := SockClosing]
  {
    hide Reachable;
    var s2 := OpenedRun(view);
    StepIsReachable(s2, Suspend);
    s := After(s2, Suspend);
  }

  // ... and resumed on a second one.
  lemma ResumedRun(view: View) returns (s: System)
    ensures Reachable(s) && s.client.watchful && s.client.ws == Some(1)
    ensures s.socks == map[0 := SockClosing, 1 := SockOpen]
  {
    hide Reachable;
    var s3 := SuspendedRun(view);
    StepIsReachable(s3, Resume(1));
    var s4 := After(s3, Resume(1));
    StepIsReachable(s4, SocketOpens(1));
    s := After(s4, SocketOpens(1));
  }

  /** Suspend and resume while the old socket takes its time to close: the new socket is open and
      current, and nothing watches it. */
  lemma LateCloseLeavesUnwatched(view: View) returns (s: System)
    ensures Reachable(s) && s.client.watchful && CurrentOpen(s) && !Watchdog.IsArmed(s)
  {
    hide Reachable;
    var s5 := ResumedRun(view);
    StepIsReachable(s5, SocketCloses(0));
    s := After(s5, SocketCloses(0));
  }

  // ---------------------------------------------------------------- connecting twice

  /** `connect` while the first socket is still connecting leaves two live sockets. */
  lemma ConnectTwice(view: View) returns (s: System)
    ensures Reachable(s) && 1 !in s.socks
    ensures var t := WithSocket(s, 1, Connecting(s.client, view, 1)); Live(t, 0) && Live(t, 1) && !OneConnection(t)
  {
    StartIsReachable();
    StepIsReachable(START, Connect(view, 0));
    hide Reachable;
    s := After(START, Connect(view, 0));
  }

  /** `connect` while a retry is pending leaves a live socket beside it. */
  lemma ConnectDuringRetry(view: View) returns (s: System)
    ensures Reachable(s) && 1 !in s.socks
    ensures var t := WithSocket(s, 1, Connecting(s.client, view, 1)); Live(t, 1) && t.client.retryPending && !OneConnection(t)
  {
    hide Reachable;
    StartIsReachable();
    StepIsReachable(START, Connect(view, 0));
    var s1 := After(START, Connect(view, 0));
    StepIsReachable(s1, SocketCloses(0));
    s := After(s1, SocketCloses(0));
  }

  // ---------------------------------------------------------------- one vehicle on the map

  const KEY := VehicleKey("A", "1")
  const ID := KEY.Id()

  /** A bus reports where it is, and how late it is if `late` says so. */
  function Report(late: Option<I32>): PosEvent {
    PosEvent(KEY, OnRoute, None, None, None, None, None, None, Some(Finite(52.0)), Some(Finite(5.0)), None, None, None, late, None, 0)
  }

  predicate Here(t: LiveTrip) {
    t.id == ID && t.motion.lat == Finite(52.0) && t.motion.lon == Finite(5.0)
  }

  // A report alone decides what the trip says of place, delay and stop.
  lemma ReportApplies(slot: Option<LiveTrip>, late: Option<I32>, w: World)
    requires w.delays.None? && (slot.Some? ==> slot.value.id == ID && slot.value.key == KEY)
    ensures var t := ApplyToSlot(slot, Report(late), w).value;
      Here(t) && t.key == KEY && t.status == UpdatedStatus(StopMarked(BaseTrip(slot, Report(late)).status, Report(late)), Report(late))
  {
    var ev := Report(late);
    var base := BaseTrip(slot, ev);
    IdentityKept(slot, ev, w);
    Lifecycle.EventPlaces(slot, ev, w);
    var u := Updated(base.(status := StopMarked(base.status, ev)), ev, w.geo);
    Gtfs.EnrichmentOnlyAdds(w.store, w.clock, TrainDelayed(u, w));
    hide Gtfs.Enriched;
  }

  /** The fleet after one report. */
  lemma OneTrip(w: World)
    requires w.delays.None?
    ensures var trips := Applied(map[], Report(None), w);
      trips.Keys == {ID} && Here(trips[ID]) && trips[ID].key == KEY && Positioned(trips) == trips
    ensures var status := Applied(map[], Report(None), w)[ID].status;
      !status.delayKnown && status.delaySeconds == 0 && !status.atStop && status.speedKmh == None
  {
    ReportApplies(None, None, w);
    hide ApplyToSlot;
  }

  // Connected and open, with the bus published.
  lemma OpenRun(view: View, w: World) returns (s: System)
    requires w.delays.None?
    ensures Reachable(s) && s.trips == Applied(map[], Report(None), w) && s.index == Positioned(s.trips)
    ensures s.socks == map[0 := SockOpen] && s.client.ws == Some(0)
    ensures s.conns == map[0 := IDLE.(up := [SubscribeMsg(view, [])])] && s.vehicles == map[] && s.client.pinned == []
  {
    hide Reachable, Applied, Positioned;
    StartIsReachable();
    StepIsReachable(START, Ingest(Report(None), w));
    var s1 := After(START, Ingest(Report(None), w));
    StepIsReachable(s1, Publish);
    var s2 := After(s1, Publish);
    StepIsReachable(s2, Connect(view, 0));
    var s3 := After(s2, Connect(view, 0));
    StepIsReachable(s3, SocketOpens(0));
    s := After(s3, SocketOpens(0));
    assert s.conns[0].up == [SubscribeMsg(view, [])];
  }

  // ... and its subscription read, with the selection set.
  lemma SubscribedRun(view: View, w: World, selected: seq<string>) returns (s: System)
    requires w.delays.None?
    ensures Reachable(s) && s.trips == Applied(map[], Report(None), w) && s.index == Positioned(s.trips)
    ensures s.socks == map[0 := SockOpen] && s.client.ws == Some(0) && s.vehicles == map[] && s.selected == selected
    ensures s.conns == map[0 := IDLE.(sub := Some(Sub(view.bbox, view.filters, [], map[], true)))]
  {
    hide Reachable, Applied, Positioned;
    var s1 := OpenRun(view, w);
    StepIsReachable(s1, Select(selected));
    var s2 := After(s1, Select(selected));
    StepIsReachable(s2, ServerReceives(0));
    s := After(s2, ServerReceives(0));
    assert s.conns[0].up == [];
  }

  // ---------------------------------------------------------------- gone while running

  const FAR := BBox(0.0, 0.0, 1.0, 1.0)

  /** A selected bus that is out of view and not pinned is reported gone by the first snapshot,
      although the published index has it. */
  lemma GoneWhileRunning(w: World) returns (s: System)
    requires w.delays.None?
    ensures Reachable(s) && Enabled(s, SocketDelivers(0)) && s.conns[0].down[0].Frame?
    ensures var d := s.conns[0].down[0]; ID in d.tick.idx && ID in Gone(s.vehicles, d.update, s.selected)
  {
    var view, frame := View(FAR, 12, NO_FILTERS), Update([], [], [], true);
    var s1 := SubscribedRun(view, w, [ID]);
    OneTrip(w);
    hide Reachable, Applied, Positioned, FrameFor, Visible, Quiet, Gone, IndexOk, ID;
    NothingSeen(s1.index, s1.trips[ID], s1.conns[0].sub.value);
    s := FirstTickRun(s1, frame);
  }

  // A tick of the one connection puts its frame on an empty channel.
  lemma FirstTickRun(s1: System, frame: Update) returns (s: System)
    requires Reachable(s1) && IsOpen(s1, 0) && s1.conns.Keys == {0} && s1.conns[0].alive && s1.conns[0].down == [] && s1.conns[0].sub.Some?
    requires IndexOk(s1.index) && s1.conns[0].sub.value.forceSnapshot && FrameFor(s1.index, s1.conns[0].sub.value, frame)
    ensures Reachable(s) && IsOpen(s, 0) && s.conns.Keys == {0} && s.conns[0].alive
    ensures s.conns[0].down == [Frame(frame, Tick(s1.index, s1.conns[0].sub.value))]
    ensures s.conns[0].sub == Some(Ticked(s1.index, s1.conns[0].sub.value))
    ensures s.trips == s1.trips && s.vehicles == s1.vehicles && s.selected == s1.selected && s.socks == s1.socks
  {
    hide Reachable, Applied, Positioned, FrameFor, Visible, Ticked;
    StepIsReachable(s1, ServerTicks(0, Some(frame)));
    s := After(s1, ServerTicks(0, Some(frame)));
    assert s.conns[0].down == [Frame(frame, Tick(s1.index, s1.conns[0].sub.value))];
  }

  // What the first tick owes a view elsewhere, and what it reports.
  lemma NothingSeen(idx: Index, t: LiveTrip, sub: Sub)
    requires idx == map[ID := t] && Here(t) && sub == Sub(FAR, NO_FILTERS, [], map[], true)
    ensures IndexOk(idx) && FrameFor(idx, sub, Update([], [], [], true)) && Visible(idx, sub) == {}
    ensures ID in Gone(map[], Update([], [], [], true), [ID])
  {
    assert Visible(idx, sub) == {};
    assert Missing([ID], Replayed(map[], Update([], [], [], true))) == [ID];
  }

  // ---------------------------------------------------------------- a delay that stays unknown

  const NEAR := BBox(50.0, 3.0, 54.0, 7.0)

  // What the first tick owes a view of the bus.
  lemma SnapshotOwed(idx: Index, t: LiveTrip, sub: Sub)
    requires idx == map[ID := t] && Here(t) && sub == Sub(NEAR, NO_FILTERS, [], map[], true)
    ensures Visible(idx, sub) == {ID} && IndexOk(idx) && FrameFor(idx, sub, Update([ToState(t)], [], [], true))
    ensures Ticked(idx, sub) == Sub(NEAR, NO_FILTERS, [], map[ID := SentOf(t)], false)
  {
    assert Visible(idx, sub) == {ID};
  }

  // The first snapshot is on its way.
  lemma SnapshotRun(w: World) returns (s: System)
    requires w.delays.None?
    ensures Reachable(s) && s.trips == Applied(map[], Report(None), w) && ID in s.trips && Here(s.trips[ID])
    ensures s.socks == map[0 := SockOpen] && s.vehicles == map[] && s.conns.Keys == {0} && s.conns[0].alive
    ensures exists tick :: s.conns[0].down == [Frame(Update([ToState(s.trips[ID])], [], [], true), tick)]
    ensures s.conns[0].sub == Some(Sub(NEAR, NO_FILTERS, [], map[ID := SentOf(s.trips[ID])], false))
  {
    var s1 := SubscribedRun(View(NEAR, 12, NO_FILTERS), w, []);
    OneTrip(w);
    var sub, t := s1.conns[0].sub.value, s1.trips[ID];
    var frame := Update([ToState(t)], [], [], true);
    SnapshotOwed(s1.index, t, sub);
    hide Reachable, Applied, Positioned, FrameFor, Visible, Ticked, Quiet;
    s := FirstTickRun(s1, frame);
  }

  lemma SnapshotReplayed(v: Vehicle)
    requires v.id == ID
    ensures Replayed(map[], Update([v], [], [], true)) == map[ID := v]
  {
    hide ID;
    assert [v][..0] == [];
    assert SetAll(map[], [v]) == map[v.id := v];
    assert MoveAll(map[v.id := v], []) == map[v.id := v];
  }

  // The bus is on the client's map, and every frame delivered.
  lemma ShownRun(w: World) returns (s: System)
    requires w.delays.None?
    ensures Reachable(s) && s.trips == Applied(map[], Report(None), w) && ID in s.trips && Here(s.trips[ID])
    ensures s.socks == map[0 := SockOpen] && s.vehicles == map[ID := ToState(s.trips[ID])]
    ensures s.conns.Keys == {0} && s.conns[0].down == [] && s.conns[0].alive
    ensures s.conns[0].sub == Some(Sub(NEAR, NO_FILTERS, [], map[ID := SentOf(s.trips[ID])], false))
  {
    var s2 := SnapshotRun(w);
    var v := ToState(s2.trips[ID]);
    SnapshotReplayed(v);
    hide Reachable, Applied, Positioned, Replayed;
    StepIsReachable(s2, SocketDelivers(0));
    s := After(s2, SocketDelivers(0));
  }

  // A tick has nothing to say about a delay that became known to be zero.
  lemma NothingOwed(idx: Index, t: LiveTrip, sub: Sub)
    requires idx.Keys == {ID} && idx[ID] == t && Here(t) && sub == Sub(NEAR, NO_FILTERS, [], map[ID := SentOf(t)], false)
    ensures IndexOk(idx) && Quiet(idx, sub)
  {
    assert Visible(idx, sub) == {ID};
  }

  // The bus reports that it is on time.
  lemma ReportedRun(w: World) returns (s: System)
    requires w.delays.None?
    ensures Reachable(s) && s.trips.Keys == {ID} && Here(s.trips[ID]) && s.trips[ID].status.delayKnown && Positioned(s.trips) == s.trips
    ensures ID in s.vehicles && !s.vehicles[ID].delayKnown
    ensures s.socks == map[0 := SockOpen] && s.conns.Keys == {0} && s.conns[0].down == [] && s.conns[0].alive
    ensures s.conns[0].sub == Some(Sub(NEAR, NO_FILTERS, [], map[ID := SentOf(s.trips[ID])], false))
  {
    var s1 := ShownRun(w);
    OnTimeTrip(s1.trips, w);
    OneTrip(w);
    hide Reachable, Applied, Positioned;
    StepIsReachable(s1, Ingest(Report(Some(0)), w));
    s := After(s1, Ingest(Report(Some(0)), w));
  }

  // ... and the report is published.
  lemma OnTimeRun(w: World) returns (s: System)
    requires w.delays.None?
    ensures Reachable(s) && s.index.Keys == {ID} && s.index[ID].status.delayKnown
    ensures ID in s.vehicles && !s.vehicles[ID].delayKnown
    ensures s.socks == map[0 := SockOpen] && s.conns.Keys == {0} && s.conns[0].down == [] && s.conns[0].alive
    ensures s.conns[0].sub.Some? && IndexOk(s.index) && Quiet(s.index, s.conns[0].sub.value)
  {
    var s2 := ReportedRun(w);
    NothingOwed(s2.trips, s2.trips[ID], s2.conns[0].sub.value);
    hide Reachable, Positioned, Quiet, IndexOk;
    StepIsReachable(s2, Publish);
    s := After(s2, Publish);
  }

  lemma OnTimeTrip(trips: Trips, w: World)
    requires w.delays.None? && trips == Applied(map[], Report(None), w)
    ensures ID in trips && Here(trips[ID])
    ensures var now := Applied(trips, Report(Some(0)), w);
      && now.Keys == {ID} && Here(now[ID]) && now[ID].status.delayKnown && SentOf(now[ID]) == SentOf(trips[ID])
      && Positioned(now) == now
  {
    OneTrip(w);
    ReportApplies(Some(trips[ID]), Some(0), w);
    hide ApplyToSlot;
  }

  /** The delay becomes known to be zero, the server ticks, nothing is left in flight, and the
      client still shows it as unknown. */
  lemma KnownDelayShownUnknown(w: World) returns (s: System)
    requires w.delays.None?
    ensures Reachable(s) && IsOpen(s, 0) && 0 in s.conns && s.conns[0].down == []
    ensures s.conns[0].last.Some? && s.conns[0].last.value.idx == s.index
    ensures ID in s.index && ID in s.vehicles && s.index[ID].status.delayKnown && !s.vehicles[ID].delayKnown
  {
    var s3 := OnTimeRun(w);
    hide Reachable, Quiet, Visible;
    StepIsReachable(s3, ServerTicks(0, None));
    s := After(s3, ServerTicks(0, None));
  }
}
