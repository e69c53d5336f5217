/** Train punctuality from end to end: a journey revision, its delay curve, and the delay the fleet
    shows for the train (crates/realtime/src/ns_rit.rs, crates/core/src/trains.rs,
    crates/core/src/state.rs). */
module Punctuality {
  import opened Collections
  import opened Domain
  import opened LiveState
  import opened Lifecycle
  import opened TrainDelays
  import Gtfs
  import NsPositions
  import RitInfo
  import Xml

  /** The trip shows the delay of the point that answers for `at` among `points`. */
  ghost predicate ShowsDelay(s: Status, points: seq<DelayPoint>, at: Instant) {
    s.delayKnown && exists k: nat :: Answers(points, at, k) && s.delaySeconds == points[k].delaySeconds
  }

  /** The event is about a train whose number the store has a curve for. */
  ghost predicate HasCurve(ev: PosEvent, w: World, points: seq<DelayPoint>) {
    && ev.kind != End && ev.key.dataowner == Gtfs.TRAIN_DATAOWNER && ev.journeyNumber.Some?
    && w.delays.Some? && ev.journeyNumber.value in w.delays.value
    && w.delays.value[ev.journeyNumber.value].points == Curve(points)
  }

  /** After an event of a train with a curve, the trip's delay is that of the station expected next at
      the event's time; an empty curve leaves what the event and the trip said. */
  lemma EventShowsDelay(slot: Option<LiveTrip>, ev: PosEvent, w: World, points: seq<DelayPoint>)
    requires HasCurve(ev, w, points) && (slot.Some? ==> slot.value.key == ev.key)
    ensures var s := ApplyToSlot(slot, ev, w).value.status;
      && (points != [] ==> ShowsDelay(s, points, ev.timestamp))
      && (points == [] ==> s.delaySeconds == ev.punctuality.GetOr(BaseTrip(slot, ev).status.delaySeconds))
  {
    var base := BaseTrip(slot, ev);
    var u := Updated(base.(status := StopMarked(base.status, ev)), ev, w.geo);
    AtIsKnown(points, ev.timestamp);
    Gtfs.EnrichmentOnlyAdds(w.store, w.clock, TrainDelayed(u, w));
    AnchorLeavesStatus(Refreshed(base, ev, w), ev, w);
    hide Gtfs.Enriched, UpdatedMotion, Anchored, Curve, At, Answers;
  }

  lemma AnchorLeavesStatus(t: LiveTrip, ev: PosEvent, w: World)
    ensures Anchored(t, ev, w).status == t.status
  {
    hide Gtfs.ScheduledPosition;
  }

  // ---------------------------------------------------------------- in every history

  /** No owner code contains the separator, so ids identify vehicles. */
  ghost predicate PlainOwners(ops: seq<Op>) {
    forall op :: op in ops && op.Event? ==> ':' !in op.ev.key.dataowner
  }

  lemma {:induction false} SlotsHoldTheirVehicle(ops: seq<Op>, staleAfter: int)
    requires PlainOwners(ops)
    ensures forall id :: id in Run(ops, staleAfter) ==> ':' !in Run(ops, staleAfter)[id].key.dataowner
  {
    if ops != [] {
      var front, op := ops[..|ops| - 1], ops[|ops| - 1];
      assert ops == front + [op];
      SlotsHoldTheirVehicle(front, staleAfter);
      if op.Event? && op.ev.kind != End {
        IdentityKept(Lookup(Run(front, staleAfter), op.ev.key.Id()), op.ev, op.w);
        hide Refreshed, Anchored;
      }
    }
  }

  lemma SlotIsOfVehicle(past: seq<Op>, key: VehicleKey, staleAfter: int)
    requires PlainOwners(past) && ':' !in key.dataowner && key.Id() in Run(past, staleAfter)
    ensures Run(past, staleAfter)[key.Id()].key == key
  {
    AlwaysKeyed(past, staleAfter);
    SlotsHoldTheirVehicle(past, staleAfter);
    IdIdentifies(Run(past, staleAfter)[key.Id()].key, key);
  }

  /** In every history, an event of a train with a curve leaves its trip with the answering delay. */
  lemma FleetShowsDelay(past: seq<Op>, staleAfter: int, ev: PosEvent, w: World, points: seq<DelayPoint>)
    requires PlainOwners(past) && HasCurve(ev, w, points)
    ensures ev.key.Id() in Run(past + [Event(ev, w)], staleAfter)
    ensures points != [] ==> ShowsDelay(Run(past + [Event(ev, w)], staleAfter)[ev.key.Id()].status, points, ev.timestamp)
  {
    hide ApplyToSlot, ShowsDelay, Step;
    var id, slot := ev.key.Id(), Lookup(Run(past, staleAfter), ev.key.Id());
    if slot.Some? {
      SlotIsOfVehicle(past, ev.key, staleAfter);
    }
    EventShowsDelay(slot, ev, w, points);
    EventIsApplied(slot, ev, w);
    assert (past + [Event(ev, w)])[..|past|] == past;
    StepOnSlot(Run(past, staleAfter), Event(ev, w), staleAfter, id);
    hide Run;
  }

  lemma EventIsApplied(slot: Option<LiveTrip>, ev: PosEvent, w: World)
    requires ev.kind != End
    ensures ApplyToSlot(slot, ev, w).Some?
  {}

  /** From feed to fleet, in every history: a decoded fix of a train whose last standing revision was
      decoded from a journey document leaves the train's trip with the delay of the station that
      document expects next at the time of the fix, in whatever order it lists its stations. */
  lemma DelayReachesFleet(past: seq<Op>, staleAfter: int,
                          fixes: seq<Xml.Token>, rd: Xml.Reader, g: NsPositions.Gate, ev: PosEvent, w: World,
                          revisions: seq<DelayOp>, k: nat, journey: seq<RitInfo.Item>)
    requires PlainOwners(past) && ev in NsPositions.Run(NsPositions.IDLE, fixes, rd, g).events
    requires w.delays == Some(History(revisions)) && Stands(revisions, ev.key.vehicleNumber, k)
    requires (forall i :: i in journey ==> RitInfo.WellFormed(i))
      && RitInfo.Update(RitInfo.Run(RitInfo.IDLE, RitInfo.DocTokens(journey), rd).core) == Some(revisions[k].u)
    ensures var points := RitInfo.Points(RitInfo.Blocks(journey), rd);
      && ev.key.Id() in Run(past + [Event(ev, w)], staleAfter)
      && (points != [] ==> ShowsDelay(Run(past + [Event(ev, w)], staleAfter)[ev.key.Id()].status, points, ev.timestamp))
  {
    NsPositions.EveryFixIsAccepted(fixes, rd, g);
    assert NsPositions.Accepted(ev, g);
    RitInfo.DocumentDecodes(journey, rd);
    LastRevisionStands(revisions, ev.key.vehicleNumber);
    var points := RitInfo.Points(RitInfo.Blocks(journey), rd);
    assert HasCurve(ev, w, points);
    hide HasCurve, History, Stands, ShowsDelay, Run;
    FleetShowsDelay(past, staleAfter, ev, w, points);
  }
}
