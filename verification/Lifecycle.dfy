/** What holds of the fleet over every history of events and staleness sweeps. */
module Lifecycle {
  import opened Collections
  import opened Domain
  import opened LiveState
  import Gtfs

  datatype Op = Event(ev: PosEvent, w: World) | Sweep(now: Instant)

  function Step(trips: Trips, op: Op, staleAfter: int): Trips {
    match op
    case Event(ev, w) => Applied(trips, ev, w)
    case Sweep(now) => Pruned(trips, now, staleAfter)
  }

  /** The fleet after a history. */
  function Run(ops: seq<Op>, staleAfter: int): Trips {
    if ops == [] then map[] else Step(Run(ops[..|ops| - 1], staleAfter), ops[|ops| - 1], staleAfter)
  }

  function SlotStep(slot: Option<LiveTrip>, op: Op, staleAfter: int): Option<LiveTrip> {
    match op
    case Event(ev, w) => ApplyToSlot(slot, ev, w)
    case Sweep(now) => if slot.Some? && !Fresh(slot.value, now, staleAfter) then None else slot
  }

  /** One vehicle's slot after a history of its own. */
  function SlotRun(ops: seq<Op>, staleAfter: int): Option<LiveTrip> {
    if ops == [] then None else SlotStep(SlotRun(ops[..|ops| - 1], staleAfter), ops[|ops| - 1], staleAfter)
  }

  /** The part of a history that can concern vehicle `id`: its events, and every sweep. */
  predicate Concerns(op: Op, id: string) {
    op.Sweep? || op.ev.key.Id() == id
  }

  function Own(ops: seq<Op>, id: string): seq<Op> {
    Filter(ops, op => Concerns(op, id))
  }

  lemma SlotRunAppend(a: seq<Op>, op: Op, staleAfter: int)
    ensures SlotRun(a + [op], staleAfter) == SlotStep(SlotRun(a, staleAfter), op, staleAfter)
  {
    hide SlotStep;
    assert (a + [op])[..|a|] == a;
  }

  // ---------------------------------------------------------------- vehicles are independent

  lemma OwnAppend(ops: seq<Op>, op: Op, id: string)
    ensures Own(ops + [op], id) == if Concerns(op, id) then Own(ops, id) + [op] else Own(ops, id)
  {
    FilterAppend(ops, [op], o => Concerns(o, id));
    assert Filter([op], o => Concerns(o, id)) == if Concerns(op, id) then [op] else [];
  }

  lemma StepOnSlot(trips: Trips, op: Op, staleAfter: int, id: string)
    ensures Lookup(Step(trips, op, staleAfter), id)
         == if Concerns(op, id) then SlotStep(Lookup(trips, id), op, staleAfter) else Lookup(trips, id)
  {
    hide ApplyToSlot;
  }

  /** In every history, each vehicle is exactly what its own events and the sweeps make it: no
      other vehicle's traffic can touch it. */
  lemma {:induction false} VehiclesAreIndependent(ops: seq<Op>, staleAfter: int, id: string)
    ensures Lookup(Run(ops, staleAfter), id) == SlotRun(Own(ops, id), staleAfter)
  {
    hide Step;
    hide SlotStep;
    hide Concerns;
    if ops != [] {
      var init, op := ops[..|ops| - 1], ops[|ops| - 1];
      assert ops == init + [op];
      VehiclesAreIndependent(init, staleAfter, id);
      StepOnSlot(Run(init, staleAfter), op, staleAfter, id);
      OwnAppend(init, op, id);
      if Concerns(op, id) {
        SlotRunAppend(Own(init, id), op, staleAfter);
      }
    }
  }

  /** Slot key, trip id and vehicle key agree in every reachable fleet. */
  lemma {:induction false} AlwaysKeyed(ops: seq<Op>, staleAfter: int)
    ensures Keyed(Run(ops, staleAfter))
  {
    if ops != [] {
      var init, op := ops[..|ops| - 1], ops[|ops| - 1];
      AlwaysKeyed(init, staleAfter);
      match op
      case Event(ev, w) => KeyedKept(Run(init, staleAfter), ev, w, 0, staleAfter);
      case Sweep(now) =>
    }
  }

  // ---------------------------------------------------------------- resets

  /** The operation discards whatever the slot held: INIT, END, first sight, a journey change, or
      a sweep that removes the trip. */
  predicate Resets(slot: Option<LiveTrip>, op: Op, staleAfter: int) {
    match op
    case Event(ev, _) => ev.kind == Init || ev.kind == End || slot.None? || NewJourney(slot.value, ev)
    case Sweep(now) => slot.None? || !Fresh(slot.value, now, staleAfter)
  }

  lemma ResetStep(slot: Option<LiveTrip>, op: Op, staleAfter: int)
    requires Resets(slot, op, staleAfter)
    ensures SlotStep(slot, op, staleAfter) == SlotStep(None, op, staleAfter)
  {
    if op.Event? && op.ev.kind != End {
      assert BaseTrip(slot, op.ev) == BaseTrip(None, op.ev);
    }
  }

  /** A vehicle's state depends only on what happened since its last reset: whatever came before
      is forgotten, over all continuations. */
  lemma {:induction false} ResetForgets(past: seq<Op>, op: Op, since: seq<Op>, staleAfter: int)
    requires Resets(SlotRun(past, staleAfter), op, staleAfter)
    ensures SlotRun(past + [op] + since, staleAfter) == SlotRun([op] + since, staleAfter)
  {
    hide SlotStep;
    if since == [] {
      assert past + [op] + since == past + [op] && [op] + since == [] + [op];
      SlotRunAppend(past, op, staleAfter);
      SlotRunAppend([], op, staleAfter);
      ResetStep(SlotRun(past, staleAfter), op, staleAfter);
    } else {
      var init, last := since[..|since| - 1], since[|since| - 1];
      ResetForgets(past, op, init, staleAfter);
      assert past + [op] + since == (past + [op] + init) + [last];
      assert [op] + since == ([op] + init) + [last];
      SlotRunAppend(past + [op] + init, last, staleAfter);
      SlotRunAppend([op] + init, last, staleAfter);
    }
  }

  /** Nothing after the first operation of `h` resets the slot. */
  ghost predicate OneLife(h: seq<Op>, staleAfter: int) {
    && h != []
    && forall i :: 0 < i < |h| ==> !Resets(SlotRun(h[..i], staleAfter), h[i], staleAfter)
  }

  lemma LifeExtends(g: seq<Op>, op: Op, staleAfter: int)
    requires OneLife(g, staleAfter) && !Resets(SlotRun(g, staleAfter), op, staleAfter)
    ensures OneLife(g + [op], staleAfter)
  {
    hide Resets;
    hide SlotRun;
    var h := g + [op];
    forall i | 0 < i < |h| ensures !Resets(SlotRun(h[..i], staleAfter), h[i], staleAfter) {
      if i < |g| {
        assert h[..i] == g[..i] && h[i] == g[i];
      } else {
        assert h[..i] == g;
      }
    }
  }

  /** Every non-empty history ends in a single life that alone determines the slot. */
  lemma {:induction false} LastLife(h: seq<Op>, staleAfter: int) returns (k: nat)
    requires h != []
    ensures k < |h| && Resets(SlotRun(h[..k], staleAfter), h[k], staleAfter)
    ensures OneLife(h[k..], staleAfter) && SlotRun(h, staleAfter) == SlotRun(h[k..], staleAfter)
  {
    var n := |h| - 1;
    assert Resets(SlotRun([], staleAfter), h[0], staleAfter);
    hide SlotRun;
    hide Resets;
    if n == 0 {
      k := 0;
      assert h[..k] == [] && h[k..] == [h[k]];
    } else if Resets(SlotRun(h[..n], staleAfter), h[n], staleAfter) {
      k := n;
      assert h[k..] == [h[k]];
    } else {
      k := LastLife(h[..n], staleAfter);
      assert h[..n][..k] == h[..k] && h[..n][k] == h[k];
      LifeExtends(h[..n][k..], h[n], staleAfter);
      assert h[..n][k..] + [h[n]] == h[k..];
    }
    LifeDecides(h, k, staleAfter);
  }

  lemma LifeDecides(h: seq<Op>, k: nat, staleAfter: int)
    requires k < |h| && Resets(SlotRun(h[..k], staleAfter), h[k], staleAfter)
    ensures SlotRun(h, staleAfter) == SlotRun(h[k..], staleAfter)
  {
    hide SlotRun;
    hide Resets;
    ResetForgets(h[..k], h[k], h[k + 1..], staleAfter);
    assert h == h[..k] + [h[k]] + h[k + 1..] && h[k..] == [h[k]] + h[k + 1..];
  }

  /** The prefix of a life is a life. */
  lemma LifePrefix(h: seq<Op>, staleAfter: int)
    requires OneLife(h, staleAfter) && |h| > 1
    ensures OneLife(h[..|h| - 1], staleAfter)
  {
    var init := h[..|h| - 1];
    forall i | 0 < i < |init| ensures !Resets(SlotRun(init[..i], staleAfter), init[i], staleAfter) {
      assert init[..i] == h[..i];
    }
  }

  // ---------------------------------------------------------------- what every trip satisfies

  /** Not at a stop means no current stop; an unknown delay is zero. */
  predicate Honest(s: Status) {
    && (!s.atStop ==> s.currentStopId.None?)
    && (!s.delayKnown ==> s.delaySeconds == 0)
  }

  lemma DelayFacts(t: LiveTrip, w: World)
    ensures var d := TrainDelayed(t, w);
      && (Honest(t.status) ==> Honest(d.status))
      && d.journey.journeyNumber == t.journey.journeyNumber
      && d.status.lastUpdate == t.status.lastUpdate && d.schedule == t.schedule && d.motion == t.motion
  {}

  lemma RefreshFacts(base: LiveTrip, ev: PosEvent, w: World)
    ensures var t := Refreshed(base, ev, w);
      && (Honest(base.status) ==> Honest(t.status))
      && t.journey.journeyNumber == (if ev.journeyNumber.Some? then ev.journeyNumber else base.journey.journeyNumber)
      && t.status.lastUpdate == ev.timestamp
      && (base.schedule.matchedTripId.Some? ==> t.schedule.matchedTripId == base.schedule.matchedTripId)
  {
    hide Gtfs.Enriched;
    hide UpdatedMotion;
    hide TrainDelayed;
    var u := Updated(base.(status := StopMarked(base.status, ev)), ev, w.geo);
    DelayFacts(u, w);
    Gtfs.EnrichmentOnlyAdds(w.store, w.clock, TrainDelayed(u, w));
  }

  lemma StepFacts(slot: Option<LiveTrip>, ev: PosEvent, w: World)
    requires ev.kind != End
    ensures var base, t := BaseTrip(slot, ev), ApplyToSlot(slot, ev, w).value;
      && (Honest(base.status) ==> Honest(t.status))
      && t.journey.journeyNumber == (if ev.journeyNumber.Some? then ev.journeyNumber else base.journey.journeyNumber)
      && t.status.lastUpdate == ev.timestamp
      && (base.schedule.matchedTripId.Some? ==> t.schedule.matchedTripId == base.schedule.matchedTripId)
  {
    RefreshFacts(BaseTrip(slot, ev), ev, w);
    hide Refreshed;
    hide BaseTrip;
    hide Gtfs.ScheduledPosition;
  }

  lemma {:induction false} AlwaysHonest(h: seq<Op>, staleAfter: int)
    ensures SlotRun(h, staleAfter).Some? ==> Honest(SlotRun(h, staleAfter).value.status)
  {
    if h != [] {
      var init, op := h[..|h| - 1], h[|h| - 1];
      AlwaysHonest(init, staleAfter);
      if op.Event? && op.ev.kind != End {
        StepFacts(SlotRun(init, staleAfter), op.ev, op.w);
      }
    }
  }

  /** Within one life a known journey never changes, and neither does a GTFS match once made. */
  lemma {:induction false} JourneyIsStable(h: seq<Op>, staleAfter: int, i: nat)
    requires OneLife(h, staleAfter) && 0 < i <= |h|
    requires SlotRun(h[..i], staleAfter).Some? && SlotRun(h, staleAfter).Some?
    ensures var earlier, now := SlotRun(h[..i], staleAfter).value, SlotRun(h, staleAfter).value;
      && (earlier.journey.journeyNumber.Some? ==> now.journey.journeyNumber == earlier.journey.journeyNumber)
      && (earlier.schedule.matchedTripId.Some? ==> now.schedule.matchedTripId == earlier.schedule.matchedTripId)
  {
    if i == |h| {
      assert h[..i] == h;
    } else {
      var init, op := h[..|h| - 1], h[|h| - 1];
      assert !Resets(SlotRun(init, staleAfter), op, staleAfter);
      LifePrefix(h, staleAfter);
      assert init[..i] == h[..i];
      JourneyIsStable(init, staleAfter, i);
      if op.Event? {
        StepFacts(SlotRun(init, staleAfter), op.ev, op.w);
      }
    }
  }

  // ---------------------------------------------------------------- where a vehicle is

  function Fix(op: Op): Option<(Num, Num)> {
    match op
    case Event(ev, w) => FixFrom(ev, w.geo)
    case Sweep(_) => None
  }

  /** The station the feed names for the `i`th operation of a history, if it asks for one. */
  function Answer(h: seq<Op>, i: nat, staleAfter: int): Option<(Num, Num)>
    requires i < |h|
  {
    match h[i]
    case Sweep(_) => None
    case Event(ev, w) =>
      if !StationEvent(ev.kind) then None
      else Gtfs.ScheduledPosition(w.store, w.clock, Refreshed(BaseTrip(SlotRun(h[..i], staleAfter), ev), ev, w))
  }

  /** One past the last operation of `h` that carried a real fix; 0 when none did. */
  function LastFix(h: seq<Op>): (k: nat)
    ensures k <= |h| && (k > 0 ==> Fix(h[k - 1]).Some?)
  {
    if h == [] then 0 else if Fix(h[|h| - 1]).Some? then |h| else LastFix(h[..|h| - 1])
  }

  /** One past the last operation at or after `from` that named a station; 0 when none did. */
  function LastAnswer(h: seq<Op>, from: nat, staleAfter: int): (k: nat)
    ensures k <= |h| && (k > 0 ==> from < k)
  {
    if |h| <= from then 0
    else if Answer(h, |h| - 1, staleAfter).Some? then |h|
    else LastAnswer(h[..|h| - 1], from, staleAfter)
  }

  /** The position a life should show: its last real fix when that fix is finite, else the last
      station named since (and by) the operation that carried it, else nothing. */
  ghost predicate RightPlace(m: Motion, h: seq<Op>, staleAfter: int) {
    var f := LastFix(h);
    var a := LastAnswer(h, if f > 0 then f - 1 else 0, staleAfter);
    if f > 0 && Fix(h[f - 1]).value.0.Finite? && Fix(h[f - 1]).value.1.Finite? then
      (m.lat, m.lon) == Fix(h[f - 1]).value && !m.schedulePositioned
    else if a > 0 then
      Some((m.lat, m.lon)) == Answer(h, a - 1, staleAfter) && m.schedulePositioned
    else
      !m.HasPosition() && !m.schedulePositioned
  }

  /** Where one event leaves a vehicle, from where it was, the event's fix and the station named. */
  ghost predicate Placed(base: Motion, fix: Option<(Num, Num)>, station: Option<(Num, Num)>, m: Motion) {
    var at := fix.GetOr((base.lat, base.lon));
    var derived := fix.None? && base.schedulePositioned;
    if station.Some? && (at.0.NaN? || at.1.NaN? || derived) then (m.lat, m.lon) == station.value && m.schedulePositioned
    else (m.lat, m.lon) == at && m.schedulePositioned == derived
  }

  lemma FieldsPlace(base: LiveTrip, ev: PosEvent, w: World)
    ensures var fix, m := FixFrom(ev, w.geo), Refreshed(base, ev, w).motion;
      && (m.lat, m.lon) == fix.GetOr((base.motion.lat, base.motion.lon))
      && m.schedulePositioned == (fix.None? && base.motion.schedulePositioned)
  {
    var t := Updated(base.(status := StopMarked(base.status, ev)), ev, w.geo);
    assert TrainDelayed(t, w).motion == t.motion;
    Gtfs.EnrichmentOnlyAdds(w.store, w.clock, TrainDelayed(t, w));
    hide Gtfs.Enriched;
  }

  lemma EventPlaces(slot: Option<LiveTrip>, ev: PosEvent, w: World)
    requires ev.kind != End
    ensures var mid := Refreshed(BaseTrip(slot, ev), ev, w);
      Placed(BaseTrip(slot, ev).motion, FixFrom(ev, w.geo),
             if StationEvent(ev.kind) then Gtfs.ScheduledPosition(w.store, w.clock, mid) else None,
             ApplyToSlot(slot, ev, w).value.motion)
  {
    FieldsPlace(BaseTrip(slot, ev), ev, w);
    hide Refreshed;
    hide BaseTrip;
    hide Gtfs.ScheduledPosition;
  }

  // Answers recorded in a prefix read the same from the whole history.
  lemma {:induction false} LastAnswerOfPrefix(h: seq<Op>, g: seq<Op>, from: nat, staleAfter: int)
    requires g <= h
    ensures LastAnswer(h[..|g|], from, staleAfter) == LastAnswer(g, from, staleAfter)
    ensures forall i :: 0 <= i < |g| ==> Answer(g, i, staleAfter) == Answer(h, i, staleAfter)
  {
    assert h[..|g|] == g;
    forall i | 0 <= i < |g| ensures Answer(g, i, staleAfter) == Answer(h, i, staleAfter) {
      assert g[..i] == h[..i];
    }
  }

  // One more operation of a life keeps the vehicle in the right place.
  lemma StillRight(base: Motion, m: Motion, h: seq<Op>, staleAfter: int)
    requires h != []
    requires if |h| == 1 then base == NO_MOTION else RightPlace(base, h[..|h| - 1], staleAfter)
    requires Placed(base, Fix(h[|h| - 1]), Answer(h, |h| - 1, staleAfter), m)
    ensures RightPlace(m, h, staleAfter)
  {
    hide Answer;
    hide Fix;
    var init := h[..|h| - 1];
    var f, g := LastFix(init), LastFix(h);
    LastAnswerOfPrefix(h, init, if f > 0 then f - 1 else 0, staleAfter);
    assert |h| == 1 ==> init == [];
    if Fix(h[|h| - 1]).Some? {
      assert LastAnswer(h, |h| - 1, staleAfter) == if Answer(h, |h| - 1, staleAfter).Some? then |h| else LastAnswer(init, |h| - 1, staleAfter);
    } else {
      assert g == f;
      assert f > 0 ==> init[f - 1] == h[f - 1];
      var a := LastAnswer(init, if f > 0 then f - 1 else 0, staleAfter);
      assert a > 0 ==> Answer(init, a - 1, staleAfter) == Answer(h, a - 1, staleAfter);
    }
  }

  /** A real fix beats the anchor, within every life: whenever the slot holds a trip, it is in
      the right place, and it is flagged as schedule-positioned exactly when that place is a
      named station. */
  lemma {:induction false} RealFixBeatsAnchor(h: seq<Op>, staleAfter: int)
    requires OneLife(h, staleAfter) && SlotRun(h, staleAfter).Some?
    ensures RightPlace(SlotRun(h, staleAfter).value.motion, h, staleAfter)
  {
    var n := |h| - 1;
    var init, op := h[..n], h[n];
    if n == 0 {
      assert op.Event? && init == [];
      EventPlaces(None, op.ev, op.w);
      StillRight(NO_MOTION, SlotRun(h, staleAfter).value.motion, h, staleAfter);
    } else {
      assert !Resets(SlotRun(init, staleAfter), op, staleAfter);
      LifePrefix(h, staleAfter);
      RealFixBeatsAnchor(init, staleAfter);
      var base := SlotRun(init, staleAfter).value.motion;
      if op.Event? {
        EventPlaces(SlotRun(init, staleAfter), op.ev, op.w);
      }
      StillRight(base, SlotRun(h, staleAfter).value.motion, h, staleAfter);
    }
  }

  /** Over every history of the whole fleet: each trip in it is the outcome of a single life, a
      suffix of that vehicle's own history; it is where that life puts it, and reports no stop
      and no delay it does not know. */
  lemma EveryTripIsAccountedFor(ops: seq<Op>, staleAfter: int, id: string) returns (k: nat)
    requires id in Run(ops, staleAfter)
    ensures var own, trip := Own(ops, id), Run(ops, staleAfter)[id];
      && k < |own| && OneLife(own[k..], staleAfter) && SlotRun(own[k..], staleAfter) == Some(trip)
      && trip.id == id && trip.key.Id() == id
      && RightPlace(trip.motion, own[k..], staleAfter) && Honest(trip.status)
  {
    var own := Own(ops, id);
    VehiclesAreIndependent(ops, staleAfter, id);
    AlwaysKeyed(ops, staleAfter);
    assert own != [];
    k := LastLife(own, staleAfter);
    RealFixBeatsAnchor(own[k..], staleAfter);
    AlwaysHonest(own[k..], staleAfter);
  }
}
