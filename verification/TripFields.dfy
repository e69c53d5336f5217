/** What a life of a trip leaves in its fields, however many events and sweeps it holds: the fields
    events carry, the train's delay curve, enrichment and the schedule anchor all in their places
    (crates/core/src/state.rs). */
module TripFields {
  import opened Collections
  import opened Domain
  import opened LiveState
  import opened Lifecycle
  import Gtfs
  import TrainDelays

  // ---------------------------------------------------------------- the last word

  /** `r` is what the last operation of the history that says something says, or `start` if none
      does; `say` reads the last operation of the history it is given. */
  ghost predicate LastSaid<T(!new)>(h: seq<Op>, say: seq<Op> -> Option<T>, start: Option<T>, r: Option<T>) {
    if exists k :: 0 < k <= |h| && say(h[..k]).Some? then
      exists k :: 0 < k <= |h| && say(h[..k]).Some? && r == say(h[..k]) && forall j :: k < j <= |h| ==> say(h[..j]).None?
    else r == start
  }

  /** Some operation of the history says something. */
  ghost predicate EverSaid<T(!new)>(h: seq<Op>, say: seq<Op> -> Option<T>) {
    exists k :: 0 < k <= |h| && say(h[..k]).Some?
  }

  lemma LastSaidNext<T(!new)>(front: seq<Op>, op: Op, say: seq<Op> -> Option<T>, start: Option<T>, r: Option<T>)
    requires LastSaid(front, say, start, r)
    ensures var h := front + [op];
      && LastSaid(h, say, start, if say(h).Some? then say(h) else r)
      && (EverSaid(h, say) <==> EverSaid(front, say) || say(h).Some?)
  {
    var h := front + [op];
    assert h[..|h|] == h;
    assert forall k :: 0 < k <= |front| ==> h[..k] == front[..k];
    if say(h).Some? {
      assert say(h[..|h|]).Some?;
    } else if EverSaid(front, say) {
      var k :| 0 < k <= |front| && say(front[..k]).Some? && r == say(front[..k]) && forall j :: k < j <= |front| ==> say(front[..j]).None?;
      assert say(h[..k]).Some? && forall j :: k < j <= |h| ==> say(h[..j]).None?;
    }
  }

  // ---------------------------------------------------------------- what operations say

  function LastEvent(h: seq<Op>): Option<PosEvent> {
    if h != [] && h[|h| - 1].Event? then Some(h[|h| - 1].ev) else None
  }

  function Told<T>(h: seq<Op>, get: PosEvent -> Option<T>): Option<T> {
    var e := LastEvent(h);
    if e.Some? then get(e.value) else None
  }

  function JourneyTold(h: seq<Op>): Option<string> { Told(h, (e: PosEvent) => e.journeyNumber) }

  function LineTold(h: seq<Op>): Option<string> { Told(h, (e: PosEvent) => e.linePlanningNumber) }

  function BlockTold(h: seq<Op>): Option<string> { Told(h, (e: PosEvent) => e.blockCode) }

  function SpeedTold(h: seq<Op>): Option<real> { Told(h, (e: PosEvent) => e.speedKmh) }

  function LateTold(h: seq<Op>): Option<I32> { Told(h, (e: PosEvent) => e.punctuality) }

  function DayTold(h: seq<Op>): Option<string> { Told(h, (e: PosEvent) => e.operatingDay) }

  function KindTold(h: seq<Op>): Option<MessageKind> { Told(h, (e: PosEvent) => Some(e.kind)) }

  function TimeTold(h: seq<Op>): Option<Instant> { Told(h, (e: PosEvent) => Some(e.timestamp)) }

  /** Standing at a stop, and which; leaving it. */
  function StopTold(h: seq<Op>): Option<(bool, Option<string>)> {
    Told(h, (e: PosEvent) =>
      if e.kind == Arrival || e.kind == OnStop then Some((true, e.userStopCode))
      else if e.kind == Departure || e.kind == OnRoute then Some((false, None))
      else None)
  }

  /** A mode worth having. */
  function ModeTold(h: seq<Op>): Option<VehicleType> {
    Told(h, (e: PosEvent) => if e.vehicleType == Some(Unknown) then None else e.vehicleType)
  }

  /** The curve of the train the trip is now, in the world of an event. */
  function CurveOf(t: LiveTrip, w: World): Option<TrainDelays.TrainDelay> {
    if t.key.dataowner != Gtfs.TRAIN_DATAOWNER || w.delays.None? || t.journey.journeyNumber.None? then None
    else Lookup(w.delays.value, t.journey.journeyNumber.value)
  }

  /** What an event says of the delay: its train's curve if that answers, else its own word. */
  function EventDelay(t: LiveTrip, ev: PosEvent, w: World): Option<I32> {
    var curve := CurveOf(t, w);
    var answer := if curve.Some? then TrainDelays.At(curve.value.points, ev.timestamp) else None;
    if answer.Some? then answer else ev.punctuality
  }

  function EventDay(t: LiveTrip, ev: PosEvent, w: World): Option<string> {
    var curve := CurveOf(t, w);
    if curve.Some? && curve.value.operatingDay.Some? then curve.value.operatingDay else ev.operatingDay
  }

  function DelaySaid(staleAfter: int): seq<Op> -> Option<I32> {
    (h: seq<Op>) =>
      var slot := SlotRun(h, staleAfter);
      if LastEvent(h).Some? && slot.Some? then EventDelay(slot.value, h[|h| - 1].ev, h[|h| - 1].w) else None
  }

  function DaySaid(staleAfter: int): seq<Op> -> Option<string> {
    (h: seq<Op>) =>
      var slot := SlotRun(h, staleAfter);
      if LastEvent(h).Some? && slot.Some? then EventDay(slot.value, h[|h| - 1].ev, h[|h| - 1].w) else None
  }

  // ---------------------------------------------------------------- one event

  // Enrichment and the anchor leave what events and the curve said.
  lemma EnrichmentLeaves(base: LiveTrip, ev: PosEvent, w: World)
    ensures var t := Anchored(Refreshed(base, ev, w), ev, w);
      var d := TrainDelayed(Updated(base.(status := StopMarked(base.status, ev)), ev, w.geo), w);
      && t.key == d.key == base.key && t.status == d.status
      && t.journey.journeyNumber == d.journey.journeyNumber
      && (d.journey.operatingDay.Some? ==> t.journey.operatingDay == d.journey.operatingDay)
      && (d.journey.blockCode.Some? ==> t.journey.blockCode == d.journey.blockCode)
      && (d.schedule.vehicleType != Unknown ==> t.schedule.vehicleType == d.schedule.vehicleType)
  {
    var u := Updated(base.(status := StopMarked(base.status, ev)), ev, w.geo);
    Gtfs.EnrichmentOnlyAdds(w.store, w.clock, TrainDelayed(u, w));
    assert TrainDelayed(u, w).key == base.key;
    hide Gtfs.Enriched, Updated, StopMarked, TrainDelayed, Gtfs.ScheduledPosition, MovedTo;
  }

  // What one event leaves in the status of a trip.
  lemma EventLeavesStatus(base: LiveTrip, ev: PosEvent, w: World)
    ensures var t := Anchored(Refreshed(base, ev, w), ev, w); var s, b := t.status, base.status;
      && t.key == base.key
      && s.speedKmh == (if ev.speedKmh.Some? then ev.speedKmh else b.speedKmh)
      && s.delaySeconds == EventDelay(t, ev, w).GetOr(b.delaySeconds)
      && s.delayKnown == (b.delayKnown || EventDelay(t, ev, w).Some?)
      && s.lastKind == Some(ev.kind) && s.lastUpdate == ev.timestamp && s.hasInit == b.hasInit
      && (s.atStop, s.currentStopId) == (StopMarked(b, ev).atStop, StopMarked(b, ev).currentStopId)
  {
    hide Refreshed, Anchored, UpdatedMotion, TrainDelayed;
    EnrichmentLeaves(base, ev, w);
    var u := Updated(base.(status := StopMarked(base.status, ev)), ev, w.geo);
    CurveSpeaks(u, w);
    var t := Anchored(Refreshed(base, ev, w), ev, w);
    assert t.key == u.key && t.journey.journeyNumber == u.journey.journeyNumber;
    assert CurveOf(t, w) == CurveOf(u, w);
    assert u.status == UpdatedStatus(StopMarked(base.status, ev), ev);
    hide Updated, CurveOf;
  }

  // What a curve does to the status.
  lemma CurveSpeaks(u: LiveTrip, w: World)
    ensures var d, curve := TrainDelayed(u, w), CurveOf(u, w);
      var answer := if curve.Some? then TrainDelays.At(curve.value.points, u.status.lastUpdate) else None;
      && d.status == u.status.(delaySeconds := answer.GetOr(u.status.delaySeconds), delayKnown := u.status.delayKnown || answer.Some?)
      && d.journey.journeyNumber == u.journey.journeyNumber && d.key == u.key
  {}

  // ... and in its journey.
  lemma EventLeavesJourney(base: LiveTrip, ev: PosEvent, w: World)
    ensures var t := Anchored(Refreshed(base, ev, w), ev, w); var j, b := t.journey, base.journey;
      && j.journeyNumber == (if ev.journeyNumber.Some? then ev.journeyNumber else b.journeyNumber)
      && (var block := if ev.blockCode.Some? then ev.blockCode else b.blockCode; block.Some? ==> j.blockCode == block)
      && (var day := EventDay(t, ev, w); var known := if day.Some? then day else b.operatingDay; known.Some? ==> j.operatingDay == known)
      && (base.schedule.vehicleType != Unknown ==> t.schedule.vehicleType == base.schedule.vehicleType)
      && (base.schedule.vehicleType == Unknown && ev.vehicleType.Some? && ev.vehicleType.value != Unknown ==> t.schedule.vehicleType == ev.vehicleType.value)
  {
    EnrichmentLeaves(base, ev, w);
    hide Refreshed, Anchored, UpdatedMotion, UpdatedStatus, StopMarked;
  }

  // Away from trains, nothing but events names the line and the day.
  lemma EventLeavesBus(base: LiveTrip, ev: PosEvent, w: World)
    requires base.key.dataowner != Gtfs.TRAIN_DATAOWNER
    ensures var j := Anchored(Refreshed(base, ev, w), ev, w).journey;
      && j.linePlanningNumber == (if ev.linePlanningNumber.Some? then ev.linePlanningNumber else base.journey.linePlanningNumber)
      && j.operatingDay == (if ev.operatingDay.Some? then ev.operatingDay else base.journey.operatingDay)
  {
    var u := Updated(base.(status := StopMarked(base.status, ev)), ev, w.geo);
    Gtfs.OnlyTrainsAreRenamed(w.store, w.clock, u);
    hide Gtfs.Enriched, UpdatedMotion, Gtfs.ScheduledPosition, MovedTo;
  }

  // The trip the last event of a life was applied to.
  function BaseOf(h: seq<Op>, staleAfter: int): LiveTrip
    requires LastEvent(h).Some?
  {
    BaseTrip(SlotRun(h[..|h| - 1], staleAfter), h[|h| - 1].ev)
  }

  // How a life goes on: a sweep leaves the trip, an event updates the one before it.
  lemma LifeGoesOn(h: seq<Op>, staleAfter: int)
    requires OneLife(h, staleAfter) && SlotRun(h, staleAfter).Some?
    ensures var front, op := h[..|h| - 1], h[|h| - 1]; var slot := SlotRun(front, staleAfter);
      && h == front + [op]
      && (|h| == 1 ==> op.Event?)
      && (|h| > 1 ==> OneLife(front, staleAfter) && slot.Some?)
      && (op.Sweep? ==> SlotRun(h, staleAfter) == slot)
      && (op.Event? ==> op.ev.kind != End
                        && SlotRun(h, staleAfter) == Some(Anchored(Refreshed(BaseOf(h, staleAfter), op.ev, op.w), op.ev, op.w)))
      && (op.Event? && |h| > 1 ==> BaseOf(h, staleAfter) == slot.value)
      && (|h| == 1 ==> BaseOf(h, staleAfter) == NewTrip(op.ev.key, op.ev.timestamp).(status := BaseOf(h, staleAfter).status)
                       && BaseOf(h, staleAfter).status == NewTrip(op.ev.key, op.ev.timestamp).status.(hasInit := op.ev.kind == Init))
  {
    hide Refreshed, Anchored, NewTrip, NewJourney;
    var front, op := h[..|h| - 1], h[|h| - 1];
    var slot := SlotRun(front, staleAfter);
    assert h == front + [op] && SlotRun(h, staleAfter) == SlotStep(slot, op, staleAfter);
    if |h| > 1 {
      LifePrefix(h, staleAfter);
      assert !Resets(slot, op, staleAfter);
      hide OneLife, SlotRun;
    } else {
      assert slot.None?;
      hide OneLife, SlotRun;
      if op.Event? {
        LifeStarts(h, staleAfter);
      }
    }
  }

  lemma LifeStarts(h: seq<Op>, staleAfter: int)
    requires |h| == 1 && h[0].Event?
    ensures var ev, base := h[0].ev, BaseOf(h, staleAfter); var blank := NewTrip(ev.key, ev.timestamp);
      base.status == blank.status.(hasInit := ev.kind == Init) && base == blank.(status := base.status)
  {
    assert h[..0] == [];
    assert SlotRun(h[..0], staleAfter) == None;
  }

  // ---------------------------------------------------------------- over a life

  /** The status is what was last said of each of its fields; `time` is when, if anything was. */
  ghost predicate StatusSaid(h: seq<Op>, s: Status, time: Option<Instant>, staleAfter: int) {
    && LastSaid(h, SpeedTold, None, s.speedKmh)
    && LastSaid(h, DelaySaid(staleAfter), Some(0), Some(s.delaySeconds))
    && (s.delayKnown <==> EverSaid(h, DelaySaid(staleAfter)))
    && LastSaid(h, StopTold, Some((false, None)), Some((s.atStop, s.currentStopId)))
    && LastSaid(h, KindTold, None, s.lastKind)
    && LastSaid(h, TimeTold, None, time)
  }

  /** Speed, delay, stop, kind and time of a trip are each what was last said of it in its life; a
      delay is known exactly when one was ever said, and a train's curve has the last word over the
      event it answers for. */
  lemma {:induction false} StatusOverLife(h: seq<Op>, staleAfter: int)
    requires OneLife(h, staleAfter) && SlotRun(h, staleAfter).Some?
    ensures var s := SlotRun(h, staleAfter).value.status;
      && StatusSaid(h, s, Some(s.lastUpdate), staleAfter)
      && (s.hasInit <==> h[0].Event? && h[0].ev.kind == Init)
  {
    LifeGoesOn(h, staleAfter);
    var front, op := h[..|h| - 1], h[|h| - 1];
    if |h| > 1 {
      StatusOverLife(front, staleAfter);
      if op.Event? {
        EventLeavesStatus(BaseOf(h, staleAfter), op.ev, op.w);
      }
      var s := SlotRun(front, staleAfter).value.status;
      StatusNext(h, s, Some(s.lastUpdate), staleAfter);
    } else {
      EventLeavesStatus(BaseOf(h, staleAfter), op.ev, op.w);
      StatusNext(h, BaseOf(h, staleAfter).status, None, staleAfter);
    }
  }

  // One more operation.
  lemma StatusNext(h: seq<Op>, b: Status, time: Option<Instant>, staleAfter: int)
    requires h != [] && SlotRun(h, staleAfter).Some? && StatusSaid(h[..|h| - 1], b, time, staleAfter)
    requires var s, op, t := SlotRun(h, staleAfter).value.status, h[|h| - 1], SlotRun(h, staleAfter).value;
      if op.Sweep? then s == b && time == Some(s.lastUpdate)
      else
        && s.speedKmh == (if op.ev.speedKmh.Some? then op.ev.speedKmh else b.speedKmh)
        && s.delaySeconds == EventDelay(t, op.ev, op.w).GetOr(b.delaySeconds)
        && s.delayKnown == (b.delayKnown || EventDelay(t, op.ev, op.w).Some?)
        && s.lastKind == Some(op.ev.kind) && s.lastUpdate == op.ev.timestamp
        && (s.atStop, s.currentStopId) == (StopMarked(b, op.ev).atStop, StopMarked(b, op.ev).currentStopId)
    ensures StatusSaid(h, SlotRun(h, staleAfter).value.status, Some(SlotRun(h, staleAfter).value.status.lastUpdate), staleAfter)
  {
    hide SlotRun, EventDelay, LastSaid, EverSaid;
    var front, op := h[..|h| - 1], h[|h| - 1];
    assert h == front + [op];
    LastSaidNext(front, op, SpeedTold, None, b.speedKmh);
    LastSaidNext(front, op, DelaySaid(staleAfter), Some(0), Some(b.delaySeconds));
    LastSaidNext(front, op, StopTold, Some((false, None)), Some((b.atStop, b.currentStopId)));
    LastSaidNext(front, op, KindTold, None, b.lastKind);
    LastSaidNext(front, op, TimeTold, None, time);
  }

  /** No event of the history is a train's. */
  ghost predicate NoTrains(h: seq<Op>) {
    forall op :: op in h && op.Event? ==> op.ev.key.dataowner != Gtfs.TRAIN_DATAOWNER
  }

  /** The vehicle of a life is that of its first event. */
  lemma {:induction false} KeyOverLife(h: seq<Op>, staleAfter: int)
    requires OneLife(h, staleAfter) && SlotRun(h, staleAfter).Some?
    ensures h[0].Event? && SlotRun(h, staleAfter).value.key == h[0].ev.key
  {
    LifeGoesOn(h, staleAfter);
    if |h| > 1 {
      KeyOverLife(h[..|h| - 1], staleAfter);
    }
    var op := h[|h| - 1];
    if op.Event? {
      EventLeavesStatus(BaseOf(h, staleAfter), op.ev, op.w);
    }
  }

  /** For anything but a train a delay is said by events alone, so it is the last an event carried,
      and known exactly when one did. */
  lemma DelayIsLastCarried(h: seq<Op>, staleAfter: int)
    requires OneLife(h, staleAfter) && SlotRun(h, staleAfter).Some? && NoTrains(h)
    ensures var s := SlotRun(h, staleAfter).value.status;
      LastSaid(h, LateTold, Some(0), Some(s.delaySeconds)) && (s.delayKnown <==> EverSaid(h, LateTold))
  {
    StatusOverLife(h, staleAfter);
    hide OneLife, SlotRun, DelaySaid, LateTold, StatusSaid, LastSaid, EverSaid;
    forall k | 0 < k <= |h| ensures DelaySaid(staleAfter)(h[..k]) == LateTold(h[..k]) {
      LifeSoFar(h, k, staleAfter);
      assert forall op :: op in h[..k] ==> op in h;
      BusDelay(h[..k], staleAfter);
    }
    SameWords(h, DelaySaid(staleAfter), LateTold, Some(0), Some(SlotRun(h, staleAfter).value.status.delaySeconds));
  }

  lemma BusDelay(h: seq<Op>, staleAfter: int)
    requires OneLife(h, staleAfter) && SlotRun(h, staleAfter).Some? && NoTrains(h)
    ensures DelaySaid(staleAfter)(h) == LateTold(h)
  {
    assert h != [];
    hide SlotRun, OneLife;
    KeyOverLife(h, staleAfter);
    assert h[0] in h && SlotRun(h, staleAfter).value.key.dataowner != Gtfs.TRAIN_DATAOWNER;
  }

  // A life was a life all along.
  lemma {:induction false} LifeSoFar(h: seq<Op>, k: nat, staleAfter: int)
    requires OneLife(h, staleAfter) && SlotRun(h, staleAfter).Some? && 0 < k <= |h|
    ensures OneLife(h[..k], staleAfter) && SlotRun(h[..k], staleAfter).Some?
  {
    if k == |h| {
      assert h[..k] == h;
    } else {
      LifeGoesOn(h, staleAfter);
      LifeSoFar(h[..|h| - 1], k, staleAfter);
      assert h[..|h| - 1][..k] == h[..k];
    }
  }

  lemma SameWords<T(!new)>(h: seq<Op>, say: seq<Op> -> Option<T>, told: seq<Op> -> Option<T>, start: Option<T>, r: Option<T>)
    requires forall k :: 0 < k <= |h| ==> say(h[..k]) == told(h[..k])
    ensures LastSaid(h, say, start, r) <==> LastSaid(h, told, start, r)
    ensures EverSaid(h, say) <==> EverSaid(h, told)
  {}

  /** The journey is the last named in its life. Whatever events said last of the block, and events or
      a train's curve of the day, stands; the schedule only fills them in before anything is said. */
  lemma {:induction false} JourneyOverLife(h: seq<Op>, staleAfter: int)
    requires OneLife(h, staleAfter) && SlotRun(h, staleAfter).Some?
    ensures var j := SlotRun(h, staleAfter).value.journey;
      && LastSaid(h, JourneyTold, None, j.journeyNumber)
      && LastSaid(h, BlockTold, j.blockCode, j.blockCode)
      && LastSaid(h, DaySaid(staleAfter), j.operatingDay, j.operatingDay)
  {
    LifeGoesOn(h, staleAfter);
    var front, op := h[..|h| - 1], h[|h| - 1];
    var b := if |h| > 1 then SlotRun(front, staleAfter).value.journey else NO_JOURNEY;
    if |h| > 1 {
      JourneyOverLife(front, staleAfter);
    }
    if op.Event? {
      EventLeavesJourney(BaseOf(h, staleAfter), op.ev, op.w);
    }
    var j := SlotRun(h, staleAfter).value.journey;
    hide SlotRun, EventDay, BaseOf;
    LastSaidNext(front, op, JourneyTold, None, b.journeyNumber);
    FilledNext(front, op, BlockTold, b.blockCode, j.blockCode);
    FilledNext(front, op, DaySaid(staleAfter), b.operatingDay, j.operatingDay);
  }

  // A field that the schedule may fill keeps what is said of it.
  lemma FilledNext<T(!new)>(front: seq<Op>, op: Op, say: seq<Op> -> Option<T>, b: Option<T>, r: Option<T>)
    requires LastSaid(front, say, b, b)
    requires var known := if say(front + [op]).Some? then say(front + [op]) else b; known.Some? ==> r == known
    ensures LastSaid(front + [op], say, r, r)
  {
    LastSaidNext(front, op, say, b, b);
    var h := front + [op];
    assert h[..|h|] == h;
  }

  /** Away from trains the line and the day too are exactly the last named. */
  lemma {:induction false} BusJourneyOverLife(h: seq<Op>, staleAfter: int)
    requires OneLife(h, staleAfter) && SlotRun(h, staleAfter).Some? && NoTrains(h)
    ensures var j := SlotRun(h, staleAfter).value.journey;
      LastSaid(h, LineTold, None, j.linePlanningNumber) && LastSaid(h, DayTold, None, j.operatingDay)
  {
    LifeGoesOn(h, staleAfter);
    var front, op := h[..|h| - 1], h[|h| - 1];
    var b := if |h| > 1 then SlotRun(front, staleAfter).value.journey else NO_JOURNEY;
    if |h| > 1 {
      BusJourneyOverLife(front, staleAfter);
      KeyOverLife(front, staleAfter);
      assert front[0] in h;
    }
    if op.Event? {
      assert op in h;
      EventLeavesBus(BaseOf(h, staleAfter), op.ev, op.w);
    }
    hide SlotRun, BaseOf;
    LastSaidNext(front, op, LineTold, None, b.linePlanningNumber);
    LastSaidNext(front, op, DayTold, None, b.operatingDay);
  }

  // ---------------------------------------------------------------- the mode

  /** `r` is what the first operation to say something says, or nothing if none does. */
  ghost predicate FirstSaid<T(!new)>(h: seq<Op>, say: seq<Op> -> Option<T>, r: Option<T>) {
    if EverSaid(h, say) then
      exists k :: 0 < k <= |h| && say(h[..k]).Some? && r == say(h[..k]) && forall j :: 0 < j < k ==> say(h[..j]).None?
    else r == None
  }

  lemma FirstSaidNext<T(!new)>(front: seq<Op>, op: Op, say: seq<Op> -> Option<T>, r: Option<T>)
    requires FirstSaid(front, say, r)
    ensures FirstSaid(front + [op], say, if r.Some? then r else say(front + [op]))
  {
    var h := front + [op];
    assert h[..|h|] == h;
    assert forall k :: 0 < k <= |front| ==> h[..k] == front[..k];
    if EverSaid(front, say) {
      var k :| 0 < k <= |front| && say(front[..k]).Some? && r == say(front[..k]) && forall j :: 0 < j < k ==> say(front[..j]).None?;
      assert say(h[..k]).Some?;
    } else if say(h).Some? {
      assert say(h[..|h|]).Some? && forall j :: 0 < j < |h| ==> say(h[..j]).None?;
    }
  }

  /** The mode of the trip after a history, if known. */
  function ModeAfter(staleAfter: int): seq<Op> -> Option<VehicleType> {
    (h: seq<Op>) =>
      var slot := SlotRun(h, staleAfter);
      if slot.Some? && slot.value.schedule.vehicleType != Unknown then Some(slot.value.schedule.vehicleType) else None
  }

  /** A trip's mode is the first that was ever known in its life, and never changes again; an event
      that carries one while none is known makes it known. */
  lemma {:induction false} ModeOverLife(h: seq<Op>, staleAfter: int)
    requires OneLife(h, staleAfter) && SlotRun(h, staleAfter).Some?
    ensures FirstSaid(h, ModeAfter(staleAfter), ModeAfter(staleAfter)(h))
    ensures ModeTold(h).Some? && (|h| == 1 || ModeAfter(staleAfter)(h[..|h| - 1]).None?) ==> ModeAfter(staleAfter)(h) == ModeTold(h)
  {
    LifeGoesOn(h, staleAfter);
    var front, op := h[..|h| - 1], h[|h| - 1];
    if op.Event? {
      EventLeavesJourney(BaseOf(h, staleAfter), op.ev, op.w);
    }
    if |h| > 1 {
      ModeOverLife(front, staleAfter);
    } else {
      assert SlotRun(front, staleAfter).None?;
    }
    var before, now := ModeAfter(staleAfter)(front), ModeAfter(staleAfter)(h);
    assert before.Some? ==> now == before;
    hide SlotRun, BaseOf, FirstSaid, Resets;
    assert |h| == 1 ==> FirstSaid(front, ModeAfter(staleAfter), None) by {
      NothingSaid(ModeAfter(staleAfter));
    }
    FirstSaidNext(front, op, ModeAfter(staleAfter), before);
  }

  lemma NothingSaid<T(!new)>(say: seq<Op> -> Option<T>)
    ensures FirstSaid([], say, None)
  {}

  // ---------------------------------------------------------------- position and heading

  type Place = (Num, Num)

  predicate Known(p: Place) {
    p.0.Finite? && p.1.Finite?
  }

  /** What can act on a trip's motion: a move to a fix or to a station, or a course the feed gives. */
  datatype Act = Move(to: Place, geo: Geo) | Course(bearing: Num)

  /** The station the last operation of the history anchors the trip at, if it does. */
  function AnchoredAt(h: seq<Op>, staleAfter: int): Option<Place> {
    if LastEvent(h).None? then None
    else
      var ev, w := h[|h| - 1].ev, h[|h| - 1].w;
      var mid := Refreshed(BaseOf(h, staleAfter), ev, w);
      if StationEvent(ev.kind) && Anchorable(mid.motion) then Gtfs.ScheduledPosition(w.store, w.clock, mid) else None
  }

  function OneAct<T>(o: Option<T>, act: T -> Act): seq<Act> {
    if o.Some? then [act(o.value)] else []
  }

  /** An event first moves the trip to its fix, then takes its course, then anchors. */
  function ActsOf(h: seq<Op>, staleAfter: int): seq<Act> {
    if LastEvent(h).None? then []
    else
      var ev, geo := h[|h| - 1].ev, h[|h| - 1].w.geo;
      EventActs(ev, geo) + OneAct(AnchoredAt(h, staleAfter), (p: Place) => Move(p, geo))
  }

  function EventActs(ev: PosEvent, geo: Geo): seq<Act> {
    OneAct(FixFrom(ev, geo), (p: Place) => Move(p, geo)) + OneAct(ev.bearing, (b: Num) => Course(b))
  }

  function Acts(h: seq<Op>, staleAfter: int): seq<Act> {
    if h == [] then [] else Acts(h[..|h| - 1], staleAfter) + ActsOf(h, staleAfter)
  }

  /** Nowhere, then each place moved to. */
  function Trail(acts: seq<Act>): seq<Place> {
    if acts == [] then [(NaN, NaN)]
    else
      var last := acts[|acts| - 1];
      Trail(acts[..|acts| - 1]) + if last.Move? then [last.to] else []
  }

  lemma {:induction false} TrailNotEmpty(acts: seq<Act>)
    ensures Trail(acts) != []
  {
    if acts != [] {
      TrailNotEmpty(acts[..|acts| - 1]);
    }
  }

  function Whereabouts(acts: seq<Act>): Place {
    TrailNotEmpty(acts);
    Trail(acts)[|Trail(acts)| - 1]
  }

  /** `p` is the last known place of the trail before its end, or unknown if there is none. */
  ghost predicate WasAt(trail: seq<Place>, p: Place) {
    if exists k :: 0 <= k < |trail| - 1 && Known(trail[k]) then
      exists k :: 0 <= k < |trail| - 1 && Known(trail[k]) && p == trail[k] && forall j :: k < j < |trail| - 1 ==> !Known(trail[j])
    else p == (NaN, NaN)
  }

  /** Two known values more than a millionth apart. */
  predicate Apart(a: Num, b: Num) {
    a.Finite? && b.Finite? && (a.v - b.v > 0.000001 || b.v - a.v > 0.000001)
  }

  /** Act `k` turns the trip: a course does, and a move from a known place to one beyond the jitter
      threshold. */
  predicate Steers(acts: seq<Act>, k: nat)
    requires k < |acts|
  {
    var from := Whereabouts(acts[..k]);
    acts[k].Course? || (Known(from) && (Apart(acts[k].to.0, from.0) || Apart(acts[k].to.1, from.1)))
  }

  function Heading(acts: seq<Act>, k: nat): Num
    requires k < |acts|
  {
    var from := Whereabouts(acts[..k]);
    if acts[k].Course? then acts[k].bearing else acts[k].geo.bearing(from.0, from.1, acts[k].to.0, acts[k].to.1)
  }

  /** `b` is the heading of the last act that turns, or unknown if none does. */
  ghost predicate Heads(acts: seq<Act>, b: Num) {
    if exists k :: 0 <= k < |acts| && Steers(acts, k) then
      exists k :: 0 <= k < |acts| && Steers(acts, k) && b == Heading(acts, k) && forall j :: k < j < |acts| ==> !Steers(acts, j)
    else b == NaN
  }

  /** The motion is what the acts of a life make it. */
  ghost predicate MotionSaid(acts: seq<Act>, m: Motion) {
    && (m.lat, m.lon) == Whereabouts(acts)
    && WasAt(Trail(acts), (m.prevLat, m.prevLon))
    && Heads(acts, m.bearing)
  }

  function Acted(m: Motion, act: Act): Motion {
    match act
    case Move(to, geo) => MovedTo(m, to.0, to.1, geo)
    case Course(b) => m.(bearing := b)
  }

  lemma ActNext(acts: seq<Act>, act: Act, m: Motion)
    requires MotionSaid(acts, m)
    ensures MotionSaid(acts + [act], Acted(m, act))
  {
    var more, n, from := acts + [act], |acts|, Whereabouts(acts);
    assert more[..n] == acts;
    TrailNotEmpty(acts);
    if act.Move? {
      WasAtNext(Trail(acts), act.to, (m.prevLat, m.prevLon));
    }
    HeadsNext(acts, act, m.bearing);
    assert Trail(more) == Trail(acts) + if act.Move? then [act.to] else [];
    assert act.Course? ==> Trail(more) == Trail(acts);
    assert Steers(more, n) <==> act.Course? || (Known(from) && (Apart(act.to.0, from.0) || Apart(act.to.1, from.1)));
    assert Heading(more, n) == if act.Course? then act.bearing else act.geo.bearing(from.0, from.1, act.to.0, act.to.1);
    hide WasAt, Heads, Trail, Steers, Heading;
  }

  lemma WasAtNext(trail: seq<Place>, next: Place, p: Place)
    requires trail != [] && WasAt(trail, p)
    ensures WasAt(trail + [next], if Known(trail[|trail| - 1]) then trail[|trail| - 1] else p)
  {
    var longer, n := trail + [next], |trail| - 1;
    if Known(trail[n]) {
      assert Known(longer[n]) && longer[n] == trail[n];
    } else if exists k :: 0 <= k < n && Known(trail[k]) {
      var k :| 0 <= k < n && Known(trail[k]) && p == trail[k] && forall j :: k < j < n ==> !Known(trail[j]);
      assert Known(longer[k]) && forall j :: k < j < n + 1 ==> !Known(longer[j]);
    }
  }

  lemma HeadsNext(acts: seq<Act>, act: Act, b: Num)
    requires Heads(acts, b)
    ensures var more, n := acts + [act], |acts|; Heads(more, if Steers(more, n) then Heading(more, n) else b)
  {
    var more, n := acts + [act], |acts|;
    assert more[..n] == acts;
    forall k | 0 <= k < n ensures Steers(more, k) == Steers(acts, k) && Heading(more, k) == Heading(acts, k) {
      assert more[..k] == acts[..k];
    }
    hide Steers, Heading;
    if !Steers(more, n) && exists k :: 0 <= k < n && Steers(acts, k) {
      var k :| 0 <= k < n && Steers(acts, k) && b == Heading(acts, k) && forall j :: k < j < n ==> !Steers(acts, j);
      assert Steers(more, k) && forall j :: k < j < n + 1 ==> !Steers(more, j);
    }
  }

  lemma {:induction false} ActsNext(acts: seq<Act>, more: seq<Act>, m: Motion)
    requires MotionSaid(acts, m)
    ensures MotionSaid(acts + more, AllActed(m, more))
  {
    hide MotionSaid, Acted;
    if more == [] {
      assert acts + more == acts;
    } else {
      var front, last := more[..|more| - 1], more[|more| - 1];
      ActsNext(acts, front, m);
      ActNext(acts + front, last, AllActed(m, front));
      assert acts + more == acts + front + [last];
    }
  }

  function AllActed(m: Motion, acts: seq<Act>): Motion {
    if acts == [] then m else Acted(AllActed(m, acts[..|acts| - 1]), acts[|acts| - 1])
  }

  // Apart from the anchoring flag, an event acts on the motion as its acts do.
  lemma EventActsOnMotion(h: seq<Op>, staleAfter: int)
    requires LastEvent(h).Some?
    ensures var ev, w, base := h[|h| - 1].ev, h[|h| - 1].w, BaseOf(h, staleAfter);
      var m, a := Anchored(Refreshed(base, ev, w), ev, w).motion, AllActed(base.motion, ActsOf(h, staleAfter));
      m == a.(schedulePositioned := m.schedulePositioned)
  {
    var ev, w, base := h[|h| - 1].ev, h[|h| - 1].w, BaseOf(h, staleAfter);
    var mid := Refreshed(base, ev, w);
    RefreshedMotion(base, ev, w);
    EventActsActed(base.motion, ev, w.geo);
    var first := EventActs(ev, w.geo);
    var station := AnchoredAt(h, staleAfter);
    if station.Some? {
      var move := Move(station.value, w.geo);
      assert ActsOf(h, staleAfter) == first + [move];
      assert (first + [move])[..|first|] == first;
      FlagIsApart(AllActed(base.motion, first), mid.motion.schedulePositioned, move);
    } else {
      assert ActsOf(h, staleAfter) == first;
    }
    hide Refreshed, BaseOf, EventActs, MovedTo, Gtfs.ScheduledPosition, UpdatedMotion;
  }

  lemma FlagIsApart(m: Motion, flag: bool, act: Act)
    ensures Acted(m.(schedulePositioned := flag), act) == Acted(m, act).(schedulePositioned := flag)
  {}

  lemma RefreshedMotion(base: LiveTrip, ev: PosEvent, w: World)
    ensures Refreshed(base, ev, w).motion == UpdatedMotion(base.motion, ev, w.geo)
  {
    var u := Updated(base.(status := StopMarked(base.status, ev)), ev, w.geo);
    Gtfs.EnrichmentOnlyAdds(w.store, w.clock, TrainDelayed(u, w));
    assert TrainDelayed(u, w).motion == u.motion;
    hide Gtfs.Enriched, UpdatedMotion, TrainDelayed;
  }

  lemma EventActsActed(m: Motion, ev: PosEvent, geo: Geo)
    ensures var a, u := AllActed(m, EventActs(ev, geo)), UpdatedMotion(m, ev, geo); u == a.(schedulePositioned := u.schedulePositioned)
  {
    var fix, course := OneAct(FixFrom(ev, geo), (p: Place) => Move(p, geo)), OneAct(ev.bearing, (b: Num) => Course(b));
    if FixFrom(ev, geo).Some? {
      var move := Move(FixFrom(ev, geo).value, geo);
      assert fix == [move] && [move][..0] == [];
      assert AllActed(m, [move]) == Acted(m, move);
    }
    hide MovedTo;
    if ev.bearing.Some? {
      assert fix + course == fix + [Course(ev.bearing.value)];
      assert (fix + course)[..|fix|] == fix;
    } else {
      assert fix + course == fix;
    }
  }

  /** However a life goes: the trip is where the last fix or anchor put it; its previous position is
      the last known one before that; and it heads the way the last course said, or the last move
      beyond the jitter threshold went, whichever came later. */
  lemma {:induction false} MotionOverLife(h: seq<Op>, staleAfter: int)
    requires OneLife(h, staleAfter) && SlotRun(h, staleAfter).Some?
    ensures MotionSaid(Acts(h, staleAfter), SlotRun(h, staleAfter).value.motion)
  {
    LifeGoesOn(h, staleAfter);
    var front, op := h[..|h| - 1], h[|h| - 1];
    var m := if |h| > 1 then SlotRun(front, staleAfter).value.motion else NO_MOTION;
    if |h| > 1 {
      MotionOverLife(front, staleAfter);
    } else {
      NoMotionSaid();
    }
    if op.Event? {
      EventActsOnMotion(h, staleAfter);
    }
    ActsNext(Acts(front, staleAfter), ActsOf(h, staleAfter), m);
    FlagIsUnsaid(Acts(h, staleAfter), AllActed(m, ActsOf(h, staleAfter)));
    hide MotionSaid, BaseOf, Refreshed, Anchored, Resets;
    assert op.Sweep? ==> ActsOf(h, staleAfter) == [];
  }

  lemma NoMotionSaid()
    ensures MotionSaid([], NO_MOTION)
  {}

  lemma FlagIsUnsaid(acts: seq<Act>, m: Motion)
    ensures MotionSaid(acts, m) ==> forall flag :: MotionSaid(acts, m.(schedulePositioned := flag))
  {}
}
