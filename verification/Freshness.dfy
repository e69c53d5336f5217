/** The fix-age gate of the train decoder and the staleness sweep of the fleet, together: no
    flicker and no ghost trains (crates/realtime/src/ns.rs, crates/core/src/state.rs). */
module Freshness {
  import opened Collections
  import opened Domain
  import opened LiveState
  import opened Lifecycle
  import Gtfs
  import NsPositions
  import Xml

  /** Nothing but sweeps and other vehicles' events. */
  ghost predicate QuietFor(ops: seq<Op>, id: string) {
    forall op :: op in ops && op.Event? ==> op.ev.key.Id() != id
  }

  /** No sweep of `ops` finds a fix dated `ts` too old. */
  ghost predicate AllSpare(ops: seq<Op>, ts: Instant, staleAfter: int) {
    forall op :: op in ops && op.Sweep? ==> op.now <= ts + staleAfter
  }

  /** After a vehicle's last event, its trip stays exactly as that event left it until the first
      sweep later than the event's time plus the window, and is gone from then on. */
  lemma {:induction false} TripLivesUntil(past: seq<Op>, ev: PosEvent, w: World, later: seq<Op>, staleAfter: int)
    requires ev.kind != End && QuietFor(later, ev.key.Id())
    ensures Lookup(Run(past + [Event(ev, w)] + later, staleAfter), ev.key.Id()) ==
      if AllSpare(later, ev.timestamp, staleAfter)
      then ApplyToSlot(Lookup(Run(past, staleAfter), ev.key.Id()), ev, w)
      else None
  {
    var h, id := past + [Event(ev, w)] + later, ev.key.Id();
    var start := Lookup(Run(past, staleAfter), id);
    hide ApplyToSlot, Step;
    if later == [] {
      assert h == past + [Event(ev, w)] && h[..|h| - 1] == past;
      StepOnSlot(Run(past, staleAfter), Event(ev, w), staleAfter, id);
    } else {
      var front, last := later[..|later| - 1], later[|later| - 1];
      assert h == past + [Event(ev, w)] + front + [last];
      assert h[..|h| - 1] == past + [Event(ev, w)] + front;
      assert later == front + [last];
      TripLivesUntil(past, ev, w, front, staleAfter);
      StepOnSlot(Run(past + [Event(ev, w)] + front, staleAfter), last, staleAfter, id);
      StampIs(start, ev, w);
    }
  }

  lemma StampIs(slot: Option<LiveTrip>, ev: PosEvent, w: World)
    requires ev.kind != End
    ensures ApplyToSlot(slot, ev, w).Some? && ApplyToSlot(slot, ev, w).value.status.lastUpdate == ev.timestamp
  {
    StepFacts(slot, ev, w);
  }

  /** A train fix decoded at `now` is not swept before `now + (staleAfter - maxAge)`: what is shown
      does not flicker away. */
  lemma NoFlicker(past: seq<Op>, ts: seq<Xml.Token>, rd: Xml.Reader, g: NsPositions.Gate, ev: PosEvent, w: World, later: seq<Op>, staleAfter: int)
    requires ev in NsPositions.Run(NsPositions.IDLE, ts, rd, g).events && QuietFor(later, ev.key.Id())
    requires forall op :: op in later && op.Sweep? ==> op.now <= g.now + (staleAfter - g.maxAge)
    ensures ev.key.Id() in Run(past + [Event(ev, w)] + later, staleAfter)
    ensures Run(past + [Event(ev, w)] + later, staleAfter)[ev.key.Id()].status.lastUpdate == ev.timestamp
  {
    NsPositions.EveryFixIsAccepted(ts, rd, g);
    hide Run, ApplyToSlot;
    TripLivesUntil(past, ev, w, later, staleAfter);
    StampIs(Lookup(Run(past, staleAfter), ev.key.Id()), ev, w);
  }

  /** With no later event it is gone after any sweep later than `now + 60 s + staleAfter`: a clock
      running ahead leaves no ghost. */
  lemma NoGhost(past: seq<Op>, ts: seq<Xml.Token>, rd: Xml.Reader, g: NsPositions.Gate, ev: PosEvent, w: World, later: seq<Op>, staleAfter: int, sweep: Op)
    requires ev in NsPositions.Run(NsPositions.IDLE, ts, rd, g).events && QuietFor(later, ev.key.Id())
    requires sweep in later && sweep.Sweep? && sweep.now > g.now + NsPositions.MAX_CLOCK_SKEW * SECOND + staleAfter
    ensures ev.key.Id() !in Run(past + [Event(ev, w)] + later, staleAfter)
  {
    NsPositions.EveryFixIsAccepted(ts, rd, g);
    hide Run, ApplyToSlot;
    TripLivesUntil(past, ev, w, later, staleAfter);
  }

  // ---------------------------------------------------------------- the margin is tight

  // A train with one part, dated as far back as the gate allows.
  const LATE_TRAIN := NsPositions.TrainOf([
    NsPositions.Own(Xml.Leaf("TreinNummer", map[], "1")),
    NsPositions.PartOf([Xml.Leaf("Latitude", map[], "N"), Xml.Leaf("Longitude", map[], "E"), Xml.Leaf("GpsDatumTijd", map[], "T")])])

  function LateReader(g: NsPositions.Gate): Xml.Reader {
    Xml.Reader((s: string) => s, (s: string) => None, (s: string) => Some(Finite(if s == "N" then 52.0 else 5.0)), (s: string) => None,
               (s: string) => Some(g.now - g.maxAge))
  }

  const LATE_PART := NsPositions.NOTHING.(lat := Some(Finite(52.0)), lon := Some(Finite(5.0)))

  lemma LatePartReads(g: NsPositions.Gate)
    ensures NsPositions.ReadPart(LATE_TRAIN.inside[1].leaves, LateReader(g)) == LATE_PART.(timestamp := Some(g.now - g.maxAge))
  {
    var ls, rd := LATE_TRAIN.inside[1].leaves, LateReader(g);
    assert ls[..2] == [ls[0], ls[1]] && ls[..2][..1] == [ls[0]] && [ls[0]][..0] == [];
    assert |"Materieelvolgnummer"| == 19 && |"Latitude"| == 8 && |"Longitude"| == 9 && |"Snelheid"| == 8 && |"Richting"| == 8 && |"GpsDatumTijd"| == 12;
    assert "Latitude"[0] == 'L' && "N"[0] == 'N' && "E"[0] == 'E';
    assert NsPositions.ReadPart([ls[0]], rd) == NsPositions.NOTHING.(lat := Some(Finite(52.0)));
    assert NsPositions.ReadPart(ls[..2], rd) == LATE_PART;
  }

  /** The decoder does emit a fix exactly as old as the gate allows. */
  lemma LateFixDecodes(g: NsPositions.Gate) returns (ts: seq<Xml.Token>, ev: PosEvent)
    requires g.maxAge >= 0
    ensures NsPositions.Run(NsPositions.IDLE, ts, LateReader(g), g).events == [ev] && ev.timestamp == g.now - g.maxAge
  {
    var rd, part := LateReader(g), LATE_PART.(timestamp := Some(g.now - g.maxAge));
    var items := [LATE_TRAIN];
    var ins := LATE_TRAIN.inside;
    ts := NsPositions.DocTokens(items);
    ev := NsPositions.EventFor("1", part, g.now);
    LatePartReads(g);
    LateTrainIsPlain();
    NsPositions.SnapshotDecodes(items, rd, g);
    assert ins[..1] == [ins[0]] && [ins[0]][..0] == [] && items[..0] == [];
    assert NsPositions.NumberOf([ins[0]], rd) == Some("1");
    assert NsPositions.PartsOf([ins[0]], rd) == [];
    assert NsPositions.PartsOf(ins, rd) == [part];
    assert [part][..0] == [];
    assert NsPositions.Best([part], g) == Some(part);
    assert NsPositions.DocEvents(items, rd, g) == [] + [ev];
  }

  lemma LateTrainIsPlain()
    ensures NsPositions.WellFormed(LATE_TRAIN)
  {
    assert |"TreinLocation"| == 13 && |"TreinMaterieelDelen"| == 19 && |"TreinNummer"| == 11;
    assert |"Latitude"| == 8 && |"Longitude"| == 9 && |"GpsDatumTijd"| == 12;
  }

  /** With a fix-age limit above the window, a decoded fix can be swept at the moment it arrives. */
  lemma LateGateFlickers(g: NsPositions.Gate, w: World, staleAfter: int) returns (ts: seq<Xml.Token>, ev: PosEvent)
    requires g.maxAge > staleAfter >= 0
    ensures ev in NsPositions.Run(NsPositions.IDLE, ts, LateReader(g), g).events
    ensures ev.key.Id() !in Run([Event(ev, w), Sweep(g.now)], staleAfter)
  {
    hide ApplyToSlot;
    ts, ev := LateFixDecodes(g);
    var events := NsPositions.Run(NsPositions.IDLE, ts, LateReader(g), g).events;
    assert ev == events[0];
    NsPositions.EveryFixIsAccepted(ts, LateReader(g), g);
    assert NsPositions.Accepted(ev, g);
    var sweep := Sweep(g.now);
    assert sweep in [sweep];
    TripLivesUntil([], ev, w, [sweep], staleAfter);
    assert [] + [Event(ev, w)] + [sweep] == [Event(ev, w), sweep];
  }

  /** So the limit is safe exactly when it is within the window: then, and only then, no decoded fix
      is swept at the moment it arrives. */
  lemma GateIsSafeIff(g: NsPositions.Gate, w: World, staleAfter: int)
    requires staleAfter >= 0
    ensures g.maxAge <= staleAfter <==>
      forall ts, rd, ev :: ev in NsPositions.Run(NsPositions.IDLE, ts, rd, g).events ==> ev.key.Id() in Run([Event(ev, w), Sweep(g.now)], staleAfter)
  {
    if g.maxAge <= staleAfter {
      forall ts, rd, ev | ev in NsPositions.Run(NsPositions.IDLE, ts, rd, g).events
        ensures ev.key.Id() in Run([Event(ev, w), Sweep(g.now)], staleAfter)
      {
        var later := [Sweep(g.now)];
        NoFlicker([], ts, rd, g, ev, w, later, staleAfter);
        assert [] + [Event(ev, w)] + later == [Event(ev, w), Sweep(g.now)];
      }
    } else {
      var ts, ev := LateGateFlickers(g, w, staleAfter);
    }
  }
}
