/** What crosses the wire and when, spelled out in the values themselves (crates/api/src/ws.rs,
    crates/api/src/convert.rs, crates/core/src/filter.rs). */
module Wire {
  import opened Collections
  import opened Domain
  import opened LiveState
  import opened VehicleIndexes
  import opened StreamServer
  import opened LiveClients
  import opened Replication
  import opened Convergence

  // ---------------------------------------------------------------- worth sending

  /** Rounding goes to a nearest integer, and from halfway away from zero. */
  lemma RoundIsNearest(x: real)
    ensures var off := x - Round(x) as real;
      && -0.5 <= off <= 0.5
      && (off == 0.5 ==> x < 0.0) && (off == -0.5 ==> x > 0.0)
  {}

  /** On the client's display the trip is where, how late and how fast it was last said to be. */
  predicate LooksTheSame(was: Sent, t: LiveTrip)
    requires t.motion.HasPosition()
  {
    && -0.000001 <= t.motion.lat.v - was.lat <= 0.000001
    && -0.000001 <= t.motion.lon.v - was.lon <= 0.000001
    && t.status.delaySeconds == was.delay && t.status.atStop == was.atStop
    && match (t.status.speedKmh, was.speedKmh)
       case (None, None) => true
       case (Some(now), Some(before)) => Round(now) == Round(before)
       case _ => false
  }

  lemma ChangedIff(was: Sent, t: LiveTrip)
    requires t.motion.HasPosition()
    ensures Changed(was, SentOf(t)) <==> !LooksTheSame(was, t)
  {}

  /** In every run a frame moves exactly the vehicles on record that the tick makes visible and that no
      longer look as last sent: a standing train whose speed flickers below a half is not among them. */
  lemma MovedIff(s: System, c: SockId, u: Update, id: string)
    requires Reachable(s) && Enabled(s, ServerTicks(c, Some(u)))
    ensures id in s.index ==> s.index[id].motion.HasPosition()
    ensures var sub := s.conns[c].sub.value;
      (exists m :: m in u.moved && m.id == id) <==>
        id in Visible(s.index, sub) && id in sub.sent && !LooksTheSame(sub.sent[id], s.index[id])
  {
    var idx, sub := s.index, s.conns[c].sub.value;
    if id in idx && id in sub.sent {
      ChangedIff(sub.sent[id], idx[id]);
    }
    var changed := ChangedAmong(idx, sub, Visible(idx, sub));
    assert id in changed <==> id in Visible(idx, sub) && id in sub.sent && !LooksTheSame(sub.sent[id], idx[id]);
    assert MovesEach(u.moved, changed, idx);
    hide Visible, Changed, LooksTheSame, ChangedAmong, Reachable, StatesEach;
    if id in changed {
      assert ToMove(idx[id]) in u.moved;
    }
  }

  /** In every run a tick says nothing exactly when no snapshot is owed, the visible vehicles are those on
      record, and each still looks as it was last sent. */
  lemma SilentIff(s: System, c: SockId, frame: Option<Update>)
    requires Reachable(s) && Enabled(s, ServerTicks(c, frame))
    ensures forall id :: id in s.index ==> s.index[id].motion.HasPosition()
    ensures var sub := s.conns[c].sub.value;
      frame.None? <==>
        && !sub.forceSnapshot && Visible(s.index, sub) == sub.sent.Keys
        && forall id :: id in sub.sent && id in s.index ==> LooksTheSame(sub.sent[id], s.index[id])
  {
    var idx, sub := s.index, s.conns[c].sub.value;
    forall id | id in idx && id in sub.sent ensures Changed(sub.sent[id], SentOf(idx[id])) <==> !LooksTheSame(sub.sent[id], idx[id]) {
      ChangedIff(sub.sent[id], idx[id]);
    }
    assert frame.None? <==> Quiet(idx, sub);
    hide Changed, LooksTheSame, Reachable, FrameFor;
    QuietIff(idx, sub);
  }

  lemma QuietIff(idx: Index, sub: Sub)
    requires IndexOk(idx)
    ensures Quiet(idx, sub) <==>
      && !sub.forceSnapshot && Visible(idx, sub) == sub.sent.Keys
      && forall id :: id in sub.sent && id in idx ==> id in Visible(idx, sub) ==> !Changed(sub.sent[id], SentOf(idx[id]))
  {
    hide Changed, Hits;
    var visible := Visible(idx, sub);
    var changed := ChangedAmong(idx, sub, visible);
    assert visible - sub.sent.Keys == {} && sub.sent.Keys - visible == {} <==> visible == sub.sent.Keys;
    assert changed == {} <==> forall id :: id in visible && id in sub.sent ==> !Changed(sub.sent[id], SentOf(idx[id])) by {
      assert forall id :: id in changed <==> id in visible && id in sub.sent && Changed(sub.sent[id], SentOf(idx[id]));
    }
  }

  // ---------------------------------------------------------------- what messages do

  /** An update of the view leaves the record and an owed snapshot alone; without a box it does nothing. */
  lemma UpdateKeepsRecord(s: System, c: SockId)
    requires Enabled(s, ServerReceives(c)) && s.conns[c].up[0].UpdateViewport?
    ensures var msg, before, after := s.conns[c].up[0], s.conns[c].sub, After(s, ServerReceives(c)).conns[c].sub;
      && (before.None? || msg.viewport.None? ==> after == before)
      && (before.Some? && msg.viewport.Some? ==>
            && after.Some? && after.value.sent == before.value.sent && after.value.forceSnapshot == before.value.forceSnapshot
            && after.value.bbox == msg.viewport.value && after.value.pinned == msg.pinned
            && after.value.filters == if msg.filters.Some? then msg.filters.value else before.value.filters)
  {}

  /** A subscription with a box starts from nothing sent and owes a snapshot; anything else a client can
      send leaves the subscription as it is. */
  lemma SubscribeStartsAfresh(s: System, c: SockId)
    requires Enabled(s, ServerReceives(c)) && !s.conns[c].up[0].UpdateViewport?
    ensures var msg, before, after := s.conns[c].up[0], s.conns[c].sub, After(s, ServerReceives(c)).conns[c].sub;
      if msg.Subscribe? && msg.viewport.Some? then
        && after.Some? && after.value.sent == map[] && after.value.forceSnapshot
        && after.value.bbox == msg.viewport.value && after.value.pinned == msg.pinned
        && after.value.filters == if msg.filters.Some? then msg.filters.value else Filters([], [], "")
      else after == before
  {}

  // ---------------------------------------------------------------- what vehicles say

  function Text(o: Option<string>): string {
    if o.Some? then o.value else ""
  }

  /** The vehicle says of the trip what the trip says of itself, field by field. */
  predicate Describes(v: Vehicle, t: LiveTrip) {
    && v.id == t.id && t.motion.lat == Finite(v.lat) && t.motion.lon == Finite(v.lon) && v.bearing == t.motion.bearing
    && v.speedKmh == t.status.speedKmh && v.delay == t.status.delaySeconds && v.delayKnown == t.status.delayKnown
    && v.atStop == t.status.atStop && v.currentStopId == Text(t.status.currentStopId)
    && v.schedulePositioned == t.motion.schedulePositioned
    && v.info.dataowner == t.key.dataowner && v.info.vehicleNumber == t.key.vehicleNumber
    && v.info.line == Text(t.schedule.linePublicNumber) && v.info.vehicleType == t.schedule.vehicleType
    && v.info.operator == Text(t.schedule.operatorName) && v.info.destination == Text(t.schedule.destination)
    && v.info.block == Text(t.journey.blockCode) && v.info.journey == Text(t.journey.journeyNumber)
    && v.info.lineColor == Text(t.schedule.lineColor) && v.info.lineTextColor == Text(t.schedule.lineTextColor)
  }

  predicate Updates(m: Move, t: LiveTrip) {
    && t.motion.lat == Finite(m.lat) && t.motion.lon == Finite(m.lon) && m.speedKmh == t.status.speedKmh
    && m.delay == t.status.delaySeconds && m.delayKnown == t.status.delayKnown && m.atStop == t.status.atStop
  }

  /** In every run every vehicle a frame enters describes its trip in the index of the tick, and every
      one it moves gives that trip's position, speed, delay and stop. */
  lemma FramesDescribe(s: System, c: SockId, u: Update)
    requires Reachable(s) && Enabled(s, ServerTicks(c, Some(u)))
    ensures forall v :: v in u.entered ==> v.id in s.index && Describes(v, s.index[v.id])
    ensures forall m :: m in u.moved ==> m.id in s.index && Updates(m, s.index[m.id])
  {
    hide Changed, Reachable, Hits;
  }

  // ---------------------------------------------------------------- viewports and filters

  /** The corners of a box may come in any order; in order, they bound what is inside, edges included. */
  lemma EnvelopeIsTheBox(b: BBox, lat: real, lon: real)
    ensures InEnvelope(b, lat, lon) == InEnvelope(BBox(b.maxLat, b.minLon, b.minLat, b.maxLon), lat, lon)
    ensures InEnvelope(b, lat, lon) == InEnvelope(BBox(b.minLat, b.maxLon, b.maxLat, b.minLon), lat, lon)
    ensures b.minLat <= b.maxLat && b.minLon <= b.maxLon ==>
      (InEnvelope(b, lat, lon) <==> b.minLat <= lat <= b.maxLat && b.minLon <= lon <= b.maxLon)
  {}

  /** Published are exactly the trips with both coordinates, as they are. */
  lemma PublishedIff(trips: Trips, id: string)
    ensures id in Positioned(trips) <==> id in trips && trips[id].motion.lat.Finite? && trips[id].motion.lon.Finite?
    ensures id in Positioned(trips) ==> Positioned(trips)[id] == trips[id]
  {}

  /** A trip is hit by a view, its corners in order, exactly when it lies in it and passes the filters. */
  lemma HitIff(t: LiveTrip, lat: real, lon: real, b: BBox, f: Filters)
    requires t.motion.lat == Finite(lat) && t.motion.lon == Finite(lon) && b.minLat <= b.maxLat && b.minLon <= b.maxLon
    ensures Hit(t, b, f) <==> b.minLat <= lat && lat <= b.maxLat && b.minLon <= lon && lon <= b.maxLon && Matches(f, t)
  {}

  /** A filter is the conjunction of its three parts, an empty part passing everything. */
  lemma FiltersConjoin(f: Filters, t: LiveTrip)
    ensures Matches(Filters([], [], ""), t)
    ensures Matches(f, t) <==>
      Matches(Filters(f.vehicleTypes, [], ""), t) && Matches(Filters([], f.dataowners, ""), t) && Matches(Filters([], [], f.search), t)
  {}

  /** Modes and owners pass when listed, owners in either case; the search text when one of five fields
      contains it. */
  lemma FiltersPass(f: Filters, t: LiveTrip)
    ensures f.vehicleTypes != [] ==> (Matches(Filters(f.vehicleTypes, [], ""), t) <==> t.schedule.vehicleType in f.vehicleTypes)
    ensures f.dataowners != [] ==>
      (Matches(Filters([], f.dataowners, ""), t) <==> exists d :: d in f.dataowners && Lower(d) == Lower(t.key.dataowner))
    ensures f.search != "" ==>
      (Matches(Filters([], [], f.search), t) <==>
        exists field :: field in SearchedFields(t) && field.Some? && Contains(Lower(field.value), Lower(f.search)))
  {
    var fields := SearchedFields(t);
    assert fields[0] in fields && fields[1] in fields && fields[2] in fields && fields[3] in fields && fields[4] in fields;
    hide Contains, Lower;
  }

  function SearchedFields(t: LiveTrip): seq<Option<string>> {
    [Some(t.key.vehicleNumber), t.schedule.linePublicNumber, t.journey.linePlanningNumber, t.journey.blockCode, t.journey.journeyNumber]
  }

  /** Lower-casing folds the 26 ASCII capitals, keeps every other character and the length, and a second
      time changes nothing. */
  lemma LowerFolds(s: string)
    ensures |Lower(s)| == |s| && Lower(Lower(s)) == Lower(s)
    ensures forall i :: 0 <= i < |s| ==>
      (('A' <= s[i] <= 'Z' ==> 'a' <= Lower(s)[i] <= 'z' && Lower(s)[i] as int - s[i] as int == 32) && (!('A' <= s[i] <= 'Z') ==> Lower(s)[i] == s[i]))
  {}
}
