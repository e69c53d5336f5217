/** The server half of the diff protocol: subscriptions and per-tick updates
    (crates/api/src/ws.rs, crates/api/src/convert.rs). */
module StreamServer {
  import opened Collections
  import opened Domain
  import opened LiveState
  import opened VehicleIndexes

  // ---------------------------------------------------------------- frames

  /** The part of a vehicle that only ENTER carries. */
  datatype VehicleInfo = VehicleInfo(dataowner: string, vehicleNumber: string, line: string, vehicleType: VehicleType,
                                     operator: string, destination: string, block: string, journey: string,
                                     lineColor: string, lineTextColor: string)

  datatype Vehicle = Vehicle(id: string, info: VehicleInfo, lat: real, lon: real, bearing: Num, speedKmh: Option<real>,
                             delay: int, delayKnown: bool, atStop: bool, currentStopId: string, schedulePositioned: bool)

  datatype Move = Move(id: string, lat: real, lon: real, bearing: Num, speedKmh: Option<real>,
                       delay: int, delayKnown: bool, atStop: bool, currentStopId: string, schedulePositioned: bool)

  datatype Update = Update(entered: seq<Vehicle>, moved: seq<Move>, left: seq<string>, isSnapshot: bool)

  function InfoOf(t: LiveTrip): VehicleInfo {
    VehicleInfo(t.key.dataowner, t.key.vehicleNumber, t.schedule.linePublicNumber.GetOr(""), t.schedule.vehicleType,
                t.schedule.operatorName.GetOr(""), t.schedule.destination.GetOr(""), t.journey.blockCode.GetOr(""),
                t.journey.journeyNumber.GetOr(""), t.schedule.lineColor.GetOr(""), t.schedule.lineTextColor.GetOr(""))
  }

  function ToState(t: LiveTrip): Vehicle
    requires t.motion.HasPosition()
  {
    Vehicle(t.id, InfoOf(t), t.motion.lat.v, t.motion.lon.v, t.motion.bearing, t.status.speedKmh, t.status.delaySeconds,
            t.status.delayKnown, t.status.atStop, t.status.currentStopId.GetOr(""), t.motion.schedulePositioned)
  }

  function ToMove(t: LiveTrip): Move
    requires t.motion.HasPosition()
  {
    Move(t.id, t.motion.lat.v, t.motion.lon.v, t.motion.bearing, t.status.speedKmh, t.status.delaySeconds,
         t.status.delayKnown, t.status.atStop, t.status.currentStopId.GetOr(""), t.motion.schedulePositioned)
  }

  // ---------------------------------------------------------------- what was last sent

  datatype Sent = Sent(lat: real, lon: real, delay: int, atStop: bool, speedKmh: Option<real>)

  function SentOf(t: LiveTrip): Sent
    requires t.motion.HasPosition()
  {
    Sent(t.motion.lat.v, t.motion.lon.v, t.status.delaySeconds, t.status.atStop, t.status.speedKmh)
  }

  /** `f32::round`: half away from zero. */
  function Round(x: real): int {
    if x >= 0.0 then (x + 0.5).Floor else -(0.5 - x).Floor
  }

  function RoundedSpeed(s: Option<real>): Option<int> {
    if s.Some? then Some(Round(s.value)) else None
  }

  predicate Changed(prev: Sent, now: Sent) {
    || AbsReal(now.lat - prev.lat) > JITTER
    || AbsReal(now.lon - prev.lon) > JITTER
    || now.delay != prev.delay
    || now.atStop != prev.atStop
    || RoundedSpeed(now.speedKmh) != RoundedSpeed(prev.speedKmh)
  }

  // ---------------------------------------------------------------- subscriptions

  datatype Sub = Sub(bbox: BBox, filters: Filters, pinned: seq<string>, sent: map<string, Sent>, forceSnapshot: bool)

  datatype ClientMsg =
    | Subscribe(viewport: Option<BBox>, filters: Option<Filters>, pinned: seq<string>)
    | UpdateViewport(viewport: Option<BBox>, filters: Option<Filters>, pinned: seq<string>)
    | Ping
    | Empty

  /** `apply_client_msg`, on the connection's subscription. */
  function Received(sub: Option<Sub>, msg: ClientMsg): Option<Sub> {
    match msg
    case Subscribe(viewport, filters, pinned) =>
      if viewport.None? then sub else Some(Sub(viewport.value, filters.GetOr(NO_FILTERS), pinned, map[], true))
    case UpdateViewport(viewport, filters, pinned) =>
      if sub.None? || viewport.None? then sub
      else Some(sub.value.(bbox := viewport.value, filters := filters.GetOr(sub.value.filters), pinned := pinned))
    case Ping => sub
    case Empty => sub
  }

  // ---------------------------------------------------------------- one tick

  /** What the connection should be shown: viewport hits, and pinned vehicles wherever they are. */
  function Visible(idx: Index, sub: Sub): (ids: set<string>)
    ensures ids <= idx.Keys
  {
    Hits(idx, sub.bbox, sub.filters) + set id | id in sub.pinned && id in idx
  }

  ghost function Entering(idx: Index, sub: Sub): set<string> {
    Visible(idx, sub) - sub.sent.Keys
  }

  /** The vehicles of `present` that changed enough to be worth re-sending. */
  ghost function ChangedAmong(idx: Index, sub: Sub, present: set<string>): set<string>
    requires IndexOk(idx) && present <= idx.Keys
  {
    set id | id in present && id in sub.sent && Changed(sub.sent[id], SentOf(idx[id]))
  }

  ghost function Leaving(idx: Index, sub: Sub): set<string> {
    sub.sent.Keys - Visible(idx, sub)
  }

  /** `vs` states each of `ids` exactly once. */
  ghost predicate StatesEach(vs: seq<Vehicle>, ids: set<string>, idx: Index)
    requires IndexOk(idx) && ids <= idx.Keys
  {
    && (forall i, j :: 0 <= i < j < |vs| ==> vs[i].id != vs[j].id)
    && (forall v :: v in vs ==> v.id in ids && v == ToState(idx[v.id]))
    && (forall id :: id in ids ==> ToState(idx[id]) in vs)
  }

  /** `ms` moves each of `ids` exactly once. */
  ghost predicate MovesEach(ms: seq<Move>, ids: set<string>, idx: Index)
    requires IndexOk(idx) && ids <= idx.Keys
  {
    && (forall i, j :: 0 <= i < j < |ms| ==> ms[i].id != ms[j].id)
    && (forall m :: m in ms ==> m.id in ids && m == ToMove(idx[m.id]))
    && (forall id :: id in ids ==> ToMove(idx[id]) in ms)
  }

  /** The frame a tick owes a connection, whatever order its lists are in. */
  ghost predicate FrameFor(idx: Index, sub: Sub, u: Update)
    requires IndexOk(idx)
  {
    && StatesEach(u.entered, Entering(idx, sub), idx)
    && MovesEach(u.moved, ChangedAmong(idx, sub, Visible(idx, sub)), idx)
    && NoDup(u.left) && Range(u.left) == Leaving(idx, sub)
    && u.isSnapshot == sub.forceSnapshot
  }

  /** There is nothing to say: no frame is owed. */
  ghost predicate Quiet(idx: Index, sub: Sub)
    requires IndexOk(idx)
  {
    !sub.forceSnapshot && Entering(idx, sub) == {} && ChangedAmong(idx, sub, Visible(idx, sub)) == {} && Leaving(idx, sub) == {}
  }

  /** Afterwards exactly the visible vehicles are on record, each as it was last sent. */
  function Ticked(idx: Index, sub: Sub): Sub
    requires forall id :: id in Visible(idx, sub) ==> id in idx && idx[id].motion.HasPosition()
  {
    sub.(forceSnapshot := false,
         sent := map id | id in Visible(idx, sub) ::
           if id in sub.sent && !Changed(sub.sent[id], SentOf(idx[id])) then sub.sent[id] else SentOf(idx[id]))
  }

  class Subscription {
    var bbox: BBox
    var filters: Filters
    var pinned: seq<string>
    var sent: map<string, Sent>
    var forceSnapshot: bool

    function Value(): Sub
      reads this
    {
      Sub(bbox, filters, pinned, sent, forceSnapshot)
    }

    constructor (bbox: BBox, filters: Filters, pinned: seq<string>)
      ensures Value() == Sub(bbox, filters, pinned, map[], true)
    {
      this.bbox, this.filters, this.pinned := bbox, filters, pinned;
      sent, forceSnapshot := map[], true;
    }

    /** Record one visible vehicle, as entered, as moved, or as unchanged. */
    method Show(t: LiveTrip, present: set<string>, entered: seq<Vehicle>, moved: seq<Move>, ghost idx: Index, ghost before: Sub)
        returns (entered': seq<Vehicle>, moved': seq<Move>)
      requires IndexOk(idx) && present <= idx.Keys
      requires t.id in idx && idx[t.id] == t && t.id !in present
      requires Progress(idx, before, Value(), present, entered, moved)
      modifies this
      ensures Progress(idx, before, Value(), present + {t.id}, entered', moved')
    {
      entered', moved' := entered, moved;
      var now := SentOf(t);
      RecordNext(idx, before, present, t.id);
      ListsNext(idx, before, present, t.id, entered, moved);
      hide LastSent;
      hide StatesEach;
      hide MovesEach;
      if t.id !in sent {
        entered' := entered + [ToState(t)];
        sent := sent[t.id := now];
      } else if Changed(sent[t.id], now) {
        moved' := moved + [ToMove(t)];
        sent := sent[t.id := now];
      }
    }

    /** First loop: the vehicles in the viewport. */
    method ShowHits(hits: seq<LiveTrip>, ghost idx: Index, ghost before: Sub)
        returns (present: set<string>, entered: seq<Vehicle>, moved: seq<Move>)
      requires IndexOk(idx) && NoDup(Ids(hits)) && Value() == before
      requires forall t :: t in hits ==> t.id in idx && t == idx[t.id]
      modifies this
      ensures present == Range(Ids(hits)) && Progress(idx, before, Value(), present, entered, moved)
    {
      entered, moved, present := [], [], {};
      NothingShown(idx, before);
      hide Progress;
      for i := 0 to |hits|
        invariant present == Range(Ids(hits[..i])) && present <= idx.Keys
        invariant Progress(idx, before, Value(), present, entered, moved)
      {
        var t := hits[i];
        assert t in hits && Ids(hits[..i]) == Ids(hits)[..i] && Ids(hits)[i] == t.id;
        entered, moved := Show(t, present, entered, moved, idx, before);
        assert Ids(hits[..i + 1]) == Ids(hits[..i]) + [t.id];
        RangeAppend(Ids(hits[..i]), [t.id]);
        assert Range([t.id]) == {t.id};
        present := present + {t.id};
      }
      assert hits[..|hits|] == hits;
    }

    /** Second loop: pinned vehicles not already shown. */
    method ShowPinned(index: VehicleIndex, shown: set<string>, entered0: seq<Vehicle>, moved0: seq<Move>, ghost before: Sub)
        returns (present: set<string>, entered: seq<Vehicle>, moved: seq<Move>)
      requires index.Valid() && IndexOk(index.Contents())
      requires shown == Hits(index.Contents(), before.bbox, before.filters)
      requires Progress(index.Contents(), before, Value(), shown, entered0, moved0)
      modifies this
      ensures present == Visible(index.Contents(), before)
      ensures Progress(index.Contents(), before, Value(), present, entered, moved)
    {
      ghost var idx := index.Contents();
      present, entered, moved := shown, entered0, moved0;
      for i := 0 to |pinned|
        invariant pinned == before.pinned
        invariant present == shown + (set id | id in before.pinned[..i] && id in idx)
        invariant Progress(idx, before, Value(), present, entered, moved)
      {
        var id := pinned[i];
        assert before.pinned[..i + 1] == before.pinned[..i] + [id];
        if id !in present {
          var t := index.Get(id);
          if t.Some? {
            entered, moved := Show(t.value, present, entered, moved, idx, before);
            present := present + {id};
          }
        }
      }
      assert pinned[..|pinned|] == pinned;
    }

    /** Take the vehicles that left off the record. */
    method Forget(left: seq<string>)
      modifies this
      ensures Value() == old(Value()).(sent := old(sent) - Range(left))
    {
      for i := 0 to |left|
        invariant Value() == old(Value()).(sent := old(sent) - Range(left[..i]))
      {
        assert left[..i + 1] == left[..i] + [left[i]];
        sent := sent - {left[i]};
      }
      assert left[..|left|] == left;
    }

    /** The viewport diff of one tick against the latest index. */
    method BuildUpdate(index: VehicleIndex) returns (frame: Option<Update>)
      requires index.Valid() && IndexOk(index.Contents())
      modifies this
      ensures Value() == Ticked(index.Contents(), old(Value()))
      ensures frame.None? <==> Quiet(index.Contents(), old(Value()))
      ensures frame.Some? ==> FrameFor(index.Contents(), old(Value()), frame.value)
    {
      hide Hits;
      hide StatesEach;
      hide MovesEach;
      hide LastSent;
      hide Changed;
      ghost var idx, before := index.Contents(), Value();
      var hits := index.Query(bbox, filters);
      var present, entered, moved := ShowHits(hits, idx, before);
      present, entered, moved := ShowPinned(index, present, entered, moved, before);
      EmptyLists(idx, before, entered, moved);
      SweptIsTicked(idx, before);
      var left := Absent(present);
      assert Range(left) == Leaving(idx, before);
      Forget(left);
      var isSnapshot := forceSnapshot;
      forceSnapshot := false;
      RangeEmpty(left);
      if !isSnapshot && entered == [] && moved == [] && left == [] {
        return None;
      }
      frame := Some(Update(entered, moved, left, isSnapshot));
    }

    /** The ids on record that are not present, each once. */
    method Absent(present: set<string>) returns (left: seq<string>)
      ensures NoDup(left) && Range(left) == sent.Keys - present
    {
      left := [];
      var todo := sent.Keys - present;
      while todo != {}
        invariant todo <= sent.Keys - present
        invariant NoDup(left) && Range(left) == sent.Keys - present - todo
        decreases todo
      {
        var id :| id in todo;
        assert Range([id]) == {id};
        NoDupAppend(left, [id]);
        RangeAppend(left, [id]);
        left := left + [id];
        todo := todo - {id};
      }
    }
  }

  /** The record once the vehicles of `present` have been shown. */
  ghost function LastSent(idx: Index, before: Sub, present: set<string>): map<string, Sent>
    requires IndexOk(idx) && present <= idx.Keys
  {
    map id | id in before.sent.Keys + present ::
      if id in present && (id !in before.sent || Changed(before.sent[id], SentOf(idx[id]))) then SentOf(idx[id]) else before.sent[id]
  }

  lemma AddState(idx: Index, vs: seq<Vehicle>, ids: set<string>, id: string)
    requires IndexOk(idx) && ids <= idx.Keys && id in idx && id !in ids && StatesEach(vs, ids, idx)
    ensures StatesEach(vs + [ToState(idx[id])], ids + {id}, idx)
  {
    forall j | 0 <= j < |vs| ensures vs[j].id != id {
      assert vs[j] in vs;
    }
  }

  lemma AddMove(idx: Index, ms: seq<Move>, ids: set<string>, id: string)
    requires IndexOk(idx) && ids <= idx.Keys && id in idx && id !in ids && MovesEach(ms, ids, idx)
    ensures MovesEach(ms + [ToMove(idx[id])], ids + {id}, idx)
  {
    forall j | 0 <= j < |ms| ensures ms[j].id != id {
      assert ms[j] in ms;
    }
  }

  // The record after one more vehicle is shown.
  lemma RecordNext(idx: Index, before: Sub, present: set<string>, id: string)
    requires IndexOk(idx) && present <= idx.Keys && id in idx && id !in present
    ensures var was, sent := LastSent(idx, before, present), LastSent(idx, before, present + {id});
      if id !in before.sent then id !in was && sent == was[id := SentOf(idx[id])]
      else
        && id in was && was[id] == before.sent[id]
        && sent == if Changed(before.sent[id], SentOf(idx[id])) then was[id := SentOf(idx[id])] else was
  {
    hide Changed;
    hide SentOf;
  }

  // The lists after one more vehicle is shown.
  lemma ListsNext(idx: Index, before: Sub, present: set<string>, id: string, entered: seq<Vehicle>, moved: seq<Move>)
    requires IndexOk(idx) && present <= idx.Keys && id in idx && id !in present
    requires StatesEach(entered, present - before.sent.Keys, idx)
    requires MovesEach(moved, ChangedAmong(idx, before, present), idx)
    ensures var next := present + {id};
      var resend := id in before.sent && Changed(before.sent[id], SentOf(idx[id]));
      && StatesEach(if id in before.sent then entered else entered + [ToState(idx[id])], next - before.sent.Keys, idx)
      && MovesEach(if resend then moved + [ToMove(idx[id])] else moved, ChangedAmong(idx, before, next), idx)
  {
    hide Changed;
    hide SentOf;
    hide StatesEach;
    hide MovesEach;
    var next := present + {id};
    var changed := ChangedAmong(idx, before, present);
    if id !in before.sent {
      AddState(idx, entered, present - before.sent.Keys, id);
      assert next - before.sent.Keys == (present - before.sent.Keys) + {id};
      assert ChangedAmong(idx, before, next) == changed;
    } else {
      assert next - before.sent.Keys == present - before.sent.Keys;
      if Changed(before.sent[id], SentOf(idx[id])) {
        AddMove(idx, moved, changed, id);
        assert ChangedAmong(idx, before, next) == changed + {id};
      } else {
        assert ChangedAmong(idx, before, next) == changed;
      }
    }
  }

  lemma NothingShown(idx: Index, before: Sub)
    requires IndexOk(idx)
    ensures Progress(idx, before, before, {}, [], [])
  {
    assert LastSent(idx, before, {}) == before.sent;
  }

  // Sweeping out what left turns the record of everything shown into the ticked record.
  lemma SweptIsTicked(idx: Index, before: Sub)
    requires IndexOk(idx)
    ensures LastSent(idx, before, Visible(idx, before)).Keys - Visible(idx, before) == Leaving(idx, before)
    ensures LastSent(idx, before, Visible(idx, before)) - Leaving(idx, before) == Ticked(idx, before).sent
  {
    hide Changed;
    hide SentOf;
    assert LastSent(idx, before, Visible(idx, before)).Keys == before.sent.Keys + Visible(idx, before);
  }

  lemma EmptyLists(idx: Index, sub: Sub, entered: seq<Vehicle>, moved: seq<Move>)
    requires IndexOk(idx)
    requires StatesEach(entered, Entering(idx, sub), idx)
    requires MovesEach(moved, ChangedAmong(idx, sub, Visible(idx, sub)), idx)
    ensures entered == [] <==> Entering(idx, sub) == {}
    ensures moved == [] <==> ChangedAmong(idx, sub, Visible(idx, sub)) == {}
  {
    assert entered == [] || entered[0] in entered;
    assert moved == [] || moved[0] in moved;
  }

  // Midway through a tick: `present` has been shown.
  ghost predicate Progress(idx: Index, before: Sub, now: Sub, present: set<string>, entered: seq<Vehicle>, moved: seq<Move>)
    requires IndexOk(idx)
  {
    && present <= idx.Keys
    && now == before.(sent := LastSent(idx, before, present))
    && StatesEach(entered, present - before.sent.Keys, idx)
    && MovesEach(moved, ChangedAmong(idx, before, present), idx)
  }

  /** Apply a client message to a connection; `pong` is the immediate reply. */
  method ApplyClientMsg(msg: ClientMsg, sub: Subscription?) returns (sub': Subscription?, pong: bool)
    modifies sub
    ensures Held(sub') == Received(old(Held(sub)), msg)
    ensures sub' == sub || fresh(sub')
    ensures pong <==> msg.Ping?
  {
    sub', pong := sub, false;
    match msg
    case Subscribe(viewport, filters, pinned) =>
      if viewport.Some? {
        sub' := new Subscription(viewport.value, filters.GetOr(NO_FILTERS), pinned);
      }
    case UpdateViewport(viewport, filters, pinned) =>
      if sub != null && viewport.Some? {
        sub.bbox := viewport.value;
        if filters.Some? {
          sub.filters := filters.value;
        }
        sub.pinned := pinned;
      }
    case Ping => pong := true;
    case Empty =>
  }

  function Held(sub: Subscription?): Option<Sub>
    reads sub
  {
    if sub == null then None else Some(sub.Value())
  }
}
