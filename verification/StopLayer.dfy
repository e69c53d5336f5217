/** The map client's stop layer: stops are fetched for a padded box and no request is made while
    the view stays inside it (apps/mobile/components/map/LiveMap.tsx, apps/mobile/lib/geo.ts). */
module StopLayers {
  import opened Collections
  import opened Domain
  import opened Gtfs
  import opened StopGrid

  const STOPS_ZOOM: real := 14.0
  const STOPS_LIMIT: nat := 800
  const STOPS_PAD: real := 0.35

  function PadBox(b: BBox, f: real): BBox {
    var dLat, dLon := (b.maxLat - b.minLat) * f, (b.maxLon - b.minLon) * f;
    BBox(b.minLat - dLat, b.minLon - dLon, b.maxLat + dLat, b.maxLon + dLon)
  }

  predicate Covers(have: Option<BBox>, view: BBox) {
    && have.Some?
    && have.value.minLat <= view.minLat && have.value.minLon <= view.minLon
    && have.value.maxLat >= view.maxLat && have.value.maxLon >= view.maxLon
  }

  /** Covering is containment of everything that can lie in the view. */
  lemma CoversContains(have: BBox, view: BBox, stops: Stops)
    requires Covers(Some(have), view)
    ensures QuaysIn(stops, view) == set s | s in QuaysIn(stops, have) && Inside(view, s)
  {
    forall id | id in stops && stops[id].IsQuay() && Inside(view, stops[id]) ensures stops[id] in QuaysIn(stops, have) {}
  }

  /** A view of the same size, panned by at most the padding on each axis, stays covered. */
  lemma PanStaysCovered(view: BBox, dLat: real, dLon: real)
    requires view.minLat <= view.maxLat && view.minLon <= view.maxLon
    ensures var there := BBox(view.minLat + dLat, view.minLon + dLon, view.maxLat + dLat, view.maxLon + dLon);
      Covers(Some(PadBox(view, STOPS_PAD)), there) <==>
        && AbsReal(dLat) <= (view.maxLat - view.minLat) * STOPS_PAD
        && AbsReal(dLon) <= (view.maxLon - view.minLon) * STOPS_PAD
  {}

  // ---------------------------------------------------------------- one step

  /** A fetch for a padded box; `aborted` once its controller was told to abort. */
  datatype Request = Request(box: BBox, aborted: bool)

  /** The stop layer: `have` is the box the drawn stops are known to cover, `live` the request
      holding the current abort controller. Requests are numbered in order of issue. */
  datatype Layer = Layer(drawn: seq<StopInfo>, have: Option<BBox>, requests: map<nat, Request>, issued: nat, live: Option<nat>)

  const BLANK := Layer([], None, map[], 0, None)

  function Aborted(l: Layer): Layer {
    if l.live.Some? && l.live.value in l.requests then
      l.(requests := l.requests[l.live.value := l.requests[l.live.value].(aborted := true)])
    else l
  }

  predicate Suppressed(l: Layer, view: BBox, zoom: real, show: bool) {
    show && zoom >= STOPS_ZOOM && Covers(l.have, view)
  }

  function Moved(l: Layer, view: BBox, zoom: real, show: bool): Layer {
    if !show || zoom < STOPS_ZOOM || Covers(l.have, view) then l
    else
      var a := Aborted(l);
      a.(requests := a.requests[l.issued := Request(PadBox(view, STOPS_PAD), false)], issued := l.issued + 1, live := Some(l.issued))
  }

  function Answered(l: Layer, n: nat, resp: StopsResponse): Layer
    requires n in l.requests
  {
    var rest := l.(requests := l.requests - {n});
    if resp.Stops? then
      rest.(drawn := resp.stops, have := if resp.truncated then None else Some(l.requests[n].box))
    else rest
  }

  function Failed(l: Layer, n: nat): Layer {
    l.(requests := l.requests - {n})
  }

  // ---------------------------------------------------------------- every run

  /** `Answer` is a reply that arrives, `Fail` an abort, a timeout or no network. */
  datatype Happening =
    | Move(view: BBox, zoom: real, show: bool)
    | Answer(n: nat, resp: StopsResponse)
    | Fail(n: nat)

  /** Only outstanding requests are answered (an abort may come too late to stop the reply), and
      the server answers with what the endpoint promises for the box asked about. */
  ghost predicate Possible(l: Layer, h: Happening, stops: Stops, coslat: BBox -> real) {
    match h
    case Move(_, _, _) => true
    case Answer(n, resp) => (
      && n in l.requests
      && StopGrid.Answers(resp, stops, l.requests[n].box, coslat(l.requests[n].box), Some(STOPS_LIMIT)))
    case Fail(n) => n in l.requests
  }

  function After(l: Layer, h: Happening): Layer {
    match h
    case Move(view, zoom, show) => Moved(l, view, zoom, show)
    case Answer(n, resp) => if n in l.requests then Answered(l, n, resp) else l
    case Fail(n) => Failed(l, n)
  }

  function Run(hs: seq<Happening>): Layer {
    if hs == [] then BLANK else After(Run(hs[..|hs| - 1]), hs[|hs| - 1])
  }

  ghost predicate Happens(hs: seq<Happening>, stops: Stops, coslat: BBox -> real) {
    forall k :: 0 <= k < |hs| ==> Possible(Run(hs[..k]), hs[k], stops, coslat)
  }

  /** The drawn stops are all there is in the box they are said to cover. */
  ghost predicate CacheOk(l: Layer, stops: Stops) {
    l.have.Some? ==> Range(l.drawn) == QuaysIn(stops, l.have.value) && NoDup(l.drawn)
  }

  /** Only the latest request is not yet aborted. */
  ghost predicate OneLive(l: Layer) {
    && (l.live.Some? ==> l.live.value < l.issued)
    && (forall n :: n in l.requests ==> n < l.issued)
    && (forall n :: n in l.requests && !l.requests[n].aborted ==> l.live == Some(n))
  }

  lemma StepKeeps(l: Layer, h: Happening, stops: Stops, coslat: BBox -> real)
    requires CacheOk(l, stops) && OneLive(l) && Possible(l, h, stops, coslat)
    ensures CacheOk(After(l, h), stops) && OneLive(After(l, h))
  {
    if h.Answer? && h.resp.Stops? && !h.resp.truncated {
      var box := l.requests[h.n].box;
      UntruncatedIsComplete(h.resp, stops, box, coslat(box), Some(STOPS_LIMIT));
    }
  }

  lemma {:induction false} RunKeeps(hs: seq<Happening>, stops: Stops, coslat: BBox -> real)
    requires Happens(hs, stops, coslat)
    ensures CacheOk(Run(hs), stops) && OneLive(Run(hs))
  {
    if hs != [] {
      var front := hs[..|hs| - 1];
      forall k | 0 <= k < |front| ensures Possible(Run(front[..k]), front[k], stops, coslat) {
        assert front[..k] == hs[..k] && Possible(Run(hs[..k]), hs[k], stops, coslat);
      }
      RunKeeps(front, stops, coslat);
      StepKeeps(Run(front), hs[|hs| - 1], stops, coslat);
    }
  }

  /** Whatever moves, replies, truncations, failures and late replies came before: when a request
      is suppressed, the drawn stops inside the view are exactly the feed's quays there. */
  lemma SuppressedViewIsComplete(hs: seq<Happening>, stops: Stops, coslat: BBox -> real, view: BBox, zoom: real)
    requires Happens(hs, stops, coslat) && Suppressed(Run(hs), view, zoom, true)
    ensures forall s :: s in Run(hs).drawn && Inside(view, s) <==> s in QuaysIn(stops, view)
  {
    RunKeeps(hs, stops, coslat);
    var l := Run(hs);
    CoversContains(l.have.value, view, stops);
    forall s ensures s in l.drawn && Inside(view, s) <==> s in QuaysIn(stops, view) {
      assert s in l.drawn <==> s in Range(l.drawn);
    }
  }

  /** A move that is not suppressed asks for a box that will cover it, and leaves exactly that
      request un-aborted. */
  lemma MoveAsks(hs: seq<Happening>, stops: Stops, coslat: BBox -> real, view: BBox, zoom: real)
    requires Happens(hs, stops, coslat)
    requires view.minLat <= view.maxLat && view.minLon <= view.maxLon
    requires zoom >= STOPS_ZOOM && !Suppressed(Run(hs), view, zoom, true)
    ensures var l := Moved(Run(hs), view, zoom, true);
      && l.live.Some? && l.live.value in l.requests && l.live.value !in Run(hs).requests
      && Covers(Some(l.requests[l.live.value].box), view)
      && (forall n :: n in l.requests && n != l.live.value ==> l.requests[n].aborted)
      && l.drawn == Run(hs).drawn
  {
    RunKeeps(hs, stops, coslat);
  }

  // ---------------------------------------------------------------- the component

  class StopLayer {
    var drawn: seq<StopInfo>
    var have: Option<BBox>
    var requests: map<nat, Request>
    var issued: nat
    var live: Option<nat>

    ghost function Value(): Layer
      reads this
    {
      Layer(drawn, have, requests, issued, live)
    }

    constructor ()
      ensures Value() == BLANK
    {
      drawn, have, requests, issued, live := [], None, map[], 0, None;
    }

    /** `loadStops` up to its await: the box to ask the server for, if any. */
    method Load(view: BBox, zoom: real, show: bool) returns (ask: Option<BBox>)
      modifies this
      ensures Value() == Moved(old(Value()), view, zoom, show)
      ensures ask.Some? <==> show && zoom >= STOPS_ZOOM && !Covers(old(have), view)
      ensures ask.Some? ==> ask.value == PadBox(view, STOPS_PAD)
    {
      if !show || zoom < STOPS_ZOOM {
        return None;
      }
      if Covers(have, view) {
        return None;
      }
      if live.Some? && live.value in requests {
        requests := requests[live.value := requests[live.value].(aborted := true)];
      }
      live := Some(issued);
      var padded := PadBox(view, STOPS_PAD);
      requests := requests[issued := Request(padded, false)];
      issued := issued + 1;
      ask := Some(padded);
    }

    /** `loadStops` after its await. */
    method Take(n: nat, resp: StopsResponse)
      requires n in requests
      modifies this
      ensures Value() == Answered(old(Value()), n, resp)
    {
      var padded := requests[n].box;
      requests := requests - {n};
      if resp.Stops? {
        drawn := resp.stops;
        have := if resp.truncated then None else Some(padded);
      }
    }

    /** The fetch threw: aborted, timed out, offline. */
    method GiveUp(n: nat)
      modifies this
      ensures Value() == Failed(old(Value()), n)
    {
      requests := requests - {n};
    }
  }
}
