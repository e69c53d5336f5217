/** The map screen's plan fetch and its refetch rule, as effects over state cells, over every
    interleaving of user actions, poll and plan answers and renders (apps/mobile/hooks/useMapApp.ts). */
module PlanFetch {
  import opened Collections

  /** What a plan effect run depends on. */
  datatype PlanKey = PlanKey(active: Option<string>, nonce: nat, planTrip: Option<string>)

  /** What a trigger effect run depends on. */
  datatype TriggerKey = TriggerKey(reported: Option<string>, plan: Option<Plan>, planTrip: Option<string>)

  /** A loaded plan: the trip it is for, and (for the model) the request it answers. */
  datatype Plan = Plan(tripId: Option<string>, answers: PlanKey)

  /** A poll answer: the trip id it reports, if the vehicle is matched. */
  datatype Detail = Detail(tripId: Option<string>)

  /** The state cells, the dependencies each effect last ran with (none before the first render),
      and whether a live plan request or poll is outstanding. */
  datatype Cells = Cells(
    active: Option<string>, nonce: nat, planTrip: Option<string>, plan: Option<Plan>, detail: Option<Detail>,
    ranDetail: Option<(Option<string>, nat)>, ranPlan: Option<PlanKey>, ranTrigger: Option<TriggerKey>,
    fetching: bool, polling: bool)

  const START := Cells(None, 0, None, None, None, None, None, None, false, false)

  function KeyOf(c: Cells): PlanKey {
    PlanKey(c.active, c.nonce, c.planTrip)
  }

  /** The trip id the poll reports; an empty or missing one is no id. */
  function Reported(c: Cells): Option<string> {
    if c.detail.Some? && c.detail.value.tripId != Some("") then c.detail.value.tripId else None
  }

  function TriggerOf(c: Cells): TriggerKey {
    TriggerKey(Reported(c), c.plan, c.planTrip)
  }

  /** The refetch rule: the poll reports a known trip other than the plan's, not yet asked for. */
  predicate Triggers(c: Cells) {
    && Reported(c).Some? && c.plan.Some? && c.plan.value.tripId != Reported(c)
    && Reported(c) != c.planTrip
  }

  // ---------------------------------------------------------------- effects

  function AfterDetailEffect(c: Cells, seen: Cells): Cells {
    if seen.ranDetail == Some((seen.active, seen.nonce)) then c
    else c.(detail := None, polling := seen.active.Some?, ranDetail := Some((seen.active, seen.nonce)))
  }

  function AfterPlanEffect(c: Cells, seen: Cells): Cells {
    if seen.ranPlan == Some(KeyOf(seen)) then c
    else c.(plan := None, fetching := seen.active.Some?, ranPlan := Some(KeyOf(seen)))
  }

  function AfterTriggerEffect(c: Cells, seen: Cells): Cells {
    if seen.ranTrigger == Some(TriggerOf(seen)) then c
    else c.(planTrip := if Triggers(seen) then Reported(seen) else c.planTrip, ranTrigger := Some(TriggerOf(seen)))
  }

  /** After a render, the effects whose dependencies changed run in order; all of them read the
      cells as rendered. */
  function Committed(c: Cells): Cells {
    AfterTriggerEffect(AfterPlanEffect(AfterDetailEffect(c, c), c), c)
  }

  predicate Fetches(c: Cells) {
    c.ranPlan != Some(KeyOf(c)) && c.active.Some?
  }

  predicate Refetches(c: Cells) {
    c.ranTrigger != Some(TriggerOf(c)) && Triggers(c)
  }

  datatype Happening =
    | Select(id: Option<string>)         // select a vehicle or tab, close the last one
    | Renew(vehicle: string)             // resume onto a replacement trip
    | PollAnswer(tripId: Option<string>)
    | PollFailed(initial: bool)
    | PlanAnswer(tripId: Option<string>)
    | PlanFailed
    | Commit

  function Next(c: Cells, h: Happening): Cells {
    match h
    case Select(id) => c.(active := id)
    case Renew(v) => c.(active := Some(v), nonce := c.nonce + 1)
    case PollAnswer(t) => if c.polling then c.(detail := Some(Detail(t))) else c
    case PollFailed(initial) => if c.polling && initial then c.(detail := None) else c
    case PlanAnswer(t) => if c.fetching && c.ranPlan.Some? then c.(plan := Some(Plan(t, c.ranPlan.value)), fetching := false) else c
    case PlanFailed => c.(fetching := false)
    case Commit => Committed(c)
  }

  function Run(hs: seq<Happening>): Cells {
    if hs == [] then START else Next(Run(hs[..|hs| - 1]), hs[|hs| - 1])
  }

  // ---------------------------------------------------------------- counting

  function Bit(b: bool): nat {
    if b then 1 else 0
  }

  /** Plan requests issued. */
  function Requests(hs: seq<Happening>): nat {
    if hs == [] then 0
    else
      var front, h := hs[..|hs| - 1], hs[|hs| - 1];
      Requests(front) + Bit(h.Commit? && Fetches(Run(front)))
  }

  /** Refetches triggered by the rule. */
  function Refetched(hs: seq<Happening>): nat {
    if hs == [] then 0
    else
      var front, h := hs[..|hs| - 1], hs[|hs| - 1];
      Refetched(front) + Bit(h.Commit? && Refetches(Run(front)))
  }

  function Actions(hs: seq<Happening>): nat {
    if hs == [] then 0 else Actions(hs[..|hs| - 1]) + Bit(hs[|hs| - 1].Select? || hs[|hs| - 1].Renew?)
  }

  /** The last trip id a poll reported, through gaps where it reported none. */
  function LastKnown(hs: seq<Happening>): Option<string> {
    if hs == [] then None
    else
      var r := Reported(Run(hs));
      if r.Some? then r else LastKnown(hs[..|hs| - 1])
  }

  /** How often the last known id changed, its first appearance included. */
  function Changes(hs: seq<Happening>): nat {
    if hs == [] then 0 else Changes(hs[..|hs| - 1]) + Bit(LastKnown(hs) != LastKnown(hs[..|hs| - 1]))
  }

  /** The rule asks at most once per change of the reported trip, whatever the polls and plans
      answer and however they and the renders interleave: it cannot spin. */
  lemma {:induction false} RefetchesAreBounded(hs: seq<Happening>)
    ensures Refetched(hs) + Bit(LastKnown(hs).Some? && LastKnown(hs) != Run(hs).planTrip) <= Changes(hs)
  {
    if hs != [] {
      var front, h := hs[..|hs| - 1], hs[|hs| - 1];
      RefetchesAreBounded(front);
      assert front == [] || Reported(Run(front)).Some? ==> Reported(Run(front)) == LastKnown(front);
    }
  }

  /** Every plan request is paid for by a user action or a change of the reported trip. */
  lemma {:induction false} RequestsAreBounded(hs: seq<Happening>)
    ensures Requests(hs) + Bit(Run(hs).active.Some? && Run(hs).ranPlan != Some(KeyOf(Run(hs)))) <= Actions(hs) + Refetched(hs)
    ensures Requests(hs) <= Actions(hs) + Changes(hs)
  {
    RefetchesAreBounded(hs);
    if hs != [] {
      RequestsAreBounded(hs[..|hs| - 1]);
    }
  }

  /** The first refetch needs a known report, and any two in a row report different trips. */
  lemma BetweenRefetches(hs: seq<Happening>, more: seq<Happening>)
    requires Refetches(Run(hs)) && Refetches(Run(hs + [Commit] + more))
    requires forall k :: 0 <= k < |more| ==> !(more[k].Commit? && Refetches(Run(hs + [Commit] + more[..k])))
    ensures Reported(Run(hs)) != Reported(Run(hs + [Commit] + more))
  {
    hide *;
    var at := hs + [Commit];
    RefetchSets(hs);
    PlanTripStays(at, more);
    RefetchDiffers(Run(at + more));
  }

  lemma RefetchSets(hs: seq<Happening>)
    requires Refetches(Run(hs))
    ensures Run(hs + [Commit]).planTrip == Reported(Run(hs))
  {
    assert (hs + [Commit])[..|hs|] == hs;
  }

  lemma RefetchDiffers(c: Cells)
    requires Refetches(c)
    ensures Reported(c) != c.planTrip
  {}

  lemma {:induction false} PlanTripStays(at: seq<Happening>, more: seq<Happening>)
    requires forall k :: 0 <= k < |more| ==> !(more[k].Commit? && Refetches(Run(at + more[..k])))
    ensures Run(at + more).planTrip == Run(at).planTrip
  {
    hide Committed, Refetches;
    if more == [] {
      assert at + more == at;
    } else {
      var front := more[..|more| - 1];
      forall k | 0 <= k < |front| ensures !(front[k].Commit? && Refetches(Run(at + front[..k]))) {
        assert front[..k] == more[..k];
      }
      PlanTripStays(at, front);
      assert (at + more)[..|at + more| - 1] == at + front;
      QuietKeepsPlanTrip(Run(at + front), more[|more| - 1]);
    }
  }

  lemma QuietKeepsPlanTrip(c: Cells, h: Happening)
    requires !(h.Commit? && Refetches(c))
    ensures Next(c, h).planTrip == c.planTrip
  {}

  // ---------------------------------------------------------------- what it settles on

  /** Nothing left to render or to wait for. */
  predicate Settled(c: Cells) {
    && c.ranDetail == Some((c.active, c.nonce)) && c.ranPlan == Some(KeyOf(c)) && c.ranTrigger == Some(TriggerOf(c))
    && !c.fetching
  }

  ghost predicate PlanOk(c: Cells) {
    && (c.plan.Some? ==> c.ranPlan == Some(c.plan.value.answers))
    && (c.fetching ==> c.ranPlan.Some?)
    && (c.ranTrigger.Some? ==> var t := c.ranTrigger.value;
          t.reported.Some? && t.plan.Some? && t.plan.value.tripId != t.reported ==> t.reported == t.planTrip || c.planTrip == t.reported)
  }

  lemma {:induction false} AlwaysPlanOk(hs: seq<Happening>)
    ensures PlanOk(Run(hs))
  {
    if hs != [] {
      AlwaysPlanOk(hs[..|hs| - 1]);
    }
  }

  /** Once settled, a loaded plan answers the current vehicle's latest request; and if it is still
      for another trip than the poll reports, that request was already made for the reported trip. */
  lemma SettledPlanWasAskedFor(hs: seq<Happening>)
    requires Settled(Run(hs)) && Run(hs).plan.Some?
    ensures var c := Run(hs);
      && c.plan.value.answers == KeyOf(c)
      && (Reported(c).Some? && c.plan.value.tripId != Reported(c) ==> c.plan.value.answers.planTrip == Reported(c))
  {
    AlwaysPlanOk(hs);
  }

  /** Switching to another vehicle, once rendered, shows nothing of the last one: detail and plan are
      cleared, and the new vehicle's, if there is one, are asked for. */
  lemma SwitchingClears(hs: seq<Happening>, id: Option<string>)
    requires Settled(Run(hs)) && id != Run(hs).active
    ensures var c := Run(hs + [Select(id), Commit]);
      c.active == id && c.detail.None? && c.plan.None? && (c.fetching <==> id.Some?) && (c.polling <==> id.Some?)
  {
    var selected := hs + [Select(id)];
    assert hs + [Select(id), Commit] == selected + [Commit];
    assert (selected + [Commit])[..|selected|] == selected && selected[..|hs|] == hs;
    assert Run(selected) == Next(Run(hs), Select(id));
    assert Run(selected + [Commit]) == Committed(Run(selected));
  }

  /** A poll that reports no trip, or an empty one, never triggers a refetch. */
  lemma NoReportNoRefetch(c: Cells)
    requires c.detail.None? || c.detail.value.tripId.None? || c.detail.value.tripId == Some("")
    ensures !Refetches(c) && Committed(c).planTrip == c.planTrip
  {}

  // ---------------------------------------------------------------- the component

  class MapScreen {
    var active: Option<string>
    var nonce: nat
    var planTrip: Option<string>
    var plan: Option<Plan>
    var detail: Option<Detail>
    var ranDetail: Option<(Option<string>, nat)>
    var ranPlan: Option<PlanKey>
    var ranTrigger: Option<TriggerKey>
    var fetching: bool
    var polling: bool

    function Value(): Cells
      reads this
    {
      Cells(active, nonce, planTrip, plan, detail, ranDetail, ranPlan, ranTrigger, fetching, polling)
    }

    constructor ()
      ensures Value() == START
    {
      active, nonce, planTrip, plan, detail := None, 0, None, None, None;
      ranDetail, ranPlan, ranTrigger, fetching, polling := None, None, None, false, false;
    }

    method DetailEffect(seen: Cells)
      modifies this
      ensures Value() == AfterDetailEffect(old(Value()), seen)
    {
      if seen.ranDetail != Some((seen.active, seen.nonce)) {
        detail := None;
        polling := seen.active.Some?;
        ranDetail := Some((seen.active, seen.nonce));
      }
    }

    method PlanEffect(seen: Cells) returns (ask: Option<string>)
      modifies this
      ensures Value() == AfterPlanEffect(old(Value()), seen)
      ensures ask.Some? <==> Fetches(seen)
    {
      ask := None;
      if seen.ranPlan != Some(KeyOf(seen)) {
        plan := None;
        fetching := seen.active.Some?;
        ranPlan := Some(KeyOf(seen));
        ask := seen.active;
      }
    }

    method TriggerEffect(seen: Cells)
      modifies this
      ensures Value() == AfterTriggerEffect(old(Value()), seen)
    {
      if seen.ranTrigger != Some(TriggerOf(seen)) {
        if Triggers(seen) {
          planTrip := Reported(seen);
        }
        ranTrigger := Some(TriggerOf(seen));
      }
    }

    /** The effects of one render; returns the vehicle whose plan is asked for, if any. */
    method Commit() returns (ask: Option<string>)
      modifies this
      ensures Value() == Committed(old(Value()))
      ensures ask.Some? <==> Fetches(old(Value()))
    {
      var seen := Value();
      DetailEffect(seen);
      ask := PlanEffect(seen);
      TriggerEffect(seen);
    }
  }
}
