/** What a client may be behind on: exactly when each field it shows is current. */
module Currency {
  import opened Collections
  import opened VehicleIndexes
  import opened StreamServer
  import opened VehicleStores
  import opened LiveClients
  import opened Replication
  import opened Convergence

  /** The tick re-sends the vehicle. */
  predicate Resent(tick: Tick, id: string)
    requires id in tick.idx && tick.idx[id].motion.HasPosition()
  {
    id in tick.sub.sent && Changed(tick.sub.sent[id], SentOf(tick.idx[id]))
  }

  /** A delivered frame leaves each vehicle it shows in one of three ways. */
  lemma DeliveryLeaves(s: System, c: SockId, id: string)
    requires Reachable(s) && Enabled(s, SocketDelivers(c)) && s.conns[c].down[0].Frame?
    requires id in Visible(s.conns[c].down[0].tick.idx, s.conns[c].down[0].tick.sub)
    ensures var d := s.conns[c].down[0]; var t := d.tick.idx[id];
      && t.motion.HasPosition() && id in After(s, SocketDelivers(c)).vehicles
      && (id in d.tick.sub.sent ==> !d.tick.sub.forceSnapshot && id in s.vehicles)
      && After(s, SocketDelivers(c)).vehicles[id] ==
           if id !in d.tick.sub.sent then ToState(t)
           else if Resent(d.tick, id) then MovedBy(s.vehicles[id], ToMove(t))
           else s.vehicles[id]
  {
    ReachableKeepsInv(s);
    var d := s.conns[c].down[0];
    assert Following(s.vehicles, s.conns[c]) && Framed(d);
    FrameValues(s.vehicles, d.tick.idx, d.tick.sub, d.update, id);
    hide Changed, FrameFor, Visible, Replayed, Fits;
  }

  // ---------------------------------------------------------------- after a delivered frame

  /** Whether a delay is known is current after a frame, in every run, exactly when the frame enters
      the vehicle, re-sends it, or it was current already. */
  lemma DelayKnownAfterFrame(s: System, c: SockId, id: string)
    requires Reachable(s) && Enabled(s, SocketDelivers(c)) && s.conns[c].down[0].Frame?
    requires id in Visible(s.conns[c].down[0].tick.idx, s.conns[c].down[0].tick.sub)
    ensures var d := s.conns[c].down[0]; var t := d.tick.idx[id];
      && id in After(s, SocketDelivers(c)).vehicles && t.motion.HasPosition()
      && (id in d.tick.sub.sent ==> id in s.vehicles)
      && (After(s, SocketDelivers(c)).vehicles[id].delayKnown == t.status.delayKnown <==>
            id !in d.tick.sub.sent || Resent(d.tick, id) || s.vehicles[id].delayKnown == t.status.delayKnown)
  {
    DeliveryLeaves(s, c, id);
    hide Reachable, Visible, Resent;
  }

  /** Bearing, current stop, the anchoring flag and everything the schedule adds are current exactly
      when the frame enters the vehicle or they were current already: no re-send renews them. */
  lemma EnteredFieldsAfterFrame(s: System, c: SockId, id: string)
    requires Reachable(s) && Enabled(s, SocketDelivers(c)) && s.conns[c].down[0].Frame?
    requires id in Visible(s.conns[c].down[0].tick.idx, s.conns[c].down[0].tick.sub)
    ensures var d := s.conns[c].down[0]; var t := d.tick.idx[id];
      && id in After(s, SocketDelivers(c)).vehicles && t.motion.HasPosition()
      && (id in d.tick.sub.sent ==> id in s.vehicles)
      && var now, shown, entered := ToState(t), After(s, SocketDelivers(c)).vehicles[id], id !in d.tick.sub.sent;
         && (shown.bearing == now.bearing <==> entered || s.vehicles[id].bearing == now.bearing)
         && (shown.currentStopId == now.currentStopId <==> entered || s.vehicles[id].currentStopId == now.currentStopId)
         && (shown.schedulePositioned == now.schedulePositioned <==> entered || s.vehicles[id].schedulePositioned == now.schedulePositioned)
         && (shown.info == now.info <==> entered || s.vehicles[id].info == now.info)
  {
    DeliveryLeaves(s, c, id);
    hide Reachable, Visible, Resent;
  }

  /** What the comparison covers is exact after a re-send: position, delay, at-stop and speed are the
      indexed trip's when the frame enters or re-sends the vehicle, and otherwise what was shown. */
  lemma RecordedFieldsAfter(s: System, c: SockId, id: string)
    requires Reachable(s) && Enabled(s, SocketDelivers(c)) && s.conns[c].down[0].Frame?
    requires id in Visible(s.conns[c].down[0].tick.idx, s.conns[c].down[0].tick.sub)
    ensures var d := s.conns[c].down[0]; var t := d.tick.idx[id];
      && id in After(s, SocketDelivers(c)).vehicles && t.motion.HasPosition()
      && (id in d.tick.sub.sent ==> id in s.vehicles)
      && Shown(After(s, SocketDelivers(c)).vehicles[id]) ==
           if id !in d.tick.sub.sent || Resent(d.tick, id) then SentOf(t) else Shown(s.vehicles[id])
  {
    DeliveryLeaves(s, c, id);
    hide Reachable, Visible, Resent;
  }

  // ---------------------------------------------------------------- after a tick

  // What the client shows once everything in flight to it has arrived.
  lemma {:induction false} DeliverAllReplays(s: System, c: SockId)
    requires IsOpen(s, c) && c in s.conns
    ensures DeliverAll(s, c).vehicles == ReplayAll(s.vehicles, s.conns[c].down)
    decreases |s.conns[c].down|
  {
    hide Replayed;
    if s.conns[c].down != [] {
      DeliverAllReplays(After(s, SocketDelivers(c)), c);
    }
  }

  /** Any tick, the silent ones included, leaves each vehicle it makes visible in one of three ways:
      entered, patched, or as the client would have shown it without the tick. */
  lemma TickLeaves(s: System, c: SockId, frame: Option<Update>, id: string)
    requires Reachable(s) && IsOpen(s, c) && Enabled(s, ServerTicks(c, frame))
    requires id in Visible(s.index, s.conns[c].sub.value)
    ensures var sub, t, before := s.conns[c].sub.value, s.index[id], DeliverAll(s, c).vehicles;
      var r := After(s, ServerTicks(c, frame));
      && t.motion.HasPosition() && IsOpen(r, c) && c in r.conns
      && (id in sub.sent ==> id in before)
      && var shown := DeliverAll(r, c).vehicles;
         && id in shown
         && shown[id] == if id !in sub.sent then ToState(t)
                         else if Resent(Tick(s.index, sub), id) then MovedBy(before[id], ToMove(t))
                         else before[id]
  {
    ReachableKeepsInv(s);
    var conn := s.conns[c];
    assert Following(s.vehicles, conn) && Served(conn);
    DeliverAllReplays(s, c);
    hide Inv, Reachable;
    TickReplays(s, c, frame);
    hide ReplicaOk, ServerOk, Following, AllFit, After, Enabled, DeliverAll;
    TickOnReplica(ReplayAll(s.vehicles, conn.down), s.index, conn.sub.value, frame, id);
  }

  // A tick adds its frame to what is to be replayed.
  lemma TickReplays(s: System, c: SockId, frame: Option<Update>)
    requires IsOpen(s, c) && Enabled(s, ServerTicks(c, frame))
    ensures var r := After(s, ServerTicks(c, frame));
      && IsOpen(r, c) && c in r.conns
      && var before := ReplayAll(s.vehicles, s.conns[c].down);
         DeliverAll(r, c).vehicles == if frame.Some? then Replayed(before, frame.value) else before
  {
    var r := After(s, ServerTicks(c, frame));
    DeliverAllReplays(r, c);
    if frame.Some? {
      ReplayAppend(s.vehicles, s.conns[c].down, Frame(frame.value, Tick(s.index, s.conns[c].sub.value)));
    }
    hide Replayed, Visible, FrameFor, Quiet, Ticked;
  }

  lemma TickOnReplica(vs: Vehicles, idx: Index, sub: Sub, frame: Option<Update>, id: string)
    requires IndexOk(idx) && id in Visible(idx, sub)
    requires if sub.forceSnapshot then sub.sent == map[] else Mirrors(vs, sub.sent)
    requires frame.None? <==> Quiet(idx, sub)
    requires frame.Some? ==> FrameFor(idx, sub, frame.value)
    ensures id in sub.sent ==> id in vs
    ensures var shown := if frame.Some? then Replayed(vs, frame.value) else vs;
      && id in shown
      && shown[id] == if id !in sub.sent then ToState(idx[id])
                      else if Resent(Tick(idx, sub), id) then MovedBy(vs[id], ToMove(idx[id]))
                      else vs[id]
  {
    hide Changed, Replayed;
    if frame.Some? {
      FrameValues(vs, idx, sub, frame.value, id);
    } else {
      assert id !in Entering(idx, sub) && id !in ChangedAmong(idx, sub, Visible(idx, sub));
    }
    hide Visible, FrameFor;
  }

  /** After any tick of any run, silent or not, once everything in flight has arrived: whether a
      visible vehicle's delay is known is shown as the index has it exactly when the tick entered the
      vehicle, re-sent it, or the client would have shown it so anyway. */
  lemma DelayKnownIsCurrentIff(s: System, c: SockId, frame: Option<Update>, id: string)
    requires Reachable(s) && IsOpen(s, c) && Enabled(s, ServerTicks(c, frame))
    requires id in Visible(s.index, s.conns[c].sub.value)
    ensures var sub, t, before := s.conns[c].sub.value, s.index[id], DeliverAll(s, c).vehicles;
      var r := After(s, ServerTicks(c, frame));
      && t.motion.HasPosition() && IsOpen(r, c) && c in r.conns && id in DeliverAll(r, c).vehicles && (id in sub.sent ==> id in before)
      && (DeliverAll(r, c).vehicles[id].delayKnown == t.status.delayKnown <==>
            id !in sub.sent || Resent(Tick(s.index, sub), id) || before[id].delayKnown == t.status.delayKnown)
  {
    TickLeaves(s, c, frame, id);
    hide Reachable, Visible, Resent, DeliverAll;
  }

  /** Likewise bearing, current stop, the anchoring flag and everything the schedule adds, except that
      no re-send renews them. */
  lemma EnteredFieldsAreCurrentIff(s: System, c: SockId, frame: Option<Update>, id: string)
    requires Reachable(s) && IsOpen(s, c) && Enabled(s, ServerTicks(c, frame))
    requires id in Visible(s.index, s.conns[c].sub.value)
    ensures var sub, t, before := s.conns[c].sub.value, s.index[id], DeliverAll(s, c).vehicles;
      var r := After(s, ServerTicks(c, frame));
      && t.motion.HasPosition() && IsOpen(r, c) && c in r.conns && id in DeliverAll(r, c).vehicles && (id in sub.sent ==> id in before)
      && var now, shown, entered := ToState(t), DeliverAll(r, c).vehicles[id], id !in sub.sent;
         && (shown.bearing == now.bearing <==> entered || before[id].bearing == now.bearing)
         && (shown.currentStopId == now.currentStopId <==> entered || before[id].currentStopId == now.currentStopId)
         && (shown.schedulePositioned == now.schedulePositioned <==> entered || before[id].schedulePositioned == now.schedulePositioned)
         && (shown.info == now.info <==> entered || before[id].info == now.info)
  {
    TickLeaves(s, c, frame, id);
    hide Reachable, Visible, Resent, DeliverAll;
  }

  // ---------------------------------------------------------------- what may go stale

  /** Differences in anything a record does not hold are never worth a frame: between ticks that
      differ only there, an unchanged subscription stays quiet. */
  lemma UnrecordedChangesAreSilent(idx: Index, next: Index, sub: Sub)
    requires IndexOk(idx) && IndexOk(next) && !sub.forceSnapshot
    requires next.Keys == idx.Keys
    requires forall id :: id in idx ==> SentOf(next[id]) == SentOf(idx[id])
    requires Visible(next, sub) == Visible(idx, sub)
    ensures Quiet(next, Ticked(idx, sub))
  {
    var after := Ticked(idx, sub);
    TickRecords(idx, sub);
    assert Visible(next, after) == Visible(next, sub);
    hide Changed;
    hide Hits;
    assert forall id :: id in after.sent ==> !Changed(after.sent[id], SentOf(next[id]));
  }

  // ---------------------------------------------------------------- between two entries

  /** What a MOVE never assigns. */
  predicate SameEntry(a: Vehicle, b: Vehicle) {
    && a.info == b.info && a.bearing == b.bearing && a.currentStopId == b.currentStopId
    && a.schedulePositioned == b.schedulePositioned
  }

  /** The step delivers a frame that enters the vehicle. */
  predicate Enters(s: System, step: Step, id: string) {
    && step.SocketDelivers? && step.c in s.conns && s.conns[step.c].down != [] && s.conns[step.c].down[0].Frame?
    && exists v :: v in s.conns[step.c].down[0].update.entered && v.id == id
  }

  /** In every run, from one entry of a vehicle to the next, as long as it stays on the map: its
      bearing, current stop, anchoring flag and schedule data stay as they were entered. */
  lemma {:induction false} MovesKeepEntered(states: seq<System>, steps: seq<Step>, i: nat, j: nat, id: string)
    requires Behavior(states, steps) && i <= j < |states|
    requires forall k :: i <= k <= j ==> id in states[k].vehicles
    requires forall k :: i <= k < j ==> !Enters(states[k], steps[k], id)
    ensures SameEntry(states[i].vehicles[id], states[j].vehicles[id])
  {
    hide Initial, Enabled, After, Enters;
    if i < j {
      MovesKeepEntered(states, steps, i, j - 1, id);
      assert Enabled(states[j - 1], steps[j - 1]) && states[j] == After(states[j - 1], steps[j - 1]);
      StepKeepsEntered(states[j - 1], steps[j - 1], id);
    }
  }

  lemma StepKeepsEntered(s: System, step: Step, id: string)
    requires Enabled(s, step) && !Enters(s, step, id)
    requires id in s.vehicles && id in After(s, step).vehicles
    ensures SameEntry(s.vehicles[id], After(s, step).vehicles[id])
  {
    if step.SocketDelivers? && s.conns[step.c].down[0].Frame? {
      FrameKeepsEntered(s.vehicles, s.conns[step.c].down[0].update, id);
    } else {
      OthersKeepVehicles(s, step);
    }
    hide Replayed, AfterServer, AfterClient;
  }

  lemma OthersKeepVehicles(s: System, step: Step)
    requires Enabled(s, step) && !(step.SocketDelivers? && s.conns[step.c].down[0].Frame?)
    ensures After(s, step).vehicles == s.vehicles
  {
    hide AfterServer, AfterSocket, AfterClient, ServerMay, SocketMay, ClientMay;
    if step.AtServer() {
      ServerKeepsVehicles(s, step);
    } else if step.AtSocket() {
      SocketKeepsVehicles(s, step);
    } else {
      ClientKeepsVehicles(s, step);
    }
  }

  lemma ServerKeepsVehicles(s: System, step: Step)
    requires ServerMay(s, step)
    ensures AfterServer(s, step).vehicles == s.vehicles
  {}

  lemma SocketKeepsVehicles(s: System, step: Step)
    requires SocketMay(s, step) && !(step.SocketDelivers? && s.conns[step.c].down[0].Frame?)
    ensures AfterSocket(s, step).vehicles == s.vehicles
  {
    hide Replayed, WithSent;
  }

  lemma ClientKeepsVehicles(s: System, step: Step)
    requires ClientMay(s, step)
    ensures AfterClient(s, step).vehicles == s.vehicles
  {
    hide WithSent, WithSocket;
  }

  lemma FrameKeepsEntered(vs: Vehicles, u: Update, id: string)
    requires id in vs && id in Replayed(vs, u) && forall v :: v in u.entered ==> v.id != id
    ensures SameEntry(vs[id], Replayed(vs, u)[id])
  {
    var start := if u.isSnapshot then map[] else vs;
    EnteringElsewhere(start, u.entered, id);
    MovingKeeps(SetAll(start, u.entered), u.moved, id);
  }

  lemma {:induction false} EnteringElsewhere(vs: Vehicles, entered: seq<Vehicle>, id: string)
    requires forall v :: v in entered ==> v.id != id
    ensures id in SetAll(vs, entered) <==> id in vs
    ensures id in vs ==> SetAll(vs, entered)[id] == vs[id]
  {
    if entered != [] {
      EnteringElsewhere(vs, entered[..|entered| - 1], id);
    }
  }

  lemma {:induction false} MovingKeeps(vs: Vehicles, moved: seq<Move>, id: string)
    ensures id in MoveAll(vs, moved) <==> id in vs
    ensures id in vs ==> SameEntry(vs[id], MoveAll(vs, moved)[id])
  {
    if moved != [] {
      MovingKeeps(vs, moved[..|moved| - 1], id);
    }
  }
}
