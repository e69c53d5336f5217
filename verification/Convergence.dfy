/** What every run of the live protocol guarantees, read off the inductive invariant. */
module Convergence {
  import opened Collections
  import opened Domain
  import opened LiveState
  import opened VehicleIndexes
  import opened StreamServer
  import opened VehicleStores
  import opened LiveClients
  import opened Replication

  /** A finite run: any interleaving of enabled steps from an initial state. */
  ghost predicate Behavior(states: seq<System>, steps: seq<Step>) {
    && |states| == |steps| + 1 && Initial(states[0])
    && forall i :: 0 <= i < |steps| ==> Enabled(states[i], steps[i]) && states[i + 1] == After(states[i], steps[i])
  }

  ghost predicate Reachable(s: System) {
    exists states, steps :: Behavior(states, steps) && states[|steps|] == s
  }

  lemma {:induction false} RunsKeepInv(states: seq<System>, steps: seq<Step>, i: nat)
    requires Behavior(states, steps) && i < |states|
    ensures Inv(states[i])
  {
    hide Inv;
    hide Enabled;
    hide After;
    if i == 0 {
      StartsGood(states[0]);
    } else {
      RunsKeepInv(states, steps, i - 1);
      Inductive(states[i - 1], steps[i - 1]);
    }
  }

  lemma ReachableKeepsInv(s: System)
    requires Reachable(s)
    ensures Inv(s)
  {
    hide Inv;
    var states, steps :| Behavior(states, steps) && states[|steps|] == s;
    RunsKeepInv(states, steps, |steps|);
  }

  // ---------------------------------------------------------------- one connection

  ghost predicate Live(s: System, c: SockId) {
    c in s.socks && (s.socks[c] == SockConnecting || s.socks[c] == SockOpen)
  }

  /** In every reachable state: at most one socket is connecting or open, and it is the current
      one; none beside a pending retry; none while suspended; an existing socket is live, closing,
      or about to be retried; and the backoff stays within its bounds. */
  lemma OneLiveSocket(s: System)
    requires Reachable(s)
    ensures forall c: SockId, d: SockId :: Live(s, c) && Live(s, d) ==> c == d && s.client.ws == Some(c)
    ensures s.client.retryPending || s.client.closedByUser ==> forall c: SockId :: !Live(s, c)
    ensures s.client.closedByUser ==> !s.client.retryPending
    ensures s.client.ws.Some? ==> s.client.ws.value in s.socks && (s.socks[s.client.ws.value] == SockClosed ==> s.client.retryPending)
    ensures 500 <= s.client.retry <= 30_000
  {
    ReachableKeepsInv(s);
    hide InSync;
    hide ServerOk;
    hide ReplicaOk;
  }

  /** Calling `connect` again is safe exactly when there is no current socket or it is already
      closing: otherwise two sockets end up live, or a retry is left pending beside one. */
  lemma ConnectAgain(s: System, view: View, c: SockId)
    requires Reachable(s) && c !in s.socks
    ensures s.client.ws.Some? ==> s.client.ws.value in s.socks
    ensures OneConnection(WithSocket(s, c, Connecting(s.client, view, c)))
        <==> s.client.ws.None? || s.socks[s.client.ws.value] == SockClosing
  {
    ReachableKeepsInv(s);
    hide InSync;
    hide ServerOk;
    hide ReplicaOk;
    var t := WithSocket(s, c, Connecting(s.client, view, c));
    if s.client.ws.Some? {
      var k := s.client.ws.value;
      assert t.socks[k] == s.socks[k];
    }
    assert t.client.ws == Some(c) && t.socks[c] == SockConnecting;
  }

  /** Once the open connection has read everything sent to it, the server's box, filters and pins
      are the client's latest. */
  lemma SubscriptionInSync(s: System, c: SockId)
    requires Reachable(s) && IsOpen(s, c)
    ensures c in s.conns && (s.conns[c].up == [] ==> Agrees(s.conns[c].sub, s.client))
  {
    ReachableKeepsInv(s);
    hide ServerOk;
    hide ReplicaOk;
    hide Agrees;
  }

  // ---------------------------------------------------------------- convergence

  /** What the client shows for a trip is current up to the re-send threshold. */
  ghost predicate Near(v: Vehicle, t: LiveTrip)
    requires t.motion.HasPosition()
  {
    && v.id == t.id
    && AbsReal(v.lat - t.motion.lat.v) <= JITTER && AbsReal(v.lon - t.motion.lon.v) <= JITTER
    && v.delay == t.status.delaySeconds && v.atStop == t.status.atStop
    && RoundedSpeed(v.speedKmh) == RoundedSpeed(t.status.speedKmh)
  }

  /** The replica holds exactly the vehicles a tick made visible, each near its indexed trip. */
  ghost predicate Shows(vs: Vehicles, tick: Tick) {
    && IndexOk(tick.idx) && vs.Keys == Visible(tick.idx, tick.sub)
    && forall id :: id in vs ==> Near(vs[id], tick.idx[id])
  }

  lemma MirrorShows(vs: Vehicles, sent: map<string, Sent>, tick: Tick)
    requires Mirrors(vs, sent) && RecordOf(sent, tick)
    ensures Shows(vs, tick)
  {
    hide Visible;
    hide RoundedSpeed;
    forall id | id in vs ensures Near(vs[id], tick.idx[id]) {
      var now := SentOf(tick.idx[id]);
      assert !Changed(sent[id], now) && Shown(vs[id]) == sent[id];
    }
  }

  /** Replica convergence, over every run: with a snapshot answered and every frame delivered, the
      client's vehicle ids are the server's record, which is what the last tick made visible; and
      however many small moves there were, each vehicle is within the threshold of its indexed
      trip, because changes are measured against what was last sent. */
  lemma ReplicaConverges(s: System, c: SockId)
    requires Reachable(s) && IsOpen(s, c) && c in s.conns
    requires s.conns[c].sub.Some? && !s.conns[c].sub.value.forceSnapshot && s.conns[c].down == []
    ensures s.vehicles.Keys == s.conns[c].sub.value.sent.Keys
    ensures s.conns[c].last.Some? && Shows(s.vehicles, s.conns[c].last.value)
  {
    ReachableKeepsInv(s);
    var conn := s.conns[c];
    assert Following(s.vehicles, conn) && Served(conn);
    hide RecordOf;
    hide Shows;
    MirrorShows(s.vehicles, conn.sub.value.sent, conn.last.value);
  }

  /** Frames are well shaped in every run: each list is free of duplicates, the three are pairwise
      disjoint, a snapshot moves and removes nothing, and anything else enters only vehicles the
      client lacks and moves or removes only vehicles it has. */
  lemma DeliveriesFit(s: System, c: SockId)
    requires Reachable(s) && Enabled(s, SocketDelivers(c)) && s.conns[c].down[0].Frame?
    ensures var u := s.conns[c].down[0].update;
      && Fits(s.vehicles, u)
      && (forall i, j :: 0 <= i < j < |u.entered| ==> u.entered[i].id != u.entered[j].id)
      && (forall i, j :: 0 <= i < j < |u.moved| ==> u.moved[i].id != u.moved[j].id)
      && NoDup(u.left)
      && (forall v, m :: v in u.entered && m in u.moved ==> v.id != m.id)
      && (forall v :: v in u.entered ==> v.id !in u.left)
      && (forall m :: m in u.moved ==> m.id !in u.left)
  {
    ReachableKeepsInv(s);
    var d := s.conns[c].down[0];
    assert Following(s.vehicles, s.conns[c]) && Framed(d);
    hide Fits;
    hide Changed;
    hide Visible;
    assert forall id :: id in d.update.left ==> id in Range(d.update.left);
  }

  // ---------------------------------------------------------------- catching up

  /** The server reads everything in flight to it on `c`. */
  ghost function DrainUp(s: System, c: SockId): System
    requires c in s.conns && s.conns[c].alive
    decreases |s.conns[c].up|
  {
    if s.conns[c].up == [] then s else DrainUp(After(s, ServerReceives(c)), c)
  }

  /** The client applies everything in flight to it on `c`. */
  ghost function DeliverAll(s: System, c: SockId): System
    requires IsOpen(s, c) && c in s.conns
    decreases |s.conns[c].down|
  {
    if s.conns[c].down == [] then s else DeliverAll(After(s, SocketDelivers(c)), c)
  }

  lemma {:induction false} DrainUpKeeps(s: System, c: SockId)
    requires Inv(s) && c in s.conns && s.conns[c].alive
    ensures var t := DrainUp(s, c);
      && Inv(t) && c in t.conns && t.conns[c].up == [] && t.conns[c].alive
      && t.index == s.index && t.client == s.client && t.socks == s.socks && t.vehicles == s.vehicles
    decreases |s.conns[c].up|
  {
    hide Inv;
    if s.conns[c].up != [] {
      Inductive(s, ServerReceives(c));
      DrainUpKeeps(After(s, ServerReceives(c)), c);
    }
  }

  lemma {:induction false} DeliverAllKeeps(s: System, c: SockId)
    requires Inv(s) && IsOpen(s, c) && c in s.conns
    ensures var t := DeliverAll(s, c);
      && Inv(t) && IsOpen(t, c) && c in t.conns && t.conns[c].down == []
      && t.conns[c].sub == s.conns[c].sub && t.conns[c].last == s.conns[c].last
    decreases |s.conns[c].down|
  {
    hide Inv;
    if s.conns[c].down != [] {
      Inductive(s, SocketDelivers(c));
      DeliverAllKeeps(After(s, SocketDelivers(c)), c);
    }
  }

  /** From any reachable state with an open connection, one round trip catches the client up:
      once the server has read what was sent and ticked once, and the client has applied what was
      sent back, the map shows exactly the indexed vehicles in the client's latest viewport and
      filters together with its pinned ones, whatever happened before. */
  lemma OneTickCatchesUp(s: System, c: SockId, frame: Option<Update>)
    requires Reachable(s) && IsOpen(s, c) && c in s.conns && s.conns[c].alive
    requires Enabled(DrainUp(s, c), ServerTicks(c, frame))
    ensures var r := DrainUp(s, c); var t := After(r, ServerTicks(c, frame));
      && IsOpen(t, c) && c in t.conns && s.client.view.Some?
      && var view := s.client.view.value;
         var shown := DeliverAll(t, c).vehicles;
         && IndexOk(s.index)
         && shown.Keys == Hits(s.index, view.bbox, view.filters) + (set id | id in s.client.pinned && id in s.index)
         && forall id :: id in shown ==> Near(shown[id], s.index[id])
  {
    ReachableKeepsInv(s);
    DrainUpKeeps(s, c);
    var r := DrainUp(s, c);
    assert Agrees(r.conns[c].sub, r.client);
    Inductive(r, ServerTicks(c, frame));
    var t := After(r, ServerTicks(c, frame));
    DeliverAllKeeps(t, c);
    CaughtUp(DeliverAll(t, c), c, Tick(r.index, r.conns[c].sub.value));
    hide Near;
    hide Inv;
  }

  /** A tick is never blocked: whatever the index and the subscription, some frame, or none, is owed. */
  lemma TickIsNeverBlocked(s: System, c: SockId) returns (frame: Option<Update>)
    requires c in s.conns && s.conns[c].alive && s.conns[c].sub.Some? && IndexOk(s.index)
    ensures Enabled(s, ServerTicks(c, frame))
  {
    var idx, sub := s.index, s.conns[c].sub.value;
    hide Quiet;
    if Quiet(idx, sub) {
      frame := None;
    } else {
      var entered := StatesExist(idx, Entering(idx, sub));
      var moved := MovesExist(idx, ChangedAmong(idx, sub, Visible(idx, sub)));
      var left := ListOf(Leaving(idx, sub));
      frame := Some(Update(entered, moved, left, sub.forceSnapshot));
    }
  }

  lemma {:induction false} StatesExist(idx: Index, ids: set<string>) returns (vs: seq<Vehicle>)
    requires IndexOk(idx) && ids <= idx.Keys
    ensures StatesEach(vs, ids, idx)
  {
    vs := [];
    if ids != {} {
      var id :| id in ids;
      vs := StatesExist(idx, ids - {id});
      AddState(idx, vs, ids - {id}, id);
      vs := vs + [ToState(idx[id])];
      assert ids - {id} + {id} == ids;
    }
  }

  lemma {:induction false} MovesExist(idx: Index, ids: set<string>) returns (ms: seq<Move>)
    requires IndexOk(idx) && ids <= idx.Keys
    ensures MovesEach(ms, ids, idx)
  {
    ms := [];
    if ids != {} {
      var id :| id in ids;
      ms := MovesExist(idx, ids - {id});
      AddMove(idx, ms, ids - {id}, id);
      ms := ms + [ToMove(idx[id])];
      assert ids - {id} + {id} == ids;
    }
  }

  lemma {:induction false} ListOf<T>(all: set<T>) returns (s: seq<T>)
    ensures NoDup(s) && Range(s) == all
  {
    s := [];
    if all != {} {
      var x :| x in all;
      s := ListOf(all - {x});
      assert Range([x]) == {x};
      NoDupAppend(s, [x]);
      RangeAppend(s, [x]);
      s := s + [x];
    }
  }

  /** So catching up is always possible: from any reachable state with an open connection, once the
      server has read what was sent, some tick is enabled. */
  lemma CatchingUpIsPossible(s: System, c: SockId) returns (frame: Option<Update>)
    requires Reachable(s) && IsOpen(s, c) && c in s.conns && s.conns[c].alive
    ensures Enabled(DrainUp(s, c), ServerTicks(c, frame))
  {
    ReachableKeepsInv(s);
    DrainUpKeeps(s, c);
    var r := DrainUp(s, c);
    assert Agrees(r.conns[c].sub, r.client);
    assert IndexOk(r.index);
    hide Inv;
    frame := TickIsNeverBlocked(r, c);
  }

  lemma CaughtUp(s: System, c: SockId, tick: Tick)
    requires Inv(s) && IsOpen(s, c) && c in s.conns && s.conns[c].down == []
    requires s.conns[c].sub.Some? && !s.conns[c].sub.value.forceSnapshot && s.conns[c].last == Some(tick)
    ensures Shows(s.vehicles, tick)
  {
    var conn := s.conns[c];
    assert Following(s.vehicles, conn) && Served(conn);
    hide RecordOf;
    hide Shows;
    MirrorShows(s.vehicles, conn.sub.value.sent, tick);
  }

  // ---------------------------------------------------------------- ended means ended

  /** Exactly which selected vehicles a delivered frame reports gone, and each only once. */
  lemma GoneExactly(vs: Vehicles, u: Update, selected: seq<string>)
    requires Fits(vs, u) && NoDup(u.left)
    ensures forall id :: id in Gone(vs, u, selected) <==>
        id in selected && id !in Replayed(vs, u) && (u.isSnapshot || id in vs)
    ensures NoDup(selected) ==> NoDup(Gone(vs, u, selected))
  {
    var start := if u.isSnapshot then map[] else vs;
    FilterNoDup(u.left, (id: string) => id in selected);
    if NoDup(selected) {
      FilterNoDup(selected, (id: string) => id !in Replayed(vs, u));
    }
    if !u.isSnapshot {
      LeavesOnlyLeft(vs, u);
    }
  }

  lemma {:induction false} SetAllKeeps(vs: Vehicles, entered: seq<Vehicle>)
    ensures vs.Keys <= SetAll(vs, entered).Keys
  {
    if entered != [] {
      SetAllKeeps(vs, entered[..|entered| - 1]);
    }
  }

  lemma {:induction false} MoveAllKeeps(vs: Vehicles, moved: seq<Move>)
    ensures vs.Keys == MoveAll(vs, moved).Keys
  {
    if moved != [] {
      MoveAllKeeps(vs, moved[..|moved| - 1]);
    }
  }

  lemma LeavesOnlyLeft(vs: Vehicles, u: Update)
    requires !u.isSnapshot
    ensures forall id :: id in vs ==> (id in Replayed(vs, u) <==> id !in u.left)
  {
    SetAllKeeps(vs, u.entered);
    MoveAllKeeps(SetAll(vs, u.entered), u.moved);
    hide MoveAll;
    hide SetAll;
  }

  /** Ended means ended, in every run: if the selection was pinned in the subscription that
      produced a frame, a selected vehicle is reported gone on delivering it only if the published
      index no longer has it; and every selected vehicle the frame takes off the map, or that a
      snapshot lacks, is reported. */
  lemma EndedMeansEnded(s: System, c: SockId)
    requires Reachable(s) && Enabled(s, SocketDelivers(c)) && s.conns[c].down[0].Frame?
    requires forall id :: id in s.selected ==> id in s.conns[c].down[0].tick.sub.pinned
    ensures var d := s.conns[c].down[0]; var gone := Gone(s.vehicles, d.update, s.selected);
      && (forall id :: id in gone ==> id !in d.tick.idx)
      && (forall id :: id in s.selected && id !in After(s, SocketDelivers(c)).vehicles && (d.update.isSnapshot || id in s.vehicles)
            ==> id in gone)
  {
    ReachableKeepsInv(s);
    var d := s.conns[c].down[0];
    assert Following(s.vehicles, s.conns[c]) && Framed(d);
    GoneExactly(s.vehicles, d.update, s.selected);
    forall id | id in Gone(s.vehicles, d.update, s.selected) ensures id !in d.tick.idx {
      if d.update.isSnapshot {
        SnapshotHolds(s.vehicles, d.tick.idx, d.tick.sub, d.update);
      } else {
        LeavesOnlyLeft(s.vehicles, d.update);
        assert id in Range(d.update.left);
      }
    }
  }

  lemma SnapshotHolds(vs: Vehicles, idx: Index, sub: Sub, u: Update)
    requires IndexOk(idx) && FrameFor(idx, sub, u) && sub.forceSnapshot && sub.sent == map[]
    ensures Replayed(vs, u).Keys == Visible(idx, sub)
  {
    FrameKeys(vs, idx, sub, u);
  }

  /** What a delivered frame leaves on the map, in every run: what its tick made visible. */
  lemma DeliveryShows(s: System, c: SockId)
    requires Reachable(s) && Enabled(s, SocketDelivers(c)) && s.conns[c].down[0].Frame?
    ensures var d := s.conns[c].down[0];
      && After(s, SocketDelivers(c)).vehicles == Replayed(s.vehicles, d.update)
      && Replayed(s.vehicles, d.update).Keys == Visible(d.tick.idx, d.tick.sub)
  {
    ReachableKeepsInv(s);
    var d := s.conns[c].down[0];
    assert Following(s.vehicles, s.conns[c]) && Framed(d);
    FrameKeys(s.vehicles, d.tick.idx, d.tick.sub, d.update);
  }

  /** Exactly when a report is premature, in every run and for every frame, snapshots included: on
      delivery a selected vehicle that the published index still has is reported gone if and only
      if the subscription behind the frame neither pins nor hits it (and, unless the frame is a
      snapshot, the map had it). */
  lemma PrematurelyGone(s: System, c: SockId, id: string)
    requires Reachable(s) && Enabled(s, SocketDelivers(c)) && s.conns[c].down[0].Frame?
    requires id in s.selected && id in s.conns[c].down[0].tick.idx
    ensures var d := s.conns[c].down[0];
      id in Gone(s.vehicles, d.update, s.selected) <==>
        && (d.update.isSnapshot || id in s.vehicles)
        && id !in d.tick.sub.pinned && !Hit(d.tick.idx[id], d.tick.sub.bbox, d.tick.sub.filters)
  {
    var d := s.conns[c].down[0];
    DeliveriesFit(s, c);
    DeliveryShows(s, c);
    GoneExactly(s.vehicles, d.update, s.selected);
    hide Hit, Gone, Replayed, Reachable, Enabled, After, Fits;
  }
}
