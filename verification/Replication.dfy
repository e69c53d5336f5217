/** The whole live protocol as a step system: fleet and published index, one ordered channel each
    way per connection, and the client with its replica. Every run keeps the invariant `Inv`,
    and `Inv` makes the replica converge. */
module Replication {
  import opened Collections
  import opened Domain
  import opened LiveState
  import opened VehicleIndexes
  import opened StreamServer
  import opened VehicleStores
  import opened LiveClients

  // ---------------------------------------------------------------- the system

  datatype SockState = SockConnecting | SockOpen | SockClosing | SockClosed

  /** What a frame answered: the index published at its tick and the subscription before it. */
  datatype Tick = Tick(idx: Index, sub: Sub)

  datatype Down = Frame(update: Update, tick: Tick) | Pong

  /** A connection: the server's subscription, the last tick it answered, and what is in flight. */
  datatype Conn = Conn(sub: Option<Sub>, last: Option<Tick>, up: seq<ClientMsg>, down: seq<Down>, alive: bool)

  datatype System = System(
    trips: Trips,
    index: Index,
    socks: map<SockId, SockState>,
    conns: map<SockId, Conn>,
    client: Client,
    vehicles: Vehicles,
    selected: seq<string>)

  const IDLE := Conn(None, None, [], [], true)

  ghost predicate Initial(s: System) {
    && s.trips == map[] && s.index == map[] && s.socks == map[] && s.conns == map[]
    && (exists watchful :: s.client == NewClient(watchful))
    && s.vehicles == map[] && s.selected == []
  }

  datatype Step =
    | Ingest(ev: PosEvent, w: World)
    | Prune(now: Instant, staleAfter: int)
    | Publish
    | ServerReceives(c: SockId)
    | ServerTicks(c: SockId, frame: Option<Update>)
    | ServerDrops(c: SockId)
    | SocketOpens(c: SockId)
    | SocketDelivers(c: SockId)
    | SocketFails(c: SockId)   // an error or an expired watchdog: the client closes the socket
    | SocketCloses(c: SockId)
    | Connect(view: View, c: SockId)
    | UpdateView(view: View)
    | Pin(ids: seq<string>)
    | Select(ids: seq<string>)
    | Suspend
    | Resume(c: SockId)
    | RetryFires(c: SockId)
    | WatchdogProbes
  {
    predicate AtServer() {
      Ingest? || Prune? || Publish? || ServerReceives? || ServerTicks? || ServerDrops?
    }

    predicate AtSocket() {
      SocketOpens? || SocketDelivers? || SocketFails? || SocketCloses?
    }
  }

  predicate IsOpen(s: System, c: SockId) {
    c in s.socks && s.socks[c] == SockOpen
  }

  predicate CurrentOpen(s: System) {
    s.client.ws.Some? && IsOpen(s, s.client.ws.value)
  }

  /** A step may be taken. `connect` is called only while the client has no socket. */
  ghost predicate Enabled(s: System, step: Step) {
    if step.AtServer() then ServerMay(s, step) else if step.AtSocket() then SocketMay(s, step) else ClientMay(s, step)
  }

  ghost predicate ServerMay(s: System, step: Step) {
    match step
    case ServerReceives(c) => c in s.conns && s.conns[c].alive && s.conns[c].up != []
    case ServerTicks(c, frame) =>
      && c in s.conns && s.conns[c].alive && s.conns[c].sub.Some? && IndexOk(s.index)
      && (frame.None? <==> Quiet(s.index, s.conns[c].sub.value))
      && (frame.Some? ==> FrameFor(s.index, s.conns[c].sub.value, frame.value))
    case ServerDrops(c) => c in s.conns
    case _ => true
  }

  ghost predicate SocketMay(s: System, step: Step) {
    match step
    case SocketOpens(c) => c in s.socks && s.socks[c] == SockConnecting
    case SocketDelivers(c) => IsOpen(s, c) && c in s.conns && s.conns[c].down != []
    case SocketFails(c) => c in s.socks
    case SocketCloses(c) => c in s.socks && s.socks[c] != SockClosed
    case _ => false
  }

  ghost predicate ClientMay(s: System, step: Step) {
    match step
    case Connect(_, c) => c !in s.socks && s.client.ws.None?
    case Resume(c) => c !in s.socks
    case RetryFires(c) => c !in s.socks && s.client.retryPending
    case WatchdogProbes => s.client.heartbeat.Idle?
    case _ => true
  }

  // `ws.close()`: a connecting or open socket starts closing, and delivers nothing more.
  function CloseSock(socks: map<SockId, SockState>, c: SockId): map<SockId, SockState> {
    if c in socks && (socks[c] == SockConnecting || socks[c] == SockOpen) then socks[c := SockClosing] else socks
  }

  function WithSocket(s: System, c: SockId, client: Client): (t: System)
    ensures t.client == client && t.vehicles == s.vehicles
  {
    s.(socks := s.socks[c := SockConnecting], conns := s.conns[c := IDLE], client := client)
  }

  // The client changes state and sends `msg`, if any, on its current socket.
  function WithSent(s: System, client: Client, msg: Option<ClientMsg>): (t: System)
    ensures t.client == client && t.socks == s.socks && t.vehicles == s.vehicles
  {
    var t := s.(client := client);
    if msg.None? || client.ws.None? || client.ws.value !in s.conns then t
    else
      var c := client.ws.value;
      t.(conns := s.conns[c := s.conns[c].(up := s.conns[c].up + [msg.value])])
  }

  function AfterReceive(conn: Conn): Conn
    requires conn.up != []
  {
    conn.(sub := Received(conn.sub, conn.up[0]), up := conn.up[1..],
          down := if conn.up[0].Ping? then conn.down + [Pong] else conn.down)
  }

  function AfterTick(conn: Conn, idx: Index, frame: Option<Update>): Conn
    requires conn.sub.Some?
    requires forall id :: id in Visible(idx, conn.sub.value) ==> id in idx && idx[id].motion.HasPosition()
  {
    var tick := Tick(idx, conn.sub.value);
    conn.(sub := Some(Ticked(idx, conn.sub.value)), last := Some(tick),
          down := if frame.Some? then conn.down + [Frame(frame.value, tick)] else conn.down)
  }

  function After(s: System, step: Step): System
    requires Enabled(s, step)
  {
    if step.AtServer() then AfterServer(s, step) else if step.AtSocket() then AfterSocket(s, step) else AfterClient(s, step)
  }

  function AfterServer(s: System, step: Step): System
    requires ServerMay(s, step)
  {
    match step
    case Ingest(ev, w) => s.(trips := Applied(s.trips, ev, w))
    case Prune(now, staleAfter) => s.(trips := Pruned(s.trips, now, staleAfter))
    case Publish => s.(index := Positioned(s.trips))
    case ServerReceives(c) => s.(conns := s.conns[c := AfterReceive(s.conns[c])])
    case ServerTicks(c, frame) => s.(conns := s.conns[c := AfterTick(s.conns[c], s.index, frame)])
    case ServerDrops(c) => s.(conns := s.conns[c := s.conns[c].(alive := false)])
    case _ => s
  }

  function AfterSocket(s: System, step: Step): System
    requires SocketMay(s, step)
  {
    match step
    case SocketOpens(c) =>
      var (client, msg) := Opened(s.client);
      WithSent(s.(socks := s.socks[c := SockOpen]), client, msg)
    case SocketDelivers(c) =>
      var head := s.conns[c].down[0];
      s.(conns := s.conns[c := s.conns[c].(down := s.conns[c].down[1..])],
         client := Armed(s.client),
         vehicles := if head.Frame? then Replayed(s.vehicles, head.update) else s.vehicles)
    case SocketFails(c) => s.(socks := CloseSock(s.socks, c))
    case SocketCloses(c) => s.(socks := s.socks[c := SockClosed], client := Closed(s.client, c))
    case _ => s
  }

  function AfterClient(s: System, step: Step): System
    requires ClientMay(s, step)
  {
    match step
    case Connect(view, c) => WithSocket(s, c, Connecting(s.client, view, c))
    case UpdateView(view) =>
      var client := s.client.(view := Some(view));
      WithSent(s, client, Resent(client, CurrentOpen(s)))
    case Pin(ids) =>
      var client := s.client.(pinned := ids);
      WithSent(s, client, Resent(client, CurrentOpen(s)))
    case Select(ids) => s.(selected := ids)
    case Suspend =>
      s.(client := Suspended(s.client),
         socks := if s.client.ws.Some? then CloseSock(s.socks, s.client.ws.value) else s.socks)
    case Resume(c) => if Resumable(s.client) then WithSocket(s, c, Resumed(s.client, c)) else s
    case RetryFires(c) => WithSocket(s, c, RetryFired(s.client, c))
    case WatchdogProbes =>
      var (client, msg) := Probed(s.client, CurrentOpen(s));
      WithSent(s, client, msg)
    case _ => s
  }

  // ---------------------------------------------------------------- the invariant

  /** At most one socket is connecting or open, and it is the current one, never beside a pending
      retry; a suspended client has none; a client with a socket is never stuck. */
  ghost predicate OneConnection(s: System) {
    var c := s.client;
    && s.conns.Keys == s.socks.Keys
    && (forall k :: k in s.socks && (s.socks[k] == SockConnecting || s.socks[k] == SockOpen) ==> c.ws == Some(k))
    && (c.ws.Some? ==> c.ws.value in s.socks && c.view.Some?)
    && (c.closedByUser ==> c.ws.None?)
    && (c.retryPending <==> c.ws.Some? && s.socks[c.ws.value] == SockClosed)
    && RETRY_MIN <= c.retry <= RETRY_MAX
  }

  /** The subscription a server will have once it has read `up`. */
  function Read(sub: Option<Sub>, up: seq<ClientMsg>): Option<Sub> {
    if up == [] then sub else Received(Read(sub, up[..|up| - 1]), up[|up| - 1])
  }

  ghost predicate Agrees(sub: Option<Sub>, c: Client) {
    && sub.Some? && c.view.Some?
    && sub.value.bbox == c.view.value.bbox && sub.value.filters == c.view.value.filters && sub.value.pinned == c.pinned
  }

  /** What is in flight to the server of the open connection ends in the client's latest view. */
  ghost predicate InSync(s: System) {
    forall c :: c in s.socks && c in s.conns ==>
      && (s.socks[c] == SockConnecting ==> s.conns[c].sub == None && s.conns[c].up == [] && s.conns[c].down == [])
      && (s.socks[c] == SockOpen ==> Agrees(Read(s.conns[c].sub, s.conns[c].up), s.client))
  }

  /** The record is the last tick's visible vehicles, none of which has since been changed by
      enough to re-send. */
  ghost predicate RecordOf(sent: map<string, Sent>, tick: Tick) {
    && IndexOk(tick.idx) && sent.Keys == Visible(tick.idx, tick.sub)
    && forall id :: id in sent ==> !Changed(sent[id], SentOf(tick.idx[id]))
  }

  ghost predicate Framed(d: Down) {
    d.Frame? ==> (
      && IndexOk(d.tick.idx) && FrameFor(d.tick.idx, d.tick.sub, d.update)
      && (d.tick.sub.forceSnapshot ==> d.tick.sub.sent == map[]))
  }

  /** Server side of one connection. */
  ghost predicate Served(conn: Conn) {
    && (forall d :: d in conn.down ==> Framed(d))
    && (conn.sub.Some? ==>
          if conn.sub.value.forceSnapshot then conn.sub.value.sent == map[]
          else conn.last.Some? && RecordOf(conn.sub.value.sent, conn.last.value))
  }

  ghost predicate ServerOk(s: System) {
    && Keyed(s.trips) && IndexOk(s.index)
    && forall c :: c in s.conns ==> Served(s.conns[c])
  }

  function Shown(v: Vehicle): Sent {
    Sent(v.lat, v.lon, v.delay, v.atStop, v.speedKmh)
  }

  /** The replica shows what the record says was sent. */
  ghost predicate Mirrors(vs: Vehicles, sent: map<string, Sent>) {
    && vs.Keys == sent.Keys
    && forall id :: id in sent ==> vs[id].id == id && Shown(vs[id]) == sent[id]
  }

  /** A frame makes sense to a replica: a snapshot only states, anything else states vehicles it
      lacks and moves or removes vehicles it has. */
  ghost predicate Fits(vs: Vehicles, u: Update) {
    if u.isSnapshot then u.moved == [] && u.left == []
    else
      && (forall v :: v in u.entered ==> v.id !in vs)
      && (forall m :: m in u.moved ==> m.id in vs)
      && (forall id :: id in u.left ==> id in vs)
  }

  function ReplayAll(vs: Vehicles, down: seq<Down>): Vehicles
    decreases |down|
  {
    if down == [] then vs
    else ReplayAll(if down[0].Frame? then Replayed(vs, down[0].update) else vs, down[1..])
  }

  /** A frame arrives at a replica it fits: unless a snapshot, one mirroring the record it was made
      from. */
  ghost predicate Meets(vs: Vehicles, d: Down) {
    d.Frame? ==> Fits(vs, d.update) && (!d.tick.sub.forceSnapshot ==> Mirrors(vs, d.tick.sub.sent))
  }

  ghost predicate AllFit(vs: Vehicles, down: seq<Down>)
    decreases |down|
  {
    down == [] || (
      && Meets(vs, down[0])
      && AllFit(if down[0].Frame? then Replayed(vs, down[0].update) else vs, down[1..]))
  }

  /** Client side of the open connection: every frame in flight will fit when it arrives, and the
      last one leaves the replica mirroring the server's record. */
  ghost predicate Following(vs: Vehicles, conn: Conn) {
    && AllFit(vs, conn.down)
    && (conn.sub.Some? && !conn.sub.value.forceSnapshot ==> Mirrors(ReplayAll(vs, conn.down), conn.sub.value.sent))
  }

  ghost predicate ReplicaOk(s: System) {
    forall c :: IsOpen(s, c) && c in s.conns ==> Following(s.vehicles, s.conns[c])
  }

  ghost predicate Inv(s: System) {
    OneConnection(s) && InSync(s) && ServerOk(s) && ReplicaOk(s)
  }

  // ---------------------------------------------------------------- one tick on one connection

  lemma {:induction false} ReplayAppend(vs: Vehicles, down: seq<Down>, d: Down)
    ensures ReplayAll(vs, down + [d]) == var r := ReplayAll(vs, down); if d.Frame? then Replayed(r, d.update) else r
    ensures AllFit(vs, down + [d]) <==> AllFit(vs, down) && Meets(ReplayAll(vs, down), d)
    decreases |down|
  {
    hide Replayed;
    hide Meets;
    if down == [] {
      assert ([d])[1..] == [];
    } else {
      assert (down + [d])[1..] == down[1..] + [d];
      ReplayAppend(if down[0].Frame? then Replayed(vs, down[0].update) else vs, down[1..], d);
    }
  }

  // A frame fits the replica of the record it was made from.
  lemma FrameFits(vs: Vehicles, idx: Index, sub: Sub, u: Update)
    requires IndexOk(idx) && FrameFor(idx, sub, u)
    requires sub.forceSnapshot ==> sub.sent == map[]
    requires !sub.forceSnapshot ==> Mirrors(vs, sub.sent)
    ensures Fits(vs, u)
  {
    hide Changed;
    hide Hits;
    EmptyLists(idx, sub, u.entered, u.moved);
    RangeEmpty(u.left);
    assert forall id :: id in u.left ==> id in Range(u.left);
  }

  // The keys it leaves there.
  lemma FrameKeys(vs: Vehicles, idx: Index, sub: Sub, u: Update)
    requires IndexOk(idx) && FrameFor(idx, sub, u)
    requires sub.forceSnapshot ==> sub.sent == map[]
    requires !sub.forceSnapshot ==> Mirrors(vs, sub.sent)
    ensures Replayed(vs, u).Keys == Visible(idx, sub)
  {
    hide Changed;
    hide Visible;
    var start := if u.isSnapshot then map[] else vs;
    var a := SetAll(start, u.entered);
    SetAllIs(start, u.entered);
    MoveAllIs(a, u.moved);
    hide MoveAll;
    hide SetAll;
    hide MovesEach;
    assert start.Keys == sub.sent.Keys;
    forall id | id in Entering(idx, sub) ensures id in a {
      assert ToState(idx[id]) in u.entered;
    }
    assert a.Keys == sub.sent.Keys + Entering(idx, sub);
  }

  // The values it leaves there.
  lemma FrameValues(vs: Vehicles, idx: Index, sub: Sub, u: Update, id: string)
    requires IndexOk(idx) && FrameFor(idx, sub, u) && id in Visible(idx, sub)
    requires sub.forceSnapshot ==> sub.sent == map[]
    requires !sub.forceSnapshot ==> Mirrors(vs, sub.sent)
    ensures id in Replayed(vs, u)
    ensures Replayed(vs, u)[id] ==
      if id !in sub.sent then ToState(idx[id])
      else if Changed(sub.sent[id], SentOf(idx[id])) then MovedBy(vs[id], ToMove(idx[id]))
      else vs[id]
  {
    var start := if u.isSnapshot then map[] else vs;
    var a := SetAll(start, u.entered);
    SetAllIs(start, u.entered);
    MoveAllIs(a, u.moved);
    hide Changed;
    hide Visible;
    assert id !in Range(u.left);
    if id !in sub.sent {
      assert ToState(idx[id]) in u.entered;
      assert forall m :: m in u.moved ==> m.id != id;
    } else {
      assert forall v :: v in u.entered ==> v.id != id;
      assert a[id] == vs[id];
      if Changed(sub.sent[id], SentOf(idx[id])) {
        assert ToMove(idx[id]) in u.moved;
      } else {
        assert forall m :: m in u.moved ==> m.id != id;
      }
    }
  }

  lemma FrameShows(vs: Vehicles, idx: Index, sub: Sub, u: Update, id: string)
    requires IndexOk(idx) && FrameFor(idx, sub, u) && id in Visible(idx, sub)
    requires sub.forceSnapshot ==> sub.sent == map[]
    requires !sub.forceSnapshot ==> Mirrors(vs, sub.sent)
    ensures id in Replayed(vs, u) && Replayed(vs, u)[id].id == id
    ensures Shown(Replayed(vs, u)[id]) == Ticked(idx, sub).sent[id]
  {
    FrameValues(vs, idx, sub, u, id);
    hide FrameFor;
    hide Changed;
    hide Replayed;
    hide Visible;
  }

  /** A frame takes a replica of the old record to a replica of the new one. */
  lemma FrameMirrors(vs: Vehicles, idx: Index, sub: Sub, u: Update)
    requires IndexOk(idx) && FrameFor(idx, sub, u)
    requires sub.forceSnapshot ==> sub.sent == map[]
    requires !sub.forceSnapshot ==> Mirrors(vs, sub.sent)
    ensures Fits(vs, u) && Mirrors(Replayed(vs, u), Ticked(idx, sub).sent)
  {
    hide FrameFor;
    hide Changed;
    hide Replayed;
    hide Visible;
    hide Fits;
    hide SentOf;
    FrameFits(vs, idx, sub, u);
    FrameKeys(vs, idx, sub, u);
    forall id | id in Visible(idx, sub)
      ensures Replayed(vs, u)[id].id == id && Shown(Replayed(vs, u)[id]) == Ticked(idx, sub).sent[id]
    {
      FrameShows(vs, idx, sub, u, id);
    }
  }

  /** Saying nothing is right when there is nothing to say. */
  lemma QuietKeeps(idx: Index, sub: Sub)
    requires IndexOk(idx) && Quiet(idx, sub)
    ensures Ticked(idx, sub).sent == sub.sent
  {
    hide Changed;
    var sent := Ticked(idx, sub).sent;
    assert sent.Keys == Visible(idx, sub) == sub.sent.Keys by {
      assert Visible(idx, sub) - sub.sent.Keys == {} && sub.sent.Keys - Visible(idx, sub) == {};
    }
    forall id | id in sent ensures sent[id] == sub.sent[id] {
      assert id !in ChangedAmong(idx, sub, Visible(idx, sub));
    }
  }

  lemma TickRecords(idx: Index, sub: Sub)
    requires IndexOk(idx)
    ensures RecordOf(Ticked(idx, sub).sent, Tick(idx, sub))
  {
    forall id | id in Visible(idx, sub) ensures !Changed(SentOf(idx[id]), SentOf(idx[id])) {}
  }

  lemma TickServes(conn: Conn, idx: Index, frame: Option<Update>)
    requires conn.sub.Some? && IndexOk(idx) && Served(conn)
    requires frame.Some? ==> FrameFor(idx, conn.sub.value, frame.value)
    ensures Served(AfterTick(conn, idx, frame))
  {
    TickRecords(idx, conn.sub.value);
    hide RecordOf;
    hide FrameFor;
    hide Ticked;
  }

  lemma TickFollows(vs: Vehicles, conn: Conn, idx: Index, frame: Option<Update>)
    requires conn.sub.Some? && IndexOk(idx) && Served(conn) && Following(vs, conn)
    requires frame.None? <==> Quiet(idx, conn.sub.value)
    requires frame.Some? ==> FrameFor(idx, conn.sub.value, frame.value)
    ensures Following(vs, AfterTick(conn, idx, frame))
  {
    var sub := conn.sub.value;
    if frame.Some? {
      FrameMirrors(ReplayAll(vs, conn.down), idx, sub, frame.value);
      hide FrameFor;
      ReplayAppend(vs, conn.down, Frame(frame.value, Tick(idx, sub)));
    } else {
      QuietKeeps(idx, sub);
    }
  }

  lemma ReceiveServes(conn: Conn)
    requires conn.up != [] && Served(conn)
    ensures Served(AfterReceive(conn))
  {
    hide RecordOf;
    hide FrameFor;
  }

  lemma ReceiveFollows(vs: Vehicles, conn: Conn)
    requires conn.up != [] && Following(vs, conn)
    ensures Following(vs, AfterReceive(conn))
  {
    hide Replayed;
    hide Fits;
    ReplayAppend(vs, conn.down, Pong);
  }

  lemma {:induction false} ReadFirst(sub: Option<Sub>, up: seq<ClientMsg>)
    requires up != []
    ensures Read(Received(sub, up[0]), up[1..]) == Read(sub, up)
  {
    hide Received;
    if |up| == 1 {
      assert up[1..] == [] && up[..0] == [];
    } else {
      var init := up[..|up| - 1];
      ReadFirst(sub, init);
      assert up[1..][..|up[1..]| - 1] == init[1..];
    }
  }

  // ---------------------------------------------------------------- the invariant is inductive

  lemma StartsGood(s: System)
    requires Initial(s)
    ensures Inv(s)
  {}

  lemma KeepsOneConnectionAtServer(s: System, step: Step)
    requires Inv(s) && ServerMay(s, step)
    ensures OneConnection(AfterServer(s, step))
  {
    hide Quiet;
    hide FrameFor;
    hide Visible;
    hide InSync;
    hide ServerOk;
    hide ReplicaOk;
    hide Replayed;
    hide Applied;
    hide Ticked;
    hide Received;
  }

  lemma KeepsOneConnectionAtSocket(s: System, step: Step)
    requires Inv(s) && SocketMay(s, step)
    ensures OneConnection(AfterSocket(s, step))
  {
    hide Quiet;
    hide FrameFor;
    hide Visible;
    hide InSync;
    hide ServerOk;
    hide ReplicaOk;
    hide Replayed;
    hide Applied;
    hide Ticked;
    hide Received;
  }

  // A fresh socket is the only live one when no other is.
  lemma OpeningKeepsOne(s: System, c: SockId, client: Client)
    requires OneConnection(s) && c !in s.socks
    requires forall k :: k in s.socks ==> s.socks[k] == SockClosing || s.socks[k] == SockClosed
    requires client.ws == Some(c) && client.view.Some? && !client.closedByUser && !client.retryPending
    requires RETRY_MIN <= client.retry <= RETRY_MAX
    ensures OneConnection(WithSocket(s, c, client))
  {}

  lemma SendingKeepsOne(s: System, client: Client, msg: Option<ClientMsg>)
    requires OneConnection(s.(client := client))
    ensures OneConnection(WithSent(s, client, msg))
  {}

  lemma KeepsOneConnectionAtClient(s: System, step: Step)
    requires Inv(s) && ClientMay(s, step)
    ensures OneConnection(AfterClient(s, step))
  {
    hide InSync;
    hide ServerOk;
    hide ReplicaOk;
    match step
    case Connect(view, c) =>
      OpeningKeepsOne(s, c, Connecting(s.client, view, c));
    case UpdateView(view) =>
      var client := s.client.(view := Some(view));
      SendingKeepsOne(s, client, Resent(client, CurrentOpen(s)));
    case Pin(ids) =>
      var client := s.client.(pinned := ids);
      SendingKeepsOne(s, client, Resent(client, CurrentOpen(s)));
    case Resume(c) =>
      if Resumable(s.client) { OpeningKeepsOne(s, c, Resumed(s.client, c)); }
    case RetryFires(c) =>
      OpeningKeepsOne(s, c, RetryFired(s.client, c));
    case WatchdogProbes =>
      SendingKeepsOne(s, Probed(s.client, CurrentOpen(s)).0, Probed(s.client, CurrentOpen(s)).1);
    case _ =>
  }

  lemma KeepsOneConnection(s: System, step: Step)
    requires Inv(s) && Enabled(s, step)
    ensures OneConnection(After(s, step))
  {
    hide OneConnection;
    hide Inv;
    hide ServerMay;
    hide SocketMay;
    hide ClientMay;
    hide AfterServer;
    hide AfterSocket;
    hide AfterClient;
    if step.AtServer() {
      KeepsOneConnectionAtServer(s, step);
    } else if step.AtSocket() {
      KeepsOneConnectionAtSocket(s, step);
    } else {
      KeepsOneConnectionAtClient(s, step);
    }
  }

  lemma KeepsInSyncAtServer(s: System, step: Step)
    requires Inv(s) && ServerMay(s, step)
    ensures InSync(AfterServer(s, step))
  {
    hide Quiet;
    hide FrameFor;
    hide Visible;
    hide ServerOk;
    hide ReplicaOk;
    hide Replayed;
    hide Applied;
    hide Ticked;
    if step.ServerReceives? {
      ReadFirst(s.conns[step.c].sub, s.conns[step.c].up);
      hide Received;
    } else if step.ServerTicks? {
      TickReads(s.conns[step.c], s.index, step.frame);
      hide Read;
    }
  }

  lemma KeepsInSyncAtSocket(s: System, step: Step)
    requires Inv(s) && SocketMay(s, step)
    ensures InSync(AfterSocket(s, step))
  {
    hide ServerOk;
    hide ReplicaOk;
    hide Replayed;
    if step.SocketOpens? {
      var msg := SubscribeMsg(s.client.view.value, s.client.pinned);
      SentReads(s.conns[step.c], msg);
      assert Agrees(Received(Read(None, []), msg), s.client);
    }
    hide Read;
    hide Received;
  }

  // A client change told to the server of the open connection, if there is one.
  lemma SendingKeepsInSync(s: System, client: Client, msg: Option<ClientMsg>)
    requires Inv(s) && client.ws == s.client.ws
    requires CurrentOpen(s) ==> (
      && msg.Some? && s.client.ws.value in s.conns
      && var conn := s.conns[s.client.ws.value]; Agrees(Received(Read(conn.sub, conn.up), msg.value), client))
    requires msg.Some? ==> CurrentOpen(s)
    ensures InSync(WithSent(s, client, msg))
  {
    hide ServerOk;
    hide ReplicaOk;
    if CurrentOpen(s) {
      SentReads(s.conns[client.ws.value], msg.value);
    }
    hide Read;
    hide Received;
  }

  lemma KeepsInSyncAtClient(s: System, step: Step)
    requires Inv(s) && ClientMay(s, step)
    ensures InSync(AfterClient(s, step))
  {
    hide ServerOk;
    hide ReplicaOk;
    hide Read;
    assert CurrentOpen(s) ==> var conn := s.conns[s.client.ws.value]; Agrees(Read(conn.sub, conn.up), s.client);
    match step
    case UpdateView(view) =>
      var client := s.client.(view := Some(view));
      SendingKeepsInSync(s, client, Resent(client, CurrentOpen(s)));
    case Pin(ids) =>
      var client := s.client.(pinned := ids);
      SendingKeepsInSync(s, client, Resent(client, CurrentOpen(s)));
    case WatchdogProbes =>
      SendingKeepsInSync(s, Probed(s.client, CurrentOpen(s)).0, Probed(s.client, CurrentOpen(s)).1);
    case _ =>
      hide Received;
  }

  lemma KeepsInSync(s: System, step: Step)
    requires Inv(s) && Enabled(s, step)
    ensures InSync(After(s, step))
  {
    hide InSync;
    hide Inv;
    hide ServerMay;
    hide SocketMay;
    hide ClientMay;
    hide AfterServer;
    hide AfterSocket;
    hide AfterClient;
    if step.AtServer() {
      KeepsInSyncAtServer(s, step);
    } else if step.AtSocket() {
      KeepsInSyncAtSocket(s, step);
    } else {
      KeepsInSyncAtClient(s, step);
    }
  }

  lemma SentReads(conn: Conn, msg: ClientMsg)
    ensures Read(conn.sub, conn.up + [msg]) == Received(Read(conn.sub, conn.up), msg)
  {
    assert (conn.up + [msg])[..|conn.up|] == conn.up;
  }

  // A tick changes nothing a later message or the agreement looks at.
  ghost predicate SameView(a: Option<Sub>, b: Option<Sub>) {
    && a.Some? == b.Some?
    && (a.Some? ==> a.value.bbox == b.value.bbox && a.value.filters == b.value.filters && a.value.pinned == b.value.pinned)
  }

  lemma {:induction false} ReadsSameView(a: Option<Sub>, b: Option<Sub>, up: seq<ClientMsg>)
    requires SameView(a, b)
    ensures SameView(Read(a, up), Read(b, up))
  {
    if up != [] {
      ReadsSameView(a, b, up[..|up| - 1]);
    }
  }

  lemma TickReads(conn: Conn, idx: Index, frame: Option<Update>)
    requires conn.sub.Some? && IndexOk(idx)
    ensures var t := AfterTick(conn, idx, frame); t.up == conn.up && SameView(Read(t.sub, t.up), Read(conn.sub, conn.up))
  {
    ReadsSameView(Some(Ticked(idx, conn.sub.value)), conn.sub, conn.up);
  }

  lemma KeepsServerOkAtServer(s: System, step: Step)
    requires Inv(s) && ServerMay(s, step)
    ensures ServerOk(AfterServer(s, step))
  {
    hide Quiet;
    hide FrameFor;
    hide Visible;
    hide OneConnection;
    hide InSync;
    hide ReplicaOk;
    hide Replayed;
    match step
    case Ingest(ev, w) => KeyedKept(s.trips, ev, w, 0, 0);
    case ServerReceives(c) =>
      ReceiveServes(s.conns[c]);
      hide Served;
    case ServerTicks(c, frame) =>
      TickServes(s.conns[c], s.index, frame);
      hide Served;
    case _ =>
  }

  lemma KeepsServerOkAtSocket(s: System, step: Step)
    requires Inv(s) && SocketMay(s, step)
    ensures ServerOk(AfterSocket(s, step))
  {
    hide Framed;
    hide Quiet;
    hide FrameFor;
    hide Visible;
    hide OneConnection;
    hide InSync;
    hide ReplicaOk;
    hide Replayed;
    hide RecordOf;
  }

  lemma KeepsServerOkAtClient(s: System, step: Step)
    requires Inv(s) && ClientMay(s, step)
    ensures ServerOk(AfterClient(s, step))
  {
    hide Framed;
    hide Quiet;
    hide FrameFor;
    hide Visible;
    hide OneConnection;
    hide InSync;
    hide ReplicaOk;
    hide Replayed;
    hide RecordOf;
  }

  lemma KeepsServerOk(s: System, step: Step)
    requires Inv(s) && Enabled(s, step)
    ensures ServerOk(After(s, step))
  {
    hide ServerOk;
    hide Inv;
    hide ServerMay;
    hide SocketMay;
    hide ClientMay;
    hide AfterServer;
    hide AfterSocket;
    hide AfterClient;
    if step.AtServer() {
      KeepsServerOkAtServer(s, step);
    } else if step.AtSocket() {
      KeepsServerOkAtSocket(s, step);
    } else {
      KeepsServerOkAtClient(s, step);
    }
  }

  lemma KeepsReplicaOkAtServer(s: System, step: Step)
    requires Inv(s) && ServerMay(s, step)
    ensures ReplicaOk(AfterServer(s, step))
  {
    hide Quiet, FrameFor, Visible, InSync, OneConnection, Following, Served, AfterTick, AfterReceive, Applied, Pruned;
    match step
    case ServerReceives(c) =>
      if IsOpen(s, c) { ReceiveFollows(s.vehicles, s.conns[c]); }
    case ServerTicks(c, frame) =>
      if IsOpen(s, c) { TickFollows(s.vehicles, s.conns[c], s.index, frame); }
    case ServerDrops(c) =>
      DroppingFollows(s.vehicles, s.conns[c]);
    case _ =>
  }

  lemma DroppingFollows(vs: Vehicles, conn: Conn)
    ensures Following(vs, conn.(alive := false)) == Following(vs, conn)
  {}

  lemma KeepsReplicaOkAtSocket(s: System, step: Step)
    requires Inv(s) && SocketMay(s, step)
    ensures ReplicaOk(AfterSocket(s, step))
  {
    hide Quiet;
    hide FrameFor;
    hide Visible;
    hide Read;
    hide Replayed;
    hide Meets;
    hide Mirrors;
  }

  lemma KeepsReplicaOkAtClient(s: System, step: Step)
    requires Inv(s) && ClientMay(s, step)
    ensures ReplicaOk(AfterClient(s, step))
  {
    hide Quiet;
    hide FrameFor;
    hide Visible;
    hide InSync;
    hide Replayed;
    hide Meets;
    hide Mirrors;
  }

  lemma KeepsReplicaOk(s: System, step: Step)
    requires Inv(s) && Enabled(s, step)
    ensures ReplicaOk(After(s, step))
  {
    hide ReplicaOk;
    hide Inv;
    hide ServerMay;
    hide SocketMay;
    hide ClientMay;
    hide AfterServer;
    hide AfterSocket;
    hide AfterClient;
    if step.AtServer() {
      KeepsReplicaOkAtServer(s, step);
    } else if step.AtSocket() {
      KeepsReplicaOkAtSocket(s, step);
    } else {
      KeepsReplicaOkAtClient(s, step);
    }
  }

  /** Every step keeps the invariant. */
  lemma Inductive(s: System, step: Step)
    requires Inv(s) && Enabled(s, step)
    ensures Inv(After(s, step))
  {
    hide OneConnection;
    hide InSync;
    hide ServerOk;
    hide ReplicaOk;
    KeepsOneConnection(s, step);
    KeepsInSync(s, step);
    KeepsServerOk(s, step);
    KeepsReplicaOk(s, step);
  }
}
