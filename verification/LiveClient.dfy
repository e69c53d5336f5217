/** The client's connection machine (packages/api-types/src/ws.ts). */
module LiveClients {
  import opened Collections
  import opened Domain
  import opened VehicleIndexes
  import opened StreamServer

  type SockId = nat

  datatype View = View(bbox: BBox, zoom: int, filters: Filters)

  /** The liveness watchdog: unarmed, waiting out the idle period, or waiting for a pong on the
      socket it will otherwise close. */
  datatype Heartbeat = Off | Idle | Grace(sock: SockId)

  datatype Client = Client(
    ws: Option<SockId>,
    view: Option<View>,
    pinned: seq<string>,
    closedByUser: bool,
    retry: int,
    retryPending: bool,
    heartbeat: Heartbeat,
    watchful: bool) // whether a heartbeat period is configured

  const RETRY_MIN: int := 500
  const RETRY_MAX: int := 30_000

  function NewClient(watchful: bool): Client {
    Client(None, None, [], false, RETRY_MIN, false, Off, watchful)
  }

  function SubscribeMsg(v: View, pinned: seq<string>): ClientMsg {
    ClientMsg.Subscribe(Some(v.bbox), Some(v.filters), pinned)
  }

  function UpdateMsg(v: View, pinned: seq<string>): ClientMsg {
    ClientMsg.UpdateViewport(Some(v.bbox), Some(v.filters), pinned)
  }

  function Armed(c: Client): Client {
    c.(heartbeat := if c.watchful then Idle else Off)
  }

  function Opening(c: Client, sock: SockId): Client {
    c.(ws := Some(sock))
  }

  function Connecting(c: Client, v: View, sock: SockId): Client {
    Opening(c.(view := Some(v), closedByUser := false), sock)
  }

  /** The socket opened: reset the backoff, arm the watchdog, subscribe with the current view. */
  function Opened(c: Client): (Client, Option<ClientMsg>) {
    (Armed(c.(retry := RETRY_MIN)),
     if c.view.Some? then Some(SubscribeMsg(c.view.value, c.pinned)) else None)
  }

  /** A socket closed; only the current one's close leads to a retry. */
  function Closed(c: Client, sock: SockId): Client {
    var d := c.(heartbeat := Off);
    if c.ws != Some(sock) || c.closedByUser then d
    else d.(retryPending := true, retry := if c.retry * 2 < RETRY_MAX then c.retry * 2 else RETRY_MAX)
  }

  /** Tell the server the current view, if the current socket is open. */
  function Resent(c: Client, open: bool): Option<ClientMsg> {
    if c.view.Some? && open then Some(UpdateMsg(c.view.value, c.pinned)) else None
  }

  function Suspended(c: Client): Client {
    c.(retryPending := false, heartbeat := Off, closedByUser := true, ws := None)
  }

  /** `resume` reopens only without a socket and with a view to restore. */
  predicate Resumable(c: Client) {
    c.ws.None? && c.view.Some?
  }

  function Resumed(c: Client, sock: SockId): Client {
    if Resumable(c) then Opening(c.(closedByUser := false, retry := RETRY_MIN), sock) else c
  }

  function RetryFired(c: Client, sock: SockId): Client {
    Opening(c.(retryPending := false), sock)
  }

  /** The idle period ran out: probe the current socket if it is open. */
  function Probed(c: Client, open: bool): (Client, Option<ClientMsg>) {
    if c.ws.Some? && open then (c.(heartbeat := Grace(c.ws.value)), Some(ClientMsg.Ping))
    else (c.(heartbeat := Off), None)
  }

  /** The object itself. Sockets are the environment's: methods that open one are handed its id,
      and what they send or close is returned. */
  class LiveClient {
    var ws: Option<SockId>
    var view: Option<View>
    var pinned: seq<string>
    var closedByUser: bool
    var retry: int
    var retryTimer: bool
    var heartbeat: Heartbeat
    const watchful: bool

    function Value(): Client
      reads this
    {
      Client(ws, view, pinned, closedByUser, retry, retryTimer, heartbeat, watchful)
    }

    constructor (watchful: bool)
      ensures Value() == NewClient(watchful)
    {
      ws, view, pinned, closedByUser := None, None, [], false;
      retry, retryTimer, heartbeat := RETRY_MIN, false, Off;
      this.watchful := watchful;
    }

    method Open(sock: SockId)
      modifies this
      ensures Value() == Opening(old(Value()), sock)
    {
      ws := Some(sock);
    }

    method Connect(v: View, sock: SockId)
      modifies this
      ensures Value() == Connecting(old(Value()), v, sock)
    {
      view := Some(v);
      closedByUser := false;
      Open(sock);
    }

    method ArmHeartbeat()
      modifies this
      ensures Value() == Armed(old(Value()))
    {
      ClearHeartbeat();
      if watchful {
        heartbeat := Idle;
      }
    }

    method ClearHeartbeat()
      modifies this
      ensures Value() == old(Value()).(heartbeat := Off)
    {
      heartbeat := Off;
    }

    method OnOpen() returns (sent: Option<ClientMsg>)
      modifies this
      ensures (Value(), sent) == Opened(old(Value()))
    {
      retry := RETRY_MIN;
      ArmHeartbeat();
      sent := None;
      if view.Some? {
        sent := Some(SubscribeMsg(view.value, pinned));
      }
    }

    method OnClose(sock: SockId)
      modifies this
      ensures Value() == Closed(old(Value()), sock)
    {
      ClearHeartbeat();
      if ws != Some(sock) {
        return;
      }
      if !closedByUser {
        retryTimer := true;
        retry := if retry * 2 < RETRY_MAX then retry * 2 else RETRY_MAX;
      }
    }

    method Update(v: View, open: bool) returns (sent: Option<ClientMsg>)
      modifies this
      ensures Value() == old(Value()).(view := Some(v)) && sent == Resent(Value(), open)
    {
      view := Some(v);
      sent := Send(open);
    }

    method SetPinned(ids: seq<string>, open: bool) returns (sent: Option<ClientMsg>)
      modifies this
      ensures Value() == old(Value()).(pinned := ids) && sent == Resent(Value(), open)
    {
      pinned := ids;
      sent := Send(open);
    }

    method Send(open: bool) returns (sent: Option<ClientMsg>)
      ensures sent == Resent(Value(), open)
    {
      sent := None;
      if view.Some? && open {
        sent := Some(UpdateMsg(view.value, pinned));
      }
    }

    method Suspend() returns (close: Option<SockId>)
      modifies this
      ensures Value() == Suspended(old(Value())) && close == old(ws)
    {
      retryTimer := false;
      ClearHeartbeat();
      closedByUser := true;
      close := ws;
      ws := None;
    }

    method Resume(sock: SockId)
      modifies this
      ensures Value() == Resumed(old(Value()), sock)
    {
      if ws.Some? || view.None? {
        return;
      }
      closedByUser := false;
      retry := RETRY_MIN;
      Open(sock);
    }

    method OnRetry(sock: SockId)
      modifies this
      ensures Value() == RetryFired(old(Value()), sock)
    {
      retryTimer := false;
      Open(sock);
    }

    method OnIdle(open: bool) returns (sent: Option<ClientMsg>)
      modifies this
      ensures (Value(), sent) == Probed(old(Value()), open)
    {
      sent := None;
      heartbeat := Off;
      if ws.None? || !open {
        return;
      }
      sent := Some(ClientMsg.Ping);
      heartbeat := Grace(ws.value);
    }
  }

  // ---------------------------------------------------------------- the backoff

  function Pow2(n: nat): nat {
    if n == 0 then 1 else 2 * Pow2(n - 1)
  }

  /** The client after `n` connections in a row were lost before they opened, each retried on a socket
      of its own from `first` on. */
  function AfterFailures(c: Client, first: SockId, n: nat): Client {
    if n == 0 then c else Closed(RetryFired(AfterFailures(c, first, n - 1), first + n - 1), first + n - 1)
  }

  /** Each failure doubles the wait before the next try, from half a second up to half a minute, and
      leaves a retry pending; a socket that opens, and a resume, start over. */
  lemma {:induction false} FailuresDoubleTheWait(c: Client, first: SockId, n: nat)
    requires !c.closedByUser && c.retry == 500
    ensures var r := AfterFailures(c, first, n);
      && r.retry == (if 500 * Pow2(n) < 30_000 then 500 * Pow2(n) else 30_000)
      && !r.closedByUser && (n > 0 ==> r.retryPending) && r.view == c.view && r.pinned == c.pinned
      && Opened(r).0.retry == 500
  {
    if n > 0 {
      FailuresDoubleTheWait(c, first, n - 1);
      assert Pow2(n) == 2 * Pow2(n - 1);
    }
  }

  /** Whatever happened before it, a suspended client that has a view resumes with that view and its
      pins, the shortest wait, and no retry pending. */
  lemma ResumesAsSuspended(c: Client, sock: SockId)
    requires c.view.Some?
    ensures var r := Resumed(Suspended(c), sock);
      && r.ws == Some(sock) && r.view == c.view && r.pinned == c.pinned && r.retry == 500 && !r.retryPending && !r.closedByUser
  {}

  /** Suspending leaves nothing that would act later: no socket, no pending retry, no armed watchdog. */
  lemma SuspendedIsIdle(c: Client)
    ensures var r := Suspended(c); r.ws.None? && !r.retryPending && r.heartbeat == Off && r.closedByUser && r.view == c.view && r.pinned == c.pinned
  {}

  /** An idle period ends in a ping on the current socket, if it is open, and a wait that will close that
      socket and no other; otherwise in nothing. */
  lemma IdleEndsInPing(c: Client, open: bool)
    ensures var (r, msg) := Probed(c, open);
      if c.ws.Some? && open then msg == Some(ClientMsg.Ping) && r == c.(heartbeat := Grace(c.ws.value))
      else msg == None && r == c.(heartbeat := Off)
  {}
}
