/** When the client's liveness watchdog is armed, over every run of the protocol. */
module Watchdog {
  import opened Collections
  import opened LiveClients
  import opened Replication
  import opened Convergence

  predicate IsArmed(s: System) {
    s.client.heartbeat != Off
  }

  /** The late close of a socket that is no longer the current one. */
  predicate StaleClose(s: System, step: Step) {
    step.SocketCloses? && s.client.ws != Some(step.c)
  }

  lemma ServerLeavesClient(s: System, step: Step)
    requires ServerMay(s, step)
    ensures AfterServer(s, step).client == s.client && AfterServer(s, step).socks == s.socks
  {}

  /** A step that leaves the current socket open disarms an armed watchdog exactly when it is the
      close of an older socket. */
  lemma DisarmedIff(s: System, step: Step)
    requires Reachable(s) && Enabled(s, step) && s.client.watchful
    requires CurrentOpen(s) && IsArmed(s) && CurrentOpen(After(s, step))
    ensures !IsArmed(After(s, step)) <==> StaleClose(s, step)
  {
    ReachableKeepsInv(s);
    hide InSync, ServerOk, ReplicaOk, Reachable, AfterServer, ServerMay, WithSent;
    if step.AtServer() {
      ServerLeavesClient(s, step);
    }
  }

  /** Opening and every message, and nothing else, arm one that is off. */
  lemma ArmedIff(s: System, step: Step)
    requires Reachable(s) && Enabled(s, step) && s.client.watchful
    requires !IsArmed(s)
    ensures IsArmed(After(s, step)) <==> step.SocketOpens? || step.SocketDelivers?
  {
    ReachableKeepsInv(s);
    hide InSync, ServerOk, ReplicaOk, Reachable, AfterServer, ServerMay, WithSent;
    if step.AtServer() {
      ServerLeavesClient(s, step);
    }
  }

  /** A client without a watchdog period never arms one, in any run. */
  lemma {:induction false} NeverArmedUnwatched(states: seq<System>, steps: seq<Step>, i: nat)
    requires Behavior(states, steps) && i < |states| && !states[i].client.watchful
    ensures !IsArmed(states[i])
  {
    hide Initial, Enabled, After, IsArmed;
    if i == 0 {
      StartsOff(states[0]);
    } else {
      assert Enabled(states[i - 1], steps[i - 1]) && states[i] == After(states[i - 1], steps[i - 1]);
      WatchfulStays(states[i - 1], steps[i - 1]);
      NeverArmedUnwatched(states, steps, i - 1);
      UnwatchedStaysOff(states[i - 1], steps[i - 1]);
    }
  }

  lemma StartsOff(s: System)
    requires Initial(s)
    ensures !IsArmed(s)
  {}

  lemma UnwatchedStaysOff(s: System, step: Step)
    requires Enabled(s, step) && !s.client.watchful && !IsArmed(s)
    ensures !IsArmed(After(s, step))
  {
    hide AfterServer, ServerMay, WithSent, WithSocket;
    if step.AtServer() {
      ServerLeavesClient(s, step);
    }
  }

  // ---------------------------------------------------------------- over runs

  predicate Arms(step: Step) {
    step.SocketOpens? || step.SocketDelivers?
  }

  /** Between the `i`th and `j`th state an older socket closed and nothing has armed the watchdog
      since. */
  ghost predicate DisarmedSince(states: seq<System>, steps: seq<Step>, i: nat, j: nat)
    requires Behavior(states, steps) && j < |states|
  {
    exists k :: i <= k < j && StaleClose(states[k], steps[k]) && forall m :: k < m < j ==> !Arms(steps[m])
  }

  lemma StateIsReachable(states: seq<System>, steps: seq<Step>, i: nat)
    requires Behavior(states, steps) && i < |states|
    ensures Reachable(states[i])
  {
    hide Initial, Enabled, After;
    var front, before := states[..i + 1], steps[..i];
    assert Behavior(front, before) && front[|before|] == states[i];
  }

  /** While a socket stays open, in every run: a watchdog once armed is off exactly when an older
      socket has closed since, and no message has arrived after that. */
  lemma {:induction false} WatchdogOffIff(states: seq<System>, steps: seq<Step>, i: nat, j: nat)
    requires Behavior(states, steps) && i <= j < |states|
    requires states[i].client.watchful && IsArmed(states[i])
    requires forall k :: i <= k <= j ==> CurrentOpen(states[k])
    ensures states[j].client.watchful
    ensures !IsArmed(states[j]) <==> DisarmedSince(states, steps, i, j)
  {
    if i < j {
      var n := j - 1;
      WatchdogOffIff(states, steps, i, n);
      StateIsReachable(states, steps, n);
      WatchfulStays(states[n], steps[n]);
      assert states[j] == After(states[n], steps[n]);
      if IsArmed(states[n]) {
        DisarmedIff(states[n], steps[n]);
      } else {
        ArmedIff(states[n], steps[n]);
      }
      hide Initial, Enabled, After, IsArmed, CurrentOpen, StaleClose, Reachable;
      SinceNext(states, steps, i, n);
    }
  }

  lemma WatchfulStays(s: System, step: Step)
    requires Enabled(s, step)
    ensures After(s, step).client.watchful == s.client.watchful
  {
    hide AfterServer, AfterSocket, AfterClient, ServerMay, SocketMay, ClientMay;
    if step.AtServer() {
      ServerLeavesClient(s, step);
    } else if step.AtSocket() {
      SocketKeepsWatch(s, step);
    } else {
      ClientKeepsWatch(s, step);
    }
  }

  lemma SocketKeepsWatch(s: System, step: Step)
    requires SocketMay(s, step)
    ensures AfterSocket(s, step).client.watchful == s.client.watchful
  {
    hide WithSent;
  }

  lemma ClientKeepsWatch(s: System, step: Step)
    requires ClientMay(s, step)
    ensures AfterClient(s, step).client.watchful == s.client.watchful
  {
    hide WithSent, WithSocket;
  }

  // One more step.
  lemma SinceNext(states: seq<System>, steps: seq<Step>, i: nat, n: nat)
    requires Behavior(states, steps) && i <= n < |steps|
    ensures DisarmedSince(states, steps, i, n + 1) <==>
      StaleClose(states[n], steps[n]) || (DisarmedSince(states, steps, i, n) && !Arms(steps[n]))
  {
    hide Initial, Enabled, After, StaleClose, Arms;
    if DisarmedSince(states, steps, i, n) && !Arms(steps[n]) {
      var k :| i <= k < n && StaleClose(states[k], steps[k]) && forall m :: k < m < n ==> !Arms(steps[m]);
      assert forall m :: k < m < n + 1 ==> !Arms(steps[m]);
    }
    if DisarmedSince(states, steps, i, n + 1) {
      var k :| i <= k < n + 1 && StaleClose(states[k], steps[k]) && forall m :: k < m < n + 1 ==> !Arms(steps[m]);
    }
  }
}
