/** To whom the broker attributes UDP messages, over whole runs. */
module Attribution {
  import opened Wrappers
  import opened Messages
  import opened System
  import opened SystemInvariant
  import PT = PeerTable
  import S = Server
  import SE = ServerEffects
  import SL = ServerLog

  /** u is connected, and was greeted at this address. */
  predicate Greeted(t: PT.Table, u: Uid, from: Addr) {
    u in t.peers && t.peers[u].udp == Some(from)
  }

  /** The message that the broker takes from the UDP socket with this step, if any. */
  function Taken(s: S.Server, b: S.Step): Option<(Text, Addr)>
    requires S.Enabled(s, b)
  {
    if b.UdpItem? && s.udpIn.out[0].frame.Ok? && s.udpIn.out[0].frame.value.App?
    then Some((s.udpIn.out[0].frame.value.msg, s.udpIn.out[0].from)) else None
  }

  predicate Attributes(s: S.Server, b: S.Step, u: Uid, msg: Text)
    requires S.Enabled(s, b)
  {
    Taken(s, b).Some? && Taken(s, b).value.0 == msg && Greeted(s.t, u, Taken(s, b).value.1)
  }

  /** A step logs a UDP message if and only if it takes one from an address at which a connected peer was
      greeted, and then it is of that peer. */
  lemma StepAttributes(s: S.Server, b: S.Step, u: Uid, msg: Text)
    requires S.Enabled(s, b) && PT.UdpExact(s.t)
    ensures SE.TableAfter(s, b).log == s.t.log + [UdpMessage(u, msg)] <==> Attributes(s, b, u, msg)
  {
    var log := SE.TableAfter(s, b).log;
    if log != s.t.log {
      assert log == s.t.log + [log[|s.t.log|]];
      assert (s.t.log + [UdpMessage(u, msg)])[|s.t.log|] == UdpMessage(u, msg);
    }
  }

  lemma NextAttributes(states: seq<Sys>, actions: seq<Action>, maxConnections: nat, i: nat, u: Uid, msg: Text)
    requires IsRun(states, actions, maxConnections) && i < |actions|
    ensures states[i+1].srv.t.log == states[i].srv.t.log + [UdpMessage(u, msg)] <==>
              actions[i].Broker? && S.Enabled(states[i].srv, actions[i].b) && Attributes(states[i].srv, actions[i].b, u, msg)
  {
    if actions[i].Broker? {
      BrokerAt(states, actions, maxConnections, i);
      TableAt(states, actions, maxConnections, i);
      StepAttributes(states[i].srv, actions[i].b, u, msg);
    } else {
      OthersAt(states, actions, maxConnections, i);
      assert |states[i].srv.t.log + [UdpMessage(u, msg)]| == |states[i].srv.t.log| + 1;
    }
  }

  /** At most one event is added at a time. */
  lemma LogGrows(states: seq<Sys>, actions: seq<Action>, maxConnections: nat, i: nat)
    requires IsRun(states, actions, maxConnections) && i < |actions|
    ensures var before, after := states[i].srv.t.log, states[i+1].srv.t.log;
      |before| <= |after| <= |before| + 1 && after[..|before|] == before
  {
    if actions[i].Broker? {
      BrokerAt(states, actions, maxConnections, i);
      SL.StepAppends(states[i].srv, actions[i].b);
    } else {
      OthersAt(states, actions, maxConnections, i);
    }
  }

  /** The TCP address of whoever is greeted is on record. */
  lemma GreetedAt(states: seq<Sys>, actions: seq<Action>, maxConnections: nat, i: nat, u: Uid, from: Addr)
    requires IsRun(states, actions, maxConnections) && i < |states| && Greeted(states[i].srv.t, u, from)
    ensures u in states[i].addrOf && states[i].addrOf[u] == from
  {
    TableAt(states, actions, maxConnections, i);
    RegistryAt(states, actions, maxConnections, i);
  }

  /** With this action the broker receives this message in a datagram from the TCP address of u, who is
      connected and was greeted there. */
  ghost predicate Received(s: Sys, a: Action, u: Uid, msg: Text) {
    && a.Broker? && S.Enabled(s.srv, a.b)
    && u in s.addrOf && Taken(s.srv, a.b) == Some((msg, s.addrOf[u])) && Greeted(s.srv.t, u, s.addrOf[u])
  }

  /** In every run, a message received so is logged as one of u, and no other is: not if it came from
      another address, nor while u is not connected or not greeted. */
  lemma ReceivedIsLogged(states: seq<Sys>, actions: seq<Action>, maxConnections: nat, i: nat, u: Uid, msg: Text)
    requires IsRun(states, actions, maxConnections) && i < |actions|
    ensures Received(states[i], actions[i], u, msg) <==>
              states[i+1].srv.t.log == states[i].srv.t.log + [UdpMessage(u, msg)]
  {
    NextAttributes(states, actions, maxConnections, i, u, msg);
    if actions[i].Broker? && S.Enabled(states[i].srv, actions[i].b) && Attributes(states[i].srv, actions[i].b, u, msg) {
      GreetedAt(states, actions, maxConnections, i, u, Taken(states[i].srv, actions[i].b).value.1);
    }
  }

  /** Every UDP message that the log of any run attributes to u was received in a datagram from the TCP
      address of u while u was connected and greeted, when the log was as it is before the message. */
  lemma {:induction false} EveryUdpMessageReceived(states: seq<Sys>, actions: seq<Action>, maxConnections: nat, i: nat, k: nat, u: Uid, msg: Text)
      returns (j: nat)
    requires IsRun(states, actions, maxConnections) && i < |states|
    requires k < |states[i].srv.t.log| && states[i].srv.t.log[k] == UdpMessage(u, msg)
    ensures j < i && Received(states[j], actions[j], u, msg) && states[j].srv.t.log == states[i].srv.t.log[..k]
    decreases i
  {
    assert i > 0;
    LogGrows(states, actions, maxConnections, i - 1);
    var before, after := states[i-1].srv.t.log, states[i].srv.t.log;
    if k < |before| {
      assert before[k] == after[..|before|][k];
      j := EveryUdpMessageReceived(states, actions, maxConnections, i - 1, k, u, msg);
      assert before[..k] == after[..k];
    } else {
      j := i - 1;
      assert after == before + [UdpMessage(u, msg)];
      ReceivedIsLogged(states, actions, maxConnections, i - 1, u, msg);
    }
  }
}
