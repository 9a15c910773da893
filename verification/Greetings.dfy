/** Who has been greeted, over whole runs. */
module Greetings {
  import opened Wrappers
  import opened Messages
  import opened System
  import opened SystemInvariant
  import PT = PeerTable
  import S = Server
  import SE = ServerEffects
  import P = Projection
  import R = ReadActor

  /** A Hello with this UUID is among these datagrams. */
  predicate HelloIn(ds: seq<S.Datagram>, x: Uuid) {
    exists k :: 0 <= k < |ds| && ds[k].frame == Ok(Hello(x))
  }

  /** u, who has this UUID, is connected and greeted exactly if a Hello with it was received. */
  ghost predicate GreetedRightly(t: PT.Table, ds: seq<S.Datagram>, u: Uid, x: Uuid) {
    u in t.peers ==> (t.peers[u].udp.Some? <==> HelloIn(ds, x))
  }

  lemma OneMore(ds: seq<S.Datagram>, d: S.Datagram, x: Uuid)
    ensures HelloIn(ds + [d], x) <==> HelloIn(ds, x) || d.frame == Ok(Hello(x))
  {
    var es := ds + [d];
    if HelloIn(ds, x) {
      var k :| 0 <= k < |ds| && ds[k].frame == Ok(Hello(x));
      assert es[k].frame == Ok(Hello(x));
    }
    if d.frame == Ok(Hello(x)) {
      assert es[|ds|].frame == Ok(Hello(x));
    }
  }

  /** A datagram that is taken greets u exactly if it is a Hello with the UUID of u. */
  lemma ItemGreets(s: S.Server, u: Uid, x: Uuid)
    requires S.Enabled(s, S.UdpItem) && PT.UuidExact(s.t) && (u in s.t.peers ==> s.t.peers[u].uuid == x)
    requires GreetedRightly(s.t, s.udpIn.taken, u, x)
    ensures GreetedRightly(SE.TableAfter(s, S.UdpItem), s.udpIn.taken + [s.udpIn.out[0]], u, x)
  {
    OneMore(s.udpIn.taken, s.udpIn.out[0], x);
  }

  lemma OthersGreetNobody(s: S.Server, b: S.Step, u: Uid)
    requires S.Enabled(s, b) && !b.UdpItem? && u < s.t.nextUid
    ensures var t := SE.TableAfter(s, b); u in t.peers ==> u in s.t.peers && t.peers[u].udp == s.t.peers[u].udp
  {
  }

  /** A UUID that is drawn has not been presented before. */
  lemma DrawnIsUnheard(states: seq<Sys>, actions: seq<Action>, maxConnections: nat, i: nat)
    requires IsRun(states, actions, maxConnections) && i < |actions| && Accepts(states[i], actions[i])
    ensures !HelloIn(states[i].srv.udpIn.taken, actions[i].b.uuid)
  {
    BrokerAt(states, actions, maxConnections, i);
    HellosAt(states, actions, maxConnections, i);
    var s, x := states[i], actions[i].b.uuid;
    var ds := s.srv.udpIn.taken;
    assert forall k :: 0 <= k < |ds| ==> ds[k] in ds && HelloAllowed(ds[k], s.uuidOf, s.addrOf, s.strange);
  }

  lemma HellosAt(states: seq<Sys>, actions: seq<Action>, maxConnections: nat, i: nat)
    requires IsRun(states, actions, maxConnections) && i < |states|
    ensures var s := states[i]; HellosAllowed(s.srv.udpIn.taken, s.uuidOf, s.addrOf, s.strange)
  {
    RunInv(states, actions, maxConnections, i);
    R.ReaderLaw(states[i].srv.udpIn);
    PrefixAllowed(states[i].srv.udpIn.taken, states[i].srv.udpIn.input, states[i].uuidOf, states[i].addrOf, states[i].strange);
  }

  lemma PrefixAllowed(a: seq<S.Datagram>, b: seq<S.Datagram>, uuidOf: map<Uid, Uuid>, addrOf: map<Uid, Addr>, strange: set<Uuid>)
    requires a <= b && HellosAllowed(b, uuidOf, addrOf, strange)
    ensures HellosAllowed(a, uuidOf, addrOf, strange)
  {
  }

  ghost predicate Rightly(s: Sys, u: Uid) {
    u in s.uuidOf ==> GreetedRightly(s.srv.t, s.srv.udpIn.taken, u, s.uuidOf[u])
  }

  lemma BrokerRightly(states: seq<Sys>, actions: seq<Action>, maxConnections: nat, u: Uid, i: nat)
    requires IsRun(states, actions, maxConnections) && i < |actions| && actions[i].Broker?
    requires u in states[i].uuidOf && Rightly(states[i], u)
    ensures Rightly(states[i+1], u)
  {
    BrokerAt(states, actions, maxConnections, i);
    TableAt(states, actions, maxConnections, i);
    Own(states, actions, maxConnections, u, i);
    var s, b := states[i].srv, actions[i].b;
    if b.UdpItem? {
      ItemGreets(s, u, states[i].uuidOf[u]);
    } else {
      OthersGreetNobody(s, b, u);
    }
  }

  lemma Own(states: seq<Sys>, actions: seq<Action>, maxConnections: nat, u: Uid, i: nat)
    requires IsRun(states, actions, maxConnections) && i < |states| && u in states[i].uuidOf
    ensures u < states[i].srv.t.nextUid
    ensures u in states[i].srv.t.peers ==> states[i].srv.t.peers[u].uuid == states[i].uuidOf[u]
  {
    RegistryAt(states, actions, maxConnections, i);
  }

  lemma NewcomerRightly(states: seq<Sys>, actions: seq<Action>, maxConnections: nat, u: Uid, i: nat)
    requires IsRun(states, actions, maxConnections) && i < |actions| && actions[i].Broker? && u !in states[i].uuidOf
    ensures Rightly(states[i+1], u)
  {
    BrokerAt(states, actions, maxConnections, i);
    if u in states[i+1].uuidOf {
      DrawnIsUnheard(states, actions, maxConnections, i);
    }
  }

  lemma RightlyAt(states: seq<Sys>, actions: seq<Action>, maxConnections: nat, u: Uid, i: nat)
    requires IsRun(states, actions, maxConnections) && 0 < i < |states| && Rightly(states[i-1], u)
    ensures Rightly(states[i], u)
  {
    if !actions[i-1].Broker? {
      OthersAt(states, actions, maxConnections, i - 1);
      P.OthersTake(states[i-1], actions[i-1]);
    } else if u in states[i-1].uuidOf {
      BrokerRightly(states, actions, maxConnections, u, i - 1);
    } else {
      NewcomerRightly(states, actions, maxConnections, u, i - 1);
    }
  }

  lemma {:induction false} AllRightly(states: seq<Sys>, actions: seq<Action>, maxConnections: nat, u: Uid, i: nat)
    requires IsRun(states, actions, maxConnections) && i < |states|
    ensures Rightly(states[i], u)
    decreases i
  {
    if i > 0 {
      AllRightly(states, actions, maxConnections, u, i - 1);
      RightlyAt(states, actions, maxConnections, u, i);
    }
  }

  /** In every run a connected peer has a UDP address on record if and only if the broker has received a
      Hello with the UUID that was drawn for it, and that address is its TCP address. */
  lemma GreetedExactly(states: seq<Sys>, actions: seq<Action>, maxConnections: nat, i: nat, u: Uid)
    requires IsRun(states, actions, maxConnections) && i < |states| && u in states[i].srv.t.peers
    ensures u in states[i].uuidOf && u in states[i].addrOf
    ensures var s := states[i];
      s.srv.t.peers[u].udp == if HelloIn(s.srv.udpIn.taken, s.uuidOf[u]) then Some(s.addrOf[u]) else None
  {
    AllRightly(states, actions, maxConnections, u, i);
    RegistryAt(states, actions, maxConnections, i);
    TableAt(states, actions, maxConnections, i);
  }
}
