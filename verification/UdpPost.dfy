/** What the broker puts into the hands of the UDP socket's write actor over whole runs. */
module UdpPost {
  import opened Wrappers
  import opened Messages
  import opened System
  import opened SystemInvariant
  import opened Announcements
  import PT = PeerTable
  import S = Server
  import SS = ServerSound
  import SL = ServerLog
  import W = WriteActor

  /** The message, if any, that a step has for the UDP socket's write actor: the answer to a Hello, a
      message to a peer whose UDP address is on record, a copy of an announcement or heartbeat, or the
      flush that ends one. */
  function Posted(s: S.Server, b: S.Step): Option<W.Msg<Letter>>
    requires S.Enabled(s, b)
  {
    match b
    case UdpItem =>
      var d := s.udpIn.out[0];
      if d.frame.Ok? && d.frame.value.Hello? && PT.Greeter(s.t, d.frame.value.uuid).Some?
      then Some(W.Send((UdpFromServer.Welcome, d.from))) else None
    case Handle(ToPeerUdp(uid, msg)) =>
      if uid in s.t.peers && s.t.peers[uid].udp.Some?
      then Some(W.Send((UdpFromServer.App(msg), s.t.peers[uid].udp.value))) else None
    case TellPeer(uid) => if s.phase.TellUdp? then Some(W.Feed((s.phase.udp, s.t.peers[uid].tcp))) else None
    case TellDone => if s.phase.TellUdp? then Some(W.Flush) else None
    case _ => None
  }

  /** The UDP writer after a step of the broker. */
  function UdpOutAfter(s: S.Server, b: S.Step): S.UdpWriter
    requires S.Enabled(s, b)
  {
    if Posted(s, b).Some? then W.Offer(s.udpOut, Posted(s, b).value)
    else if b.UdpWriterEnd? then W.Report(s.udpOut)
    else s.udpOut
  }

  lemma DropKeepsUdp(s: S.Server, d: S.Drop)
    requires S.Staffed(s)
    ensures S.DropPeer(s, d).udpOut == s.udpOut
  {
  }

  lemma HeadPosts(s: S.Server)
    requires |s.toDrop| <= 1 && S.Staffed(s) && S.Enabled(s, S.LoopHead)
    ensures S.Apply(s, S.LoopHead).udpOut == s.udpOut
  {
    SS.DropAllOne(s);
    if s.toDrop != [] {
      DropKeepsUdp(s.(toDrop := []), s.toDrop[0]);
    }
  }

  lemma ItemPosts(s: S.Server, b: S.Step)
    requires S.Staffed(s) && S.Enabled(s, b) && (b.TcpItem? || b.UdpItem?)
    ensures S.Apply(s, b).udpOut == UdpOutAfter(s, b)
  {
  }

  lemma EndPosts(s: S.Server, b: S.Step)
    requires S.Staffed(s) && S.Enabled(s, b)
    requires b.TcpReaderEnd? || b.TcpWriterEnd? || b.UdpReaderEnd? || b.UdpWriterEnd?
    ensures S.Apply(s, b).udpOut == UdpOutAfter(s, b)
  {
  }

  lemma OtherPosts(s: S.Server, b: S.Step)
    requires S.Staffed(s) && S.Enabled(s, b)
    requires b.Connection? || b.FailedConnection? || b.GoneConnection? || b.HeartbeatTick? || b.HandlesDropped? || b.ListenerEnd?
      || b.Handle? || b.TellPeer? || b.TellDone?
    ensures S.Apply(s, b).udpOut == UdpOutAfter(s, b)
  {
  }

  lemma StepPosts(s: S.Server, b: S.Step)
    requires |s.toDrop| <= 1 && S.Staffed(s) && S.Enabled(s, b)
    ensures S.Apply(s, b).udpOut == UdpOutAfter(s, b)
  {
    match b
    case LoopHead => HeadPosts(s);
    case TcpItem(_) => ItemPosts(s, b);
    case UdpItem => ItemPosts(s, b);
    case TcpReaderEnd(_) => EndPosts(s, b);
    case TcpWriterEnd(_) => EndPosts(s, b);
    case UdpReaderEnd => EndPosts(s, b);
    case UdpWriterEnd => EndPosts(s, b);
    case _ => OtherPosts(s, b);
  }

  /** A message for the writer is no letter, or a letter to one of these addresses. */
  ghost predicate For(m: W.Msg<Letter>, addrOf: map<Uid, Addr>) {
    (m.Send? || m.Feed?) && exists u :: u in addrOf && addrOf[u] == m.item.1
  }

  ghost predicate AllAddressed(w: S.UdpWriter, addrOf: map<Uid, Addr>) {
    forall m :: m in W.Accepted(w) ==> m.Flush? || For(m, addrOf)
  }

  /** Whatever the broker posts is for the TCP address of a peer connected at the time. */
  lemma PostedToPeer(s: S.Server, b: S.Step)
    requires PT.Exact(s.t) && SL.UdpIsTcp(s.t) && S.Enabled(s, b) && SL.Surroundings(s, b) && Posted(s, b).Some?
    ensures var m := Posted(s, b).value; m.Flush? || ((m.Send? || m.Feed?) && m.item.1 in s.t.byTcp)
  {
  }

  lemma MoreAddresses(w: S.UdpWriter, before: map<Uid, Addr>, after: map<Uid, Addr>)
    requires AllAddressed(w, before) && forall u :: u in before ==> u in after && after[u] == before[u]
    ensures AllAddressed(w, after)
  {
    forall m | m in W.Accepted(w) && !m.Flush? ensures For(m, after) {
      var u :| u in before && before[u] == m.item.1;
      assert u in after && after[u] == m.item.1;
    }
  }

  /** Posting to an address that is on record. */
  lemma PostAddressed(s: S.Server, b: S.Step, addrOf: map<Uid, Addr>)
    requires S.Enabled(s, b) && AllAddressed(s.udpOut, addrOf)
    requires Posted(s, b).Some? && !Posted(s, b).value.Flush? ==> For(Posted(s, b).value, addrOf)
    ensures AllAddressed(UdpOutAfter(s, b), addrOf)
  {
    if Posted(s, b).Some? {
      W.OfferAccepted(s.udpOut, Posted(s, b).value);
    } else {
      assert W.Accepted(UdpOutAfter(s, b)) == W.Accepted(s.udpOut);
    }
  }

  lemma SurroundingsAt(states: seq<Sys>, actions: seq<Action>, maxConnections: nat, i: nat)
    requires IsRun(states, actions, maxConnections) && i < |actions| && actions[i].Broker?
    ensures S.Enabled(states[i].srv, actions[i].b) && SL.Surroundings(states[i].srv, actions[i].b)
  {
    RunInv(states, actions, maxConnections, i);
    assert StepAt(states, actions, i);
    SurroundingsHold(states[i], actions[i]);
  }

  lemma PostedFor(states: seq<Sys>, actions: seq<Action>, maxConnections: nat, i: nat)
    requires IsRun(states, actions, maxConnections) && i < |actions| && actions[i].Broker?
    ensures S.Enabled(states[i].srv, actions[i].b)
    ensures var m := Posted(states[i].srv, actions[i].b); m.Some? && !m.value.Flush? ==> For(m.value, states[i].addrOf)
  {
    SurroundingsAt(states, actions, maxConnections, i);
    TableAt(states, actions, maxConnections, i);
    RegistryAt(states, actions, maxConnections, i);
    var s := states[i].srv;
    var m := Posted(s, actions[i].b);
    if m.Some? && !m.value.Flush? {
      PostedToPeer(s, actions[i].b);
      var u := s.t.byTcp[m.value.item.1];
      assert u in states[i].addrOf && states[i].addrOf[u] == m.value.item.1;
    }
  }

  /** Addresses are only ever added to the history. */
  lemma AddressesStay(states: seq<Sys>, actions: seq<Action>, maxConnections: nat, i: nat)
    requires IsRun(states, actions, maxConnections) && i < |actions|
    ensures forall u :: u in states[i].addrOf ==> u in states[i+1].addrOf && states[i+1].addrOf[u] == states[i].addrOf[u]
  {
    if actions[i].Broker? {
      BrokerAt(states, actions, maxConnections, i);
      RegistryAt(states, actions, maxConnections, i);
    } else {
      OthersAt(states, actions, maxConnections, i);
    }
  }

  lemma OthersPostNothing(s: Sys, a: Action)
    requires !a.Broker? && Possible(s, a)
    ensures W.Accepted(Apply(s, a).srv.udpOut) == W.Accepted(s.srv.udpOut)
  {
    if a.ServerUdpWriter? {
      W.StepFrame(s.srv.udpOut, a.w);
    } else if AtClient(a) {
      ClientSide(s, a);
    }
  }

  /** The writer's next state, with the addresses known so far. */
  lemma AddressedStep(states: seq<Sys>, actions: seq<Action>, maxConnections: nat, i: nat)
    requires IsRun(states, actions, maxConnections) && i < |actions|
    requires AllAddressed(states[i].srv.udpOut, states[i].addrOf)
    ensures AllAddressed(states[i+1].srv.udpOut, states[i].addrOf)
  {
    if actions[i].Broker? {
      PostedFor(states, actions, maxConnections, i);
      PostAddressed(states[i].srv, actions[i].b, states[i].addrOf);
      BrokerAt(states, actions, maxConnections, i);
      AgendaAt(states, actions, maxConnections, i);
      StepPosts(states[i].srv, actions[i].b);
    } else {
      OthersAt(states, actions, maxConnections, i);
      OthersPostNothing(states[i], actions[i]);
    }
  }

  lemma AddressedAt(states: seq<Sys>, actions: seq<Action>, maxConnections: nat, i: nat)
    requires IsRun(states, actions, maxConnections) && i < |actions|
    requires AllAddressed(states[i].srv.udpOut, states[i].addrOf)
    ensures AllAddressed(states[i+1].srv.udpOut, states[i+1].addrOf)
  {
    AddressedStep(states, actions, maxConnections, i);
    AddressesStay(states, actions, maxConnections, i);
    MoreAddresses(states[i+1].srv.udpOut, states[i].addrOf, states[i+1].addrOf);
  }

  lemma {:induction false} RunAddressed(states: seq<Sys>, actions: seq<Action>, maxConnections: nat, i: nat)
    requires IsRun(states, actions, maxConnections) && i < |states|
    ensures AllAddressed(states[i].srv.udpOut, states[i].addrOf)
  {
    if i > 0 {
      RunAddressed(states, actions, maxConnections, i - 1);
      AddressedAt(states, actions, maxConnections, i - 1);
    }
  }

  /** In every run, every datagram that the server ever wrote went to the TCP address of a connection
      that it had accepted, and was asked for as such. */
  lemma OnlyToPeers(states: seq<Sys>, actions: seq<Action>, maxConnections: nat, i: nat, l: Letter)
    requires IsRun(states, actions, maxConnections) && i < |states|
    requires l in states[i].srv.udpOut.wire
    ensures W.Asked(states[i].srv.udpOut, l)
    ensures exists u :: u in states[i].addrOf && states[i].addrOf[u] == l.1
  {
    RunInv(states, actions, maxConnections, i);
    RunAddressed(states, actions, maxConnections, i);
    W.WrittenAsked(states[i].srv.udpOut, l);
  }
}
