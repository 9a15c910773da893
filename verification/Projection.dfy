/** What the server tells each client over TCP, as a projection of the run; and how many
    acknowledgements that can include. */
module Projection {
  import opened Wrappers
  import opened Messages
  import opened System
  import opened SystemInvariant
  import PT = PeerTable
  import S = Server
  import SA = ServerActors
  import SS = ServerSound
  import SE = ServerEffects
  import R = ReadActor
  import W = WriteActor

  /** Every item that the write actor of u was given to write before it was told to stop. */
  function OwedTo(s: Sys, u: Uid): seq<TcpFromServer> {
    OwedIn(s.srv.writers, u)
  }

  function OwedIn(ws: map<Uid, S.TcpWriter>, u: Uid): seq<TcpFromServer> {
    if u in ws then W.Owed(W.Accepted(ws[u])) else []
  }

  /** What an action tells u, by what the action is: the Welcome of the connection it accepts, a message
      to this peer, an announcement reaching it, or the acknowledgement of its Hello; nothing if the
      write actor refuses it. */
  function Told(s: Sys, a: Action, u: Uid): seq<TcpFromServer>
    requires a.Broker? ==> S.Enabled(s.srv, a.b)
  {
    if a.Broker? then ToldBy(s.srv, a.b, u) else []
  }

  function ToldBy(s: S.Server, b: S.Step, u: Uid): seq<TcpFromServer>
    requires S.Enabled(s, b)
  {
    if SE.Accepts(s, b) && u == s.t.nextUid then [TcpFromServer.Welcome(b.uuid)]
    else
      match SE.Offered(s, b)
      case None => []
      case Some((v, m)) => if v == u && u in s.writers && W.HasRoom(s.writers[u]) then [m] else []
  }

  lemma {:induction false} OfferOwed<T>(w: W.Writer<T>, m: W.Msg<T>)
    requires W.Shutdown !in W.Accepted(w)
    ensures W.Owed(W.Accepted(W.Offer(w, m))) ==
            W.Owed(W.Accepted(w)) + if W.HasRoom(w) && (m.Send? || m.Feed?) then [m.item] else []
  {
    W.OfferAccepted(w, m);
    W.OwedAppend(W.Accepted(w), [m]);
    assert [m][1..] == [];
  }

  lemma NewWriterOwed(x: Uuid)
    ensures W.Owed(W.Accepted(W.Offer(W.Spawn(), W.Send(TcpFromServer.Welcome(x))))) == [TcpFromServer.Welcome(x)]
  {
    OfferOwed(W.Spawn<TcpFromServer>(), W.Send(TcpFromServer.Welcome(x)));
    assert W.Accepted(W.Spawn<TcpFromServer>()) == [];
  }

  /** The writer of a connected peer was not told to stop. */
  lemma ConnectedWriterOpen(s: S.Server, u: Uid)
    requires SA.Actors(s) && u in s.t.peers
    ensures u in s.writers && W.Shutdown !in W.Accepted(s.writers[u])
  {
    assert u in s.readers && SA.ActorsOk(true, s.readers[u], s.writers[u]);
  }

  lemma PeerTold(s: S.Server, u: Uid, m: W.Msg<TcpFromServer>)
    requires SA.Actors(s) && u in s.t.peers
    ensures u in s.writers
    ensures W.Owed(W.Accepted(W.Offer(s.writers[u], m))) ==
            W.Owed(W.Accepted(s.writers[u])) + if W.HasRoom(s.writers[u]) && (m.Send? || m.Feed?) then [m.item] else []
  {
    ConnectedWriterOpen(s, u);
    OfferOwed(s.writers[u], m);
  }

  lemma OfferedConnected(s: S.Server, b: S.Step)
    requires S.Enabled(s, b) && SE.Offered(s, b).Some?
    ensures SE.Offered(s, b).value.0 in s.t.peers
    ensures !SE.Accepts(s, b) && SE.Dropped(s, b).None? && !b.TcpWriterEnd?
  {
  }

  lemma DropTells(s: S.Server, b: S.Step, u: Uid)
    requires SA.Actors(s) && S.Enabled(s, b) && SE.Dropped(s, b).Some?
    ensures OwedIn(SE.WritersAfter(s, b), u) == OwedIn(s.writers, u) + ToldBy(s, b, u)
  {
    PeerTold(s, s.toDrop[0].uid, W.Shutdown);
  }

  lemma AcceptTells(s: S.Server, b: S.Step, u: Uid)
    requires S.Staffed(s) && S.Enabled(s, b) && SE.Accepts(s, b) && s.t.nextUid !in s.writers
    ensures OwedIn(SE.WritersAfter(s, b), u) == OwedIn(s.writers, u) + ToldBy(s, b, u)
  {
    NewWriterOwed(b.uuid);
  }

  lemma OfferTells(s: S.Server, b: S.Step, u: Uid)
    requires SA.Actors(s) && S.Enabled(s, b) && SE.Offered(s, b).Some?
    ensures OwedIn(SE.WritersAfter(s, b), u) == OwedIn(s.writers, u) + ToldBy(s, b, u)
  {
    OfferedConnected(s, b);
    var (p, m) := SE.Offered(s, b).value;
    OfferedSends(s, b);
    PeerTold(s, p, W.Send(m));
  }

  lemma OfferedSends(s: S.Server, b: S.Step)
    requires S.Staffed(s) && S.Enabled(s, b) && SE.Offered(s, b).Some?
    requires !SE.Accepts(s, b) && SE.Dropped(s, b).None? && !b.TcpWriterEnd?
    ensures var (p, m) := SE.Offered(s, b).value;
      p in s.writers && SE.WritersAfter(s, b) == s.writers[p := W.Offer(s.writers[p], W.Send(m))]
  {
  }

  lemma ElseTellsNothing(s: S.Server, b: S.Step, u: Uid)
    requires S.Staffed(s) && S.Enabled(s, b)
    requires SE.Dropped(s, b).None? && !SE.Accepts(s, b) && SE.Offered(s, b).None?
    ensures OwedIn(SE.WritersAfter(s, b), u) == OwedIn(s.writers, u) && ToldBy(s, b, u) == []
  {
  }

  lemma ServerTells(s: S.Server, b: S.Step, u: Uid)
    requires SA.Actors(s) && S.Enabled(s, b)
    ensures OwedIn(SE.WritersAfter(s, b), u) == OwedIn(s.writers, u) + ToldBy(s, b, u)
  {
    if SE.Dropped(s, b).Some? {
      DropTells(s, b, u);
    } else if SE.Accepts(s, b) {
      AcceptTells(s, b, u);
    } else if SE.Offered(s, b).Some? {
      OfferTells(s, b, u);
    } else {
      ElseTellsNothing(s, b, u);
    }
  }

  lemma OthersTold(s: Sys, a: Action, u: Uid)
    requires !a.Broker? && Possible(s, a)
    ensures OwedTo(Apply(s, a), u) == OwedTo(s, u)
  {
    if a.ServerWriter? {
      W.StepFrame(s.srv.writers[a.uid], a.w);
    }
  }

  /** In every run, what the write actor of u accepted grows with each action by exactly what that
      action tells u. */
  lemma StepTold(states: seq<Sys>, actions: seq<Action>, maxConnections: nat, u: Uid, i: nat)
    requires IsRun(states, actions, maxConnections) && i < |actions|
    ensures actions[i].Broker? ==> S.Enabled(states[i].srv, actions[i].b)
    ensures OwedTo(states[i+1], u) == OwedTo(states[i], u) + Told(states[i], actions[i], u)
  {
    if actions[i].Broker? {
      BrokerAt(states, actions, maxConnections, i);
      ActorsAt(states, actions, maxConnections, i);
      ServerTells(states[i].srv, actions[i].b, u);
    } else {
      OthersAt(states, actions, maxConnections, i);
      OthersTold(states[i], actions[i], u);
    }
  }

  /** All that the first i actions of a run tell u. */
  ghost function ToldDuring(states: seq<Sys>, actions: seq<Action>, maxConnections: nat, u: Uid, i: nat): seq<TcpFromServer>
    requires IsRun(states, actions, maxConnections) && i <= |actions|
  {
    if i == 0 then []
    else
      assert StepAt(states, actions, i - 1);
      ToldDuring(states, actions, maxConnections, u, i - 1) + Told(states[i-1], actions[i-1], u)
  }

  // ---- The Welcome comes first ----

  ghost predicate FirstIsWelcome(owed: seq<TcpFromServer>, next: Uid, uuidOf: map<Uid, Uuid>, u: Uid) {
    if u < next then u in uuidOf && [TcpFromServer.Welcome(uuidOf[u])] <= owed else owed == []
  }

  ghost predicate WelcomedFirst(s: Sys, u: Uid) {
    FirstIsWelcome(OwedTo(s, u), s.srv.t.nextUid, s.uuidOf, u)
  }

  lemma UnissuedUntold(s: S.Server, b: S.Step, u: Uid)
    requires SA.Actors(s) && S.Enabled(s, b) && u >= s.t.nextUid
    ensures ToldBy(s, b, u) == if SE.Accepts(s, b) && u == s.t.nextUid then [TcpFromServer.Welcome(b.uuid)] else []
  {
    assert u !in s.writers;
  }

  lemma StaysFirst(s: S.Server, b: S.Step, uuidOf: map<Uid, Uuid>, u: Uid, owed: seq<TcpFromServer>)
    requires SA.Actors(s) && S.Enabled(s, b) && FirstIsWelcome(owed, s.t.nextUid, uuidOf, u)
    ensures FirstIsWelcome(owed + ToldBy(s, b, u), SE.NextAfter(s, b),
                           if SE.Accepts(s, b) then uuidOf[s.t.nextUid := b.uuid] else uuidOf, u)
  {
    if u >= s.t.nextUid {
      UnissuedUntold(s, b, u);
    }
  }

  lemma WelcomedAt(states: seq<Sys>, actions: seq<Action>, maxConnections: nat, u: Uid, i: nat)
    requires IsRun(states, actions, maxConnections) && i < |actions| && WelcomedFirst(states[i], u)
    ensures WelcomedFirst(states[i+1], u)
  {
    StepTold(states, actions, maxConnections, u, i);
    if actions[i].Broker? {
      BrokerAt(states, actions, maxConnections, i);
      ActorsAt(states, actions, maxConnections, i);
      SE.StepConnected(states[i].srv, actions[i].b);
      StaysFirst(states[i].srv, actions[i].b, states[i].uuidOf, u, OwedTo(states[i], u));
    } else {
      OthersAt(states, actions, maxConnections, i);
    }
  }

  /** What each peer's write actor accepted is exactly what the run told that peer, in order; and the
      first of it is the Welcome with that peer's own UUID. */
  lemma {:induction false} ProjectionOfRun(states: seq<Sys>, actions: seq<Action>, maxConnections: nat, u: Uid, i: nat)
    requires IsRun(states, actions, maxConnections) && i <= |actions|
    ensures OwedTo(states[i], u) == ToldDuring(states, actions, maxConnections, u, i)
    ensures WelcomedFirst(states[i], u)
  {
    if i > 0 {
      ProjectionOfRun(states, actions, maxConnections, u, i - 1);
      StepTold(states, actions, maxConnections, u, i - 1);
      WelcomedAt(states, actions, maxConnections, u, i - 1);
    }
  }

  // ---- Acknowledgements and Hellos ----

  function AckItems(ms: seq<TcpFromServer>): nat {
    if ms == [] then 0 else AckItems(ms[..|ms|-1]) + if ms[|ms|-1].UdpHandshakeAcknowledged? then 1 else 0
  }

  /** How many Hellos with this UUID the broker has received. */
  function Hellos(ds: seq<S.Datagram>, x: Uuid): nat {
    if ds == [] then 0
    else Hellos(ds[..|ds|-1], x) + if ds[|ds|-1].frame == Ok(Hello(x)) then 1 else 0
  }

  lemma {:induction false} AckItemsAppend(a: seq<TcpFromServer>, b: seq<TcpFromServer>)
    ensures AckItems(a + b) == AckItems(a) + AckItems(b)
    decreases |b|
  {
    if b == [] {
      assert a + b == a;
    } else {
      assert (a + b)[..|a + b|-1] == a + b[..|b|-1];
      AckItemsAppend(a, b[..|b|-1]);
    }
  }

  lemma {:induction false} HellosSnoc(ds: seq<S.Datagram>, d: S.Datagram, x: Uuid)
    ensures Hellos(ds + [d], x) == Hellos(ds, x) + if d.frame == Ok(Hello(x)) then 1 else 0
  {
    assert (ds + [d])[..|ds|] == ds;
  }

  /** A peer is told of at most as many acknowledgements as Hellos with its UUID were received. */
  ghost predicate AcksBounded(s: Sys, u: Uid) {
    u in s.uuidOf ==> AckItems(OwedTo(s, u)) <= Hellos(s.srv.udpIn.taken, s.uuidOf[u])
  }

  /** Only a Hello with the UUID of u makes the broker acknowledge u. */
  lemma AckForHello(s: S.Server, b: S.Step, u: Uid, x: Uuid)
    requires PT.UuidExact(s.t) && SS.Agenda(s) && S.Enabled(s, b)
    requires SE.Offered(s, b) == Some((u, UdpHandshakeAcknowledged)) && (u in s.t.peers ==> s.t.peers[u].uuid == x)
    ensures b.UdpItem? && s.udpIn.out[0].frame == Ok(Hello(x))
  {
  }

  lemma ToldAcks(s: S.Server, b: S.Step, u: Uid)
    requires S.Enabled(s, b)
    ensures AckItems(ToldBy(s, b, u)) <= if SE.Offered(s, b) == Some((u, UdpHandshakeAcknowledged)) then 1 else 0
  {
    var ms := ToldBy(s, b, u);
    if |ms| == 1 {
      assert ms[..0] == [] && AckItems(ms) == AckItems(ms[..0]) + if ms[0].UdpHandshakeAcknowledged? then 1 else 0;
    }
  }

  lemma AckBound(s: S.Server, b: S.Step, u: Uid, x: Uuid)
    requires PT.UuidExact(s.t) && SS.Agenda(s) && S.Enabled(s, b) && (u in s.t.peers ==> s.t.peers[u].uuid == x)
    ensures AckItems(ToldBy(s, b, u)) <= if b.UdpItem? && s.udpIn.out[0].frame == Ok(Hello(x)) then 1 else 0
  {
    ToldAcks(s, b, u);
    if SE.Offered(s, b) == Some((u, UdpHandshakeAcknowledged)) {
      AckForHello(s, b, u, x);
    }
  }

  lemma BrokerReceives(s: S.Server, b: S.Step, v: S.Server, x: Uuid)
    requires S.Enabled(s, b) && S.Staffed(s) && SE.Effect(s, b, v)
    ensures Hellos(v.udpIn.taken, x) ==
            Hellos(s.udpIn.taken, x) + if b.UdpItem? && s.udpIn.out[0].frame == Ok(Hello(x)) then 1 else 0
  {
    if b.UdpItem? {
      HellosSnoc(s.udpIn.taken, s.udpIn.out[0], x);
    }
  }

  /** u is connected under its own UUID, if at all. */
  lemma UuidAt(states: seq<Sys>, actions: seq<Action>, maxConnections: nat, u: Uid, i: nat)
    requires IsRun(states, actions, maxConnections) && i < |states| && u in states[i].uuidOf
    ensures u in states[i].srv.t.peers ==> states[i].srv.t.peers[u].uuid == states[i].uuidOf[u]
    ensures u < states[i].srv.t.nextUid
  {
    RegistryAt(states, actions, maxConnections, i);
  }

  lemma BrokerAcks(states: seq<Sys>, actions: seq<Action>, maxConnections: nat, u: Uid, i: nat)
    requires IsRun(states, actions, maxConnections) && i < |actions| && actions[i].Broker?
    requires u in states[i].uuidOf && AcksBounded(states[i], u)
    ensures AcksBounded(states[i+1], u)
  {
    var s, b, x := states[i].srv, actions[i].b, states[i].uuidOf[u];
    UuidAt(states, actions, maxConnections, u, i);
    TableAt(states, actions, maxConnections, i);
    AgendaAt(states, actions, maxConnections, i);
    StepTold(states, actions, maxConnections, u, i);
    BrokerAt(states, actions, maxConnections, i);
    AckItemsAppend(OwedTo(states[i], u), ToldBy(s, b, u));
    AckBound(s, b, u, x);
    BrokerReceives(s, b, states[i+1].srv, x);
  }

  /** Whoever has just been accepted was told nothing but its Welcome. */
  lemma NewcomerAcks(states: seq<Sys>, actions: seq<Action>, maxConnections: nat, u: Uid, i: nat)
    requires IsRun(states, actions, maxConnections) && i < |actions| && actions[i].Broker?
    requires u !in states[i].uuidOf && WelcomedFirst(states[i], u)
    ensures AcksBounded(states[i+1], u)
  {
    RegistryAt(states, actions, maxConnections, i);
    ActorsAt(states, actions, maxConnections, i);
    StepTold(states, actions, maxConnections, u, i);
    UnissuedUntold(states[i].srv, actions[i].b, u);
    assert [TcpFromServer.Welcome(Uuid(0))][..0] == [];
    NoAckInWelcome(ToldBy(states[i].srv, actions[i].b, u));
  }

  lemma NoAckInWelcome(ms: seq<TcpFromServer>)
    requires ms == [] || (|ms| == 1 && ms[0].Welcome?)
    ensures AckItems(ms) == 0
  {
    if ms != [] {
      assert AckItems(ms[..0]) == 0;
    }
  }

  lemma AcksBoundedAt(states: seq<Sys>, actions: seq<Action>, maxConnections: nat, u: Uid, i: nat)
    requires IsRun(states, actions, maxConnections) && i < |actions| && AcksBounded(states[i], u)
    ensures AcksBounded(states[i+1], u)
  {
    if !actions[i].Broker? {
      OthersAt(states, actions, maxConnections, i);
      OthersTake(states[i], actions[i]);
      OthersTold(states[i], actions[i], u);
    } else if u in states[i].uuidOf {
      BrokerAcks(states, actions, maxConnections, u, i);
    } else {
      ProjectionOfRun(states, actions, maxConnections, u, i);
      NewcomerAcks(states, actions, maxConnections, u, i);
    }
  }

  lemma OthersTake(s: Sys, a: Action)
    requires !a.Broker? && Possible(s, a)
    ensures Apply(s, a).srv.udpIn.taken == s.srv.udpIn.taken
  {
    if a.ServerUdpReader? {
      R.StepFrame(s.srv.udpIn, a.r);
    }
  }

  lemma {:induction false} RunAcksBounded(states: seq<Sys>, actions: seq<Action>, maxConnections: nat, u: Uid, i: nat)
    requires IsRun(states, actions, maxConnections) && i <= |actions|
    ensures AcksBounded(states[i], u)
  {
    if i > 0 {
      RunAcksBounded(states, actions, maxConnections, u, i - 1);
      AcksBoundedAt(states, actions, maxConnections, u, i - 1);
    }
  }
}
