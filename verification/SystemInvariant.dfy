/** The invariant of the whole system, and its preservation by every action. */
module SystemInvariant {
  import opened Wrappers
  import opened Messages
  import opened System
  import PT = PeerTable
  import S = Server
  import SA = ServerActors
  import SS = ServerSound
  import SE = ServerEffects
  import SL = ServerLog
  import SI = ServerInvariant
  import C = Client
  import CE = ClientEvents
  import R = ReadActor
  import W = WriteActor

  // ---- Who has which UUID and address ----

  ghost predicate Registry(t: PT.Table, uuidOf: map<Uid, Uuid>, addrOf: map<Uid, Addr>, strange: set<Uuid>) {
    && (forall u: Uid :: u in uuidOf <==> u < t.nextUid)
    && (forall u: Uid :: u in addrOf <==> u < t.nextUid)
    && (forall u: Uid :: u in t.peers ==> u < t.nextUid && uuidOf[u] == t.peers[u].uuid && addrOf[u] == t.peers[u].tcp)
    && PT.Injective(uuidOf)
    && (forall u :: u in uuidOf ==> uuidOf[u] !in strange)
  }

  // ---- What the server told its clients ----

  /** Whoever is welcomed is welcomed with their own UUID. */
  ghost predicate OwnWelcome(ws: map<Uid, S.TcpWriter>, uuidOf: map<Uid, Uuid>) {
    forall u: Uid, x: Uuid :: u in ws && W.Asked(ws[u], TcpFromServer.Welcome(x)) ==>
      u in uuidOf && uuidOf[u] == x
  }

  /** A connected peer to whom an acknowledgement was addressed has its UDP address on record. */
  ghost predicate AckedHaveUdp(ws: map<Uid, S.TcpWriter>, peers: map<Uid, PT.Peer>) {
    forall u: Uid :: u in ws && u in peers && W.Asked(ws[u], UdpHandshakeAcknowledged) ==>
      peers[u].udp.Some?
  }

  // ---- The clients and the network ----

  ghost predicate ClientOk(c: C.Client) {
    C.ActorsOk(c) && C.Ready(c) && C.HelloEarned(c) && C.AcksEarned(c) && C.Carried(c)
    && CE.Heard(c) && CE.UdpCarried(c) && CE.Tidy(c)
  }

  ghost predicate ClientsOk(clients: map<Uid, C.Client>, addrOf: map<Uid, Addr>) {
    forall u: Uid :: u in clients ==> ClientOk(clients[u]) && u in addrOf && clients[u].addr == addrOf[u]
  }

  /** A stream has delivered, undamaged and in order, the first of the items written at its other end. */
  ghost predicate Delivers<T>(xs: seq<T>, fs: seq<Frame<T>>) {
    |fs| <= |xs| && forall i :: 0 <= i < |fs| ==> fs[i] == Ok(xs[i])
  }

  /** What was received is the same, except that an I/O error may come last. */
  ghost predicate Receives<T>(xs: seq<T>, fs: seq<Frame<T>>) {
    Delivers(xs, fs) || (fs != [] && fs[|fs|-1].Garbage? && Delivers(xs, fs[..|fs|-1]))
  }

  ghost predicate Conveys<T>(xs: seq<T>, r: R.Reader<Frame<T>>) {
    Receives(xs, r.input) && (r.ended || Delivers(xs, r.input))
  }

  ghost predicate Downlinks(clients: map<Uid, C.Client>, ws: map<Uid, S.TcpWriter>) {
    forall u: Uid :: u in clients ==> u in ws && Conveys(ws[u].wire, clients[u].tcpIn)
  }

  ghost predicate Uplinks(clients: map<Uid, C.Client>, rs: map<Uid, S.TcpReader>) {
    forall u: Uid :: u in clients ==> u in rs && Conveys(clients[u].tcpOut.wire, rs[u])
  }

  /** Every Hello that arrived carries a UUID that is nobody's, or comes from the address of the
      connection to which the UUID belongs. */
  ghost predicate HelloAllowed(d: S.Datagram, uuidOf: map<Uid, Uuid>, addrOf: map<Uid, Addr>, strange: set<Uuid>) {
    d.frame.Ok? && d.frame.value.Hello? ==>
      || d.frame.value.uuid in strange
      || exists u: Uid :: u in uuidOf && u in addrOf && uuidOf[u] == d.frame.value.uuid && addrOf[u] == d.from
  }

  ghost predicate HellosAllowed(input: seq<S.Datagram>, uuidOf: map<Uid, Uuid>, addrOf: map<Uid, Addr>, strange: set<Uuid>) {
    forall d :: d in input ==> HelloAllowed(d, uuidOf, addrOf, strange)
  }

  ghost predicate Inv(s: Sys) {
    && SI.Inv(s.srv)
    && Registry(s.srv.t, s.uuidOf, s.addrOf, s.strange)
    && OwnWelcome(s.srv.writers, s.uuidOf)
    && AckedHaveUdp(s.srv.writers, s.srv.t.peers)
    && ClientsOk(s.clients, s.addrOf)
    && Downlinks(s.clients, s.srv.writers)
    && Uplinks(s.clients, s.srv.readers)
    && HellosAllowed(s.srv.udpIn.input, s.uuidOf, s.addrOf, s.strange)
  }

  lemma StartInv(maxConnections: nat)
    ensures Inv(Start(maxConnections))
  {
    SI.StartInv(maxConnections);
  }

  // ---- The broker ----

  /** What an action of the broker does to each part of the system. */
  ghost predicate BrokerEffect(s: Sys, a: Action, v: Sys)
    requires a.Broker? && Enabled(s, a)
  {
    && SE.Effect(s.srv, a.b, v.srv)
    && v.strange == s.strange
    && if Accepts(s, a) then
         && v.clients == (if a.genuine then s.clients[s.srv.t.nextUid := C.Connect(a.b.addr)] else s.clients)
         && v.uuidOf == s.uuidOf[s.srv.t.nextUid := a.b.uuid]
         && v.addrOf == s.addrOf[s.srv.t.nextUid := a.b.addr]
       else
         v.clients == s.clients && v.uuidOf == s.uuidOf && v.addrOf == s.addrOf
  }

  /** A Hello that reaches the broker and carries the UUID of a connected peer comes from that peer's
      TCP address. */
  lemma ArrivedHelloRecognised(s: Sys, d: S.Datagram)
    requires PT.Exact(s.srv.t) && Registry(s.srv.t, s.uuidOf, s.addrOf, s.strange)
    requires HelloAllowed(d, s.uuidOf, s.addrOf, s.strange) && d.frame.Ok? && d.frame.value.Hello?
    ensures SL.Recognises(s.srv.t, d.frame.value.uuid, d.from)
  {
    var x := d.frame.value.uuid;
    if x in s.srv.t.byUuid {
      var p := s.srv.t.byUuid[x];
      assert s.uuidOf[p] == x;
      var u: Uid :| u in s.uuidOf && u in s.addrOf && s.uuidOf[u] == x && s.addrOf[u] == d.from;
      assert u == p;
    }
  }

  lemma SurroundingsHold(s: Sys, a: Action)
    requires Inv(s) && Enabled(s, a) && a.Broker?
    ensures SL.Surroundings(s.srv, a.b)
  {
    match a.b
    case Connection(addr, uuid) =>
      assert forall p: Uid :: p in s.srv.t.peers ==> p in s.uuidOf && s.uuidOf[p] == s.srv.t.peers[p].uuid;
    case UdpItem =>
      var r := s.srv.udpIn;
      var d := r.out[0];
      assert R.Forwarded(r)[|r.taken|] == d;
      assert d in r.input;
      if d.frame.Ok? && d.frame.value.Hello? {
        ArrivedHelloRecognised(s, d);
      }
    case _ =>
  }

  /** Unless a connection is accepted, a step of the broker adds no peer and changes nobody's UUID or
      TCP address, and it never takes a UDP address off the record of a peer that stays. */
  lemma TableKeeps(s: S.Server, b: S.Step)
    requires S.Enabled(s, b)
    ensures var t := SE.TableAfter(s, b);
      && t.nextUid == SE.NextAfter(s, b)
      && forall u: Uid :: u in t.peers && !(SE.Accepts(s, b) && u == s.t.nextUid) ==>
           u in s.t.peers && t.peers[u].tcp == s.t.peers[u].tcp && t.peers[u].uuid == s.t.peers[u].uuid
           && (s.t.peers[u].udp.Some? ==> t.peers[u].udp.Some?)
  {
    SE.StepConnected(s, b);
  }

  lemma RegistryKept(t: PT.Table, uuidOf: map<Uid, Uuid>, addrOf: map<Uid, Addr>, strange: set<Uuid>, v: PT.Table)
    requires Registry(t, uuidOf, addrOf, strange) && v.nextUid == t.nextUid
    requires forall u: Uid :: u in v.peers ==>
      u in t.peers && v.peers[u].tcp == t.peers[u].tcp && v.peers[u].uuid == t.peers[u].uuid
    ensures Registry(v, uuidOf, addrOf, strange)
  {
  }

  lemma RegistryGrows(t: PT.Table, uuidOf: map<Uid, Uuid>, addrOf: map<Uid, Addr>, strange: set<Uuid>, addr: Addr, uuid: Uuid)
    requires Registry(t, uuidOf, addrOf, strange)
    requires uuid !in strange && forall u :: u in uuidOf ==> uuidOf[u] != uuid
    ensures Registry(PT.Insert(t, addr, uuid), uuidOf[t.nextUid := uuid], addrOf[t.nextUid := addr], strange)
  {
  }

  lemma BrokerRegistry(s: Sys, a: Action, v: Sys)
    requires Registry(s.srv.t, s.uuidOf, s.addrOf, s.strange)
    requires a.Broker? && Enabled(s, a) && BrokerEffect(s, a, v)
    ensures Registry(v.srv.t, v.uuidOf, v.addrOf, v.strange)
  {
    if Accepts(s, a) {
      RegistryGrows(s.srv.t, s.uuidOf, s.addrOf, s.strange, a.b.addr, a.b.uuid);
    } else {
      TableKeeps(s.srv, a.b);
      RegistryKept(s.srv.t, s.uuidOf, s.addrOf, s.strange, v.srv.t);
    }
  }

  /** What a step of the broker adds to what it told anyone. */
  lemma BrokerTells(s: S.Server, b: S.Step, u: Uid, m: TcpFromServer)
    requires S.Enabled(s, b) && S.Staffed(s)
    requires u in SE.WritersAfter(s, b) && W.Asked(SE.WritersAfter(s, b)[u], m)
    ensures (u in s.writers && W.Asked(s.writers[u], m))
         || SE.Offered(s, b) == Some((u, m))
         || (SE.Accepts(s, b) && u == s.t.nextUid && m == TcpFromServer.Welcome(b.uuid))
  {
    if SE.Dropped(s, b).Some? {
      W.OfferAccepted(s.writers[s.toDrop[0].uid], W.Shutdown);
    } else if SE.Offered(s, b).Some? {
      var (p, n) := SE.Offered(s, b).value;
      W.OfferAccepted(s.writers[p], W.Send(n));
    }
  }

  lemma BrokerOwnWelcome(s: Sys, a: Action, v: Sys)
    requires a.Broker? && Enabled(s, a) && BrokerEffect(s, a, v) && s.srv.t.nextUid !in s.uuidOf
    requires OwnWelcome(s.srv.writers, s.uuidOf)
    requires s.srv.phase.TellTcp? ==> s.srv.phase.tcp.App?
    ensures OwnWelcome(v.srv.writers, v.uuidOf)
  {
    NoWelcomeOffered(s.srv, a.b);
    forall u: Uid, x: Uuid | u in v.srv.writers && W.Asked(v.srv.writers[u], TcpFromServer.Welcome(x))
      ensures u in v.uuidOf && v.uuidOf[u] == x
    {
      BrokerTells(s.srv, a.b, u, TcpFromServer.Welcome(x));
    }
  }

  lemma NoWelcomeOffered(s: S.Server, b: S.Step)
    requires S.Enabled(s, b) && (s.phase.TellTcp? ==> s.phase.tcp.App?)
    ensures SE.Offered(s, b).Some? ==> !SE.Offered(s, b).value.1.Welcome?
  {
  }

  lemma BrokerAcked(s: S.Server, b: S.Step, v: S.Server)
    requires S.Enabled(s, b) && S.Staffed(s) && SE.Effect(s, b, v)
    requires s.t.nextUid !in s.writers
    requires s.phase.TellTcp? ==> s.phase.tcp.App?
    requires AckedHaveUdp(s.writers, s.t.peers)
    ensures AckedHaveUdp(v.writers, v.t.peers)
  {
    forall u: Uid | u in v.writers && u in v.t.peers && W.Asked(v.writers[u], UdpHandshakeAcknowledged)
      ensures v.t.peers[u].udp.Some?
    {
      BrokerTells(s, b, u, UdpHandshakeAcknowledged);
      TableKeeps(s, b);
    }
  }

  /** The broker writes nothing itself. */
  lemma BrokerWires(s: S.Server, b: S.Step)
    requires S.Enabled(s, b) && S.Staffed(s) && s.t.nextUid !in s.writers
    ensures forall u: Uid :: u in s.writers ==>
      u in SE.WritersAfter(s, b) && SE.WritersAfter(s, b)[u].wire == s.writers[u].wire
    ensures SE.Accepts(s, b) ==> s.t.nextUid in SE.WritersAfter(s, b)
  {
  }

  /** The broker puts nothing into a stream. */
  lemma BrokerStreams(s: S.Server, b: S.Step)
    requires S.Enabled(s, b) && S.Staffed(s) && s.t.nextUid !in s.readers
    ensures forall u: Uid :: u in s.readers ==>
      u in SE.ReadersAfter(s, b) && SE.ReadersAfter(s, b)[u].input == s.readers[u].input
      && SE.ReadersAfter(s, b)[u].ended == s.readers[u].ended
    ensures SE.Accepts(s, b) ==>
      s.t.nextUid in SE.ReadersAfter(s, b) && SE.ReadersAfter(s, b)[s.t.nextUid].input == []
  {
  }

  lemma NewClientOk(addr: Addr)
    ensures ClientOk(C.Connect(addr)) && C.Connect(addr).tcpIn.input == []
  {
  }

  lemma BrokerDownlinks(s: Sys, a: Action, v: Sys)
    requires a.Broker? && Enabled(s, a) && BrokerEffect(s, a, v)
    requires s.srv.t.nextUid !in s.srv.writers
    requires Downlinks(s.clients, s.srv.writers)
    ensures Downlinks(v.clients, v.srv.writers)
  {
    BrokerWires(s.srv, a.b);
  }

  lemma BrokerUplinks(s: Sys, a: Action, v: Sys)
    requires a.Broker? && Enabled(s, a) && BrokerEffect(s, a, v)
    requires s.srv.t.nextUid !in s.srv.readers
    requires Uplinks(s.clients, s.srv.readers)
    ensures Uplinks(v.clients, v.srv.readers)
  {
    BrokerStreams(s.srv, a.b);
  }

  lemma BrokerClients(s: Sys, a: Action, v: Sys)
    requires a.Broker? && Enabled(s, a) && BrokerEffect(s, a, v) && ClientsOk(s.clients, s.addrOf)
    requires s.srv.t.nextUid !in s.addrOf
    ensures ClientsOk(v.clients, v.addrOf)
  {
    if Accepts(s, a) {
      NewClientOk(a.b.addr);
    }
  }

  /** Hellos that were allowed stay so as connections are registered. */
  lemma BrokerHellos(s: Sys, a: Action, v: Sys)
    requires a.Broker? && Enabled(s, a) && BrokerEffect(s, a, v)
    requires s.srv.t.nextUid !in s.uuidOf
    requires HellosAllowed(s.srv.udpIn.input, s.uuidOf, s.addrOf, s.strange)
    ensures HellosAllowed(v.srv.udpIn.input, v.uuidOf, v.addrOf, v.strange)
  {
    assert v.srv.udpIn.input == s.srv.udpIn.input;
    forall d | d in v.srv.udpIn.input ensures HelloAllowed(d, v.uuidOf, v.addrOf, v.strange) {
      assert HelloAllowed(d, s.uuidOf, s.addrOf, s.strange);
      if d.frame.Ok? && d.frame.value.Hello? && d.frame.value.uuid !in s.strange {
        var u: Uid :| u in s.uuidOf && u in s.addrOf && s.uuidOf[u] == d.frame.value.uuid && s.addrOf[u] == d.from;
        assert u in v.uuidOf && u in v.addrOf && v.uuidOf[u] == d.frame.value.uuid && v.addrOf[u] == d.from;
      }
    }
  }

  lemma BrokerApplies(s: Sys, a: Action)
    requires a.Broker? && Enabled(s, a) && SE.Effect(s.srv, a.b, S.Apply(s.srv, a.b))
    ensures BrokerEffect(s, a, Apply(s, a)) && Apply(s, a).srv == S.Apply(s.srv, a.b)
  {
  }

  lemma BrokerFacts(s: Sys)
    requires Inv(s)
    ensures var n := s.srv.t.nextUid;
      n !in s.srv.writers && n !in s.srv.readers && n !in s.uuidOf && n !in s.addrOf
    ensures s.srv.phase.TellTcp? ==> s.srv.phase.tcp.App?
  {
  }

  lemma BrokerInv(s: Sys, a: Action, v: Sys)
    requires Inv(s) && a.Broker? && Enabled(s, a) && BrokerEffect(s, a, v) && SI.Inv(v.srv)
    ensures Inv(v)
  {
    BrokerFacts(s);
    BrokerRegistry(s, a, v);
    BrokerOwnWelcome(s, a, v);
    BrokerAcked(s.srv, a.b, v.srv);
    BrokerClients(s, a, v);
    BrokerDownlinks(s, a, v);
    BrokerUplinks(s, a, v);
    BrokerHellos(s, a, v);
  }

  lemma BrokerDoes(s: Sys, a: Action)
    requires Inv(s) && a.Broker? && Enabled(s, a)
    ensures BrokerEffect(s, a, Apply(s, a)) && SI.Inv(Apply(s, a).srv)
    ensures Apply(s, a).srv == S.Apply(s.srv, a.b)
  {
    SurroundingsHold(s, a);
    SI.BrokerInv(s.srv, a.b);
    BrokerApplies(s, a);
  }

  lemma BrokerKeepsInv(s: Sys, a: Action)
    requires Inv(s) && a.Broker? && Enabled(s, a)
    ensures Inv(Apply(s, a))
  {
    BrokerDoes(s, a);
    BrokerInv(s, a, Apply(s, a));
  }

  // ---- What only the broker touches ----

  predicate AtClient(a: Action) {
    a.ClientActs? || a.ClientTcpReader? || a.ClientTcpWriter? || a.ClientUdpReader? || a.ClientUdpWriter?
    || a.TcpDown? || a.TcpDownEnds? || a.TcpDownFails? || a.UdpDown?
  }

  lemma ClientSide(s: Sys, a: Action)
    requires AtClient(a) && Possible(s, a)
    ensures Apply(s, a) == s.(clients := Apply(s, a).clients)
  {
  }

  lemma ServerSide(s: Sys, a: Action)
    requires !a.Broker? && !AtClient(a) && Possible(s, a)
    ensures Apply(s, a) == s.(srv := Apply(s, a).srv, strange := Apply(s, a).strange)
    ensures OnlyActorsMove(s.srv, Apply(s, a).srv)
  {
  }

  /** All but the states of the IO actors is the same. */
  predicate OnlyActorsMove(s: S.Server, v: S.Server) {
    v == s.(readers := v.readers, writers := v.writers, udpIn := v.udpIn, udpOut := v.udpOut)
  }

  lemma OthersTouch(s: Sys, a: Action)
    requires !a.Broker? && Possible(s, a)
    ensures OnlyActorsMove(s.srv, Apply(s, a).srv)
    ensures Apply(s, a).uuidOf == s.uuidOf && Apply(s, a).addrOf == s.addrOf
  {
    if AtClient(a) {
      ClientSide(s, a);
    } else {
      ServerSide(s, a);
    }
  }

  // ---- The server's IO actors ----

  lemma SetReaderInv(s: Sys, uid: Uid, q: S.TcpReader)
    requires Inv(s) && uid in s.srv.readers && SI.ReaderEvolves(s.srv.readers[uid], q)
    requires uid in s.clients ==> Conveys(s.clients[uid].tcpOut.wire, q)
    ensures Inv(SetReader(s, uid, q))
  {
    SI.ReaderInv(s.srv, uid, q);
  }

  lemma SetWriterInv(s: Sys, uid: Uid, w: S.TcpWriter)
    requires Inv(s) && uid in s.srv.writers && SI.WriterEvolves(s.srv.writers[uid], w)
    ensures Inv(SetWriter(s, uid, w))
  {
    SI.WriterInv(s.srv, uid, w);
    SetWriterTold(s.srv.writers, s.srv.t.peers, s.uuidOf, uid, w);
    SetWriterDownlinks(s.clients, s.srv.writers, uid, w);
  }

  lemma SetWriterTold(ws: map<Uid, S.TcpWriter>, peers: map<Uid, PT.Peer>, uuidOf: map<Uid, Uuid>, uid: Uid, w: S.TcpWriter)
    requires OwnWelcome(ws, uuidOf) && AckedHaveUdp(ws, peers)
    requires uid in ws && W.Accepted(w) == W.Accepted(ws[uid])
    ensures OwnWelcome(ws[uid := w], uuidOf) && AckedHaveUdp(ws[uid := w], peers)
  {
    var vs := ws[uid := w];
    assert forall u: Uid, m: TcpFromServer :: u in vs && W.Asked(vs[u], m) ==> W.Asked(ws[u], m);
  }

  lemma SetWriterDownlinks(clients: map<Uid, C.Client>, ws: map<Uid, S.TcpWriter>, uid: Uid, w: S.TcpWriter)
    requires Downlinks(clients, ws) && uid in ws && ws[uid].wire <= w.wire
    ensures Downlinks(clients, ws[uid := w])
  {
  }

  lemma SetUdpInInv(s: Sys, q: S.UdpReader)
    requires Inv(s) && SI.ReaderEvolves(s.srv.udpIn, q)
    requires HellosAllowed(q.input, s.uuidOf, s.addrOf, s.strange)
    ensures Inv(SetUdpIn(s, q))
  {
    SI.UdpInInv(s.srv, q);
  }

  lemma SetUdpOutInv(s: Sys, w: S.UdpWriter)
    requires Inv(s) && SI.WriterEvolves(s.srv.udpOut, w)
    ensures Inv(s.(srv := s.srv.(udpOut := w)))
  {
    SI.UdpOutInv(s.srv, w);
  }

  lemma ServerIoInv(s: Sys, a: Action)
    requires Inv(s) && Enabled(s, a)
    requires a.ServerReader? || a.ServerWriter? || a.ServerUdpReader? || a.ServerUdpWriter?
    ensures Inv(Apply(s, a))
  {
    match a
    case ServerReader(uid, r) =>
      ReaderOk(s, uid);
      SI.ReaderSteps(s.srv.readers[uid], r);
      SetReaderInv(s, uid, R.Apply(s.srv.readers[uid], r));
    case ServerWriter(uid, w) =>
      WriterOk(s, uid);
      SI.WriterSteps(s.srv.writers[uid], w);
      SetWriterInv(s, uid, W.Apply(s.srv.writers[uid], w));
    case ServerUdpReader(r) =>
      SI.ReaderSteps(s.srv.udpIn, r);
      SetUdpInInv(s, R.Apply(s.srv.udpIn, r));
    case ServerUdpWriter(w) =>
      SI.WriterSteps(s.srv.udpOut, w);
      SetUdpOutInv(s, W.Apply(s.srv.udpOut, w));
  }

  lemma ReaderOk(s: Sys, uid: Uid)
    requires Inv(s) && uid in s.srv.readers
    ensures R.Inv(s.srv.readers[uid])
  {
  }

  lemma WriterOk(s: Sys, uid: Uid)
    requires Inv(s) && uid in s.srv.writers
    ensures W.Inv(s.srv.writers[uid]) && uid in s.srv.readers
  {
    assert uid in s.srv.readers;
  }

  // ---- The clients ----

  lemma SetClientOk(clients: map<Uid, C.Client>, addrOf: map<Uid, Addr>, uid: Uid, c: C.Client)
    requires ClientsOk(clients, addrOf) && uid in clients && ClientOk(c) && c.addr == clients[uid].addr
    ensures ClientsOk(clients[uid := c], addrOf)
  {
  }

  lemma SetClientDownlinks(clients: map<Uid, C.Client>, ws: map<Uid, S.TcpWriter>, uid: Uid, c: C.Client)
    requires Downlinks(clients, ws) && uid in ws && Conveys(ws[uid].wire, c.tcpIn)
    ensures Downlinks(clients[uid := c], ws)
  {
  }

  lemma SetClientUplinks(clients: map<Uid, C.Client>, rs: map<Uid, S.TcpReader>, uid: Uid, c: C.Client)
    requires Uplinks(clients, rs) && uid in rs && Conveys(c.tcpOut.wire, rs[uid])
    ensures Uplinks(clients[uid := c], rs)
  {
  }

  lemma SetClientInv(s: Sys, uid: Uid, c: C.Client)
    requires Inv(s) && uid in s.clients
    requires ClientOk(c) && c.addr == s.clients[uid].addr
    requires uid in s.srv.writers && Conveys(s.srv.writers[uid].wire, c.tcpIn)
    requires uid in s.srv.readers && Conveys(c.tcpOut.wire, s.srv.readers[uid])
    ensures Inv(SetClient(s, uid, c))
  {
    SetClientOk(s.clients, s.addrOf, uid, c);
    SetClientDownlinks(s.clients, s.srv.writers, uid, c);
    SetClientUplinks(s.clients, s.srv.readers, uid, c);
  }

  /** What is known of one client. */
  lemma ClientFacts(s: Sys, uid: Uid)
    requires Inv(s) && uid in s.clients
    ensures ClientOk(s.clients[uid]) && uid in s.addrOf && s.addrOf[uid] == s.clients[uid].addr
    ensures uid in s.srv.writers && uid in s.srv.readers && uid in s.uuidOf
    ensures Conveys(s.srv.writers[uid].wire, s.clients[uid].tcpIn)
    ensures Conveys(s.clients[uid].tcpOut.wire, s.srv.readers[uid])
  {
  }

  lemma ClientStepOk(c: C.Client, a: C.Step)
    requires ClientOk(c) && C.Enabled(c, a)
    ensures ClientOk(C.Apply(c, a))
  {
    C.StepOk(c, a);
    C.StepReady(c, a);
    C.StepHelloEarned(c, a);
    C.StepAcksEarned(c, a);
    C.StepCarried(c, a);
    CE.StepHeard(c, a);
    CE.StepUdpCarried(c, a);
    CE.StepTidy(c, a);
  }

  lemma ClientTcpReaderOk(c: C.Client, q: R.Reader<Frame<TcpFromServer>>)
    requires ClientOk(c) && SI.ReaderEvolves(c.tcpIn, q)
    ensures ClientOk(c.(tcpIn := q))
  {
  }

  lemma ClientUdpReaderOk(c: C.Client, q: R.Reader<Frame<UdpFromServer>>)
    requires ClientOk(c) && SI.ReaderEvolves(c.udpIn, q)
    ensures ClientOk(c.(udpIn := q))
  {
  }

  lemma ClientTcpWriterOk(c: C.Client, w: W.Writer<TcpToServer>)
    requires ClientOk(c) && SI.WriterEvolves(c.tcpOut, w)
    ensures ClientOk(c.(tcpOut := w))
  {
  }

  lemma ClientUdpWriterOk(c: C.Client, w: W.Writer<UdpToServer>)
    requires ClientOk(c) && SI.WriterEvolves(c.udpOut, w)
    ensures ClientOk(c.(udpOut := w))
  {
  }

  lemma ClientActsInv(s: Sys, uid: Uid, c: C.Step)
    requires Inv(s) && uid in s.clients && C.Enabled(s.clients[uid], c)
    ensures Inv(SetClient(s, uid, C.Apply(s.clients[uid], c)))
  {
    ClientFacts(s, uid);
    ClientStepOk(s.clients[uid], c);
    C.StepFrame(s.clients[uid], c);
    SetClientInv(s, uid, C.Apply(s.clients[uid], c));
  }

  lemma ClientTcpInInv(s: Sys, uid: Uid, q: R.Reader<Frame<TcpFromServer>>)
    requires Inv(s) && uid in s.clients && SI.ReaderEvolves(s.clients[uid].tcpIn, q)
    requires uid in s.srv.writers && Conveys(s.srv.writers[uid].wire, q)
    ensures Inv(SetClient(s, uid, s.clients[uid].(tcpIn := q)))
  {
    ClientFacts(s, uid);
    ClientTcpReaderOk(s.clients[uid], q);
    SetClientInv(s, uid, s.clients[uid].(tcpIn := q));
  }

  lemma ClientUdpInInv(s: Sys, uid: Uid, q: R.Reader<Frame<UdpFromServer>>)
    requires Inv(s) && uid in s.clients && SI.ReaderEvolves(s.clients[uid].udpIn, q)
    ensures Inv(SetClient(s, uid, s.clients[uid].(udpIn := q)))
  {
    ClientFacts(s, uid);
    ClientUdpReaderOk(s.clients[uid], q);
    SetClientInv(s, uid, s.clients[uid].(udpIn := q));
  }

  lemma ClientTcpOutInv(s: Sys, uid: Uid, w: W.Writer<TcpToServer>)
    requires Inv(s) && uid in s.clients && SI.WriterEvolves(s.clients[uid].tcpOut, w)
    ensures Inv(SetClient(s, uid, s.clients[uid].(tcpOut := w)))
  {
    ClientFacts(s, uid);
    ClientTcpWriterOk(s.clients[uid], w);
    MoreConveys(s.clients[uid].tcpOut.wire, w.wire, s.srv.readers[uid]);
    SetClientInv(s, uid, s.clients[uid].(tcpOut := w));
  }

  lemma ClientUdpOutInv(s: Sys, uid: Uid, w: W.Writer<UdpToServer>)
    requires Inv(s) && uid in s.clients && SI.WriterEvolves(s.clients[uid].udpOut, w)
    ensures Inv(SetClient(s, uid, s.clients[uid].(udpOut := w)))
  {
    ClientFacts(s, uid);
    ClientUdpWriterOk(s.clients[uid], w);
    SetClientInv(s, uid, s.clients[uid].(udpOut := w));
  }

  lemma ClientIoInv(s: Sys, a: Action)
    requires Inv(s) && Enabled(s, a)
    requires a.ClientTcpReader? || a.ClientTcpWriter? || a.ClientUdpReader? || a.ClientUdpWriter?
    ensures Inv(Apply(s, a))
  {
    ClientFacts(s, a.uid);
    match a
    case ClientTcpReader(uid, r) =>
      SI.ReaderSteps(s.clients[uid].tcpIn, r);
      ClientTcpInInv(s, uid, R.Apply(s.clients[uid].tcpIn, r));
    case ClientUdpReader(uid, r) =>
      SI.ReaderSteps(s.clients[uid].udpIn, r);
      ClientUdpInInv(s, uid, R.Apply(s.clients[uid].udpIn, r));
    case ClientTcpWriter(uid, w) =>
      SI.WriterSteps(s.clients[uid].tcpOut, w);
      ClientTcpOutInv(s, uid, W.Apply(s.clients[uid].tcpOut, w));
    case ClientUdpWriter(uid, w) =>
      SI.WriterSteps(s.clients[uid].udpOut, w);
      ClientUdpOutInv(s, uid, W.Apply(s.clients[uid].udpOut, w));
  }

  // ---- The network ----

  lemma ArriveConveys<T>(xs: seq<T>, r: R.Reader<Frame<T>>)
    requires Conveys(xs, r)
    ensures |r.input| < |xs| ==> Conveys(xs, R.Arrive(r, Ok(xs[|r.input|])))
    ensures Conveys(xs, R.End(r))
    ensures Conveys(xs, Broken(r))
  {
    if !r.ended {
      assert (r.input + [Garbage])[..|r.input|] == r.input;
    }
  }

  /** Whatever was received undamaged was written. */
  lemma ConveyedWritten<T>(xs: seq<T>, r: R.Reader<Frame<T>>, x: T)
    requires Conveys(xs, r) && Ok(x) in r.input
    ensures x in xs
  {
    var i :| 0 <= i < |r.input| && r.input[i] == Ok(x);
    assert xs[i] == x;
  }

  lemma MoreConveys<T>(xs: seq<T>, ys: seq<T>, r: R.Reader<Frame<T>>)
    requires Conveys(xs, r) && xs <= ys
    ensures Conveys(ys, r)
  {
  }

  lemma TcpUpInv(s: Sys, uid: Uid)
    requires Inv(s)
    requires uid in s.clients && uid in s.srv.readers && |s.srv.readers[uid].input| < |s.clients[uid].tcpOut.wire|
    ensures Inv(SetReader(s, uid, R.Arrive(s.srv.readers[uid], Ok(s.clients[uid].tcpOut.wire[|s.srv.readers[uid].input|]))))
  {
    var r, wire := s.srv.readers[uid], s.clients[uid].tcpOut.wire;
    ReaderOk(s, uid);
    ClientFacts(s, uid);
    SI.ReaderArrives(r, Ok(wire[|r.input|]));
    ArriveConveys(wire, r);
    SetReaderInv(s, uid, R.Arrive(r, Ok(wire[|r.input|])));
  }

  lemma TcpUpRawInv(s: Sys, uid: Uid, f: Frame<TcpToServer>)
    requires Inv(s)
    requires uid !in s.clients && uid in s.srv.readers
    ensures Inv(SetReader(s, uid, R.Arrive(s.srv.readers[uid], f)))
  {
    ReaderOk(s, uid);
    SI.ReaderArrives(s.srv.readers[uid], f);
    SetReaderInv(s, uid, R.Arrive(s.srv.readers[uid], f));
  }

  lemma TcpUpEndsInv(s: Sys, uid: Uid)
    requires Inv(s)
    requires uid in s.srv.readers
    ensures Inv(SetReader(s, uid, R.End(s.srv.readers[uid])))
  {
    ReaderOk(s, uid);
    SI.ReaderEnds(s.srv.readers[uid]);
    if uid in s.clients {
      ClientFacts(s, uid);
      ArriveConveys(s.clients[uid].tcpOut.wire, s.srv.readers[uid]);
    }
    SetReaderInv(s, uid, R.End(s.srv.readers[uid]));
  }

  lemma BrokenEvolves<T>(r: R.Reader<Frame<T>>)
    requires R.Inv(r)
    ensures SI.ReaderEvolves(r, Broken(r))
  {
    SI.ReaderArrives(r, Garbage);
    SI.ReaderEnds(R.Arrive(r, Garbage));
  }

  lemma TcpUpFailsInv(s: Sys, uid: Uid)
    requires Inv(s)
    requires uid in s.srv.readers
    ensures Inv(SetReader(s, uid, Broken(s.srv.readers[uid])))
  {
    ReaderOk(s, uid);
    BrokenEvolves(s.srv.readers[uid]);
    if uid in s.clients {
      ClientFacts(s, uid);
      ArriveConveys(s.clients[uid].tcpOut.wire, s.srv.readers[uid]);
    }
    SetReaderInv(s, uid, Broken(s.srv.readers[uid]));
  }

  lemma TcpDownInv(s: Sys, uid: Uid)
    requires Inv(s)
    requires uid in s.clients && uid in s.srv.writers && |s.clients[uid].tcpIn.input| < |s.srv.writers[uid].wire|
    ensures var r := s.clients[uid].tcpIn;
      Inv(SetClient(s, uid, s.clients[uid].(tcpIn := R.Arrive(r, Ok(s.srv.writers[uid].wire[|r.input|])))))
  {
    ClientFacts(s, uid);
    var r, wire := s.clients[uid].tcpIn, s.srv.writers[uid].wire;
    SI.ReaderArrives(r, Ok(wire[|r.input|]));
    ArriveConveys(wire, r);
    ClientTcpInInv(s, uid, R.Arrive(r, Ok(wire[|r.input|])));
  }

  lemma TcpDownEndsInv(s: Sys, uid: Uid)
    requires Inv(s)
    requires uid in s.clients
    ensures Inv(SetClient(s, uid, s.clients[uid].(tcpIn := R.End(s.clients[uid].tcpIn))))
  {
    ClientFacts(s, uid);
    SI.ReaderEnds(s.clients[uid].tcpIn);
    ArriveConveys(s.srv.writers[uid].wire, s.clients[uid].tcpIn);
    ClientTcpInInv(s, uid, R.End(s.clients[uid].tcpIn));
  }

  lemma TcpDownFailsInv(s: Sys, uid: Uid)
    requires Inv(s)
    requires uid in s.clients
    ensures Inv(SetClient(s, uid, s.clients[uid].(tcpIn := Broken(s.clients[uid].tcpIn))))
  {
    ClientFacts(s, uid);
    BrokenEvolves(s.clients[uid].tcpIn);
    ArriveConveys(s.srv.writers[uid].wire, s.clients[uid].tcpIn);
    ClientTcpInInv(s, uid, Broken(s.clients[uid].tcpIn));
  }

  lemma UdpDownInv(s: Sys, uid: Uid, f: Frame<UdpFromServer>)
    requires Inv(s)
    requires uid in s.clients
    ensures Inv(SetClient(s, uid, s.clients[uid].(udpIn := R.Arrive(s.clients[uid].udpIn, f))))
  {
    ClientFacts(s, uid);
    SI.ReaderArrives(s.clients[uid].udpIn, f);
    ClientUdpInInv(s, uid, R.Arrive(s.clients[uid].udpIn, f));
  }

  /** A Hello that a client wrote carries its own UUID: it can only have come from the Welcome that the
      server addressed to it. */
  lemma ClientHelloOwn(s: Sys, uid: Uid, x: Uuid)
    requires Inv(s) && uid in s.clients && Hello(x) in s.clients[uid].udpOut.wire
    ensures uid in s.uuidOf && s.uuidOf[uid] == x
  {
    ClientFacts(s, uid);
    var c, w := s.clients[uid], s.srv.writers[uid];
    W.WrittenAsked(c.udpOut, Hello(x));
    HelloWelcomed(c, x);
    ConveyedWritten(w.wire, c.tcpIn, TcpFromServer.Welcome(x));
    WriterOk(s, uid);
    W.WrittenAsked(w, TcpFromServer.Welcome(x));
  }

  lemma HelloWelcomed(c: C.Client, x: Uuid)
    requires C.ActorsOk(c) && C.HelloEarned(c) && W.Asked(c.udpOut, Hello(x))
    ensures Ok(TcpFromServer.Welcome(x)) in c.tcpIn.input
  {
    assert W.Feed(Hello(x)) !in W.Accepted(c.udpOut);
    assert Ok(TcpFromServer.Welcome(x)) in c.tcpIn.taken;
    R.ReaderLaw(c.tcpIn);
  }

  lemma HelloArrives(r: S.UdpReader, d: S.Datagram, uuidOf: map<Uid, Uuid>, addrOf: map<Uid, Addr>, strange: set<Uuid>, more: set<Uuid>)
    requires HellosAllowed(r.input, uuidOf, addrOf, strange) && HelloAllowed(d, uuidOf, addrOf, strange + more)
    ensures HellosAllowed(R.Arrive(r, d).input, uuidOf, addrOf, strange + more)
  {
    forall e | e in R.Arrive(r, d).input ensures HelloAllowed(e, uuidOf, addrOf, strange + more) {
      if e in r.input {
        assert HelloAllowed(e, uuidOf, addrOf, strange);
      }
    }
  }

  lemma ClientHelloAllowed(s: Sys, uid: Uid, k: nat)
    requires Inv(s) && uid in s.clients && k < |s.clients[uid].udpOut.wire|
    ensures HelloAllowed(SentBy(s.clients[uid], k), s.uuidOf, s.addrOf, s.strange)
  {
    ClientFacts(s, uid);
    var m := s.clients[uid].udpOut.wire[k];
    if m.Hello? {
      ClientHelloOwn(s, uid, m.uuid);
    }
  }

  lemma UdpUpInv(s: Sys, uid: Uid, k: nat)
    requires Inv(s)
    requires uid in s.clients && k < |s.clients[uid].udpOut.wire|
    ensures Inv(SetUdpIn(s, R.Arrive(s.srv.udpIn, SentBy(s.clients[uid], k))))
  {
    var d := SentBy(s.clients[uid], k);
    ClientHelloAllowed(s, uid, k);
    DatagramInv(s, d);
  }

  lemma DatagramInv(s: Sys, d: S.Datagram)
    requires Inv(s) && HelloAllowed(d, s.uuidOf, s.addrOf, s.strange)
    ensures Inv(SetUdpIn(s, R.Arrive(s.srv.udpIn, d)))
  {
    SI.ReaderArrives(s.srv.udpIn, d);
    assert s.strange + {} == s.strange;
    HelloArrives(s.srv.udpIn, d, s.uuidOf, s.addrOf, s.strange, {});
    SetUdpInInv(s, R.Arrive(s.srv.udpIn, d));
  }

  lemma StrangeInv(s: Sys, more: set<Uuid>)
    requires Inv(s) && forall u :: u in s.uuidOf ==> s.uuidOf[u] !in more
    ensures Inv(s.(strange := s.strange + more))
  {
    HelloArrivesNot(s.srv.udpIn.input, s.uuidOf, s.addrOf, s.strange, more);
  }

  lemma HelloArrivesNot(input: seq<S.Datagram>, uuidOf: map<Uid, Uuid>, addrOf: map<Uid, Addr>, strange: set<Uuid>, more: set<Uuid>)
    requires HellosAllowed(input, uuidOf, addrOf, strange)
    ensures HellosAllowed(input, uuidOf, addrOf, strange + more)
  {
    forall d | d in input ensures HelloAllowed(d, uuidOf, addrOf, strange + more) {
      assert HelloAllowed(d, uuidOf, addrOf, strange);
    }
  }

  /** A stranger's Hello carries a UUID of no connection, or comes from the address of the one that it belongs to. */
  lemma StrangerAllowed(s: Sys, d: S.Datagram)
    requires Inv(s) && Unguessed(s, d)
    ensures HelloAllowed(d, s.uuidOf, s.addrOf, s.strange + Unowned(s, d))
  {
  }

  lemma UdpStrangerInv(s: Sys, d: S.Datagram)
    requires Inv(s)
    requires Unguessed(s, d)
    ensures Inv(SetUdpIn(s.(strange := s.strange + Unowned(s, d)), R.Arrive(s.srv.udpIn, d)))
  {
    StrangerAllowed(s, d);
    StrangeInv(s, Unowned(s, d));
    DatagramInv(s.(strange := s.strange + Unowned(s, d)), d);
  }

  // ---- All of it ----

  lemma TcpUpApplied(s: Sys, a: Action, v: Sys)
    requires Next(s, a, v) && a.TcpUp?
    ensures var uid := a.uid;
      uid in s.clients && uid in s.srv.readers && |s.srv.readers[uid].input| < |s.clients[uid].tcpOut.wire|
      && v == SetReader(s, uid, R.Arrive(s.srv.readers[uid], Ok(s.clients[uid].tcpOut.wire[|s.srv.readers[uid].input|])))
  {
  }

  lemma TcpUpNext(s: Sys, a: Action, v: Sys)
    requires Inv(s) && Next(s, a, v) && a.TcpUp?
    ensures Inv(v)
  {
    TcpUpApplied(s, a, v);
    TcpUpInv(s, a.uid);
  }

  lemma TcpUpRawApplied(s: Sys, a: Action, v: Sys)
    requires Next(s, a, v) && a.TcpUpRaw?
    ensures var uid := a.uid;
      uid !in s.clients && uid in s.srv.readers && v == SetReader(s, uid, R.Arrive(s.srv.readers[uid], a.up))
  {
  }

  lemma TcpUpRawNext(s: Sys, a: Action, v: Sys)
    requires Inv(s) && Next(s, a, v) && a.TcpUpRaw?
    ensures Inv(v)
  {
    TcpUpRawApplied(s, a, v);
    TcpUpRawInv(s, a.uid, a.up);
  }

  lemma TcpUpEndsApplied(s: Sys, a: Action, v: Sys)
    requires Next(s, a, v) && a.TcpUpEnds?
    ensures var uid := a.uid;
      uid in s.srv.readers && v == SetReader(s, uid, R.End(s.srv.readers[uid]))
  {
  }

  lemma TcpUpEndsNext(s: Sys, a: Action, v: Sys)
    requires Inv(s) && Next(s, a, v) && a.TcpUpEnds?
    ensures Inv(v)
  {
    TcpUpEndsApplied(s, a, v);
    TcpUpEndsInv(s, a.uid);
  }

  lemma TcpUpFailsApplied(s: Sys, a: Action, v: Sys)
    requires Next(s, a, v) && a.TcpUpFails?
    ensures var uid := a.uid;
      uid in s.srv.readers && v == SetReader(s, uid, Broken(s.srv.readers[uid]))
  {
  }

  lemma TcpUpFailsNext(s: Sys, a: Action, v: Sys)
    requires Inv(s) && Next(s, a, v) && a.TcpUpFails?
    ensures Inv(v)
  {
    TcpUpFailsApplied(s, a, v);
    TcpUpFailsInv(s, a.uid);
  }

  lemma TcpDownApplied(s: Sys, a: Action, v: Sys)
    requires Next(s, a, v) && a.TcpDown?
    ensures var uid := a.uid;
      uid in s.clients && uid in s.srv.writers && |s.clients[uid].tcpIn.input| < |s.srv.writers[uid].wire|
      && var r := s.clients[uid].tcpIn;
         v == SetClient(s, uid, s.clients[uid].(tcpIn := R.Arrive(r, Ok(s.srv.writers[uid].wire[|r.input|]))))
  {
  }

  lemma TcpDownNext(s: Sys, a: Action, v: Sys)
    requires Inv(s) && Next(s, a, v) && a.TcpDown?
    ensures Inv(v)
  {
    TcpDownApplied(s, a, v);
    TcpDownInv(s, a.uid);
  }

  lemma TcpDownEndsApplied(s: Sys, a: Action, v: Sys)
    requires Next(s, a, v) && a.TcpDownEnds?
    ensures var uid := a.uid;
      uid in s.clients && v == SetClient(s, uid, s.clients[uid].(tcpIn := R.End(s.clients[uid].tcpIn)))
  {
  }

  lemma TcpDownEndsNext(s: Sys, a: Action, v: Sys)
    requires Inv(s) && Next(s, a, v) && a.TcpDownEnds?
    ensures Inv(v)
  {
    TcpDownEndsApplied(s, a, v);
    TcpDownEndsInv(s, a.uid);
  }

  lemma TcpDownFailsApplied(s: Sys, a: Action, v: Sys)
    requires Next(s, a, v) && a.TcpDownFails?
    ensures var uid := a.uid;
      uid in s.clients && v == SetClient(s, uid, s.clients[uid].(tcpIn := Broken(s.clients[uid].tcpIn)))
  {
  }

  lemma TcpDownFailsNext(s: Sys, a: Action, v: Sys)
    requires Inv(s) && Next(s, a, v) && a.TcpDownFails?
    ensures Inv(v)
  {
    TcpDownFailsApplied(s, a, v);
    TcpDownFailsInv(s, a.uid);
  }

  lemma UdpUpApplied(s: Sys, a: Action, v: Sys)
    requires Next(s, a, v) && a.UdpUp?
    ensures var uid := a.uid;
      uid in s.clients && a.k < |s.clients[uid].udpOut.wire|
      && v == SetUdpIn(s, R.Arrive(s.srv.udpIn, SentBy(s.clients[uid], a.k)))
  {
  }

  lemma UdpUpNext(s: Sys, a: Action, v: Sys)
    requires Inv(s) && Next(s, a, v) && a.UdpUp?
    ensures Inv(v)
  {
    UdpUpApplied(s, a, v);
    UdpUpInv(s, a.uid, a.k);
  }

  lemma UdpStrangerApplied(s: Sys, a: Action, v: Sys)
    requires Next(s, a, v) && a.UdpStranger?
    ensures Unguessed(s, a.d)
      && v == SetUdpIn(s.(strange := s.strange + Unowned(s, a.d)), R.Arrive(s.srv.udpIn, a.d))
  {
  }

  lemma UdpStrangerNext(s: Sys, a: Action, v: Sys)
    requires Inv(s) && Next(s, a, v) && a.UdpStranger?
    ensures Inv(v)
  {
    UdpStrangerApplied(s, a, v);
    UdpStrangerInv(s, a.d);
  }

  lemma UdpDownApplied(s: Sys, a: Action, v: Sys)
    requires Next(s, a, v) && a.UdpDown?
    ensures var uid := a.uid;
      uid in s.clients && v == SetClient(s, uid, s.clients[uid].(udpIn := R.Arrive(s.clients[uid].udpIn, a.down)))
  {
  }

  lemma UdpDownNext(s: Sys, a: Action, v: Sys)
    requires Inv(s) && Next(s, a, v) && a.UdpDown?
    ensures Inv(v)
  {
    UdpDownApplied(s, a, v);
    UdpDownInv(s, a.uid, a.down);
  }

  lemma ClientActsApplied(s: Sys, a: Action, v: Sys)
    requires Next(s, a, v) && a.ClientActs?
    ensures var uid := a.uid;
      uid in s.clients && C.Enabled(s.clients[uid], a.c) && v == SetClient(s, uid, C.Apply(s.clients[uid], a.c))
  {
  }

  lemma ClientActsNext(s: Sys, a: Action, v: Sys)
    requires Inv(s) && Next(s, a, v) && a.ClientActs?
    ensures Inv(v)
  {
    ClientActsApplied(s, a, v);
    ClientActsInv(s, a.uid, a.c);
  }

  lemma UpstreamNext(s: Sys, a: Action, v: Sys)
    requires Inv(s) && Next(s, a, v) && (a.TcpUp? || a.TcpUpRaw? || a.TcpUpEnds? || a.TcpUpFails?)
    ensures Inv(v)
  {
    if a.TcpUp? {
      TcpUpNext(s, a, v);
    } else if a.TcpUpRaw? {
      TcpUpRawNext(s, a, v);
    } else if a.TcpUpEnds? {
      TcpUpEndsNext(s, a, v);
    } else {
      TcpUpFailsNext(s, a, v);
    }
  }

  lemma DownstreamNext(s: Sys, a: Action, v: Sys)
    requires Inv(s) && Next(s, a, v) && (a.TcpDown? || a.TcpDownEnds? || a.TcpDownFails?)
    ensures Inv(v)
  {
    if a.TcpDown? {
      TcpDownNext(s, a, v);
    } else if a.TcpDownEnds? {
      TcpDownEndsNext(s, a, v);
    } else {
      TcpDownFailsNext(s, a, v);
    }
  }

  /** Every action of every party keeps the invariant. */
  lemma NextInv(s: Sys, a: Action, v: Sys)
    requires Inv(s) && Next(s, a, v)
    ensures Inv(v)
  {
    if a.Broker? {
      BrokerKeepsInv(s, a);
    } else if a.ServerReader? || a.ServerWriter? || a.ServerUdpReader? || a.ServerUdpWriter? {
      ServerIoInv(s, a);
    } else if a.ClientActs? {
      ClientActsNext(s, a, v);
    } else if a.ClientTcpReader? || a.ClientTcpWriter? || a.ClientUdpReader? || a.ClientUdpWriter? {
      ClientIoInv(s, a);
    } else if a.TcpUp? || a.TcpUpRaw? || a.TcpUpEnds? || a.TcpUpFails? {
      UpstreamNext(s, a, v);
    } else if a.TcpDown? || a.TcpDownEnds? || a.TcpDownFails? {
      DownstreamNext(s, a, v);
    } else if a.UdpUp? {
      UdpUpNext(s, a, v);
    } else if a.UdpStranger? {
      UdpStrangerNext(s, a, v);
    } else {
      UdpDownNext(s, a, v);
    }
  }

  lemma InvAt(states: seq<Sys>, actions: seq<Action>, maxConnections: nat, i: nat)
    requires IsRun(states, actions, maxConnections) && 0 < i < |states| && Inv(states[i-1])
    ensures Inv(states[i])
  {
    assert StepAt(states, actions, i - 1);
    NextInv(states[i-1], actions[i-1], states[i]);
  }

  lemma InvAtStart(states: seq<Sys>, actions: seq<Action>, maxConnections: nat, i: nat)
    requires IsRun(states, actions, maxConnections) && i == 0
    ensures Inv(states[i])
  {
    StartInv(maxConnections);
  }

  /** The invariant holds in every state of every run. */
  lemma {:induction false} RunInv(states: seq<Sys>, actions: seq<Action>, maxConnections: nat, i: nat)
    requires IsRun(states, actions, maxConnections) && i < |states|
    ensures Inv(states[i])
    decreases i
  {
    if i == 0 {
      InvAtStart(states, actions, maxConnections, i);
    } else {
      RunInv(states, actions, maxConnections, i - 1);
      InvAt(states, actions, maxConnections, i);
    }
  }

  // ---- What happens in a run ----

  /** The broker's part of a run: what each of its steps does. */
  lemma BrokerAt(states: seq<Sys>, actions: seq<Action>, maxConnections: nat, i: nat)
    requires IsRun(states, actions, maxConnections) && i < |actions| && actions[i].Broker?
    ensures Enabled(states[i], actions[i]) && BrokerEffect(states[i], actions[i], states[i+1])
    ensures states[i+1].srv == S.Apply(states[i].srv, actions[i].b)
  {
    RunInv(states, actions, maxConnections, i);
    assert StepAt(states, actions, i);
    BrokerDoes(states[i], actions[i]);
  }

  /** Everybody else's: they touch nothing but the states of the IO actors and the clients. */
  lemma OthersAt(states: seq<Sys>, actions: seq<Action>, maxConnections: nat, i: nat)
    requires IsRun(states, actions, maxConnections) && i < |actions| && !actions[i].Broker?
    ensures Enabled(states[i], actions[i]) && states[i+1] == Apply(states[i], actions[i])
    ensures OnlyActorsMove(states[i].srv, states[i+1].srv)
    ensures states[i+1].uuidOf == states[i].uuidOf && states[i+1].addrOf == states[i].addrOf
  {
    assert StepAt(states, actions, i);
    OthersTouch(states[i], actions[i]);
  }

  lemma ActorsAt(states: seq<Sys>, actions: seq<Action>, maxConnections: nat, i: nat)
    requires IsRun(states, actions, maxConnections) && i < |states|
    ensures SA.Actors(states[i].srv)
  {
    RunInv(states, actions, maxConnections, i);
  }

  lemma TableAt(states: seq<Sys>, actions: seq<Action>, maxConnections: nat, i: nat)
    requires IsRun(states, actions, maxConnections) && i < |states|
    ensures PT.Exact(states[i].srv.t) && SL.UdpIsTcp(states[i].srv.t) && PT.Logged(states[i].srv.t)
  {
    RunInv(states, actions, maxConnections, i);
  }

  lemma RegistryAt(states: seq<Sys>, actions: seq<Action>, maxConnections: nat, i: nat)
    requires IsRun(states, actions, maxConnections) && i < |states|
    ensures Registry(states[i].srv.t, states[i].uuidOf, states[i].addrOf, states[i].strange)
  {
    RunInv(states, actions, maxConnections, i);
  }

  lemma AgendaAt(states: seq<Sys>, actions: seq<Action>, maxConnections: nat, i: nat)
    requires IsRun(states, actions, maxConnections) && i < |states|
    ensures SS.Agenda(states[i].srv)
  {
    RunInv(states, actions, maxConnections, i);
  }

  /** The next uid has no actors and no address yet. */
  lemma NextIsNew(states: seq<Sys>, actions: seq<Action>, maxConnections: nat, i: nat)
    requires IsRun(states, actions, maxConnections) && i < |states|
    ensures var n := states[i].srv.t.nextUid;
      n !in states[i].srv.readers && n !in states[i].srv.writers && n !in states[i].addrOf && n !in states[i].uuidOf
  {
    ActorsAt(states, actions, maxConnections, i);
    RegistryAt(states, actions, maxConnections, i);
  }

  /** Every connected peer has its actors. */
  lemma StaffedAt(states: seq<Sys>, actions: seq<Action>, maxConnections: nat, i: nat)
    requires IsRun(states, actions, maxConnections) && i < |states|
    ensures S.Staffed(states[i].srv)
  {
    ActorsAt(states, actions, maxConnections, i);
  }
}
