/** The IO actors of connected and of dropped peers: what every step of the broker keeps about them. */
module ServerActors {
  import opened Wrappers
  import opened Messages
  import opened PeerTable
  import opened Server
  import R = ReadActor
  import W = WriteActor

  /** The actors of a connected peer were never asked to stop. Those of a dropped one have lost their
      handles, and its reader was sent at most one Shutdown. */
  ghost predicate ActorsOk(connected: bool, r: TcpReader, w: TcpWriter) {
    && R.Inv(r) && W.Inv(w) && r.open && r.capacity == 65
    && (connected ==> R.Quiet(r) && W.Quiet(w))
    && (!connected ==> !r.handle && !w.handle && r.signals <= 1)
  }

  ghost predicate Crew(connected: set<Uid>, next: Uid, rs: map<Uid, TcpReader>, ws: map<Uid, TcpWriter>) {
    && (forall u: Uid :: u in rs <==> u < next)
    && (forall u: Uid :: u in ws <==> u < next)
    && (forall u: Uid :: u in connected ==> u < next)
    && (forall u: Uid :: u in rs ==> ActorsOk(u in connected, rs[u], ws[u]))
  }

  ghost predicate UdpOk(r: UdpReader, w: UdpWriter) {
    R.Inv(r) && R.Quiet(r) && r.capacity == 257 && W.Inv(w) && W.Quiet(w)
  }

  ghost predicate Actors(s: Server) {
    Crew(s.t.peers.Keys, s.t.nextUid, s.readers, s.writers) && UdpOk(s.udpIn, s.udpOut)
  }

  // ---- One peer ----

  lemma CrewReader(connected: set<Uid>, next: Uid, rs: map<Uid, TcpReader>, ws: map<Uid, TcpWriter>, u: Uid, r: TcpReader)
    requires Crew(connected, next, rs, ws)
    requires u in rs && ActorsOk(u in connected, r, ws[u])
    ensures Crew(connected, next, rs[u := r], ws)
  {
  }

  lemma CrewWriter(connected: set<Uid>, next: Uid, rs: map<Uid, TcpReader>, ws: map<Uid, TcpWriter>, u: Uid, w: TcpWriter)
    requires Crew(connected, next, rs, ws)
    requires u in rs && ActorsOk(u in connected, rs[u], w)
    ensures Crew(connected, next, rs, ws[u := w])
  {
  }

  lemma CrewJoins(connected: set<Uid>, next: Uid, rs: map<Uid, TcpReader>, ws: map<Uid, TcpWriter>, uuid: Uuid)
    requires Crew(connected, next, rs, ws)
    ensures Crew(connected + {next}, next + 1, rs[next := R.Spawn(TCP_CHANNEL)],
                 ws[next := W.Offer(W.Spawn(), W.Send(TcpFromServer.Welcome(uuid)))])
  {
    W.OfferInv(W.Spawn<TcpFromServer>(), W.Send(TcpFromServer.Welcome(uuid)));
    assert ActorsOk(true, R.Spawn(TCP_CHANNEL), W.Offer(W.Spawn(), W.Send(TcpFromServer.Welcome(uuid))));
  }

  /** Dropping a connected peer leaves its actors without handles, with one Shutdown each unless the
      writer's queue was full. The reader's control queue is empty until then, so it never refuses. */
  lemma DroppedActorsOk(r: TcpReader, w: TcpWriter)
    requires ActorsOk(true, r, w)
    ensures ActorsOk(false, R.DropHandle(R.SignalShutdown(r).0), W.DropHandle(W.Offer(w, W.Shutdown)))
    ensures R.SignalShutdown(r).1 != ChannelFull
    ensures !r.phase.Finished? ==> R.DropHandle(R.SignalShutdown(r).0).control == 1
    ensures !w.phase.Finished? && |w.queue| < 33 ==> W.DropHandle(W.Offer(w, W.Shutdown)).queue == w.queue + [W.Shutdown]
  {
    R.HandleInv(r);
    R.HandleInv(R.SignalShutdown(r).0);
    W.OfferInv(w, W.Shutdown);
  }

  /** A reader was sent no Shutdown while its peer is connected, and at most one ever. */
  lemma SignalledOnce(connected: bool, r: TcpReader, w: TcpWriter)
    requires ActorsOk(connected, r, w)
    ensures r.control <= r.signals <= 1 && (connected ==> r.signals == 0 && R.SignalShutdown(r).1 != ChannelFull)
  {
  }

  lemma CrewLeaves(connected: set<Uid>, next: Uid, rs: map<Uid, TcpReader>, ws: map<Uid, TcpWriter>, u: Uid)
    requires Crew(connected, next, rs, ws) && u in connected
    ensures Crew(connected - {u}, next, rs[u := R.DropHandle(R.SignalShutdown(rs[u]).0)],
                 ws[u := W.DropHandle(W.Offer(ws[u], W.Shutdown))])
  {
    assert u in rs;
    DroppedActorsOk(rs[u], ws[u]);
  }

  lemma ReceiveActorsOk(connected: bool, r: TcpReader, w: TcpWriter)
    requires ActorsOk(connected, r, w)
    ensures r.out != [] ==> ActorsOk(connected, R.Receive(r), w)
    ensures R.MarkerDue(r) ==> ActorsOk(connected, R.Report(r), w)
    ensures W.MarkerDue(w) ==> ActorsOk(connected, r, W.Report(w))
  {
    if r.out != [] {
      R.ReceiveInv(r);
    }
  }

  lemma UdpReceived(r: UdpReader, w: UdpWriter)
    requires UdpOk(r, w)
    ensures r.out != [] ==> UdpOk(R.Receive(r), w)
    ensures R.MarkerDue(r) ==> UdpOk(R.Report(r), w)
    ensures W.MarkerDue(w) ==> UdpOk(r, W.Report(w))
  {
    if r.out != [] {
      R.ReceiveInv(r);
    }
  }

  // ---- One operation of the broker ----

  lemma AcceptParts(s: Server, addr: Addr, uuid: Uuid)
    requires !AtCapacity(s.t)
    ensures var v, n := Accept(s, addr, uuid), s.t.nextUid;
      && v.t.peers.Keys == s.t.peers.Keys + {n} && v.t.nextUid == n + 1
      && v.readers == s.readers[n := R.Spawn(TCP_CHANNEL)]
      && v.writers == s.writers[n := W.Offer(W.Spawn(), W.Send(TcpFromServer.Welcome(uuid)))]
      && v.udpIn == s.udpIn && v.udpOut == s.udpOut
  {
  }

  lemma AcceptActors(s: Server, addr: Addr, uuid: Uuid)
    requires Actors(s)
    ensures Actors(Accept(s, addr, uuid))
  {
    if !AtCapacity(s.t) {
      CrewJoins(s.t.peers.Keys, s.t.nextUid, s.readers, s.writers, uuid);
      AcceptParts(s, addr, uuid);
    }
  }

  lemma DropActors(s: Server, d: Drop)
    requires Actors(s)
    ensures Actors(DropPeer(s, d))
  {
    if d.uid in s.t.peers {
      CrewLeaves(s.t.peers.Keys, s.t.nextUid, s.readers, s.writers, d.uid);
      assert DropPeer(s, d).t.peers.Keys == s.t.peers.Keys - {d.uid};
    }
  }

  lemma {:induction false} DropAllActors(s: Server, ds: seq<Drop>)
    requires Actors(s)
    ensures Actors(DropAll(s, ds))
    decreases |ds|
  {
    if ds != [] {
      DropActors(s, ds[0]);
      DropAllActors(DropPeer(s, ds[0]), ds[1..]);
    }
  }

  lemma SendTcpActors(s: Server, uid: Uid, m: TcpFromServer)
    requires Actors(s) && uid in s.t.peers
    ensures Actors(SendTcp(s, uid, m))
  {
    var w := s.writers[uid];
    assert uid in s.readers && ActorsOk(true, s.readers[uid], w);
    W.OfferInv(w, W.Send(m));
    W.QuietOffer(w, W.Send(m));
    CrewWriter(s.t.peers.Keys, s.t.nextUid, s.readers, s.writers, uid, W.Offer(w, W.Send(m)));
  }

  lemma SendUdpActors(s: Server, m: W.Msg<(UdpFromServer, Addr)>)
    requires Actors(s) && !m.Shutdown?
    ensures Actors(SendUdp(s, m))
  {
    W.OfferInv(s.udpOut, m);
    W.QuietOffer(s.udpOut, m);
  }

  lemma GreetActors(s: Server, uuid: Uuid, from: Addr)
    requires Actors(s) && Greeter(s.t, uuid).Some?
    ensures Actors(Greet(s, uuid, from))
  {
    var uid := Greeter(s.t, uuid).value;
    var g := s.(t := PeerTable.Hello(s.t, uuid, from));
    assert g.t.peers.Keys == s.t.peers.Keys;
    SendTcpActors(g, uid, UdpHandshakeAcknowledged);
    SendUdpActors(SendTcp(g, uid, UdpHandshakeAcknowledged), W.Send((UdpFromServer.Welcome, from)));
  }

  lemma TellActors(s: Server, uid: Uid)
    requires Actors(s) && (s.phase.TellTcp? || s.phase.TellUdp?) && uid in s.t.peers
    ensures Actors(Tell(s, uid))
  {
    if s.phase.TellTcp? {
      SendTcpActors(s.(phase := TellTcp(s.phase.tcp, s.phase.todo - {uid})), uid, s.phase.tcp);
    } else {
      SendUdpActors(s.(phase := TellUdp(s.phase.udp, s.phase.todo - {uid})), W.Feed((s.phase.udp, s.t.peers[uid].tcp)));
    }
  }

  lemma ExecuteActors(s: Server, c: Command)
    requires Actors(s)
    ensures Actors(Execute(s, c))
  {
    match c
    case ToPeerTcp(uid, msg) =>
      if uid in s.t.peers {
        SendTcpActors(s, uid, TcpFromServer.App(msg));
      }
    case ToPeerUdp(uid, msg) =>
      if uid in s.t.peers && s.t.peers[uid].udp.Some? {
        SendUdpActors(s, W.Send((UdpFromServer.App(msg), s.t.peers[uid].udp.value)));
      }
    case _ =>
  }

  lemma TakeTcpItemActors(s: Server, uid: Uid)
    requires Actors(s) && uid in s.readers && s.readers[uid].out != []
    ensures Actors(TakeTcpItem(s, uid))
  {
    ReceiveActorsOk(uid in s.t.peers, s.readers[uid], s.writers[uid]);
    CrewReader(s.t.peers.Keys, s.t.nextUid, s.readers, s.writers, uid, R.Receive(s.readers[uid]));
  }

  lemma NoteReaderEndActors(s: Server, uid: Uid)
    requires Actors(s) && uid in s.readers && R.MarkerDue(s.readers[uid])
    ensures Actors(NoteReaderEnd(s, uid))
  {
    ReceiveActorsOk(uid in s.t.peers, s.readers[uid], s.writers[uid]);
    CrewReader(s.t.peers.Keys, s.t.nextUid, s.readers, s.writers, uid, R.Report(s.readers[uid]));
  }

  lemma NoteWriterEndActors(s: Server, uid: Uid)
    requires Actors(s) && uid in s.writers && W.MarkerDue(s.writers[uid])
    ensures Actors(NoteWriterEnd(s, uid))
  {
    assert uid in s.readers;
    ReceiveActorsOk(uid in s.t.peers, s.readers[uid], s.writers[uid]);
    CrewWriter(s.t.peers.Keys, s.t.nextUid, s.readers, s.writers, uid, W.Report(s.writers[uid]));
  }

  lemma FromTcpActors(s: Server, uid: Uid, f: Frame<TcpToServer>)
    requires Actors(s)
    ensures Actors(FromTcp(s, uid, f))
  {
  }

  lemma FromUdpActors(s: Server, d: Datagram)
    requires Actors(s)
    ensures Actors(FromUdp(s, d))
  {
    if d.frame.Ok? && d.frame.value.Hello? && Greeter(s.t, d.frame.value.uuid).Some? {
      GreetActors(s, d.frame.value.uuid, d.from);
    }
  }

  lemma EndedActors(s: Server, uid: Uid, how: ActorShutdown<R.Reason>, how': ActorShutdown<W.Reason>)
    requires Actors(s)
    ensures Actors(ReaderEnded(s, uid, how)) && Actors(WriterEnded(s, uid, how'))
  {
    HaltedActors(s);
    CondemnedActors(s);
  }

  lemma CondemnedActors(s: Server)
    requires Actors(s)
    ensures forall d :: Actors(Condemn(s, d))
  {
  }

  lemma UdpEndedActors(s: Server, how: ActorShutdown<R.Reason>, how': ActorShutdown<W.Reason>)
    requires Actors(s)
    ensures Actors(UdpReaderEnded(s, how)) && Actors(UdpWriterEnded(s, how'))
  {
    HaltedActors(s);
  }

  lemma HaltedActors(s: Server)
    requires Actors(s)
    ensures forall h :: Actors(Halted(s, h))
  {
  }

  lemma TakeUdpActors(s: Server)
    requires Actors(s)
    ensures s.udpIn.out != [] ==> Actors(TakeUdpItem(s))
    ensures R.MarkerDue(s.udpIn) ==> Actors(NoteUdpReaderEnd(s))
    ensures W.MarkerDue(s.udpOut) ==> Actors(NoteUdpWriterEnd(s))
  {
    UdpReceived(s.udpIn, s.udpOut);
  }

  // ---- A step of the broker ----

  lemma EndActors(s: Server, b: Step)
    requires Actors(s) && Enabled(s, b)
    requires b.TcpReaderEnd? || b.TcpWriterEnd? || b.UdpReaderEnd? || b.UdpWriterEnd?
    ensures Actors(Apply(s, b))
  {
    match b
    case TcpReaderEnd(uid) =>
      NoteReaderEndActors(s, uid);
      EndedActors(NoteReaderEnd(s, uid), uid, s.readers[uid].phase.shutdown, Controlled(W.Signalled));
    case TcpWriterEnd(uid) =>
      NoteWriterEndActors(s, uid);
      EndedActors(NoteWriterEnd(s, uid), uid, Controlled(R.Signalled), s.writers[uid].phase.shutdown);
    case UdpReaderEnd =>
      TakeUdpActors(s);
      UdpEndedActors(NoteUdpReaderEnd(s), s.udpIn.phase.shutdown, Controlled(W.Signalled));
    case UdpWriterEnd =>
      TakeUdpActors(s);
      UdpEndedActors(NoteUdpWriterEnd(s), Controlled(R.Signalled), s.udpOut.phase.shutdown);
  }

  lemma ItemActors(s: Server, b: Step)
    requires Actors(s) && Enabled(s, b)
    requires b.TcpItem? || b.UdpItem?
    ensures Actors(Apply(s, b))
  {
    if b.TcpItem? {
      TakeTcpItemActors(s, b.uid);
      FromTcpActors(TakeTcpItem(s, b.uid), b.uid, s.readers[b.uid].out[0]);
    } else {
      TakeUdpActors(s);
      FromUdpActors(TakeUdpItem(s), s.udpIn.out[0]);
    }
  }

  lemma OtherActors(s: Server, b: Step)
    requires Actors(s) && Enabled(s, b)
    requires !b.TcpItem? && !b.UdpItem?
    requires !b.TcpReaderEnd? && !b.TcpWriterEnd? && !b.UdpReaderEnd? && !b.UdpWriterEnd?
    ensures Actors(Apply(s, b))
  {
    match b
    case LoopHead => DropAllActors(s.(toDrop := []), s.toDrop);
    case Connection(addr, uuid) => AcceptActors(s.(phase := Head), addr, uuid);
    case Handle(cmd) => ExecuteActors(s.(phase := Head), cmd);
    case TellPeer(uid) => TellActors(s, uid);
    case TellDone => SendUdpActors(s.(phase := Head), W.Flush);
    case _ =>
  }

  lemma StepActors(s: Server, b: Step)
    requires Actors(s) && Enabled(s, b)
    ensures Actors(Apply(s, b))
  {
    if b.TcpItem? || b.UdpItem? {
      ItemActors(s, b);
    } else if b.TcpReaderEnd? || b.TcpWriterEnd? || b.UdpReaderEnd? || b.UdpWriterEnd? {
      EndActors(s, b);
    } else {
      OtherActors(s, b);
    }
  }
}
