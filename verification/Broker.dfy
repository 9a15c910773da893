/** The broker as code: its state updated in place, its helpers, and one turn of its loop. Each method
    is proved to do what `Server` says. */
module Broker {
  import opened Wrappers
  import opened Messages
  import opened PeerTable
  import opened Server
  import S = Server
  import K = BrokerCourse
  import R = ReadActor
  import W = WriteActor
  import opened Announcements

  class Broker {
    const maxConnections: nat
    var peers: map<Uid, Peer>
    var nextUid: Uid
    var byTcp: map<Addr, Uid>
    var byUdp: map<Addr, Uid>
    var byUuid: map<Uuid, Uid>
    var log: seq<Event>
    var toDrop: seq<Drop>
    var readers: map<Uid, TcpReader>
    var writers: map<Uid, TcpWriter>
    var udpIn: UdpReader
    var udpOut: UdpWriter
    var answers: seq<nat>
    ghost var phase: Phase
    ghost var halt: Option<Halt>
    ghost var causes: map<Uid, Cause>

    ghost function Tables(): Table
      reads this
    {
      Table(maxConnections, peers, nextUid, byTcp, byUdp, byUuid, log)
    }

    ghost function View(): Server
      reads this
    {
      Server(Tables(), phase, toDrop, readers, writers, udpIn, udpOut, halt, causes, answers)
    }

    constructor (maxConnections: nat)
      ensures View() == Start(maxConnections)
    {
      this.maxConnections := maxConnections;
      peers, nextUid, byTcp, byUdp, byUuid, log, toDrop := map[], 0, map[], map[], map[], [], [];
      readers, writers, udpIn, udpOut, answers := map[], map[], R.Spawn(UDP_CHANNEL), W.Spawn(), [];
      phase, halt, causes := Head, None, map[];
    }

    /** Spawns the two IO actors of a new peer and sends the peer its Welcome. */
    method SpawnActors(uid: Uid, uuid: Uuid)
      modifies this`readers, this`writers
      ensures readers == old(readers)[uid := R.Spawn(TCP_CHANNEL)]
      ensures writers == old(writers)[uid := W.Offer(W.Spawn(), W.Send(TcpFromServer.Welcome(uuid)))]
    {
      readers := readers[uid := R.Spawn(TCP_CHANNEL)];
      var writer: TcpWriter := W.Spawn();
      writer := W.Offer(writer, W.Send(TcpFromServer.Welcome(uuid)));
      writers := writers[uid := writer];
    }

    /** Enters a new peer into the table and the indexes. */
    method RegisterPeer(addr: Addr, uuid: Uuid) returns (uid: Uid)
      modifies this`peers, this`nextUid, this`byTcp, this`byUuid, this`log
      ensures uid == old(nextUid) && Tables() == Insert(old(Tables()), addr, uuid)
    {
      uid := nextUid;
      nextUid := nextUid + 1;
      byTcp := byTcp[addr := uid];
      byUuid := byUuid[uuid := uid];
      peers := peers[uid := Peer(addr, None, uuid)];
      log := log + [NewPeer(uid)];
    }

    method HandleNewTcpConnection(addr: Addr, uuid: Uuid)
      modifies this
      ensures View() == Accept(old(View()), addr, uuid)
      ensures log == old(log) + if |old(peers)| < maxConnections then [NewPeer(old(nextUid))] else []
    {
      if |peers| >= maxConnections {
        // The server is at capacity; the stream is dropped.
        return;
      }
      var uid := RegisterPeer(addr, uuid);
      SpawnActors(uid, uuid);
    }

    /** Signals the two IO actors of a peer to shut down and drops their handles. A refused signal is
        only logged. */
    method ReleaseActors(uid: Uid)
      requires uid in readers && uid in writers
      modifies this`readers, this`writers
      ensures View() == old(View()).(
        readers := old(readers)[uid := R.DropHandle(R.SignalShutdown(old(readers)[uid]).0)],
        writers := old(writers)[uid := W.DropHandle(W.Offer(old(writers)[uid], W.Shutdown))])
    {
      var (reader, _) := R.SignalShutdown(readers[uid]);
      readers := readers[uid := R.DropHandle(reader)];
      var (writer, _) := W.TrySend(writers[uid], W.Shutdown);
      writers := writers[uid := W.DropHandle(writer)];
    }

    /** Takes a peer out of the table and the indexes. */
    method ForgetPeer(uid: Uid, reason: DisconnectReason)
      requires uid in peers
      modifies this`peers, this`byTcp, this`byUdp, this`byUuid, this`log
      ensures Tables() == Remove(old(Tables()), uid, reason)
    {
      var peer := peers[uid];
      peers := peers - {uid};
      byTcp := byTcp - {peer.tcp};
      if peer.udp.Some? {
        byUdp := byUdp - {peer.udp.value};
      }
      byUuid := byUuid - {peer.uuid};
      log := log + [PeerDisconnect(uid, reason)];
    }

    method DropPeer(d: Drop)
      requires d.uid in peers ==> d.uid in readers && d.uid in writers
      modifies this`peers, this`byTcp, this`byUdp, this`byUuid, this`log, this`readers, this`writers, this`causes
      ensures View() == S.DropPeer(old(View()), d)
      ensures log == old(log) + if d.uid in old(peers) then [PeerDisconnect(d.uid, d.reason)] else []
    {
      if d.uid in peers {
        ForgetPeer(d.uid, d.reason);
        ReleaseActors(d.uid);
        causes := causes[d.uid := d.cause];
      }
    }

    /** Drains the list of pending drops. */
    method Drain()
      requires Staffed(View())
      modifies this
      ensures View() == DropAll(old(View()).(toDrop := []), old(toDrop))
      ensures log == old(log) + K.Disconnects(old(peers.Keys), old(toDrop))
    {
      var ds := toDrop;
      toDrop := [];
      ghost var start := View();
      var i := 0;
      assert ds[0..] == ds;
      while i < |ds|
        invariant i <= |ds| && Staffed(View())
        invariant DropAll(View(), ds[i..]) == DropAll(start, ds)
      {
        assert ds[i..][0] == ds[i] && ds[i..][1..] == ds[i+1..];
        DropPeer(ds[i]);
        i := i + 1;
      }
      K.DropAllLogs(start, ds);
    }

    /** While the TCP and UUID indexes are exact, the answer is whether no more entries of the UDP index
        are stale than peers are without one; it is yes if that index is exact too. */
    method AssertInvariants() returns (ok: bool)
      ensures ok == SizeAssertions(Tables())
      ensures TcpExact(Tables()) && UuidExact(Tables()) ==> (ok <==> |Stale(Tables())| <= |Unindexed(Tables())|)
      ensures Exact(Tables()) ==> ok
    {
      if TcpExact(Tables()) && UuidExact(Tables()) {
        SizesCounted(Tables());
      }
      ok := |byTcp| >= |byUdp| && |peers| >= |byTcp| && |peers| >= |byUdp| && |peers| >= |byUuid|;
    }

    /** Offers the message to the write actor of every connected peer. */
    method AnnounceTcp(msg: TcpFromServer)
      requires Staffed(View())
      modifies this`writers
      ensures writers == ToldAll(old(writers), peers.Keys, msg)
    {
      ghost var ws := writers;
      var todo := peers.Keys;
      while todo != {}
        invariant todo <= peers.Keys
        invariant writers == ToldAll(ws, peers.Keys - todo, msg)
        decreases |todo|
      {
        var uid :| uid in todo;
        writers := writers[uid := W.Offer(writers[uid], W.Send(msg))];
        assert writers == ToldAll(ws, peers.Keys - (todo - {uid}), msg);
        todo := todo - {uid};
      }
      assert peers.Keys - todo == peers.Keys;
    }

    /** Feeds the UDP write actor one copy for every connected peer, in the order in which the map happens
        to yield them, and then a flush. */
    method AnnounceUdp(msg: UdpFromServer) returns (ghost order: seq<Uid>)
      modifies this`udpOut
      ensures Visits(order, peers.Keys)
      ensures udpOut == W.Offer(FeedAll(old(udpOut), Copies(msg, peers, order)), W.Flush)
    {
      ghost var w := udpOut;
      order := [];
      var todo := peers.Keys;
      while todo != {}
        invariant todo <= peers.Keys && Visits(order, peers.Keys - todo)
        invariant udpOut == FeedAll(w, Copies(msg, peers, order))
        decreases |todo|
      {
        var uid :| uid in todo;
        udpOut := W.Offer(udpOut, W.Feed((msg, peers[uid].tcp)));
        todo := todo - {uid};
        FeedOneMore(w, msg, peers, order, uid);
        order := order + [uid];
      }
      assert peers.Keys - todo == peers.Keys;
      udpOut := W.Offer(udpOut, W.Flush);
    }

    /** A message from a server handle that is no announcement. */
    method HandleRequest(cmd: Command)
      requires Staffed(View()) && !cmd.AnnounceTcp? && !cmd.AnnounceUdp?
      modifies this`writers, this`udpOut, this`answers
      ensures View() == Execute(old(View()), cmd)
    {
      match cmd
      case ToPeerTcp(uid, msg) =>
        if uid in peers {
          writers := writers[uid := W.Offer(writers[uid], W.Send(TcpFromServer.App(msg)))];
        }
      case ToPeerUdp(uid, msg) =>
        if uid in peers && peers[uid].udp.Some? {
          udpOut := W.Offer(udpOut, W.Send((UdpFromServer.App(msg), peers[uid].udp.value)));
        }
      case GetNumberOfConnectedPeers => answers := answers + [|peers|];
    }

    /** Records where a peer says Hello from. An older UDP address of the same peer stays indexed. */
    method RecordHello(uid: Uid, uuid: Uuid, from: Addr)
      requires Greeter(Tables(), uuid) == Some(uid)
      modifies this`peers, this`byUdp
      ensures Tables() == PeerTable.Hello(old(Tables()), uuid, from)
    {
      peers := peers[uid := peers[uid].(udp := Some(from))];
      byUdp := byUdp[from := uid];
    }

    method HandleHello(uuid: Uuid, from: Addr)
      requires Staffed(View())
      modifies this`peers, this`byUdp, this`writers, this`udpOut
      ensures View() == FromUdp(old(View()), Datagram(Ok(UdpToServer.Hello(uuid)), from))
    {
      if uuid !in byUuid {
        return;
      }
      var uid := byUuid[uuid];
      if uid !in peers {
        return;
      }
      RecordHello(uid, uuid, from);
      writers := writers[uid := W.Offer(writers[uid], W.Send(UdpHandshakeAcknowledged))];
      udpOut := W.Offer(udpOut, W.Send((UdpFromServer.Welcome, from)));
    }

    method HandleUdpReaderStreamItem(m: UdpToServer, from: Addr)
      requires Staffed(View())
      modifies this`peers, this`byUdp, this`writers, this`udpOut, this`log
      ensures View() == FromUdp(old(View()), Datagram(Ok(m), from))
    {
      match m
      case Hello(uuid) => HandleHello(uuid, from);
      case App(msg) =>
        if from in byUdp {
          log := log + [UdpMessage(byUdp[from], msg)];
        }
    }

    method HandleTcpReaderStreamItem(m: TcpToServer, uid: Uid)
      modifies this`log
      ensures View() == FromTcp(old(View()), uid, Ok(m))
    {
      log := log + [TcpMessage(uid, m)];
    }

    // ---- The arms of the loop ----

    method OnTcpItem(uid: Uid)
      requires phase.Await? && uid in readers && readers[uid].out != []
      modifies this`readers, this`log, this`toDrop, this`phase
      ensures View() == FromTcp(TakeTcpItem(old(View()), uid), uid, old(readers)[uid].out[0])
    {
      var item := readers[uid].out[0];
      readers := readers[uid := R.Receive(readers[uid])];
      phase := Head;
      match item
      case Ok(m) => HandleTcpReaderStreamItem(m, uid);
      case Garbage => toDrop := toDrop + [Drop(uid, PeerSubmittedUnintelligibleData, BadTcp)];
    }

    method OnUdpItem()
      requires phase.Await? && udpIn.out != [] && Staffed(View())
      modifies this`peers, this`byUdp, this`writers, this`udpOut, this`udpIn, this`log, this`toDrop, this`phase
      ensures View() == FromUdp(TakeUdpItem(old(View())), old(udpIn).out[0])
    {
      var d := udpIn.out[0];
      udpIn := R.Receive(udpIn);
      phase := Head;
      match d.frame
      case Ok(m) => HandleUdpReaderStreamItem(m, d.from);
      case Garbage =>
        if d.from in byUdp {
          toDrop := toDrop + [Drop(byUdp[d.from], PeerSubmittedUnintelligibleData, BadUdp)];
        }
    }

    method OnReaderEnd(uid: Uid)
      requires phase.Await? && uid in readers && R.MarkerDue(readers[uid])
      modifies this`readers, this`toDrop, this`phase, this`halt
      ensures View() == ReaderEnded(NoteReaderEnd(old(View()), uid), uid, old(readers)[uid].phase.shutdown)
      ensures R.EndedWith(old(readers)[uid], R.EndOfStream) ==>
        halt == old(halt) && toDrop == old(toDrop) + [Drop(uid, PeerClosedConnection, ReaderEnd)]
      ensures halt != old(halt) ==> uid in peers && old(readers)[uid].phase.shutdown.Controlled?
    {
      var how := readers[uid].phase.shutdown;
      readers := readers[uid := R.Report(readers[uid])];
      phase := Head;
      match how
      case Controlled(EndOfStream) => toDrop := toDrop + [Drop(uid, PeerClosedConnection, ReaderEnd)];
      case Controlled(_) =>
        if uid in peers {
          halt := Some(AssertionFailed);
        }
      case Erratic(_) =>
    }

    method OnWriterEnd(uid: Uid)
      requires phase.Await? && uid in writers && W.MarkerDue(writers[uid])
      modifies this`writers, this`toDrop, this`phase, this`halt
      ensures View() == WriterEnded(NoteWriterEnd(old(View()), uid), uid, old(writers)[uid].phase.shutdown)
      ensures old(writers)[uid].phase == W.Finished(Controlled(W.SinkError)) ==>
        halt == old(halt) && toDrop == old(toDrop) + [Drop(uid, PeerClosedConnection, WriterError)]
      ensures halt != old(halt) ==> uid in peers && old(writers)[uid].phase.shutdown.Controlled?
    {
      var how := writers[uid].phase.shutdown;
      writers := writers[uid := W.Report(writers[uid])];
      phase := Head;
      match how
      case Controlled(SinkError) => toDrop := toDrop + [Drop(uid, PeerClosedConnection, WriterError)];
      case Controlled(_) =>
        if uid in peers {
          halt := Some(AssertionFailed);
        }
      case Erratic(_) =>
    }

    /** The head of the loop: check the sizes, drop the condemned, go and await the next item. */
    method OnLoopHead() returns (ok: bool)
      requires halt.None? && phase.Head? && Staffed(View())
      modifies this
      ensures ok == SizeAssertions(old(Tables())) && View() == AtHead(old(View()))
    {
      ok := AssertInvariants();
      if !ok {
        halt := Some(AssertionFailed);
        return;
      }
      Drain();
      phase := Await;
    }

    /** A whole announcement over TCP. The steps of `Server`, taken in any order of the peers, come to
        the same. */
    method OnAnnounceTcp(msg: TcpFromServer)
      requires halt.None? && Staffed(View()) && phase == TellTcp(msg, peers.Keys)
      modifies this`writers, this`phase
      ensures View() == old(View()).(phase := Head, writers := ToldAll(old(writers), peers.Keys, msg))
      ensures forall order :: Visits(order, peers.Keys) ==>
        CanRun(old(View()), Tells(order) + [TellDone]) && View() == RunSteps(old(View()), Tells(order) + [TellDone])
    {
      ghost var start := View();
      AnnounceTcp(msg);
      phase := Head;
      forall order | Visits(order, peers.Keys)
        ensures CanRun(start, Tells(order) + [TellDone]) && View() == RunSteps(start, Tells(order) + [TellDone])
      {
        TellAllSteps(start, msg, order);
      }
    }

    /** A whole announcement over UDP, when the socket's writer does not run meanwhile. */
    method OnAnnounceUdp(msg: UdpFromServer) returns (ghost order: seq<Uid>)
      requires halt.None? && Staffed(View()) && phase == TellUdp(msg, peers.Keys)
      modifies this`udpOut, this`phase
      ensures Visits(order, peers.Keys)
      ensures View() == old(View()).(phase := Head,
                                     udpOut := W.Offer(FeedAll(old(udpOut), Copies(msg, peers, order)), W.Flush))
      ensures CanRun(old(View()), Tells(order) + [TellDone]) && View() == RunSteps(old(View()), Tells(order) + [TellDone])
    {
      ghost var start := View();
      order := AnnounceUdp(msg);
      phase := Head;
      TellAllUdpSteps(start, msg, order);
    }

    /** The end of one of the IO actors. */
    method OnActorEnd(b: Step)
      requires Staffed(View()) && phase.Await? && Enabled(View(), b)
      requires b.TcpReaderEnd? || b.TcpWriterEnd? || b.UdpReaderEnd? || b.UdpWriterEnd?
      modifies this
      ensures View() == S.Apply(old(View()), b)
    {
      match b
      case TcpReaderEnd(uid) => OnReaderEnd(uid);
      case TcpWriterEnd(uid) => OnWriterEnd(uid);
      case UdpReaderEnd => OnUdpReaderEnd();
      case UdpWriterEnd => OnUdpWriterEnd();
    }

    method OnUdpReaderEnd()
      requires phase.Await? && R.MarkerDue(udpIn)
      modifies this`udpIn, this`phase, this`halt
      ensures View() == UdpReaderEnded(NoteUdpReaderEnd(old(View())), old(udpIn).phase.shutdown)
    {
      var how := udpIn.phase.shutdown;
      udpIn := R.Report(udpIn);
      phase := Head;
      match how
      case Controlled(Signalled) =>
      case Controlled(EndOfStream) => halt := Some(UdpPanic);
      case Controlled(_) => halt := Some(UnreachableReached);
      case Erratic(_) => halt := Some(UdpPanic);
    }

    method OnUdpWriterEnd()
      requires phase.Await? && W.MarkerDue(udpOut)
      modifies this`udpOut, this`phase, this`halt
      ensures View() == UdpWriterEnded(NoteUdpWriterEnd(old(View())), old(udpOut).phase.shutdown)
    {
      var how := udpOut.phase.shutdown;
      udpOut := W.Report(udpOut);
      phase := Head;
      match how
      case Controlled(Signalled) =>
      case Controlled(SinkError) => halt := Some(UdpPanic);
      case Controlled(ActorHandlesDropped) => halt := Some(UnreachableReached);
      case Erratic(_) => halt := Some(UdpPanic);
    }

    /** A message from a server handle. `more` is the telling of the peers if it is an announcement. */
    method HandleActorMessage(cmd: Command) returns (ghost more: seq<Step>)
      requires halt.None? && Staffed(View())
      modifies this`writers, this`udpOut, this`answers, this`phase
      ensures CanRun(Execute(old(View()), cmd), more) && View() == RunSteps(Execute(old(View()), cmd), more)
      ensures more == [] <==> !cmd.AnnounceTcp? && !cmd.AnnounceUdp?
    {
      ghost var order: seq<Uid>;
      match cmd
      case AnnounceTcp(msg) =>
        phase := TellTcp(TcpFromServer.App(msg), peers.Keys);
        order := AnyOrder(peers.Keys);
        OnAnnounceTcp(TcpFromServer.App(msg));
        more := Tells(order) + [TellDone];
      case AnnounceUdp(msg) =>
        phase := TellUdp(UdpFromServer.App(msg), peers.Keys);
        order := OnAnnounceUdp(UdpFromServer.App(msg));
        more := Tells(order) + [TellDone];
      case _ =>
        HandleRequest(cmd);
        RunNone(View());
        more := [];
    }

    method OnHeartbeat() returns (ghost more: seq<Step>)
      requires phase.Await? && halt.None? && Staffed(View())
      modifies this`udpOut, this`phase
      ensures CanRun(S.Apply(old(View()), HeartbeatTick), more)
      ensures View() == RunSteps(S.Apply(old(View()), HeartbeatTick), more)
    {
      phase := TellUdp(Heartbeat, peers.Keys);
      ghost var order := OnAnnounceUdp(Heartbeat);
      more := Tells(order) + [TellDone];
    }

    /** One turn of the loop, from its head to the end of its body, during which no IO actor runs. `b` is
        what comes out of the merged streams, looked at after the drops; `more` is the telling of the
        peers if it is an announcement. */
    method Turn(b: Step) returns (ghost more: seq<Step>)
      requires halt.None? && phase.Head? && Staffed(View())
      requires SizeAssertions(Tables()) ==> Enabled(AtHead(View()), b) && AtHead(View()).phase.Await?
      modifies this
      ensures old(!SizeAssertions(Tables())) ==> View() == Halted(old(View()), AssertionFailed)
      ensures old(SizeAssertions(Tables())) ==>
        var s := S.Apply(AtHead(old(View())), b); CanRun(s, more) && View() == RunSteps(s, more)
    {
      more := [];
      var ok := OnLoopHead();
      if ok {
        more := Arm(b);
      }
    }

    /** The arm of the loop's `match` for one incoming item. */
    method Arm(b: Step) returns (ghost more: seq<Step>)
      requires phase.Await? && Staffed(View()) && Enabled(View(), b)
      modifies this
      ensures CanRun(S.Apply(old(View()), b), more) && View() == RunSteps(S.Apply(old(View()), b), more)
    {
      if b.HeartbeatTick? {
        more := OnHeartbeat();
      } else if b.Handle? {
        phase := Head;
        more := HandleActorMessage(b.cmd);
      } else {
        ActorsStay(View(), b);
        OnItem(b);
        RunNone(View());
        more := [];
      }
    }

    method OnItem(b: Step)
      requires phase.Await? && Staffed(View()) && Enabled(View(), b) && !b.HeartbeatTick? && !b.Handle?
      modifies this
      ensures View() == S.Apply(old(View()), b)
    {
      if b.TcpReaderEnd? || b.TcpWriterEnd? || b.UdpReaderEnd? || b.UdpWriterEnd? {
        OnActorEnd(b);
      } else if b.TcpItem? {
        OnTcpItem(b.uid);
      } else if b.UdpItem? {
        OnUdpItem();
      } else if b.Connection? {
        phase := Head;
        HandleNewTcpConnection(b.addr, b.uuid);
      } else if b.FailedConnection? {
        phase := Head;
      } else if b.GoneConnection? {
        halt := Some(NoPeerAddress);
      } else {
        // Nobody is left to send commands, or the listener is gone: not implemented.
        halt := Some(Unimplemented);
      }
    }
  }

  /** Every connected peer keeps its two actors, whatever comes in. */
  lemma ActorsStay(s: Server, b: Step)
    requires s.phase.Await? && Staffed(s) && Enabled(s, b) && !b.HeartbeatTick? && !b.Handle?
    ensures Staffed(S.Apply(s, b))
  {
    if b.TcpItem? {
      ActorsStayOnTcp(s, b);
    } else if b.UdpItem? {
      ActorsStayOnUdp(s, b);
    } else if b.TcpReaderEnd? || b.TcpWriterEnd? || b.UdpReaderEnd? || b.UdpWriterEnd? {
      ActorsStayOnEnd(s, b);
    }
  }

  lemma ActorsStayOnTcp(s: Server, b: Step)
    requires Staffed(s) && Enabled(s, b) && b.TcpItem?
    ensures Staffed(S.Apply(s, b))
  {
  }

  lemma ActorsStayOnUdp(s: Server, b: Step)
    requires Staffed(s) && Enabled(s, b) && b.UdpItem?
    ensures Staffed(S.Apply(s, b))
  {
  }

  lemma ActorsStayOnEnd(s: Server, b: Step)
    requires Staffed(s) && Enabled(s, b)
    requires b.TcpReaderEnd? || b.TcpWriterEnd? || b.UdpReaderEnd? || b.UdpWriterEnd?
    ensures Staffed(S.Apply(s, b))
  {
  }

  lemma AnyOrder(todo: set<Uid>) returns (order: seq<Uid>)
    ensures Visits(order, todo)
  {
    order := [];
    if todo != {} {
      var u :| u in todo;
      var front := AnyOrder(todo - {u});
      order := front + [u];
    }
  }
}
