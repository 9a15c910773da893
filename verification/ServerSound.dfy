/** Pending drops, zombies, and the broker's assertions. */
module ServerSound {
  import opened Wrappers
  import opened Messages
  import opened PeerTable
  import opened Server
  import opened ServerActors
  import R = ReadActor
  import W = WriteActor

  // ---- Pending drops ----

  /** The list of pending drops never holds more than one entry, and is empty whenever the broker
      awaits or announces. */
  ghost predicate Agenda(s: Server) {
    && |s.toDrop| <= 1
    && (!s.phase.Head? ==> s.toDrop == [])
    && (s.toDrop != [] ==> s.toDrop[0].uid < s.t.nextUid)
    && (s.phase.TellTcp? || s.phase.TellUdp? ==> s.phase.todo <= s.t.peers.Keys)
    && (s.phase.TellTcp? ==> s.phase.tcp.App?)
  }

  lemma DropAllOne(s: Server)
    requires Staffed(s) && |s.toDrop| <= 1
    ensures DropAll(s.(toDrop := []), s.toDrop) ==
            if s.toDrop == [] then s else DropPeer(s.(toDrop := []), s.toDrop[0])
  {
    if s.toDrop != [] {
      var d := s.toDrop[0];
      assert s.toDrop == [d] && s.toDrop[1..] == [];
      assert DropAll(s.(toDrop := []), [d]) == DropAll(DropPeer(s.(toDrop := []), d), []);
    } else {
      assert s.(toDrop := []) == s;
    }
  }

  /** Every uid in sight was issued. */
  ghost predicate Issued(s: Server) {
    && Staffed(s) && UidsBelow(s.t)
    && (forall u :: u in s.readers || u in s.writers ==> u < s.t.nextUid)
    && (forall a :: a in s.t.byUdp ==> s.t.byUdp[a] < s.t.nextUid)
  }

  lemma ActorsIssued(s: Server)
    requires Actors(s) && UdpExact(s.t)
    ensures Issued(s)
  {
  }

  lemma HeadAgenda(s: Server)
    requires Agenda(s) && Issued(s) && Enabled(s, LoopHead)
    ensures Agenda(Apply(s, LoopHead))
  {
    DropAllOne(s);
  }

  lemma ItemAgenda(s: Server, b: Step)
    requires Agenda(s) && Issued(s) && Enabled(s, b)
    requires b.TcpItem? || b.UdpItem?
    ensures Agenda(Apply(s, b))
  {
  }

  lemma EndAgenda(s: Server, b: Step)
    requires Agenda(s) && Issued(s) && Enabled(s, b)
    requires b.TcpReaderEnd? || b.TcpWriterEnd? || b.UdpReaderEnd? || b.UdpWriterEnd?
    ensures Agenda(Apply(s, b))
  {
  }

  lemma StepAgenda(s: Server, b: Step)
    requires Agenda(s) && Issued(s) && Enabled(s, b)
    ensures Agenda(Apply(s, b))
  {
    if b.LoopHead? {
      HeadAgenda(s);
    } else if b.TcpItem? || b.UdpItem? {
      ItemAgenda(s, b);
    } else if b.TcpReaderEnd? || b.TcpWriterEnd? || b.UdpReaderEnd? || b.UdpWriterEnd? {
      EndAgenda(s, b);
    }
  }

  // ---- Zombies ----

  predicate ReaderReported(r: TcpReader) {
    r.reported && r.phase.Finished? && r.phase.shutdown.Controlled?
  }

  predicate WriterReported(w: TcpWriter) {
    w.reported && w.phase.Finished? && w.phase.shutdown.Controlled?
  }

  predicate Condemned(toDrop: seq<Drop>, u: Uid) {
    toDrop != [] && toDrop[0].uid == u
  }

  /** A connected peer one of whose actors is known to have ended on its own terms is about to be
      dropped. */
  ghost predicate NoZombies(connected: set<Uid>, rs: map<Uid, TcpReader>, ws: map<Uid, TcpWriter>, toDrop: seq<Drop>) {
    && (forall u: Uid :: u in connected && u in rs && ReaderReported(rs[u]) ==> Condemned(toDrop, u))
    && (forall u: Uid :: u in connected && u in ws && WriterReported(ws[u]) ==> Condemned(toDrop, u))
  }

  ghost predicate Clean(s: Server) {
    NoZombies(s.t.peers.Keys, s.readers, s.writers, s.toDrop)
  }

  lemma AcceptClean(s: Server, addr: Addr, uuid: Uuid)
    requires Clean(s)
    ensures Clean(Accept(s, addr, uuid))
  {
    if !AtCapacity(s.t) {
      assert Accept(s, addr, uuid).t.peers.Keys == s.t.peers.Keys + {s.t.nextUid};
    }
  }

  lemma DropClean(s: Server)
    requires Clean(s) && Staffed(s) && |s.toDrop| <= 1
    ensures s.toDrop != [] ==> Clean(DropPeer(s.(toDrop := []), s.toDrop[0]))
  {
    if s.toDrop != [] && s.toDrop[0].uid in s.t.peers {
      var d := s.toDrop[0];
      assert DropPeer(s.(toDrop := []), d).t.peers.Keys == s.t.peers.Keys - {d.uid};
    }
  }

  lemma SendTcpClean(s: Server, uid: Uid, m: TcpFromServer)
    requires Clean(s) && uid in s.writers
    ensures Clean(SendTcp(s, uid, m))
  {
  }

  lemma TakeTcpItemClean(s: Server, uid: Uid)
    requires Clean(s) && uid in s.readers && s.readers[uid].out != []
    ensures Clean(TakeTcpItem(s, uid))
  {
  }

  lemma GreetClean(s: Server, uuid: Uuid, from: Addr)
    requires Clean(s) && Greeter(s.t, uuid).Some? && Greeter(s.t, uuid).value in s.writers
    ensures Clean(Greet(s, uuid, from))
  {
    var g := s.(t := PeerTable.Hello(s.t, uuid, from));
    assert g.t.peers.Keys == s.t.peers.Keys;
    SendTcpClean(g, Greeter(s.t, uuid).value, UdpHandshakeAcknowledged);
  }

  lemma ReaderEndClean(s: Server, uid: Uid)
    requires Clean(s) && s.toDrop == [] && uid in s.readers && R.MarkerDue(s.readers[uid])
    requires uid in s.t.peers ==> R.Quiet(s.readers[uid])
    ensures Clean(ReaderEnded(NoteReaderEnd(s, uid), uid, s.readers[uid].phase.shutdown))
  {
    var v := NoteReaderEnd(s, uid);
    assert forall u: Uid :: u in v.t.peers && u in v.readers && ReaderReported(v.readers[u]) ==> u == uid;
  }

  lemma WriterEndClean(s: Server, uid: Uid)
    requires Clean(s) && s.toDrop == [] && uid in s.writers && W.MarkerDue(s.writers[uid])
    requires uid in s.t.peers ==> W.Quiet(s.writers[uid])
    ensures Clean(WriterEnded(NoteWriterEnd(s, uid), uid, s.writers[uid].phase.shutdown))
  {
    var v := NoteWriterEnd(s, uid);
    assert forall u: Uid :: u in v.t.peers && u in v.writers && WriterReported(v.writers[u]) ==> u == uid;
  }

  /** With no drop pending there is no zombie, so condemning a peer is harmless. */
  lemma CondemnClean(s: Server, d: Drop)
    requires Clean(s) && s.toDrop == []
    ensures Clean(Condemn(s, d))
  {
  }

  lemma ItemClean(s: Server, b: Step)
    requires Clean(s) && s.toDrop == [] && Staffed(s) && Enabled(s, b)
    requires b.TcpItem? || b.UdpItem?
    ensures Clean(Apply(s, b))
  {
    if b.TcpItem? {
      TakeTcpItemClean(s, b.uid);
      var v := TakeTcpItem(s, b.uid);
      CondemnClean(v, Drop(b.uid, PeerSubmittedUnintelligibleData, BadTcp));
    } else {
      var v, d := TakeUdpItem(s), s.udpIn.out[0];
      if d.frame.Ok? && d.frame.value.Hello? && Greeter(s.t, d.frame.value.uuid).Some? {
        GreetClean(v, d.frame.value.uuid, d.from);
      } else if d.frame.Garbage? && d.from in s.t.byUdp {
        CondemnClean(v, Drop(s.t.byUdp[d.from], PeerSubmittedUnintelligibleData, BadUdp));
      }
    }
  }

  lemma HeadClean(s: Server)
    requires Clean(s) && |s.toDrop| <= 1 && Staffed(s) && Enabled(s, LoopHead)
    ensures Clean(Apply(s, LoopHead))
  {
    DropAllOne(s);
    DropClean(s);
  }

  lemma TellClean(s: Server, b: Step)
    requires Clean(s) && Staffed(s) && Enabled(s, b)
    requires b.TellPeer? || b.Handle?
    ensures Clean(Apply(s, b))
  {
    if b.TellPeer? {
      if s.phase.TellTcp? {
        SendTcpClean(s.(phase := TellTcp(s.phase.tcp, s.phase.todo - {b.uid})), b.uid, s.phase.tcp);
      }
    } else if b.cmd.ToPeerTcp? && b.cmd.uid in s.t.peers {
      SendTcpClean(s.(phase := Head), b.cmd.uid, TcpFromServer.App(b.cmd.msg));
    }
  }

  /** The actor whose end is being reported, if its peer is still connected, was left alone. */
  ghost predicate EndingQuietly(s: Server, b: Step) {
    match b
    case TcpReaderEnd(uid) => uid in s.readers && uid in s.t.peers ==> R.Quiet(s.readers[uid])
    case TcpWriterEnd(uid) => uid in s.writers && uid in s.t.peers ==> W.Quiet(s.writers[uid])
    case UdpReaderEnd => R.Quiet(s.udpIn)
    case UdpWriterEnd => W.Quiet(s.udpOut)
    case _ => true
  }

  lemma ActorsEndQuietly(s: Server, b: Step)
    requires Actors(s)
    ensures EndingQuietly(s, b)
  {
    if b.TcpReaderEnd? || b.TcpWriterEnd? {
      assert b.uid in s.readers ==> ActorsOk(b.uid in s.t.peers, s.readers[b.uid], s.writers[b.uid]);
    }
  }

  lemma StepClean(s: Server, b: Step)
    requires Clean(s) && Agenda(s) && Staffed(s) && EndingQuietly(s, b) && Enabled(s, b)
    ensures Clean(Apply(s, b))
  {
    if b.LoopHead? {
      HeadClean(s);
    } else if b.Connection? {
      AcceptClean(s.(phase := Head), b.addr, b.uuid);
    } else if b.TcpItem? || b.UdpItem? {
      ItemClean(s, b);
    } else if b.TcpReaderEnd? {
      ReaderEndClean(s, b.uid);
    } else if b.TcpWriterEnd? {
      WriterEndClean(s, b.uid);
    } else if b.TellPeer? || b.Handle? {
      TellClean(s, b);
    }
  }

  // ---- Assertions ----

  predicate AssertionsHold(s: Server) {
    s.halt != Some(AssertionFailed) && s.halt != Some(UnreachableReached)
  }

  /** The head of the loop halts exactly when the size assertions fail. */
  lemma HeadAssertions(s: Server)
    requires |s.toDrop| <= 1 && Staffed(s) && Enabled(s, LoopHead)
    ensures AssertionsHold(Apply(s, LoopHead)) <==> SizeAssertions(s.t)
  {
    DropAllOne(s);
  }

  lemma EndAssertions(s: Server, b: Step)
    requires Staffed(s) && EndingQuietly(s, b) && Enabled(s, b)
    requires b.TcpReaderEnd? || b.TcpWriterEnd? || b.UdpReaderEnd? || b.UdpWriterEnd?
    ensures AssertionsHold(Apply(s, b))
  {
  }

  lemma ItemAssertions(s: Server, b: Step)
    requires Staffed(s) && Enabled(s, b) && !b.LoopHead?
    requires !b.TcpReaderEnd? && !b.TcpWriterEnd? && !b.UdpReaderEnd? && !b.UdpWriterEnd?
    ensures AssertionsHold(Apply(s, b))
  {
  }

  /** While the indexes are exact, no step of the broker fails an assertion or reaches a place marked
      unreachable: an actor of a connected peer has no way to end as signalled, for want of a handle,
      or for want of a receiver. */
  lemma StepAssertions(s: Server, b: Step)
    requires |s.toDrop| <= 1 && Staffed(s) && EndingQuietly(s, b) && Enabled(s, b) && Exact(s.t)
    ensures AssertionsHold(Apply(s, b))
  {
    if b.LoopHead? {
      ExactSizes(s.t);
      HeadAssertions(s);
    } else if b.TcpReaderEnd? || b.TcpWriterEnd? || b.UdpReaderEnd? || b.UdpWriterEnd? {
      EndAssertions(s, b);
    } else {
      ItemAssertions(s, b);
    }
  }
}
