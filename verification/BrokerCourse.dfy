/** What each step of the broker logs, how it goes on after it, and when it does not: said of the state
    before the step, apart from what the step does to the broker's variables. */
module BrokerCourse {
  import opened Wrappers
  import opened Messages
  import opened Server
  import PT = PeerTable
  import SS = ServerSound
  import SE = ServerEffects
  import R = ReadActor
  import W = WriteActor

  // ---- When the broker stops ----

  /** Some index has more entries than it may. */
  predicate SizesWrong(t: PT.Table) {
    |t.byTcp| < |t.byUdp| || |t.peers| < |t.byTcp| || |t.peers| < |t.byUdp| || |t.peers| < |t.byUuid|
  }

  /** The end of one of the actors of a peer, of which the broker asserts that it comes after the drop. */
  predicate GrantedEnd(s: Server, b: Step)
    requires Enabled(s, b)
  {
    match b
    case TcpReaderEnd(u) =>
      R.EndedWith(s.readers[u], R.Signalled) || R.EndedWith(s.readers[u], R.ActorHandlesDropped)
      || R.EndedWith(s.readers[u], R.ReceiverClosedChannel)
    case TcpWriterEnd(u) =>
      s.writers[u].phase == W.Finished(Controlled(W.Signalled))
      || s.writers[u].phase == W.Finished(Controlled(W.ActorHandlesDropped))
    case _ => false
  }

  /** The broker fails an assertion with this step. */
  predicate FailsAssertion(s: Server, b: Step)
    requires Enabled(s, b)
  {
    (b.LoopHead? && SizesWrong(s.t)) || (GrantedEnd(s, b) && b.uid in s.t.peers)
  }

  /** It reaches a place marked unreachable. */
  predicate ReachesUnreachable(s: Server, b: Step)
    requires Enabled(s, b)
  {
    || (b.UdpReaderEnd? &&
         (R.EndedWith(s.udpIn, R.ActorHandlesDropped) || R.EndedWith(s.udpIn, R.ReceiverClosedChannel)))
    || (b.UdpWriterEnd? && s.udpOut.phase == W.Finished(Controlled(W.ActorHandlesDropped)))
  }

  /** It panics because of the UDP socket: the stream or the sink is gone, or one of the tasks is. */
  predicate PanicsAboutUdp(s: Server, b: Step)
    requires Enabled(s, b)
  {
    || (b.UdpReaderEnd? && (R.EndedWith(s.udpIn, R.EndOfStream) || s.udpIn.phase.shutdown.Erratic?))
    || (b.UdpWriterEnd? && (s.udpOut.phase == W.Finished(Controlled(W.SinkError)) || s.udpOut.phase.shutdown.Erratic?))
  }

  lemma HeadHalts(s: Server)
    requires |s.toDrop| <= 1 && Staffed(s) && Enabled(s, LoopHead)
    ensures Apply(s, LoopHead).halt == if SizesWrong(s.t) then Some(AssertionFailed) else None
    ensures !SizesWrong(s.t) ==> Apply(s, LoopHead).phase == Await && Apply(s, LoopHead).toDrop == []
  {
    SS.DropAllOne(s);
  }

  lemma EndHalts(s: Server, b: Step)
    requires Staffed(s) && Enabled(s, b) && (b.TcpReaderEnd? || b.TcpWriterEnd?)
    ensures Apply(s, b).halt == if FailsAssertion(s, b) then Some(AssertionFailed) else None
    ensures Apply(s, b).phase == Head
  {
  }

  lemma UdpEndHalts(s: Server, b: Step)
    requires Staffed(s) && Enabled(s, b) && (b.UdpReaderEnd? || b.UdpWriterEnd?)
    ensures Apply(s, b).halt ==
      if ReachesUnreachable(s, b) then Some(UnreachableReached) else if PanicsAboutUdp(s, b) then Some(UdpPanic) else None
    ensures Apply(s, b).phase == Head
  {
  }

  lemma ItemGoesOn(s: Server, b: Step)
    requires Staffed(s) && Enabled(s, b) && (b.TcpItem? || b.UdpItem?)
    ensures Apply(s, b).halt == None && Apply(s, b).phase == Head
  {
  }

  /** When the broker stops, and why: in no other case does it. */
  function HaltAfter(s: Server, b: Step): Option<Halt>
    requires Enabled(s, b)
  {
    if FailsAssertion(s, b) then Some(AssertionFailed)
    else if ReachesUnreachable(s, b) then Some(UnreachableReached)
    else if PanicsAboutUdp(s, b) then Some(UdpPanic)
    else if b.GoneConnection? then Some(NoPeerAddress)
    else if b.HandlesDropped? || b.ListenerEnd? then Some(Unimplemented)
    else None
  }

  lemma StepHalts(s: Server, b: Step)
    requires |s.toDrop| <= 1 && Staffed(s) && Enabled(s, b)
    ensures Apply(s, b).halt == HaltAfter(s, b)
  {
    if b.LoopHead? {
      HeadHalts(s);
    } else if b.TcpReaderEnd? || b.TcpWriterEnd? {
      EndHalts(s, b);
    } else if b.UdpReaderEnd? || b.UdpWriterEnd? {
      UdpEndHalts(s, b);
    } else if b.TcpItem? || b.UdpItem? {
      ItemGoesOn(s, b);
    } else {
      RestGoesOn(s, b);
    }
  }

  predicate Rest(b: Step) {
    !b.LoopHead? && !b.TcpReaderEnd? && !b.TcpWriterEnd? && !b.UdpReaderEnd? && !b.UdpWriterEnd? && !b.TcpItem? && !b.UdpItem?
  }

  lemma RestGoesOn(s: Server, b: Step)
    requires Staffed(s) && Enabled(s, b) && Rest(b)
    ensures Apply(s, b).halt == HaltAfter(s, b)
    ensures Apply(s, b).phase == PhaseAfter(s, b)
  {
  }

  // ---- Where the broker goes on ----

  /** After whatever it has handled it goes to the head of its loop, and from there to await the next
      item; unless what it has handled asks for an announcement, or it is busy with one. */
  function PhaseAfter(s: Server, b: Step): Phase
    requires Enabled(s, b)
  {
    match b
    case LoopHead => Await
    case HeartbeatTick => TellUdp(Heartbeat, s.t.peers.Keys)
    case Handle(AnnounceTcp(msg)) => TellTcp(TcpFromServer.App(msg), s.t.peers.Keys)
    case Handle(AnnounceUdp(msg)) => TellUdp(UdpFromServer.App(msg), s.t.peers.Keys)
    case TellPeer(u) =>
      if s.phase.TellTcp? then TellTcp(s.phase.tcp, s.phase.todo - {u}) else TellUdp(s.phase.udp, s.phase.todo - {u})
    case GoneConnection => s.phase
    case HandlesDropped => s.phase
    case ListenerEnd => s.phase
    case _ => Head
  }

  lemma StepGoesOn(s: Server, b: Step)
    requires |s.toDrop| <= 1 && Staffed(s) && Enabled(s, b) && HaltAfter(s, b).None?
    ensures Apply(s, b).phase == PhaseAfter(s, b)
  {
    if b.LoopHead? {
      HeadHalts(s);
    } else if b.TcpReaderEnd? || b.TcpWriterEnd? {
      EndHalts(s, b);
    } else if b.UdpReaderEnd? || b.UdpWriterEnd? {
      UdpEndHalts(s, b);
    } else if b.TcpItem? || b.UdpItem? {
      ItemGoesOn(s, b);
    } else {
      RestGoesOn(s, b);
    }
  }

  // ---- What the broker logs ----

  /** What a step of the broker that does not fail logs: the disconnect of the peer that is dropped, with
      the reason for which it was condemned; a new peer, under the next uid, if there is room for one; a
      message that was decoded, as one of the peer whose reader it came from, or over UDP of the peer
      indexed by the address it came from. */
  function EventsOf(s: Server, b: Step): seq<Event>
    requires Enabled(s, b)
  {
    match b
    case LoopHead =>
      if |s.toDrop| == 1 && s.toDrop[0].uid in s.t.peers then [PeerDisconnect(s.toDrop[0].uid, s.toDrop[0].reason)] else []
    case Connection(_, _) => if |s.t.peers| < s.t.maxConnections then [NewPeer(s.t.nextUid)] else []
    case TcpItem(u) =>
      (match s.readers[u].out[0]
       case Ok(m) => [TcpMessage(u, m)]
       case Garbage => [])
    case UdpItem =>
      (match s.udpIn.out[0]
       case Datagram(Ok(App(msg)), from) => if from in s.t.byUdp then [UdpMessage(s.t.byUdp[from], msg)] else []
       case _ => [])
    case _ => []
  }

  lemma StepLogs(s: Server, b: Step)
    requires Enabled(s, b)
    ensures SE.TableAfter(s, b).log == s.t.log + EventsOf(s, b)
  {
  }

  /** The disconnects that dropping these peers in turn logs, each of a peer that is still connected. */
  function Disconnects(peers: set<Uid>, ds: seq<Drop>): seq<Event> {
    if ds == [] then []
    else if ds[0].uid in peers
    then [PeerDisconnect(ds[0].uid, ds[0].reason)] + Disconnects(peers - {ds[0].uid}, ds[1..])
    else Disconnects(peers, ds[1..])
  }

  lemma DropLogs(s: Server, d: Drop)
    requires Staffed(s)
    ensures var v := DropPeer(s, d);
      && v.t.peers.Keys == s.t.peers.Keys - {d.uid}
      && v.t.log == s.t.log + (if d.uid in s.t.peers then [PeerDisconnect(d.uid, d.reason)] else [])
  {
  }

  /** However many drops are pending, each connected peer among them is dropped once, in their order. */
  lemma {:induction false} DropAllLogs(s: Server, ds: seq<Drop>)
    requires Staffed(s)
    ensures DropAll(s, ds).t.log == s.t.log + Disconnects(s.t.peers.Keys, ds)
    ensures forall u :: u in DropAll(s, ds).t.peers <==> u in s.t.peers && forall d :: d in ds ==> d.uid != u
    decreases |ds|
  {
    if ds != [] {
      DropLogs(s, ds[0]);
      DropAllLogs(DropPeer(s, ds[0]), ds[1..]);
      assert ds == [ds[0]] + ds[1..];
      if ds[0].uid !in s.t.peers {
        assert s.t.peers.Keys - {ds[0].uid} == s.t.peers.Keys;
      }
    }
  }

  // ---- What the broker may take while it awaits ----

  /** The broker takes whatever is there: any item that a reader has forwarded, and the end of any actor
      once, that of a reader after its last item. */
  lemma AwaitsAll(s: Server, u: Uid)
    requires s.halt.None? && s.phase.Await?
    ensures Enabled(s, TcpItem(u)) <==> u in s.readers && s.readers[u].out != []
    ensures Enabled(s, TcpReaderEnd(u)) <==>
              u in s.readers && s.readers[u].phase.Finished? && s.readers[u].out == [] && !s.readers[u].reported
    ensures Enabled(s, TcpWriterEnd(u)) <==> u in s.writers && s.writers[u].phase.Finished? && !s.writers[u].reported
    ensures Enabled(s, UdpItem) <==> s.udpIn.out != []
    ensures Enabled(s, UdpReaderEnd) <==> s.udpIn.phase.Finished? && s.udpIn.out == [] && !s.udpIn.reported
    ensures Enabled(s, UdpWriterEnd) <==> s.udpOut.phase.Finished? && !s.udpOut.reported
    ensures forall cmd: Command :: Enabled(s, Handle(cmd))
    ensures forall addr: Addr, uuid: Uuid :: Enabled(s, Connection(addr, uuid))
    ensures Enabled(s, HeartbeatTick)
  {
  }

  /** A step that condemns a peer does not stop the broker. */
  lemma CondemningGoesOn(s: Server, b: Step)
    requires Enabled(s, b) && SE.CondemnedBy(s, b).Some?
    ensures HaltAfter(s, b).None? && PhaseAfter(s, b) == Head && EventsOf(s, b) == []
  {
  }
}
