/** Each step of the broker, seen from one part of its state at a time. */
module ServerEffects {
  import opened Wrappers
  import opened Messages
  import opened PeerTable
  import opened Server
  import opened ServerSound
  import R = ReadActor
  import W = WriteActor

  /** The operation that a step performs on the table. */
  function TableAfter(s: Server, b: Step): Table
    requires Enabled(s, b)
  {
    match b
    case LoopHead => if |s.toDrop| == 1 then Remove(s.t, s.toDrop[0].uid, s.toDrop[0].reason) else s.t
    case Connection(addr, uuid) => if AtCapacity(s.t) then s.t else Insert(s.t, addr, uuid)
    case TcpItem(uid) =>
      if s.readers[uid].out[0].Ok? then Emit(s.t, TcpMessage(uid, s.readers[uid].out[0].value)) else s.t
    case UdpItem =>
      var d := s.udpIn.out[0];
      if d.frame.Ok? && d.frame.value.Hello? then PeerTable.Hello(s.t, d.frame.value.uuid, d.from)
      else if d.frame.Ok? && d.from in s.t.byUdp then Emit(s.t, UdpMessage(s.t.byUdp[d.from], d.frame.value.msg))
      else s.t
    case _ => s.t
  }

  /** The peer that the head of the loop drops, if any. */
  function Dropped(s: Server, b: Step): Option<Uid> {
    if b.LoopHead? && |s.toDrop| == 1 && s.toDrop[0].uid in s.t.peers then Some(s.toDrop[0].uid) else None
  }

  predicate Accepts(s: Server, b: Step) {
    b.Connection? && !AtCapacity(s.t)
  }

  function ConnectedAfter(s: Server, b: Step): set<Uid> {
    if Dropped(s, b).Some? then s.t.peers.Keys - {s.toDrop[0].uid}
    else if Accepts(s, b) then s.t.peers.Keys + {s.t.nextUid}
    else s.t.peers.Keys
  }

  function NextAfter(s: Server, b: Step): Uid {
    if Accepts(s, b) then s.t.nextUid + 1 else s.t.nextUid
  }

  lemma StepConnected(s: Server, b: Step)
    requires Enabled(s, b)
    ensures TableAfter(s, b).peers.Keys == ConnectedAfter(s, b)
    ensures TableAfter(s, b).nextUid == NextAfter(s, b)
  {
    match b
    case LoopHead =>
    case Connection(_, _) =>
    case UdpItem =>
      var d := s.udpIn.out[0];
      if d.frame.Ok? && d.frame.value.Hello? {
        assert PeerTable.Hello(s.t, d.frame.value.uuid, d.from).peers.Keys == s.t.peers.Keys;
      }
    case _ =>
  }

  function ReadersAfter(s: Server, b: Step): map<Uid, TcpReader>
    requires Enabled(s, b) && Staffed(s)
  {
    if Dropped(s, b).Some? then
      var u := s.toDrop[0].uid; s.readers[u := R.DropHandle(R.SignalShutdown(s.readers[u]).0)]
    else if Accepts(s, b) then s.readers[s.t.nextUid := R.Spawn(TCP_CHANNEL)]
    else if b.TcpItem? then s.readers[b.uid := R.Receive(s.readers[b.uid])]
    else if b.TcpReaderEnd? then s.readers[b.uid := R.Report(s.readers[b.uid])]
    else s.readers
  }

  /** The message, if any, that a step has for the write actor of a connected peer. */
  function Offered(s: Server, b: Step): Option<(Uid, TcpFromServer)>
    requires Enabled(s, b)
  {
    match b
    case UdpItem =>
      var d := s.udpIn.out[0];
      if d.frame.Ok? && d.frame.value.Hello? && Greeter(s.t, d.frame.value.uuid).Some?
      then Some((Greeter(s.t, d.frame.value.uuid).value, UdpHandshakeAcknowledged)) else None
    case Handle(ToPeerTcp(uid, msg)) => if uid in s.t.peers then Some((uid, TcpFromServer.App(msg))) else None
    case TellPeer(uid) => if s.phase.TellTcp? then Some((uid, s.phase.tcp)) else None
    case _ => None
  }

  function WritersAfter(s: Server, b: Step): map<Uid, TcpWriter>
    requires Enabled(s, b) && Staffed(s)
  {
    if Dropped(s, b).Some? then
      var u := s.toDrop[0].uid; s.writers[u := W.DropHandle(W.Offer(s.writers[u], W.Shutdown))]
    else if Accepts(s, b) then
      s.writers[s.t.nextUid := W.Offer(W.Spawn(), W.Send(TcpFromServer.Welcome(b.uuid)))]
    else if b.TcpWriterEnd? then s.writers[b.uid := W.Report(s.writers[b.uid])]
    else if Offered(s, b).Some? then
      var (u, m) := Offered(s, b).value; s.writers[u := W.Offer(s.writers[u], W.Send(m))]
    else s.writers
  }

  function CausesAfter(s: Server, b: Step): map<Uid, Cause> {
    if Dropped(s, b).Some? then s.causes[s.toDrop[0].uid := s.toDrop[0].cause] else s.causes
  }

  /** The peer, if any, that a step condemns, why, and as what its disconnect will be reported: a peer
      whose stream ended or whose writer failed has closed the connection; one that sent what cannot be
      decoded has sent unintelligible data. */
  function CondemnedBy(s: Server, b: Step): Option<Drop>
    requires Enabled(s, b)
  {
    match b
    case TcpReaderEnd(u) =>
      if R.EndedWith(s.readers[u], R.EndOfStream) then Some(Drop(u, PeerClosedConnection, ReaderEnd)) else None
    case TcpWriterEnd(u) =>
      if s.writers[u].phase == W.Finished(Controlled(W.SinkError)) then Some(Drop(u, PeerClosedConnection, WriterError)) else None
    case TcpItem(u) =>
      if s.readers[u].out[0].Garbage? then Some(Drop(u, PeerSubmittedUnintelligibleData, BadTcp)) else None
    case UdpItem =>
      var d := s.udpIn.out[0];
      if d.frame.Garbage? && d.from in s.t.byUdp
      then Some(Drop(s.t.byUdp[d.from], PeerSubmittedUnintelligibleData, BadUdp)) else None
    case _ => None
  }

  function ToDropAfter(s: Server, b: Step): seq<Drop>
    requires Enabled(s, b)
  {
    if b.LoopHead? then []
    else match CondemnedBy(s, b)
      case None => s.toDrop
      case Some(d) => s.toDrop + [d]
  }

  /** A step does to each part what the functions above say. */
  ghost predicate Effect(s: Server, b: Step, v: Server)
    requires Enabled(s, b) && Staffed(s)
  {
    && v.t == TableAfter(s, b)
    && v.readers == ReadersAfter(s, b)
    && v.writers == WritersAfter(s, b)
    && v.causes == CausesAfter(s, b)
    && v.toDrop == ToDropAfter(s, b)
    && v.udpIn == (if b.UdpItem? then R.Receive(s.udpIn) else if b.UdpReaderEnd? then R.Report(s.udpIn) else s.udpIn)
  }

  lemma HeadEffect(s: Server)
    requires |s.toDrop| <= 1 && Staffed(s) && Enabled(s, LoopHead) && SizeAssertions(s.t)
    ensures Effect(s, LoopHead, Apply(s, LoopHead))
  {
    DropAllOne(s);
  }

  lemma TcpItemEffect(s: Server, b: Step)
    requires Staffed(s) && Enabled(s, b) && b.TcpItem?
    ensures Effect(s, b, Apply(s, b))
  {
  }

  lemma GreetEffect(s: Server, uuid: Uuid, from: Addr)
    requires Staffed(s) && Greeter(s.t, uuid).Some?
    ensures var v, u := Greet(s, uuid, from), Greeter(s.t, uuid).value;
      && v.t == PeerTable.Hello(s.t, uuid, from)
      && v.readers == s.readers && v.causes == s.causes && v.toDrop == s.toDrop && v.udpIn == s.udpIn
      && v.writers == s.writers[u := W.Offer(s.writers[u], W.Send(UdpHandshakeAcknowledged))]
  {
  }

  lemma HelloItemEffect(s: Server, b: Step)
    requires Staffed(s) && Enabled(s, b) && b.UdpItem?
    requires s.udpIn.out[0].frame.Ok? && s.udpIn.out[0].frame.value.Hello?
    ensures Effect(s, b, Apply(s, b))
  {
    var d := s.udpIn.out[0];
    if Greeter(s.t, d.frame.value.uuid).Some? {
      GreetEffect(TakeUdpItem(s), d.frame.value.uuid, d.from);
    }
  }

  lemma UdpItemEffect(s: Server, b: Step)
    requires Staffed(s) && Enabled(s, b) && b.UdpItem?
    requires s.udpIn.out[0].frame.Garbage? || !s.udpIn.out[0].frame.value.Hello?
    ensures Effect(s, b, Apply(s, b))
  {
  }

  lemma TcpEndEffect(s: Server, b: Step)
    requires Staffed(s) && Enabled(s, b)
    requires b.TcpReaderEnd? || b.TcpWriterEnd?
    ensures Effect(s, b, Apply(s, b))
  {
  }

  lemma UdpReaderEndEffect(s: Server, b: Step)
    requires Staffed(s) && Enabled(s, b) && b.UdpReaderEnd?
    ensures Effect(s, b, Apply(s, b))
  {
  }

  lemma UdpWriterEndEffect(s: Server, b: Step)
    requires Staffed(s) && Enabled(s, b) && b.UdpWriterEnd?
    ensures Effect(s, b, Apply(s, b))
  {
  }

  lemma OtherEffect(s: Server, b: Step)
    requires Staffed(s) && Enabled(s, b)
    requires b.Connection? || b.FailedConnection? || b.GoneConnection? || b.HeartbeatTick? || b.HandlesDropped? || b.ListenerEnd?
    ensures Effect(s, b, Apply(s, b))
  {
  }

  lemma TellEffect(s: Server, b: Step)
    requires Staffed(s) && Enabled(s, b)
    requires b.TellPeer? || b.TellDone?
    ensures Effect(s, b, Apply(s, b))
  {
  }

  lemma HandleEffect(s: Server, b: Step)
    requires Staffed(s) && Enabled(s, b) && b.Handle?
    ensures Effect(s, b, Apply(s, b))
  {
  }

  lemma StepEffect(s: Server, b: Step)
    requires |s.toDrop| <= 1 && Staffed(s) && Enabled(s, b)
    requires b.LoopHead? ==> SizeAssertions(s.t)
    ensures Effect(s, b, Apply(s, b))
  {
    match b
    case LoopHead => HeadEffect(s);
    case TcpItem(_) => TcpItemEffect(s, b);
    case UdpItem =>
      if s.udpIn.out[0].frame.Ok? && s.udpIn.out[0].frame.value.Hello? {
        HelloItemEffect(s, b);
      } else {
        UdpItemEffect(s, b);
      }
    case TcpReaderEnd(_) => TcpEndEffect(s, b);
    case TcpWriterEnd(_) => TcpEndEffect(s, b);
    case UdpReaderEnd => UdpReaderEndEffect(s, b);
    case UdpWriterEnd => UdpWriterEndEffect(s, b);
    case TellPeer(_) => TellEffect(s, b);
    case TellDone => TellEffect(s, b);
    case Handle(_) => HandleEffect(s, b);
    case _ => OtherEffect(s, b);
  }
}
