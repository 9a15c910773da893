/** The broker: the server's event loop, together with the IO actors it supervises.

    `Server` holds the broker's variables and its end of every channel. `Step` is one atomic thing
    the broker does: the head of its loop, or the handling of one incoming item. Announcements visit
    the peers one at a time, in any order, so that the IO actors may run in between. */
module Server {
  import opened Wrappers
  import opened Messages
  import opened PeerTable
  import R = ReadActor
  import W = WriteActor

  /** Why the broker decided to drop a peer. */
  datatype Cause = ReaderEnd | WriterError | BadTcp | BadUdp

  datatype Drop = Drop(uid: Uid, reason: DisconnectReason, cause: Cause)

  datatype Command =
    | ToPeerTcp(uid: Uid, msg: Text)
    | ToPeerUdp(uid: Uid, msg: Text)
    | AnnounceTcp(msg: Text)
    | AnnounceUdp(msg: Text)
    | GetNumberOfConnectedPeers

  datatype Phase =
    | Head
    | Await
    | TellTcp(tcp: TcpFromServer, todo: set<Uid>)
    | TellUdp(udp: UdpFromServer, todo: set<Uid>)

  /** How the broker's task ends: by a failed assertion, at a place marked unreachable, by an explicit
      panic about the UDP socket, because a new connection has no peer address any more, or at a place
      left unimplemented. */
  datatype Halt = AssertionFailed | UnreachableReached | UdpPanic | NoPeerAddress | Unimplemented

  datatype Datagram = Datagram(frame: Frame<UdpToServer>, from: Addr)

  type TcpReader = R.Reader<Frame<TcpToServer>>
  type TcpWriter = W.Writer<TcpFromServer>
  type UdpReader = R.Reader<Datagram>
  type UdpWriter = W.Writer<(UdpFromServer, Addr)>

  /** Channels between a read actor and the broker hold this many items, plus one for the sender. */
  const TCP_CHANNEL: nat := 65
  const UDP_CHANNEL: nat := 257

  /** `causes` and `answers` are histories: why each dropped peer was dropped, and the replies given
      to GetNumberOfConnectedPeers. */
  datatype Server = Server(
    t: Table,
    phase: Phase,
    toDrop: seq<Drop>,
    readers: map<Uid, TcpReader>,
    writers: map<Uid, TcpWriter>,
    udpIn: UdpReader,
    udpOut: UdpWriter,
    halt: Option<Halt>,
    causes: map<Uid, Cause>,
    answers: seq<nat>)

  function Start(maxConnections: nat): Server {
    Server(Empty(maxConnections), Head, [], map[], map[], R.Spawn(UDP_CHANNEL), W.Spawn(), None, map[], [])
  }

  // ---- What the broker does ----

  function Accept(s: Server, addr: Addr, uuid: Uuid): Server {
    if AtCapacity(s.t) then s
    else
      var uid := s.t.nextUid;
      s.(t := Insert(s.t, addr, uuid),
         readers := s.readers[uid := R.Spawn(TCP_CHANNEL)],
         writers := s.writers[uid := W.Offer(W.Spawn(), W.Send(TcpFromServer.Welcome(uuid)))])
  }

  function DropPeer(s: Server, d: Drop): Server
    requires d.uid in s.t.peers ==> d.uid in s.readers && d.uid in s.writers
  {
    if d.uid !in s.t.peers then s
    else
      s.(t := Remove(s.t, d.uid, d.reason),
         readers := s.readers[d.uid := R.DropHandle(R.SignalShutdown(s.readers[d.uid]).0)],
         writers := s.writers[d.uid := W.DropHandle(W.Offer(s.writers[d.uid], W.Shutdown))],
         causes := s.causes[d.uid := d.cause])
  }

  /** Every connected peer has its two actors. */
  predicate Staffed(s: Server) {
    forall u :: u in s.t.peers ==> u in s.readers && u in s.writers
  }

  function DropAll(s: Server, ds: seq<Drop>): (r: Server)
    requires Staffed(s)
    ensures Staffed(r)
    decreases |ds|
  {
    if ds == [] then s else DropAll(DropPeer(s, ds[0]), ds[1..])
  }

  function SendTcp(s: Server, uid: Uid, m: TcpFromServer): Server
    requires uid in s.writers
  {
    s.(writers := s.writers[uid := W.Offer(s.writers[uid], W.Send(m))])
  }

  function SendUdp(s: Server, m: W.Msg<(UdpFromServer, Addr)>): Server {
    s.(udpOut := W.Offer(s.udpOut, m))
  }

  function Condemn(s: Server, d: Drop): Server {
    s.(toDrop := s.toDrop + [d])
  }

  function Execute(s: Server, c: Command): Server
    requires Staffed(s)
  {
    match c
    case ToPeerTcp(uid, msg) =>
      if uid in s.t.peers then SendTcp(s, uid, TcpFromServer.App(msg)) else s
    case ToPeerUdp(uid, msg) =>
      if uid in s.t.peers && s.t.peers[uid].udp.Some?
      then SendUdp(s, W.Send((UdpFromServer.App(msg), s.t.peers[uid].udp.value)))
      else s
    case AnnounceTcp(msg) => s.(phase := TellTcp(TcpFromServer.App(msg), s.t.peers.Keys))
    case AnnounceUdp(msg) => s.(phase := TellUdp(UdpFromServer.App(msg), s.t.peers.Keys))
    case GetNumberOfConnectedPeers => s.(answers := s.answers + [|s.t.peers|])
  }

  function FromTcp(s: Server, uid: Uid, f: Frame<TcpToServer>): Server {
    match f
    case Ok(m) => s.(t := Emit(s.t, TcpMessage(uid, m)))
    case Garbage => Condemn(s, Drop(uid, PeerSubmittedUnintelligibleData, BadTcp))
  }

  function FromUdp(s: Server, d: Datagram): Server
    requires Staffed(s)
  {
    match d.frame
    case Ok(Hello(uuid)) =>
      if Greeter(s.t, uuid).None? then s else Greet(s, uuid, d.from)
    case Ok(App(msg)) =>
      if d.from in s.t.byUdp then s.(t := Emit(s.t, UdpMessage(s.t.byUdp[d.from], msg))) else s
    case Garbage =>
      if d.from in s.t.byUdp
      then Condemn(s, Drop(s.t.byUdp[d.from], PeerSubmittedUnintelligibleData, BadUdp))
      else s
  }

  // Taking what is next off a channel, or noting the end of an actor, and returning to the loop's head.

  function TakeTcpItem(s: Server, uid: Uid): Server
    requires uid in s.readers && s.readers[uid].out != []
  {
    s.(phase := Head, readers := s.readers[uid := R.Receive(s.readers[uid])])
  }

  function NoteReaderEnd(s: Server, uid: Uid): Server
    requires uid in s.readers
  {
    s.(phase := Head, readers := s.readers[uid := R.Report(s.readers[uid])])
  }

  function NoteWriterEnd(s: Server, uid: Uid): Server
    requires uid in s.writers
  {
    s.(phase := Head, writers := s.writers[uid := W.Report(s.writers[uid])])
  }

  function TakeUdpItem(s: Server): Server
    requires s.udpIn.out != []
  {
    s.(phase := Head, udpIn := R.Receive(s.udpIn))
  }

  function NoteUdpReaderEnd(s: Server): Server {
    s.(phase := Head, udpIn := R.Report(s.udpIn))
  }

  function NoteUdpWriterEnd(s: Server): Server {
    s.(phase := Head, udpOut := W.Report(s.udpOut))
  }

  /** An announcement reaches one more peer: on TCP through its own writer, on UDP by feeding the
      socket's writer a copy addressed to the peer's TCP address. */
  function Tell(s: Server, uid: Uid): Server
    requires (s.phase.TellTcp? || s.phase.TellUdp?) && uid in s.t.peers && uid in s.writers
  {
    if s.phase.TellTcp?
    then SendTcp(s.(phase := TellTcp(s.phase.tcp, s.phase.todo - {uid})), uid, s.phase.tcp)
    else SendUdp(s.(phase := TellUdp(s.phase.udp, s.phase.todo - {uid})), W.Feed((s.phase.udp, s.t.peers[uid].tcp)))
  }

  /** A Hello that is attributed to a connected peer. */
  function Greet(s: Server, uuid: Uuid, from: Addr): Server
    requires Greeter(s.t, uuid).Some? && Greeter(s.t, uuid).value in s.writers
  {
    SendUdp(SendTcp(s.(t := PeerTable.Hello(s.t, uuid, from)), Greeter(s.t, uuid).value, UdpHandshakeAcknowledged),
            W.Send((UdpFromServer.Welcome, from)))
  }

  function Halted(s: Server, h: Halt): Server {
    s.(halt := Some(h))
  }

  function ReaderEnded(s: Server, uid: Uid, how: ActorShutdown<R.Reason>): Server {
    match how
    case Controlled(EndOfStream) => Condemn(s, Drop(uid, PeerClosedConnection, ReaderEnd))
    case Controlled(_) => if uid in s.t.peers then Halted(s, AssertionFailed) else s
    case Erratic(_) => s
  }

  function WriterEnded(s: Server, uid: Uid, how: ActorShutdown<W.Reason>): Server {
    match how
    case Controlled(SinkError) => Condemn(s, Drop(uid, PeerClosedConnection, WriterError))
    case Controlled(_) => if uid in s.t.peers then Halted(s, AssertionFailed) else s
    case Erratic(_) => s
  }

  function UdpReaderEnded(s: Server, how: ActorShutdown<R.Reason>): Server {
    match how
    case Controlled(Signalled) => s
    case Controlled(EndOfStream) => Halted(s, UdpPanic)
    case Controlled(_) => Halted(s, UnreachableReached)
    case Erratic(_) => Halted(s, UdpPanic)
  }

  function UdpWriterEnded(s: Server, how: ActorShutdown<W.Reason>): Server {
    match how
    case Controlled(Signalled) => s
    case Controlled(SinkError) => Halted(s, UdpPanic)
    case Controlled(ActorHandlesDropped) => Halted(s, UnreachableReached)
    case Erratic(_) => Halted(s, UdpPanic)
  }

  function AtHead(s: Server): Server
    requires Staffed(s)
  {
    if SizeAssertions(s.t)
    then DropAll(s.(toDrop := []), s.toDrop).(phase := Await)
    else Halted(s, AssertionFailed)
  }

  // ---- The broker's steps ----

  datatype Step =
    | LoopHead                             // check the sizes, drop the condemned, await the next item
    | Connection(addr: Addr, uuid: Uuid)   // a connection, and the UUID drawn should it be accepted
    | FailedConnection
    | GoneConnection                       // a connection whose peer address cannot be had
    | TcpItem(uid: Uid)
    | TcpReaderEnd(uid: Uid)
    | TcpWriterEnd(uid: Uid)
    | UdpItem
    | UdpReaderEnd
    | UdpWriterEnd
    | HeartbeatTick
    | Handle(cmd: Command)
    | TellPeer(uid: Uid)                   // an announcement reaches its next peer
    | TellDone
    | HandlesDropped                       // nobody can send commands any more
    | ListenerEnd

  predicate Enabled(s: Server, b: Step) {
    && s.halt.None?
    && match b
       case LoopHead => s.phase.Head?
       case TellPeer(uid) => (s.phase.TellTcp? || s.phase.TellUdp?) && uid in s.phase.todo && uid in s.t.peers
       case TellDone => (s.phase.TellTcp? || s.phase.TellUdp?) && s.phase.todo == {}
       case TcpItem(uid) => s.phase.Await? && uid in s.readers && s.readers[uid].out != []
       case TcpReaderEnd(uid) => s.phase.Await? && uid in s.readers && R.MarkerDue(s.readers[uid])
       case TcpWriterEnd(uid) => s.phase.Await? && uid in s.writers && W.MarkerDue(s.writers[uid])
       case UdpItem => s.phase.Await? && s.udpIn.out != []
       case UdpReaderEnd => s.phase.Await? && R.MarkerDue(s.udpIn)
       case UdpWriterEnd => s.phase.Await? && W.MarkerDue(s.udpOut)
       case _ => s.phase.Await?
  }

  function Apply(s: Server, b: Step): Server
    requires Enabled(s, b) && Staffed(s)
  {
    var h := s.(phase := Head);
    match b
    case LoopHead => AtHead(s)
    case Connection(addr, uuid) => Accept(h, addr, uuid)
    case FailedConnection => h
    case GoneConnection => Halted(s, NoPeerAddress)
    case TcpItem(uid) => FromTcp(TakeTcpItem(s, uid), uid, s.readers[uid].out[0])
    case TcpReaderEnd(uid) => ReaderEnded(NoteReaderEnd(s, uid), uid, s.readers[uid].phase.shutdown)
    case TcpWriterEnd(uid) => WriterEnded(NoteWriterEnd(s, uid), uid, s.writers[uid].phase.shutdown)
    case UdpItem => FromUdp(TakeUdpItem(s), s.udpIn.out[0])
    case UdpReaderEnd => UdpReaderEnded(NoteUdpReaderEnd(s), s.udpIn.phase.shutdown)
    case UdpWriterEnd => UdpWriterEnded(NoteUdpWriterEnd(s), s.udpOut.phase.shutdown)
    case HeartbeatTick => s.(phase := TellUdp(Heartbeat, s.t.peers.Keys))
    case Handle(cmd) => Execute(h, cmd)
    case TellPeer(uid) => Tell(s, uid)
    case TellDone => if s.phase.TellUdp? then SendUdp(h, W.Flush) else h
    case HandlesDropped => Halted(s, Unimplemented)
    case ListenerEnd => Halted(s, Unimplemented)
  }

  // ---- Several steps of the broker in a row ----

  ghost predicate CanRun(s: Server, steps: seq<Step>)
    decreases |steps|, 0
  {
    if steps == [] then Staffed(s)
    else
      var front, last := steps[..|steps|-1], steps[|steps|-1];
      CanRun(s, front) && Enabled(RunSteps(s, front), last) && Staffed(Apply(RunSteps(s, front), last))
  }

  ghost function RunSteps(s: Server, steps: seq<Step>): (v: Server)
    requires CanRun(s, steps)
    ensures Staffed(v)
    decreases |steps|, 1
  {
    if steps == [] then s else Apply(RunSteps(s, steps[..|steps|-1]), steps[|steps|-1])
  }

  lemma RunSnoc(s: Server, steps: seq<Step>, b: Step)
    requires CanRun(s, steps) && Enabled(RunSteps(s, steps), b) && Staffed(Apply(RunSteps(s, steps), b))
    ensures CanRun(s, steps + [b]) && RunSteps(s, steps + [b]) == Apply(RunSteps(s, steps), b)
  {
    assert (steps + [b])[..|steps|] == steps;
  }

  lemma RunNone(s: Server)
    requires Staffed(s)
    ensures CanRun(s, []) && RunSteps(s, []) == s
  {
  }
}
