/** A run in which a client joins and completes its UDP handshake: the theorems about handshakes are not
    about nothing. */
module Handshake {
  import opened Wrappers
  import opened Messages
  import opened System
  import opened Witnesses
  import PT = PeerTable
  import S = Server
  import C = Client
  import R = ReadActor
  import W = WriteActor

  /** The server and its only client, the broker having nothing to drop. */
  function Meeting(t: PT.Table, w: S.TcpWriter, i: S.UdpReader, o: S.UdpWriter, c: C.Client): Sys {
    Sys(S.Start(1).(t := t, readers := map[0 := SPAWNED], writers := map[0 := w], udpIn := i, udpOut := o),
        map[0 := c], map[0 := TICKET], map[0 := HOME], {})
  }

  function Written<T>(w: W.Writer<T>): W.Writer<T>
    requires W.Enabled(w, W.Pop) && w.buffer == [] && (w.queue[0].Send? || w.queue[0].Feed?)
  {
    W.Apply(W.Apply(W.Apply(w, W.Pop), W.Progress(1)), W.Complete)
  }

  const WELCOME := TcpFromServer.Welcome(TICKET)
  const HELLO: S.Datagram := S.Datagram(Ok(UdpToServer.Hello(TICKET)), HOME)

  const WELCOMED: S.TcpWriter := Written(WELCOMING)
  const LISTENING: S.UdpReader := R.Spawn(S.UDP_CHANNEL)
  const IDLE: S.UdpWriter := W.Spawn()

  const NEW := C.Connect(HOME)
  const INVITED := NEW.(tcpIn := Heard(NEW.tcpIn, Ok(WELCOME)))
  const ANSWERING := C.Apply(INVITED, C.TakeTcp)
  const ANSWERED := ANSWERING.(udpOut := Written(ANSWERING.udpOut))

  const ACKING := W.Offer(WELCOMED, W.Send(UdpHandshakeAcknowledged))
  const ACKED: S.TcpWriter := Written(ACKING)
  const GREETING: S.UdpWriter := W.Offer(IDLE, W.Send((UdpFromServer.Welcome, HOME)))
  const RECEIVED := R.Receive(Heard(LISTENING, HELLO))
  const CONFIRMED := ANSWERED.(tcpIn := Heard(ANSWERED.tcpIn, Ok(UdpHandshakeAcknowledged)))

  // ---- What the parties do, whatever the others are doing ----

  lemma ServerWriterActs(ss: seq<Sys>, aa: seq<Action>, t: PT.Table, w: S.TcpWriter, i: S.UdpReader, o: S.UdpWriter, c: C.Client, a: W.Step)
      returns (xs: seq<Sys>, bs: seq<Action>)
    requires IsRun(ss, aa, 1) && ss[|aa|] == Meeting(t, w, i, o, c) && W.Enabled(w, a)
    ensures IsRun(xs, bs, 1) && xs[|bs|] == Meeting(t, W.Apply(w, a), i, o, c)
  {
    xs, bs := Act(ss, aa, 1, ServerWriter(0, a));
  }

  lemma ServerWrites(ss: seq<Sys>, aa: seq<Action>, t: PT.Table, w: S.TcpWriter, i: S.UdpReader, o: S.UdpWriter, c: C.Client)
      returns (xs: seq<Sys>, bs: seq<Action>)
    requires IsRun(ss, aa, 1) && ss[|aa|] == Meeting(t, w, i, o, c)
    requires W.Enabled(w, W.Pop) && w.buffer == [] && w.queue[0].Send?
    ensures IsRun(xs, bs, 1) && xs[|bs|] == Meeting(t, Written(w), i, o, c)
  {
    var w1 := W.Apply(w, W.Pop);
    var w2 := W.Apply(w1, W.Progress(1));
    xs, bs := ServerWriterActs(ss, aa, t, w, i, o, c, W.Pop);
    xs, bs := ServerWriterActs(xs, bs, t, w1, i, o, c, W.Progress(1));
    xs, bs := ServerWriterActs(xs, bs, t, w2, i, o, c, W.Complete);
  }

  lemma ClientReaderActs(ss: seq<Sys>, aa: seq<Action>, t: PT.Table, w: S.TcpWriter, i: S.UdpReader, o: S.UdpWriter, c: C.Client, a: R.Step)
      returns (xs: seq<Sys>, bs: seq<Action>)
    requires IsRun(ss, aa, 1) && ss[|aa|] == Meeting(t, w, i, o, c) && R.Enabled(c.tcpIn, a)
    ensures IsRun(xs, bs, 1) && xs[|bs|] == Meeting(t, w, i, o, c.(tcpIn := R.Apply(c.tcpIn, a)))
  {
    xs, bs := Act(ss, aa, 1, ClientTcpReader(0, a));
  }

  lemma Delivered(ss: seq<Sys>, aa: seq<Action>, t: PT.Table, w: S.TcpWriter, i: S.UdpReader, o: S.UdpWriter, c: C.Client)
      returns (xs: seq<Sys>, bs: seq<Action>)
    requires IsRun(ss, aa, 1) && ss[|aa|] == Meeting(t, w, i, o, c) && |c.tcpIn.input| < |w.wire|
    ensures IsRun(xs, bs, 1)
    ensures xs[|bs|] == Meeting(t, w, i, o, c.(tcpIn := R.Arrive(c.tcpIn, Ok(w.wire[|c.tcpIn.input|]))))
  {
    xs, bs := Act(ss, aa, 1, TcpDown(0));
  }

  lemma ClientHears(ss: seq<Sys>, aa: seq<Action>, t: PT.Table, w: S.TcpWriter, i: S.UdpReader, o: S.UdpWriter, c: C.Client)
      returns (xs: seq<Sys>, bs: seq<Action>)
    requires IsRun(ss, aa, 1) && ss[|aa|] == Meeting(t, w, i, o, c)
    requires Listens(c.tcpIn) && |c.tcpIn.input| < |w.wire|
    ensures IsRun(xs, bs, 1)
    ensures xs[|bs|] == Meeting(t, w, i, o, c.(tcpIn := Heard(c.tcpIn, Ok(w.wire[|c.tcpIn.input|]))))
  {
    var c1 := c.(tcpIn := R.Arrive(c.tcpIn, Ok(w.wire[|c.tcpIn.input|])));
    var c2 := c.(tcpIn := R.Apply(c1.tcpIn, R.TakeItem));
    xs, bs := Delivered(ss, aa, t, w, i, o, c);
    xs, bs := ClientReaderActs(xs, bs, t, w, i, o, c1, R.TakeItem);
    xs, bs := ClientReaderActs(xs, bs, t, w, i, o, c2, R.Push);
  }

  lemma ClientReacts(ss: seq<Sys>, aa: seq<Action>, t: PT.Table, w: S.TcpWriter, i: S.UdpReader, o: S.UdpWriter, c: C.Client)
      returns (xs: seq<Sys>, bs: seq<Action>)
    requires IsRun(ss, aa, 1) && ss[|aa|] == Meeting(t, w, i, o, c)
    requires C.Enabled(c, C.TakeTcp)
    ensures IsRun(xs, bs, 1) && xs[|bs|] == Meeting(t, w, i, o, C.Apply(c, C.TakeTcp))
  {
    xs, bs := Act(ss, aa, 1, ClientActs(0, C.TakeTcp));
  }

  lemma ClientWriterActs(ss: seq<Sys>, aa: seq<Action>, t: PT.Table, w: S.TcpWriter, i: S.UdpReader, o: S.UdpWriter, c: C.Client, a: W.Step)
      returns (xs: seq<Sys>, bs: seq<Action>)
    requires IsRun(ss, aa, 1) && ss[|aa|] == Meeting(t, w, i, o, c) && W.Enabled(c.udpOut, a)
    ensures IsRun(xs, bs, 1) && xs[|bs|] == Meeting(t, w, i, o, c.(udpOut := W.Apply(c.udpOut, a)))
  {
    xs, bs := Act(ss, aa, 1, ClientUdpWriter(0, a));
  }

  lemma ClientWrites(ss: seq<Sys>, aa: seq<Action>, t: PT.Table, w: S.TcpWriter, i: S.UdpReader, o: S.UdpWriter, c: C.Client)
      returns (xs: seq<Sys>, bs: seq<Action>)
    requires IsRun(ss, aa, 1) && ss[|aa|] == Meeting(t, w, i, o, c)
    requires W.Enabled(c.udpOut, W.Pop) && c.udpOut.buffer == [] && c.udpOut.queue[0].Send?
    ensures IsRun(xs, bs, 1) && xs[|bs|] == Meeting(t, w, i, o, c.(udpOut := Written(c.udpOut)))
  {
    var c1 := c.(udpOut := W.Apply(c.udpOut, W.Pop));
    var c2 := c.(udpOut := W.Apply(c1.udpOut, W.Progress(1)));
    xs, bs := ClientWriterActs(ss, aa, t, w, i, o, c, W.Pop);
    xs, bs := ClientWriterActs(xs, bs, t, w, i, o, c1, W.Progress(1));
    xs, bs := ClientWriterActs(xs, bs, t, w, i, o, c2, W.Complete);
  }

  lemma ServerReaderActs(ss: seq<Sys>, aa: seq<Action>, t: PT.Table, w: S.TcpWriter, i: S.UdpReader, o: S.UdpWriter, c: C.Client, a: R.Step)
      returns (xs: seq<Sys>, bs: seq<Action>)
    requires IsRun(ss, aa, 1) && ss[|aa|] == Meeting(t, w, i, o, c) && R.Enabled(i, a)
    ensures IsRun(xs, bs, 1) && xs[|bs|] == Meeting(t, w, R.Apply(i, a), o, c)
  {
    xs, bs := Act(ss, aa, 1, ServerUdpReader(a));
  }

  lemma ServerHears(ss: seq<Sys>, aa: seq<Action>, t: PT.Table, w: S.TcpWriter, i: S.UdpReader, o: S.UdpWriter, c: C.Client)
      returns (xs: seq<Sys>, bs: seq<Action>)
    requires IsRun(ss, aa, 1) && ss[|aa|] == Meeting(t, w, i, o, c)
    requires Listens(i) && |c.udpOut.wire| > 0
    ensures IsRun(xs, bs, 1) && xs[|bs|] == Meeting(t, w, Heard(i, SentBy(c, 0)), o, c)
  {
    var i1 := R.Arrive(i, SentBy(c, 0));
    xs, bs := Act(ss, aa, 1, UdpUp(0, 0));
    assert xs[|bs|] == Meeting(t, w, i1, o, c);
    xs, bs := ServerReaderActs(xs, bs, t, w, i1, o, c, R.TakeItem);
    xs, bs := ServerReaderActs(xs, bs, t, w, R.Apply(i1, R.TakeItem), o, c, R.Push);
  }

  lemma BrokerTakesHello(s: S.Server)
    requires S.Staffed(s) && S.Enabled(s, S.UdpItem) && s.udpIn.out[0] == HELLO && PT.Greeter(s.t, TICKET) == Some(0)
    ensures S.Apply(s, S.UdpItem) == s.(phase := S.Head,
      t := PT.Hello(s.t, TICKET, HOME),
      udpIn := R.Receive(s.udpIn),
      writers := s.writers[0 := W.Offer(s.writers[0], W.Send(UdpHandshakeAcknowledged))],
      udpOut := W.Offer(s.udpOut, W.Send((UdpFromServer.Welcome, HOME))))
  {
  }

  lemma BrokerGreets(ss: seq<Sys>, aa: seq<Action>, t: PT.Table, w: S.TcpWriter, i: S.UdpReader, o: S.UdpWriter, c: C.Client)
      returns (xs: seq<Sys>, bs: seq<Action>)
    requires IsRun(ss, aa, 1) && ss[|aa|] == Meeting(t, w, i, o, c)
    requires t.peers.Keys == {0} && PT.SizeAssertions(t) && PT.Greeter(t, TICKET) == Some(0)
    requires i.out != [] && i.out[0] == HELLO
    ensures IsRun(xs, bs, 1)
    ensures xs[|bs|] == Meeting(PT.Hello(t, TICKET, HOME), W.Offer(w, W.Send(UdpHandshakeAcknowledged)), R.Receive(i),
                                W.Offer(o, W.Send((UdpFromServer.Welcome, HOME))), c)
  {
    HeadIdle(ss[|aa|].srv);
    xs, bs := Act(ss, aa, 1, Broker(S.LoopHead, false));
    BrokerTakesHello(xs[|bs|].srv);
    xs, bs := Act(xs, bs, 1, Broker(S.UdpItem, false));
  }

  // ---- The run ----

  lemma Joins() returns (ss: seq<Sys>, aa: seq<Action>)
    ensures IsRun(ss, aa, 1) && ss[|aa|] == Meeting(JOINED, WELCOMING, LISTENING, IDLE, NEW)
  {
    ss, aa := [Start(1)], [];
    ss, aa := Act(ss, aa, 1, Broker(S.LoopHead, false));
    assert ss[|aa|] == Start(1).(srv := Start(1).srv.(phase := S.Await));
    ss, aa := Act(ss, aa, 1, Broker(S.Connection(HOME, TICKET), true));
  }

  lemma HearsWelcome() returns (ss: seq<Sys>, aa: seq<Action>)
    ensures IsRun(ss, aa, 1) && ss[|aa|] == Meeting(JOINED, WELCOMED, LISTENING, IDLE, INVITED)
  {
    ss, aa := Joins();
    ss, aa := ServerWrites(ss, aa, JOINED, WELCOMING, LISTENING, IDLE, NEW);
    assert WELCOMED.wire == [WELCOME];
    ss, aa := ClientHears(ss, aa, JOINED, WELCOMED, LISTENING, IDLE, NEW);
  }

  lemma HelloArrives() returns (ss: seq<Sys>, aa: seq<Action>)
    ensures IsRun(ss, aa, 1)
    ensures ss[|aa|] == Meeting(JOINED, WELCOMED, Heard(LISTENING, HELLO), IDLE, ANSWERED)
  {
    ss, aa := HearsWelcome();
    ss, aa := ClientReacts(ss, aa, JOINED, WELCOMED, LISTENING, IDLE, INVITED);
    ss, aa := ClientWrites(ss, aa, JOINED, WELCOMED, LISTENING, IDLE, ANSWERING);
    assert SentBy(ANSWERED, 0) == HELLO;
    ss, aa := ServerHears(ss, aa, JOINED, WELCOMED, LISTENING, IDLE, ANSWERED);
  }

  lemma GreetReady()
    ensures JOINED.peers.Keys == {0} && PT.SizeAssertions(JOINED) && PT.Greeter(JOINED, TICKET) == Some(0)
    ensures Heard(LISTENING, HELLO).out == [HELLO]
  {
  }

  lemma AckReady()
    ensures W.Enabled(ACKING, W.Pop) && ACKING.buffer == [] && ACKING.queue[0].Send?
    ensures ACKED.wire == [WELCOME, UdpHandshakeAcknowledged]
    ensures Listens(ANSWERED.tcpIn) && |ANSWERED.tcpIn.input| == 1
  {
  }

  lemma IsGreeted() returns (ss: seq<Sys>, aa: seq<Action>)
    ensures IsRun(ss, aa, 1) && ss[|aa|] == Meeting(GREETED, ACKING, RECEIVED, GREETING, ANSWERED)
  {
    GreetReady();
    ss, aa := HelloArrives();
    ss, aa := BrokerGreets(ss, aa, JOINED, WELCOMED, Heard(LISTENING, HELLO), IDLE, ANSWERED);
  }

  lemma HearsAck() returns (ss: seq<Sys>, aa: seq<Action>)
    ensures IsRun(ss, aa, 1) && ss[|aa|] == Meeting(GREETED, ACKED, RECEIVED, GREETING, CONFIRMED)
  {
    AckReady();
    ss, aa := IsGreeted();
    ss, aa := ServerWrites(ss, aa, GREETED, ACKING, RECEIVED, GREETING, ANSWERED);
    ss, aa := ClientHears(ss, aa, GREETED, ACKED, RECEIVED, GREETING, ANSWERED);
  }

  lemma AckAnnounced()
    ensures C.Enabled(CONFIRMED, C.TakeTcp)
    ensures C.Apply(CONFIRMED, C.TakeTcp).events == [C.CanSendUdpMessages]
  {
    assert CONFIRMED.tcpIn.out == [Ok(UdpHandshakeAcknowledged)];
  }

  /** A run at whose end the client has announced that it can send over UDP, and the broker has its
      address on record. */
  lemma HandshakeCompletes() returns (ss: seq<Sys>, aa: seq<Action>)
    ensures IsRun(ss, aa, 1)
    ensures 0 in ss[|aa|].clients && ss[|aa|].clients[0].events == [C.CanSendUdpMessages]
    ensures ss[|aa|].srv.t == GREETED && GREETED.byUdp == map[HOME := 0]
  {
    ss, aa := HearsAck();
    AckAnnounced();
    ss, aa := ClientReacts(ss, aa, GREETED, ACKED, RECEIVED, GREETING, CONFIRMED);
    Greeted();
  }
}
