/** Whole runs in which things go wrong. */
module WitnessRuns {
  import opened Wrappers
  import opened Messages
  import opened System
  import opened SystemInvariant
  import opened Lateness
  import opened Speaking
  import opened Witnesses
  import opened Handshake
  import PT = PeerTable
  import S = Server
  import SL = ServerLog
  import R = ReadActor
  import W = WriteActor

  // ---- A client that changes its address ----

  const AGAIN: S.Datagram := S.Datagram(Ok(UdpToServer.Hello(TICKET)), AWAY)

  /** The last Hello is recorded, and at the head of the loop the sizes are not as asserted. */
  lemma SecondHello(ss: seq<Sys>, aa: seq<Action>) returns (xs: seq<Sys>, bs: seq<Action>)
    requires IsLooseRun(ss, aa, 1)
    requires var s := ss[|aa|].srv;
      && S.Staffed(s) && S.Enabled(s, S.LoopHead) && s.toDrop == [] && s.t == GREETED && s.udpIn.out == [AGAIN]
    ensures IsLooseRun(xs, bs, 1) && xs[|bs|].srv.halt == Some(S.AssertionFailed)
  {
    TwoHellosFailAssertions();
    Greeted();
    HeadIdle(ss[|aa|].srv);
    xs, bs := ActLoosely(ss, aa, 1, Broker(S.LoopHead, false));
    SecondHelloTaken(xs[|bs|].srv);
    xs, bs := ActLoosely(xs, bs, 1, Broker(S.UdpItem, false));
    xs, bs := ActLoosely(xs, bs, 1, Broker(S.LoopHead, false));
  }

  lemma SecondHelloTaken(s: S.Server)
    requires S.Staffed(s) && S.Enabled(s, S.UdpItem) && s.t == GREETED && s.udpIn.out[0] == AGAIN
    ensures var v := S.Apply(s, S.UdpItem);
      S.Staffed(v) && S.Enabled(v, S.LoopHead) && v.t == GREETED_TWICE
  {
    Greeted();
    GreetedTwice();
  }

  /** A client of this library joins, is welcomed, says Hello and is greeted; then a Hello with its UUID
      comes from another address, and the broker halts in a failed assertion. */
  lemma TwoHellosHaltBroker() returns (ss: seq<Sys>, aa: seq<Action>)
    ensures IsLooseRun(ss, aa, 1) && ss[|aa|].srv.halt == Some(S.AssertionFailed)
  {
    ss, aa := IsGreeted();
    RunIsLoose(ss, aa, 1);
    GreetedHears();
    ss, aa := HearsAgain(ss, aa);
    ss, aa := SecondHello(ss, aa);
  }

  lemma GreetedHears()
    ensures Listens(RECEIVED) && RECEIVED.out == []
  {
  }

  lemma HearsAgain(ss: seq<Sys>, aa: seq<Action>) returns (xs: seq<Sys>, bs: seq<Action>)
    requires IsLooseRun(ss, aa, 1) && Listens(ss[|aa|].srv.udpIn) && ss[|aa|].srv.udpIn.out == []
    ensures IsLooseRun(xs, bs, 1)
    ensures xs[|bs|].srv == ss[|aa|].srv.(udpIn := xs[|bs|].srv.udpIn) && xs[|bs|].srv.udpIn.out == [AGAIN]
  {
    xs, bs := ActLoosely(ss, aa, 1, UdpStranger(AGAIN));
    xs, bs := ActLoosely(xs, bs, 1, ServerUdpReader(R.TakeItem));
    xs, bs := ActLoosely(xs, bs, 1, ServerUdpReader(R.Push));
  }

  // ---- Peers dropped for every cause but the end of their stream, who then speak ----

  /** A peer of other software whose stream is open is dropped. */
  lemma DropsOpen(ss: seq<Sys>, aa: seq<Action>, d: S.Drop) returns (xs: seq<Sys>, bs: seq<Action>)
    requires IsRun(ss, aa, 1)
    requires var s := ss[|aa|].srv;
      && S.Staffed(s) && S.Enabled(s, S.LoopHead) && PT.SizeAssertions(s.t) && s.toDrop == [d]
      && d.uid in s.t.peers && !s.readers[d.uid].phase.Finished? && !s.readers[d.uid].ended
    requires d.uid !in ss[|aa|].clients
    ensures IsRun(xs, bs, 1) && d.uid !in xs[|bs|].srv.t.peers
    ensures d.uid in xs[|bs|].srv.causes && xs[|bs|].srv.causes[d.uid] == d.cause
    ensures CanStillSpeak(xs[|bs|], d.uid)
  {
    DropLeavesOpen(ss[|aa|].srv.(toDrop := []), d);
    xs, bs := Drops(ss, aa, d);
  }

  lemma DropLeavesOpen(s: S.Server, d: S.Drop)
    requires S.Staffed(s) && d.uid in s.t.peers && !s.readers[d.uid].phase.Finished? && !s.readers[d.uid].ended
    ensures var v := S.DropPeer(s, d);
      && v.halt == s.halt && d.uid !in v.t.peers && d.uid in v.causes && v.causes[d.uid] == d.cause
      && d.uid in v.readers && !v.readers[d.uid].phase.Finished? && !v.readers[d.uid].ended
  {
  }

  /** A run in which u was dropped for this cause goes on to one in which u speaks late. */
  ghost predicate LateFor(ss: seq<Sys>, aa: seq<Action>, u: Uid, cause: S.Cause) {
    && IsRun(ss, aa, 1) && u in ss[|aa|].srv.causes && ss[|aa|].srv.causes[u] == cause
    && MayBeLate(ss, aa, 1, u)
  }

  lemma DroppedIsLate(ss: seq<Sys>, aa: seq<Action>, u: Uid)
    requires IsRun(ss, aa, 1) && u in ss[|aa|].srv.causes && CanStillSpeak(ss[|aa|], u)
    ensures LateFor(ss, aa, u, ss[|aa|].srv.causes[u])
  {
    DroppedIsGone(ss, aa, u);
    var xs, bs := SpeaksAgain(ss, aa, 1, u);
    assert xs[|aa|] == ss[|aa|];
    LateSinceGone(xs, bs, 1, u, |aa|, |bs|);
    assert Continues(ss, aa, xs, bs, 1) && SL.LateTcp(xs[|bs|].srv.t.log, u);
  }

  lemma DroppedIsGone(ss: seq<Sys>, aa: seq<Action>, u: Uid)
    requires IsRun(ss, aa, 1) && u in ss[|aa|].srv.causes
    ensures Gone(ss[|aa|].srv.t, u)
  {
    RunInv(ss, aa, 1, |aa|);
  }

  // Undecodable data over TCP.

  const GARBLED: S.TcpReader := Heard(SPAWNED, Garbage)

  lemma Garbling() returns (ss: seq<Sys>, aa: seq<Action>)
    ensures IsRun(ss, aa, 1) && ss[|aa|] == With(ALONE, GARBLED, WELCOMING)
  {
    ss, aa := Joining();
    ss, aa := Sends(ss, aa, SPAWNED, WELCOMING, Garbage);
  }

  const BAD_TCP := S.Drop(0, PeerSubmittedUnintelligibleData, S.BadTcp)
  const BAD_UDP := S.Drop(0, PeerSubmittedUnintelligibleData, S.BadUdp)

  lemma GarbageTaken(s: S.Server)
    requires S.Staffed(s) && S.Enabled(s, S.TcpItem(0)) && s.readers[0].out[0].Garbage? && s.toDrop == []
    ensures S.Apply(s, S.TcpItem(0)) ==
              s.(phase := S.Head, toDrop := [BAD_TCP], readers := s.readers[0 := R.Receive(s.readers[0])])
  {
  }

  lemma LateAfterBadTcp() returns (ss: seq<Sys>, aa: seq<Action>)
    ensures LateFor(ss, aa, 0, S.BadTcp)
  {
    ss, aa := Garbling();
    assert PT.SizeAssertions(JOINED);
    HeadIdle(ss[|aa|].srv);
    ss, aa := Act(ss, aa, 1, Broker(S.LoopHead, false));
    GarbageTaken(ss[|aa|].srv);
    ss, aa := Act(ss, aa, 1, Broker(S.TcpItem(0), false));
    ss, aa := DropsOpen(ss, aa, BAD_TCP);
    DroppedIsLate(ss, aa, 0);
  }

  // Undecodable data over UDP, from a greeted address.

  /** A peer of other software alone at the server, and what is there for UDP. */
  function Alone(t: PT.Table, w: S.TcpWriter, i: S.UdpReader, o: S.UdpWriter): Sys {
    Sys(S.Start(1).(t := t, readers := map[0 := SPAWNED], writers := map[0 := w], udpIn := i, udpOut := o),
        map[], map[0 := TICKET], map[0 := HOME], {})
  }

  lemma FromHome(ss: seq<Sys>, aa: seq<Action>, t: PT.Table, w: S.TcpWriter, i: S.UdpReader, o: S.UdpWriter, d: S.Datagram)
      returns (xs: seq<Sys>, bs: seq<Action>)
    requires IsRun(ss, aa, 1) && ss[|aa|] == Alone(t, w, i, o)
    requires Listens(i) && d.from == HOME && (d.frame == Garbage || d.frame == Ok(UdpToServer.Hello(TICKET)))
    ensures IsRun(xs, bs, 1) && xs[|bs|] == Alone(t, w, Heard(i, d), o)
  {
    assert ss[|aa|].uuidOf[0] == TICKET;
    assert Unowned(ss[|aa|], d) == {};
    xs, bs := Act(ss, aa, 1, UdpStranger(d));
    xs, bs := Act(xs, bs, 1, ServerUdpReader(R.TakeItem));
    xs, bs := Act(xs, bs, 1, ServerUdpReader(R.Push));
  }

  lemma StrangerGreeted() returns (ss: seq<Sys>, aa: seq<Action>)
    ensures IsRun(ss, aa, 1) && ss[|aa|] == Alone(GREETED, ACKED_FIRST, RECEIVED, GREETING)
  {
    ss, aa := Joining();
    assert ss[|aa|] == Alone(JOINED, WELCOMING, LISTENING, IDLE);
    ss, aa := FromHome(ss, aa, JOINED, WELCOMING, LISTENING, IDLE, HELLO);
    assert PT.SizeAssertions(JOINED);
    ss, aa := GreetsAlone(ss, aa, JOINED, WELCOMING, Heard(LISTENING, HELLO), IDLE);
  }

  lemma GreetsAlone(ss: seq<Sys>, aa: seq<Action>, t: PT.Table, w: S.TcpWriter, i: S.UdpReader, o: S.UdpWriter)
      returns (xs: seq<Sys>, bs: seq<Action>)
    requires IsRun(ss, aa, 1) && ss[|aa|] == Alone(t, w, i, o)
    requires t.peers.Keys == {0} && PT.SizeAssertions(t) && PT.Greeter(t, TICKET) == Some(0)
    requires i.out != [] && i.out[0] == HELLO
    ensures IsRun(xs, bs, 1)
    ensures xs[|bs|] == Alone(PT.Hello(t, TICKET, HOME), W.Offer(w, W.Send(UdpHandshakeAcknowledged)), R.Receive(i),
                              W.Offer(o, W.Send((UdpFromServer.Welcome, HOME))))
  {
    HeadIdle(ss[|aa|].srv);
    xs, bs := Act(ss, aa, 1, Broker(S.LoopHead, false));
    BrokerTakesHello(xs[|bs|].srv);
    xs, bs := Act(xs, bs, 1, Broker(S.UdpItem, false));
  }

  const ACKED_FIRST: S.TcpWriter := W.Offer(WELCOMING, W.Send(UdpHandshakeAcknowledged))
  const NOISE: S.Datagram := S.Datagram(Garbage, HOME)

  lemma NoiseTaken(s: S.Server)
    requires S.Staffed(s) && S.Enabled(s, S.UdpItem) && s.udpIn.out[0] == NOISE && s.toDrop == []
    requires HOME in s.t.byUdp && s.t.byUdp[HOME] == 0
    ensures S.Apply(s, S.UdpItem) == s.(phase := S.Head, toDrop := [BAD_UDP], udpIn := R.Receive(s.udpIn))
  {
  }

  lemma LateAfterBadUdp() returns (ss: seq<Sys>, aa: seq<Action>)
    ensures LateFor(ss, aa, 0, S.BadUdp)
  {
    ss, aa := StrangerGreeted();
    Greeted();
    ss, aa := FromHome(ss, aa, GREETED, ACKED_FIRST, RECEIVED, GREETING, NOISE);
    TwoHellosFailAssertions();
    HeadIdle(ss[|aa|].srv);
    ss, aa := Act(ss, aa, 1, Broker(S.LoopHead, false));
    NoiseTaken(ss[|aa|].srv);
    ss, aa := Act(ss, aa, 1, Broker(S.UdpItem, false));
    ss, aa := DropsOpen(ss, aa, BAD_UDP);
    DroppedIsLate(ss, aa, 0);
  }

  // An error of the writer, with the stream still open.

  lemma LateAfterWriterError() returns (ss: seq<Sys>, aa: seq<Action>)
    ensures LateFor(ss, aa, 0, S.WriterError)
  {
    ss, aa := Breaking();
    ss, aa := Noticed(ss, aa, SPAWNED);
    Doomed(SPAWNED);
    ss, aa := DropsOpen(ss, aa, DOOM);
    DroppedIsLate(ss, aa, 0);
  }

  // The same cause, but the reader has ended: what decides is not the cause.

  const ENDED: S.TcpReader := R.Apply(R.End(SPAWNED), R.StreamEnds)

  lemma SilentAfterWriterError() returns (ss: seq<Sys>, aa: seq<Action>)
    ensures IsRun(ss, aa, 1) && 0 in ss[|aa|].srv.causes && ss[|aa|].srv.causes[0] == S.WriterError
    ensures !MayBeLate(ss, aa, 1, 0)
  {
    ss, aa := Ending();
    Doomed(ENDED);
    ss, aa := DropsEnded(ss, aa, DOOM);
    LateExactly(ss, aa, 1, 0);
  }

  lemma Ending() returns (ss: seq<Sys>, aa: seq<Action>)
    ensures IsRun(ss, aa, 1)
    ensures var s := With(ALONE, ENDED, W.Report(BROKEN)); ss[|aa|] == s.(srv := s.srv.(toDrop := [DOOM]))
  {
    ss, aa := Breaking();
    ss, aa := Act(ss, aa, 1, TcpUpEnds(0));
    ss, aa := Act(ss, aa, 1, ServerReader(0, R.StreamEnds));
    ss, aa := Noticed(ss, aa, ENDED);
  }

  /** A peer whose reader has ended with nothing left to take is dropped. */
  lemma DropsEnded(ss: seq<Sys>, aa: seq<Action>, d: S.Drop) returns (xs: seq<Sys>, bs: seq<Action>)
    requires IsRun(ss, aa, 1)
    requires var s := ss[|aa|].srv;
      && S.Staffed(s) && S.Enabled(s, S.LoopHead) && PT.SizeAssertions(s.t) && s.toDrop == [d]
      && d.uid in s.t.peers && s.readers[d.uid].phase.Finished? && s.readers[d.uid].out == []
    ensures IsRun(xs, bs, 1) && d.uid in xs[|bs|].srv.causes && xs[|bs|].srv.causes[d.uid] == d.cause
    ensures Gone(xs[|bs|].srv.t, d.uid) && !SL.LateTcp(xs[|bs|].srv.t.log, d.uid) && !CanStillSpeak(xs[|bs|], d.uid)
  {
    DropLeavesEnded(ss[|aa|].srv.(toDrop := []), d);
    xs, bs := Drops(ss, aa, d);
    assert xs[|aa|] == ss[|aa|];
    NotLateWhenDropped(xs, bs, 1, d.uid, |aa|);
  }

  lemma DropLeavesEnded(s: S.Server, d: S.Drop)
    requires S.Staffed(s) && d.uid in s.t.peers && s.readers[d.uid].phase.Finished? && s.readers[d.uid].out == []
    ensures var v := S.DropPeer(s, d);
      && d.uid !in v.t.peers && d.uid in v.causes && v.causes[d.uid] == d.cause
      && d.uid in v.readers && v.readers[d.uid].phase.Finished? && v.readers[d.uid].out == []
  {
  }
}
