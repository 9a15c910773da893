/** Where the broker and its users can go wrong: concrete histories. */
module Witnesses {
  import opened Wrappers
  import opened Messages
  import opened System
  import opened SystemInvariant
  import PT = PeerTable
  import S = Server
  import SS = ServerSound
  import SL = ServerLog
  import Chat
  import R = ReadActor
  import W = WriteActor

  const HOME := Addr(1, 1)
  const AWAY := Addr(2, 2)
  const TICKET := Uuid(7)

  // ---- A handshake UUID presented from two addresses ----

  const JOINED := PT.Insert(PT.Empty(1), HOME, TICKET)
  const GREETED := PT.Hello(JOINED, TICKET, HOME)
  const GREETED_TWICE := PT.Hello(GREETED, TICKET, AWAY)
  const LEFT := PT.Remove(GREETED_TWICE, 0, PeerSubmittedUnintelligibleData)

  lemma Greeted()
    ensures GREETED == PT.Table(1, map[0 := PT.Peer(HOME, Some(HOME), TICKET)], 1, map[HOME := 0], map[HOME := 0],
                                map[TICKET := 0], [NewPeer(0)])
  {
  }

  lemma GreetedTwice()
    ensures GREETED_TWICE == PT.Table(1, map[0 := PT.Peer(HOME, Some(AWAY), TICKET)], 1, map[HOME := 0],
                                      map[HOME := 0, AWAY := 0], map[TICKET := 0], [NewPeer(0)])
  {
    Greeted();
  }

  lemma Left()
    ensures LEFT == PT.Table(1, map[], 1, map[], map[HOME := 0], map[],
                             [NewPeer(0), PeerDisconnect(0, PeerSubmittedUnintelligibleData)])
  {
    GreetedTwice();
    assert GREETED_TWICE.byUdp - {AWAY} == map[HOME := 0];
  }

  /** One peer, whose UUID is presented first from its own address and then from another. The broker never
      uses a UUID up and does not take back the first UDP address: its size assertions, which held
      after the first Hello, fail after the second. */
  lemma TwoHellosFailAssertions()
    ensures PT.SizeAssertions(GREETED) && !PT.SizeAssertions(GREETED_TWICE)
  {
    Greeted();
    GreetedTwice();
    var two := map[HOME := 0, AWAY := 0];
    assert GREETED_TWICE.byUdp == two && |two| == 2;
  }

  /** Should the broker go on, then after the peer was dropped its first UDP address is still indexed, and
      a datagram from there is attributed to a peer who is gone. */
  lemma TwoHellosRaiseTheDead()
    ensures HOME in LEFT.byUdp && LEFT.byUdp[HOME] !in LEFT.peers
    ensures SL.LateUdp(PT.Emit(LEFT, UdpMessage(LEFT.byUdp[HOME], "boo")).log)
  {
    Left();
    var gone := [NewPeer(0), PeerDisconnect(0, PeerSubmittedUnintelligibleData)];
    assert gone[..1] == [NewPeer(0)];
    assert PT.Replay(gone) == PT.Replay(gone[..1]) - {0};
    assert PT.Replay([NewPeer(0)]) == PT.Replay([NewPeer(0)][..0]) + {0};
    SL.LateUdpEmit(gone, UdpMessage(0, "boo"));
  }

  // ---- A TCP message of a peer who is gone ----

  const SPAWNED: S.TcpReader := R.Spawn(S.TCP_CHANNEL)
  const WELCOMING: S.TcpWriter := W.Offer(W.Spawn(), W.Send(TcpFromServer.Welcome(TICKET)))
  const BROKEN: S.TcpWriter :=
    W.Apply(W.Apply(W.Apply(WELCOMING, W.Pop), W.Fail(0)), W.CloseFailed)
  const SPEAKING: S.TcpReader := Heard(SPAWNED, Ok(TcpToServer.App("hi")))

  predicate Listens<T>(r: R.Reader<T>) {
    r.phase.Selecting? && r.incoming == [] && !r.ended && r.open && |r.out| < r.capacity
  }

  /** A reader after something arrived and was forwarded. */
  function Heard<T>(r: R.Reader<T>, x: T): R.Reader<T>
    requires Listens(r)
  {
    R.Apply(R.Apply(R.Arrive(r, x), R.TakeItem), R.Push)
  }

  /** A peer alone at the server, with these actors and these drops pending. */
  const ALONE: Sys := Start(1).(srv := Start(1).srv.(t := JOINED), uuidOf := map[0 := TICKET], addrOf := map[0 := HOME])

  function With(s: Sys, r: S.TcpReader, w: S.TcpWriter): Sys {
    s.(srv := s.srv.(readers := map[0 := r], writers := map[0 := w]))
  }

  /** A connection that is not made by this library's client is accepted. */
  lemma Joining() returns (ss: seq<Sys>, aa: seq<Action>)
    ensures IsRun(ss, aa, 1) && ss[|aa|] == With(ALONE, SPAWNED, WELCOMING)
  {
    ss, aa := [Start(1)], [];
    ss, aa := Act(ss, aa, 1, Broker(S.LoopHead, false));
    assert ss[|aa|] == Start(1).(srv := Start(1).srv.(phase := S.Await));
    ss, aa := Act(ss, aa, 1, Broker(S.Connection(HOME, TICKET), false));
  }

  lemma WriterActs(ss: seq<Sys>, aa: seq<Action>, r: S.TcpReader, w: S.TcpWriter, a: W.Step)
      returns (xs: seq<Sys>, bs: seq<Action>)
    requires IsRun(ss, aa, 1) && ss[|aa|] == With(ALONE, r, w) && W.Enabled(w, a)
    ensures IsRun(xs, bs, 1) && xs[|bs|] == With(ALONE, r, W.Apply(w, a))
  {
    xs, bs := Act(ss, aa, 1, ServerWriter(0, a));
  }

  lemma ReaderActs(ss: seq<Sys>, aa: seq<Action>, r: S.TcpReader, w: S.TcpWriter, a: R.Step)
      returns (xs: seq<Sys>, bs: seq<Action>)
    requires IsRun(ss, aa, 1) && ss[|aa|] == With(ALONE, r, w) && R.Enabled(r, a)
    ensures IsRun(xs, bs, 1) && xs[|bs|] == With(ALONE, R.Apply(r, a), w)
  {
    xs, bs := Act(ss, aa, 1, ServerReader(0, a));
  }

  /** Other software sends something, and the reader forwards it. */
  lemma Sends(ss: seq<Sys>, aa: seq<Action>, r: S.TcpReader, w: S.TcpWriter, f: Frame<TcpToServer>)
      returns (xs: seq<Sys>, bs: seq<Action>)
    requires IsRun(ss, aa, 1) && ss[|aa|] == With(ALONE, r, w) && Listens(r)
    ensures IsRun(xs, bs, 1) && xs[|bs|] == With(ALONE, Heard(r, f), w)
  {
    xs, bs := Act(ss, aa, 1, TcpUpRaw(0, f));
    assert xs[|bs|] == With(ALONE, R.Arrive(r, f), w);
    xs, bs := ReaderActs(xs, bs, R.Arrive(r, f), w, R.TakeItem);
    xs, bs := ReaderActs(xs, bs, R.Apply(R.Arrive(r, f), R.TakeItem), w, R.Push);
  }

  /** Its sink fails at the Welcome, and so does closing the sink. */
  lemma Breaking() returns (ss: seq<Sys>, aa: seq<Action>)
    ensures IsRun(ss, aa, 1) && ss[|aa|] == With(ALONE, SPAWNED, BROKEN)
  {
    ss, aa := Joining();
    ss, aa := WriterActs(ss, aa, SPAWNED, WELCOMING, W.Pop);
    ss, aa := WriterActs(ss, aa, SPAWNED, W.Apply(WELCOMING, W.Pop), W.Fail(0));
    ss, aa := WriterActs(ss, aa, SPAWNED, W.Apply(W.Apply(WELCOMING, W.Pop), W.Fail(0)), W.CloseFailed);
  }

  /** Meanwhile its reader forwards a message. */
  lemma Speaking() returns (ss: seq<Sys>, aa: seq<Action>)
    ensures IsRun(ss, aa, 1) && ss[|aa|] == With(ALONE, SPEAKING, BROKEN)
  {
    ss, aa := Breaking();
    ss, aa := Sends(ss, aa, SPAWNED, BROKEN, Ok(TcpToServer.App("hi")));
  }

  const DOOM := S.Drop(0, PeerClosedConnection, S.WriterError)

  lemma HeadIdle(s: S.Server)
    requires S.Staffed(s) && S.Enabled(s, S.LoopHead) && PT.SizeAssertions(s.t) && s.toDrop == []
    ensures S.Apply(s, S.LoopHead) == s.(phase := S.Await)
  {
    SS.DropAllOne(s);
  }

  lemma HeadDrops(s: S.Server, d: S.Drop)
    requires S.Staffed(s) && S.Enabled(s, S.LoopHead) && PT.SizeAssertions(s.t) && s.toDrop == [d]
    ensures S.Apply(s, S.LoopHead) == S.DropPeer(s.(toDrop := []), d).(phase := S.Await)
  {
    SS.DropAllOne(s);
  }

  lemma SinkErrorNoticed(s: S.Server)
    requires S.Staffed(s) && S.Enabled(s, S.TcpWriterEnd(0)) && s.toDrop == []
    requires s.writers[0].phase == W.Finished(Controlled(W.SinkError))
    ensures S.Apply(s, S.TcpWriterEnd(0)) ==
              s.(phase := S.Head, toDrop := [DOOM], writers := s.writers[0 := W.Report(s.writers[0])])
  {
  }

  /** A server whose only writer has failed. */
  lemma Failed(r: S.TcpReader)
    ensures var s := With(ALONE, r, BROKEN).srv;
      && S.Staffed(s) && S.Enabled(s, S.LoopHead) && PT.SizeAssertions(s.t) && s.toDrop == []
      && s.writers[0] == BROKEN && W.MarkerDue(BROKEN) && BROKEN.phase == W.Finished(Controlled(W.SinkError))
  {
  }

  /** The broker happens to look at the writer first. */
  lemma Noticed(ss: seq<Sys>, aa: seq<Action>, r: S.TcpReader) returns (xs: seq<Sys>, bs: seq<Action>)
    requires IsRun(ss, aa, 1) && ss[|aa|] == With(ALONE, r, BROKEN)
    ensures IsRun(xs, bs, 1)
    ensures var s := With(ALONE, r, W.Report(BROKEN)); xs[|bs|] == s.(srv := s.srv.(toDrop := [DOOM]))
  {
    Failed(r);
    HeadIdle(ss[|aa|].srv);
    xs, bs := Act(ss, aa, 1, Broker(S.LoopHead, false));
    SinkErrorNoticed(xs[|bs|].srv);
    xs, bs := Act(xs, bs, 1, Broker(S.TcpWriterEnd(0), false));
  }

  /** The broker drops a peer. */
  lemma Drops(ss: seq<Sys>, aa: seq<Action>, d: S.Drop) returns (xs: seq<Sys>, bs: seq<Action>)
    requires IsRun(ss, aa, 1)
    requires var s := ss[|aa|].srv;
      S.Staffed(s) && S.Enabled(s, S.LoopHead) && PT.SizeAssertions(s.t) && s.toDrop == [d]
    ensures IsRun(xs, bs, 1) && bs == aa + [Broker(S.LoopHead, false)] && ss <= xs
    ensures xs[|bs|].clients == ss[|aa|].clients
    ensures xs[|bs|].srv == S.DropPeer(ss[|aa|].srv.(toDrop := []), d).(phase := S.Await)
  {
    HeadDrops(ss[|aa|].srv, d);
    xs, bs := Act(ss, aa, 1, Broker(S.LoopHead, false));
  }

  lemma DropLeavesItems(s: S.Server, d: S.Drop)
    requires S.Staffed(s) && d.uid in s.t.peers
    ensures var v := S.DropPeer(s, d);
      && v.t == PT.Remove(s.t, d.uid, d.reason) && v.halt == s.halt
      && d.uid in v.readers && v.readers[d.uid].out == s.readers[d.uid].out
  {
  }

  lemma Doomed(r: S.TcpReader)
    ensures var s := With(ALONE, r, W.Report(BROKEN)).srv.(toDrop := [DOOM]);
      S.Staffed(s) && S.Enabled(s, S.LoopHead) && PT.SizeAssertions(s.t) && 0 in s.t.peers && s.readers[0] == r
  {
  }

  /** It drops the peer. */
  lemma Dropping() returns (ss: seq<Sys>, aa: seq<Action>)
    ensures IsRun(ss, aa, 1)
    ensures var s := ss[|aa|].srv;
      && s.phase.Await? && s.halt.None? && s.t == PT.Remove(JOINED, 0, PeerClosedConnection)
      && 0 in s.readers && s.readers[0].out == [Ok(TcpToServer.App("hi"))]
  {
    ss, aa := Speaking();
    ss, aa := Noticed(ss, aa, SPEAKING);
    Doomed(SPEAKING);
    ss, aa := DropsSpeaker(ss, aa);
    SpokenOut();
  }

  lemma SpokenOut()
    ensures SPEAKING.out == [Ok(TcpToServer.App("hi"))]
  {
  }

  lemma DropsSpeaker(ss: seq<Sys>, aa: seq<Action>) returns (xs: seq<Sys>, bs: seq<Action>)
    requires IsRun(ss, aa, 1)
    requires var s := ss[|aa|].srv;
      && S.Staffed(s) && S.Enabled(s, S.LoopHead) && PT.SizeAssertions(s.t) && s.toDrop == [DOOM]
      && 0 in s.t.peers
    ensures IsRun(xs, bs, 1)
    ensures var s, v := ss[|aa|].srv, xs[|bs|].srv;
      && v.phase.Await? && v.halt.None? && v.t == PT.Remove(s.t, 0, PeerClosedConnection)
      && 0 in v.readers && v.readers[0].out == s.readers[0].out
  {
    DropLeavesItems(ss[|aa|].srv.(toDrop := []), DOOM);
    xs, bs := Drops(ss, aa, DOOM);
  }

  const EPITAPH: seq<Event> :=
    [NewPeer(0), PeerDisconnect(0, PeerClosedConnection), TcpMessage(0, TcpToServer.App("hi"))]

  lemma EpitaphIsLate()
    ensures SL.LateTcp(EPITAPH, 0) && Chat.Fold(EPITAPH) == Chat.Crashed(Chat.UnknownSpeaker)
  {
    assert EPITAPH[..2][..1] == [NewPeer(0)];
    assert EPITAPH[..2] == [NewPeer(0), PeerDisconnect(0, PeerClosedConnection)];
    assert [NewPeer(0)][..0] == [];
    assert PT.Replay([NewPeer(0)]) == {0};
    assert PT.Replay(EPITAPH[..2]) == {};
    assert Chat.Fold([NewPeer(0)]).Running?;
    assert Chat.Fold(EPITAPH[..2]).Running? && Chat.Fold(EPITAPH[..2]).st.connectedUsers == map[];
  }

  /** A run, within all that the system relies on, whose log has a TCP message of a peer after it was
      dropped for a sink error. A chat server that follows the log crashes. */
  lemma LateTcpHappens() returns (ss: seq<Sys>, aa: seq<Action>)
    ensures IsRun(ss, aa, 1) && ss[|aa|].srv.halt.None?
    ensures ss[|aa|].srv.t.log == EPITAPH && SL.LateTcp(EPITAPH, 0)
    ensures Chat.Fold(EPITAPH) == Chat.Crashed(Chat.UnknownSpeaker)
  {
    EpitaphIsLate();
    ss, aa := Dropping();
    ss, aa := Act(ss, aa, 1, Broker(S.TcpItem(0), false));
  }
}
