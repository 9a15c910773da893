/** What holds of every run of the whole system. */
module Theorems {
  import opened Wrappers
  import opened Messages
  import opened System
  import opened SystemInvariant
  import PT = PeerTable
  import S = Server
  import SA = ServerActors
  import SS = ServerSound
  import SE = ServerEffects
  import SL = ServerLog
  import C = Client
  import CE = ClientEvents
  import P = Projection
  import R = ReadActor
  import W = WriteActor

  // ---- The broker's assertions ----

  /** No broker assertion fails and no place marked unreachable is reached, in any run; and the size
      assertions hold not only where they are checked but in every state. */
  lemma NoAssertionFails(states: seq<Sys>, actions: seq<Action>, maxConnections: nat, i: nat)
    requires IsRun(states, actions, maxConnections) && i < |states|
    ensures states[i].srv.halt != Some(S.AssertionFailed) && states[i].srv.halt != Some(S.UnreachableReached)
    ensures PT.SizeAssertions(states[i].srv.t)
  {
    RunInv(states, actions, maxConnections, i);
    PT.ExactSizes(states[i].srv.t);
  }

  /** The ends that the broker takes for granted belong to peers already dropped. */
  lemma EndsOfTheDropped(states: seq<Sys>, actions: seq<Action>, maxConnections: nat, i: nat, u: Uid)
    requires IsRun(states, actions, maxConnections) && i < |states| && u in states[i].srv.readers
    ensures var s := states[i].srv;
      u in s.writers &&
      (R.EndedWith(s.readers[u], R.Signalled) || R.EndedWith(s.readers[u], R.ActorHandlesDropped)
       || R.EndedWith(s.readers[u], R.ReceiverClosedChannel)
       || W.EndsWith(s.writers[u], W.Signalled) || W.EndsWith(s.writers[u], W.ActorHandlesDropped)
       ==> u !in s.t.peers)
    ensures var s := states[i].srv;
      !R.EndedWith(s.udpIn, R.Signalled) && !R.EndedWith(s.udpIn, R.ActorHandlesDropped)
      && !R.EndedWith(s.udpIn, R.ReceiverClosedChannel)
      && !W.EndsWith(s.udpOut, W.Signalled) && !W.EndsWith(s.udpOut, W.ActorHandlesDropped)
  {
    RunInv(states, actions, maxConnections, i);
    var s := states[i].srv;
    assert SA.ActorsOk(u in s.t.peers, s.readers[u], s.writers[u]);
  }

  /** A reader's control queue never holds more than the one Shutdown that dropping its peer sends, so
      the reader never refuses that signal as full. */
  lemma ControlQueueAlmostEmpty(states: seq<Sys>, actions: seq<Action>, maxConnections: nat, i: nat, u: Uid)
    requires IsRun(states, actions, maxConnections) && i < |states| && u in states[i].srv.readers
    ensures states[i].srv.readers[u].control <= states[i].srv.readers[u].signals <= 1
    ensures u in states[i].srv.t.peers ==>
      states[i].srv.readers[u].signals == 0 && R.SignalShutdown(states[i].srv.readers[u]).1 != ChannelFull
  {
    ActorsAt(states, actions, maxConnections, i);
    var s := states[i].srv;
    SA.SignalledOnce(u in s.t.peers, s.readers[u], s.writers[u]);
  }

  /** At most one drop is ever pending, and only at the head of the loop. */
  lemma OneDropPending(states: seq<Sys>, actions: seq<Action>, maxConnections: nat, i: nat)
    requires IsRun(states, actions, maxConnections) && i < |states|
    ensures |states[i].srv.toDrop| <= 1 && (states[i].srv.toDrop != [] ==> states[i].srv.phase.Head?)
  {
    RunInv(states, actions, maxConnections, i);
  }

  /** No zombies: once pending drops are done no peer is connected one of whose actors the broker knows to
      have ended on its own terms. */
  lemma NoZombiePeers(states: seq<Sys>, actions: seq<Action>, maxConnections: nat, i: nat, u: Uid)
    requires IsRun(states, actions, maxConnections) && i < |states|
    requires u in states[i].srv.readers && u in states[i].srv.writers
    requires SS.ReaderReported(states[i].srv.readers[u]) || SS.WriterReported(states[i].srv.writers[u])
    ensures u in states[i].srv.t.peers ==> states[i].srv.phase.Head? && SS.Condemned(states[i].srv.toDrop, u)
  {
    RunInv(states, actions, maxConnections, i);
  }

  // ---- The indexes ----

  /** Each index is exactly the inverse of its field in the peer table, and every UDP address on record
      is its peer's TCP address, whatever the network loses, duplicates or reorders. */
  lemma IndexesExact(states: seq<Sys>, actions: seq<Action>, maxConnections: nat, i: nat)
    requires IsRun(states, actions, maxConnections) && i < |states|
    ensures PT.Exact(states[i].srv.t) && SL.UdpIsTcp(states[i].srv.t)
    ensures |states[i].srv.t.byTcp| == |states[i].srv.t.peers| == |states[i].srv.t.byUuid|
  {
    RunInv(states, actions, maxConnections, i);
    PT.ExactSizes(states[i].srv.t);
  }

  // ---- The log ----

  /** The event log determines the peer table: replaying it gives the connected uids, of which there are
      as many as joined and have not left, and no more than allowed. */
  lemma LogDeterminesTable(states: seq<Sys>, actions: seq<Action>, maxConnections: nat, i: nat)
    requires IsRun(states, actions, maxConnections) && i < |states|
    ensures var t := states[i].srv.t;
      && PT.Replay(t.log) == t.peers.Keys
      && |t.peers| == PT.Joins(t.log) - PT.Leaves(t.log)
      && |t.peers| <= maxConnections
  {
    RunInv(states, actions, maxConnections, i);
    RunMax(states, actions, maxConnections, i);
  }

  lemma {:induction false} RunMax(states: seq<Sys>, actions: seq<Action>, maxConnections: nat, i: nat)
    requires IsRun(states, actions, maxConnections) && i < |states|
    ensures states[i].srv.t.maxConnections == maxConnections
  {
    if i > 0 {
      RunMax(states, actions, maxConnections, i - 1);
      MaxAt(states, actions, maxConnections, i - 1);
    }
  }

  lemma MaxAt(states: seq<Sys>, actions: seq<Action>, maxConnections: nat, i: nat)
    requires IsRun(states, actions, maxConnections) && i < |actions|
    ensures states[i+1].srv.t.maxConnections == states[i].srv.t.maxConnections
  {
    if actions[i].Broker? {
      BrokerAt(states, actions, maxConnections, i);
      TableMax(states[i].srv, actions[i].b);
    } else {
      OthersAt(states, actions, maxConnections, i);
    }
  }

  lemma TableMax(s: S.Server, b: S.Step)
    requires S.Enabled(s, b)
    ensures SE.TableAfter(s, b).maxConnections == s.t.maxConnections
  {
  }

  /** What an action should answer, by the log: to the question how many peers are connected, how many
      joined and have not left; to anything else nothing. */
  function DueAnswer(s: Sys, a: Action): seq<int> {
    if a.Broker? && a.b == S.Handle(S.GetNumberOfConnectedPeers)
    then [PT.Joins(s.srv.t.log) - PT.Leaves(s.srv.t.log)] else []
  }

  /** Every answer is what was due at the moment it was given. */
  lemma AnswersExact(states: seq<Sys>, actions: seq<Action>, maxConnections: nat, i: nat)
    requires IsRun(states, actions, maxConnections) && i < |actions|
    ensures states[i+1].srv.answers == states[i].srv.answers + DueAnswer(states[i], actions[i])
  {
    if actions[i].Broker? {
      BrokerAt(states, actions, maxConnections, i);
      AgendaAt(states, actions, maxConnections, i);
      TableAt(states, actions, maxConnections, i);
      StepAnswers(states[i].srv, actions[i].b);
    } else {
      OthersAt(states, actions, maxConnections, i);
    }
  }

  lemma HeadAnswersNothing(s: S.Server)
    requires |s.toDrop| <= 1 && S.Staffed(s) && S.Enabled(s, S.LoopHead)
    ensures S.Apply(s, S.LoopHead).answers == s.answers
  {
    SS.DropAllOne(s);
  }

  lemma EndAnswersNothing(s: S.Server, b: S.Step)
    requires S.Staffed(s) && S.Enabled(s, b)
    requires b.TcpReaderEnd? || b.TcpWriterEnd? || b.UdpReaderEnd? || b.UdpWriterEnd?
    ensures S.Apply(s, b).answers == s.answers
  {
  }

  lemma ItemAnswersNothing(s: S.Server, b: S.Step)
    requires S.Staffed(s) && S.Enabled(s, b) && (b.TcpItem? || b.UdpItem?)
    ensures S.Apply(s, b).answers == s.answers
  {
  }

  lemma OtherAnswersNothing(s: S.Server, b: S.Step)
    requires S.Staffed(s) && S.Enabled(s, b) && !b.TcpItem? && !b.UdpItem? && !b.Handle? && !b.LoopHead?
    requires !b.TcpReaderEnd? && !b.TcpWriterEnd? && !b.UdpReaderEnd? && !b.UdpWriterEnd?
    ensures S.Apply(s, b).answers == s.answers
  {
  }

  lemma CommandAnswers(s: S.Server, cmd: S.Command)
    requires S.Staffed(s)
    ensures S.Execute(s, cmd).answers == s.answers + if cmd.GetNumberOfConnectedPeers? then [|s.t.peers|] else []
  {
  }

  lemma StepAnswers(s: S.Server, b: S.Step)
    requires |s.toDrop| <= 1 && S.Staffed(s) && S.Enabled(s, b)
    ensures S.Apply(s, b).answers ==
              s.answers + if b == S.Handle(S.GetNumberOfConnectedPeers) then [|s.t.peers|] else []
  {
    if b.LoopHead? {
      HeadAnswersNothing(s);
    } else if b.TcpReaderEnd? || b.TcpWriterEnd? || b.UdpReaderEnd? || b.UdpWriterEnd? {
      EndAnswersNothing(s, b);
    } else if b.TcpItem? || b.UdpItem? {
      ItemAnswersNothing(s, b);
    } else if b.Handle? {
      CommandAnswers(s.(phase := S.Head), b.cmd);
    } else {
      OtherAnswersNothing(s, b);
    }
  }

  /** In every log every uid joins at most once, leaves at most once and does not come back, however its
      reader's end, its writer's error and its bad data race. */
  lemma JoinAndLeaveOnce(states: seq<Sys>, actions: seq<Action>, maxConnections: nat, i: nat, j: nat, k: nat)
    requires IsRun(states, actions, maxConnections) && i < |states|
    requires j < k < |states[i].srv.t.log|
    ensures var log := states[i].srv.t.log;
      && !(log[j].NewPeer? && log[k].NewPeer? && log[j].uid == log[k].uid)
      && !(log[j].PeerDisconnect? && log[k].PeerDisconnect? && log[j].uid == log[k].uid)
      && !(log[j].PeerDisconnect? && log[k].NewPeer? && log[j].uid == log[k].uid)
      && !((log[j].TcpMessage? || log[j].UdpMessage?) && log[k].NewPeer? && log[j].from == log[k].uid)
  {
    RunInv(states, actions, maxConnections, i);
    PT.OnceEach(states[i].srv.t.log, j, k);
  }

  /** Every uid issued so far has joined, and whoever leaves or speaks has joined before. */
  lemma EverybodyJoins(states: seq<Sys>, actions: seq<Action>, maxConnections: nat, i: nat)
    requires IsRun(states, actions, maxConnections) && i < |states|
    ensures var t := states[i].srv.t;
      && (forall u: Uid :: u < t.nextUid ==> JoinedBy(t.log, |t.log|, u))
      && (forall k :: 0 <= k < |t.log| && !t.log[k].NewPeer? ==> JoinedBy(t.log, k, Subject(t.log[k])))
  {
    RunInv(states, actions, maxConnections, i);
    OrderlyJoins(states[i].srv.t.log);
  }

  /** Whom an event is about. */
  function Subject(ev: Event): Uid {
    match ev
    case NewPeer(u) => u
    case PeerDisconnect(u, _) => u
    case TcpMessage(u, _) => u
    case UdpMessage(u, _) => u
  }

  predicate JoinedBy(log: seq<Event>, k: nat, u: Uid)
    requires k <= |log|
  {
    exists j :: 0 <= j < k && log[j] == NewPeer(u)
  }

  lemma OrderlyJoins(log: seq<Event>)
    requires PT.Orderly(log)
    ensures forall u: Uid :: u < PT.Joins(log) ==> JoinedBy(log, |log|, u)
    ensures forall k :: 0 <= k < |log| && !log[k].NewPeer? ==> JoinedBy(log, k, Subject(log[k]))
  {
    forall u: Uid | u < PT.Joins(log) ensures JoinedBy(log, |log|, u) {
      var j := PT.Joined(log, u);
    }
    forall k | 0 <= k < |log| && !log[k].NewPeer? ensures JoinedBy(log, k, Subject(log[k])) {
      var j := PT.JoinedBefore(log, k, Subject(log[k]));
    }
  }

  /** Nothing from the dead: after a peer has left the log has no UDP message of it, and a TCP message of
      it only if it was dropped for another cause than the end of its stream. */
  lemma NothingFromTheDead(states: seq<Sys>, actions: seq<Action>, maxConnections: nat, i: nat, j: nat, k: nat)
    requires IsRun(states, actions, maxConnections) && i < |states|
    requires j < k < |states[i].srv.t.log| && states[i].srv.t.log[j].PeerDisconnect?
    ensures var s := states[i].srv; var u := s.t.log[j].uid;
      && !(s.t.log[k].UdpMessage? && s.t.log[k].from == u)
      && (s.t.log[k].TcpMessage? && s.t.log[k].from == u ==> u in s.causes && !s.causes[u].ReaderEnd?)
  {
    RunInv(states, actions, maxConnections, i);
    var t := states[i].srv.t;
    PT.OnceEach(t.log, j, k);
    SL.NoneAfterLeaving(t.log, j, k);
  }

  // ---- TCP from client to server ----

  lemma {:induction false} DecodedAppend(a: seq<Frame<TcpToServer>>, b: seq<Frame<TcpToServer>>)
    ensures SL.Decoded(a + b) == SL.Decoded(a) + SL.Decoded(b)
    decreases |b|
  {
    if b == [] {
      assert a + b == a;
    } else {
      assert (a + b)[..|a + b|-1] == a + b[..|b|-1];
      DecodedAppend(a, b[..|b|-1]);
    }
  }

  lemma {:induction false} DeliversDecoded(xs: seq<TcpToServer>, fs: seq<Frame<TcpToServer>>)
    requires Delivers(xs, fs)
    ensures SL.Decoded(fs) == xs[..|fs|]
    decreases |fs|
  {
    if fs != [] {
      DeliversDecoded(xs, fs[..|fs|-1]);
      assert xs[..|fs|] == xs[..|fs|-1] + [xs[|fs|-1]];
    }
  }

  lemma ConveysDecoded(xs: seq<TcpToServer>, r: S.TcpReader)
    requires Conveys(xs, r)
    ensures SL.Decoded(r.input) <= xs
  {
    if Delivers(xs, r.input) {
      DeliversDecoded(xs, r.input);
    } else {
      DeliversDecoded(xs, r.input[..|r.input|-1]);
    }
  }

  /** What the server's end of the connection holds of a client's messages: the broker's queue, the
      item its reader has in hand, and what has yet to be read. */
  function AtServer(r: S.TcpReader): seq<TcpToServer> {
    SL.Decoded(r.out) + SL.Decoded(R.InHand(r)) + SL.Decoded(r.incoming)
  }

  lemma DecodedParts(a: seq<Frame<TcpToServer>>, b: seq<Frame<TcpToServer>>, c: seq<Frame<TcpToServer>>, d: seq<Frame<TcpToServer>>)
    ensures SL.Decoded(a + b + c + d) == SL.Decoded(a) + (SL.Decoded(b) + SL.Decoded(c) + SL.Decoded(d))
  {
    assert a + b + c + d == a + (b + c + d);
    DecodedAppend(a, b + c + d);
    DecodedAppend(b + c, d);
    DecodedAppend(b, c);
  }

  lemma DecodedPrefix(a: seq<Frame<TcpToServer>>, b: seq<Frame<TcpToServer>>)
    requires a <= b
    ensures SL.Decoded(a) <= SL.Decoded(b)
  {
    DecodedAppend(a, b[|a|..]);
    assert a + b[|a|..] == b;
  }

  /** The frames of a live reader, decoded, are what was taken from it and what it still holds. */
  lemma ReaderHolds(r: S.TcpReader)
    requires R.Inv(r)
    ensures SL.Decoded(r.taken) <= SL.Decoded(r.input)
    ensures !r.phase.Finished? ==> SL.Decoded(r.input) == SL.Decoded(r.taken) + AtServer(r)
  {
    R.ReaderLaw(r);
    DecodedPrefix(r.taken, r.input);
    DecodedParts(r.taken, r.out, R.InHand(r), r.incoming);
  }

  /** What was put on a client's wire and has not reached the server's end. */
  function OnTheWire(wire: seq<TcpToServer>, r: S.TcpReader): seq<TcpToServer>
    requires SL.Decoded(r.input) <= wire
  {
    wire[|SL.Decoded(r.input)|..]
  }

  /** End to end: the messages that the log attributes to a client are, in order and without
      duplicates, a prefix of those its handle accepted. As long as nobody on the way has stopped, the
      others are all still on the way, in order: at the server, on the wire, in the write actor's
      sink or queue, or in the client's queue. */
  lemma EndToEnd(states: seq<Sys>, actions: seq<Action>, maxConnections: nat, i: nat, u: Uid)
    requires IsRun(states, actions, maxConnections) && i < |states| && u in states[i].clients
    ensures u in states[i].srv.readers
    ensures var c, r := states[i].clients[u], states[i].srv.readers[u];
      && SL.Said(states[i].srv.t.log, u) <= c.accepted
      && SL.Decoded(r.input) <= c.tcpOut.wire
      && (c.running && (c.tcpOut.phase.Receiving? || c.tcpOut.phase.Busy?) && !r.phase.Finished? ==>
            c.accepted ==
              SL.Said(states[i].srv.t.log, u) + AtServer(r) + OnTheWire(c.tcpOut.wire, r)
              + c.tcpOut.buffer + W.Owed(c.tcpOut.queue) + C.TcpPart(c.requests))
  {
    RunInv(states, actions, maxConnections, i);
    EndToEndAt(states[i], u);
  }

  lemma LoggedIsTaken(s: Sys, u: Uid)
    requires Inv(s) && u in s.srv.readers
    ensures SL.Said(s.srv.t.log, u) == SL.Decoded(s.srv.readers[u].taken)
  {
    assert SL.Said(s.srv.t.log, u) == SL.Decoded(SL.TakenBy(s.srv.readers, u));
  }

  lemma EndToEndAt(s: Sys, u: Uid)
    requires Inv(s) && u in s.clients
    ensures u in s.srv.readers
    ensures var c, r := s.clients[u], s.srv.readers[u];
      && SL.Said(s.srv.t.log, u) <= c.accepted
      && SL.Decoded(r.input) <= c.tcpOut.wire
      && (c.running && (c.tcpOut.phase.Receiving? || c.tcpOut.phase.Busy?) && !r.phase.Finished? ==>
            c.accepted ==
              SL.Said(s.srv.t.log, u) + AtServer(r) + OnTheWire(c.tcpOut.wire, r)
              + c.tcpOut.buffer + W.Owed(c.tcpOut.queue) + C.TcpPart(c.requests))
  {
    ClientFacts(s, u);
    ReaderOk(s, u);
    LoggedIsTaken(s, u);
    Pipeline(s.clients[u], s.srv.readers[u]);
  }

  /** The stages between a client's handle and the broker, put together. */
  lemma Pipeline(c: C.Client, r: S.TcpReader)
    requires C.ActorsOk(c) && C.Carried(c) && R.Inv(r) && Conveys(c.tcpOut.wire, r)
    ensures SL.Decoded(r.taken) <= c.accepted && SL.Decoded(r.input) <= c.tcpOut.wire
    ensures c.running && (c.tcpOut.phase.Receiving? || c.tcpOut.phase.Busy?) && !r.phase.Finished? ==>
      c.accepted ==
        SL.Decoded(r.taken) + AtServer(r) + OnTheWire(c.tcpOut.wire, r)
        + c.tcpOut.buffer + W.Owed(c.tcpOut.queue) + C.TcpPart(c.requests)
  {
    var w := c.tcpOut;
    W.Conservation(w);
    ConveysDecoded(w.wire, r);
    ReaderHolds(r);
    assert w.wire == SL.Decoded(r.input) + OnTheWire(w.wire, r);
    assert SL.Decoded(r.taken) <= w.wire <= W.Owed(W.Accepted(w)) <= c.accepted;
  }

  // ---- The handshake ----

  lemma {:induction false} AckTaken(fs: seq<Frame<TcpFromServer>>)
    requires C.Acks(fs) > 0
    ensures Ok(UdpHandshakeAcknowledged) in fs
    decreases |fs|
  {
    if fs[|fs|-1] != Ok(UdpHandshakeAcknowledged) {
      AckTaken(fs[..|fs|-1]);
    }
  }

  lemma {:induction false} CanSendCounted(es: seq<C.Event>)
    requires C.CanSendUdpMessages in es
    ensures C.CanSends(es) > 0
    decreases |es|
  {
    if es[|es|-1] != C.CanSendUdpMessages {
      CanSendCounted(es[..|es|-1]);
    }
  }

  /** A client that has taken an acknowledgement was sent one. */
  lemma AckAsked(c: C.Client, w: S.TcpWriter)
    requires C.ActorsOk(c) && C.AcksEarned(c) && W.Inv(w) && Conveys(w.wire, c.tcpIn) && C.CanSendUdpMessages in c.events
    ensures W.Asked(w, UdpHandshakeAcknowledged)
  {
    CanSendCounted(c.events);
    AckTaken(c.tcpIn.taken);
    R.ReaderLaw(c.tcpIn);
    ConveyedWritten(w.wire, c.tcpIn, UdpHandshakeAcknowledged);
    W.WrittenAsked(w, UdpHandshakeAcknowledged);
  }

  /** Handshake causality: once a client has announced that it can send over UDP then, as long as it is
      connected, the broker has its UDP address on record, so that a message to it has somewhere to go. */
  lemma CanSendMeansOnRecord(states: seq<Sys>, actions: seq<Action>, maxConnections: nat, i: nat, u: Uid)
    requires IsRun(states, actions, maxConnections) && i < |states|
    requires u in states[i].clients && C.CanSendUdpMessages in states[i].clients[u].events
    ensures u in states[i].srv.t.peers ==> states[i].srv.t.peers[u].udp == Some(states[i].clients[u].addr)
  {
    RunInv(states, actions, maxConnections, i);
    var s := states[i];
    ClientFacts(s, u);
    WriterOk(s, u);
    AckAsked(s.clients[u], s.srv.writers[u]);
  }

  lemma {:induction false} AcksDelivered(xs: seq<TcpFromServer>, fs: seq<Frame<TcpFromServer>>)
    requires Delivers(xs, fs)
    ensures C.Acks(fs) == P.AckItems(xs[..|fs|])
    decreases |fs|
  {
    if fs != [] {
      AcksDelivered(xs, fs[..|fs|-1]);
      assert xs[..|fs|][..|fs|-1] == xs[..|fs|-1];
    }
  }

  lemma AcksConveyed(xs: seq<TcpFromServer>, r: R.Reader<Frame<TcpFromServer>>)
    requires Conveys(xs, r)
    ensures C.Acks(r.input) <= P.AckItems(xs)
  {
    var fs := if Delivers(xs, r.input) then r.input else r.input[..|r.input|-1];
    AcksDelivered(xs, fs);
    AckItemsPrefix(xs[..|fs|], xs);
  }

  lemma AckItemsPrefix(a: seq<TcpFromServer>, b: seq<TcpFromServer>)
    requires a <= b
    ensures P.AckItems(a) <= P.AckItems(b)
  {
    P.AckItemsAppend(a, b[|a|..]);
    assert a + b[|a|..] == b;
  }

  lemma {:induction false} AcksPrefix(a: seq<Frame<TcpFromServer>>, b: seq<Frame<TcpFromServer>>)
    requires a <= b
    ensures C.Acks(a) <= C.Acks(b)
    decreases |b|
  {
    if a != b {
      AcksPrefix(a, b[..|b|-1]);
    } else {
      assert a == b;
    }
  }

  lemma AcksTakenBounded(c: C.Client, w: S.TcpWriter)
    requires C.ActorsOk(c) && C.AcksEarned(c) && W.Inv(w) && Conveys(w.wire, c.tcpIn)
    ensures C.CanSends(c.events) <= P.AckItems(W.Owed(W.Accepted(w)))
  {
    R.ReaderLaw(c.tcpIn);
    AcksPrefix(c.tcpIn.taken, c.tcpIn.input);
    AcksConveyed(w.wire, c.tcpIn);
    W.Conservation(w);
    AckItemsPrefix(w.wire, W.Owed(W.Accepted(w)));
  }

  /** A client announces that it can send over UDP at most as often as the broker received a Hello with
      its UUID: at most once, if the network delivers its one Hello once. */
  lemma CanSendAtMostPerHello(states: seq<Sys>, actions: seq<Action>, maxConnections: nat, i: nat, u: Uid)
    requires IsRun(states, actions, maxConnections) && i < |states| && u in states[i].clients
    ensures u in states[i].uuidOf
    ensures C.CanSends(states[i].clients[u].events) <= P.Hellos(states[i].srv.udpIn.taken, states[i].uuidOf[u])
  {
    RunInv(states, actions, maxConnections, i);
    ClientFacts(states[i], u);
    WriterOk(states[i], u);
    AcksTakenBounded(states[i].clients[u], states[i].srv.writers[u]);
    P.RunAcksBounded(states, actions, maxConnections, u, i);
  }

  /** In every run a client announces at most once that UDP reaches it, and before any UDP message. */
  lemma ReadinessAnnounced(states: seq<Sys>, actions: seq<Action>, maxConnections: nat, i: nat, u: Uid, j: nat, k: nat)
    requires IsRun(states, actions, maxConnections) && i < |states| && u in states[i].clients
    requires k < |states[i].clients[u].events|
    ensures var es := states[i].clients[u].events;
      && (es[k].UdpReceived? ==> exists n: nat :: n < k && es[n] == C.CanReceiveUdpMessages)
      && (j < k ==> !(es[j] == C.CanReceiveUdpMessages && es[k] == C.CanReceiveUdpMessages))
  {
    RunInv(states, actions, maxConnections, i);
    ClientFacts(states[i], u);
    C.AnnouncedFirst(states[i].clients[u].events, j, k);
  }

  // ---- TCP from server to client ----

  /** The texts of the application's messages among what a client is told. */
  function Texts(ms: seq<TcpFromServer>): seq<Text> {
    if ms == [] then [] else Texts(ms[..|ms|-1]) + if ms[|ms|-1].App? then [ms[|ms|-1].msg] else []
  }

  lemma {:induction false} TextsPrefix(a: seq<TcpFromServer>, b: seq<TcpFromServer>)
    requires a <= b
    ensures Texts(a) <= Texts(b)
    decreases |b|
  {
    if a != b {
      TextsPrefix(a, b[..|b|-1]);
    } else {
      assert a == b;
    }
  }

  lemma {:induction false} DeliveredTexts(xs: seq<TcpFromServer>, fs: seq<Frame<TcpFromServer>>)
    requires Delivers(xs, fs)
    ensures CE.TcpApps(fs) == Texts(xs[..|fs|])
    decreases |fs|
  {
    if fs != [] {
      DeliveredTexts(xs, fs[..|fs|-1]);
      assert xs[..|fs|][..|fs|-1] == xs[..|fs|-1];
    }
  }

  lemma ReceivedTexts(xs: seq<TcpFromServer>, fs: seq<Frame<TcpFromServer>>)
    requires Receives(xs, fs)
    ensures CE.TcpApps(fs) <= Texts(xs)
  {
    var gs := if Delivers(xs, fs) then fs else fs[..|fs|-1];
    DeliveredTexts(xs, gs);
    TextsPrefix(xs[..|gs|], xs);
  }

  /** What the user of a client hears over TCP is, in order and without duplicates, the beginning of what
      the server's application told this client; and as long as the client runs it is all of what the
      client has taken off its stream. */
  lemma UserHears(states: seq<Sys>, actions: seq<Action>, maxConnections: nat, i: nat, u: Uid)
    requires IsRun(states, actions, maxConnections) && i < |states| && u in states[i].clients
    ensures var c := states[i].clients[u];
      && CE.TcpTexts(c.events) <= Texts(P.ToldDuring(states, actions, maxConnections, u, i))
      && (c.running ==> CE.TcpTexts(c.events) == CE.TcpApps(c.tcpIn.taken))
      && (c.running ==> CE.UdpTexts(c.events) == CE.UdpApps(c.udpIn.taken))
      && CE.UdpTexts(c.events) <= CE.UdpApps(c.udpIn.taken)
  {
    ToldInOrder(states, actions, maxConnections, i, u);
    ReceivedTexts(P.ToldDuring(states, actions, maxConnections, u, i), states[i].clients[u].tcpIn.taken);
    ClientAt(states, actions, maxConnections, u, i);
  }

  lemma ClientAt(states: seq<Sys>, actions: seq<Action>, maxConnections: nat, u: Uid, i: nat)
    requires IsRun(states, actions, maxConnections) && i < |states| && u in states[i].clients
    ensures ClientOk(states[i].clients[u])
  {
    RunInv(states, actions, maxConnections, i);
  }

  /** What a client's user asks for over UDP is handed to the write actor in order, and with someone
      listening the user is given leave to send over UDP once for each acknowledgement taken. */
  lemma UserIsServed(states: seq<Sys>, actions: seq<Action>, maxConnections: nat, i: nat, u: Uid)
    requires IsRun(states, actions, maxConnections) && i < |states| && u in states[i].clients
    ensures var c := states[i].clients[u];
      && CE.Apps(W.Owed(W.Accepted(c.udpOut))) <= c.acceptedUdp
      && (c.running ==> c.acceptedUdp == CE.Apps(W.Owed(W.Accepted(c.udpOut))) + CE.UdpPart(c.requests))
      && (c.eventsOpen ==> C.CanSends(c.events) == C.Acks(c.tcpIn.taken))
      && (c.latestUdpHeartbeat.Some? <==> Ok(Heartbeat) in c.udpIn.taken)
  {
    ClientAt(states, actions, maxConnections, u, i);
  }

  lemma PrefixReceives<T>(xs: seq<T>, ys: seq<T>, fs: seq<Frame<T>>, gs: seq<Frame<T>>)
    requires Receives(xs, gs) && xs <= ys && fs <= gs
    ensures Receives(ys, fs)
  {
  }

  /** What a client has taken off its TCP stream is, undamaged, in order and without duplicates, the
      beginning of what the run told it; an I/O error may come last. */
  lemma ToldInOrder(states: seq<Sys>, actions: seq<Action>, maxConnections: nat, i: nat, u: Uid)
    requires IsRun(states, actions, maxConnections) && i < |states| && u in states[i].clients
    ensures Receives(P.ToldDuring(states, actions, maxConnections, u, i), states[i].clients[u].tcpIn.taken)
  {
    RunInv(states, actions, maxConnections, i);
    P.ProjectionOfRun(states, actions, maxConnections, u, i);
    ClientFacts(states[i], u);
    WriterOk(states[i], u);
    var w, r := states[i].srv.writers[u], states[i].clients[u].tcpIn;
    W.Conservation(w);
    R.ReaderLaw(r);
    PrefixReceives(w.wire, W.Owed(W.Accepted(w)), r.taken, r.input);
  }
}
