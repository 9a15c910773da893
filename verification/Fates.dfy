/** What becomes of the broker and of the peers it condemns, over whole runs. */
module Fates {
  import opened Wrappers
  import opened Messages
  import opened System
  import opened SystemInvariant
  import PT = PeerTable
  import S = Server
  import SE = ServerEffects
  import K = BrokerCourse
  import R = ReadActor
  import W = WriteActor

  // ---- The broker's course ----

  /** In every run the broker stops exactly in the cases that `HaltAfter` lists, and otherwise goes on
      where `PhaseAfter` says. */
  lemma StopsExactly(states: seq<Sys>, actions: seq<Action>, maxConnections: nat, i: nat)
    requires IsRun(states, actions, maxConnections) && i < |actions|
    ensures actions[i].Broker? ==> S.Enabled(states[i].srv, actions[i].b)
    ensures states[i+1].srv.halt == if actions[i].Broker? then K.HaltAfter(states[i].srv, actions[i].b) else states[i].srv.halt
    ensures actions[i].Broker? && states[i+1].srv.halt.None? ==>
      states[i+1].srv.phase == K.PhaseAfter(states[i].srv, actions[i].b)
  {
    if actions[i].Broker? {
      BrokerAt(states, actions, maxConnections, i);
      AgendaAt(states, actions, maxConnections, i);
      K.StepHalts(states[i].srv, actions[i].b);
      if states[i+1].srv.halt.None? {
        K.StepGoesOn(states[i].srv, actions[i].b);
      }
    } else {
      OthersAt(states, actions, maxConnections, i);
    }
  }

  /** In every run the log grows with each action by exactly the events that `EventsOf` lists. */
  lemma LogsExactly(states: seq<Sys>, actions: seq<Action>, maxConnections: nat, i: nat)
    requires IsRun(states, actions, maxConnections) && i < |actions|
    ensures actions[i].Broker? ==> S.Enabled(states[i].srv, actions[i].b)
    ensures states[i+1].srv.t.log == states[i].srv.t.log +
      if actions[i].Broker? then K.EventsOf(states[i].srv, actions[i].b) else []
  {
    if actions[i].Broker? {
      BrokerAt(states, actions, maxConnections, i);
      K.StepLogs(states[i].srv, actions[i].b);
    } else {
      OthersAt(states, actions, maxConnections, i);
    }
  }

  // ---- Whoever is condemned is dropped next ----

  predicate NoBroker(actions: seq<Action>, i: nat, j: nat)
    requires i <= j <= |actions|
  {
    forall n :: i <= n < j ==> !actions[n].Broker?
  }

  /** While the broker does nothing, nothing of it changes but the states of the IO actors. */
  lemma {:induction false} Meanwhile(states: seq<Sys>, actions: seq<Action>, maxConnections: nat, i: nat, j: nat)
    requires IsRun(states, actions, maxConnections) && i <= j <= |actions| && NoBroker(actions, i, j)
    ensures OnlyActorsMove(states[i].srv, states[j].srv)
    decreases j
  {
    if i < j {
      Meanwhile(states, actions, maxConnections, i, j - 1);
      OthersAt(states, actions, maxConnections, j - 1);
    }
  }

  lemma SizesRight(states: seq<Sys>, actions: seq<Action>, maxConnections: nat, i: nat)
    requires IsRun(states, actions, maxConnections) && i < |states|
    ensures !K.SizesWrong(states[i].srv.t)
  {
    TableAt(states, actions, maxConnections, i);
    PT.ExactSizes(states[i].srv.t);
  }

  /** In every run, when a step condemns a peer then the broker does not stop there, and the next thing
      that it does is to drop that peer, if it is still connected, and to log its disconnect with the
      reason for which it was condemned. */
  lemma CondemnedIsDropped(states: seq<Sys>, actions: seq<Action>, maxConnections: nat, i: nat, j: nat)
    requires IsRun(states, actions, maxConnections) && i < j < |actions|
    requires actions[i].Broker? && actions[j].Broker? && NoBroker(actions, i + 1, j)
    ensures S.Enabled(states[i].srv, actions[i].b)
    ensures var d := SE.CondemnedBy(states[i].srv, actions[i].b);
      d.Some? ==>
        && states[i+1].srv.halt.None? && actions[j].b.LoopHead? && states[j+1].srv.halt.None?
        && states[j+1].srv.t.log == states[i].srv.t.log +
             (if d.value.uid in states[i].srv.t.peers then [PeerDisconnect(d.value.uid, d.value.reason)] else [])
        && d.value.uid !in states[j+1].srv.t.peers
  {
    StopsExactly(states, actions, maxConnections, i);
    var d := SE.CondemnedBy(states[i].srv, actions[i].b);
    if d.Some? {
      Condemning(states, actions, maxConnections, i);
      Meanwhile(states, actions, maxConnections, i + 1, j);
      Dropping(states, actions, maxConnections, j, d.value);
    }
  }

  lemma Condemning(states: seq<Sys>, actions: seq<Action>, maxConnections: nat, i: nat)
    requires IsRun(states, actions, maxConnections) && i < |actions| && actions[i].Broker?
    requires S.Enabled(states[i].srv, actions[i].b) && SE.CondemnedBy(states[i].srv, actions[i].b).Some?
    ensures var s, v := states[i].srv, states[i+1].srv;
      && v.halt.None? && v.phase.Head? && v.toDrop == [SE.CondemnedBy(s, actions[i].b).value]
      && v.t.log == s.t.log && v.t.peers.Keys == s.t.peers.Keys
  {
    var s, b := states[i].srv, actions[i].b;
    StopsExactly(states, actions, maxConnections, i);
    LogsExactly(states, actions, maxConnections, i);
    BrokerAt(states, actions, maxConnections, i);
    AgendaAt(states, actions, maxConnections, i);
    K.CondemningGoesOn(s, b);
    SE.StepConnected(s, b);
  }

  lemma Dropping(states: seq<Sys>, actions: seq<Action>, maxConnections: nat, j: nat, d: S.Drop)
    requires IsRun(states, actions, maxConnections) && j < |actions| && actions[j].Broker?
    requires states[j].srv.phase.Head? && states[j].srv.toDrop == [d]
    ensures var s, v := states[j].srv, states[j+1].srv;
      && actions[j].b.LoopHead? && v.halt.None?
      && v.t.log == s.t.log + (if d.uid in s.t.peers then [PeerDisconnect(d.uid, d.reason)] else [])
      && d.uid !in v.t.peers
  {
    StopsExactly(states, actions, maxConnections, j);
    LogsExactly(states, actions, maxConnections, j);
    BrokerAt(states, actions, maxConnections, j);
    SizesRight(states, actions, maxConnections, j);
    SE.StepConnected(states[j].srv, actions[j].b);
  }

  /** In every run, when the broker takes the EndOfStream of a connected peer it goes on, and the next
      thing that it does is to drop that peer, as one that closed the connection. */
  lemma ClosingPeerIsDropped(states: seq<Sys>, actions: seq<Action>, maxConnections: nat, i: nat, j: nat, u: Uid)
    requires IsRun(states, actions, maxConnections) && i < j < |actions|
    requires actions[i].Broker? && actions[i].b == S.TcpReaderEnd(u) && u in states[i].srv.t.peers
    requires u in states[i].srv.readers && R.EndedWith(states[i].srv.readers[u], R.EndOfStream)
    requires actions[j].Broker? && NoBroker(actions, i + 1, j)
    ensures states[i+1].srv.halt.None? && actions[j].b.LoopHead? && states[j+1].srv.halt.None?
    ensures states[j+1].srv.t.log == states[i].srv.t.log + [PeerDisconnect(u, PeerClosedConnection)]
    ensures u !in states[j+1].srv.t.peers
  {
    CondemnedIsDropped(states, actions, maxConnections, i, j);
  }

  // ---- Why peers are disconnected ----

  /** What there must be for a peer to be disconnected for this reason: the end of its stream, or a failed
      writer; or something undecodable, taken from its stream or from a datagram from its address. */
  ghost predicate Grounds(s: Sys, u: Uid, r: DisconnectReason) {
    match r
    case PeerClosedConnection =>
      || (u in s.srv.readers && R.EndedWith(s.srv.readers[u], R.EndOfStream))
      || (u in s.srv.writers && s.srv.writers[u].phase == W.Finished(Controlled(W.SinkError)))
    case PeerSubmittedUnintelligibleData =>
      || (u in s.srv.readers && Garbage in s.srv.readers[u].taken)
      || (u in s.addrOf && S.Datagram(Garbage, s.addrOf[u]) in s.srv.udpIn.taken)
  }

  ghost predicate ReaderAges<T>(r: R.Reader<T>, q: R.Reader<T>) {
    r.taken <= q.taken && (r.phase.Finished? ==> q.phase == r.phase)
  }

  ghost predicate WriterAges<T>(w: W.Writer<T>, v: W.Writer<T>) {
    w.phase.Finished? ==> v.phase == w.phase
  }

  ghost predicate Ages(s: Sys, v: Sys) {
    && (forall u :: u in s.srv.readers ==> u in v.srv.readers && ReaderAges(s.srv.readers[u], v.srv.readers[u]))
    && (forall u :: u in s.srv.writers ==> u in v.srv.writers && WriterAges(s.srv.writers[u], v.srv.writers[u]))
    && (forall u :: u in s.addrOf ==> u in v.addrOf && v.addrOf[u] == s.addrOf[u])
    && ReaderAges(s.srv.udpIn, v.srv.udpIn)
  }

  lemma GroundsStay(s: Sys, v: Sys, u: Uid, r: DisconnectReason)
    requires Grounds(s, u, r) && Ages(s, v)
    ensures Grounds(v, u, r)
  {
  }

  lemma ReadersAge(s: S.Server, b: S.Step)
    requires S.Enabled(s, b) && S.Staffed(s) && s.t.nextUid !in s.readers
    ensures forall u :: u in s.readers ==>
      u in SE.ReadersAfter(s, b) && ReaderAges(s.readers[u], SE.ReadersAfter(s, b)[u])
  {
  }

  lemma WritersAge(s: S.Server, b: S.Step)
    requires S.Enabled(s, b) && S.Staffed(s) && s.t.nextUid !in s.writers
    ensures forall u :: u in s.writers ==>
      u in SE.WritersAfter(s, b) && WriterAges(s.writers[u], SE.WritersAfter(s, b)[u])
  {
  }

  lemma BrokerAges(states: seq<Sys>, actions: seq<Action>, maxConnections: nat, i: nat)
    requires IsRun(states, actions, maxConnections) && i < |actions| && actions[i].Broker?
    ensures Ages(states[i], states[i+1])
  {
    BrokerAt(states, actions, maxConnections, i);
    NextIsNew(states, actions, maxConnections, i);
    AgesByEffect(states[i], actions[i], states[i+1]);
  }

  lemma AgesByEffect(s: Sys, a: Action, v: Sys)
    requires a.Broker? && Enabled(s, a) && BrokerEffect(s, a, v)
    requires s.srv.t.nextUid !in s.srv.readers && s.srv.t.nextUid !in s.srv.writers && s.srv.t.nextUid !in s.addrOf
    ensures Ages(s, v)
  {
    ReadersAge(s.srv, a.b);
    WritersAge(s.srv, a.b);
  }

  lemma IoAges(s: Sys, a: Action)
    requires Possible(s, a) && (a.ServerReader? || a.ServerWriter? || a.ServerUdpReader? || a.ServerUdpWriter?)
    ensures Ages(s, Apply(s, a))
  {
    match a
    case ServerReader(uid, r) => R.StepFrame(s.srv.readers[uid], r);
    case ServerUdpReader(r) => R.StepFrame(s.srv.udpIn, r);
    case _ =>
  }

  lemma StreamAges(s: Sys, a: Action)
    requires Possible(s, a) && (a.TcpUp? || a.TcpUpRaw? || a.TcpUpEnds? || a.TcpUpFails?)
    ensures Ages(s, Apply(s, a))
  {
  }

  lemma SocketAges(s: Sys, a: Action)
    requires Possible(s, a) && (a.UdpUp? || a.UdpStranger?)
    ensures Ages(s, Apply(s, a))
  {
  }

  lemma RunAges(states: seq<Sys>, actions: seq<Action>, maxConnections: nat, i: nat)
    requires IsRun(states, actions, maxConnections) && i < |actions|
    ensures Ages(states[i], states[i+1])
  {
    var a := actions[i];
    if a.Broker? {
      BrokerAges(states, actions, maxConnections, i);
    } else {
      OthersAt(states, actions, maxConnections, i);
      if AtClient(a) {
        ClientSide(states[i], a);
      } else if a.ServerReader? || a.ServerWriter? || a.ServerUdpReader? || a.ServerUdpWriter? {
        IoAges(states[i], a);
      } else if a.UdpUp? || a.UdpStranger? {
        SocketAges(states[i], a);
      } else {
        StreamAges(states[i], a);
      }
    }
  }

  /** As which causes a reason is booked. */
  predicate Matches(r: DisconnectReason, c: S.Cause) {
    r == PeerClosedConnection <==> c == S.ReaderEnd || c == S.WriterError
  }

  /** Every disconnect in the log, and every drop that is pending, has its grounds and its cause. */
  ghost predicate Justified(s: Sys) {
    && (forall k :: 0 <= k < |s.srv.t.log| && s.srv.t.log[k].PeerDisconnect? ==>
          var ev := s.srv.t.log[k];
          Grounds(s, ev.uid, ev.reason) && ev.uid in s.srv.causes && Matches(ev.reason, s.srv.causes[ev.uid]))
    && (forall d :: d in s.srv.toDrop ==> Grounds(s, d.uid, d.reason) && Matches(d.reason, d.cause))
  }

  /** Whoever is condemned has given grounds for it with this step. */
  lemma CondemnedHasGrounds(states: seq<Sys>, actions: seq<Action>, maxConnections: nat, i: nat)
    requires IsRun(states, actions, maxConnections) && i < |actions| && actions[i].Broker?
    ensures S.Enabled(states[i].srv, actions[i].b)
    ensures var d := SE.CondemnedBy(states[i].srv, actions[i].b);
      d.Some? ==> Grounds(states[i+1], d.value.uid, d.value.reason) && Matches(d.value.reason, d.value.cause)
  {
    BrokerAt(states, actions, maxConnections, i);
    var s, b := states[i].srv, actions[i].b;
    if SE.CondemnedBy(s, b).Some? {
      RunAges(states, actions, maxConnections, i);
      TakenHasGrounds(s, b, states[i+1].srv);
      if b.UdpItem? {
        IndexedAddress(states, actions, maxConnections, i, s.udpIn.out[0].from);
      }
    }
  }

  lemma TakenHasGrounds(s: S.Server, b: S.Step, v: S.Server)
    requires S.Enabled(s, b) && S.Staffed(s) && SE.Effect(s, b, v) && SE.CondemnedBy(s, b).Some?
    ensures b.TcpItem? ==> b.uid in v.readers && Garbage in v.readers[b.uid].taken
    ensures b.UdpItem? ==> S.Datagram(Garbage, s.udpIn.out[0].from) in v.udpIn.taken
  {
    if b.TcpItem? {
      var q := v.readers[b.uid];
      assert q.taken[|q.taken|-1] == Garbage;
    } else if b.UdpItem? {
      assert v.udpIn.taken[|v.udpIn.taken|-1] == s.udpIn.out[0];
    }
  }

  /** An address in the UDP index is the TCP address of the peer it points to. */
  lemma IndexedAddress(states: seq<Sys>, actions: seq<Action>, maxConnections: nat, i: nat, from: Addr)
    requires IsRun(states, actions, maxConnections) && i < |states| && from in states[i].srv.t.byUdp
    ensures var u := states[i].srv.t.byUdp[from]; u in states[i].addrOf && states[i].addrOf[u] == from
  {
    TableAt(states, actions, maxConnections, i);
    RegistryAt(states, actions, maxConnections, i);
  }

  lemma OldJustified(states: seq<Sys>, actions: seq<Action>, maxConnections: nat, i: nat, ev: Event)
    requires IsRun(states, actions, maxConnections) && i < |actions| && ev.PeerDisconnect?
    requires Grounds(states[i], ev.uid, ev.reason)
    requires ev.uid in states[i].srv.causes && Matches(ev.reason, states[i].srv.causes[ev.uid])
    ensures Grounds(states[i+1], ev.uid, ev.reason)
    ensures ev.uid in states[i+1].srv.causes && Matches(ev.reason, states[i+1].srv.causes[ev.uid])
  {
    RunAges(states, actions, maxConnections, i);
    GroundsStay(states[i], states[i+1], ev.uid, ev.reason);
    CausesStay(states, actions, maxConnections, i, ev.uid);
  }

  lemma CausesStay(states: seq<Sys>, actions: seq<Action>, maxConnections: nat, i: nat, u: Uid)
    requires IsRun(states, actions, maxConnections) && i < |actions| && u in states[i].srv.causes
    ensures u in states[i+1].srv.causes && states[i+1].srv.causes[u] == states[i].srv.causes[u]
  {
    if actions[i].Broker? {
      BrokerAt(states, actions, maxConnections, i);
      GoneWithCause(states, actions, maxConnections, i, u);
    } else {
      OthersAt(states, actions, maxConnections, i);
    }
  }

  lemma GoneWithCause(states: seq<Sys>, actions: seq<Action>, maxConnections: nat, i: nat, u: Uid)
    requires IsRun(states, actions, maxConnections) && i < |states| && u in states[i].srv.causes
    ensures u !in states[i].srv.t.peers
  {
    RunInv(states, actions, maxConnections, i);
  }

  /** A disconnect that is logged is that of the peer that was condemned. */
  lemma NewJustified(states: seq<Sys>, actions: seq<Action>, maxConnections: nat, i: nat)
    requires IsRun(states, actions, maxConnections) && i < |actions| && actions[i].Broker? && Justified(states[i])
    ensures S.Enabled(states[i].srv, actions[i].b)
    ensures forall ev :: ev in K.EventsOf(states[i].srv, actions[i].b) && ev.PeerDisconnect? ==>
      && Grounds(states[i+1], ev.uid, ev.reason)
      && ev.uid in states[i+1].srv.causes && Matches(ev.reason, states[i+1].srv.causes[ev.uid])
  {
    BrokerAt(states, actions, maxConnections, i);
    var s, b := states[i].srv, actions[i].b;
    if b.LoopHead? && |s.toDrop| == 1 && s.toDrop[0].uid in s.t.peers {
      var d := s.toDrop[0];
      assert d in s.toDrop;
      RunAges(states, actions, maxConnections, i);
      GroundsStay(states[i], states[i+1], d.uid, d.reason);
    }
  }

  lemma PendingJustified(states: seq<Sys>, actions: seq<Action>, maxConnections: nat, i: nat, d: S.Drop)
    requires IsRun(states, actions, maxConnections) && i < |actions| && Justified(states[i])
    requires d in states[i+1].srv.toDrop
    ensures Grounds(states[i+1], d.uid, d.reason) && Matches(d.reason, d.cause)
  {
    RunAges(states, actions, maxConnections, i);
    if d in states[i].srv.toDrop {
      GroundsStay(states[i], states[i+1], d.uid, d.reason);
    } else if actions[i].Broker? {
      BrokerAt(states, actions, maxConnections, i);
      CondemnedHasGrounds(states, actions, maxConnections, i);
    } else {
      OthersAt(states, actions, maxConnections, i);
    }
  }

  lemma LoggedJustified(states: seq<Sys>, actions: seq<Action>, maxConnections: nat, i: nat, k: nat)
    requires IsRun(states, actions, maxConnections) && i < |actions| && Justified(states[i])
    requires k < |states[i+1].srv.t.log| && states[i+1].srv.t.log[k].PeerDisconnect?
    ensures var ev := states[i+1].srv.t.log[k];
      && Grounds(states[i+1], ev.uid, ev.reason)
      && ev.uid in states[i+1].srv.causes && Matches(ev.reason, states[i+1].srv.causes[ev.uid])
  {
    LogsExactly(states, actions, maxConnections, i);
    var before, ev := states[i].srv.t.log, states[i+1].srv.t.log[k];
    if k < |before| {
      assert before[k] == ev;
      OldJustified(states, actions, maxConnections, i, ev);
    } else {
      assert actions[i].Broker? && ev == K.EventsOf(states[i].srv, actions[i].b)[k - |before|];
      NewJustified(states, actions, maxConnections, i);
    }
  }

  lemma JustifiedAt(states: seq<Sys>, actions: seq<Action>, maxConnections: nat, i: nat)
    requires IsRun(states, actions, maxConnections) && 0 < i < |states| && Justified(states[i-1])
    ensures Justified(states[i])
  {
    forall k: nat | k < |states[i].srv.t.log| && states[i].srv.t.log[k].PeerDisconnect?
      ensures var ev := states[i].srv.t.log[k];
        Grounds(states[i], ev.uid, ev.reason) && ev.uid in states[i].srv.causes && Matches(ev.reason, states[i].srv.causes[ev.uid])
    {
      LoggedJustified(states, actions, maxConnections, i - 1, k);
    }
    forall d | d in states[i].srv.toDrop ensures Grounds(states[i], d.uid, d.reason) && Matches(d.reason, d.cause) {
      PendingJustified(states, actions, maxConnections, i - 1, d);
    }
  }

  lemma {:induction false} AllJustified(states: seq<Sys>, actions: seq<Action>, maxConnections: nat, i: nat)
    requires IsRun(states, actions, maxConnections) && i < |states|
    ensures Justified(states[i])
    decreases i
  {
    if i > 0 {
      AllJustified(states, actions, maxConnections, i - 1);
      JustifiedAt(states, actions, maxConnections, i);
    }
  }

  /** In every log of every run, a peer is reported to have closed the connection only if its stream ended
      or its writer failed, and to have sent unintelligible data only if something undecodable was taken
      from its stream, or from a datagram from its address; and the reason is that of the cause for which
      the broker dropped it. */
  lemma DisconnectsJustified(states: seq<Sys>, actions: seq<Action>, maxConnections: nat, i: nat, k: nat)
    requires IsRun(states, actions, maxConnections) && i < |states|
    requires k < |states[i].srv.t.log| && states[i].srv.t.log[k].PeerDisconnect?
    ensures var ev := states[i].srv.t.log[k];
      && Grounds(states[i], ev.uid, ev.reason)
      && ev.uid in states[i].srv.causes
      && (ev.reason == PeerClosedConnection <==> states[i].srv.causes[ev.uid] in {S.ReaderEnd, S.WriterError})
  {
    AllJustified(states, actions, maxConnections, i);
  }
}
