/** What the broker's steps do to the peer table and its log, and what the log says about the
    messages of a peer. */
module ServerLog {
  import opened Wrappers
  import opened Messages
  import opened PeerTable
  import opened Server
  import opened ServerSound
  import opened ServerEffects
  import R = ReadActor

  // ---- The table ----

  lemma StepLogged(s: Server, b: Step)
    requires Logged(s.t) && Issued(s) && Enabled(s, b)
    ensures Logged(TableAfter(s, b))
  {
    match b
    case LoopHead =>
      if |s.toDrop| == 1 {
        RemoveLogged(s.t, s.toDrop[0].uid, s.toDrop[0].reason);
      }
    case Connection(addr, uuid) =>
      if !AtCapacity(s.t) {
        InsertLogged(s.t, addr, uuid);
      }
    case TcpItem(uid) =>
      if s.readers[uid].out[0].Ok? {
        EmitLogged(s.t, TcpMessage(uid, s.readers[uid].out[0].value));
      }
    case UdpItem =>
      var d := s.udpIn.out[0];
      if d.frame.Ok? && d.frame.value.Hello? {
        HelloLogged(s.t, d.frame.value.uuid, d.from);
      } else if d.frame.Ok? && d.from in s.t.byUdp {
        EmitLogged(s.t, UdpMessage(s.t.byUdp[d.from], d.frame.value.msg));
      }
    case _ =>
  }

  // ---- The indexes ----

  /** Each recorded UDP address is its peer's TCP address. */
  ghost predicate UdpIsTcp(t: Table) {
    forall u :: u in t.peers && t.peers[u].udp.Some? ==> t.peers[u].udp.value == t.peers[u].tcp
  }

  /** What the broker relies on its surroundings for: a new connection has neither the address nor the
      UUID of a connected peer, and a Hello comes from the TCP address of the peer whose UUID it
      carries. */
  ghost predicate Welcomes(t: Table, addr: Addr, uuid: Uuid) {
    addr !in t.byTcp && uuid !in t.byUuid
  }

  ghost predicate Recognises(t: Table, uuid: Uuid, from: Addr) {
    uuid in t.byUuid && t.byUuid[uuid] in t.peers ==> t.peers[t.byUuid[uuid]].tcp == from
  }

  ghost predicate Surroundings(s: Server, b: Step)
    requires Enabled(s, b)
  {
    match b
    case Connection(addr, uuid) => Welcomes(s.t, addr, uuid)
    case UdpItem =>
      var d := s.udpIn.out[0];
      d.frame.Ok? && d.frame.value.Hello? ==> Recognises(s.t, d.frame.value.uuid, d.from)
    case _ => true
  }

  lemma HelloKeepsExact(t: Table, uuid: Uuid, from: Addr)
    requires Exact(t) && UdpIsTcp(t) && Recognises(t, uuid, from)
    ensures Exact(PeerTable.Hello(t, uuid, from)) && UdpIsTcp(PeerTable.Hello(t, uuid, from))
  {
    if Greeter(t, uuid).Some? {
      HelloExact(t, uuid, from);
      var uid := t.byUuid[uuid];
      if from in t.byUdp {
        var v := t.byUdp[from];
        assert t.peers[v].tcp == from == t.peers[uid].tcp;
        assert t.byTcp[from] == v == uid;
      }
    }
  }

  lemma StepExact(s: Server, b: Step)
    requires Exact(s.t) && UdpIsTcp(s.t) && UidsBelow(s.t) && Enabled(s, b) && Surroundings(s, b)
    ensures Exact(TableAfter(s, b)) && UdpIsTcp(TableAfter(s, b))
  {
    match b
    case LoopHead =>
      if |s.toDrop| == 1 {
        RemoveExact(s.t, s.toDrop[0].uid, s.toDrop[0].reason);
      }
    case Connection(addr, uuid) => InsertExact(s.t, addr, uuid);
    case UdpItem =>
      var d := s.udpIn.out[0];
      if d.frame.Ok? && d.frame.value.Hello? {
        HelloKeepsExact(s.t, d.frame.value.uuid, d.from);
      }
    case _ =>
  }

  // ---- Messages and the log ----

  /** The TCP messages that a log attributes to a uid. */
  function Said(log: seq<Event>, u: Uid): seq<TcpToServer> {
    if log == [] then []
    else
      var before := Said(log[..|log|-1], u);
      match log[|log|-1]
      case TcpMessage(from, m) => if from == u then before + [m] else before
      case _ => before
  }

  function Decoded(fs: seq<Frame<TcpToServer>>): seq<TcpToServer> {
    if fs == [] then []
    else Decoded(fs[..|fs|-1]) + if fs[|fs|-1].Ok? then [fs[|fs|-1].value] else []
  }

  function TakenBy(rs: map<Uid, TcpReader>, u: Uid): seq<Frame<TcpToServer>> {
    if u in rs then rs[u].taken else []
  }

  /** The log has exactly the messages that the broker took from each peer's reader. */
  ghost predicate Transcribed(log: seq<Event>, rs: map<Uid, TcpReader>) {
    forall u: Uid :: Said(log, u) == Decoded(TakenBy(rs, u))
  }

  lemma {:induction false} EmitSaid(log: seq<Event>, ev: Event, u: Uid)
    ensures Said(log + [ev], u) == Said(log, u) + if ev.TcpMessage? && ev.from == u then [ev.tcp] else []
  {
    Snoc(log, ev);
  }

  lemma {:induction false} ReceiveDecoded(fs: seq<Frame<TcpToServer>>, f: Frame<TcpToServer>)
    ensures Decoded(fs + [f]) == Decoded(fs) + if f.Ok? then [f.value] else []
  {
    assert (fs + [f])[..|fs|] == fs;
  }

  /** The log after a step is the log before it and at most one more event. */
  lemma StepAppends(s: Server, b: Step)
    requires Enabled(s, b)
    ensures TableAfter(s, b).log == s.t.log ||
            (|TableAfter(s, b).log| == |s.t.log| + 1 && TableAfter(s, b).log[..|s.t.log|] == s.t.log)
    ensures forall u: Uid :: !b.TcpItem? ==> Said(TableAfter(s, b).log, u) == Said(s.t.log, u)
  {
  }

  lemma TcpItemTranscribed(s: Server, uid: Uid)
    requires Transcribed(s.t.log, s.readers) && Enabled(s, TcpItem(uid))
    ensures Transcribed(TableAfter(s, TcpItem(uid)).log, s.readers[uid := R.Receive(s.readers[uid])])
  {
    var f := s.readers[uid].out[0];
    var rs := s.readers[uid := R.Receive(s.readers[uid])];
    ReceiveDecoded(s.readers[uid].taken, f);
    forall u: Uid ensures Said(TableAfter(s, TcpItem(uid)).log, u) == Decoded(TakenBy(rs, u)) {
      assert Said(s.t.log, u) == Decoded(TakenBy(s.readers, u));
      if f.Ok? {
        EmitSaid(s.t.log, TcpMessage(uid, f.value), u);
      }
    }
  }

  /** Readers that took the same are as good as each other. */
  lemma SameTaken(log: seq<Event>, rs: map<Uid, TcpReader>, qs: map<Uid, TcpReader>)
    requires Transcribed(log, rs)
    requires forall u: Uid :: TakenBy(qs, u) == TakenBy(rs, u)
    ensures Transcribed(log, qs)
  {
    forall u: Uid ensures Said(log, u) == Decoded(TakenBy(qs, u)) {
      assert Said(log, u) == Decoded(TakenBy(rs, u));
    }
  }

  lemma StepTranscribed(s: Server, b: Step)
    requires Transcribed(s.t.log, s.readers) && Enabled(s, b) && Staffed(s)
    requires b.Connection? ==> s.t.nextUid !in s.readers
    ensures Transcribed(TableAfter(s, b).log, ReadersAfter(s, b))
  {
    if b.TcpItem? {
      TcpItemTranscribed(s, b.uid);
    } else {
      var qs := ReadersAfter(s, b);
      assert forall u: Uid :: TakenBy(qs, u) == TakenBy(s.readers, u);
      StepAppends(s, b);
      forall u: Uid ensures Said(TableAfter(s, b).log, u) == Decoded(TakenBy(qs, u)) {
        assert Said(s.t.log, u) == Decoded(TakenBy(s.readers, u));
      }
    }
  }

  // ---- Messages of the dead ----

  /** The log has a TCP message of u at a point where u is not connected. */
  predicate LateTcp(log: seq<Event>, u: Uid) {
    log != [] &&
    var front, last := log[..|log|-1], log[|log|-1];
    LateTcp(front, u) || (last.TcpMessage? && last.from == u && u !in Replay(front))
  }

  predicate LateUdp(log: seq<Event>) {
    log != [] &&
    var front, last := log[..|log|-1], log[|log|-1];
    LateUdp(front) || (last.UdpMessage? && last.from !in Replay(front))
  }

  predicate Exhausted(rs: map<Uid, TcpReader>, u: Uid) {
    u in rs && rs[u].reported && rs[u].out == []
  }

  /** Every uid that was issued is connected or was dropped for some cause. */
  ghost predicate Accounted(connected: set<Uid>, next: Uid, causes: map<Uid, Cause>) {
    forall u: Uid :: u in causes <==> u < next && u !in connected
  }

  /** A peer dropped because its reader reached the end of the stream was heard out first. */
  ghost predicate HeardOut(rs: map<Uid, TcpReader>, causes: map<Uid, Cause>, toDrop: seq<Drop>) {
    && (forall u :: u in causes && causes[u].ReaderEnd? ==> Exhausted(rs, u))
    && (toDrop != [] && toDrop[0].cause.ReaderEnd? ==> Exhausted(rs, toDrop[0].uid))
  }

  /** Every late message is of a peer dropped for another cause. */
  ghost predicate LateExplained(log: seq<Event>, causes: map<Uid, Cause>) {
    forall u: Uid :: LateTcp(log, u) ==> u in causes && !causes[u].ReaderEnd?
  }

  lemma {:induction false} LateTcpEmit(log: seq<Event>, ev: Event, u: Uid)
    ensures LateTcp(log + [ev], u) <==> LateTcp(log, u) || (ev.TcpMessage? && ev.from == u && u !in Replay(log))
  {
    Snoc(log, ev);
  }

  lemma {:induction false} LateUdpEmit(log: seq<Event>, ev: Event)
    ensures LateUdp(log + [ev]) <==> LateUdp(log) || (ev.UdpMessage? && ev.from !in Replay(log))
  {
    Snoc(log, ev);
  }

  /** While the indexes are exact, a UDP message is only ever attributed to a connected peer. */
  lemma StepLateUdp(s: Server, b: Step)
    requires Enabled(s, b) && Exact(s.t) && Logged(s.t) && !LateUdp(s.t.log)
    ensures !LateUdp(TableAfter(s, b).log)
  {
    var t := TableAfter(s, b);
    if t.log != s.t.log {
      var ev := t.log[|s.t.log|];
      assert t.log == s.t.log + [ev];
      LateUdpEmit(s.t.log, ev);
    }
  }

  lemma StepLateTcp(s: Server, b: Step, u: Uid)
    requires Enabled(s, b) && Logged(s.t)
    ensures LateTcp(TableAfter(s, b).log, u) <==>
              LateTcp(s.t.log, u) || (b == TcpItem(u) && s.readers[u].out[0].Ok? && u !in s.t.peers)
  {
    var t := TableAfter(s, b);
    if t.log != s.t.log {
      var ev := t.log[|s.t.log|];
      assert t.log == s.t.log + [ev];
      LateTcpEmit(s.t.log, ev, u);
    }
  }

  lemma RollAccounted(s: Server, b: Step)
    requires UidsBelow(s.t) && Accounted(s.t.peers.Keys, s.t.nextUid, s.causes)
    ensures Accounted(ConnectedAfter(s, b), NextAfter(s, b), CausesAfter(s, b))
  {
  }

  lemma StepAccounted(s: Server, b: Step)
    requires Enabled(s, b) && UidsBelow(s.t) && Accounted(s.t.peers.Keys, s.t.nextUid, s.causes)
    ensures Accounted(TableAfter(s, b).peers.Keys, TableAfter(s, b).nextUid, CausesAfter(s, b))
  {
    StepConnected(s, b);
    RollAccounted(s, b);
  }

  lemma StepHeardOut(s: Server, b: Step)
    requires Enabled(s, b) && Staffed(s) && HeardOut(s.readers, s.causes, s.toDrop)
    requires !s.phase.Head? ==> s.toDrop == []
    requires s.t.nextUid !in s.readers
    ensures HeardOut(ReadersAfter(s, b), CausesAfter(s, b), ToDropAfter(s, b))
  {
    assert forall u :: Exhausted(s.readers, u) ==> Exhausted(ReadersAfter(s, b), u);
  }

  lemma StepLateExplained(s: Server, b: Step)
    requires Enabled(s, b) && Logged(s.t) && Accounted(s.t.peers.Keys, s.t.nextUid, s.causes)
    requires b.TcpItem? ==> b.uid < s.t.nextUid
    requires HeardOut(s.readers, s.causes, s.toDrop) && LateExplained(s.t.log, s.causes)
    ensures LateExplained(TableAfter(s, b).log, CausesAfter(s, b))
  {
    var t, causes := TableAfter(s, b), CausesAfter(s, b);
    forall u: Uid | LateTcp(t.log, u) ensures u in causes && !causes[u].ReaderEnd? {
      if LateTcp(s.t.log, u) {
        assert u in s.causes;
      } else {
        StepLateTcp(s, b, u);
        assert u in s.causes;
        assert !Exhausted(s.readers, u);
      }
    }
  }

  // ---- What lateness means, by position ----

  /** A log without late messages of u has none after u has left. */
  lemma {:induction false} NoneAfterLeaving(log: seq<Event>, i: nat, j: nat)
    requires Orderly(log) && i < j < |log| && log[i].PeerDisconnect?
    ensures log[j].TcpMessage? && log[j].from == log[i].uid ==> LateTcp(log, log[i].uid)
    ensures log[j].UdpMessage? && log[j].from == log[i].uid ==> LateUdp(log)
    decreases |log|
  {
    var front := log[..|log|-1];
    if j < |log| - 1 {
      NoneAfterLeaving(front, i, j);
    } else {
      OrderlyAt(log, i);
      ReplayBelow(log[..i]);
      assert front[..i+1] == log[..i+1];
      GoneForGood(front, i + 1, log[i].uid);
    }
  }
}
