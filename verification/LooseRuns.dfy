/** What is left of the broker's assertions when anybody may present any UUID from anywhere: all but the
    one about the size of the UDP index, and that one fails exactly when its stale entries outnumber the
    peers without one. */
module LooseRuns {
  import opened Wrappers
  import opened Messages
  import opened System
  import PT = PeerTable
  import S = Server
  import SA = ServerActors
  import SS = ServerSound
  import SE = ServerEffects
  import SI = ServerInvariant
  import SY = SystemInvariant
  import R = ReadActor
  import W = WriteActor

  /** The two indexes that no Hello touches are exact, and no index points to a uid not yet issued. */
  ghost predicate Indexed(t: PT.Table) {
    && PT.TcpExact(t) && PT.UuidExact(t) && PT.UidsBelow(t)
    && forall a :: a in t.byUdp ==> t.byUdp[a] < t.nextUid
  }

  ghost predicate Registered(t: PT.Table, uuidOf: map<Uid, Uuid>) {
    && (forall u: Uid :: u in uuidOf ==> u < t.nextUid)
    && (forall u: Uid :: u in t.peers ==> u in uuidOf && uuidOf[u] == t.peers[u].uuid)
  }

  /** The broker fails no assertion but that of the sizes. */
  ghost predicate Judged(h: Option<S.Halt>, t: PT.Table) {
    h != Some(S.UnreachableReached) && (h == Some(S.AssertionFailed) ==> !PT.SizeAssertions(t))
  }

  ghost predicate Inv(s: S.Server) {
    SA.Actors(s) && SS.Agenda(s) && Indexed(s.t) && Judged(s.halt, s.t)
  }

  ghost predicate LooseInv(s: Sys) {
    Inv(s.srv) && Registered(s.srv.t, s.uuidOf)
  }

  // ---- The broker ----

  lemma InsertIndexed(t: PT.Table, addr: Addr, uuid: Uuid)
    requires Indexed(t) && addr !in t.byTcp && uuid !in t.byUuid
    ensures Indexed(PT.Insert(t, addr, uuid))
  {
    PT.InsertTcpExact(t, addr, uuid);
    PT.InsertUuidExact(t, addr, uuid);
  }

  lemma HelloIndexed(t: PT.Table, uuid: Uuid, from: Addr)
    requires Indexed(t)
    ensures Indexed(PT.Hello(t, uuid, from))
  {
    PT.HelloKeepsOthers(t, uuid, from);
  }

  lemma RemoveIndexed(t: PT.Table, uid: Uid, reason: DisconnectReason)
    requires Indexed(t)
    ensures Indexed(PT.Remove(t, uid, reason))
  {
  }

  lemma TableIndexed(s: S.Server, b: S.Step)
    requires Indexed(s.t) && S.Enabled(s, b)
    requires b.Connection? ==> b.addr !in s.t.byTcp && b.uuid !in s.t.byUuid
    ensures Indexed(SE.TableAfter(s, b))
  {
    match b
    case LoopHead =>
      if |s.toDrop| == 1 {
        RemoveIndexed(s.t, s.toDrop[0].uid, s.toDrop[0].reason);
      }
    case Connection(addr, uuid) => InsertIndexed(s.t, addr, uuid);
    case UdpItem =>
      var d := s.udpIn.out[0];
      if d.frame.Ok? && d.frame.value.Hello? {
        HelloIndexed(s.t, d.frame.value.uuid, d.from);
      }
    case _ =>
  }

  lemma IssuedToActors(s: S.Server)
    requires SA.Actors(s) && Indexed(s.t)
    ensures SS.Issued(s)
  {
  }

  lemma HeadFails(s: S.Server)
    requires Inv(s) && S.Enabled(s, S.LoopHead) && S.Staffed(s) && !PT.SizeAssertions(s.t)
    ensures Inv(S.Apply(s, S.LoopHead))
    ensures S.Apply(s, S.LoopHead) == s.(halt := Some(S.AssertionFailed))
  {
  }

  /** A step other than the failing of the sizes. */
  lemma StepJudged(s: S.Server, b: S.Step)
    requires SA.Actors(s) && SS.Agenda(s) && S.Enabled(s, b) && S.Staffed(s)
    requires b.LoopHead? ==> PT.SizeAssertions(s.t)
    ensures SS.AssertionsHold(S.Apply(s, b))
  {
    SS.ActorsEndQuietly(s, b);
    if b.LoopHead? {
      SS.HeadAssertions(s);
    } else if b.TcpReaderEnd? || b.TcpWriterEnd? || b.UdpReaderEnd? || b.UdpWriterEnd? {
      SS.EndAssertions(s, b);
    } else {
      SS.ItemAssertions(s, b);
    }
  }

  lemma BrokerKeeps(s: S.Server, b: S.Step)
    requires SA.Actors(s) && SS.Agenda(s) && Indexed(s.t) && S.Enabled(s, b) && S.Staffed(s)
    requires b.LoopHead? ==> PT.SizeAssertions(s.t)
    requires b.Connection? ==> b.addr !in s.t.byTcp && b.uuid !in s.t.byUuid
    ensures Inv(S.Apply(s, b)) && SE.Effect(s, b, S.Apply(s, b))
  {
    IssuedToActors(s);
    SA.StepActors(s, b);
    SS.StepAgenda(s, b);
    StepJudged(s, b);
    SE.StepEffect(s, b);
    TableIndexed(s, b);
  }

  lemma FreshIsNew(s: Sys, addr: Addr, uuid: Uuid)
    requires Registered(s.srv.t, s.uuidOf) && PT.UuidExact(s.srv.t) && FreshConnection(s, addr, uuid)
    ensures addr !in s.srv.t.byTcp && uuid !in s.srv.t.byUuid
  {
    var t := s.srv.t;
    assert forall x :: x in t.byUuid ==> t.byUuid[x] in s.uuidOf && s.uuidOf[t.byUuid[x]] == x;
  }

  lemma BrokerRegisters(s: Sys, a: Action, v: S.Server)
    requires a.Broker? && S.Enabled(s.srv, a.b) && S.Staffed(s.srv) && SE.Effect(s.srv, a.b, v)
    requires Registered(s.srv.t, s.uuidOf)
    ensures Registered(v.t, if Accepts(s, a) then s.uuidOf[s.srv.t.nextUid := a.b.uuid] else s.uuidOf)
  {
    SY.TableKeeps(s.srv, a.b);
    if Accepts(s, a) {
      RegisteredGrows(s.srv.t, s.uuidOf, a.b.addr, a.b.uuid);
    }
  }

  lemma RegisteredGrows(t: PT.Table, uuidOf: map<Uid, Uuid>, addr: Addr, uuid: Uuid)
    requires Registered(t, uuidOf)
    ensures Registered(PT.Insert(t, addr, uuid), uuidOf[t.nextUid := uuid])
  {
  }

  lemma BrokerApplied(s: Sys, a: Action)
    requires a.Broker? && Possible(s, a)
    ensures Apply(s, a).srv == S.Apply(s.srv, a.b)
    ensures Apply(s, a).uuidOf == if Accepts(s, a) then s.uuidOf[s.srv.t.nextUid := a.b.uuid] else s.uuidOf
  {
  }

  lemma BrokerLoose(s: Sys, a: Action)
    requires LooseInv(s) && a.Broker? && Possible(s, a) && Fresh(s, a)
    ensures LooseInv(Apply(s, a))
  {
    BrokerApplied(s, a);
    if a.b.LoopHead? && !PT.SizeAssertions(s.srv.t) {
      HeadFails(s.srv);
    } else {
      if a.b.Connection? {
        FreshIsNew(s, a.b.addr, a.b.uuid);
      }
      BrokerKeeps(s.srv, a.b);
      BrokerRegisters(s, a, S.Apply(s.srv, a.b));
    }
  }

  // ---- Everybody else ----

  /** One IO actor of the server has moved, or what its stream has to yield. */
  ghost predicate Moved(s: S.Server, v: S.Server) {
    || v == s
    || (exists u, q :: u in s.readers && SI.ReaderEvolves(s.readers[u], q) && v == s.(readers := s.readers[u := q]))
    || (exists u, w :: u in s.writers && SI.WriterEvolves(s.writers[u], w) && v == s.(writers := s.writers[u := w]))
    || (exists q :: SI.ReaderEvolves(s.udpIn, q) && v == s.(udpIn := q))
    || (exists w :: SI.WriterEvolves(s.udpOut, w) && v == s.(udpOut := w))
  }

  lemma MovedKeeps(s: S.Server, v: S.Server)
    requires Inv(s) && Moved(s, v)
    ensures Inv(v) && v.t == s.t
  {
    if u, q :| u in s.readers && SI.ReaderEvolves(s.readers[u], q) && v == s.(readers := s.readers[u := q]) {
      SI.ReaderActors(s, u, q);
    } else if u, w :| u in s.writers && SI.WriterEvolves(s.writers[u], w) && v == s.(writers := s.writers[u := w]) {
      WriterActors(s, u, w);
    } else if q :| SI.ReaderEvolves(s.udpIn, q) && v == s.(udpIn := q) {
      UdpActors(s, q, s.udpOut);
    } else if w :| SI.WriterEvolves(s.udpOut, w) && v == s.(udpOut := w) {
      UdpActors(s, s.udpIn, w);
    }
  }

  lemma UdpActors(s: S.Server, q: S.UdpReader, w: S.UdpWriter)
    requires SA.Actors(s)
    requires q == s.udpIn || SI.ReaderEvolves(s.udpIn, q)
    requires w == s.udpOut || SI.WriterEvolves(s.udpOut, w)
    ensures SA.Actors(s.(udpIn := q, udpOut := w))
  {
  }

  lemma WriterActors(s: S.Server, u: Uid, w: S.TcpWriter)
    requires SA.Actors(s) && u in s.writers && SI.WriterEvolves(s.writers[u], w)
    ensures SA.Actors(s.(writers := s.writers[u := w]))
  {
    assert u in s.readers && SA.ActorsOk(u in s.t.peers, s.readers[u], s.writers[u]);
    SA.CrewWriter(s.t.peers.Keys, s.t.nextUid, s.readers, s.writers, u, w);
  }

  lemma ActorFacts(s: S.Server)
    requires SA.Actors(s)
    ensures forall u: Uid :: u in s.readers ==> R.Inv(s.readers[u])
    ensures forall u: Uid :: u in s.writers ==> W.Inv(s.writers[u])
    ensures R.Inv(s.udpIn) && W.Inv(s.udpOut)
  {
    forall u: Uid | u in s.readers || u in s.writers ensures u in s.readers && R.Inv(s.readers[u]) && W.Inv(s.writers[u]) {
      assert SA.ActorsOk(u in s.t.peers, s.readers[u], s.writers[u]);
    }
  }

  lemma IoMoves(s: Sys, a: Action)
    requires SA.Actors(s.srv) && Possible(s, a)
    requires a.ServerReader? || a.ServerWriter? || a.ServerUdpReader? || a.ServerUdpWriter?
    ensures Moved(s.srv, Apply(s, a).srv) && Apply(s, a).uuidOf == s.uuidOf
  {
    ActorFacts(s.srv);
    match a
    case ServerReader(uid, r) => SI.ReaderSteps(s.srv.readers[uid], r);
    case ServerWriter(uid, w) => SI.WriterSteps(s.srv.writers[uid], w);
    case ServerUdpReader(r) => SI.ReaderSteps(s.srv.udpIn, r);
    case ServerUdpWriter(w) => SI.WriterSteps(s.srv.udpOut, w);
  }

  lemma UpMoves(s: Sys, a: Action)
    requires SA.Actors(s.srv) && Possible(s, a) && (a.TcpUp? || a.TcpUpRaw? || a.TcpUpEnds? || a.TcpUpFails?)
    ensures Moved(s.srv, Apply(s, a).srv) && Apply(s, a).uuidOf == s.uuidOf
  {
    ActorFacts(s.srv);
    var r := s.srv.readers[a.uid];
    match a
    case TcpUp(uid) => SI.ReaderArrives(r, Ok(s.clients[uid].tcpOut.wire[|r.input|]));
    case TcpUpRaw(_, f) => SI.ReaderArrives(r, f);
    case TcpUpEnds(_) => SI.ReaderEnds(r);
    case TcpUpFails(_) =>
      SI.ReaderArrives(r, Garbage);
      SI.ReaderEnds(R.Arrive(r, Garbage));
      assert SI.ReaderEvolves(r, Broken(r));
  }

  lemma DatagramMoves(s: Sys, a: Action)
    requires SA.Actors(s.srv) && Possible(s, a) && (a.UdpUp? || a.UdpStranger?)
    ensures Moved(s.srv, Apply(s, a).srv) && Apply(s, a).uuidOf == s.uuidOf
  {
    ActorFacts(s.srv);
    SI.ReaderArrives(s.srv.udpIn, if a.UdpUp? then SentBy(s.clients[a.uid], a.k) else a.d);
  }

  lemma OthersLoose(s: Sys, a: Action)
    requires LooseInv(s) && !a.Broker? && Possible(s, a)
    ensures LooseInv(Apply(s, a))
  {
    if a.ServerReader? || a.ServerWriter? || a.ServerUdpReader? || a.ServerUdpWriter? {
      IoMoves(s, a);
    } else if a.TcpUp? || a.TcpUpRaw? || a.TcpUpEnds? || a.TcpUpFails? {
      UpMoves(s, a);
    } else if a.UdpUp? || a.UdpStranger? {
      DatagramMoves(s, a);
    } else {
      SY.ClientSide(s, a);
    }
    MovedKeeps(s.srv, Apply(s, a).srv);
  }

  // ---- Every loose run ----

  lemma LooseAt(states: seq<Sys>, actions: seq<Action>, maxConnections: nat, i: nat)
    requires IsLooseRun(states, actions, maxConnections) && 0 < i < |states| && LooseInv(states[i-1])
    ensures LooseInv(states[i])
  {
    assert LooseStepAt(states, actions, i - 1);
    if actions[i-1].Broker? {
      BrokerLoose(states[i-1], actions[i-1]);
    } else {
      OthersLoose(states[i-1], actions[i-1]);
    }
  }

  lemma LooseAtStart(states: seq<Sys>, actions: seq<Action>, maxConnections: nat)
    requires IsLooseRun(states, actions, maxConnections)
    ensures LooseInv(states[0])
  {
    SI.StartInv(maxConnections);
  }

  lemma {:induction false} LooseRunInv(states: seq<Sys>, actions: seq<Action>, maxConnections: nat, i: nat)
    requires IsLooseRun(states, actions, maxConnections) && i < |states|
    ensures LooseInv(states[i])
    decreases i
  {
    if i == 0 {
      LooseAtStart(states, actions, maxConnections);
    } else {
      LooseRunInv(states, actions, maxConnections, i - 1);
      LooseAt(states, actions, maxConnections, i);
    }
  }

  /** Whoever says Hello with whose UUID from where: no place marked unreachable is ever reached, no
      assertion about an actor's end fails, and where the size assertions fail, more entries of the UDP
      index are stale than peers are without one; and only then. */
  lemma OnlySizesFail(states: seq<Sys>, actions: seq<Action>, maxConnections: nat, i: nat)
    requires IsLooseRun(states, actions, maxConnections) && i < |states|
    ensures var s := states[i].srv;
      && s.halt != Some(S.UnreachableReached)
      && (PT.SizeAssertions(s.t) <==> |PT.Stale(s.t)| <= |PT.Unindexed(s.t)|)
      && (s.halt == Some(S.AssertionFailed) ==> |PT.Stale(s.t)| > |PT.Unindexed(s.t)|)
  {
    LooseRunInv(states, actions, maxConnections, i);
    PT.SizesCounted(states[i].srv.t);
  }

  /** At the head of its loop the broker halts if and only if that is so. */
  lemma HaltsExactly(states: seq<Sys>, actions: seq<Action>, maxConnections: nat, i: nat)
    requires IsLooseRun(states, actions, maxConnections) && i < |actions|
    requires actions[i].Broker? && actions[i].b.LoopHead?
    ensures states[i+1].srv.halt == Some(S.AssertionFailed) <==>
              |PT.Stale(states[i].srv.t)| > |PT.Unindexed(states[i].srv.t)|
  {
    LooseRunInv(states, actions, maxConnections, i);
    OnlySizesFail(states, actions, maxConnections, i);
    assert LooseStepAt(states, actions, i);
    HeadHalts(states[i], actions[i]);
  }

  lemma HeadHalts(s: Sys, a: Action)
    requires LooseInv(s) && Possible(s, a) && a.Broker? && a.b.LoopHead?
    ensures Apply(s, a).srv.halt == Some(S.AssertionFailed) <==> !PT.SizeAssertions(s.srv.t)
  {
    BrokerApplied(s, a);
    if PT.SizeAssertions(s.srv.t) {
      StepJudged(s.srv, S.LoopHead);
    } else {
      HeadFails(s.srv);
    }
  }
}
