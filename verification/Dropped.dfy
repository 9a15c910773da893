/** What becomes of the actors of a dropped peer, and how often the end of an actor is reported. */
module Dropped {
  import opened Wrappers
  import opened Messages
  import opened System
  import opened SystemInvariant
  import S = Server
  import SA = ServerActors
  import SE = ServerEffects
  import P = Projection
  import U = UdpPost
  import W = WriteActor

  /** What the steps of everybody but the writer itself leave of a writer. */
  predicate SameWork(w: S.TcpWriter, v: S.TcpWriter) {
    v == w || v == W.Report(w)
  }

  lemma WritersLeaveDropped(s: S.Server, b: S.Step, u: Uid)
    requires S.Enabled(s, b) && S.Staffed(s) && s.t.nextUid !in s.writers && u in s.writers && u !in s.t.peers
    requires SE.Offered(s, b).Some? ==> SE.Offered(s, b).value.0 in s.t.peers
    ensures u in SE.WritersAfter(s, b) && SameWork(s.writers[u], SE.WritersAfter(s, b)[u])
  {
  }

  lemma BrokerLeavesDropped(s: S.Server, b: S.Step, u: Uid)
    requires S.Enabled(s, b) && S.Staffed(s) && s.t.nextUid !in s.writers && u in s.writers && u !in s.t.peers
    requires u < s.t.nextUid
    ensures u in SE.WritersAfter(s, b) && SameWork(s.writers[u], SE.WritersAfter(s, b)[u])
    ensures u !in SE.TableAfter(s, b).peers
  {
    SE.StepConnected(s, b);
    if SE.Offered(s, b).Some? {
      P.OfferedConnected(s, b);
    }
    WritersLeaveDropped(s, b, u);
  }

  lemma OthersLeaveWriter(s: Sys, a: Action, u: Uid)
    requires !a.Broker? && Possible(s, a) && u in s.srv.writers && !WriterActs(a, u)
    ensures u in Apply(s, a).srv.writers && Apply(s, a).srv.writers[u] == s.srv.writers[u]
  {
    if AtClient(a) {
      ClientSide(s, a);
    }
  }

  predicate WriterActs(a: Action, u: Uid) {
    a.ServerWriter? && a.uid == u
  }

  /** u was dropped when its writer was `w`, which has taken k steps since. */
  ghost predicate Draining(s: Sys, u: Uid, w: S.TcpWriter, k: nat) {
    && u in s.srv.writers && u !in s.srv.t.peers
    && W.Accepted(s.srv.writers[u]) == W.Accepted(w)
    && W.Rank(s.srv.writers[u]) + k <= W.Rank(w)
  }

  lemma DroppedWriter(s: S.Server, u: Uid)
    requires SA.Actors(s) && u in s.writers && u !in s.t.peers
    ensures W.Inv(s.writers[u]) && !s.writers[u].handle
  {
    assert u in s.readers && SA.ActorsOk(false, s.readers[u], s.writers[u]);
  }

  /** How many steps the write actor of u takes between two moments of a run. */
  ghost function WriterSteps(actions: seq<Action>, u: Uid, i: nat, j: nat): nat
    requires i <= j <= |actions|
    decreases j
  {
    if i == j then 0 else WriterSteps(actions, u, i, j - 1) + if WriterActs(actions[j-1], u) then 1 else 0
  }

  /** A dropped peer stays dropped; nobody adds to its writer's work; and each step of its writer brings
      that nearer to its end. */
  lemma DrainingAt(states: seq<Sys>, actions: seq<Action>, maxConnections: nat, u: Uid, w: S.TcpWriter, k: nat, j: nat)
    requires IsRun(states, actions, maxConnections) && j < |actions| && Draining(states[j], u, w, k)
    ensures Draining(states[j+1], u, w, if WriterActs(actions[j], u) then k + 1 else k)
  {
    if actions[j].Broker? {
      BrokerAt(states, actions, maxConnections, j);
      NextIsNew(states, actions, maxConnections, j);
      IssuedAt(states, actions, maxConnections, u, j);
      BrokerLeavesDropped(states[j].srv, actions[j].b, u);
    } else if WriterActs(actions[j], u) {
      WriterDraining(states, actions, maxConnections, u, w, k, j);
    } else {
      OthersAt(states, actions, maxConnections, j);
      OthersLeaveWriter(states[j], actions[j], u);
    }
  }

  lemma IssuedAt(states: seq<Sys>, actions: seq<Action>, maxConnections: nat, u: Uid, j: nat)
    requires IsRun(states, actions, maxConnections) && j < |states| && u in states[j].srv.writers
    ensures u < states[j].srv.t.nextUid
  {
    ActorsAt(states, actions, maxConnections, j);
  }

  lemma WriterDraining(states: seq<Sys>, actions: seq<Action>, maxConnections: nat, u: Uid, w: S.TcpWriter, k: nat, j: nat)
    requires IsRun(states, actions, maxConnections) && j < |actions| && Draining(states[j], u, w, k)
    requires WriterActs(actions[j], u)
    ensures Draining(states[j+1], u, w, k + 1)
  {
    OthersAt(states, actions, maxConnections, j);
    ActorsAt(states, actions, maxConnections, j);
    DroppedWriter(states[j].srv, u);
    W.StepFrame(states[j].srv.writers[u], actions[j].w);
    W.StepDescends(states[j].srv.writers[u], actions[j].w);
  }

  lemma {:induction false} DroppedRun(states: seq<Sys>, actions: seq<Action>, maxConnections: nat, u: Uid, i: nat, j: nat)
    requires IsRun(states, actions, maxConnections) && i <= j < |states|
    requires u in states[i].srv.writers && u !in states[i].srv.t.peers
    ensures Draining(states[j], u, states[i].srv.writers[u], WriterSteps(actions, u, i, j))
    decreases j
  {
    if i < j {
      DroppedRun(states, actions, maxConnections, u, i, j - 1);
      DrainingAt(states, actions, maxConnections, u, states[i].srv.writers[u], WriterSteps(actions, u, i, j - 1), j - 1);
    }
  }

  /** A dropped peer's writer drains and stops, whether it was told to or only lost its handle: from the
      drop on it takes at most `Rank` steps, whatever everybody else does; it always has a step to take
      until it has ended; and if it ended on its own terms without a sink error then everything it had
      been asked to write by the time of the drop is on the wire. */
  lemma DroppedWriterDrains(states: seq<Sys>, actions: seq<Action>, maxConnections: nat, u: Uid, i: nat, j: nat)
    requires IsRun(states, actions, maxConnections) && i <= j < |states|
    requires u in states[i].srv.writers && u !in states[i].srv.t.peers
    ensures u in states[j].srv.writers
    ensures WriterSteps(actions, u, i, j) <= W.Rank(states[i].srv.writers[u])
    ensures var v := states[j].srv.writers[u];
      && (v.phase.Finished? || exists w: W.Step :: W.Enabled(v, w))
      && (v.phase.Finished? && v.phase.shutdown.Controlled? && !v.failed ==>
            v.wire == W.Owed(W.Accepted(states[i].srv.writers[u])))
  {
    DroppedRun(states, actions, maxConnections, u, i, j);
    ActorsAt(states, actions, maxConnections, j);
    DroppedWriter(states[j].srv, u);
    EndedWriterWrote(states[j].srv.writers[u]);
  }

  lemma EndedWriterWrote(v: S.TcpWriter)
    requires W.Inv(v) && !v.handle
    ensures v.phase.Finished? || exists w: W.Step :: W.Enabled(v, w)
    ensures v.phase.Finished? && v.phase.shutdown.Controlled? && !v.failed ==> v.wire == W.Owed(W.Accepted(v))
  {
    if !v.phase.Finished? {
      W.NeverStuck(v);
    } else if v.phase.shutdown.Controlled? && !v.failed {
      W.EndedWrote(v);
    }
  }

  // ---- Ends are reported once ----

  predicate IsEnd(b: S.Step) {
    b.TcpReaderEnd? || b.TcpWriterEnd? || b.UdpReaderEnd? || b.UdpWriterEnd?
  }

  /** The end of which this step is the report was reported. */
  predicate Reported(s: S.Server, b: S.Step) {
    match b
    case TcpReaderEnd(u) => u in s.readers && s.readers[u].reported
    case TcpWriterEnd(u) => u in s.writers && s.writers[u].reported
    case UdpReaderEnd => s.udpIn.reported
    case UdpWriterEnd => s.udpOut.reported
    case _ => false
  }

  lemma ReadersKeepReported(s: S.Server, a: S.Step, u: Uid)
    requires S.Enabled(s, a) && S.Staffed(s) && s.t.nextUid !in s.readers
    requires a == S.TcpReaderEnd(u) || Reported(s, S.TcpReaderEnd(u))
    ensures u in SE.ReadersAfter(s, a) && SE.ReadersAfter(s, a)[u].reported
  {
  }

  lemma WritersKeepReported(s: S.Server, a: S.Step, u: Uid)
    requires S.Enabled(s, a) && S.Staffed(s) && s.t.nextUid !in s.writers
    requires a == S.TcpWriterEnd(u) || Reported(s, S.TcpWriterEnd(u))
    ensures u in SE.WritersAfter(s, a) && SE.WritersAfter(s, a)[u].reported
  {
  }

  lemma ServerReported(s: S.Server, a: S.Step, b: S.Step, v: S.Server)
    requires S.Enabled(s, a) && S.Staffed(s) && s.t.nextUid !in s.readers && s.t.nextUid !in s.writers
    requires SE.Effect(s, a, v) && v.udpOut == U.UdpOutAfter(s, a)
    requires IsEnd(b) && (a == b || Reported(s, b))
    ensures Reported(v, b)
  {
    match b
    case TcpReaderEnd(u) => ReadersKeepReported(s, a, u);
    case TcpWriterEnd(u) => WritersKeepReported(s, a, u);
    case _ =>
  }

  lemma BrokerReported(states: seq<Sys>, actions: seq<Action>, maxConnections: nat, b: S.Step, i: nat)
    requires IsRun(states, actions, maxConnections) && i < |actions| && IsEnd(b) && actions[i].Broker?
    ensures Reported(states[i].srv, b) || Reports(actions[i], b) ==> Reported(states[i+1].srv, b)
    ensures Reported(states[i].srv, b) ==> !Reports(actions[i], b)
  {
    BrokerAt(states, actions, maxConnections, i);
    ActorsAt(states, actions, maxConnections, i);
    AgendaAt(states, actions, maxConnections, i);
    U.StepPosts(states[i].srv, actions[i].b);
    if Reported(states[i].srv, b) || Reports(actions[i], b) {
      ServerReported(states[i].srv, actions[i].b, b, states[i+1].srv);
    }
  }

  lemma IoReported(s: Sys, a: Action, b: S.Step)
    requires a.ServerReader? || a.ServerWriter? || a.ServerUdpReader? || a.ServerUdpWriter?
    requires Possible(s, a) && Reported(s.srv, b)
    ensures Reported(Apply(s, a).srv, b)
  {
  }

  lemma NetworkReported(s: Sys, a: Action, b: S.Step)
    requires a.TcpUp? || a.TcpUpRaw? || a.TcpUpEnds? || a.TcpUpFails?
    requires Possible(s, a) && Reported(s.srv, b)
    ensures Reported(Apply(s, a).srv, b)
  {
  }

  lemma DatagramReported(s: Sys, a: Action, b: S.Step)
    requires Possible(s, a) && Reported(s.srv, b) && (a.UdpUp? || a.UdpStranger?)
    ensures Reported(Apply(s, a).srv, b)
  {
  }

  lemma OthersReported(s: Sys, a: Action, b: S.Step)
    requires !a.Broker? && Possible(s, a) && Reported(s.srv, b)
    ensures Reported(Apply(s, a).srv, b)
  {
    if AtClient(a) {
      ClientSide(s, a);
    } else if a.ServerReader? || a.ServerWriter? || a.ServerUdpReader? || a.ServerUdpWriter? {
      IoReported(s, a, b);
    } else if a.UdpUp? || a.UdpStranger? {
      DatagramReported(s, a, b);
    } else {
      NetworkReported(s, a, b);
    }
  }

  predicate Reports(a: Action, b: S.Step) {
    a.Broker? && a.b == b
  }

  lemma ReportedAt(states: seq<Sys>, actions: seq<Action>, maxConnections: nat, b: S.Step, i: nat)
    requires IsRun(states, actions, maxConnections) && i < |actions| && IsEnd(b)
    ensures Reported(states[i].srv, b) || Reports(actions[i], b) ==> Reported(states[i+1].srv, b)
    ensures Reported(states[i].srv, b) ==> !Reports(actions[i], b)
  {
    if actions[i].Broker? {
      BrokerReported(states, actions, maxConnections, b, i);
    } else {
      OthersAt(states, actions, maxConnections, i);
      if Reported(states[i].srv, b) {
        OthersReported(states[i], actions[i], b);
      }
    }
  }

  lemma {:induction false} RunReported(states: seq<Sys>, actions: seq<Action>, maxConnections: nat, b: S.Step, i: nat, j: nat)
    requires IsRun(states, actions, maxConnections) && i <= j < |states| && IsEnd(b) && Reported(states[i].srv, b)
    ensures Reported(states[j].srv, b)
    decreases j
  {
    if i < j {
      RunReported(states, actions, maxConnections, b, i, j - 1);
      ReportedAt(states, actions, maxConnections, b, j - 1);
    }
  }

  /** The end of each actor, reader or writer, of a peer or of the UDP socket, is consumed at most once. */
  lemma EndOnce(states: seq<Sys>, actions: seq<Action>, maxConnections: nat, b: S.Step, i: nat, j: nat)
    requires IsRun(states, actions, maxConnections) && i < j < |actions|
    requires IsEnd(b) && Reports(actions[i], b)
    ensures !Reports(actions[j], b)
  {
    ReportedAt(states, actions, maxConnections, b, i);
    RunReported(states, actions, maxConnections, b, i + 1, j);
    ReportedAt(states, actions, maxConnections, b, j);
  }
}
