/** When exactly a TCP message of a dropped peer can still be logged.

    What decides is not why the peer was dropped but its reader: whether a message is left in the
    broker's queue, or the reader's task goes on and has one, or may still get one. */
module Lateness {
  import opened Wrappers
  import opened Messages
  import opened System
  import opened SystemInvariant
  import PT = PeerTable
  import S = Server
  import SA = ServerActors
  import SE = ServerEffects
  import SL = ServerLog
  import C = Client
  import CS = ClientSpeech
  import R = ReadActor
  import W = WriteActor

  // ---- The condition ----

  predicate HasMessage(fs: seq<Frame<TcpToServer>>) {
    exists i :: 0 <= i < |fs| && fs[i].Ok?
  }

  /** Nothing more can come from a client: all that it wrote has arrived, and it cannot write more.
      Other software can always send something. */
  predicate Dry(s: Sys, u: Uid)
    requires u in s.srv.readers
  {
    u in s.clients && |s.clients[u].tcpOut.wire| <= |s.srv.readers[u].input| && !CS.MayWrite(s.clients[u])
  }

  predicate ReaderSilent(r: S.TcpReader, dry: bool) {
    && !HasMessage(r.out)
    && (r.phase.Finished? || (!HasMessage(R.InHand(r)) && !HasMessage(r.incoming) && (r.ended || dry)))
  }

  /** A message of u can still reach the log. */
  predicate CanStillSpeak(s: Sys, u: Uid) {
    s.srv.halt.None? && u in s.srv.readers && !ReaderSilent(s.srv.readers[u], Dry(s, u))
  }

  /** u was connected once and is not any more. */
  predicate Gone(t: PT.Table, u: Uid) {
    u < t.nextUid && u !in t.peers
  }

  // ---- What is silent stays silent ----

  lemma StepSilent(r: S.TcpReader, a: R.Step, dry: bool)
    requires ReaderSilent(r, dry) && R.Enabled(r, a)
    ensures ReaderSilent(R.Apply(r, a), dry)
  {
    if a.TakeItem? {
      assert r.incoming[0].Garbage?;
    } else if a.Push? {
      assert R.InHand(r)[0].Garbage?;
    }
  }

  lemma ArriveSilent(r: S.TcpReader, f: Frame<TcpToServer>, dry: bool)
    requires ReaderSilent(r, dry) && (r.ended || r.phase.Finished? || f.Garbage?)
    ensures ReaderSilent(R.Arrive(r, f), dry)
  {
  }

  lemma ReceiveSilent(r: S.TcpReader, dry: bool)
    requires ReaderSilent(r, dry) && r.out != []
    ensures ReaderSilent(R.Receive(r), dry) && r.out[0].Garbage?
  {
  }

  lemma BrokerSilent(s: S.Server, b: S.Step, u: Uid, dry: bool)
    requires S.Enabled(s, b) && S.Staffed(s) && Gone(s.t, u) && u in s.readers && ReaderSilent(s.readers[u], dry)
    ensures u in SE.ReadersAfter(s, b) && ReaderSilent(SE.ReadersAfter(s, b)[u], dry)
    ensures SE.ReadersAfter(s, b)[u].input == s.readers[u].input
  {
    if b == S.TcpItem(u) {
      ReceiveSilent(s.readers[u], dry);
    }
  }

  lemma BrokerLogsNothing(s: S.Server, b: S.Step, u: Uid, dry: bool)
    requires S.Enabled(s, b) && u in s.readers && ReaderSilent(s.readers[u], dry)
    ensures SL.Said(SE.TableAfter(s, b).log, u) == SL.Said(s.t.log, u)
  {
    SL.StepAppends(s, b);
    if b.TcpItem? {
      var f := s.readers[b.uid].out[0];
      if b.uid == u {
        assert f.Garbage?;
      } else if f.Ok? {
        SL.EmitSaid(s.t.log, TcpMessage(b.uid, f.value), u);
      }
    }
  }

  predicate Silent(s: Sys, u: Uid) {
    u in s.srv.readers && ReaderSilent(s.srv.readers[u], Dry(s, u))
  }

  lemma StaysGone(s: S.Server, b: S.Step, u: Uid)
    requires S.Enabled(s, b) && Gone(s.t, u)
    ensures Gone(SE.TableAfter(s, b), u)
  {
    SE.StepConnected(s, b);
  }

  lemma BrokerStaysSilent(s: Sys, a: Action, v: Sys, u: Uid)
    requires a.Broker? && Enabled(s, a) && BrokerEffect(s, a, v) && Gone(s.srv.t, u) && Silent(s, u)
    ensures Gone(v.srv.t, u) && Silent(v, u) && SL.Said(v.srv.t.log, u) == SL.Said(s.srv.t.log, u)
  {
    StaysGone(s.srv, a.b, u);
    BrokerSilent(s.srv, a.b, u, Dry(s, u));
    BrokerLogsNothing(s.srv, a.b, u, Dry(s, u));
  }

  /** Setting a reader or a client. */
  lemma SetReaderSilent(s: Sys, u: Uid, uid: Uid, q: S.TcpReader)
    requires Silent(s, u) && uid in s.srv.readers
    requires uid == u ==> ReaderSilent(q, Dry(s, u)) && |q.input| >= |s.srv.readers[u].input|
    ensures Silent(SetReader(s, uid, q), u)
  {
  }

  lemma SetClientSilent(s: Sys, u: Uid, uid: Uid, c: C.Client)
    requires Silent(s, u) && uid in s.clients
    requires uid == u && !CS.MayWrite(s.clients[u]) ==> !CS.MayWrite(c) && c.tcpOut.wire == s.clients[u].tcpOut.wire
    ensures Silent(SetClient(s, uid, c), u)
  {
  }

  lemma ServerReaderSilent(s: Sys, a: Action, u: Uid)
    requires Enabled(s, a) && Silent(s, u) && a.ServerReader?
    ensures Silent(Apply(s, a), u)
  {
    R.StepFrame(s.srv.readers[a.uid], a.r);
    if a.uid == u {
      StepSilent(s.srv.readers[u], a.r, Dry(s, u));
    }
    SetReaderSilent(s, u, a.uid, R.Apply(s.srv.readers[a.uid], a.r));
  }

  lemma UpSilent(s: Sys, a: Action, u: Uid)
    requires Enabled(s, a) && Silent(s, u) && (a.TcpUp? || a.TcpUpRaw? || a.TcpUpEnds? || a.TcpUpFails?)
    ensures Silent(Apply(s, a), u)
  {
    var r := s.srv.readers[a.uid];
    match a
    case TcpUp(uid) =>
      var f := Frame.Ok(s.clients[uid].tcpOut.wire[|r.input|]);
      if uid == u {
        ArriveSilent(r, f, Dry(s, u));
      }
      SetReaderSilent(s, u, uid, R.Arrive(r, f));
    case TcpUpRaw(uid, f) =>
      if uid == u {
        ArriveSilent(r, f, Dry(s, u));
      }
      SetReaderSilent(s, u, uid, R.Arrive(r, f));
    case TcpUpEnds(uid) => SetReaderSilent(s, u, uid, R.End(r));
    case TcpUpFails(uid) =>
      if uid == u {
        ArriveSilent(r, Garbage, Dry(s, u));
      }
      SetReaderSilent(s, u, uid, Broken(r));
  }

  lemma ClientSilent(s: Sys, a: Action, u: Uid)
    requires Enabled(s, a) && Silent(s, u) && (a.ClientActs? || a.ClientTcpWriter? || a.ClientUdpWriter?)
    ensures Silent(Apply(s, a), u)
  {
    var c := s.clients[a.uid];
    match a
    case ClientActs(uid, step) =>
      if !CS.MayWrite(c) {
        CS.StepStaysMute(c, step);
      }
      SetClientSilent(s, u, uid, C.Apply(c, step));
    case ClientTcpWriter(uid, w) =>
      if !CS.MayWrite(c) {
        CS.TcpWriterStaysMute(c, w);
      }
      SetClientSilent(s, u, uid, c.(tcpOut := W.Apply(c.tcpOut, w)));
    case ClientUdpWriter(uid, w) =>
      if !CS.MayWrite(c) {
        CS.UdpWriterStaysMute(c, w);
      }
      SetClientSilent(s, u, uid, c.(udpOut := W.Apply(c.udpOut, w)));
  }

  predicate Downwards(a: Action) {
    a.ClientTcpReader? || a.ClientUdpReader? || a.TcpDown? || a.TcpDownEnds? || a.TcpDownFails? || a.UdpDown?
  }

  lemma DownSilent(s: Sys, a: Action, u: Uid)
    requires Enabled(s, a) && Silent(s, u) && Downwards(a)
    ensures Silent(Apply(s, a), u)
  {
    ClientSide(s, a);
    assert Apply(s, a).clients.Keys == s.clients.Keys;
  }

  predicate Aside(a: Action) {
    a.ServerWriter? || a.ServerUdpReader? || a.ServerUdpWriter? || a.UdpUp? || a.UdpStranger?
  }

  lemma AsideSilent(s: Sys, a: Action, u: Uid)
    requires Enabled(s, a) && Silent(s, u) && Aside(a)
    ensures Silent(Apply(s, a), u)
  {
  }

  lemma OthersStaySilent(s: Sys, a: Action, u: Uid)
    requires Enabled(s, a) && Silent(s, u) && !a.Broker?
    ensures Silent(Apply(s, a), u)
  {
    if a.ServerReader? {
      ServerReaderSilent(s, a, u);
    } else if a.TcpUp? || a.TcpUpRaw? || a.TcpUpEnds? || a.TcpUpFails? {
      UpSilent(s, a, u);
    } else if a.ClientActs? || a.ClientTcpWriter? || a.ClientUdpWriter? {
      ClientSilent(s, a, u);
    } else if Downwards(a) {
      DownSilent(s, a, u);
    } else {
      AsideSilent(s, a, u);
    }
  }

  /** Whoever was ever connected has a reader. */
  lemma Issued(s: S.Server, u: Uid)
    requires SA.Actors(s) && u < s.t.nextUid
    ensures u in s.readers && R.Inv(s.readers[u]) && s.readers[u].open && s.readers[u].capacity > 0
  {
    assert SA.ActorsOk(u in s.t.peers, s.readers[u], s.writers[u]);
  }

  lemma IssuedAt(states: seq<Sys>, actions: seq<Action>, maxConnections: nat, u: Uid, i: nat)
    requires IsRun(states, actions, maxConnections) && i < |states| && u < states[i].srv.t.nextUid
    ensures var s := states[i].srv;
      u in s.readers && R.Inv(s.readers[u]) && s.readers[u].open && s.readers[u].capacity > 0
  {
    ActorsAt(states, actions, maxConnections, i);
    Issued(states[i].srv, u);
  }

  lemma MuteAt(states: seq<Sys>, actions: seq<Action>, maxConnections: nat, u: Uid, i: nat)
    requires IsRun(states, actions, maxConnections) && i < |actions|
    requires Gone(states[i].srv.t, u) && !CanStillSpeak(states[i], u)
    ensures Gone(states[i+1].srv.t, u) && !CanStillSpeak(states[i+1], u)
    ensures SL.Said(states[i+1].srv.t.log, u) == SL.Said(states[i].srv.t.log, u)
  {
    IssuedAt(states, actions, maxConnections, u, i);
    if actions[i].Broker? {
      BrokerAt(states, actions, maxConnections, i);
      BrokerStaysSilent(states[i], actions[i], states[i+1], u);
    } else {
      OthersAt(states, actions, maxConnections, i);
      if Silent(states[i], u) {
        OthersStaySilent(states[i], actions[i], u);
      }
    }
  }

  /** Once a dropped peer cannot speak any more, no message of it is ever logged again. */
  lemma {:induction false} MuteForGood(states: seq<Sys>, actions: seq<Action>, maxConnections: nat, u: Uid, i: nat, j: nat)
    requires IsRun(states, actions, maxConnections) && i <= j < |states|
    requires Gone(states[i].srv.t, u) && !CanStillSpeak(states[i], u)
    ensures Gone(states[j].srv.t, u) && !CanStillSpeak(states[j], u)
    ensures SL.Said(states[j].srv.t.log, u) == SL.Said(states[i].srv.t.log, u)
    decreases j
  {
    if i < j {
      MuteForGood(states, actions, maxConnections, u, i, j - 1);
      MuteAt(states, actions, maxConnections, u, j - 1);
    }
  }

  // ---- What is said after a peer has gone is late ----

  lemma BrokerLate(s: S.Server, b: S.Step, u: Uid)
    requires S.Enabled(s, b) && PT.Logged(s.t) && Gone(s.t, u)
    ensures var v := SE.TableAfter(s, b);
      && Gone(v, u) && SL.Said(s.t.log, u) <= SL.Said(v.log, u)
      && (SL.LateTcp(v.log, u) <==> SL.LateTcp(s.t.log, u) || SL.Said(v.log, u) != SL.Said(s.t.log, u))
  {
    StaysGone(s, b, u);
    SL.StepLateTcp(s, b, u);
    SL.StepAppends(s, b);
    if b.TcpItem? && s.readers[b.uid].out[0].Ok? {
      SL.EmitSaid(s.t.log, TcpMessage(b.uid, s.readers[b.uid].out[0].value), u);
    }
  }

  lemma LateAt(states: seq<Sys>, actions: seq<Action>, maxConnections: nat, u: Uid, i: nat)
    requires IsRun(states, actions, maxConnections) && i < |actions| && Gone(states[i].srv.t, u)
    ensures var before, after := states[i].srv.t, states[i+1].srv.t;
      && Gone(after, u) && SL.Said(before.log, u) <= SL.Said(after.log, u)
      && (SL.LateTcp(after.log, u) <==> SL.LateTcp(before.log, u) || SL.Said(after.log, u) != SL.Said(before.log, u))
  {
    if actions[i].Broker? {
      BrokerAt(states, actions, maxConnections, i);
      TableAt(states, actions, maxConnections, i);
      BrokerLate(states[i].srv, actions[i].b, u);
    } else {
      OthersAt(states, actions, maxConnections, i);
    }
  }

  lemma {:induction false} LateSinceGone(states: seq<Sys>, actions: seq<Action>, maxConnections: nat, u: Uid, i: nat, j: nat)
    requires IsRun(states, actions, maxConnections) && i <= j < |states| && Gone(states[i].srv.t, u)
    ensures var before, after := states[i].srv.t, states[j].srv.t;
      && Gone(after, u) && SL.Said(before.log, u) <= SL.Said(after.log, u)
      && (SL.LateTcp(after.log, u) <==> SL.LateTcp(before.log, u) || SL.Said(after.log, u) != SL.Said(before.log, u))
    decreases j
  {
    if i < j {
      LateSinceGone(states, actions, maxConnections, u, i, j - 1);
      LateAt(states, actions, maxConnections, u, j - 1);
    }
  }
}
