/** Every dropped peer that can still speak has a way to: the run goes on to one with a late message. */
module Speaking {
  import opened Wrappers
  import opened Messages
  import opened System
  import opened SystemInvariant
  import opened Lateness
  import PT = PeerTable
  import S = Server
  import SS = ServerSound
  import SE = ServerEffects
  import SL = ServerLog
  import CS = ClientSpeech
  import R = ReadActor

  /** One run goes on from another. */
  ghost predicate Continues(states: seq<Sys>, actions: seq<Action>, ss: seq<Sys>, aa: seq<Action>, maxConnections: nat) {
    IsRun(ss, aa, maxConnections) && states <= ss && actions <= aa
  }

  // ---- The broker gets to await the next item ----

  /** A server at which u, who has gone, left this reader and these words. */
  predicate Left(s: S.Server, u: Uid, r: S.TcpReader, said: seq<TcpToServer>) {
    s.halt.None? && Gone(s.t, u) && u in s.readers && s.readers[u] == r && SL.Said(s.t.log, u) == said
  }

  lemma HeadAwaits(s: S.Server)
    requires |s.toDrop| <= 1 && S.Staffed(s) && S.Enabled(s, S.LoopHead) && PT.SizeAssertions(s.t)
    ensures S.Apply(s, S.LoopHead).phase.Await? && S.Apply(s, S.LoopHead).halt.None?
  {
    SS.DropAllOne(s);
  }

  /** A step of the broker that takes nothing from u and ends no actor leaves what u left. */
  lemma BrokerLeaves(s: S.Server, b: S.Step, v: S.Server, u: Uid, r: S.TcpReader, said: seq<TcpToServer>)
    requires S.Enabled(s, b) && S.Staffed(s) && SE.Effect(s, b, v) && Left(s, u, r, said) && v.halt.None?
    requires b.LoopHead? || b.TellPeer? || b.TellDone?
    ensures Left(v, u, r, said)
  {
    SE.StepConnected(s, b);
    SL.StepAppends(s, b);
  }

  /** Everything that the broker's own step needs. */
  lemma ReadyAt(states: seq<Sys>, actions: seq<Action>, maxConnections: nat, i: nat)
    requires IsRun(states, actions, maxConnections) && i < |states|
    ensures var s := states[i].srv;
      && S.Staffed(s) && |s.toDrop| <= 1 && PT.SizeAssertions(s.t)
      && (s.phase.TellTcp? || s.phase.TellUdp? ==> s.phase.todo <= s.t.peers.Keys)
  {
    ActorsAt(states, actions, maxConnections, i);
    AgendaAt(states, actions, maxConnections, i);
    TableAt(states, actions, maxConnections, i);
    PT.ExactSizes(states[i].srv.t);
  }

  function Distance(p: S.Phase): nat {
    match p
    case Await => 0
    case Head => 1
    case TellTcp(_, todo) => |todo| + 2
    case TellUdp(_, todo) => |todo| + 2
  }

  /** The step that brings the broker nearer to awaiting the next item. */
  ghost function NextStep(s: S.Server): S.Step
    requires !s.phase.Await?
  {
    if s.phase.Head? then S.LoopHead
    else if s.phase.todo == {} then S.TellDone
    else var u :| u in s.phase.todo; S.TellPeer(u)
  }

  lemma StepNearer(s: S.Server)
    requires s.halt.None? && !s.phase.Await? && S.Staffed(s) && |s.toDrop| <= 1 && PT.SizeAssertions(s.t)
    requires s.phase.TellTcp? || s.phase.TellUdp? ==> s.phase.todo <= s.t.peers.Keys
    ensures S.Enabled(s, NextStep(s))
    ensures var v := S.Apply(s, NextStep(s)); v.halt.None? && Distance(v.phase) < Distance(s.phase)
  {
    if s.phase.Head? {
      HeadAwaits(s);
    }
  }

  lemma {:induction false} Awaits(states: seq<Sys>, actions: seq<Action>, maxConnections: nat, u: Uid, r: S.TcpReader, said: seq<TcpToServer>)
      returns (ss: seq<Sys>, aa: seq<Action>)
    requires IsRun(states, actions, maxConnections) && Left(states[|actions|].srv, u, r, said)
    ensures Continues(states, actions, ss, aa, maxConnections) && Left(ss[|aa|].srv, u, r, said)
    ensures ss[|aa|].srv.phase.Await?
    decreases Distance(states[|actions|].srv.phase)
  {
    var s := states[|actions|];
    if s.srv.phase.Await? {
      return states, actions;
    }
    ReadyAt(states, actions, maxConnections, |actions|);
    StepNearer(s.srv);
    var a := Broker(NextStep(s.srv), false);
    ss, aa := Act(states, actions, maxConnections, a);
    BrokerAt(ss, aa, maxConnections, |actions|);
    assert ss[|actions|] == s && aa[|actions|] == a;
    BrokerLeaves(s.srv, a.b, ss[|aa|].srv, u, r, said);
    ss, aa := Awaits(ss, aa, maxConnections, u, r, said);
  }

  // ---- It takes an item of u ----

  function Spoken(f: Frame<TcpToServer>): seq<TcpToServer> {
    if f.Ok? then [f.value] else []
  }

  lemma TakesItem(s: S.Server, u: Uid, r: S.TcpReader, said: seq<TcpToServer>)
    requires Left(s, u, r, said) && s.phase.Await? && r.out != [] && S.Staffed(s)
    ensures S.Enabled(s, S.TcpItem(u))
    ensures Left(S.Apply(s, S.TcpItem(u)), u, R.Receive(r), said + Spoken(r.out[0]))
  {
    if r.out[0].Ok? {
      SL.EmitSaid(s.t.log, TcpMessage(u, r.out[0].value), u);
    }
  }

  lemma Takes(states: seq<Sys>, actions: seq<Action>, maxConnections: nat, u: Uid, r: S.TcpReader, said: seq<TcpToServer>)
      returns (ss: seq<Sys>, aa: seq<Action>)
    requires IsRun(states, actions, maxConnections) && Left(states[|actions|].srv, u, r, said) && r.out != []
    ensures Continues(states, actions, ss, aa, maxConnections)
    ensures Left(ss[|aa|].srv, u, R.Receive(r), said + Spoken(r.out[0]))
  {
    ss, aa := Awaits(states, actions, maxConnections, u, r, said);
    ReadyAt(ss, aa, maxConnections, |aa|);
    TakesItem(ss[|aa|].srv, u, r, said);
    ss, aa := Act(ss, aa, maxConnections, Broker(S.TcpItem(u), false));
  }

  // ---- A message that has reached the server ----

  predicate Arrived(r: S.TcpReader) {
    HasMessage(r.out) || (!r.phase.Finished? && (HasMessage(R.InHand(r)) || HasMessage(r.incoming)))
  }

  /** What the reader does next with it, if not the broker. */
  function Forwarding(r: S.TcpReader): R.Step {
    if r.phase.Sending? then R.Push else R.TakeItem
  }

  predicate ForTheBroker(r: S.TcpReader) {
    HasMessage(r.out) || (r.phase.Sending? && |r.out| >= r.capacity)
  }

  function Sending(r: S.TcpReader): nat {
    if r.phase.Sending? then 1 else 0
  }

  lemma ReceiveArrived(r: S.TcpReader)
    requires Arrived(r) && ForTheBroker(r) && r.capacity > 0
    ensures r.out != [] && (r.out[0].Ok? || Arrived(R.Receive(r)))
  {
    if r.out != [] && r.out[0].Garbage? {
      if HasMessage(r.out) {
        var i :| 0 <= i < |r.out| && r.out[i].Ok?;
        assert R.Receive(r).out[i-1].Ok?;
      }
    }
  }

  lemma ForwardingArrived(r: S.TcpReader)
    requires Arrived(r) && !ForTheBroker(r) && r.open
    ensures R.Enabled(r, Forwarding(r)) && Arrived(R.Apply(r, Forwarding(r)))
    ensures var q := R.Apply(r, Forwarding(r));
      |q.incoming| < |r.incoming| || (|q.incoming| == |r.incoming| && Sending(q) < Sending(r))
  {
    var q := R.Apply(r, Forwarding(r));
    if r.phase.Sending? {
      if HasMessage(R.InHand(r)) {
        assert q.out[|r.out|].Ok?;
      }
    } else {
      var i :| 0 <= i < |r.incoming| && r.incoming[i].Ok?;
      if i == 0 {
        assert R.InHand(q)[0].Ok?;
      } else {
        assert q.incoming[i-1].Ok?;
      }
    }
  }

  lemma {:induction false} ArrivedSpeaks(states: seq<Sys>, actions: seq<Action>, maxConnections: nat, u: Uid, r: S.TcpReader, said: seq<TcpToServer>)
      returns (ss: seq<Sys>, aa: seq<Action>)
    requires IsRun(states, actions, maxConnections) && Left(states[|actions|].srv, u, r, said) && Arrived(r)
    ensures Continues(states, actions, ss, aa, maxConnections) && said < SL.Said(ss[|aa|].srv.t.log, u)
    decreases |r.incoming|, Sending(r), |r.out|
  {
    var s := states[|actions|];
    IssuedAt(states, actions, maxConnections, u, |actions|);
    if ForTheBroker(r) {
      ReceiveArrived(r);
      ss, aa := Takes(states, actions, maxConnections, u, r, said);
      if r.out[0].Garbage? {
        assert said + [] == said;
        ss, aa := ArrivedSpeaks(ss, aa, maxConnections, u, R.Receive(r), said);
      }
    } else {
      ForwardingArrived(r);
      ss, aa := Act(states, actions, maxConnections, ServerReader(u, Forwarding(r)));
      ss, aa := ArrivedSpeaks(ss, aa, maxConnections, u, R.Apply(r, Forwarding(r)), said);
    }
  }

  // ---- A message that can still reach the server ----

  function ActionOf(u: Uid, m: CS.Move): Action {
    match m
    case Loop(s) => ClientActs(u, s)
    case TcpWriter(w) => ClientTcpWriter(u, w)
    case UdpWriter(w) => ClientUdpWriter(u, w)
  }

  lemma ClientMoves(s: Sys, u: Uid, m: CS.Move)
    requires u in s.clients && CS.Possible(s.clients[u], m)
    ensures Enabled(s, ActionOf(u, m)) && Apply(s, ActionOf(u, m)) == SetClient(s, u, CS.Perform(s.clients[u], m))
  {
  }

  lemma {:induction false} ClientRuns(states: seq<Sys>, actions: seq<Action>, maxConnections: nat, u: Uid, ms: seq<CS.Move>)
      returns (ss: seq<Sys>, aa: seq<Action>)
    requires IsRun(states, actions, maxConnections)
    requires u in states[|actions|].clients && CS.CanDo(states[|actions|].clients[u], ms)
    ensures Continues(states, actions, ss, aa, maxConnections)
    ensures ss[|aa|] == SetClient(states[|actions|], u, CS.Done(states[|actions|].clients[u], ms))
    decreases |ms|
  {
    var s := states[|actions|];
    if ms == [] {
      assert SetClient(s, u, s.clients[u]) == s;
      return states, actions;
    }
    ClientMoves(s, u, ms[0]);
    ss, aa := Act(states, actions, maxConnections, ActionOf(u, ms[0]));
    ss, aa := ClientRuns(ss, aa, maxConnections, u, ms[1..]);
  }

  lemma MessageArrives(r: S.TcpReader, m: TcpToServer)
    requires !r.ended && !r.phase.Finished?
    ensures Arrived(R.Arrive(r, Ok(m)))
  {
    assert R.Arrive(r, Ok(m)).incoming[|r.incoming|] == Ok(m);
  }

  lemma DeliveredSpeaks(states: seq<Sys>, actions: seq<Action>, maxConnections: nat, u: Uid, r: S.TcpReader, said: seq<TcpToServer>)
      returns (ss: seq<Sys>, aa: seq<Action>)
    requires IsRun(states, actions, maxConnections) && Left(states[|actions|].srv, u, r, said)
    requires !r.phase.Finished? && !r.ended
    requires u in states[|actions|].clients && |r.input| < |states[|actions|].clients[u].tcpOut.wire|
    ensures Continues(states, actions, ss, aa, maxConnections) && said < SL.Said(ss[|aa|].srv.t.log, u)
  {
    var m := states[|actions|].clients[u].tcpOut.wire[|r.input|];
    MessageArrives(r, m);
    ss, aa := Act(states, actions, maxConnections, TcpUp(u));
    ss, aa := ArrivedSpeaks(ss, aa, maxConnections, u, R.Arrive(r, Ok(m)), said);
  }

  lemma ClientSpeaks(states: seq<Sys>, actions: seq<Action>, maxConnections: nat, u: Uid, r: S.TcpReader, said: seq<TcpToServer>)
      returns (ss: seq<Sys>, aa: seq<Action>)
    requires IsRun(states, actions, maxConnections) && Left(states[|actions|].srv, u, r, said)
    requires !r.phase.Finished? && !r.ended
    requires u in states[|actions|].clients && !Dry(states[|actions|], u)
    ensures Continues(states, actions, ss, aa, maxConnections) && said < SL.Said(ss[|aa|].srv.t.log, u)
  {
    var c := states[|actions|].clients[u];
    if |r.input| < |c.tcpOut.wire| {
      ss, aa := DeliveredSpeaks(states, actions, maxConnections, u, r, said);
    } else {
      ClientReady(states, actions, maxConnections, u, |actions|);
      var ms := CS.FindsWay(c);
      ss, aa := ClientRuns(states, actions, maxConnections, u, ms);
      ss, aa := DeliveredSpeaks(ss, aa, maxConnections, u, r, said);
    }
  }

  lemma ClientReady(states: seq<Sys>, actions: seq<Action>, maxConnections: nat, u: Uid, i: nat)
    requires IsRun(states, actions, maxConnections) && i < |states| && u in states[i].clients
    ensures CS.OnlySends(states[i].clients[u])
    ensures var r := states[i].srv.readers; u in r && !r[u].ended ==> |r[u].input| <= |states[i].clients[u].tcpOut.wire|
  {
    RunInv(states, actions, maxConnections, i);
    ClientFacts(states[i], u);
  }

  lemma StrangerSpeaks(states: seq<Sys>, actions: seq<Action>, maxConnections: nat, u: Uid, r: S.TcpReader, said: seq<TcpToServer>)
      returns (ss: seq<Sys>, aa: seq<Action>)
    requires IsRun(states, actions, maxConnections) && Left(states[|actions|].srv, u, r, said)
    requires !r.phase.Finished? && !r.ended && u !in states[|actions|].clients
    ensures Continues(states, actions, ss, aa, maxConnections) && said < SL.Said(ss[|aa|].srv.t.log, u)
  {
    var m := TcpToServer.App("");
    MessageArrives(r, m);
    ss, aa := Act(states, actions, maxConnections, TcpUpRaw(u, Ok(m)));
    ss, aa := ArrivedSpeaks(ss, aa, maxConnections, u, R.Arrive(r, Ok(m)), said);
  }

  /** Whoever has gone and can still speak, may. */
  lemma SpeaksAgain(states: seq<Sys>, actions: seq<Action>, maxConnections: nat, u: Uid) returns (ss: seq<Sys>, aa: seq<Action>)
    requires IsRun(states, actions, maxConnections) && Gone(states[|actions|].srv.t, u) && CanStillSpeak(states[|actions|], u)
    ensures Continues(states, actions, ss, aa, maxConnections)
    ensures SL.Said(states[|actions|].srv.t.log, u) < SL.Said(ss[|aa|].srv.t.log, u)
  {
    var s := states[|actions|];
    var r, said := s.srv.readers[u], SL.Said(s.srv.t.log, u);
    if Arrived(r) {
      ss, aa := ArrivedSpeaks(states, actions, maxConnections, u, r, said);
    } else if u in s.clients {
      ss, aa := ClientSpeaks(states, actions, maxConnections, u, r, said);
    } else {
      ss, aa := StrangerSpeaks(states, actions, maxConnections, u, r, said);
    }
  }

  // ---- The exact condition ----

  /** The run can go on to one whose log has a TCP message of u at a point where u is not connected. */
  ghost predicate MayBeLate(states: seq<Sys>, actions: seq<Action>, maxConnections: nat, u: Uid) {
    exists ss: seq<Sys>, aa: seq<Action> :: Continues(states, actions, ss, aa, maxConnections) && SL.LateTcp(ss[|aa|].srv.t.log, u)
  }

  /** A dropped peer that has not spoken late yet may do so if and only if it can still speak: some
      message of it is queued for the broker, or its reader goes on and has one or may yet get one. */
  lemma LateExactly(states: seq<Sys>, actions: seq<Action>, maxConnections: nat, u: Uid)
    requires IsRun(states, actions, maxConnections)
    requires Gone(states[|actions|].srv.t, u) && !SL.LateTcp(states[|actions|].srv.t.log, u)
    ensures MayBeLate(states, actions, maxConnections, u) <==> CanStillSpeak(states[|actions|], u)
  {
    if CanStillSpeak(states[|actions|], u) {
      var ss, aa := SpeaksAgain(states, actions, maxConnections, u);
      assert ss[|actions|] == states[|actions|];
      LateSinceGone(ss, aa, maxConnections, u, |actions|, |aa|);
      assert Continues(states, actions, ss, aa, maxConnections) && SL.LateTcp(ss[|aa|].srv.t.log, u);
    }
    if MayBeLate(states, actions, maxConnections, u) {
      var ss: seq<Sys>, aa: seq<Action> :| Continues(states, actions, ss, aa, maxConnections) && SL.LateTcp(ss[|aa|].srv.t.log, u);
      assert ss[|actions|] == states[|actions|];
      LateSinceGone(ss, aa, maxConnections, u, |actions|, |aa|);
      if !CanStillSpeak(states[|actions|], u) {
        MuteForGood(ss, aa, maxConnections, u, |actions|, |aa|);
      }
    }
  }

  /** At the moment it is dropped no peer has spoken late, so from there on the above decides. */
  lemma NotLateWhenDropped(states: seq<Sys>, actions: seq<Action>, maxConnections: nat, u: Uid, i: nat)
    requires IsRun(states, actions, maxConnections) && i < |actions|
    requires u in states[i].srv.t.peers && u !in states[i+1].srv.t.peers
    ensures Gone(states[i+1].srv.t, u) && !SL.LateTcp(states[i+1].srv.t.log, u)
  {
    if actions[i].Broker? {
      BrokerAt(states, actions, maxConnections, i);
      ConnectedNotLate(states, actions, maxConnections, u, i);
      TableDropped(states[i].srv, actions[i].b, u);
    } else {
      OthersAt(states, actions, maxConnections, i);
    }
  }

  lemma ConnectedNotLate(states: seq<Sys>, actions: seq<Action>, maxConnections: nat, u: Uid, i: nat)
    requires IsRun(states, actions, maxConnections) && i < |states| && u in states[i].srv.t.peers
    ensures var t := states[i].srv.t; u < t.nextUid && !SL.LateTcp(t.log, u) && PT.Logged(t)
  {
    RunInv(states, actions, maxConnections, i);
    assert u !in states[i].srv.causes;
  }

  lemma TableDropped(s: S.Server, b: S.Step, u: Uid)
    requires S.Enabled(s, b) && PT.Logged(s.t) && u in s.t.peers && u !in SE.TableAfter(s, b).peers
    requires u < s.t.nextUid && !SL.LateTcp(s.t.log, u)
    ensures Gone(SE.TableAfter(s, b), u) && !SL.LateTcp(SE.TableAfter(s, b).log, u)
  {
    SE.StepConnected(s, b);
    SL.StepLateTcp(s, b, u);
  }

  /** A peer dropped because its reader's EndOfStream was reported cannot speak any more. */
  lemma HeardOutIsMute(states: seq<Sys>, actions: seq<Action>, maxConnections: nat, i: nat, u: Uid)
    requires IsRun(states, actions, maxConnections) && i < |states|
    requires u in states[i].srv.causes && states[i].srv.causes[u].ReaderEnd?
    ensures !CanStillSpeak(states[i], u)
  {
    RunInv(states, actions, maxConnections, i);
    assert SL.Exhausted(states[i].srv.readers, u);
    Issued(states[i].srv, u);
  }
}
