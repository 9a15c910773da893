/** An announcement, from the command to the last peer told, over whole runs in which everybody else goes
    on meanwhile. */
module Tellings {
  import opened Wrappers
  import opened Messages
  import opened System
  import opened SystemInvariant
  import S = Server
  import SE = ServerEffects
  import P = Projection
  import W = WriteActor

  /** With this action the broker starts to tell the peers. */
  predicate Begins(a: Action) {
    a.Broker? && (a.b.HeartbeatTick? || (a.b.Handle? && (a.b.cmd.AnnounceTcp? || a.b.cmd.AnnounceUdp?)))
  }

  predicate Ends(a: Action) {
    a.Broker? && a.b.TellDone?
  }

  predicate Tells(a: Action, u: Uid) {
    a.Broker? && a.b == S.TellPeer(u)
  }

  /** How often the broker tells u between two moments of a run. */
  function TimesTold(actions: seq<Action>, u: Uid, i: nat, j: nat): nat
    requires i <= j <= |actions|
    decreases j
  {
    if i == j then 0 else TimesTold(actions, u, i, j - 1) + if Tells(actions[j-1], u) then 1 else 0
  }

  predicate Telling(p: S.Phase) {
    p.TellTcp? || p.TellUdp?
  }

  function Message(p: S.Phase): (Option<TcpFromServer>, Option<UdpFromServer>) {
    match p
    case TellTcp(m, _) => (Some(m), None)
    case TellUdp(m, _) => (None, Some(m))
    case _ => (None, None)
  }

  function Announced(b: S.Step): (Option<TcpFromServer>, Option<UdpFromServer>) {
    match b
    case HeartbeatTick => (None, Some(Heartbeat))
    case Handle(AnnounceTcp(msg)) => (Some(TcpFromServer.App(msg)), None)
    case Handle(AnnounceUdp(msg)) => (None, Some(UdpFromServer.App(msg)))
    case _ => (None, None)
  }

  /** The broker is telling these peers what step b announced, and has these left to tell. */
  predicate Midway(s: S.Server, b: S.Step, peers: set<Uid>, todo: set<Uid>) {
    Telling(s.phase) && Message(s.phase) == Announced(b) && s.phase.todo == todo && s.t.peers.Keys == peers
  }

  // ---- One step ----

  lemma BeginStep(s: S.Server, b: S.Step)
    requires S.Enabled(s, b) && S.Staffed(s)
    requires b.HeartbeatTick? || (b.Handle? && (b.cmd.AnnounceTcp? || b.cmd.AnnounceUdp?))
    ensures Midway(S.Apply(s, b), b, s.t.peers.Keys, s.t.peers.Keys)
    ensures SE.Offered(s, b).None?
  {
  }

  lemma TellStep(s: S.Server, b: S.Step, b0: S.Step, peers: set<Uid>, todo: set<Uid>)
    requires S.Enabled(s, b) && S.Staffed(s) && Midway(s, b0, peers, todo)
    ensures b.TellPeer? || b.TellDone?
    ensures b.TellPeer? ==> b.uid in todo && b.uid in peers && Midway(S.Apply(s, b), b0, peers, todo - {b.uid})
    ensures b.TellDone? ==> todo == {}
    ensures SE.Offered(s, b) ==
      if b.TellPeer? && Announced(b0).0.Some? then Some((b.uid, Announced(b0).0.value)) else None
  {
  }

  // ---- From the command to the last peer ----

  /** At state k the broker is still telling what the i-th action began to announce, and has told u once
      if u was connected then and is not left to be told. */
  ghost predicate Underway(states: seq<Sys>, actions: seq<Action>, u: Uid, i: nat, k: nat)
    requires |states| == |actions| + 1 && i < k <= |actions| && Begins(actions[i])
  {
    var peers, p := states[i].srv.t.peers.Keys, states[k].srv.phase;
    && Telling(p) && Midway(states[k].srv, actions[i].b, peers, p.todo)
    && TimesTold(actions, u, i + 1, k) == (if u in peers && u !in p.todo then 1 else 0)
  }

  /** Whether u has had its turn by then. */
  predicate HadTurn(states: seq<Sys>, u: Uid, i: nat, k: nat)
    requires i < k < |states| && Telling(states[k].srv.phase)
  {
    u in states[i].srv.t.peers && u !in states[k].srv.phase.todo
  }

  /** What u got over TCP: its copy once, unless its write actor refused it, if u has had its turn, and
      otherwise nothing yet. */
  ghost predicate SoFar(states: seq<Sys>, actions: seq<Action>, maxConnections: nat, u: Uid, i: nat, k: nat)
    requires IsRun(states, actions, maxConnections) && i < k <= |actions| && Begins(actions[i])
    requires Telling(states[k].srv.phase)
  {
    if HadTurn(states, u, i, k) then ToldOnce(states, actions, maxConnections, u, i, k)
    else Told(states, actions, maxConnections, u, k) == Told(states, actions, maxConnections, u, i)
  }

  ghost function Told(states: seq<Sys>, actions: seq<Action>, maxConnections: nat, u: Uid, k: nat): seq<TcpFromServer>
    requires IsRun(states, actions, maxConnections) && k <= |actions|
  {
    P.ToldDuring(states, actions, maxConnections, u, k)
  }

  /** What a peer gets of an announcement when it is told in state s. */
  function Copy(s: S.Server, u: Uid, b: S.Step): seq<TcpFromServer> {
    if u in s.writers && W.HasRoom(s.writers[u]) && Announced(b).0.Some? then [Announced(b).0.value] else []
  }

  ghost predicate ToldOnce(states: seq<Sys>, actions: seq<Action>, maxConnections: nat, u: Uid, i: nat, k: nat)
    requires IsRun(states, actions, maxConnections) && i < k <= |actions| && Begins(actions[i])
  {
    exists j: nat :: i < j < k && Tells(actions[j], u) &&
      Told(states, actions, maxConnections, u, k) ==
        Told(states, actions, maxConnections, u, i) + Copy(states[j].srv, u, actions[i].b)
  }

  lemma ToldStep(states: seq<Sys>, actions: seq<Action>, maxConnections: nat, u: Uid, k: nat)
    requires IsRun(states, actions, maxConnections) && k < |actions|
    ensures actions[k].Broker? ==> S.Enabled(states[k].srv, actions[k].b)
    ensures Told(states, actions, maxConnections, u, k + 1) ==
              Told(states, actions, maxConnections, u, k) + P.Told(states[k], actions[k], u)
  {
    assert StepAt(states, actions, k);
  }

  /** What the broker is at after an action. */
  lemma BrokerStepAt(states: seq<Sys>, actions: seq<Action>, maxConnections: nat, k: nat)
    requires IsRun(states, actions, maxConnections) && k < |actions|
    ensures actions[k].Broker? ==>
      && S.Enabled(states[k].srv, actions[k].b) && S.Staffed(states[k].srv)
      && states[k+1].srv == S.Apply(states[k].srv, actions[k].b)
    ensures !actions[k].Broker? ==>
      states[k+1].srv.phase == states[k].srv.phase && states[k+1].srv.t == states[k].srv.t
  {
    if actions[k].Broker? {
      BrokerAt(states, actions, maxConnections, k);
    } else {
      OthersAt(states, actions, maxConnections, k);
    }
  }

  lemma ToldNothing(s: Sys, a: Action, u: Uid)
    requires a.Broker? ==> S.Enabled(s.srv, a.b) && !a.b.Connection? && SE.Offered(s.srv, a.b).None?
    ensures P.Told(s, a, u) == []
  {
  }

  lemma ToldCopy(s: Sys, a: Action, b0: S.Step, u: Uid)
    requires a.Broker? && S.Enabled(s.srv, a.b) && a.b.TellPeer?
    requires SE.Offered(s.srv, a.b) == if Announced(b0).0.Some? then Some((a.b.uid, Announced(b0).0.value)) else None
    ensures P.Told(s, a, u) == if u == a.b.uid then Copy(s.srv, u, b0) else []
  {
  }

  lemma UnderwayBegins(states: seq<Sys>, actions: seq<Action>, maxConnections: nat, u: Uid, i: nat, k: nat)
    requires IsRun(states, actions, maxConnections) && i < |actions| && Begins(actions[i]) && k == i + 1
    ensures Underway(states, actions, u, i, k)
    ensures SoFar(states, actions, maxConnections, u, i, k)
  {
    BrokerStepAt(states, actions, maxConnections, i);
    BeginStep(states[i].srv, actions[i].b);
    ToldStep(states, actions, maxConnections, u, i);
    ToldNothing(states[i], actions[i], u);
  }

  lemma UnderwayStays(states: seq<Sys>, actions: seq<Action>, maxConnections: nat, u: Uid, i: nat, k: nat)
    requires IsRun(states, actions, maxConnections) && i + 1 < k <= |actions| && Begins(actions[i])
    requires Underway(states, actions, u, i, k - 1) && !Ends(actions[k-1])
    ensures Underway(states, actions, u, i, k)
  {
    BrokerStepAt(states, actions, maxConnections, k - 1);
    assert TimesTold(actions, u, i + 1, k) == TimesTold(actions, u, i + 1, k - 1) + if Tells(actions[k-1], u) then 1 else 0;
    if actions[k-1].Broker? {
      TellStep(states[k-1].srv, actions[k-1].b, actions[i].b, states[i].srv.t.peers.Keys, states[k-1].srv.phase.todo);
    }
  }

  /** Everybody but u has something done to them, or nobody has. */
  lemma SoFarIdles(states: seq<Sys>, actions: seq<Action>, maxConnections: nat, u: Uid, i: nat, k: nat)
    requires IsRun(states, actions, maxConnections) && i + 1 < k <= |actions| && Begins(actions[i])
    requires Telling(states[k-1].srv.phase) && Telling(states[k].srv.phase)
    requires SoFar(states, actions, maxConnections, u, i, k - 1)
    requires HadTurn(states, u, i, k) <==> HadTurn(states, u, i, k - 1)
    requires Told(states, actions, maxConnections, u, k) == Told(states, actions, maxConnections, u, k - 1)
    ensures SoFar(states, actions, maxConnections, u, i, k)
  {
    if HadTurn(states, u, i, k) {
      StillToldOnce(states, actions, maxConnections, u, i, k);
    }
  }

  lemma StillToldOnce(states: seq<Sys>, actions: seq<Action>, maxConnections: nat, u: Uid, i: nat, k: nat)
    requires IsRun(states, actions, maxConnections) && i + 1 < k <= |actions| && Begins(actions[i])
    requires Told(states, actions, maxConnections, u, k) == Told(states, actions, maxConnections, u, k - 1)
    requires ToldOnce(states, actions, maxConnections, u, i, k - 1)
    ensures ToldOnce(states, actions, maxConnections, u, i, k)
  {
    var j: nat :| i < j < k - 1 && Tells(actions[j], u) &&
      Told(states, actions, maxConnections, u, k - 1) ==
        Told(states, actions, maxConnections, u, i) + Copy(states[j].srv, u, actions[i].b);
    assert Told(states, actions, maxConnections, u, k) ==
        Told(states, actions, maxConnections, u, i) + Copy(states[j].srv, u, actions[i].b);
  }

  /** What a step of the broker that tells somebody tells u. */
  lemma TurnOf(states: seq<Sys>, actions: seq<Action>, maxConnections: nat, u: Uid, i: nat, k: nat)
    requires IsRun(states, actions, maxConnections) && i + 1 < k <= |actions| && Begins(actions[i])
    requires Underway(states, actions, u, i, k - 1) && !Ends(actions[k-1])
    ensures Told(states, actions, maxConnections, u, k) == Told(states, actions, maxConnections, u, k - 1) +
              if Tells(actions[k-1], u) then Copy(states[k-1].srv, u, actions[i].b) else []
    ensures Tells(actions[k-1], u) ==> u in states[i].srv.t.peers && u in states[k-1].srv.phase.todo
  {
    BrokerStepAt(states, actions, maxConnections, k - 1);
    ToldStep(states, actions, maxConnections, u, k - 1);
    if actions[k-1].Broker? {
      TellStep(states[k-1].srv, actions[k-1].b, actions[i].b, states[i].srv.t.peers.Keys, states[k-1].srv.phase.todo);
      ToldCopy(states[k-1], actions[k-1], actions[i].b, u);
    } else {
      ToldNothing(states[k-1], actions[k-1], u);
    }
  }

  /** Who has had its turn changes with a telling only. */
  lemma TurnsChange(states: seq<Sys>, actions: seq<Action>, maxConnections: nat, u: Uid, i: nat, k: nat)
    requires IsRun(states, actions, maxConnections) && i + 1 < k <= |actions| && Begins(actions[i])
    requires Underway(states, actions, u, i, k - 1) && !Ends(actions[k-1])
    ensures Telling(states[k].srv.phase)
    ensures HadTurn(states, u, i, k) <==> HadTurn(states, u, i, k - 1) || Tells(actions[k-1], u)
  {
    BrokerStepAt(states, actions, maxConnections, k - 1);
    if actions[k-1].Broker? {
      TellStep(states[k-1].srv, actions[k-1].b, actions[i].b, states[i].srv.t.peers.Keys, states[k-1].srv.phase.todo);
    }
  }

  lemma SoFarStays(states: seq<Sys>, actions: seq<Action>, maxConnections: nat, u: Uid, i: nat, k: nat)
    requires IsRun(states, actions, maxConnections) && i + 1 < k <= |actions| && Begins(actions[i])
    requires Underway(states, actions, u, i, k - 1) && !Ends(actions[k-1])
    requires SoFar(states, actions, maxConnections, u, i, k - 1)
    ensures Telling(states[k].srv.phase) && SoFar(states, actions, maxConnections, u, i, k)
  {
    TurnOf(states, actions, maxConnections, u, i, k);
    TurnsChange(states, actions, maxConnections, u, i, k);
    if Tells(actions[k-1], u) {
      assert ToldOnce(states, actions, maxConnections, u, i, k);
    } else {
      SoFarIdles(states, actions, maxConnections, u, i, k);
    }
  }

  lemma {:induction false} SoFarHolds(states: seq<Sys>, actions: seq<Action>, maxConnections: nat, u: Uid, i: nat, k: nat)
    requires IsRun(states, actions, maxConnections) && i < k <= |actions| && Begins(actions[i])
    requires forall n :: i < n < k ==> !Ends(actions[n])
    ensures Underway(states, actions, u, i, k)
    ensures SoFar(states, actions, maxConnections, u, i, k)
    decreases k
  {
    if k == i + 1 {
      UnderwayBegins(states, actions, maxConnections, u, i, k);
    } else {
      SoFarHolds(states, actions, maxConnections, u, i, k - 1);
      UnderwayStays(states, actions, maxConnections, u, i, k);
      SoFarStays(states, actions, maxConnections, u, i, k);
    }
  }

  /** In every run, between the beginning of an announcement and its end nobody joins or leaves, every
      connected peer is told exactly once and nobody else is; and over TCP every connected peer gets
      exactly its copy, unless its write actor refuses that, and nothing else meanwhile. */
  lemma EveryoneToldOnce(states: seq<Sys>, actions: seq<Action>, maxConnections: nat, u: Uid, i: nat, j: nat)
    requires IsRun(states, actions, maxConnections) && i < j < |actions|
    requires Begins(actions[i]) && Ends(actions[j])
    requires forall n :: i < n < j ==> !Ends(actions[n])
    ensures states[j].srv.t.peers.Keys == states[i].srv.t.peers.Keys
    ensures TimesTold(actions, u, i + 1, j) == if u in states[i].srv.t.peers then 1 else 0
    ensures if u in states[i].srv.t.peers then ToldOnce(states, actions, maxConnections, u, i, j)
            else Told(states, actions, maxConnections, u, j) == Told(states, actions, maxConnections, u, i)
  {
    SoFarHolds(states, actions, maxConnections, u, i, j);
    BrokerStepAt(states, actions, maxConnections, j);
    TellStep(states[j].srv, actions[j].b, actions[i].b, states[i].srv.t.peers.Keys, states[j].srv.phase.todo);
  }
}
