/** Nothing keeps the broker from dropping a peer whose stream has ended: by its own steps alone the run
    goes on to one in which it has. */
module Endings {
  import opened Wrappers
  import opened Messages
  import opened System
  import opened SystemInvariant
  import opened Speaking
  import S = Server
  import SS = ServerSound
  import SE = ServerEffects
  import K = BrokerCourse
  import F = Fates
  import R = ReadActor

  /** The broker goes on, and the reader of u has ended with the end of its stream. */
  predicate Ended(s: S.Server, u: Uid) {
    s.halt.None? && u in s.readers && R.EndedWith(s.readers[u], R.EndOfStream)
  }

  /** What the broker does next about u: it gets to await an item, takes one of u, or the end. */
  ghost function Next(s: S.Server, u: Uid): S.Step
    requires u in s.readers
  {
    if !s.phase.Await? then NextStep(s)
    else if s.readers[u].out != [] then S.TcpItem(u)
    else S.TcpReaderEnd(u)
  }

  /** How far it is from having dropped u. */
  function Left(s: S.Server, u: Uid): (nat, nat, nat)
    requires u in s.readers
  {
    (|s.readers[u].out|, if s.readers[u].reported then 0 else 1, Distance(s.phase))
  }

  predicate Less(a: (nat, nat, nat), b: (nat, nat, nat)) {
    a.0 < b.0 || (a.0 == b.0 && (a.1 < b.1 || (a.1 == b.1 && a.2 < b.2)))
  }

  /** A reader whose end was reported is that of a peer who is about to be dropped. */
  lemma Pending(states: seq<Sys>, actions: seq<Action>, maxConnections: nat, u: Uid, i: nat)
    requires IsRun(states, actions, maxConnections) && i < |states|
    requires Ended(states[i].srv, u) && u in states[i].srv.t.peers && states[i].srv.readers[u].reported
    ensures states[i].srv.phase.Head?
  {
    RunInv(states, actions, maxConnections, i);
    assert SS.ReaderReported(states[i].srv.readers[u]);
  }

  lemma NextPossible(states: seq<Sys>, actions: seq<Action>, maxConnections: nat, u: Uid, i: nat)
    requires IsRun(states, actions, maxConnections) && i < |states|
    requires Ended(states[i].srv, u) && u in states[i].srv.t.peers
    ensures S.Staffed(states[i].srv) && S.Enabled(states[i].srv, Next(states[i].srv, u))
    ensures !Next(states[i].srv, u).Connection?
  {
    var s := states[i].srv;
    ReadyAt(states, actions, maxConnections, i);
    if !s.phase.Await? {
      StepNearer(s);
    } else if s.readers[u].reported {
      Pending(states, actions, maxConnections, u, i);
    }
  }

  /** A step of the broker at s that goes where it should. */
  ghost predicate Goes(s: S.Server, b: S.Step, v: S.Server) {
    && S.Staffed(s) && s.t.nextUid !in s.readers && !K.SizesWrong(s.t)
    && S.Enabled(s, b) && SE.Effect(s, b, v)
    && v.halt == K.HaltAfter(s, b) && (v.halt.None? ==> v.phase == K.PhaseAfter(s, b))
  }

  /** On its way to await an item. */
  lemma NearerToAwait(s: S.Server, u: Uid, v: S.Server)
    requires Ended(s, u) && u in s.t.peers && !s.phase.Await? && Goes(s, NextStep(s), v)
    requires (s.phase.TellTcp? || s.phase.TellUdp?) ==> s.phase.todo <= s.t.peers.Keys
    ensures v.halt.None? && Distance(v.phase) < Distance(s.phase)
    ensures u in v.t.peers ==> u in v.readers && v.readers[u] == s.readers[u]
  {
    SE.StepConnected(s, NextStep(s));
  }

  lemma NearerByItem(s: S.Server, u: Uid, v: S.Server)
    requires Ended(s, u) && s.phase.Await? && s.readers[u].out != [] && Goes(s, S.TcpItem(u), v)
    ensures v.halt.None? && u in v.readers && v.readers[u] == R.Receive(s.readers[u])
  {
  }

  lemma NearerByEnd(s: S.Server, u: Uid, v: S.Server)
    requires Ended(s, u) && s.phase.Await? && Goes(s, S.TcpReaderEnd(u), v)
    ensures v.halt.None? && u in v.readers && v.readers[u] == R.Report(s.readers[u])
  {
  }

  /** Each of these steps brings the broker nearer, if it does not drop u at once. */
  lemma Nearer(s: S.Server, u: Uid, v: S.Server)
    requires Ended(s, u) && u in s.t.peers && Goes(s, Next(s, u), v)
    requires (s.phase.TellTcp? || s.phase.TellUdp?) ==> s.phase.todo <= s.t.peers.Keys
    ensures v.halt.None?
    ensures u in v.t.peers ==> Ended(v, u) && Less(Left(v, u), Left(s, u))
  {
    if !s.phase.Await? {
      NearerToAwait(s, u, v);
    } else if s.readers[u].out != [] {
      NearerByItem(s, u, v);
    } else {
      NearerByEnd(s, u, v);
    }
  }

  /** Whatever state a run is in, if the broker has not stopped, and the stream of a connected peer has
      ended and its reader with it, then the run goes on to one in which that peer has been dropped. */
  lemma {:induction false} CanBeDropped(states: seq<Sys>, actions: seq<Action>, maxConnections: nat, u: Uid)
      returns (ss: seq<Sys>, aa: seq<Action>)
    requires IsRun(states, actions, maxConnections)
    requires Ended(states[|actions|].srv, u) && u in states[|actions|].srv.t.peers
    ensures Continues(states, actions, ss, aa, maxConnections)
    ensures ss[|aa|].srv.halt.None? && u !in ss[|aa|].srv.t.peers
    decreases Left(states[|actions|].srv, u).0, Left(states[|actions|].srv, u).1, Left(states[|actions|].srv, u).2
  {
    ss, aa := OneStep(states, actions, maxConnections, u);
    if u in ss[|aa|].srv.t.peers {
      ss, aa := CanBeDropped(ss, aa, maxConnections, u);
    }
  }

  lemma OneStep(states: seq<Sys>, actions: seq<Action>, maxConnections: nat, u: Uid) returns (ss: seq<Sys>, aa: seq<Action>)
    requires IsRun(states, actions, maxConnections)
    requires Ended(states[|actions|].srv, u) && u in states[|actions|].srv.t.peers
    ensures Continues(states, actions, ss, aa, maxConnections) && ss[|aa|].srv.halt.None?
    ensures u in ss[|aa|].srv.t.peers ==>
      Ended(ss[|aa|].srv, u) && Less(Left(ss[|aa|].srv, u), Left(states[|actions|].srv, u))
  {
    var s, n := states[|actions|].srv, |actions|;
    NextPossible(states, actions, maxConnections, u, n);
    var b := Next(s, u);
    ss, aa := Act(states, actions, maxConnections, Broker(b, false));
    assert ss[n] == states[n] && aa[n] == Broker(b, false);
    F.StopsExactly(ss, aa, maxConnections, n);
    F.SizesRight(ss, aa, maxConnections, n);
    NextIsNew(ss, aa, maxConnections, n);
    ReadyAt(ss, aa, maxConnections, n);
    BrokerAt(ss, aa, maxConnections, n);
    Nearer(s, u, ss[|aa|].srv);
  }
}
