/** The chat server behind a broker: what the logs of whole runs make of it. */
module ChatRuns {
  import opened Messages
  import opened System
  import opened SystemInvariant
  import opened Chat
  import PT = PeerTable
  import SL = ServerLog

  lemma {:induction false} LateStaysLate(log: seq<Event>, k: nat, u: Uid)
    requires k <= |log| && SL.LateTcp(log[..k], u)
    ensures SL.LateTcp(log, u)
    decreases |log|
  {
    if k == |log| {
      assert log[..k] == log;
    } else {
      var front := log[..|log|-1];
      assert front[..k] == log[..k];
      LateStaysLate(front, k, u);
    }
  }

  /** The chat server crashed, at an unknown speaker, if and only if somebody spoke after leaving; otherwise
      it knows exactly the users that the log leaves connected, no two by the same name, and of all the
      messages posted the last ten. */
  ghost predicate Agrees(after: Outcome, log: seq<Event>) {
    && (after.Crashed? <==> exists u: Uid :: SL.LateTcp(log, u))
    && (after.Crashed? ==> after.c == UnknownSpeaker)
    && (after.Running? ==>
          && after.st.connectedUsers.Keys == PT.Replay(log)
          && PT.Injective(after.st.connectedUsers)
          && LatestTen(after.st.messages, Posted(log))
          && after.st.userCounter == PT.Joins(log))
  }

  /** What an orderly log makes of the chat server. */
  lemma Follows(log: seq<Event>)
    requires PT.Orderly(log)
    ensures Agrees(Fold(log), log)
  {
    FoldAgrees(log);
    forall u | SL.LateTcp(log, u) ensures LateSpeech(log) {
      LateIsSpeech(log, u);
    }
    if LateSpeech(log) {
      var u := LateSpeaker(log);
      assert exists v: Uid :: SL.LateTcp(log, v);
    } else {
      NamesInjective(PT.Replay(log));
    }
  }

  lemma NamesInjective(us: set<Uid>)
    ensures PT.Injective(Names(us))
  {
    forall u, v | u in Names(us) && v in Names(us) && Names(us)[u] == Names(us)[v] ensures u == v {
      NamesDistinct(us, u, v);
    }
  }

  /** Behind a broker, after any number of events of any run, the chat server knows exactly the users
      that the events leave connected, no two by the same name, and the last ten messages posted; or,
      exactly if a message of a peer that had left is among them, it has crashed. It never fails to find
      who is leaving. */
  lemma ChatAgrees(states: seq<Sys>, actions: seq<Action>, maxConnections: nat, i: nat, k: nat)
    requires IsRun(states, actions, maxConnections) && i < |states| && k <= |states[i].srv.t.log|
    ensures Agrees(Fold(states[i].srv.t.log[..k]), states[i].srv.t.log[..k])
  {
    OrderlyLog(states, actions, maxConnections, i);
    PT.GoneForGood(states[i].srv.t.log, k, 0);
    Follows(states[i].srv.t.log[..k]);
  }

  lemma OrderlyLog(states: seq<Sys>, actions: seq<Action>, maxConnections: nat, i: nat)
    requires IsRun(states, actions, maxConnections) && i < |states|
    ensures PT.Orderly(states[i].srv.t.log) && PT.Replay(states[i].srv.t.log) == states[i].srv.t.peers.Keys
    ensures SL.LateExplained(states[i].srv.t.log, states[i].srv.causes)
  {
    RunInv(states, actions, maxConnections, i);
  }

  /** It crashes at a message of a peer whom the broker dropped for another cause than the end of its
      stream. */
  lemma ChatCrashes(states: seq<Sys>, actions: seq<Action>, maxConnections: nat, i: nat, k: nat)
    requires IsRun(states, actions, maxConnections) && i < |states| && k <= |states[i].srv.t.log|
    requires Fold(states[i].srv.t.log[..k]).Crashed?
    ensures exists u :: SL.LateTcp(states[i].srv.t.log[..k], u)
                     && u in states[i].srv.causes && !states[i].srv.causes[u].ReaderEnd?
  {
    ChatAgrees(states, actions, maxConnections, i, k);
    OrderlyLog(states, actions, maxConnections, i);
    var u :| SL.LateTcp(states[i].srv.t.log[..k], u);
    LateStaysLate(states[i].srv.t.log, k, u);
  }

  /** Having followed the whole log, a chat server that is still running has the broker's table. */
  lemma ChatHasTheTable(states: seq<Sys>, actions: seq<Action>, maxConnections: nat, i: nat)
    requires IsRun(states, actions, maxConnections) && i < |states|
    ensures var s := states[i].srv;
      && (Fold(s.t.log).Running? ==> Fold(s.t.log).st.connectedUsers.Keys == s.t.peers.Keys)
      && ((forall u :: u in s.causes ==> s.causes[u].ReaderEnd?) ==> Fold(s.t.log).Running?)
  {
    OrderlyLog(states, actions, maxConnections, i);
    var log := states[i].srv.t.log;
    assert log[..|log|] == log;
    Follows(log);
    if Fold(log).Crashed? {
      ChatCrashes(states, actions, maxConnections, i, |log|);
    }
  }
}
