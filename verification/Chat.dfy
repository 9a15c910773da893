/** The example chat server: it folds the server's event log into a table of its own. */
module Chat {
  import opened Wrappers
  import opened Messages
  import opened PeerTable
  import SL = ServerLog

  type User = string

  datatype Message = Message(from: User, message: string)

  datatype ServerState = ServerState(
    connectedUsers: map<Uid, User>,
    messages: seq<Message>,
    userCounter: nat)

  /** Where an `unwrap` of the loop meets nothing. */
  datatype Crash = UnknownSpeaker | UnknownLeaver

  datatype Outcome = Running(st: ServerState) | Crashed(c: Crash)

  const HISTORY: nat := 10

  const FRESH := ServerState(map[], [], 0)

  // ---- Usernames ----

  function Digit(d: nat): char
    requires d < 10
  {
    "0123456789"[d]
  }

  function Decimal(n: nat): (s: string)
    ensures |s| >= 1 && (n >= 10 ==> |s| >= 2)
  {
    if n < 10 then [Digit(n)] else Decimal(n / 10) + [Digit(n % 10)]
  }

  /** The number that a string of decimal digits stands for. */
  function Value(s: string): nat {
    if s == [] then 0 else 10 * Value(s[..|s|-1]) + DigitValue(s[|s|-1])
  }

  function DigitValue(c: char): nat {
    if '0' <= c <= '9' then (c - '0') as nat else 0
  }

  /** What is printed is read back: decimal digits, none of them a leading zero, that stand for the number. */
  lemma {:induction false} DecimalReads(n: nat)
    ensures Value(Decimal(n)) == n
    ensures forall i :: 0 <= i < |Decimal(n)| ==> '0' <= Decimal(n)[i] <= '9'
    ensures n > 0 ==> Decimal(n)[0] != '0'
    decreases n
  {
    var s := Decimal(n);
    DigitReads(n % 10);
    if n < 10 {
      assert s[..0] == [];
    } else {
      DecimalReads(n / 10);
      assert s[..|s|-1] == Decimal(n / 10);
    }
  }

  lemma DigitReads(d: nat)
    requires d < 10
    ensures DigitValue(Digit(d)) == d && '0' <= Digit(d) <= '9' && (d > 0 ==> Digit(d) != '0')
  {
  }

  function Username(n: nat): User {
    "User " + Decimal(n)
  }

  /** The n-th user is called "User " and n, and no two are called the same. */
  lemma UsernameReads(n: nat)
    ensures |Username(n)| > 5 && Username(n)[..5] == "User " && Value(Username(n)[5..]) == n
  {
    DecimalReads(n);
    assert Username(n)[5..] == Decimal(n);
  }

  lemma UsernameInjective(a: nat, b: nat)
    requires Username(a) == Username(b)
    ensures a == b
  {
    UsernameReads(a);
    UsernameReads(b);
  }

  // ---- The loop, one event at a time ----

  function LastOf(ms: seq<Message>, n: nat): seq<Message> {
    if |ms| <= n then ms else ms[|ms|-n..]
  }

  function OnEvent(st: ServerState, ev: Event): Outcome {
    match ev
    case NewPeer(u) =>
      Running(st.(userCounter := st.userCounter + 1,
                  connectedUsers := st.connectedUsers[u := Username(st.userCounter + 1)]))
    case TcpMessage(from, App(s)) =>
      if from in st.connectedUsers
      then Running(st.(messages := LastOf(st.messages + [Message(st.connectedUsers[from], s)], HISTORY)))
      else Crashed(UnknownSpeaker)
    case PeerDisconnect(u, _) =>
      if u in st.connectedUsers then Running(st.(connectedUsers := st.connectedUsers - {u})) else Crashed(UnknownLeaver)
    case UdpMessage(_, _) => Running(st)
  }

  function Fold(log: seq<Event>): Outcome {
    if log == [] then Running(FRESH)
    else
      match Fold(log[..|log|-1])
      case Running(st) => OnEvent(st, log[|log|-1])
      case Crashed(c) => Crashed(c)
  }

  /** What is kept of all the messages: the last ten, or all of them if there are no more. */
  predicate LatestTen(kept: seq<Message>, all: seq<Message>) {
    |kept| == (if |all| < 10 then |all| else 10) && kept == all[|all|-|kept|..]
  }

  // ---- Agreement with the broker ----

  /** Somebody speaks who is not connected. */
  predicate LateSpeech(log: seq<Event>) {
    log != [] &&
    var front, last := log[..|log|-1], log[|log|-1];
    LateSpeech(front) || (last.TcpMessage? && last.from !in Replay(front))
  }

  /** Every message posted, signed. Peers are named in the order of their joining, from 1. */
  function Posted(log: seq<Event>): seq<Message> {
    if log == [] then []
    else
      Posted(log[..|log|-1]) +
      match log[|log|-1]
      case TcpMessage(u, App(s)) => [Message(Username(u + 1), s)]
      case _ => []
  }

  function Names(us: set<Uid>): map<Uid, User> {
    map u | u in us :: Username(u + 1)
  }

  /** On every orderly log the chat server either has crashed because somebody spoke after leaving, and
      this is the only way it crashes; or its table is the broker's, and it remembers the last ten of
      the messages posted. */
  lemma {:induction false} FoldAgrees(log: seq<Event>)
    requires Orderly(log)
    ensures Fold(log) == if LateSpeech(log) then Crashed(UnknownSpeaker)
                         else Running(Agreed(log))
    ensures Fold(log).Running? ==>
      var st := Fold(log).st;
      st.connectedUsers == Names(Replay(log)) && LatestTen(st.messages, Posted(log)) && st.userCounter == Joins(log)
    decreases |log|
  {
    if log == [] {
      assert Names({}) == map[];
    } else {
      FoldAgrees(log[..|log|-1]);
      FoldStep(log);
    }
  }

  /** What the chat server should be in after a log that nobody has spoken late in. */
  function Agreed(log: seq<Event>): ServerState {
    ServerState(Names(Replay(log)), LastOf(Posted(log), HISTORY), Joins(log))
  }

  lemma FoldStep(log: seq<Event>)
    requires Orderly(log) && log != []
    ensures var front, last := log[..|log|-1], log[|log|-1];
      !LateSpeech(front) ==>
        OnEvent(Agreed(front), last) == if LateSpeech(log) then Crashed(UnknownSpeaker) else Running(Agreed(log))
  {
    var front, last := log[..|log|-1], log[|log|-1];
    match last
    case NewPeer(u) => NamesChange(Replay(front), u);
    case PeerDisconnect(u, _) => NamesChange(Replay(front), u);
    case TcpMessage(u, App(s)) => LastOfSnoc(Posted(front), Message(Username(u + 1), s), HISTORY);
    case UdpMessage(_, _) => assert Posted(front) + [] == Posted(front);
  }

  lemma NamesChange(us: set<Uid>, u: Uid)
    ensures Names(us)[u := Username(u + 1)] == Names(us + {u}) && Names(us) - {u} == Names(us - {u})
  {
  }

  lemma LastOfSnoc(ms: seq<Message>, m: Message, n: nat)
    ensures LastOf(LastOf(ms, n) + [m], n) == LastOf(ms + [m], n)
  {
  }

  lemma {:induction false} LateSpeaker(log: seq<Event>) returns (u: Uid)
    requires LateSpeech(log)
    ensures SL.LateTcp(log, u)
    decreases |log|
  {
    var front := log[..|log|-1];
    if LateSpeech(front) {
      u := LateSpeaker(front);
    } else {
      u := log[|log|-1].from;
    }
  }

  lemma {:induction false} LateIsSpeech(log: seq<Event>, u: Uid)
    requires SL.LateTcp(log, u)
    ensures LateSpeech(log)
    decreases |log|
  {
    var front := log[..|log|-1];
    if SL.LateTcp(front, u) {
      LateIsSpeech(front, u);
    }
  }

  /** No two users who are ever connected at once share a name. */
  lemma NamesDistinct(us: set<Uid>, u: Uid, v: Uid)
    requires u in us && v in us && Names(us)[u] == Names(us)[v]
    ensures u == v
  {
    UsernameInjective(u + 1, v + 1);
  }

  // ---- The loop as code ----

  class ChatServer {
    var connectedUsers: map<Uid, User>
    var messages: seq<Message>
    var userCounter: nat

    ghost function View(): ServerState
      reads this
    {
      ServerState(connectedUsers, messages, userCounter)
    }

    constructor ()
      ensures View() == FRESH
    {
      connectedUsers, messages, userCounter := map[], [], 0;
    }

    /** Remembers a message, but no more than ten of them. */
    method Remember(m: Message)
      modifies this`messages
      ensures messages == LastOf(old(messages) + [m], HISTORY) && LatestTen(messages, old(messages) + [m])
    {
      messages := messages + [m];
      ghost var all := messages;
      while |messages| > HISTORY
        invariant |messages| >= HISTORY || messages == all
        invariant |messages| <= |all| && messages == all[|all|-|messages|..]
      {
        messages := messages[1..];
      }
    }

    /** One turn of the loop; `crash` says which `unwrap` failed, if any. */
    method Handle(ev: Event) returns (crash: Option<Crash>)
      modifies this
      ensures OnEvent(old(View()), ev) == if crash.Some? then Crashed(crash.value) else Running(View())
      ensures crash == Some(UnknownSpeaker) <==> ev.TcpMessage? && ev.from !in old(connectedUsers)
      ensures crash == Some(UnknownLeaver) <==> ev.PeerDisconnect? && ev.uid !in old(connectedUsers)
      ensures crash.None? ==> var before := old(connectedUsers.Keys);
        connectedUsers.Keys == if ev.NewPeer? then before + {ev.uid} else if ev.PeerDisconnect? then before - {ev.uid} else before
    {
      crash := None;
      match ev
      case NewPeer(u) =>
        userCounter := userCounter + 1;
        connectedUsers := connectedUsers[u := Username(userCounter)];
      case TcpMessage(from, App(s)) =>
        if from !in connectedUsers {
          return Some(UnknownSpeaker);
        }
        Remember(Message(connectedUsers[from], s));
      case PeerDisconnect(u, _) =>
        if u !in connectedUsers {
          return Some(UnknownLeaver);
        }
        connectedUsers := connectedUsers - {u};
      case UdpMessage(_, _) =>
    }

    /** The whole loop over a log, from a fresh server. */
    method Serve(log: seq<Event>) returns (crash: Option<Crash>)
      requires View() == FRESH
      modifies this
      ensures Fold(log) == if crash.Some? then Crashed(crash.value) else Running(View())
      ensures Orderly(log) ==> (crash.Some? <==> LateSpeech(log)) && crash != Some(UnknownLeaver)
      ensures Orderly(log) && crash.None? ==>
        connectedUsers == Names(Replay(log)) && LatestTen(messages, Posted(log)) && userCounter == Joins(log)
    {
      crash := None;
      var i := 0;
      while i < |log|
        invariant i <= |log|
        invariant Fold(log[..i]) == if crash.Some? then Crashed(crash.value) else Running(View())
      {
        assert log[..i+1][..i] == log[..i];
        if crash.None? {
          crash := Handle(log[i]);
        }
        i := i + 1;
      }
      assert log[..i] == log;
      if Orderly(log) {
        FoldAgrees(log);
      }
    }
  }
}
