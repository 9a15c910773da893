/** Announcements: the copies they leave in the write actors' queues, in whatever order the peers are
    visited. */
module Announcements {
  import opened Wrappers
  import opened Messages
  import opened PeerTable
  import opened Server
  import opened ServerLog
  import W = WriteActor

  /** An order in which to visit all of a set of peers, each once. */
  ghost predicate Visits(order: seq<Uid>, todo: set<Uid>) {
    && (forall u :: u in order <==> u in todo)
    && (forall i, j :: 0 <= i < j < |order| ==> order[i] != order[j])
  }

  // ---- Over TCP ----

  /** The writers after every one of the peers was offered the message. */
  function ToldAll(ws: map<Uid, TcpWriter>, peers: set<Uid>, m: TcpFromServer): map<Uid, TcpWriter> {
    map u | u in ws :: if u in peers then W.Offer(ws[u], W.Send(m)) else ws[u]
  }

  function Tells(order: seq<Uid>): seq<Step> {
    if order == [] then [] else Tells(order[..|order|-1]) + [TellPeer(order[|order|-1])]
  }

  lemma VisitsFront(order: seq<Uid>)
    requires order != [] && forall i, j :: 0 <= i < j < |order| ==> order[i] != order[j]
    ensures order[|order|-1] !in order[..|order|-1]
    ensures forall u :: u in order <==> u in order[..|order|-1] || u == order[|order|-1]
  {
    var front, last := order[..|order|-1], order[|order|-1];
    assert order == front + [last];
  }

  function Elements(order: seq<Uid>): set<Uid> {
    set u | u in order
  }

  /** Telling some of the peers, in any order, is telling them all at once. */
  lemma {:induction false} TellSteps(s: Server, m: TcpFromServer, order: seq<Uid>)
    requires s.halt.None? && Staffed(s)
    requires forall i, j :: 0 <= i < j < |order| ==> order[i] != order[j]
    requires forall u :: u in order ==> u in s.t.peers
    ensures var start := s.(phase := TellTcp(m, s.t.peers.Keys));
      && CanRun(start, Tells(order))
      && RunSteps(start, Tells(order)) ==
           s.(phase := TellTcp(m, s.t.peers.Keys - Elements(order)), writers := ToldAll(s.writers, Elements(order), m))
    decreases |order|
  {
    var start := s.(phase := TellTcp(m, s.t.peers.Keys));
    if order == [] {
      RunNone(start);
      assert ToldAll(s.writers, Elements(order), m) == s.writers;
      assert s.t.peers.Keys - Elements(order) == s.t.peers.Keys;
    } else {
      var front, last := order[..|order|-1], order[|order|-1];
      VisitsFront(order);
      TellSteps(s, m, front);
      var told := ToldAll(s.writers, Elements(front), m);
      var v := s.(phase := TellTcp(m, s.t.peers.Keys - Elements(front)), writers := told);
      assert told[last := W.Offer(told[last], W.Send(m))] == ToldAll(s.writers, Elements(order), m);
      assert s.t.peers.Keys - Elements(front) - {last} == s.t.peers.Keys - Elements(order);
      assert Enabled(v, TellPeer(last));
      RunSnoc(start, Tells(front), TellPeer(last));
    }
  }

  // ---- Over UDP ----

  type Letter = (UdpFromServer, Addr)

  /** One copy per peer visited, each to the peer's TCP address. */
  function Copies(m: UdpFromServer, peers: map<Uid, Peer>, order: seq<Uid>): seq<Letter>
    requires forall u :: u in order ==> u in peers
  {
    seq(|order|, i requires 0 <= i < |order| => (m, peers[order[i]].tcp))
  }

  /** The socket's writer after it was fed some copies one by one. */
  function FeedAll(w: UdpWriter, ls: seq<Letter>): UdpWriter {
    if ls == [] then w else W.Offer(FeedAll(w, ls[..|ls|-1]), W.Feed(ls[|ls|-1]))
  }

  lemma FeedOneMore(w: UdpWriter, m: UdpFromServer, peers: map<Uid, Peer>, order: seq<Uid>, u: Uid)
    requires u in peers && forall v :: v in order ==> v in peers
    ensures FeedAll(w, Copies(m, peers, order + [u])) ==
              W.Offer(FeedAll(w, Copies(m, peers, order)), W.Feed((m, peers[u].tcp)))
  {
    var cs := Copies(m, peers, order + [u]);
    assert cs[..|cs|-1] == Copies(m, peers, order);
  }

  function Feeds(ls: seq<Letter>): seq<W.Msg<Letter>> {
    seq(|ls|, i requires 0 <= i < |ls| => W.Feed(ls[i]))
  }

  function Room(w: UdpWriter): nat {
    if w.phase.Finished? || |w.queue| >= W.CAPACITY then 0 else W.CAPACITY - |w.queue|
  }

  function Min(a: nat, b: nat): nat {
    if a < b then a else b
  }

  /** Feeding copies while the writer does not run queues exactly as many as there is room for, and the
      earlier ones. */
  lemma {:induction false} FeedAllQueues(w: UdpWriter, ls: seq<Letter>)
    ensures FeedAll(w, ls) == w.(queue := w.queue + Feeds(ls[..Min(|ls|, Room(w))]))
    decreases |ls|
  {
    if ls == [] {
      assert w.queue + Feeds(ls[..0]) == w.queue;
    } else {
      var front, last := ls[..|ls|-1], ls[|ls|-1];
      FeedAllQueues(w, front);
      var k := Min(|front|, Room(w));
      assert front[..k] == ls[..k];
      if |front| < Room(w) {
        assert ls[..|front|] == front && ls[..|ls|] == ls;
        assert Feeds(front) + [W.Feed(last)] == Feeds(ls);
        assert w.queue + Feeds(front) + [W.Feed(last)] == w.queue + (Feeds(front) + [W.Feed(last)]);
      } else {
        assert Min(|ls|, Room(w)) == k;
      }
    }
  }

  ghost predicate NoTwice<T>(xs: seq<T>) {
    forall i, j :: 0 <= i < j < |xs| ==> xs[i] != xs[j]
  }

  /** While the TCP index is exact, the copies of an announcement go to pairwise distinct addresses,
      and those are the TCP addresses of the connected peers. */
  lemma CopiesDistinct(t: Table, m: UdpFromServer, order: seq<Uid>)
    requires TcpExact(t) && Visits(order, t.peers.Keys)
    ensures NoTwice(Copies(m, t.peers, order))
    ensures forall l: Letter :: l in Copies(m, t.peers, order) <==> l.0 == m && l.1 in t.byTcp
  {
    var cs := Copies(m, t.peers, order);
    forall l: Letter | l.0 == m && l.1 in t.byTcp ensures l in cs {
      var u := t.byTcp[l.1];
      assert u in order;
      var i :| 0 <= i < |order| && order[i] == u;
      assert cs[i] == l;
    }
    forall i, j | 0 <= i < j < |cs| ensures cs[i] != cs[j] {
      assert order[i] in t.peers && order[j] in t.peers;
      assert t.byTcp[cs[i].1] == order[i] && t.byTcp[cs[j].1] == order[j];
    }
  }

  lemma {:induction false} NoTwiceCount<T>(xs: seq<T>, x: T)
    requires NoTwice(xs)
    ensures multiset(xs)[x] == if x in xs then 1 else 0
    decreases |xs|
  {
    if xs != [] {
      var front, last := xs[..|xs|-1], xs[|xs|-1];
      assert xs == front + [last];
      NoTwiceCount(front, x);
    }
  }

  // ---- Announcing, and telling everybody one by one ----

  /** The broker after it was asked to send each of some peers a message of its own. */
  function ToEach(s: Server, msg: Text, order: seq<Uid>): (v: Server)
    requires Staffed(s)
    ensures Staffed(v)
    decreases |order|
  {
    if order == [] then s else Execute(ToEach(s, msg, order[..|order|-1]), ToPeerUdp(order[|order|-1], msg))
  }

  /** The socket's writer after it was sent some letters one by one. */
  function SendAll(w: UdpWriter, ls: seq<Letter>): UdpWriter {
    if ls == [] then w else W.Offer(SendAll(w, ls[..|ls|-1]), W.Send(ls[|ls|-1]))
  }

  /** One letter per peer visited whose UDP address is on record, to that address. */
  function Individually(m: UdpFromServer, peers: map<Uid, Peer>, order: seq<Uid>): seq<Letter> {
    if order == [] then []
    else
      var last := order[|order|-1];
      Individually(m, peers, order[..|order|-1]) +
      if last in peers && peers[last].udp.Some? then [(m, peers[last].udp.value)] else []
  }

  /** Messages to single peers are exactly those letters. */
  lemma {:induction false} ToEachSends(s: Server, msg: Text, order: seq<Uid>)
    requires Staffed(s)
    ensures ToEach(s, msg, order) ==
              s.(udpOut := SendAll(s.udpOut, Individually(UdpFromServer.App(msg), s.t.peers, order)))
    decreases |order|
  {
    if order != [] {
      var front, last := order[..|order|-1], order[|order|-1];
      ToEachSends(s, msg, front);
      var ls := Individually(UdpFromServer.App(msg), s.t.peers, front);
      assert forall l: Letter :: (ls + [l])[..|ls|] == ls;
      assert ls + [] == ls;
    }
  }

  /** While the UDP index is exact, they go to pairwise distinct addresses, and those are the addresses
      on record. */
  lemma {:induction false} IndividuallyDistinct(t: Table, m: UdpFromServer, order: seq<Uid>)
    requires UdpExact(t) && NoTwice(order)
    ensures NoTwice(Individually(m, t.peers, order))
    ensures forall l: Letter :: l in Individually(m, t.peers, order) <==>
              l.0 == m && l.1 in t.byUdp && t.byUdp[l.1] in order
    decreases |order|
  {
    if order != [] {
      VisitsFront(order);
      IndividuallyDistinct(t, m, order[..|order|-1]);
    }
  }

  lemma SameLetters(cs: seq<Letter>, ds: seq<Letter>)
    requires NoTwice(cs) && NoTwice(ds)
    ensures multiset(cs) == multiset(ds) <==> forall l: Letter :: l in cs <==> l in ds
  {
    forall l: Letter ensures multiset(cs)[l] == (if l in cs then 1 else 0) && multiset(ds)[l] == if l in ds then 1 else 0 {
      NoTwiceCount(cs, l);
      NoTwiceCount(ds, l);
    }
  }

  /** An announcement and messages to everybody one by one are the same letters, whatever the order of
      either, if and only if every handshake is complete. */
  lemma AnnouncementIsEveryone(t: Table, m: UdpFromServer, order: seq<Uid>, other: seq<Uid>)
    requires Exact(t) && UdpIsTcp(t) && Visits(order, t.peers.Keys) && Visits(other, t.peers.Keys)
    ensures multiset(Copies(m, t.peers, order)) == multiset(Individually(m, t.peers, other)) <==> AllGreeted(t)
  {
    var cs, ds := Copies(m, t.peers, order), Individually(m, t.peers, other);
    CopiesDistinct(t, m, order);
    IndividuallyDistinct(t, m, other);
    SameLetters(cs, ds);
    if !AllGreeted(t) {
      var u :| u in t.peers && t.peers[u].udp.None?;
      var l := (m, t.peers[u].tcp);
      assert l in cs && l !in ds;
    }
  }

  /** Telling some of the peers over UDP, in any order, is feeding the writer their copies. */
  lemma {:induction false} TellUdpSteps(s: Server, m: UdpFromServer, order: seq<Uid>)
    requires s.halt.None? && Staffed(s)
    requires forall i, j :: 0 <= i < j < |order| ==> order[i] != order[j]
    requires forall u :: u in order ==> u in s.t.peers
    ensures var start := s.(phase := TellUdp(m, s.t.peers.Keys));
      && CanRun(start, Tells(order))
      && RunSteps(start, Tells(order)) ==
           s.(phase := TellUdp(m, s.t.peers.Keys - Elements(order)), udpOut := FeedAll(s.udpOut, Copies(m, s.t.peers, order)))
    decreases |order|
  {
    var start := s.(phase := TellUdp(m, s.t.peers.Keys));
    if order == [] {
      RunNone(start);
      assert s.t.peers.Keys - Elements(order) == s.t.peers.Keys;
    } else {
      var front, last := order[..|order|-1], order[|order|-1];
      VisitsFront(order);
      TellUdpSteps(s, m, front);
      var cs := Copies(m, s.t.peers, order);
      assert cs[..|cs|-1] == Copies(m, s.t.peers, front) && cs[|cs|-1] == (m, s.t.peers[last].tcp);
      var v := s.(phase := TellUdp(m, s.t.peers.Keys - Elements(front)), udpOut := FeedAll(s.udpOut, cs[..|cs|-1]));
      assert s.t.peers.Keys - Elements(front) - {last} == s.t.peers.Keys - Elements(order);
      assert Enabled(v, TellPeer(last));
      RunSnoc(start, Tells(front), TellPeer(last));
    }
  }

  /** A whole announcement, step by step in any order. */
  lemma TellAllSteps(s: Server, m: TcpFromServer, order: seq<Uid>)
    requires s.halt.None? && Staffed(s) && s.phase == TellTcp(m, s.t.peers.Keys) && Visits(order, s.t.peers.Keys)
    ensures CanRun(s, Tells(order) + [TellDone])
    ensures RunSteps(s, Tells(order) + [TellDone]) == s.(phase := Head, writers := ToldAll(s.writers, s.t.peers.Keys, m))
  {
    TellSteps(s, m, order);
    assert s.(phase := TellTcp(m, s.t.peers.Keys)) == s;
    assert Elements(order) == s.t.peers.Keys;
    RunSnoc(s, Tells(order), TellDone);
  }

  lemma TellAllUdpSteps(s: Server, m: UdpFromServer, order: seq<Uid>)
    requires s.halt.None? && Staffed(s) && s.phase == TellUdp(m, s.t.peers.Keys) && Visits(order, s.t.peers.Keys)
    ensures CanRun(s, Tells(order) + [TellDone])
    ensures RunSteps(s, Tells(order) + [TellDone]) ==
      s.(phase := Head, udpOut := W.Offer(FeedAll(s.udpOut, Copies(m, s.t.peers, order)), W.Flush))
  {
    TellUdpSteps(s, m, order);
    assert s.(phase := TellUdp(m, s.t.peers.Keys)) == s;
    assert Elements(order) == s.t.peers.Keys;
    RunSnoc(s, Tells(order), TellDone);
  }
}
