/** The broker's peer table with its three secondary indexes, its uid counter and its event log. */
module PeerTable {
  import opened Wrappers
  import opened Messages

  datatype Peer = Peer(tcp: Addr, udp: Option<Addr>, uuid: Uuid)

  datatype Table = Table(
    maxConnections: nat,
    peers: map<Uid, Peer>,
    nextUid: Uid,
    byTcp: map<Addr, Uid>,
    byUdp: map<Addr, Uid>,
    byUuid: map<Uuid, Uid>,
    log: seq<Event>)

  function Empty(maxConnections: nat): Table {
    Table(maxConnections, map[], 0, map[], map[], map[], [])
  }

  // ---- What the broker does to the table ----

  predicate AtCapacity(t: Table) {
    |t.peers| >= t.maxConnections
  }

  function Insert(t: Table, addr: Addr, uuid: Uuid): Table {
    t.(peers := t.peers[t.nextUid := Peer(addr, None, uuid)],
       nextUid := t.nextUid + 1,
       byTcp := t.byTcp[addr := t.nextUid],
       byUuid := t.byUuid[uuid := t.nextUid],
       log := t.log + [NewPeer(t.nextUid)])
  }

  function Remove(t: Table, uid: Uid, reason: DisconnectReason): Table {
    if uid !in t.peers then t
    else
      var peer := t.peers[uid];
      t.(peers := t.peers - {uid},
         byTcp := t.byTcp - {peer.tcp},
         byUdp := if peer.udp.Some? then t.byUdp - {peer.udp.value} else t.byUdp,
         byUuid := t.byUuid - {peer.uuid},
         log := t.log + [PeerDisconnect(uid, reason)])
  }

  /** The peer to whom a Hello with this UUID is attributed, if any. */
  function Greeter(t: Table, uuid: Uuid): Option<Uid> {
    if uuid in t.byUuid && t.byUuid[uuid] in t.peers then Some(t.byUuid[uuid]) else None
  }

  function Hello(t: Table, uuid: Uuid, addr: Addr): Table {
    match Greeter(t, uuid)
    case None => t
    case Some(uid) =>
      t.(peers := t.peers[uid := t.peers[uid].(udp := Some(addr))],
         byUdp := t.byUdp[addr := uid])
  }

  function Emit(t: Table, ev: Event): Table {
    t.(log := t.log + [ev])
  }

  // ---- The indexes ----

  ghost predicate TcpExact(t: Table) {
    && (forall a :: a in t.byTcp ==> t.byTcp[a] in t.peers && t.peers[t.byTcp[a]].tcp == a)
    && (forall u :: u in t.peers ==> t.peers[u].tcp in t.byTcp && t.byTcp[t.peers[u].tcp] == u)
  }

  ghost predicate UuidExact(t: Table) {
    && (forall a :: a in t.byUuid ==> t.byUuid[a] in t.peers && t.peers[t.byUuid[a]].uuid == a)
    && (forall u :: u in t.peers ==> t.peers[u].uuid in t.byUuid && t.byUuid[t.peers[u].uuid] == u)
  }

  ghost predicate UdpExact(t: Table) {
    && (forall a :: a in t.byUdp ==> t.byUdp[a] in t.peers && t.peers[t.byUdp[a]].udp == Some(a))
    && (forall u :: u in t.peers && t.peers[u].udp.Some? ==>
          t.peers[u].udp.value in t.byUdp && t.byUdp[t.peers[u].udp.value] == u)
  }

  /** Each index is exactly the inverse of its field in the table. */
  ghost predicate Exact(t: Table) {
    TcpExact(t) && UuidExact(t) && UdpExact(t)
  }

  ghost predicate UidsBelow(t: Table) {
    forall u :: u in t.peers ==> u < t.nextUid
  }

  lemma InsertTcpExact(t: Table, addr: Addr, uuid: Uuid)
    requires TcpExact(t) && UidsBelow(t)
    ensures TcpExact(Insert(t, addr, uuid)) <==> addr !in t.byTcp
  {
    if addr in t.byTcp {
      var v := t.byTcp[addr];
      var s := Insert(t, addr, uuid);
      assert v in s.peers && s.peers[v].tcp == addr && s.byTcp[addr] != v;
    }
  }

  lemma InsertUuidExact(t: Table, addr: Addr, uuid: Uuid)
    requires UuidExact(t) && UidsBelow(t)
    ensures UuidExact(Insert(t, addr, uuid)) <==> uuid !in t.byUuid
  {
    if uuid in t.byUuid {
      var v := t.byUuid[uuid];
      var s := Insert(t, addr, uuid);
      assert v in s.peers && s.peers[v].uuid == uuid && s.byUuid[uuid] != v;
    }
  }

  lemma InsertUdpExact(t: Table, addr: Addr, uuid: Uuid)
    requires UdpExact(t) && UidsBelow(t)
    ensures UdpExact(Insert(t, addr, uuid))
  {
  }

  /** A new connection keeps the indexes exact if, and only if, neither its address nor its UUID is
      that of a connected peer. */
  lemma InsertExact(t: Table, addr: Addr, uuid: Uuid)
    requires Exact(t) && UidsBelow(t)
    ensures Exact(Insert(t, addr, uuid)) <==> addr !in t.byTcp && uuid !in t.byUuid
  {
    InsertTcpExact(t, addr, uuid);
    InsertUuidExact(t, addr, uuid);
    InsertUdpExact(t, addr, uuid);
  }

  /** A Hello keeps the indexes exact if, and only if, the peer has no other UDP address on record
      and nobody else has this one. An older entry of the same peer is not removed. */
  lemma HelloExact(t: Table, uuid: Uuid, addr: Addr)
    requires Exact(t) && uuid in t.byUuid
    ensures var uid := t.byUuid[uuid];
      Exact(Hello(t, uuid, addr)) <==>
        t.peers[uid].udp in {None, Some(addr)} && (addr in t.byUdp ==> t.byUdp[addr] == uid)
  {
    HelloKeepsOthers(t, uuid, addr);
    HelloUdpExact(t, uuid, addr);
  }

  /** It does not touch the other two indexes. */
  lemma HelloKeepsOthers(t: Table, uuid: Uuid, addr: Addr)
    requires TcpExact(t) && UuidExact(t)
    ensures TcpExact(Hello(t, uuid, addr)) && UuidExact(Hello(t, uuid, addr))
  {
  }

  lemma HelloUdpExact(t: Table, uuid: Uuid, addr: Addr)
    requires UuidExact(t) && UdpExact(t) && uuid in t.byUuid
    ensures var uid := t.byUuid[uuid];
      UdpExact(Hello(t, uuid, addr)) <==>
        t.peers[uid].udp in {None, Some(addr)} && (addr in t.byUdp ==> t.byUdp[addr] == uid)
  {
    var uid := t.byUuid[uuid];
    var s := Hello(t, uuid, addr);
    if t.peers[uid].udp.Some? && t.peers[uid].udp.value != addr {
      var b := t.peers[uid].udp.value;
      assert b in s.byUdp && s.byUdp[b] == uid && s.peers[uid].udp != Some(b);
    } else if addr in t.byUdp && t.byUdp[addr] != uid {
      var v := t.byUdp[addr];
      assert v in s.peers && s.peers[v].udp == Some(addr) && s.byUdp[addr] != v;
    }
  }

  lemma RemoveExact(t: Table, uid: Uid, reason: DisconnectReason)
    requires Exact(t)
    ensures Exact(Remove(t, uid, reason))
  {
  }

  // ---- The size assertions ----

  /** The broker's own sanity check, made at the head of its loop. */
  predicate SizeAssertions(t: Table) {
    && |t.byTcp| >= |t.byUdp|
    && |t.peers| >= |t.byTcp|
    && |t.peers| >= |t.byUdp|
    && |t.peers| >= |t.byUuid|
  }

  ghost predicate Injective<A, B>(m: map<A, B>) {
    forall a, b :: a in m && b in m && m[a] == m[b] ==> a == b
  }

  /** An injective map into a finite set is no larger than the set, and as large only if onto. */
  lemma {:induction false} InjectiveSize<A, B>(m: map<A, B>, s: set<B>)
    requires Injective(m) && forall a :: a in m ==> m[a] in s
    ensures |m| <= |s|
    ensures |m| == |s| <==> forall b :: b in s ==> exists a :: a in m && m[a] == b
    decreases |m|
  {
    if m == map[] {
      if s != {} {
        var b :| b in s;
      }
    } else {
      var a :| a in m;
      var n := m - {a};
      assert m == n[a := m[a]];
      assert |n.Keys| == |m.Keys| - 1;
      InjectiveSize(n, s - {m[a]});
      assert |s - {m[a]}| == |s| - 1;
      if forall b :: b in s ==> exists c :: c in m && m[c] == b {
        forall b | b in s - {m[a]} ensures exists c :: c in n && n[c] == b {
          var c :| c in m && m[c] == b;
          assert c in n && n[c] == b;
        }
      }
      if forall b :: b in s - {m[a]} ==> exists c :: c in n && n[c] == b {
        forall b | b in s ensures exists c :: c in m && m[c] == b {
          if b != m[a] {
            assert b in s - {m[a]};
            var c :| c in n && n[c] == b;
            assert c in m && m[c] == b;
          }
        }
      }
    }
  }

  ghost predicate AllGreeted(t: Table) {
    forall u :: u in t.peers ==> t.peers[u].udp.Some?
  }

  lemma ExactSizes(t: Table)
    requires Exact(t)
    ensures |t.byTcp| == |t.peers| && |t.byUuid| == |t.peers| && |t.byUdp| <= |t.peers|
    ensures |t.byUdp| == |t.peers| <==> AllGreeted(t)
    ensures SizeAssertions(t)
  {
    InjectiveSize(t.byTcp, t.peers.Keys);
    InjectiveSize(t.byUuid, t.peers.Keys);
    InjectiveSize(t.byUdp, t.peers.Keys);
    assert forall b :: b in t.peers ==> t.byTcp[t.peers[b].tcp] == b;
    assert forall b :: b in t.peers ==> t.byUuid[t.peers[b].uuid] == b;
    if AllGreeted(t) {
      assert forall b :: b in t.peers ==> t.peers[b].udp.value in t.byUdp && t.byUdp[t.peers[b].udp.value] == b;
    }
  }

  lemma HelloCounts(t: Table, uuid: Uuid, addr: Addr)
    requires UuidExact(t) && uuid in t.byUuid
    ensures var s := Hello(t, uuid, addr);
      && |s.peers| == |t.peers| && s.byTcp == t.byTcp && s.byUuid == t.byUuid
      && |s.byUdp| == |t.byUdp| + if addr in t.byUdp then 0 else 1
  {
    var uid := t.byUuid[uuid];
    PutSize(t.peers, uid, t.peers[uid].(udp := Some(addr)));
    PutSize(t.byUdp, addr, uid);
  }

  lemma PutSize<A, B>(m: map<A, B>, a: A, b: B)
    ensures |m[a := b]| == |m| + if a in m then 0 else 1
  {
    var n := m[a := b];
    assert n.Keys == m.Keys + {a};
    assert |n| == |n.Keys| && |m| == |m.Keys|;
    if a in m {
      assert n.Keys == m.Keys;
    }
  }

  /** The entries of the UDP index that are not, or no longer, the address on record of the peer they
      point to. */
  function Stale(t: Table): set<Addr> {
    set a | a in t.byUdp && !(t.byUdp[a] in t.peers && t.peers[t.byUdp[a]].udp == Some(a))
  }

  /** The peers to whom no entry of the UDP index leads: those not greeted, and those whose address was
      taken over or taken away. */
  function Unindexed(t: Table): set<Uid> {
    set u | u in t.peers &&
      !(t.peers[u].udp.Some? && t.peers[u].udp.value in t.byUdp && t.byUdp[t.peers[u].udp.value] == u)
  }

  /** Whatever the UDP index holds, its other entries are as many as the other peers. */
  lemma Counted(t: Table)
    ensures |t.byUdp| + |Unindexed(t)| == |t.peers| + |Stale(t)|
  {
    var live := t.byUdp - Stale(t);
    var found := t.peers.Keys - Unindexed(t);
    forall u | u in found ensures exists a :: a in live && live[a] == u {
      assert t.peers[u].udp.value in live;
    }
    InjectiveSize(live, found);
    assert live.Keys == t.byUdp.Keys - Stale(t);
    assert |live| == |live.Keys| == |t.byUdp| - |Stale(t)|;
  }

  /** While the other two indexes are exact, the size assertions hold if and only if no more entries of
      the UDP index are stale than peers are without one, whatever Hellos came from where. */
  lemma SizesCounted(t: Table)
    requires TcpExact(t) && UuidExact(t)
    ensures SizeAssertions(t) <==> |Stale(t)| <= |Unindexed(t)|
    ensures UdpExact(t) ==> Stale(t) == {}
  {
    Counted(t);
    InjectiveSize(t.byTcp, t.peers.Keys);
    InjectiveSize(t.byUuid, t.peers.Keys);
    assert forall b :: b in t.peers ==> t.byTcp[t.peers[b].tcp] == b;
    assert forall b :: b in t.peers ==> t.byUuid[t.peers[b].uuid] == b;
  }

  /** From exact indexes, a Hello makes the broker's size assertions fail exactly when every peer
      already has a UDP address and the Hello comes from one not on record. */
  lemma HelloSizes(t: Table, uuid: Uuid, addr: Addr)
    requires Exact(t) && uuid in t.byUuid
    ensures SizeAssertions(Hello(t, uuid, addr)) <==> addr in t.byUdp || !AllGreeted(t)
  {
    ExactSizes(t);
    HelloCounts(t, uuid, addr);
  }

  // ---- The log determines the table ----

  /** The uids that a log says are connected. */
  function Replay(log: seq<Event>): set<Uid> {
    if log == [] then {}
    else
      var before := Replay(log[..|log|-1]);
      match log[|log|-1]
      case NewPeer(u) => before + {u}
      case PeerDisconnect(u, _) => before - {u}
      case _ => before
  }

  function Joins(log: seq<Event>): nat {
    if log == [] then 0 else Joins(log[..|log|-1]) + if log[|log|-1].NewPeer? then 1 else 0
  }

  function Leaves(log: seq<Event>): nat {
    if log == [] then 0 else Leaves(log[..|log|-1]) + if log[|log|-1].PeerDisconnect? then 1 else 0
  }

  /** Uids join in order, nobody leaves who is not connected, and no message is from a stranger. */
  ghost predicate Orderly(log: seq<Event>) {
    log == [] ||
    var front := log[..|log|-1];
    Orderly(front) &&
    match log[|log|-1]
    case NewPeer(u) => u == Joins(front)
    case PeerDisconnect(u, _) => u in Replay(front)
    case TcpMessage(u, _) => u < Joins(front)
    case UdpMessage(u, _) => u < Joins(front)
  }

  ghost predicate Logged(t: Table) {
    && Orderly(t.log)
    && Replay(t.log) == t.peers.Keys
    && Joins(t.log) == t.nextUid
    && Joins(t.log) == Leaves(t.log) + |t.peers|
    && |t.peers| <= t.maxConnections
    && UidsBelow(t)
  }

  lemma Snoc(log: seq<Event>, ev: Event)
    ensures (log + [ev])[..|log|] == log && (log + [ev])[|log|] == ev
  {
  }

  lemma {:induction false} InsertLogged(t: Table, addr: Addr, uuid: Uuid)
    requires Logged(t) && !AtCapacity(t)
    ensures Logged(Insert(t, addr, uuid))
  {
    Snoc(t.log, NewPeer(t.nextUid));
    var s := Insert(t, addr, uuid);
    assert s.peers.Keys == t.peers.Keys + {t.nextUid};
    assert |s.peers| == |s.peers.Keys| == |t.peers.Keys| + 1;
  }

  lemma {:induction false} RemoveLogged(t: Table, uid: Uid, reason: DisconnectReason)
    requires Logged(t)
    ensures Logged(Remove(t, uid, reason))
  {
    if uid in t.peers {
      Snoc(t.log, PeerDisconnect(uid, reason));
      var s := Remove(t, uid, reason);
      assert s.peers.Keys == t.peers.Keys - {uid};
      assert |s.peers| == |s.peers.Keys| == |t.peers.Keys| - 1;
    }
  }

  lemma {:induction false} HelloLogged(t: Table, uuid: Uuid, addr: Addr)
    requires Logged(t)
    ensures Logged(Hello(t, uuid, addr)) && Hello(t, uuid, addr).peers.Keys == t.peers.Keys
  {
    var s := Hello(t, uuid, addr);
    assert s.peers.Keys == t.peers.Keys;
    assert |s.peers| == |s.peers.Keys| == |t.peers|;
  }

  lemma {:induction false} EmitLogged(t: Table, ev: Event)
    requires Logged(t)
    requires match ev case TcpMessage(u, _) => u < t.nextUid case UdpMessage(u, _) => u < t.nextUid case _ => false
    ensures Logged(Emit(t, ev))
  {
    Snoc(t.log, ev);
  }

  // ---- What an orderly log says, by position ----

  lemma {:induction false} ReplayBelow(log: seq<Event>)
    requires Orderly(log)
    ensures forall u :: u in Replay(log) ==> u < Joins(log)
    decreases |log|
  {
    if log != [] {
      ReplayBelow(log[..|log|-1]);
    }
  }

  /** Once a uid was issued it is not issued again, and once it left it is gone for good. */
  lemma {:induction false} GoneForGood(log: seq<Event>, i: nat, u: Uid)
    requires Orderly(log) && i <= |log|
    ensures Orderly(log[..i]) && Joins(log[..i]) <= Joins(log)
    ensures u < Joins(log[..i]) && u !in Replay(log[..i]) ==> u !in Replay(log)
    decreases |log|
  {
    if i == |log| {
      assert log[..i] == log;
    } else {
      var front := log[..|log|-1];
      GoneForGood(front, i, u);
      assert front[..i] == log[..i];
    }
  }

  lemma {:induction false} OrderlyAt(log: seq<Event>, i: nat)
    requires Orderly(log) && i < |log|
    ensures Orderly(log[..i+1]) && log[..i+1][..i] == log[..i]
    ensures log[i].NewPeer? ==> log[i].uid == Joins(log[..i]) && log[i].uid in Replay(log[..i+1])
    ensures log[i].PeerDisconnect? ==> log[i].uid in Replay(log[..i]) && log[i].uid !in Replay(log[..i+1])
    ensures log[i].TcpMessage? || log[i].UdpMessage? ==> log[i].from < Joins(log[..i])
    ensures Joins(log[..i+1]) == Joins(log[..i]) + if log[i].NewPeer? then 1 else 0
  {
    GoneForGood(log, i + 1, 0);
    assert log[..i+1][..i] == log[..i];
  }

  /** Every uid issued so far has joined. */
  lemma {:induction false} Joined(log: seq<Event>, u: Uid) returns (j: nat)
    requires Orderly(log) && u < Joins(log)
    ensures j < |log| && log[j] == NewPeer(u)
    decreases |log|
  {
    var front := log[..|log|-1];
    if u < Joins(front) {
      j := Joined(front, u);
    } else {
      j := |log| - 1;
    }
  }

  /** Whoever leaves, or speaks, has joined before. */
  lemma JoinedBefore(log: seq<Event>, k: nat, u: Uid) returns (j: nat)
    requires Orderly(log) && k < |log|
    requires match log[k] case NewPeer(_) => false case PeerDisconnect(v, _) => v == u case TcpMessage(v, _) => v == u case UdpMessage(v, _) => v == u
    ensures j < k && log[j] == NewPeer(u)
  {
    OrderlyAt(log, k);
    GoneForGood(log, k, 0);
    ReplayBelow(log[..k]);
    j := Joined(log[..k], u);
  }

  /** Every uid has at most one NewPeer; at most one PeerDisconnect, which comes after it; and no
      message of a uid comes before its NewPeer. */
  lemma {:induction false} OnceEach(log: seq<Event>, i: nat, j: nat)
    requires Orderly(log) && i < j < |log|
    ensures !(log[i].NewPeer? && log[j].NewPeer? && log[i].uid == log[j].uid)
    ensures !(log[i].PeerDisconnect? && log[j].PeerDisconnect? && log[i].uid == log[j].uid)
    ensures !(log[i].PeerDisconnect? && log[j].NewPeer? && log[i].uid == log[j].uid)
    ensures !((log[i].TcpMessage? || log[i].UdpMessage?) && log[j].NewPeer? && log[i].from == log[j].uid)
  {
    OrderlyAt(log, i);
    OrderlyAt(log, j);
    GoneForGood(log, j, 0);
    assert log[..j][..i+1] == log[..i+1] && log[..j][..i] == log[..i];
    ReplayBelow(log[..i+1]);
    if log[i].NewPeer? || log[i].PeerDisconnect? {
      GoneForGood(log[..j], i + 1, log[i].uid);
    } else {
      GoneForGood(log[..j], i + 1, 0);
    }
    GoneForGood(log[..j], i, 0);
    ReplayBelow(log[..i]);
  }
}
