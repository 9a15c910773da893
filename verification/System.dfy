/** The whole system: the broker with its IO actors, the clients with theirs, and the network.

    Every action is one step of one party, so a run is any interleaving. The network delivers TCP in
    order until a connection ends, and UDP in any order, any number of times or never. */
module System {
  import opened Messages
  import PT = PeerTable
  import S = Server
  import C = Client
  import R = ReadActor
  import W = WriteActor

  /** `clients` has the remote end of each connection made by this library's client; the other
      connections have unknown software at the far end. `uuidOf` and `addrOf` are histories of the
      UUID drawn for, and the TCP address of, each connection ever accepted. `strange` has every UUID
      that was presented before it was drawn for any connection. */
  datatype Sys = Sys(
    srv: S.Server,
    clients: map<Uid, C.Client>,
    uuidOf: map<Uid, Uuid>,
    addrOf: map<Uid, Addr>,
    strange: set<Uuid>)

  function Start(maxConnections: nat): Sys {
    Sys(S.Start(maxConnections), map[], map[], map[], {})
  }

  datatype Action =
    | Broker(b: S.Step, genuine: bool)     // `genuine`: a new connection is this library's client
    | ServerReader(uid: Uid, r: R.Step)
    | ServerWriter(uid: Uid, w: W.Step)
    | ServerUdpReader(r: R.Step)
    | ServerUdpWriter(w: W.Step)
    | ClientActs(uid: Uid, c: C.Step)
    | ClientTcpReader(uid: Uid, r: R.Step)
    | ClientTcpWriter(uid: Uid, w: W.Step)
    | ClientUdpReader(uid: Uid, r: R.Step)
    | ClientUdpWriter(uid: Uid, w: W.Step)
    | TcpUp(uid: Uid)                      // the next item that the client wrote reaches the server
    | TcpUpRaw(uid: Uid, up: Frame<TcpToServer>) // unknown software sends anything at all
    | TcpUpEnds(uid: Uid)                  // the server's side of the stream ends
    | TcpUpFails(uid: Uid)                 // an I/O error is the last thing that it yields
    | TcpDown(uid: Uid)                    // the next item that the server wrote reaches the client
    | TcpDownEnds(uid: Uid)
    | TcpDownFails(uid: Uid)
    | UdpUp(uid: Uid, k: nat)              // any datagram that the client ever wrote reaches the server
    | UdpStranger(d: S.Datagram)           // any other datagram reaches the server, from any address
    | UdpDown(uid: Uid, down: Frame<UdpFromServer>) // any datagram reaches the client

  const MAX_UID: nat := 0xFFFF_FFFF_FFFF_FFFF

  /** What the system relies on when a connection is accepted: its UUID was never seen before, its
      address is not that of a peer still in the table, and the uid counter does not overflow. */
  ghost predicate FreshConnection(s: Sys, addr: Addr, uuid: Uuid) {
    && (forall u :: u in s.uuidOf ==> s.uuidOf[u] != uuid)
    && uuid !in s.strange
    && addr !in s.srv.t.byTcp
    && s.srv.t.nextUid < MAX_UID
  }

  /** A UUID that was drawn for a connection is presented only from the address of that connection. */
  ghost predicate Unguessed(s: Sys, d: S.Datagram) {
    d.frame.Ok? && d.frame.value.Hello? ==>
      forall u :: u in s.uuidOf && s.uuidOf[u] == d.frame.value.uuid ==> u in s.addrOf && s.addrOf[u] == d.from
  }

  /** The UUID that a datagram presents, unless it was drawn for a connection. */
  function Unowned(s: Sys, d: S.Datagram): set<Uuid> {
    if d.frame.Ok? && d.frame.value.Hello? && d.frame.value.uuid !in s.uuidOf.Values then {d.frame.value.uuid} else {}
  }

  predicate Accepts(s: Sys, a: Action) {
    a.Broker? && a.b.Connection? && !PT.AtCapacity(s.srv.t)
  }

  /** What can happen at all. */
  ghost predicate Possible(s: Sys, a: Action) {
    match a
    case Broker(b, _) => S.Staffed(s.srv) && S.Enabled(s.srv, b)
    case ServerReader(uid, r) => uid in s.srv.readers && R.Enabled(s.srv.readers[uid], r)
    case ServerWriter(uid, w) => uid in s.srv.writers && W.Enabled(s.srv.writers[uid], w)
    case ServerUdpReader(r) => R.Enabled(s.srv.udpIn, r)
    case ServerUdpWriter(w) => W.Enabled(s.srv.udpOut, w)
    case ClientActs(uid, c) => uid in s.clients && C.Enabled(s.clients[uid], c)
    case ClientTcpReader(uid, r) => uid in s.clients && R.Enabled(s.clients[uid].tcpIn, r)
    case ClientTcpWriter(uid, w) => uid in s.clients && W.Enabled(s.clients[uid].tcpOut, w)
    case ClientUdpReader(uid, r) => uid in s.clients && R.Enabled(s.clients[uid].udpIn, r)
    case ClientUdpWriter(uid, w) => uid in s.clients && W.Enabled(s.clients[uid].udpOut, w)
    case TcpUp(uid) =>
      uid in s.clients && uid in s.srv.readers && |s.srv.readers[uid].input| < |s.clients[uid].tcpOut.wire|
    case TcpUpRaw(uid, _) => uid !in s.clients && uid in s.srv.readers
    case TcpUpEnds(uid) => uid in s.srv.readers
    case TcpUpFails(uid) => uid in s.srv.readers
    case TcpDown(uid) =>
      uid in s.clients && uid in s.srv.writers && |s.clients[uid].tcpIn.input| < |s.srv.writers[uid].wire|
    case TcpDownEnds(uid) => uid in s.clients
    case TcpDownFails(uid) => uid in s.clients
    case UdpUp(uid, k) => uid in s.clients && k < |s.clients[uid].udpOut.wire|
    case UdpStranger(_) => true
    case UdpDown(uid, _) => uid in s.clients
  }

  ghost predicate Fresh(s: Sys, a: Action) {
    a.Broker? && a.b.Connection? ==> FreshConnection(s, a.b.addr, a.b.uuid)
  }

  /** What happens when the system gets all that it relies on. */
  ghost predicate Enabled(s: Sys, a: Action) {
    Possible(s, a) && Fresh(s, a) && (a.UdpStranger? ==> Unguessed(s, a.d))
  }

  function SetReader(s: Sys, uid: Uid, r: S.TcpReader): Sys {
    s.(srv := s.srv.(readers := s.srv.readers[uid := r]))
  }

  function SetWriter(s: Sys, uid: Uid, w: S.TcpWriter): Sys {
    s.(srv := s.srv.(writers := s.srv.writers[uid := w]))
  }

  function SetUdpIn(s: Sys, r: S.UdpReader): Sys {
    s.(srv := s.srv.(udpIn := r))
  }

  function SetClient(s: Sys, uid: Uid, c: C.Client): Sys {
    s.(clients := s.clients[uid := c])
  }

  function Register(s: Sys, uid: Uid, addr: Addr, uuid: Uuid, genuine: bool): Sys {
    s.(clients := if genuine then s.clients[uid := C.Connect(addr)] else s.clients,
       uuidOf := s.uuidOf[uid := uuid],
       addrOf := s.addrOf[uid := addr])
  }

  /** An I/O error reaches whoever takes the stream's items as data that cannot be decoded, and ends
      the stream. */
  function Broken<T>(r: R.Reader<Frame<T>>): R.Reader<Frame<T>> {
    R.End(R.Arrive(r, Garbage))
  }

  /** The k-th datagram that a client wrote, as the server receives it: from the address to which both
      the client's sockets are bound. */
  function SentBy(c: C.Client, k: nat): S.Datagram
    requires k < |c.udpOut.wire|
  {
    S.Datagram(Ok(c.udpOut.wire[k]), c.addr)
  }

  ghost function Apply(s: Sys, a: Action): Sys
    requires Possible(s, a)
  {
    match a
    case Broker(b, genuine) =>
      var v := s.(srv := S.Apply(s.srv, b));
      if Accepts(s, a) then Register(v, s.srv.t.nextUid, b.addr, b.uuid, genuine) else v
    case ServerReader(uid, r) => SetReader(s, uid, R.Apply(s.srv.readers[uid], r))
    case ServerWriter(uid, w) => SetWriter(s, uid, W.Apply(s.srv.writers[uid], w))
    case ServerUdpReader(r) => SetUdpIn(s, R.Apply(s.srv.udpIn, r))
    case ServerUdpWriter(w) => s.(srv := s.srv.(udpOut := W.Apply(s.srv.udpOut, w)))
    case ClientActs(uid, c) => SetClient(s, uid, C.Apply(s.clients[uid], c))
    case ClientTcpReader(uid, r) =>
      SetClient(s, uid, s.clients[uid].(tcpIn := R.Apply(s.clients[uid].tcpIn, r)))
    case ClientTcpWriter(uid, w) =>
      SetClient(s, uid, s.clients[uid].(tcpOut := W.Apply(s.clients[uid].tcpOut, w)))
    case ClientUdpReader(uid, r) =>
      SetClient(s, uid, s.clients[uid].(udpIn := R.Apply(s.clients[uid].udpIn, r)))
    case ClientUdpWriter(uid, w) =>
      SetClient(s, uid, s.clients[uid].(udpOut := W.Apply(s.clients[uid].udpOut, w)))
    case TcpUp(uid) =>
      var r := s.srv.readers[uid];
      SetReader(s, uid, R.Arrive(r, Ok(s.clients[uid].tcpOut.wire[|r.input|])))
    case TcpUpRaw(uid, f) => SetReader(s, uid, R.Arrive(s.srv.readers[uid], f))
    case TcpUpEnds(uid) => SetReader(s, uid, R.End(s.srv.readers[uid]))
    case TcpUpFails(uid) => SetReader(s, uid, Broken(s.srv.readers[uid]))
    case TcpDown(uid) =>
      var c := s.clients[uid];
      SetClient(s, uid, c.(tcpIn := R.Arrive(c.tcpIn, Ok(s.srv.writers[uid].wire[|c.tcpIn.input|]))))
    case TcpDownEnds(uid) => SetClient(s, uid, s.clients[uid].(tcpIn := R.End(s.clients[uid].tcpIn)))
    case TcpDownFails(uid) => SetClient(s, uid, s.clients[uid].(tcpIn := Broken(s.clients[uid].tcpIn)))
    case UdpUp(uid, k) =>
      SetUdpIn(s, R.Arrive(s.srv.udpIn, SentBy(s.clients[uid], k)))
    case UdpStranger(d) =>
      SetUdpIn(s, R.Arrive(s.srv.udpIn, d)).(strange := s.strange + Unowned(s, d))
    case UdpDown(uid, f) =>
      SetClient(s, uid, s.clients[uid].(udpIn := R.Arrive(s.clients[uid].udpIn, f)))
  }

  // ---- Runs ----

  ghost predicate Next(s: Sys, a: Action, v: Sys) {
    Enabled(s, a) && v == Apply(s, a)
  }

  /** The i-th action leads from the i-th state to the next. */
  ghost predicate StepAt(states: seq<Sys>, actions: seq<Action>, i: nat)
    requires |states| == |actions| + 1 && i < |actions|
  {
    Next(states[i], actions[i], states[i+1])
  }

  /** A finite run: the states passed through, and the action between each two of them. */
  ghost predicate IsRun(states: seq<Sys>, actions: seq<Action>, maxConnections: nat) {
    && |states| == |actions| + 1
    && states[0] == Start(maxConnections)
    && forall i: nat :: i < |actions| ==> StepAt(states, actions, i)
  }

  /** A run goes on with one more action. */
  lemma Act(states: seq<Sys>, actions: seq<Action>, maxConnections: nat, a: Action) returns (ss: seq<Sys>, aa: seq<Action>)
    requires IsRun(states, actions, maxConnections) && Enabled(states[|actions|], a)
    ensures IsRun(ss, aa, maxConnections) && states <= ss && aa == actions + [a]
    ensures ss[|aa|] == Apply(states[|actions|], a)
  {
    ss, aa := states + [Apply(states[|actions|], a)], actions + [a];
    forall i: nat | i < |aa| ensures StepAt(ss, aa, i) {
      if i < |actions| {
        assert StepAt(states, actions, i);
      }
    }
  }

  // ---- Runs in which anybody presents any UUID from anywhere ----

  ghost predicate LooseNext(s: Sys, a: Action, v: Sys) {
    Possible(s, a) && Fresh(s, a) && v == Apply(s, a)
  }

  ghost predicate LooseStepAt(states: seq<Sys>, actions: seq<Action>, i: nat)
    requires |states| == |actions| + 1 && i < |actions|
  {
    LooseNext(states[i], actions[i], states[i+1])
  }

  ghost predicate IsLooseRun(states: seq<Sys>, actions: seq<Action>, maxConnections: nat) {
    && |states| == |actions| + 1
    && states[0] == Start(maxConnections)
    && forall i: nat :: i < |actions| ==> LooseStepAt(states, actions, i)
  }

  lemma RunIsLoose(states: seq<Sys>, actions: seq<Action>, maxConnections: nat)
    requires IsRun(states, actions, maxConnections)
    ensures IsLooseRun(states, actions, maxConnections)
  {
    forall i: nat | i < |actions| ensures LooseStepAt(states, actions, i) {
      assert StepAt(states, actions, i);
    }
  }

  lemma ActLoosely(states: seq<Sys>, actions: seq<Action>, maxConnections: nat, a: Action) returns (ss: seq<Sys>, aa: seq<Action>)
    requires IsLooseRun(states, actions, maxConnections)
    requires Possible(states[|actions|], a) && Fresh(states[|actions|], a)
    ensures IsLooseRun(ss, aa, maxConnections) && ss[|aa|] == Apply(states[|actions|], a)
  {
    ss, aa := states + [Apply(states[|actions|], a)], actions + [a];
    forall i: nat | i < |aa| ensures LooseStepAt(ss, aa, i) {
      if i < |actions| {
        assert LooseStepAt(states, actions, i);
      }
    }
  }
}
