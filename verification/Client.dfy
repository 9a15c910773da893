/** The client actor, with its four IO actors and the handle in front of it. */
module Client {
  import opened Wrappers
  import opened Messages
  import R = ReadActor
  import W = WriteActor

  /** What a client handle may ask for. */
  datatype Request = ToServerTcp(msg: Text) | ToServerUdp(msg: Text) | GetStatus

  datatype Event = TcpReceived(msg: Text) | UdpReceived(msg: Text) | CanSendUdpMessages | CanReceiveUdpMessages

  /** The queue of requests holds 32 plus one for its sender; those from the read actors 64 plus one. */
  const REQUESTS: nat := 33
  const CHANNEL: nat := 65

  /** `addr` is the local address of the TCP stream, to which the UDP socket is bound as well.
      `events` is the history of emitted events, `eventsOpen` says that someone still receives them,
      and `accepted` and `acceptedUdp` are the histories of the messages that the handle accepted.
      Instants are opaque numbers. */
  datatype Client = Client(
    addr: Addr,
    requests: seq<Request>,
    running: bool,
    tcpOut: W.Writer<TcpToServer>,
    udpOut: W.Writer<UdpToServer>,
    tcpIn: R.Reader<Frame<TcpFromServer>>,
    udpIn: R.Reader<Frame<UdpFromServer>>,
    latestUdpHeartbeat: Option<nat>,
    hasReceivedOnUdp: bool,
    events: seq<Event>,
    eventsOpen: bool,
    accepted: seq<TcpToServer>,
    acceptedUdp: seq<UdpToServer>)

  function Connect(addr: Addr): Client {
    Client(addr, [], true, W.Spawn(), W.Spawn(), R.Spawn(CHANNEL), R.Spawn(CHANNEL), None, false, [], true, [], [])
  }

  // ---- The handle ----

  function Submit(c: Client, q: Request): (Client, SendResult) {
    if !c.running then (c, ChannelClosed)
    else if |c.requests| >= REQUESTS then (c, ChannelFull)
    else
      (c.(requests := c.requests + [q],
          accepted := if q.ToServerTcp? then c.accepted + [TcpToServer.App(q.msg)] else c.accepted,
          acceptedUdp := if q.ToServerUdp? then c.acceptedUdp + [UdpToServer.App(q.msg)] else c.acceptedUdp), Sent)
  }

  /** A request is refused only if the actor is gone, or if 33 of them are queued; otherwise it is queued
      behind the others, and its message, if it has one, is accepted. */
  lemma SubmitAnswers(c: Client, q: Request)
    ensures var (d, r) := Submit(c, q);
      && (r == ChannelClosed <==> !c.running) && (r == ChannelFull <==> c.running && |c.requests| >= 33)
      && (r != Sent ==> d == c)
      && (r == Sent ==>
            && d.requests == c.requests + [q]
            && d.accepted == c.accepted + (if q.ToServerTcp? then [TcpToServer.App(q.msg)] else [])
            && d.acceptedUdp == c.acceptedUdp + (if q.ToServerUdp? then [UdpToServer.App(q.msg)] else []))
  {
  }

  // ---- The actor ----

  datatype Incoming =
    | Requested(q: Request)
    | FromTcp(tcp: Frame<TcpFromServer>)
    | FromUdp(udp: Frame<UdpFromServer>, now: nat)
    | HandlesDropped
    | ActorEnded

  function DropWriters(c: Client): Client {
    c.(tcpOut := W.DropHandle(c.tcpOut), udpOut := W.DropHandle(c.udpOut))
  }

  function DropReaders(c: Client): Client {
    c.(tcpIn := R.Close(R.DropHandle(c.tcpIn)), udpIn := R.Close(R.DropHandle(c.udpIn)))
  }

  /** The actor's task is over: its ends of all channels are gone. */
  function Stop(c: Client): Client {
    DropReaders(DropWriters(c.(running := false, requests := [])))
  }

  function Emit(c: Client, e: Event): Client {
    if c.eventsOpen then c.(events := c.events + [e]) else c
  }

  /** An application message that cannot be emitted ends the actor. */
  function EmitOrStop(c: Client, e: Event): Client {
    if c.eventsOpen then Emit(c, e) else Stop(c)
  }

  /** The first thing to arrive on UDP, whatever it is, shows that UDP reaches the client. */
  function NoteUdp(c: Client): Client {
    if c.hasReceivedOnUdp then c else Emit(c.(hasReceivedOnUdp := true), CanReceiveUdpMessages)
  }

  function ReactUdp(c: Client, f: Frame<UdpFromServer>, now: nat): Client {
    match f
    case Ok(Welcome) => c
    case Ok(Heartbeat) => c.(latestUdpHeartbeat := Some(now))
    case Ok(App(msg)) => EmitOrStop(c, UdpReceived(msg))
    case Garbage => Stop(c)
  }

  function ReactTcp(c: Client, f: Frame<TcpFromServer>): Client {
    match f
    case Ok(Welcome(uuid)) => c.(udpOut := W.Offer(c.udpOut, W.Send(Hello(uuid))))
    case Ok(UdpHandshakeAcknowledged) => Emit(c, CanSendUdpMessages)
    case Ok(App(msg)) => EmitOrStop(c, TcpReceived(msg))
    case Garbage => Stop(c)
  }

  /** A request that a write actor refuses ends the actor, as does data that cannot be decoded: both
      are places left unimplemented. */
  function ReactRequest(c: Client, q: Request): Client {
    match q
    case ToServerTcp(msg) =>
      if W.HasRoom(c.tcpOut) then c.(tcpOut := W.Offer(c.tcpOut, W.Send(TcpToServer.App(msg)))) else Stop(c)
    case ToServerUdp(msg) =>
      if W.HasRoom(c.udpOut) then c.(udpOut := W.Offer(c.udpOut, W.Send(UdpToServer.App(msg)))) else Stop(c)
    case GetStatus => c
  }

  /** One turn of the loop. The end of an IO actor is only logged. */
  function React(c: Client, i: Incoming): Client {
    match i
    case Requested(q) => ReactRequest(c, q)
    case FromTcp(f) => ReactTcp(c, f)
    case FromUdp(f, now) => ReactUdp(NoteUdp(c), f, now)
    case HandlesDropped => Stop(c)
    case ActorEnded => c
  }

  /** What a client does: its actor takes the next thing from one of its channels; its handle is used;
      whoever receives its events goes away. */
  datatype Step =
    | TakeRequest
    | TakeTcp
    | TakeUdp(now: nat)
    | LoseHandles
    | Ask(q: Request)
    | DropEvents

  predicate Enabled(c: Client, s: Step) {
    match s
    case TakeRequest => c.running && c.requests != []
    case TakeTcp => c.running && c.tcpIn.out != []
    case TakeUdp(_) => c.running && c.udpIn.out != []
    case LoseHandles => c.running && c.requests == []
    case Ask(_) => true
    case DropEvents => true
  }

  function Apply(c: Client, s: Step): Client
    requires Enabled(c, s)
  {
    match s
    case TakeRequest => React(c.(requests := c.requests[1..]), Requested(c.requests[0]))
    case TakeTcp => React(c.(tcpIn := R.Receive(c.tcpIn)), FromTcp(c.tcpIn.out[0]))
    case TakeUdp(now) => React(c.(udpIn := R.Receive(c.udpIn)), FromUdp(c.udpIn.out[0], now))
    case LoseHandles => React(c, HandlesDropped)
    case Ask(q) => Submit(c, q).0
    case DropEvents => c.(eventsOpen := false)
  }

  // ---- What a step leaves alone ----

  /** The address, what has arrived over TCP and whether more can, and what was written to TCP. */
  predicate SameLinks(c: Client, d: Client) {
    d.addr == c.addr && d.tcpIn.input == c.tcpIn.input && d.tcpIn.ended == c.tcpIn.ended && d.tcpOut.wire == c.tcpOut.wire
  }

  lemma ReactRequestFrame(c: Client, q: Request)
    ensures SameLinks(c, ReactRequest(c, q))
  {
  }

  lemma ReactTcpFrame(c: Client, f: Frame<TcpFromServer>)
    ensures SameLinks(c, ReactTcp(c, f))
  {
  }

  lemma ReactUdpFrame(c: Client, f: Frame<UdpFromServer>, now: nat)
    ensures SameLinks(c, ReactUdp(c, f, now)) && SameLinks(c, NoteUdp(c))
  {
  }

  lemma StepFrame(c: Client, s: Step)
    requires Enabled(c, s)
    ensures SameLinks(c, Apply(c, s))
  {
    match s
    case TakeRequest => ReactRequestFrame(c.(requests := c.requests[1..]), c.requests[0]);
    case TakeTcp => ReactTcpFrame(c.(tcpIn := R.Receive(c.tcpIn)), c.tcpIn.out[0]);
    case TakeUdp(now) =>
      var d := c.(udpIn := R.Receive(c.udpIn));
      ReactUdpFrame(d, c.udpIn.out[0], now);
      ReactUdpFrame(NoteUdp(d), c.udpIn.out[0], now);
    case _ =>
  }

  // ---- Its four IO actors ----

  ghost predicate ActorsOk(c: Client) {
    && W.Inv(c.tcpOut) && W.Inv(c.udpOut) && R.Inv(c.tcpIn) && R.Inv(c.udpIn)
    && c.tcpIn.capacity == 65 && c.udpIn.capacity == 65
    && (c.running ==> c.tcpOut.handle && c.udpOut.handle)
    && (forall m :: m in W.Accepted(c.tcpOut) ==> m.Send?)
    && (forall m :: m in W.Accepted(c.udpOut) ==> m.Send?)
  }

  lemma StopOk(c: Client)
    requires ActorsOk(c)
    ensures ActorsOk(Stop(c))
  {
  }

  lemma SendTcpOk(c: Client, m: TcpToServer)
    requires ActorsOk(c) && c.running
    ensures ActorsOk(c.(tcpOut := W.Offer(c.tcpOut, W.Send(m))))
  {
    W.OfferInv(c.tcpOut, W.Send(m));
    W.OfferAccepted(c.tcpOut, W.Send(m));
  }

  lemma SendUdpOk(c: Client, m: UdpToServer)
    requires ActorsOk(c) && c.running
    ensures ActorsOk(c.(udpOut := W.Offer(c.udpOut, W.Send(m))))
  {
    W.OfferInv(c.udpOut, W.Send(m));
    W.OfferAccepted(c.udpOut, W.Send(m));
  }

  lemma ReactRequestOk(c: Client, q: Request)
    requires ActorsOk(c) && c.running
    ensures ActorsOk(ReactRequest(c, q))
  {
    StopOk(c);
    match q
    case ToServerTcp(msg) => SendTcpOk(c, TcpToServer.App(msg));
    case ToServerUdp(msg) => SendUdpOk(c, UdpToServer.App(msg));
    case GetStatus =>
  }

  lemma ReactTcpOk(c: Client, f: Frame<TcpFromServer>)
    requires ActorsOk(c) && c.running
    ensures ActorsOk(ReactTcp(c, f))
  {
    StopOk(c);
    if f.Ok? && f.value.Welcome? {
      SendUdpOk(c, Hello(f.value.uuid));
    }
  }

  lemma ReactUdpOk(c: Client, f: Frame<UdpFromServer>, now: nat)
    requires ActorsOk(c)
    ensures ActorsOk(ReactUdp(c, f, now))
  {
    StopOk(c);
  }

  lemma NoteUdpOk(c: Client)
    requires ActorsOk(c)
    ensures ActorsOk(NoteUdp(c))
  {
  }

  lemma ReactOk(c: Client, i: Incoming)
    requires ActorsOk(c) && c.running
    ensures ActorsOk(React(c, i))
  {
    match i
    case Requested(q) => ReactRequestOk(c, q);
    case FromTcp(f) => ReactTcpOk(c, f);
    case FromUdp(f, now) =>
      NoteUdpOk(c);
      ReactUdpOk(NoteUdp(c), f, now);
    case HandlesDropped => StopOk(c);
    case ActorEnded =>
  }

  lemma StepOk(c: Client, s: Step)
    requires ActorsOk(c) && Enabled(c, s)
    ensures ActorsOk(Apply(c, s))
  {
    match s
    case TakeRequest => ReactOk(c.(requests := c.requests[1..]), Requested(c.requests[0]));
    case TakeTcp =>
      R.ReceiveInv(c.tcpIn);
      ReactOk(c.(tcpIn := R.Receive(c.tcpIn)), FromTcp(c.tcpIn.out[0]));
    case TakeUdp(now) =>
      R.ReceiveInv(c.udpIn);
      ReactOk(c.(udpIn := R.Receive(c.udpIn)), FromUdp(c.udpIn.out[0], now));
    case LoseHandles => ReactOk(c, HandlesDropped);
    case _ =>
  }

  // ---- Readiness for UDP ----

  /** CanReceiveUdpMessages comes at most once, and before every UDP message. */
  predicate WellAnnounced(es: seq<Event>) {
    es == [] ||
    var front := es[..|es|-1];
    WellAnnounced(front) &&
    match es[|es|-1]
    case UdpReceived(_) => CanReceiveUdpMessages in front
    case CanReceiveUdpMessages => CanReceiveUdpMessages !in front
    case _ => true
  }

  predicate Ready(c: Client) {
    && WellAnnounced(c.events)
    && (CanReceiveUdpMessages in c.events ==> c.hasReceivedOnUdp)
    && (c.hasReceivedOnUdp && c.eventsOpen ==> CanReceiveUdpMessages in c.events)
  }

  lemma EmitSnoc(es: seq<Event>, e: Event)
    ensures (es + [e])[..|es|] == es && (es + [e])[|es|] == e
    ensures forall f :: f in es + [e] <==> f in es || f == e
  {
  }

  lemma {:induction false} EmitReady(c: Client, e: Event)
    requires Ready(c)
    requires match e case CanReceiveUdpMessages => false case UdpReceived(_) => c.hasReceivedOnUdp case _ => true
    ensures Ready(Emit(c, e)) && Ready(EmitOrStop(c, e))
  {
    EmitSnoc(c.events, e);
  }

  lemma {:induction false} NoteUdpReady(c: Client)
    requires Ready(c)
    ensures Ready(NoteUdp(c)) && NoteUdp(c).hasReceivedOnUdp
  {
    EmitSnoc(c.events, CanReceiveUdpMessages);
  }

  lemma ReactTcpReady(c: Client, f: Frame<TcpFromServer>)
    requires Ready(c)
    ensures Ready(ReactTcp(c, f))
  {
    EmitReady(c, CanSendUdpMessages);
    if f.Ok? && f.value.App? {
      EmitReady(c, TcpReceived(f.value.msg));
    }
  }

  lemma ReactUdpReady(c: Client, f: Frame<UdpFromServer>, now: nat)
    requires Ready(c) && c.hasReceivedOnUdp
    ensures Ready(ReactUdp(c, f, now))
  {
    if f.Ok? && f.value.App? {
      EmitReady(c, UdpReceived(f.value.msg));
    }
  }

  lemma ReactReady(c: Client, i: Incoming)
    requires Ready(c)
    ensures Ready(React(c, i))
  {
    if i.FromUdp? {
      NoteUdpReady(c);
      ReactUdpReady(NoteUdp(c), i.udp, i.now);
    } else if i.FromTcp? {
      ReactTcpReady(c, i.tcp);
    }
  }

  lemma StepReady(c: Client, s: Step)
    requires Ready(c) && Enabled(c, s)
    ensures Ready(Apply(c, s))
  {
    match s
    case TakeRequest => ReactReady(c.(requests := c.requests[1..]), Requested(c.requests[0]));
    case TakeTcp => ReactReady(c.(tcpIn := R.Receive(c.tcpIn)), FromTcp(c.tcpIn.out[0]));
    case TakeUdp(now) => ReactReady(c.(udpIn := R.Receive(c.udpIn)), FromUdp(c.udpIn.out[0], now));
    case LoseHandles => ReactReady(c, HandlesDropped);
    case _ =>
  }

  /** The same by position. */
  lemma {:induction false} AnnouncedFirst(es: seq<Event>, i: nat, j: nat)
    requires WellAnnounced(es) && j < |es|
    ensures es[j].UdpReceived? ==> exists k: nat :: k < j && es[k] == CanReceiveUdpMessages
    ensures i < j ==> !(es[i] == CanReceiveUdpMessages && es[j] == CanReceiveUdpMessages)
    decreases |es|
  {
    var front := es[..|es|-1];
    if j < |es| - 1 {
      AnnouncedFirst(front, i, j);
      if es[j].UdpReceived? {
        var k: nat :| k < j && front[k] == CanReceiveUdpMessages;
        assert es[k] == CanReceiveUdpMessages;
      }
    } else if es[j].UdpReceived? {
      var k: nat :| k < |front| && front[k] == CanReceiveUdpMessages;
      assert es[k] == CanReceiveUdpMessages;
    } else if i < j {
      assert front[i] == es[i];
    }
  }

  // ---- The handshake ----

  /** The client only says Hello with a UUID it was welcomed with. */
  ghost predicate HelloEarned(c: Client) {
    forall u: Uuid :: W.Send(Hello(u)) in W.Accepted(c.udpOut) ==>
      Ok(TcpFromServer.Welcome(u)) in c.tcpIn.taken
  }

  lemma ReactTcpHellos(c: Client, f: Frame<TcpFromServer>, u: Uuid)
    requires W.Send(Hello(u)) in W.Accepted(ReactTcp(c, f).udpOut)
    ensures W.Send(Hello(u)) in W.Accepted(c.udpOut) || f == Ok(TcpFromServer.Welcome(u))
    ensures ReactTcp(c, f).tcpIn.taken == c.tcpIn.taken
  {
    if f.Ok? && f.value.Welcome? {
      W.OfferAccepted(c.udpOut, W.Send(Hello(f.value.uuid)));
    }
  }

  lemma ReactRequestHellos(c: Client, q: Request, u: Uuid)
    requires W.Send(Hello(u)) in W.Accepted(ReactRequest(c, q).udpOut)
    ensures W.Send(Hello(u)) in W.Accepted(c.udpOut) && ReactRequest(c, q).tcpIn.taken == c.tcpIn.taken
  {
    if q.ToServerUdp? {
      W.OfferAccepted(c.udpOut, W.Send(UdpToServer.App(q.msg)));
    }
  }

  lemma ReactUdpHellos(c: Client, f: Frame<UdpFromServer>, now: nat)
    ensures W.Accepted(ReactUdp(c, f, now).udpOut) == W.Accepted(c.udpOut)
    ensures ReactUdp(c, f, now).tcpIn.taken == c.tcpIn.taken
  {
  }

  lemma NoteUdpHellos(c: Client)
    ensures NoteUdp(c).udpOut == c.udpOut && NoteUdp(c).tcpIn == c.tcpIn
  {
  }

  lemma StepHellos(c: Client, s: Step, u: Uuid)
    requires HelloEarned(c) && Enabled(c, s)
    requires W.Send(Hello(u)) in W.Accepted(Apply(c, s).udpOut)
    ensures Ok(TcpFromServer.Welcome(u)) in Apply(c, s).tcpIn.taken
  {
    match s
    case TakeTcp => ReactTcpHellos(c.(tcpIn := R.Receive(c.tcpIn)), c.tcpIn.out[0], u);
    case TakeRequest => ReactRequestHellos(c.(requests := c.requests[1..]), c.requests[0], u);
    case TakeUdp(now) =>
      var d := c.(udpIn := R.Receive(c.udpIn));
      NoteUdpHellos(d);
      ReactUdpHellos(NoteUdp(d), c.udpIn.out[0], now);
    case _ =>
  }

  lemma StepHelloEarned(c: Client, s: Step)
    requires HelloEarned(c) && Enabled(c, s)
    ensures HelloEarned(Apply(c, s))
  {
    forall u: Uuid | W.Send(Hello(u)) in W.Accepted(Apply(c, s).udpOut)
      ensures Ok(TcpFromServer.Welcome(u)) in Apply(c, s).tcpIn.taken
    {
      StepHellos(c, s, u);
    }
  }

  function Acks(fs: seq<Frame<TcpFromServer>>): nat {
    if fs == [] then 0 else Acks(fs[..|fs|-1]) + if fs[|fs|-1] == Ok(UdpHandshakeAcknowledged) then 1 else 0
  }

  function CanSends(es: seq<Event>): nat {
    if es == [] then 0 else CanSends(es[..|es|-1]) + if es[|es|-1] == CanSendUdpMessages then 1 else 0
  }

  /** CanSendUdpMessages is emitted at most once for each acknowledgement taken. */
  ghost predicate AcksEarned(c: Client) {
    CanSends(c.events) <= Acks(c.tcpIn.taken)
  }

  lemma {:induction false} CanSendsSnoc(es: seq<Event>, e: Event)
    ensures CanSends(es + [e]) == CanSends(es) + if e == CanSendUdpMessages then 1 else 0
  {
    EmitSnoc(es, e);
  }

  lemma {:induction false} AcksSnoc(fs: seq<Frame<TcpFromServer>>, f: Frame<TcpFromServer>)
    ensures Acks(fs + [f]) == Acks(fs) + if f == Ok(UdpHandshakeAcknowledged) then 1 else 0
  {
    assert (fs + [f])[..|fs|] == fs;
  }

  lemma EmitCanSends(c: Client, e: Event)
    ensures CanSends(Emit(c, e).events) <= CanSends(c.events) + if e == CanSendUdpMessages then 1 else 0
    ensures Emit(c, e).tcpIn == c.tcpIn
    ensures EmitOrStop(c, e).tcpIn.taken == c.tcpIn.taken
    ensures CanSends(EmitOrStop(c, e).events) <= CanSends(c.events) + if e == CanSendUdpMessages then 1 else 0
  {
    CanSendsSnoc(c.events, e);
  }

  lemma ReactTcpCanSends(c: Client, f: Frame<TcpFromServer>)
    ensures ReactTcp(c, f).tcpIn.taken == c.tcpIn.taken
    ensures CanSends(ReactTcp(c, f).events) <= CanSends(c.events) + if f == Ok(UdpHandshakeAcknowledged) then 1 else 0
  {
    if f.Ok? && f.value.UdpHandshakeAcknowledged? {
      EmitCanSends(c, CanSendUdpMessages);
    } else if f.Ok? && f.value.App? {
      EmitCanSends(c, TcpReceived(f.value.msg));
    }
  }

  lemma ReactUdpCanSends(c: Client, f: Frame<UdpFromServer>, now: nat)
    ensures ReactUdp(c, f, now).tcpIn.taken == c.tcpIn.taken
    ensures CanSends(ReactUdp(c, f, now).events) <= CanSends(c.events)
  {
    if f.Ok? && f.value.App? {
      EmitCanSends(c, UdpReceived(f.value.msg));
    }
  }

  lemma TakeTcpAcksEarned(c: Client)
    requires AcksEarned(c) && Enabled(c, TakeTcp)
    ensures AcksEarned(Apply(c, TakeTcp))
  {
    var f := c.tcpIn.out[0];
    AcksSnoc(c.tcpIn.taken, f);
    ReactTcpCanSends(c.(tcpIn := R.Receive(c.tcpIn)), f);
  }

  lemma TakeUdpAcksEarned(c: Client, now: nat)
    requires AcksEarned(c) && Enabled(c, TakeUdp(now))
    ensures AcksEarned(Apply(c, TakeUdp(now)))
  {
    var d := c.(udpIn := R.Receive(c.udpIn));
    EmitCanSends(d.(hasReceivedOnUdp := true), CanReceiveUdpMessages);
    ReactUdpCanSends(NoteUdp(d), c.udpIn.out[0], now);
  }

  lemma RequestAcksEarned(c: Client, q: Request)
    ensures ReactRequest(c, q).events == c.events && ReactRequest(c, q).tcpIn.taken == c.tcpIn.taken
  {
  }

  lemma OtherAcksEarned(c: Client, s: Step)
    requires AcksEarned(c) && Enabled(c, s) && !s.TakeTcp? && !s.TakeUdp?
    ensures AcksEarned(Apply(c, s))
  {
    if s.TakeRequest? {
      RequestAcksEarned(c.(requests := c.requests[1..]), c.requests[0]);
    }
  }

  lemma StepAcksEarned(c: Client, s: Step)
    requires AcksEarned(c) && Enabled(c, s)
    ensures AcksEarned(Apply(c, s))
  {
    if s.TakeTcp? {
      TakeTcpAcksEarned(c);
    } else if s.TakeUdp? {
      TakeUdpAcksEarned(c, s.now);
    } else {
      OtherAcksEarned(c, s);
    }
  }

  // ---- TCP messages on their way out ----

  function TcpPart(qs: seq<Request>): seq<TcpToServer> {
    if qs == [] then []
    else (if qs[0].ToServerTcp? then [TcpToServer.App(qs[0].msg)] else []) + TcpPart(qs[1..])
  }

  /** Every TCP message that the handle accepted was passed to the write actor or is still queued, in
      order; once the actor has stopped, what was passed on is a prefix of what was accepted. */
  ghost predicate Carried(c: Client) {
    && W.Owed(W.Accepted(c.tcpOut)) <= c.accepted
    && (c.running ==> c.accepted == W.Owed(W.Accepted(c.tcpOut)) + TcpPart(c.requests))
  }

  lemma {:induction false} TcpPartSnoc(qs: seq<Request>, q: Request)
    ensures TcpPart(qs + [q]) == TcpPart(qs) + TcpPart([q])
    ensures TcpPart([q]) == if q.ToServerTcp? then [TcpToServer.App(q.msg)] else []
  {
    assert [q][1..] == [] && TcpPart([q]) == TcpPart([q][..1]);
    if qs == [] {
      assert qs + [q] == [q];
    } else {
      assert (qs + [q])[1..] == qs[1..] + [q];
      TcpPartSnoc(qs[1..], q);
      var first := if qs[0].ToServerTcp? then [TcpToServer.App(qs[0].msg)] else [];
      assert first + (TcpPart(qs[1..]) + TcpPart([q])) == (first + TcpPart(qs[1..])) + TcpPart([q]);
    }
  }

  /** A message passed on is owed by the write actor. */
  lemma PassedOn(c: Client, msg: Text)
    requires ActorsOk(c)
    ensures var w := W.Offer(c.tcpOut, W.Send(TcpToServer.App(msg)));
      W.HasRoom(c.tcpOut) ==> W.Owed(W.Accepted(w)) == W.Owed(W.Accepted(c.tcpOut)) + [TcpToServer.App(msg)]
  {
    W.OfferAccepted(c.tcpOut, W.Send(TcpToServer.App(msg)));
    W.OwedSend(W.Accepted(c.tcpOut), TcpToServer.App(msg));
  }

  lemma RequestCarried(c: Client)
    requires Carried(c) && ActorsOk(c) && Enabled(c, TakeRequest) && c.requests[0].ToServerTcp?
    ensures Carried(Apply(c, TakeRequest))
  {
    var msg := c.requests[0].msg;
    assert TcpPart(c.requests) == [TcpToServer.App(msg)] + TcpPart(c.requests[1..]);
    MessageCarried(c.(requests := c.requests[1..]), msg);
  }

  /** The message is the next of those that are still to be passed on. */
  lemma MessageCarried(d: Client, msg: Text)
    requires ActorsOk(d) && d.running
    requires d.accepted == W.Owed(W.Accepted(d.tcpOut)) + ([TcpToServer.App(msg)] + TcpPart(d.requests))
    ensures Carried(ReactRequest(d, ToServerTcp(msg)))
  {
    PassedOn(d, msg);
    var passed := W.Owed(W.Accepted(d.tcpOut));
    assert passed + ([TcpToServer.App(msg)] + TcpPart(d.requests)) == (passed + [TcpToServer.App(msg)]) + TcpPart(d.requests);
  }

  lemma AskCarried(c: Client, q: Request)
    requires Carried(c)
    ensures Carried(Submit(c, q).0)
  {
    TcpPartSnoc(c.requests, q);
    var passed := W.Owed(W.Accepted(c.tcpOut));
    assert passed + (TcpPart(c.requests) + TcpPart([q])) == (passed + TcpPart(c.requests)) + TcpPart([q]);
  }

  lemma StopCarried(c: Client)
    requires Carried(c)
    ensures Carried(Stop(c))
  {
  }

  /** Reactions other than to a request leave what was passed on, and what is queued, alone. */
  lemma ReactTcpCarried(c: Client, f: Frame<TcpFromServer>)
    requires Carried(c)
    ensures Carried(ReactTcp(c, f))
  {
    StopCarried(c);
  }

  lemma ReactUdpCarried(c: Client, f: Frame<UdpFromServer>, now: nat)
    requires Carried(c)
    ensures Carried(ReactUdp(c, f, now)) && Carried(NoteUdp(c))
  {
    StopCarried(c);
  }

  lemma ReactCarried(c: Client, i: Incoming)
    requires Carried(c) && !i.Requested?
    ensures Carried(React(c, i))
  {
    match i
    case FromTcp(f) => ReactTcpCarried(c, f);
    case FromUdp(f, now) =>
      ReactUdpCarried(c, f, now);
      ReactUdpCarried(NoteUdp(c), f, now);
    case HandlesDropped => StopCarried(c);
    case ActorEnded =>
  }

  /** A request that is not for TCP leaves that alone as well. */
  lemma OtherRequest(c: Client, q: Request)
    requires Carried(c) && !q.ToServerTcp?
    ensures Carried(ReactRequest(c, q))
  {
    StopCarried(c);
  }

  lemma OtherRequestTaken(c: Client)
    requires Carried(c) && c.requests != [] && !c.requests[0].ToServerTcp?
    ensures Carried(c.(requests := c.requests[1..]))
  {
    assert TcpPart(c.requests) == [] + TcpPart(c.requests[1..]);
  }

  lemma OtherRequestCarried(c: Client)
    requires Carried(c) && Enabled(c, TakeRequest) && !c.requests[0].ToServerTcp?
    ensures Carried(Apply(c, TakeRequest))
  {
    OtherRequestTaken(c);
    OtherRequest(c.(requests := c.requests[1..]), c.requests[0]);
  }

  lemma TakeRequestCarried(c: Client)
    requires Carried(c) && ActorsOk(c) && Enabled(c, TakeRequest)
    ensures Carried(Apply(c, TakeRequest))
  {
    if c.requests[0].ToServerTcp? {
      RequestCarried(c);
    } else {
      OtherRequestCarried(c);
    }
  }

  lemma StepCarried(c: Client, s: Step)
    requires Carried(c) && ActorsOk(c) && Enabled(c, s)
    ensures Carried(Apply(c, s))
  {
    match s
    case TakeRequest => TakeRequestCarried(c);
    case TakeTcp => ReactCarried(c.(tcpIn := R.Receive(c.tcpIn)), FromTcp(c.tcpIn.out[0]));
    case TakeUdp(now) => ReactCarried(c.(udpIn := R.Receive(c.udpIn)), FromUdp(c.udpIn.out[0], now));
    case LoseHandles => ReactCarried(c, HandlesDropped);
    case Ask(q) => AskCarried(c, q);
    case DropEvents =>
  }

  // ---- The actor as code ----

  /** The loop's effect: incoming things are reacted to one by one until the actor stops. */
  function ReactAll(c: Client, incoming: seq<Incoming>): Client
    decreases |incoming|
  {
    if incoming == [] || !c.running then c else ReactAll(React(c, incoming[0]), incoming[1..])
  }

  /** Whatever comes in, in whatever order, readiness for UDP is announced once and first. */
  lemma {:induction false} ReactAllReady(c: Client, incoming: seq<Incoming>)
    requires Ready(c)
    ensures Ready(ReactAll(c, incoming))
    decreases |incoming|
  {
    if incoming != [] && c.running {
      ReactReady(c, incoming[0]);
      ReactAllReady(React(c, incoming[0]), incoming[1..]);
    }
  }

  class ClientActor {
    const addr: Addr
    var requests: seq<Request>
    var running: bool
    var tcpOut: W.Writer<TcpToServer>
    var udpOut: W.Writer<UdpToServer>
    var tcpIn: R.Reader<Frame<TcpFromServer>>
    var udpIn: R.Reader<Frame<UdpFromServer>>
    var latestUdpHeartbeat: Option<nat>
    var hasReceivedOnUdp: bool
    var events: seq<Event>
    var eventsOpen: bool
    ghost var accepted: seq<TcpToServer>
    ghost var acceptedUdp: seq<UdpToServer>

    ghost function View(): Client
      reads this
    {
      Client(addr, requests, running, tcpOut, udpOut, tcpIn, udpIn, latestUdpHeartbeat, hasReceivedOnUdp,
             events, eventsOpen, accepted, acceptedUdp)
    }

    constructor (addr: Addr)
      ensures View() == Connect(addr)
    {
      this.addr := addr;
      requests, running := [], true;
      tcpOut, udpOut, tcpIn, udpIn := W.Spawn(), W.Spawn(), R.Spawn(CHANNEL), R.Spawn(CHANNEL);
      latestUdpHeartbeat, hasReceivedOnUdp, events, eventsOpen := None, false, [], true;
      accepted, acceptedUdp := [], [];
    }

    /** A request of the client handle. */
    method Request(q: Request) returns (r: SendResult)
      modifies this`requests, this`accepted, this`acceptedUdp
      ensures (View(), r) == Submit(old(View()), q)
      ensures r == ChannelClosed <==> !running
      ensures r == ChannelFull <==> running && |old(requests)| >= 33
      ensures requests == if r.Sent? then old(requests) + [q] else old(requests)
    {
      if !running {
        return ChannelClosed;
      }
      if |requests| >= REQUESTS {
        return ChannelFull;
      }
      requests := requests + [q];
      if q.ToServerTcp? {
        accepted := accepted + [TcpToServer.App(q.msg)];
      }
      if q.ToServerUdp? {
        acceptedUdp := acceptedUdp + [UdpToServer.App(q.msg)];
      }
      return Sent;
    }

    method LetWritersGo()
      modifies this`tcpOut, this`udpOut
      ensures View() == DropWriters(old(View()))
    {
      tcpOut, udpOut := W.DropHandle(tcpOut), W.DropHandle(udpOut);
    }

    method LetReadersGo()
      modifies this`tcpIn, this`udpIn
      ensures View() == DropReaders(old(View()))
    {
      tcpIn, udpIn := R.Close(R.DropHandle(tcpIn)), R.Close(R.DropHandle(udpIn));
    }

    /** Leaving the loop drops the actor's end of every channel. */
    method Finish()
      modifies this`running, this`requests, this`tcpOut, this`udpOut, this`tcpIn, this`udpIn
      ensures View() == Stop(old(View()))
    {
      running, requests := false, [];
      assert View() == old(View()).(running := false, requests := []);
      LetWritersGo();
      LetReadersGo();
    }

    method OnRequest(q: Request)
      modifies this
      ensures View() == ReactRequest(old(View()), q)
    {
      match q
      case ToServerTcp(msg) =>
        var (w, r) := W.TrySend(tcpOut, W.Send(TcpToServer.App(msg)));
        tcpOut := w;
        if !r.Sent? {
          Finish();
        }
      case ToServerUdp(msg) =>
        var (w, r) := W.TrySend(udpOut, W.Send(UdpToServer.App(msg)));
        udpOut := w;
        if !r.Sent? {
          Finish();
        }
      case GetStatus =>
    }

    method OnTcp(f: Frame<TcpFromServer>)
      modifies this
      ensures View() == ReactTcp(old(View()), f)
    {
      match f
      case Ok(Welcome(uuid)) => udpOut := W.Offer(udpOut, W.Send(Hello(uuid)));
      case Ok(UdpHandshakeAcknowledged) =>
        if eventsOpen {
          events := events + [CanSendUdpMessages];
        }
      case Ok(App(msg)) =>
        if eventsOpen {
          events := events + [TcpReceived(msg)];
        } else {
          Finish();
        }
      case Garbage => Finish();
    }

    method OnUdp(f: Frame<UdpFromServer>, now: nat)
      modifies this
      ensures View() == ReactUdp(NoteUdp(old(View())), f, now)
    {
      if !hasReceivedOnUdp {
        hasReceivedOnUdp := true;
        if eventsOpen {
          events := events + [CanReceiveUdpMessages];
        }
      }
      assert View() == NoteUdp(old(View()));
      match f
      case Ok(Welcome) =>
      case Ok(Heartbeat) => latestUdpHeartbeat := Some(now);
      case Ok(App(msg)) =>
        if eventsOpen {
          events := events + [UdpReceived(msg)];
        } else {
          Finish();
        }
      case Garbage => Finish();
    }

    /** The actor's loop over everything that comes out of its merged streams. */
    method Actor(incoming: seq<Incoming>)
      modifies this
      ensures View() == ReactAll(old(View()), incoming)
      ensures old(Ready(View())) ==> WellAnnounced(events)
    {
      ghost var start := View();
      var i := 0;
      assert incoming[0..] == incoming;
      while running && i < |incoming|
        invariant i <= |incoming|
        invariant ReactAll(View(), incoming[i..]) == ReactAll(start, incoming)
        decreases |incoming| - i
      {
        assert incoming[i..][0] == incoming[i] && incoming[i..][1..] == incoming[i+1..];
        match incoming[i] {
          case Requested(q) => OnRequest(q);
          case FromTcp(f) => OnTcp(f);
          case FromUdp(f, now) => OnUdp(f, now);
          case HandlesDropped => Finish();
          case ActorEnded =>
        }
        i := i + 1;
      }
      if Ready(start) {
        ReactAllReady(start, incoming);
      }
    }
  }
}
