/** What a client's user gets to hear, and what of it comes of what the user asked for. */
module ClientEvents {
  import opened Wrappers
  import opened Messages
  import opened Client
  import C = Client
  import R = ReadActor
  import W = WriteActor

  // ---- Messages and texts ----

  function TcpTexts(es: seq<C.Event>): seq<Text> {
    if es == [] then []
    else TcpTexts(es[..|es|-1]) + if es[|es|-1].TcpReceived? then [es[|es|-1].msg] else []
  }

  function UdpTexts(es: seq<C.Event>): seq<Text> {
    if es == [] then []
    else UdpTexts(es[..|es|-1]) + if es[|es|-1].UdpReceived? then [es[|es|-1].msg] else []
  }

  /** The texts of the application's messages among what was received. */
  function TcpApps(fs: seq<Frame<TcpFromServer>>): seq<Text> {
    if fs == [] then []
    else
      var f := fs[|fs|-1];
      TcpApps(fs[..|fs|-1]) + if f.Ok? && f.value.App? then [f.value.msg] else []
  }

  function UdpApps(fs: seq<Frame<UdpFromServer>>): seq<Text> {
    if fs == [] then []
    else
      var f := fs[|fs|-1];
      UdpApps(fs[..|fs|-1]) + if f.Ok? && f.value.App? then [f.value.msg] else []
  }

  /** The application's messages among those handed to the UDP write actor. */
  function Apps(ms: seq<UdpToServer>): seq<UdpToServer> {
    if ms == [] then [] else Apps(ms[..|ms|-1]) + if ms[|ms|-1].App? then [ms[|ms|-1]] else []
  }

  function UdpPart(qs: seq<Request>): seq<UdpToServer> {
    if qs == [] then []
    else (if qs[0].ToServerUdp? then [UdpToServer.App(qs[0].msg)] else []) + UdpPart(qs[1..])
  }

  lemma {:induction false} TcpAppsSnoc(fs: seq<Frame<TcpFromServer>>, f: Frame<TcpFromServer>)
    ensures TcpApps(fs + [f]) == TcpApps(fs) + if f.Ok? && f.value.App? then [f.value.msg] else []
  {
    assert (fs + [f])[..|fs|] == fs;
  }

  lemma {:induction false} UdpAppsSnoc(fs: seq<Frame<UdpFromServer>>, f: Frame<UdpFromServer>)
    ensures UdpApps(fs + [f]) == UdpApps(fs) + if f.Ok? && f.value.App? then [f.value.msg] else []
  {
    assert (fs + [f])[..|fs|] == fs;
  }

  lemma {:induction false} AppsSnoc(ms: seq<UdpToServer>, m: UdpToServer)
    ensures Apps(ms + [m]) == Apps(ms) + if m.App? then [m] else []
  {
    assert (ms + [m])[..|ms|] == ms;
  }

  lemma {:induction false} UdpPartSnoc(qs: seq<Request>, q: Request)
    ensures UdpPart(qs + [q]) == UdpPart(qs) + UdpPart([q])
    ensures UdpPart([q]) == if q.ToServerUdp? then [UdpToServer.App(q.msg)] else []
  {
    assert [q][1..] == [] && UdpPart([q]) == UdpPart([q][..1]);
    if qs == [] {
      assert qs + [q] == [q];
    } else {
      assert (qs + [q])[1..] == qs[1..] + [q];
      UdpPartSnoc(qs[1..], q);
      var first := if qs[0].ToServerUdp? then [UdpToServer.App(qs[0].msg)] else [];
      assert first + (UdpPart(qs[1..]) + UdpPart([q])) == (first + UdpPart(qs[1..])) + UdpPart([q]);
    }
  }

  // ---- What one step does, by what the step is ----

  /** The events that a step of the client emits, if someone still receives them: each application message
      that is taken, each acknowledgement as leave to send over UDP, and with the very first arrival on
      UDP, whatever it is, the news that UDP reaches the client. */
  function EventsFor(c: Client, s: Step): seq<C.Event>
    requires Enabled(c, s)
  {
    if !c.eventsOpen then []
    else
      match s
      case TakeTcp =>
        (match c.tcpIn.out[0]
         case Ok(App(msg)) => [TcpReceived(msg)]
         case Ok(UdpHandshakeAcknowledged) => [CanSendUdpMessages]
         case _ => [])
      case TakeUdp(_) =>
        (if c.hasReceivedOnUdp then [] else [CanReceiveUdpMessages]) +
        (match c.udpIn.out[0]
         case Ok(App(msg)) => [UdpReceived(msg)]
         case _ => [])
      case _ => []
  }

  /** When a step stops the client: when its handles are gone, a write actor refuses a request, something
      cannot be decoded, or an application message has nobody to go to. */
  predicate Stops(c: Client, s: Step)
    requires Enabled(c, s)
  {
    match s
    case LoseHandles => true
    case TakeRequest =>
      || (c.requests[0].ToServerTcp? && !W.HasRoom(c.tcpOut))
      || (c.requests[0].ToServerUdp? && !W.HasRoom(c.udpOut))
    case TakeTcp => c.tcpIn.out[0].Garbage? || (c.tcpIn.out[0].value.App? && !c.eventsOpen)
    case TakeUdp(_) => c.udpIn.out[0].Garbage? || (c.udpIn.out[0].value.App? && !c.eventsOpen)
    case _ => false
  }

  /** What a step hands to the UDP write actor: a Hello for a Welcome, and the message of a request. */
  function HandedUdp(c: Client, s: Step): Option<UdpToServer>
    requires Enabled(c, s)
  {
    if s.TakeTcp? && c.tcpIn.out[0].Ok? && c.tcpIn.out[0].value.Welcome? then Some(Hello(c.tcpIn.out[0].value.uuid))
    else if s.TakeRequest? && c.requests[0].ToServerUdp? then Some(UdpToServer.App(c.requests[0].msg))
    else None
  }

  function HandedTcp(c: Client, s: Step): Option<TcpToServer>
    requires Enabled(c, s)
  {
    if s.TakeRequest? && c.requests[0].ToServerTcp? then Some(TcpToServer.App(c.requests[0].msg)) else None
  }

  /** What a write actor has accepted after it was handed something, or nothing. */
  function AcceptedAfter<T>(w: W.Writer<T>, m: Option<T>): seq<W.Msg<T>> {
    W.Accepted(w) + if m.Some? && W.HasRoom(w) then [W.Send(m.value)] else []
  }

  /** A step does what the functions above say. */
  ghost predicate Does(c: Client, s: Step, d: Client)
    requires Enabled(c, s)
  {
    && d.events == c.events + EventsFor(c, s)
    && (d.running <==> c.running && !Stops(c, s))
    && W.Accepted(d.tcpOut) == AcceptedAfter(c.tcpOut, HandedTcp(c, s))
    && W.Accepted(d.udpOut) == AcceptedAfter(c.udpOut, HandedUdp(c, s))
  }

  lemma TcpDoes(c: Client)
    requires Enabled(c, TakeTcp)
    ensures Does(c, TakeTcp, Apply(c, TakeTcp))
  {
  }

  lemma UdpDoes(c: Client, now: nat)
    requires Enabled(c, TakeUdp(now))
    ensures Does(c, TakeUdp(now), Apply(c, TakeUdp(now)))
  {
    var d := c.(udpIn := R.Receive(c.udpIn));
    var first := if c.eventsOpen && !c.hasReceivedOnUdp then [CanReceiveUdpMessages] else [];
    assert NoteUdp(d).events == c.events + first;
    FromUdpDoes(NoteUdp(d), c.udpIn.out[0], now);
  }

  lemma FromUdpDoes(d: Client, f: Frame<UdpFromServer>, now: nat)
    ensures var v := ReactUdp(d, f, now);
      && v.events == d.events + (if d.eventsOpen && f.Ok? && f.value.App? then [UdpReceived(f.value.msg)] else [])
      && (v.running <==> d.running && !(f.Garbage? || (f.value.App? && !d.eventsOpen)))
      && W.Accepted(v.tcpOut) == W.Accepted(d.tcpOut) && W.Accepted(v.udpOut) == W.Accepted(d.udpOut)
  {
  }

  lemma RequestDoes(c: Client)
    requires Enabled(c, TakeRequest)
    ensures Does(c, TakeRequest, Apply(c, TakeRequest))
  {
  }

  lemma StepDoes(c: Client, s: Step)
    requires Enabled(c, s)
    ensures Does(c, s, Apply(c, s))
  {
    match s
    case TakeTcp => TcpDoes(c);
    case TakeUdp(now) => UdpDoes(c, now);
    case TakeRequest => RequestDoes(c);
    case _ =>
  }

  /** What a step takes, and what it notes of the heartbeat; and what only the user does. */
  ghost predicate Takes(c: Client, s: Step, d: Client)
    requires Enabled(c, s)
  {
    && d.tcpIn.taken == c.tcpIn.taken + (if s.TakeTcp? then [c.tcpIn.out[0]] else [])
    && d.udpIn.taken == c.udpIn.taken + (if s.TakeUdp? then [c.udpIn.out[0]] else [])
    && (d.hasReceivedOnUdp <==> c.hasReceivedOnUdp || s.TakeUdp?)
    && d.latestUdpHeartbeat == (if s.TakeUdp? && c.udpIn.out[0] == Ok(Heartbeat) then Some(s.now) else c.latestUdpHeartbeat)
    && (d.eventsOpen <==> c.eventsOpen && !s.DropEvents?)
  }

  lemma StepTakes(c: Client, s: Step)
    requires Enabled(c, s)
    ensures Takes(c, s, Apply(c, s))
  {
    match s
    case TakeTcp => TcpTakes(c);
    case TakeUdp(now) => UdpTakes(c, now);
    case TakeRequest => RequestTakes(c);
    case _ =>
  }

  lemma TcpTakes(c: Client)
    requires Enabled(c, TakeTcp)
    ensures var d := Apply(c, TakeTcp);
      && d.tcpIn.taken == c.tcpIn.taken + [c.tcpIn.out[0]] && d.udpIn.taken == c.udpIn.taken
      && d.hasReceivedOnUdp == c.hasReceivedOnUdp && d.latestUdpHeartbeat == c.latestUdpHeartbeat
      && d.eventsOpen == c.eventsOpen
  {
  }

  lemma UdpTakes(c: Client, now: nat)
    requires Enabled(c, TakeUdp(now))
    ensures var d := Apply(c, TakeUdp(now));
      && d.udpIn.taken == c.udpIn.taken + [c.udpIn.out[0]] && d.tcpIn.taken == c.tcpIn.taken
      && d.hasReceivedOnUdp && d.eventsOpen == c.eventsOpen
      && d.latestUdpHeartbeat == (if c.udpIn.out[0] == Ok(Heartbeat) then Some(now) else c.latestUdpHeartbeat)
  {
  }

  lemma RequestTakes(c: Client)
    requires Enabled(c, TakeRequest)
    ensures var d := Apply(c, TakeRequest);
      && d.udpIn.taken == c.udpIn.taken && d.tcpIn.taken == c.tcpIn.taken
      && d.hasReceivedOnUdp == c.hasReceivedOnUdp && d.latestUdpHeartbeat == c.latestUdpHeartbeat
      && d.eventsOpen == c.eventsOpen
  {
    ReactRequestTakes(c.(requests := c.requests[1..]), c.requests[0]);
  }

  lemma ReactRequestTakes(c: Client, q: Request)
    ensures var d := ReactRequest(c, q);
      && d.udpIn.taken == c.udpIn.taken && d.tcpIn.taken == c.tcpIn.taken
      && d.hasReceivedOnUdp == c.hasReceivedOnUdp && d.latestUdpHeartbeat == c.latestUdpHeartbeat
      && d.eventsOpen == c.eventsOpen
  {
  }

  // ---- What holds at every moment ----

  /** As long as the client runs its user has heard everything; afterwards, the beginning of it. */
  predicate HeardAll(heard: seq<Text>, said: seq<Text>, running: bool) {
    heard <= said && (running ==> heard == said)
  }

  /** The user has heard the messages that were taken, in order; with someone listening, one leave to send
      per acknowledgement; and the client knows whether UDP, and whether a heartbeat, has reached it. */
  ghost predicate Heard(c: Client) {
    && HeardAll(TcpTexts(c.events), TcpApps(c.tcpIn.taken), c.running)
    && HeardAll(UdpTexts(c.events), UdpApps(c.udpIn.taken), c.running)
    && (c.eventsOpen ==> CanSends(c.events) == Acks(c.tcpIn.taken))
    && (c.hasReceivedOnUdp <==> c.udpIn.taken != [])
    && (c.latestUdpHeartbeat.Some? <==> Ok(Heartbeat) in c.udpIn.taken)
  }

  /** The UDP messages that the handle accepted are those that were handed to the write actor and those
      still queued, in order; once the client has stopped, what was handed on is the beginning of them. */
  ghost predicate UdpCarried(c: Client) {
    && Apps(W.Owed(W.Accepted(c.udpOut))) <= c.acceptedUdp
    && (c.running ==> c.acceptedUdp == Apps(W.Owed(W.Accepted(c.udpOut))) + UdpPart(c.requests))
  }

  /** The texts and leaves among the events of one step. */
  lemma EventsHeard(c: Client, s: Step)
    requires Enabled(c, s)
    ensures var es := EventsFor(c, s);
      && TcpTexts(c.events + es) == TcpTexts(c.events) + TcpTexts(es)
      && UdpTexts(c.events + es) == UdpTexts(c.events) + UdpTexts(es)
      && CanSends(c.events + es) == CanSends(c.events) + CanSends(es)
  {
    EventsAppend(c.events, EventsFor(c, s));
  }

  lemma {:induction false} EventsAppend(a: seq<C.Event>, b: seq<C.Event>)
    ensures TcpTexts(a + b) == TcpTexts(a) + TcpTexts(b)
    ensures UdpTexts(a + b) == UdpTexts(a) + UdpTexts(b)
    ensures CanSends(a + b) == CanSends(a) + CanSends(b)
    decreases |b|
  {
    if b == [] {
      assert a + b == a;
    } else {
      assert (a + b)[..|a + b|-1] == a + b[..|b|-1];
      EventsAppend(a, b[..|b|-1]);
    }
  }

  /** What one step lets the user hear is what it takes. */
  lemma StepLetsHear(c: Client, s: Step)
    requires Enabled(c, s)
    ensures var es := EventsFor(c, s);
      && (c.eventsOpen ==>
            && TcpTexts(es) == (if s.TakeTcp? then TcpApps([c.tcpIn.out[0]]) else [])
            && UdpTexts(es) == (if s.TakeUdp? then UdpApps([c.udpIn.out[0]]) else [])
            && CanSends(es) == (if s.TakeTcp? then Acks([c.tcpIn.out[0]]) else 0))
      && (!c.eventsOpen ==> TcpTexts(es) == [] && UdpTexts(es) == [])
  {
    var es := EventsFor(c, s);
    OneEvent(es);
    if s.TakeTcp? {
      assert [c.tcpIn.out[0]][..0] == [];
    } else if s.TakeUdp? {
      assert [c.udpIn.out[0]][..0] == [];
    }
  }

  lemma OneEvent(es: seq<C.Event>)
    requires |es| <= 2
    ensures |es| == 1 ==> TcpTexts(es) == (if es[0].TcpReceived? then [es[0].msg] else [])
    ensures |es| == 1 ==> UdpTexts(es) == (if es[0].UdpReceived? then [es[0].msg] else [])
    ensures |es| == 1 ==> CanSends(es) == (if es[0] == CanSendUdpMessages then 1 else 0)
    ensures |es| == 2 && es[0] == CanReceiveUdpMessages ==>
      && TcpTexts(es) == (if es[1].TcpReceived? then [es[1].msg] else [])
      && UdpTexts(es) == (if es[1].UdpReceived? then [es[1].msg] else [])
      && CanSends(es) == (if es[1] == CanSendUdpMessages then 1 else 0)
  {
    if |es| == 1 {
      assert es[..0] == [];
    } else if |es| == 2 {
      assert es[..1][..0] == [];
      assert es[..1][0] == es[0];
      var one := es[..1];
      assert TcpTexts(one) == TcpTexts(one[..0]) + if one[0].TcpReceived? then [one[0].msg] else [];
      assert UdpTexts(one) == UdpTexts(one[..0]) + if one[0].UdpReceived? then [one[0].msg] else [];
      assert CanSends(one) == CanSends(one[..0]) + if one[0] == CanSendUdpMessages then 1 else 0;
    }
  }

  lemma OneTaken(f: Frame<TcpFromServer>, g: Frame<UdpFromServer>)
    ensures TcpApps([f]) == if f.Ok? && f.value.App? then [f.value.msg] else []
    ensures UdpApps([g]) == if g.Ok? && g.value.App? then [g.value.msg] else []
    ensures Acks([f]) == if f == Ok(UdpHandshakeAcknowledged) then 1 else 0
  {
    assert [f][..0] == [] && [g][..0] == [];
  }

  lemma TcpHeard(c: Client, d: Client)
    requires Heard(c) && Enabled(c, TakeTcp) && Does(c, TakeTcp, d) && Takes(c, TakeTcp, d)
    ensures Heard(d)
  {
    var f := c.tcpIn.out[0];
    EventsHeard(c, TakeTcp);
    StepLetsHear(c, TakeTcp);
    TcpAppsSnoc(c.tcpIn.taken, f);
    AcksSnoc(c.tcpIn.taken, f);
    OneTaken(f, Garbage);
    assert c.udpIn.taken + [] == c.udpIn.taken;
  }

  lemma UdpHeard(c: Client, s: Step, d: Client)
    requires Heard(c) && Enabled(c, s) && s.TakeUdp? && Does(c, s, d) && Takes(c, s, d)
    ensures Heard(d)
  {
    var g := c.udpIn.out[0];
    EventsHeard(c, s);
    StepLetsHear(c, s);
    UdpAppsSnoc(c.udpIn.taken, g);
    OneTaken(Garbage, g);
    assert c.tcpIn.taken + [] == c.tcpIn.taken;
  }

  lemma OtherHeard(c: Client, s: Step, d: Client)
    requires Heard(c) && Enabled(c, s) && !s.TakeTcp? && !s.TakeUdp? && Does(c, s, d) && Takes(c, s, d)
    ensures Heard(d)
  {
    assert c.events + [] == c.events && c.tcpIn.taken + [] == c.tcpIn.taken && c.udpIn.taken + [] == c.udpIn.taken;
  }

  lemma StepHeard(c: Client, s: Step)
    requires Heard(c) && Enabled(c, s)
    ensures Heard(Apply(c, s))
  {
    StepDoes(c, s);
    StepTakes(c, s);
    if s.TakeTcp? {
      TcpHeard(c, Apply(c, s));
    } else if s.TakeUdp? {
      UdpHeard(c, s, Apply(c, s));
    } else {
      OtherHeard(c, s, Apply(c, s));
    }
  }

  /** While the client runs it holds the handles of its four actors and receives from its readers; once it
      has stopped it has let go of all of them, and nothing is asked of it any more. */
  predicate Tidy(c: Client) {
    if c.running then
      c.tcpOut.handle && c.udpOut.handle && c.tcpIn.handle && c.udpIn.handle && c.tcpIn.open && c.udpIn.open
    else
      && !c.tcpOut.handle && !c.udpOut.handle && !c.tcpIn.handle && !c.udpIn.handle && !c.tcpIn.open && !c.udpIn.open
      && c.requests == []
  }

  lemma StopTidy(c: Client)
    ensures Tidy(Stop(c))
  {
  }

  lemma ReactTidy(c: Client, i: Incoming)
    requires Tidy(c) && c.running
    ensures Tidy(React(c, i))
  {
    match i
    case Requested(q) => StopTidy(c);
    case FromTcp(f) => StopTidy(c);
    case FromUdp(f, now) => ReactUdpTidy(NoteUdp(c), f, now);
    case HandlesDropped => StopTidy(c);
    case ActorEnded =>
  }

  lemma ReactUdpTidy(c: Client, f: Frame<UdpFromServer>, now: nat)
    requires Tidy(c) && c.running
    ensures Tidy(ReactUdp(c, f, now))
  {
    StopTidy(c);
  }

  lemma StepTidy(c: Client, s: Step)
    requires Tidy(c) && Enabled(c, s)
    ensures Tidy(Apply(c, s))
  {
    match s
    case TakeRequest => ReactTidy(c.(requests := c.requests[1..]), Requested(c.requests[0]));
    case TakeTcp => ReactTidy(c.(tcpIn := R.Receive(c.tcpIn)), FromTcp(c.tcpIn.out[0]));
    case TakeUdp(now) => ReactTidy(c.(udpIn := R.Receive(c.udpIn)), FromUdp(c.udpIn.out[0], now));
    case LoseHandles => ReactTidy(c, HandlesDropped);
    case _ =>
  }

  // ---- UDP messages on their way out ----

  /** What is owed to the UDP sink grows by what it is handed. */
  lemma HandedOwed(c: Client, s: Step)
    requires ActorsOk(c) && Enabled(c, s)
    ensures Apps(W.Owed(AcceptedAfter(c.udpOut, HandedUdp(c, s)))) == Apps(W.Owed(W.Accepted(c.udpOut))) + HandedOn(c, s)
  {
    var m := HandedUdp(c, s);
    if m.Some? && W.HasRoom(c.udpOut) {
      W.OwedSend(W.Accepted(c.udpOut), m.value);
      AppsSnoc(W.Owed(W.Accepted(c.udpOut)), m.value);
    } else {
      assert AcceptedAfter(c.udpOut, m) == W.Accepted(c.udpOut);
    }
  }

  /** What a step leaves of the requests, and what the handle has accepted. */
  lemma StepRequests(c: Client, s: Step)
    requires Enabled(c, s) && !s.Ask?
    ensures var d := Apply(c, s);
      && d.acceptedUdp == c.acceptedUdp
      && (d.running ==> d.requests == Remaining(c, s))
  {
    match s
    case TakeUdp(now) =>
      FromUdpRequests(NoteUdp(c.(udpIn := R.Receive(c.udpIn))), c.udpIn.out[0], now);
    case _ =>
  }

  lemma FromUdpRequests(d: Client, f: Frame<UdpFromServer>, now: nat)
    ensures ReactUdp(d, f, now).acceptedUdp == d.acceptedUdp
    ensures ReactUdp(d, f, now).running ==> ReactUdp(d, f, now).requests == d.requests
  {
  }

  lemma AskUdpCarried(c: Client, q: Request)
    requires UdpCarried(c)
    ensures UdpCarried(Submit(c, q).0)
  {
    UdpPartSnoc(c.requests, q);
    SubmitAnswers(c, q);
    var handed, one := Apps(W.Owed(W.Accepted(c.udpOut))), if q.ToServerUdp? then [UdpToServer.App(q.msg)] else [];
    assert handed + (UdpPart(c.requests) + one) == (handed + UdpPart(c.requests)) + one;
  }

  lemma StepUdpCarried(c: Client, s: Step)
    requires UdpCarried(c) && ActorsOk(c) && Enabled(c, s)
    ensures UdpCarried(Apply(c, s))
  {
    if s.Ask? {
      AskUdpCarried(c, s.q);
    } else {
      StepDoes(c, s);
      StepRequests(c, s);
      HandedOwed(c, s);
      PartTaken(c, s);
    }
  }

  /** The message that is handed on, if the write actor takes it. */
  function HandedOn(c: Client, s: Step): seq<UdpToServer>
    requires Enabled(c, s)
  {
    var m := HandedUdp(c, s);
    if m.Some? && W.HasRoom(c.udpOut) && m.value.App? then [m.value] else []
  }

  /** The requests that are left while the client runs. */
  function Remaining(c: Client, s: Step): seq<Request>
    requires Enabled(c, s)
  {
    if s.TakeRequest? then c.requests[1..] else c.requests
  }

  /** A UDP request that is taken is handed on, unless it is refused, which stops the client. */
  lemma PartSplits(c: Client, s: Step)
    requires Enabled(c, s) && !s.Ask?
    ensures HandedOn(c, s) <= UdpPart(c.requests)
    ensures !Stops(c, s) ==> UdpPart(c.requests) == HandedOn(c, s) + UdpPart(Remaining(c, s))
  {
  }

  lemma PartTaken(c: Client, s: Step)
    requires Enabled(c, s) && !s.Ask? && UdpCarried(c)
    ensures var handed := Apps(W.Owed(W.Accepted(c.udpOut)));
      && handed + HandedOn(c, s) <= c.acceptedUdp
      && (c.running && !Stops(c, s) ==> c.acceptedUdp == (handed + HandedOn(c, s)) + UdpPart(Remaining(c, s)))
  {
    var handed := Apps(W.Owed(W.Accepted(c.udpOut)));
    PartSplits(c, s);
    if !Stops(c, s) {
      assert handed + (HandedOn(c, s) + UdpPart(Remaining(c, s))) == (handed + HandedOn(c, s)) + UdpPart(Remaining(c, s));
    }
  }
}
