/** When a client can still write something to its TCP stream. */
module ClientSpeech {
  import opened Messages
  import opened Client
  import R = ReadActor
  import W = WriteActor

  // ---- The condition ----

  /** The loop of a writer goes on. */
  predicate Alive<T>(w: W.Writer<T>) {
    w.phase.Receiving? || w.phase.Busy?
  }

  function Room<T>(w: W.Writer<T>): nat {
    if W.HasRoom(w) then W.CAPACITY - |w.queue| else 0
  }

  /** How many UDP requests stand before the first TCP request. */
  function UdpAhead(qs: seq<Request>): nat {
    if qs == [] || qs[0].ToServerTcp? then 0 else (if qs[0].ToServerUdp? then 1 else 0) + UdpAhead(qs[1..])
  }

  /** The client's loop gets past the UDP requests that stand before a TCP request: its UDP writer goes on
      taking messages, or has room for these. A refused request would end the loop. */
  predicate GetsThrough(c: Client) {
    c.running && (Alive(c.udpOut) || UdpAhead(c.requests) <= Room(c.udpOut))
  }

  /** The TCP writer has something to write, or is there to take something that it will be sent. */
  predicate MayWrite(c: Client) {
    var w := c.tcpOut;
    && !w.phase.Finished?
    && (w.buffer != [] || (Alive(w) && (w.queue != [] || GetsThrough(c))))
  }

  // ---- Once it cannot, it never can again ----

  lemma {:induction false} UdpAheadGrows(qs: seq<Request>, q: Request)
    ensures UdpAhead(qs) <= UdpAhead(qs + [q])
    decreases |qs|
  {
    if qs != [] {
      assert (qs + [q])[1..] == qs[1..] + [q];
      UdpAheadGrows(qs[1..], q);
    }
  }

  /** What one reaction may not do to a client that cannot write any more. */
  predicate StaysMute(c: Client, d: Client) {
    !MayWrite(c) ==> !MayWrite(d) && d.tcpOut.wire == c.tcpOut.wire
  }

  lemma StopStaysMute(c: Client)
    ensures StaysMute(c, Stop(c))
  {
  }

  lemma TcpStaysMute(c: Client, f: Frame<TcpFromServer>)
    ensures StaysMute(c, ReactTcp(c, f))
  {
    StopStaysMute(c);
  }

  lemma UdpStaysMute(c: Client, f: Frame<UdpFromServer>, now: nat)
    ensures StaysMute(c, ReactUdp(c, f, now)) && StaysMute(c, NoteUdp(c))
  {
    StopStaysMute(c);
  }

  lemma PassingStaysMute(c: Client, qs: seq<Request>, q: Request)
    requires c.running && !MayWrite(c) && c.requests == [q] + qs
    ensures StaysMute(c, ReactRequest(c.(requests := qs), q))
  {
    assert c.requests[1..] == qs;
    StopStaysMute(c);
  }

  lemma RequestStaysMute(c: Client)
    requires Enabled(c, TakeRequest) && !MayWrite(c)
    ensures !MayWrite(Apply(c, TakeRequest)) && Apply(c, TakeRequest).tcpOut.wire == c.tcpOut.wire
  {
    PassingStaysMute(c, c.requests[1..], c.requests[0]);
  }

  lemma ArrivalStaysMute(c: Client, s: Step)
    requires Enabled(c, s) && (s.TakeTcp? || s.TakeUdp?) && !MayWrite(c)
    ensures !MayWrite(Apply(c, s)) && Apply(c, s).tcpOut.wire == c.tcpOut.wire
  {
    match s
    case TakeTcp => TcpStaysMute(c.(tcpIn := R.Receive(c.tcpIn)), c.tcpIn.out[0]);
    case TakeUdp(now) =>
      var d := c.(udpIn := R.Receive(c.udpIn));
      UdpStaysMute(d, c.udpIn.out[0], now);
      UdpStaysMute(NoteUdp(d), c.udpIn.out[0], now);
  }

  lemma StepStaysMute(c: Client, s: Step)
    requires Enabled(c, s) && !MayWrite(c)
    ensures !MayWrite(Apply(c, s)) && Apply(c, s).tcpOut.wire == c.tcpOut.wire
  {
    match s
    case TakeRequest => RequestStaysMute(c);
    case TakeTcp => ArrivalStaysMute(c, s);
    case TakeUdp(_) => ArrivalStaysMute(c, s);
    case Ask(q) => UdpAheadGrows(c.requests, q);
    case _ =>
  }

  lemma TcpWriterStaysMute(c: Client, w: W.Step)
    requires W.Enabled(c.tcpOut, w) && !MayWrite(c)
    ensures !MayWrite(c.(tcpOut := W.Apply(c.tcpOut, w))) && W.Apply(c.tcpOut, w).wire == c.tcpOut.wire
  {
  }

  lemma UdpWriterStaysMute(c: Client, w: W.Step)
    requires W.Enabled(c.udpOut, w) && !MayWrite(c)
    ensures !MayWrite(c.(udpOut := W.Apply(c.udpOut, w)))
  {
  }

  // ---- As long as it can, it has a way to ----

  datatype Move = Loop(s: Step) | TcpWriter(w: W.Step) | UdpWriter(w: W.Step)

  predicate Possible(c: Client, m: Move) {
    match m
    case Loop(s) => Enabled(c, s)
    case TcpWriter(w) => W.Enabled(c.tcpOut, w)
    case UdpWriter(w) => W.Enabled(c.udpOut, w)
  }

  function Perform(c: Client, m: Move): Client
    requires Possible(c, m)
  {
    match m
    case Loop(s) => Apply(c, s)
    case TcpWriter(w) => c.(tcpOut := W.Apply(c.tcpOut, w))
    case UdpWriter(w) => c.(udpOut := W.Apply(c.udpOut, w))
  }

  predicate CanDo(c: Client, ms: seq<Move>)
    decreases |ms|
  {
    ms == [] || (Possible(c, ms[0]) && CanDo(Perform(c, ms[0]), ms[1..]))
  }

  function Done(c: Client, ms: seq<Move>): Client
    requires CanDo(c, ms)
    decreases |ms|
  {
    if ms == [] then c else Done(Perform(c, ms[0]), ms[1..])
  }

  predicate OnlySends(c: Client) {
    (forall m :: m in c.tcpOut.queue ==> m.Send?) && (forall m :: m in c.udpOut.queue ==> m.Send?)
  }

  lemma First(c: Client, m: Move, ms: seq<Move>)
    requires Possible(c, m) && CanDo(Perform(c, m), ms)
    ensures CanDo(c, [m] + ms) && Done(c, [m] + ms) == Done(Perform(c, m), ms)
  {
    assert ([m] + ms)[1..] == ms;
  }

  predicate Wrote(c: Client, ms: seq<Move>) {
    CanDo(c, ms) && |Done(c, ms).tcpOut.wire| > |c.tcpOut.wire|
  }

  lemma WritesBuffered(c: Client) returns (ms: seq<Move>)
    requires !c.tcpOut.phase.Finished? && c.tcpOut.buffer != []
    ensures Wrote(c, ms)
  {
    First(c, TcpWriter(W.Progress(1)), []);
    ms := [TcpWriter(W.Progress(1))];
  }

  lemma WritesQueued(c: Client) returns (ms: seq<Move>)
    requires OnlySends(c) && c.tcpOut.phase.Receiving? && c.tcpOut.queue != []
    ensures Wrote(c, ms)
  {
    assert c.tcpOut.queue[0].Send?;
    var m := TcpWriter(W.Pop);
    ms := WritesBuffered(Perform(c, m));
    First(c, m, ms);
    ms := [m] + ms;
  }

  lemma WritesRequested(c: Client) returns (ms: seq<Move>)
    requires OnlySends(c) && c.tcpOut.phase.Receiving? && c.tcpOut.queue == []
    requires c.running && c.requests != [] && c.requests[0].ToServerTcp?
    ensures Wrote(c, ms)
  {
    var m := Loop(TakeRequest);
    ms := WritesQueued(Perform(c, m));
    First(c, m, ms);
    ms := [m] + ms;
  }

  lemma WritesAsked(c: Client) returns (ms: seq<Move>)
    requires OnlySends(c) && c.tcpOut.phase.Receiving? && c.tcpOut.queue == []
    requires c.running && c.requests == []
    ensures Wrote(c, ms)
  {
    var m := Loop(Ask(ToServerTcp("")));
    ms := WritesRequested(Perform(c, m));
    First(c, m, ms);
    ms := [m] + ms;
  }

  /** What brings a client nearer to writing: whatever its TCP writer is busy with, then the request that
      is in the way, for which its UDP writer may first have to make room. */
  function Next(c: Client): Move {
    if c.tcpOut.phase.Busy? then TcpWriter(W.Complete)
    else if c.requests != [] && (!c.requests[0].ToServerUdp? || W.HasRoom(c.udpOut)) then Loop(TakeRequest)
    else if c.udpOut.phase.Receiving? then UdpWriter(W.Pop)
    else if c.udpOut.buffer == [] then UdpWriter(W.Complete)
    else UdpWriter(W.Progress(|c.udpOut.buffer|))
  }

  function Busyness<T>(w: W.Writer<T>): nat {
    if w.phase.Busy? then 1 else 0
  }

  /** The client is some moves away from a state of which one of the lemmas above says that it writes. */
  predicate Underway(c: Client) {
    && OnlySends(c) && MayWrite(c) && c.tcpOut.buffer == []
    && (c.tcpOut.phase.Busy? || (c.tcpOut.queue == [] && c.requests != [] && !c.requests[0].ToServerTcp?))
  }

  lemma CompleteNearer(c: Client)
    requires Underway(c) && c.tcpOut.phase.Busy?
    ensures Possible(c, Next(c))
    ensures var d := Perform(c, Next(c));
      && OnlySends(d) && MayWrite(d) && d.tcpOut.wire == c.tcpOut.wire
      && d.requests == c.requests && d.udpOut == c.udpOut && !d.tcpOut.phase.Busy?
  {
  }

  lemma RequestNearer(c: Client)
    requires Underway(c) && !c.tcpOut.phase.Busy? && Next(c).Loop?
    ensures Possible(c, Next(c))
    ensures var d := Perform(c, Next(c));
      OnlySends(d) && MayWrite(d) && d.tcpOut.wire == c.tcpOut.wire && |d.requests| < |c.requests|
  {
    assert UdpAhead(c.requests) == (if c.requests[0].ToServerUdp? then 1 else 0) + UdpAhead(c.requests[1..]);
  }

  lemma RoomNearer(c: Client)
    requires Underway(c) && !c.tcpOut.phase.Busy? && Next(c).UdpWriter?
    ensures Possible(c, Next(c))
    ensures var d := Perform(c, Next(c));
      && OnlySends(d) && MayWrite(d) && d.tcpOut == c.tcpOut && d.requests == c.requests
      && (|d.udpOut.queue| < |c.udpOut.queue| || (d.udpOut.queue == c.udpOut.queue &&
          (Busyness(d.udpOut) < Busyness(c.udpOut) || (Busyness(d.udpOut) == Busyness(c.udpOut) && |d.udpOut.buffer| < |c.udpOut.buffer|))))
  {
    assert UdpAhead(c.requests) > 0 && Room(c.udpOut) == 0;
    if c.udpOut.phase.Receiving? {
      assert c.udpOut.queue[0].Send?;
    }
  }

  /** As long as a client may write, there is a way for it to. */
  lemma {:induction false} FindsWay(c: Client) returns (ms: seq<Move>)
    requires OnlySends(c) && MayWrite(c)
    ensures Wrote(c, ms)
    decreases |c.requests|, |c.udpOut.queue|, Busyness(c.udpOut), |c.udpOut.buffer|, Busyness(c.tcpOut)
  {
    if c.tcpOut.buffer != [] {
      ms := WritesBuffered(c);
    } else if c.tcpOut.phase.Receiving? && c.tcpOut.queue != [] {
      ms := WritesQueued(c);
    } else if c.tcpOut.phase.Receiving? && c.requests == [] {
      ms := WritesAsked(c);
    } else if c.tcpOut.phase.Receiving? && c.requests[0].ToServerTcp? {
      ms := WritesRequested(c);
    } else {
      if c.tcpOut.phase.Busy? {
        CompleteNearer(c);
      } else if Next(c).Loop? {
        RequestNearer(c);
      } else {
        RoomNearer(c);
      }
      ms := FindsWay(Perform(c, Next(c)));
      First(c, Next(c), ms);
      ms := [Next(c)] + ms;
    }
  }
}
