/** The read actor: a task that selects between a bounded control queue and a stream of items, and
    forwards each item to a bounded channel.

    `Reader` is the task together with its control queue, its stream and its output channel. */
module ReadActor {
  import opened Wrappers

  datatype Reason = Signalled | EndOfStream | ActorHandlesDropped | ReceiverClosedChannel

  datatype Phase<T> =
    | Selecting
    | Sending(item: T)                             // awaiting room in the output channel
    | Finished(shutdown: ActorShutdown<Reason>)

  /** The control queue holds 8 messages plus one slot for its only sender. */
  const CONTROL_CAPACITY: nat := 9

  /** `control` counts the queued Shutdown messages, the only kind there is. `incoming` is what the
      stream has yet to yield, after which it ends if `ended`. `out` is the output channel, holding
      at most `capacity` items, and `open` says that its receiver exists. `input` is the history of
      the stream and `taken` that of the receiver; `reported` says that the task's end was handed to
      the receiver, and `signals` counts the Shutdown messages ever accepted. */
  datatype Reader<T> = Reader(
    control: nat,
    handle: bool,
    phase: Phase<T>,
    incoming: seq<T>,
    ended: bool,
    capacity: nat,
    out: seq<T>,
    open: bool,
    input: seq<T>,
    taken: seq<T>,
    reported: bool,
    signals: nat)

  function Spawn<T>(capacity: nat): Reader<T> {
    Reader(0, true, Selecting, [], false, capacity, [], true, [], [], false, 0)
  }

  function Forwarded<T>(r: Reader<T>): seq<T> {
    r.taken + r.out
  }

  // ---- The handle ----

  function SignalShutdown<T>(r: Reader<T>): (Reader<T>, SendResult) {
    if r.phase.Finished? then (r, ChannelClosed)
    else if r.control >= CONTROL_CAPACITY then (r, ChannelFull)
    else (r.(control := r.control + 1, signals := r.signals + 1), Sent)
  }

  function DropHandle<T>(r: Reader<T>): Reader<T> {
    r.(handle := false)
  }

  // ---- The stream and the receiver ----

  /** The stream gains an item to yield, unless it has ended. */
  function Arrive<T>(r: Reader<T>, x: T): Reader<T> {
    if r.ended then r else r.(incoming := r.incoming + [x], input := r.input + [x])
  }

  function End<T>(r: Reader<T>): Reader<T> {
    r.(ended := true)
  }

  function Receive<T>(r: Reader<T>): Reader<T>
    requires r.out != []
  {
    r.(out := r.out[1..], taken := r.taken + [r.out[0]])
  }

  /** The end marker is chained after the channel: it is due when the task has ended and every
      item was received. */
  predicate MarkerDue<T>(r: Reader<T>) {
    r.phase.Finished? && r.out == [] && !r.reported
  }

  function Report<T>(r: Reader<T>): Reader<T> {
    r.(reported := true)
  }

  function Close<T>(r: Reader<T>): Reader<T> {
    r.(open := false)
  }

  // ---- The task ----

  datatype Step =
    | TakeControl            // a Shutdown message
    | HandlesGone            // the control queue is empty and no handle is left
    | TakeItem               // the stream yields an item
    | StreamEnds             // the stream is over
    | Push                   // the output channel takes the item
    | PushRefused            // the receiver is gone
    | Crash(how: Erratic)

  predicate Enabled<T>(r: Reader<T>, s: Step) {
    match s
    case TakeControl => r.phase.Selecting? && r.control > 0
    case HandlesGone => r.phase.Selecting? && r.control == 0 && !r.handle
    case TakeItem => r.phase.Selecting? && r.incoming != []
    case StreamEnds => r.phase.Selecting? && r.incoming == [] && r.ended
    case Push => r.phase.Sending? && r.open && |r.out| < r.capacity
    case PushRefused => r.phase.Sending? && !r.open
    case Crash(_) => !r.phase.Finished?
  }

  function Apply<T>(r: Reader<T>, s: Step): Reader<T>
    requires Enabled(r, s)
  {
    match s
    case TakeControl => r.(control := r.control - 1, phase := Finished(Controlled(Signalled)))
    case HandlesGone => r.(phase := Finished(Controlled(ActorHandlesDropped)))
    case TakeItem => r.(phase := Sending(r.incoming[0]), incoming := r.incoming[1..])
    case StreamEnds => r.(phase := Finished(Controlled(EndOfStream)))
    case Push => r.(out := r.out + [r.phase.item], phase := Selecting)
    case PushRefused => r.(phase := Finished(Controlled(ReceiverClosedChannel)))
    case Crash(how) => r.(phase := Finished(ActorShutdown.Erratic(how)))
  }

  predicate EndedWith<T>(r: Reader<T>, why: Reason) {
    r.phase == Finished(Controlled(why))
  }

  function InHand<T>(r: Reader<T>): seq<T> {
    if r.phase.Sending? then [r.phase.item] else []
  }

  // ---- The law of the reader ----

  ghost predicate Inv<T>(r: Reader<T>) {
    && Forwarded(r) <= r.input
    && (!r.phase.Finished? ==> Forwarded(r) + InHand(r) + r.incoming == r.input)
    && (EndedWith(r, EndOfStream) ==> r.ended && Forwarded(r) == r.input)
    && (r.reported ==> r.phase.Finished? && r.out == [])
    && |r.out| <= r.capacity
    && Obedient(r)
  }

  /** Every Shutdown that was accepted is queued, or is the one that ended the task; the other reasons
      of the task's end are what they say. */
  predicate Obedient<T>(r: Reader<T>) {
    && r.signals == r.control + (if EndedWith(r, Signalled) then 1 else 0) && r.control <= 9
    && (EndedWith(r, ActorHandlesDropped) ==> !r.handle && r.control == 0)
    && (EndedWith(r, ReceiverClosedChannel) ==> !r.open)
  }

  /** How the task ends: each reason exactly by its own step. */
  lemma TaskEnds<T>(r: Reader<T>, s: Step)
    requires Enabled(r, s)
    ensures var q := Apply(r, s);
      && (EndedWith(q, Signalled) <==> s.TakeControl?)
      && (EndedWith(q, ActorHandlesDropped) <==> s.HandlesGone?)
      && (EndedWith(q, EndOfStream) <==> s.StreamEnds?)
      && (EndedWith(q, ReceiverClosedChannel) <==> s.PushRefused?)
      && (q.phase.Selecting? <==> s.Push?) && (q.phase.Sending? <==> s.TakeItem?)
  {
  }

  /** The task selects freely: a Shutdown may be taken whenever one is queued, and an item whenever the
      stream has one; and it waits for room exactly while the channel is full and open. */
  lemma Selects<T>(r: Reader<T>)
    ensures Enabled(r, TakeControl) <==> r.phase.Selecting? && r.control > 0
    ensures Enabled(r, TakeItem) <==> r.phase.Selecting? && r.incoming != []
    ensures Enabled(r, StreamEnds) <==> r.phase.Selecting? && r.incoming == [] && r.ended
    ensures Enabled(r, HandlesGone) <==> r.phase.Selecting? && r.control == 0 && !r.handle
    ensures r.phase.Sending? && !Enabled(r, Push) && !Enabled(r, PushRefused) <==>
              r.phase.Sending? && r.open && |r.out| >= r.capacity
  {
  }

  lemma {:induction false} StepInv<T>(r: Reader<T>, s: Step)
    requires Inv(r) && Enabled(r, s)
    ensures Inv(Apply(r, s))
  {
    match s
    case TakeItem =>
      assert Forwarded(r) + [r.incoming[0]] + r.incoming[1..] == Forwarded(r) + [] + r.incoming;
    case Push =>
      assert r.taken + (r.out + [r.phase.item]) == Forwarded(r) + InHand(r);
      assert Forwarded(r) + InHand(r) + [] + r.incoming == r.input;
    case StreamEnds =>
      assert Forwarded(r) + [] + [] == Forwarded(r);
    case _ =>
  }

  lemma {:induction false} ArriveInv<T>(r: Reader<T>, x: T)
    requires Inv(r)
    ensures Inv(Arrive(r, x)) && Inv(End(r))
    ensures Arrive(r, x).taken == r.taken
  {
    if !r.phase.Finished? {
      assert Forwarded(r) + InHand(r) + (r.incoming + [x]) == r.input + [x];
    }
  }

  lemma {:induction false} ReceiveInv<T>(r: Reader<T>)
    requires Inv(r) && r.out != []
    ensures Inv(Receive(r)) && Forwarded(Receive(r)) == Forwarded(r)
  {
    assert r.out == [r.out[0]] + r.out[1..];
    assert r.taken + [r.out[0]] + r.out[1..] == r.taken + r.out;
  }

  lemma HandleInv<T>(r: Reader<T>)
    requires Inv(r)
    ensures Inv(SignalShutdown(r).0) && Inv(DropHandle(r)) && Inv(Close(r))
    ensures MarkerDue(r) ==> Inv(Report(r))
  {
  }

  /** What a step of the task leaves alone. */
  lemma StepFrame<T>(r: Reader<T>, s: Step)
    requires Enabled(r, s)
    ensures var q := Apply(r, s);
      && q.taken == r.taken && q.input == r.input && q.handle == r.handle
      && q.reported == r.reported && q.ended == r.ended && q.open == r.open && q.capacity == r.capacity
      && q.signals == r.signals
      && Forwarded(r) <= Forwarded(q) && q.control <= r.control
      && (r.phase.Finished? ==> q == r)
  {
  }

  /** The law of the reader: what the receiver has got is a prefix of what was forwarded, which is a
      prefix of the stream; it is the whole stream once the task has ended with EndOfStream, and the
      receiver has all of that when the end marker is due. */
  lemma ReaderLaw<T>(r: Reader<T>)
    requires Inv(r)
    ensures r.taken <= Forwarded(r) <= r.input
    ensures EndedWith(r, EndOfStream) ==> r.ended && Forwarded(r) == r.input
    ensures EndedWith(r, EndOfStream) && (MarkerDue(r) || r.reported) ==> r.taken == r.input
  {
  }

  // ---- While the handle is held, nobody asked for a shutdown and the receiver exists ----

  predicate Quiet<T>(r: Reader<T>) {
    r.handle && r.control == 0 && r.open
    && !EndedWith(r, Signalled) && !EndedWith(r, ActorHandlesDropped) && !EndedWith(r, ReceiverClosedChannel)
  }

  lemma QuietKept<T>(r: Reader<T>)
    requires Quiet(r)
    ensures forall s: Step :: Enabled(r, s) ==> Quiet(Apply(r, s))
    ensures forall x :: Quiet(Arrive(r, x))
    ensures Quiet(End(r)) && Quiet(Report(r))
    ensures r.out != [] ==> Quiet(Receive(r))
  {
  }

  // ---- The task and everybody else ----

  /** What the others do: the stream gains an item or ends, the owner of the handle signals or leaves, the
      receiver goes away. */
  datatype Other<T> = Arrives(x: T) | Ends | Signals | Leaves | Closes

  datatype Move<T> = Task(step: Step) | Receiver | Others(o: Other<T>)

  predicate Possible<T>(r: Reader<T>, m: Move<T>) {
    match m
    case Task(s) => Enabled(r, s)
    case Receiver => r.out != []
    case Others(_) => true
  }

  function Happen<T>(r: Reader<T>, o: Other<T>): Reader<T> {
    match o
    case Arrives(x) => Arrive(r, x)
    case Ends => End(r)
    case Signals => if r.handle then SignalShutdown(r).0 else r
    case Leaves => DropHandle(r)
    case Closes => Close(r)
  }

  function Perform<T>(r: Reader<T>, m: Move<T>): Reader<T>
    requires Possible(r, m)
  {
    match m
    case Task(s) => Apply(r, s)
    case Receiver => Receive(r)
    case Others(o) => Happen(r, o)
  }

  ghost predicate CanRun<T>(r: Reader<T>, moves: seq<Move<T>>)
    decreases |moves|, 0
  {
    moves == [] || (CanRun(r, moves[..|moves|-1]) && Possible(RunMoves(r, moves[..|moves|-1]), moves[|moves|-1]))
  }

  ghost function RunMoves<T>(r: Reader<T>, moves: seq<Move<T>>): Reader<T>
    requires CanRun(r, moves)
    decreases |moves|, 1
  {
    if moves == [] then r else Perform(RunMoves(r, moves[..|moves|-1]), moves[|moves|-1])
  }

  /** What the others have done. */
  function Doings<T>(moves: seq<Move<T>>): seq<Other<T>> {
    if moves == [] then []
    else Doings(moves[..|moves|-1]) + if moves[|moves|-1].Others? then [moves[|moves|-1].o] else []
  }

  lemma RunSnoc<T>(r: Reader<T>, moves: seq<Move<T>>, m: Move<T>)
    requires CanRun(r, moves) && Possible(RunMoves(r, moves), m)
    ensures CanRun(r, moves + [m]) && RunMoves(r, moves + [m]) == Perform(RunMoves(r, moves), m)
    ensures Doings(moves + [m]) == Doings(moves) + if m.Others? then [m.o] else []
  {
    assert (moves + [m])[..|moves|] == moves;
  }

  /** The items that the others bring, until the stream ends. */
  function Brought<T>(os: seq<Other<T>>): seq<T> {
    if os == [] || os[0].Ends? then []
    else (if os[0].Arrives? then [os[0].x] else []) + Brought(os[1..])
  }

  lemma {:induction false} BroughtSnoc<T>(os: seq<Other<T>>, o: Other<T>)
    ensures Brought(os + [o]) == Brought(os) + if Ends !in os && o.Arrives? then [o.x] else []
    decreases |os|
  {
    if os == [] {
      assert os + [o] == [o] && [o][1..] == [];
    } else {
      assert os == [os[0]] + os[1..] && (os + [o])[1..] == os[1..] + [o];
      if !os[0].Ends? {
        BroughtSnoc(os[1..], o);
      }
    }
  }

  lemma PerformInv<T>(r: Reader<T>, m: Move<T>)
    requires Inv(r) && Possible(r, m)
    ensures var q := Perform(r, m);
      && Inv(q) && (q.ended <==> r.ended || m == Others(Ends))
      && q.input == r.input + if !r.ended && m.Others? && m.o.Arrives? then [m.o.x] else []
  {
    match m
    case Task(s) =>
      StepInv(r, s);
      StepFrame(r, s);
    case Receiver => ReceiveInv(r);
    case Others(o) => HappenInv(r, o);
  }

  /** Whatever happens, the law of the reader holds, and the stream is what the others have brought. */
  lemma {:induction false} RunInv<T>(r: Reader<T>, moves: seq<Move<T>>)
    requires Inv(r) && CanRun(r, moves) && !r.ended
    ensures Inv(RunMoves(r, moves)) && RunMoves(r, moves).input == r.input + Brought(Doings(moves))
    ensures RunMoves(r, moves).ended <==> Ends in Doings(moves)
    decreases |moves|
  {
    if moves != [] {
      var front, last := moves[..|moves|-1], moves[|moves|-1];
      RunInv(r, front);
      PerformInv(RunMoves(r, front), last);
      if last.Others? {
        BroughtSnoc(Doings(front), last.o);
      } else {
        assert Doings(moves) == Doings(front);
      }
    }
  }

  lemma HappenInv<T>(r: Reader<T>, o: Other<T>)
    requires Inv(r)
    ensures var q := Happen(r, o);
      && Inv(q) && (q.ended <==> r.ended || o.Ends?)
      && q.input == r.input + if !r.ended && o.Arrives? then [o.x] else []
  {
    HandleInv(r);
    if o.Arrives? {
      ArriveInv(r, o.x);
    }
  }

  // ---- The task as code ----

  /** One read actor with its handle, updated in place. */
  class ReadActor<T> {
    var control: nat
    var handle: bool
    var phase: Phase<T>
    var incoming: seq<T>
    var ended: bool
    const capacity: nat
    var out: seq<T>
    var open: bool
    ghost var input: seq<T>
    ghost var taken: seq<T>
    ghost var signals: nat

    ghost function View(): Reader<T>
      reads this
    {
      Reader(control, handle, phase, incoming, ended, capacity, out, open, input, taken, false, signals)
    }

    constructor (capacity: nat)
      ensures View() == Spawn(capacity) && Inv(View())
    {
      control, handle, phase, incoming, ended, out, open := 0, true, Selecting, [], false, [], true;
      this.capacity, this.input, this.taken, this.signals := capacity, [], [], 0;
    }

    method SendShutdown() returns (r: SendResult)
      requires handle
      modifies this`control, this`signals
      ensures (View(), r) == SignalShutdown(old(View()))
      ensures r == ChannelClosed <==> phase.Finished?
      ensures r == ChannelFull <==> !phase.Finished? && old(control) >= 9
      ensures control == if r.Sent? then old(control) + 1 else old(control)
    {
      if phase.Finished? {
        return ChannelClosed;
      }
      if control >= CONTROL_CAPACITY {
        return ChannelFull;
      }
      control, signals := control + 1, signals + 1;
      return Sent;
    }

    /** `moves` is what has happened since `start`; the others have done i of the things that they do. */
    ghost predicate Course(start: Reader<T>, moves: seq<Move<T>>, others: seq<Other<T>>, i: nat)
      reads this
    {
      && CanRun(start, moves) && View() == RunMoves(start, moves)
      && i <= |others| && Doings(moves) == others[..i] && (ended || Ends in others[i..])
    }

    /** The others do the next thing. */
    method LetHappen(others: seq<Other<T>>, i: nat, ghost start: Reader<T>, ghost moves: seq<Move<T>>)
        returns (ghost more: seq<Move<T>>)
      requires Course(start, moves, others, i) && i < |others|
      modifies this`control, this`signals, this`handle, this`incoming, this`input, this`ended, this`open
      ensures Course(start, more, others, i + 1)
      ensures (ended <== old(ended)) && (handle ==> old(handle)) && control >= old(control)
    {
      RunSnoc(start, moves, Others(others[i]));
      more := moves + [Others(others[i])];
      assert others[..i+1] == others[..i] + [others[i]] && others[i..] == [others[i]] + others[i+1..];
      match others[i] {
        case Arrives(x) =>
          if !ended {
            incoming, input := incoming + [x], input + [x];
          }
        case Ends => ended := true;
        case Signals =>
          if handle {
            var r := SendShutdown();
          }
        case Leaves => handle := false;
        case Closes => open := false;
      }
    }

    /** Meanwhile the others do any number of things. */
    method Meanwhile(others: seq<Other<T>>, i: nat, ghost start: Reader<T>, ghost moves: seq<Move<T>>)
        returns (j: nat, ghost more: seq<Move<T>>)
      requires Course(start, moves, others, i)
      modifies this`control, this`signals, this`handle, this`incoming, this`input, this`ended, this`open
      ensures Course(start, more, others, j) && i <= j && (j == i ==> View() == old(View()))
    {
      j, more := i, moves;
      var until: nat :| i <= until <= |others|;
      while j < until
        invariant i <= j <= until && Course(start, more, others, j) && phase == old(phase)
        invariant j == i ==> View() == old(View())
      {
        more := LetHappen(others, j, start, more);
        j := j + 1;
      }
    }

    /** A step of the task, or of the receiver, has been taken. */
    ghost method Note(m: Move<T>, before: Reader<T>, others: seq<Other<T>>, i: nat, start: Reader<T>, moves: seq<Move<T>>)
        returns (more: seq<Move<T>>)
      requires CanRun(start, moves) && before == RunMoves(start, moves) && !m.Others?
      requires i <= |others| && Doings(moves) == others[..i] && (ended || Ends in others[i..])
      requires Possible(before, m) && View() == Perform(before, m)
      ensures Course(start, more, others, i)
    {
      RunSnoc(start, moves, m);
      more := moves + [m];
    }

    /** Waits for the receiver to make room, unless it goes away. */
    method AwaitRoom(others: seq<Other<T>>, i: nat, ghost start: Reader<T>, ghost moves: seq<Move<T>>)
        returns (j: nat, ghost more: seq<Move<T>>)
      requires Course(start, moves, others, i) && phase.Sending? && capacity > 0
      modifies this`control, this`signals, this`handle, this`incoming, this`input, this`ended, this`open, this`out, this`taken
      ensures Course(start, more, others, j) && i <= j && (j == i ==> incoming == old(incoming))
      ensures open ==> |out| < capacity
    {
      j, more := Meanwhile(others, i, start, moves);
      while open && |out| >= capacity
        invariant i <= j && Course(start, more, others, j) && phase == old(phase)
        invariant j == i ==> incoming == old(incoming)
        decreases |out|
      {
        ghost var before := View();
        out, taken := out[1..], taken + [out[0]];
        more := Note(Receiver, before, others, j, start, more);
        j, more := Meanwhile(others, j, start, more);
      }
    }

    /** Forwards the item in hand, or finds the receiver gone. */
    method Forward(others: seq<Other<T>>, i: nat, ghost start: Reader<T>, ghost moves: seq<Move<T>>)
        returns (ok: bool, j: nat, ghost more: seq<Move<T>>)
      requires Course(start, moves, others, i) && phase.Sending? && capacity > 0
      modifies this
      ensures Course(start, more, others, j) && i <= j && (j == i ==> incoming == old(incoming))
      ensures ok == open
      ensures phase == if ok then Selecting else Finished(Controlled(ReceiverClosedChannel))
    {
      j, more := AwaitRoom(others, i, start, moves);
      ghost var before := View();
      ok := open;
      if ok {
        out, phase := out + [phase.item], Selecting;
        more := Note(Task(Push), before, others, j, start, more);
      } else {
        phase := Finished(Controlled(ReceiverClosedChannel));
        more := Note(Task(PushRefused), before, others, j, start, more);
      }
    }

    /** Takes the stream's next item. */
    method NextItem(ghost others: seq<Other<T>>, ghost i: nat, ghost start: Reader<T>, ghost moves: seq<Move<T>>)
        returns (ghost more: seq<Move<T>>)
      requires Course(start, moves, others, i) && phase.Selecting? && incoming != []
      modifies this`incoming, this`phase
      ensures Course(start, more, others, i)
      ensures phase == Sending(old(incoming[0])) && incoming == old(incoming[1..])
    {
      ghost var before := View();
      phase, incoming := Sending(incoming[0]), incoming[1..];
      more := Note(Task(TakeItem), before, others, i, start, moves);
    }

    /** Takes what the control queue yields, a Shutdown or its end. */
    method Obey(ghost others: seq<Other<T>>, ghost i: nat, ghost start: Reader<T>, ghost moves: seq<Move<T>>)
        returns (reason: Reason, ghost more: seq<Move<T>>)
      requires Course(start, moves, others, i) && phase.Selecting? && (control > 0 || !handle)
      modifies this`control, this`phase
      ensures Course(start, more, others, i) && phase == Finished(Controlled(reason))
      ensures reason == if old(control) > 0 then Signalled else ActorHandlesDropped
    {
      ghost var before := View();
      if control > 0 {
        reason := Signalled;
        control, phase := control - 1, Finished(Controlled(reason));
        more := Note(Task(TakeControl), before, others, i, start, moves);
      } else {
        // Nobody holds a handle any more.
        reason := ActorHandlesDropped;
        phase := Finished(Controlled(reason));
        more := Note(Task(HandlesGone), before, others, i, start, moves);
      }
    }

    method NoteEnd(ghost others: seq<Other<T>>, ghost i: nat, ghost start: Reader<T>, ghost moves: seq<Move<T>>)
        returns (ghost more: seq<Move<T>>)
      requires Course(start, moves, others, i) && phase.Selecting? && incoming == [] && ended
      modifies this`phase
      ensures Course(start, more, others, i) && phase == Finished(Controlled(EndOfStream))
    {
      ghost var before := View();
      phase := Finished(Controlled(EndOfStream));
      more := Note(Task(StreamEnds), before, others, i, start, moves);
    }

    /** The task's loop on a stream that some time ends, while the others do these things, each at any
        moment. It selects freely among whatever is ready. What happens is a run; what was forwarded is a
        prefix of what came, and all of it if the task ends with EndOfStream. */
    method Actor(others: seq<Other<T>>) returns (reason: Reason, ghost moves: seq<Move<T>>)
      requires phase.Selecting? && capacity > 0 && (ended || Ends in others)
      modifies this
      ensures CanRun(old(View()), moves) && View() == RunMoves(old(View()), moves) && Doings(moves) <= others
      ensures phase == Finished(Controlled(reason))
      ensures old(Inv(View()) && !ended) ==>
        && input == old(input) + Brought(Doings(moves)) && Forwarded(View()) <= input
        && (reason == EndOfStream ==> Ends in Doings(moves) && Forwarded(View()) == input)
    {
      ghost var start := View();
      moves := [];
      var i := 0;
      assert others[0..] == others;
      while true
        invariant Course(start, moves, others, i) && phase.Selecting?
        decreases |others| - i, |incoming|
      {
        var preferControl: bool := *;
        if (control > 0 || !handle) && (preferControl || incoming == []) {
          reason, moves := Obey(others, i, start, moves);
          break;
        } else if incoming != [] {
          moves := NextItem(others, i, start, moves);
          var ok: bool;
          ok, i, moves := Forward(others, i, start, moves);
          if !ok {
            reason := ReceiverClosedChannel;
            break;
          }
        } else if ended {
          reason := EndOfStream;
          moves := NoteEnd(others, i, start, moves);
          break;
        } else {
          // Nothing is ready, so the task waits.
          moves := LetHappen(others, i, start, moves);
          i := i + 1;
        }
      }
      if Inv(start) && !start.ended {
        RunInv(start, moves);
      }
    }
  }
}
