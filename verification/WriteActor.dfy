/** The write actor: a task that takes messages off a bounded queue and performs them on a sink.

    `Writer` is the task together with its queue and its sink; `Step` is one thing that the task,
    or the sink below it, does without waiting. The class at the end is the task's own loop, proved
    to be a run of such steps. */
module WriteActor {
  import opened Wrappers

  datatype Msg<T> = Send(item: T) | Feed(item: T) | Flush | Shutdown

  datatype Reason = Signalled | SinkError | ActorHandlesDropped

  datatype Phase =
    | Receiving
    | Busy(mustFlush: bool)                        // awaiting the sink operation just taken
    | Closing(why: Reason)                         // the loop has ended; closing the sink
    | Finished(shutdown: ActorShutdown<Reason>)

  /** The queue holds 32 messages plus one slot for its only sender. */
  const CAPACITY: nat := 33

  /** `buffer` holds what the sink took but has not written, `wire` what it has written.
      `done` is the history of messages taken off the queue; `failed` records a sink error;
      `reported` says that the task's end was handed to whoever waits for it. */
  datatype Writer<T> = Writer(
    queue: seq<Msg<T>>,
    handle: bool,
    phase: Phase,
    buffer: seq<T>,
    wire: seq<T>,
    failed: bool,
    done: seq<Msg<T>>,
    reported: bool)

  function Spawn<T>(): Writer<T> {
    Writer([], true, Receiving, [], [], false, [], false)
  }

  /** Every message that the queue ever accepted. */
  function Accepted<T>(w: Writer<T>): seq<Msg<T>> {
    w.done + w.queue
  }

  /** The items a list of messages asks to be written: those before its first Shutdown. */
  function Owed<T>(ms: seq<Msg<T>>): seq<T> {
    if ms == [] then []
    else match ms[0]
      case Send(item) => [item] + Owed(ms[1..])
      case Feed(item) => [item] + Owed(ms[1..])
      case Flush => Owed(ms[1..])
      case Shutdown => []
  }

  // ---- The handle ----

  /** What `try_send` does: a queue whose receiver is gone is closed, whether or not it is full. */
  function TrySend<T>(w: Writer<T>, m: Msg<T>): (r: (Writer<T>, SendResult)) {
    if w.phase.Finished? then (w, ChannelClosed)
    else if |w.queue| >= CAPACITY then (w, ChannelFull)
    else (w.(queue := w.queue + [m]), Sent)
  }

  function Offer<T>(w: Writer<T>, m: Msg<T>): Writer<T> {
    TrySend(w, m).0
  }

  predicate HasRoom<T>(w: Writer<T>) {
    !w.phase.Finished? && |w.queue| < CAPACITY
  }

  function DropHandle<T>(w: Writer<T>): Writer<T> {
    w.(handle := false)
  }

  /** Whoever waits for the task's end is told once. */
  predicate MarkerDue<T>(w: Writer<T>) {
    w.phase.Finished? && !w.reported
  }

  function Report<T>(w: Writer<T>): Writer<T> {
    w.(reported := true)
  }

  // ---- The task ----

  datatype Step =
    | Pop                    // take the next message and start on it
    | Progress(n: nat)       // the sink writes n buffered items
    | Complete               // the awaited sink operation succeeds
    | Fail(kept: nat)        // it fails; the sink holds on to `kept` buffered items
    | HangUp                 // the queue is empty and no handle is left
    | CloseOk                // the sink is closed, everything flushed
    | CloseFailed            // closing the sink fails
    | Crash(how: Erratic)

  predicate Enabled<T>(w: Writer<T>, s: Step) {
    match s
    case Pop => w.phase.Receiving? && w.queue != []
    case Progress(n) => !w.phase.Finished? && 0 < n <= |w.buffer|
    case Complete => w.phase.Busy? && (w.phase.mustFlush ==> w.buffer == [])
    case Fail(kept) => w.phase.Busy? && kept <= |w.buffer|
    case HangUp => w.phase.Receiving? && w.queue == [] && !w.handle
    case CloseOk => w.phase.Closing? && w.buffer == []
    case CloseFailed => w.phase.Closing?
    case Crash(_) => !w.phase.Finished?
  }

  function Take<T>(w: Writer<T>): Writer<T>
    requires w.queue != []
  {
    var m := w.queue[0];
    var v := w.(queue := w.queue[1..], done := w.done + [m]);
    match m
    case Send(item) => v.(buffer := w.buffer + [item], phase := Busy(true))
    case Feed(item) => v.(buffer := w.buffer + [item], phase := Busy(false))
    case Flush => v.(phase := Busy(true))
    case Shutdown => v.(phase := Closing(Signalled))
  }

  function Apply<T>(w: Writer<T>, s: Step): Writer<T>
    requires Enabled(w, s)
  {
    match s
    case Pop => Take(w)
    case Progress(n) => w.(wire := w.wire + w.buffer[..n], buffer := w.buffer[n..])
    case Complete => w.(phase := Receiving)
    case Fail(kept) => w.(phase := Closing(SinkError), buffer := w.buffer[..kept], failed := true)
    case HangUp => w.(phase := Closing(ActorHandlesDropped))
    case CloseOk => w.(phase := Finished(Controlled(w.phase.why)))
    case CloseFailed => w.(phase := Finished(Controlled(w.phase.why)), failed := true)
    case Crash(how) => w.(phase := Finished(ActorShutdown.Erratic(how)))
  }

  ghost predicate CanRun<T>(w: Writer<T>, steps: seq<Step>)
    decreases |steps|, 0
  {
    steps == [] || (CanRun(w, steps[..|steps|-1]) && Enabled(RunSteps(w, steps[..|steps|-1]), steps[|steps|-1]))
  }

  ghost function RunSteps<T>(w: Writer<T>, steps: seq<Step>): Writer<T>
    requires CanRun(w, steps)
    decreases |steps|, 1
  {
    if steps == [] then w else Apply(RunSteps(w, steps[..|steps|-1]), steps[|steps|-1])
  }

  lemma RunSnoc<T>(w: Writer<T>, steps: seq<Step>, s: Step)
    requires CanRun(w, steps) && Enabled(RunSteps(w, steps), s)
    ensures CanRun(w, steps + [s]) && RunSteps(w, steps + [s]) == Apply(RunSteps(w, steps), s)
  {
    assert (steps + [s])[..|steps|] == steps;
  }

  // ---- Conservation ----

  /** The task ends, or has ended, for reason r. */
  predicate EndsWith<T>(w: Writer<T>, r: Reason) {
    w.phase == Closing(r) || w.phase == Finished(Controlled(r))
  }

  ghost predicate Inv<T>(w: Writer<T>) {
    && w.wire + w.buffer <= Owed(w.done)
    && (!w.failed ==> w.wire + w.buffer == Owed(w.done))
    && (w.phase.Receiving? || w.phase.Busy? ==> Shutdown !in w.done && !w.failed)
    && (EndsWith(w, Signalled) ==> w.done != [] && w.done[|w.done|-1] == Shutdown)
    && (EndsWith(w, ActorHandlesDropped) ==> Shutdown !in w.done && w.queue == [] && !w.handle)
    && (EndsWith(w, SinkError) ==> w.failed)
    && (w.phase.Finished? && w.phase.shutdown.Controlled? && !w.failed ==> w.buffer == [])
    && (w.reported ==> w.phase.Finished?)
    && |w.queue| <= 33
    && Flushed(w)
  }

  /** Was the last message taken off the queue one after which the sink is flushed? */
  predicate Flushes<T>(done: seq<Msg<T>>) {
    done != [] && (done[|done|-1].Send? || done[|done|-1].Flush?)
  }

  /** Between two messages, nothing is left in the sink's buffer after a Send or a Flush. */
  predicate Flushed<T>(w: Writer<T>) {
    && (w.phase.Busy? ==> w.done != [] && (w.phase.mustFlush <==> Flushes(w.done)))
    && (w.phase.Receiving? && Flushes(w.done) ==> w.buffer == [])
  }

  lemma {:induction false} OwedAppend<T>(a: seq<Msg<T>>, b: seq<Msg<T>>)
    ensures Owed(a + b) == if Shutdown in a then Owed(a) else Owed(a) + Owed(b)
  {
    if a == [] {
      assert a + b == b;
    } else {
      assert (a + b)[0] == a[0] && (a + b)[1..] == a[1..] + b;
      assert a == [a[0]] + a[1..];
      if !a[0].Shutdown? {
        OwedAppend(a[1..], b);
      }
    }
  }

  /** No operation of the handle disturbs the invariant. A handle that was dropped sends nothing. */
  lemma OfferInv<T>(w: Writer<T>, m: Msg<T>)
    requires Inv(w) && w.handle
    ensures Inv(Offer(w, m)) && Inv(DropHandle(w)) && Inv(DropHandle(Offer(w, m)))
  {
  }

  /** Whether the queue ever accepted a request to write this item. */
  ghost predicate Asked<T>(w: Writer<T>, item: T) {
    Send(item) in Accepted(w) || Feed(item) in Accepted(w)
  }

  lemma {:induction false} OwedAsked<T>(ms: seq<Msg<T>>, item: T)
    requires item in Owed(ms)
    ensures Send(item) in ms || Feed(item) in ms
  {
    if ms[0] != Send(item) && ms[0] != Feed(item) {
      OwedAsked(ms[1..], item);
    }
  }

  /** Only what was asked for is ever written. */
  lemma WrittenAsked<T>(w: Writer<T>, item: T)
    requires Inv(w) && item in w.wire
    ensures Asked(w, item)
  {
    Conservation(w);
    OwedAsked(Accepted(w), item);
  }

  /** What an offer adds to what is owed. */
  lemma OwedOffer<T>(w: Writer<T>, m: Msg<T>)
    ensures Shutdown !in Accepted(w) ==>
      Owed(Accepted(Offer(w, m))) == Owed(Accepted(w)) + if HasRoom(w) && (m.Send? || m.Feed?) then [m.item] else []
  {
    OfferAccepted(w, m);
    OwedAppend(Accepted(w), [m]);
    assert [m][1..] == [];
  }

  lemma OfferAccepted<T>(w: Writer<T>, m: Msg<T>)
    ensures Accepted(Offer(w, m)) == if HasRoom(w) then Accepted(w) + [m] else Accepted(w)
  {
  }

  lemma {:induction false} OwedSend<T>(ms: seq<Msg<T>>, item: T)
    requires Shutdown !in ms
    ensures Owed(ms + [Send(item)]) == Owed(ms) + [item]
  {
    OwedAppend(ms, [Send(item)]);
    assert [Send(item)][1..] == [];
    assert Owed([Send(item)]) == [item] + Owed([]);
  }

  lemma {:induction false} TakeInv<T>(w: Writer<T>)
    requires Inv(w) && Enabled(w, Pop)
    ensures Inv(Apply(w, Pop))
  {
    var m := w.queue[0];
    OwedAppend(w.done, [m]);
    assert [m][1..] == [];
    assert Owed([m]) == if m.Send? || m.Feed? then [m.item] else [];
    var v := Apply(w, Pop);
    assert v.done[|w.done|] == m;
    if m.Send? || m.Feed? {
      assert v.wire + v.buffer == (w.wire + w.buffer) + [m.item];
    }
  }

  lemma {:induction false} StepInv<T>(w: Writer<T>, s: Step)
    requires Inv(w) && Enabled(w, s)
    ensures Inv(Apply(w, s))
  {
    match s
    case Pop => TakeInv(w);
    case Progress(n) =>
      assert w.wire + w.buffer[..n] + w.buffer[n..] == w.wire + w.buffer;
    case Fail(kept) =>
      assert w.wire + w.buffer[..kept] <= w.wire + w.buffer;
    case _ =>
  }

  /** What the task leaves alone: the messages ever accepted, the handle, and what is on the wire. */
  lemma StepFrame<T>(w: Writer<T>, s: Step)
    requires Enabled(w, s)
    ensures Accepted(Apply(w, s)) == Accepted(w)
    ensures Apply(w, s).handle == w.handle && Apply(w, s).reported == w.reported
    ensures w.wire <= Apply(w, s).wire
  {
    if s.Pop? {
      TakeFrame(w);
    }
  }

  lemma TakeFrame<T>(w: Writer<T>)
    requires w.queue != []
    ensures Accepted(Take(w)) == Accepted(w) && Take(w).wire == w.wire
    ensures Take(w).handle == w.handle && Take(w).reported == w.reported
  {
    assert w.queue == [w.queue[0]] + w.queue[1..];
    assert Take(w).done + Take(w).queue == w.done + w.queue;
  }

  /** How the loop ends: signalled exactly by taking a Shutdown, for a sink error exactly when a sink
      operation fails, for want of handles exactly when it hangs up; and otherwise it goes on. */
  lemma LoopEnds<T>(w: Writer<T>, s: Step)
    requires Enabled(w, s) && (w.phase.Receiving? || w.phase.Busy?)
    ensures var v := Apply(w, s);
      && (v.phase == Closing(Signalled) <==> s.Pop? && w.queue[0].Shutdown?)
      && (v.phase == Closing(SinkError) <==> s.Fail?)
      && (v.phase == Closing(ActorHandlesDropped) <==> s.HangUp?)
      && (v.phase.Finished? <==> s.Crash?)
      && (v.failed <==> w.failed || s.Fail?)
  {
  }

  /** Closing the sink, or failing to, ends the task for the reason for which the loop ended. */
  lemma CloseEnds<T>(w: Writer<T>, s: Step)
    requires Enabled(w, s) && w.phase.Closing?
    ensures var v := Apply(w, s);
      && (v.phase == w.phase <==> s.Progress?)
      && (v.phase == Finished(Controlled(w.phase.why)) <==> s.CloseOk? || s.CloseFailed?)
      && (v.failed <==> w.failed || s.CloseFailed?)
  {
  }

  /** When the task has nothing to do of its own: its queue is empty and the handle is held; or it awaits the
      sink, which has yet to write what it is to flush. */
  lemma Waits<T>(w: Writer<T>)
    ensures Enabled(w, Pop) <==> w.phase.Receiving? && w.queue != []
    ensures Enabled(w, HangUp) <==> w.phase.Receiving? && w.queue == [] && !w.handle
    ensures Enabled(w, Complete) <==> w.phase.Busy? && (w.phase.mustFlush ==> w.buffer == [])
    ensures (exists n :: Enabled(w, Progress(n))) <==> !w.phase.Finished? && w.buffer != []
    ensures Enabled(w, CloseFailed) <==> w.phase.Closing?
    ensures Enabled(w, CloseOk) <==> w.phase.Closing? && w.buffer == []
    ensures Enabled(w, Fail(0)) <==> w.phase.Busy?
  {
    if !w.phase.Finished? && w.buffer != [] {
      assert Enabled(w, Progress(1));
    }
  }

  /** A fed item may stay in the buffer: the task can go on to the next message without writing it. */
  lemma FeedMayStay<T>(w: Writer<T>, item: T)
    requires w.phase.Receiving? && w.queue != [] && w.queue[0] == Feed(item)
    ensures CanRun(w, [Pop, Complete])
    ensures var v := RunSteps(w, [Pop, Complete]);
      v.phase.Receiving? && v.buffer == w.buffer + [item] && v.wire == w.wire
  {
    assert [Pop, Complete][..1] == [Pop] && [Pop][..0] == [];
    assert CanRun(w, []) && RunSteps(w, []) == w;
    assert CanRun(w, [Pop]);
  }

  /** Conservation, at every moment: what is on the wire is a prefix of what was owed when the
      queue accepted it; while no sink error has occurred nothing is missing, every accepted item
      being written, buffered, or still queued; and a task that ends as told, or because its
      handles are gone, has written all of it unless closing the sink failed. */
  lemma {:induction false} Conservation<T>(w: Writer<T>)
    requires Inv(w)
    ensures w.wire <= Owed(Accepted(w))
    ensures w.phase.Receiving? || w.phase.Busy? ==> w.wire + w.buffer + Owed(w.queue) == Owed(Accepted(w))
    ensures w.phase.Receiving? && Flushes(w.done) ==> w.buffer == [] && w.wire == Owed(w.done)
    ensures !w.failed && (EndsWith(w, Signalled) || EndsWith(w, ActorHandlesDropped)) ==>
              w.wire + w.buffer == Owed(Accepted(w))
    ensures !w.failed && (w.phase == Finished(Controlled(Signalled)) || w.phase == Finished(Controlled(ActorHandlesDropped))) ==>
              w.wire == Owed(Accepted(w))
  {
    OwedAppend(w.done, w.queue);
    assert w.wire <= w.wire + w.buffer;
    assert Owed(w.done) <= Owed(Accepted(w));
    if EndsWith(w, ActorHandlesDropped) {
      assert w.done + w.queue == w.done;
    }
    if w.buffer == [] {
      assert w.wire + w.buffer == w.wire;
    }
  }

  /** A run of the task keeps the invariant and loses or adds no message. */
  lemma {:induction false} RunInv<T>(w: Writer<T>, steps: seq<Step>)
    requires Inv(w) && CanRun(w, steps)
    ensures var v := RunSteps(w, steps); Inv(v) && v.handle == w.handle && Accepted(v) == Accepted(w)
    decreases |steps|
  {
    if steps != [] {
      RunInv(w, steps[..|steps|-1]);
      StepInv(RunSteps(w, steps[..|steps|-1]), steps[|steps|-1]);
      StepFrame(RunSteps(w, steps[..|steps|-1]), steps[|steps|-1]);
    }
  }

  /** A task that has ended on its own terms, without a sink error, has written all it ever accepted up
      to the first Shutdown. */
  lemma EndedWrote<T>(w: Writer<T>)
    requires Inv(w) && w.phase.Finished? && w.phase.shutdown.Controlled? && !w.failed
    ensures w.wire == Owed(Accepted(w))
  {
    Conservation(w);
    assert EndsWith(w, w.phase.shutdown.reason);
    assert w.phase.shutdown.reason != SinkError;
  }

  // ---- While the handle is held and nobody has asked for a shutdown ----

  ghost predicate Quiet<T>(w: Writer<T>) {
    w.handle && Shutdown !in w.done && Shutdown !in w.queue
    && !EndsWith(w, Signalled) && !EndsWith(w, ActorHandlesDropped)
  }

  lemma QuietStep<T>(w: Writer<T>, s: Step)
    requires Quiet(w) && Enabled(w, s)
    ensures Quiet(Apply(w, s))
  {
    if s.Pop? {
      assert w.queue[0] in w.queue;
      assert forall m :: m in w.queue[1..] ==> m in w.queue;
    }
  }

  lemma QuietOffer<T>(w: Writer<T>, m: Msg<T>)
    requires Quiet(w) && !m.Shutdown?
    ensures Quiet(Offer(w, m))
  {
  }

  // ---- A writer whose handle was dropped drains and stops ----

  function Rank<T>(w: Writer<T>): nat {
    3 * |w.queue| + |w.buffer| +
    match w.phase
    case Receiving => 2
    case Busy(_) => 3
    case Closing(_) => 1
    case Finished(_) => 0
  }

  /** A task that has not ended always has a step to take. Once its handle is gone each step
      brings it strictly nearer to its end, so it ends within `Rank` steps. */
  lemma StepDescends<T>(w: Writer<T>, s: Step)
    requires !w.handle && Enabled(w, s)
    ensures Rank(Apply(w, s)) < Rank(w)
  {
  }

  lemma NeverStuck<T>(w: Writer<T>)
    requires !w.handle && !w.phase.Finished?
    ensures exists s: Step :: Enabled(w, s)
  {
    var s := match w.phase
      case Receiving => if w.queue == [] then HangUp else Pop
      case Busy(_) => if w.buffer == [] then Complete else Progress(1)
      case Closing(_) => CloseFailed;
    assert Enabled(w, s);
  }

  function Pops(steps: seq<Step>): nat {
    if steps == [] then 0 else Pops(steps[..|steps|-1]) + if steps[|steps|-1].Pop? then 1 else 0
  }

  /** Whatever a writer without a handle does, it does at most `Rank` steps of it, and takes only
      messages that were queued. */
  lemma {:induction false} RunFromDropped<T>(w: Writer<T>, steps: seq<Step>)
    requires !w.handle && CanRun(w, steps)
    ensures var v := RunSteps(w, steps);
      && !v.handle
      && Rank(v) + |steps| <= Rank(w)
      && |v.queue| + Pops(steps) == |w.queue|
    decreases |steps|
  {
    if steps != [] {
      var front, last := steps[..|steps|-1], steps[|steps|-1];
      RunFromDropped(w, front);
      var u := RunSteps(w, front);
      StepFrame(u, last);
      StepDescends(u, last);
    }
  }

  /** A dropped writer drains and stops: every run of it is at most `Rank` steps and
      |queue| messages long, a run that cannot be continued has ended the task, and if the task
      ended on its own terms without a sink error then everything accepted before the drop
      (up to the first Shutdown) is on the wire. */
  lemma {:induction false} DrainsAndStops<T>(w: Writer<T>, steps: seq<Step>)
    requires Inv(w) && !w.handle && CanRun(w, steps)
    ensures |steps| <= Rank(w) && Pops(steps) <= |w.queue|
    ensures (forall s: Step :: !Enabled(RunSteps(w, steps), s)) <==> RunSteps(w, steps).phase.Finished?
    ensures var v := RunSteps(w, steps);
      v.phase.Finished? && v.phase.shutdown.Controlled? && !v.failed ==> v.wire == Owed(Accepted(w))
  {
    RunFromDropped(w, steps);
    RunInv(w, steps);
    var v := RunSteps(w, steps);
    if !v.phase.Finished? {
      NeverStuck(v);
    } else if v.phase.shutdown.Controlled? && !v.failed {
      EndedWrote(v);
    }
  }

  // ---- The task and the owner of its handle ----

  /** What happens to a writer: its own steps, and what the owner of its handle does. */
  datatype Move<T> = Task(step: Step) | Owner(m: Msg<T>) | Leave

  predicate Possible<T>(w: Writer<T>, m: Move<T>) {
    match m
    case Task(s) => Enabled(w, s)
    case Owner(_) => w.handle
    case Leave => w.handle
  }

  function Perform<T>(w: Writer<T>, m: Move<T>): Writer<T>
    requires Possible(w, m)
  {
    match m
    case Task(s) => Apply(w, s)
    case Owner(msg) => Offer(w, msg)
    case Leave => DropHandle(w)
  }

  ghost predicate CanMove<T>(w: Writer<T>, moves: seq<Move<T>>)
    decreases |moves|, 0
  {
    moves == [] || (CanMove(w, moves[..|moves|-1]) && Possible(RunMoves(w, moves[..|moves|-1]), moves[|moves|-1]))
  }

  ghost function RunMoves<T>(w: Writer<T>, moves: seq<Move<T>>): Writer<T>
    requires CanMove(w, moves)
    decreases |moves|, 1
  {
    if moves == [] then w else Perform(RunMoves(w, moves[..|moves|-1]), moves[|moves|-1])
  }

  lemma MoveSnoc<T>(w: Writer<T>, moves: seq<Move<T>>, m: Move<T>)
    requires CanMove(w, moves) && Possible(RunMoves(w, moves), m)
    ensures CanMove(w, moves + [m]) && RunMoves(w, moves + [m]) == Perform(RunMoves(w, moves), m)
  {
    assert (moves + [m])[..|moves|] == moves;
  }

  /** The messages that the owner offers, in order. */
  function Offers<T>(moves: seq<Move<T>>): seq<Msg<T>> {
    if moves == [] then []
    else Offers(moves[..|moves|-1]) + if moves[|moves|-1].Owner? then [moves[|moves|-1].m] else []
  }

  /** Whatever the task and the owner do: the invariant holds, no accepted message is forgotten, and only
      offered ones are accepted. */
  lemma {:induction false} MovesInv<T>(w: Writer<T>, moves: seq<Move<T>>)
    requires Inv(w) && CanMove(w, moves)
    ensures var v := RunMoves(w, moves);
      && Inv(v) && Accepted(w) <= Accepted(v)
      && |Accepted(v)| <= |Accepted(w)| + |Offers(moves)|
      && forall m :: m in Accepted(v) ==> m in Accepted(w) || m in Offers(moves)
    decreases |moves|
  {
    if moves != [] {
      var front, last := moves[..|moves|-1], moves[|moves|-1];
      MovesInv(w, front);
      var v := RunMoves(w, front);
      match last
      case Task(s) =>
        StepInv(v, s);
        StepFrame(v, s);
      case Owner(m) =>
        OfferInv(v, m);
        OfferAccepted(v, m);
      case Leave => OfferInv(v, Flush);
    }
  }

  // ---- The handle and the task as code ----

  /** One write actor with its handle, updated in place. */
  class WriteActor<T> {
    var queue: seq<Msg<T>>
    var handle: bool
    var phase: Phase
    var buffer: seq<T>
    var wire: seq<T>
    ghost var failed: bool
    ghost var done: seq<Msg<T>>

    ghost function View(): Writer<T>
      reads this
    {
      Writer(queue, handle, phase, buffer, wire, failed, done, false)
    }

    constructor ()
      ensures View() == Spawn()
    {
      queue, handle, phase, buffer, wire := [], true, Receiving, [], [];
      failed, done := false, [];
    }

    method SendActorMessage(m: Msg<T>) returns (r: SendResult)
      requires handle
      modifies this`queue
      ensures (View(), r) == TrySend(old(View()), m)
      ensures r == ChannelClosed <==> phase.Finished?
      ensures r == ChannelFull <==> !phase.Finished? && |old(queue)| >= 33
      ensures queue == if r.Sent? then old(queue) + [m] else old(queue)
    {
      if phase.Finished? {
        return ChannelClosed;
      }
      if |queue| >= CAPACITY {
        return ChannelFull;
      }
      queue := queue + [m];
      return Sent;
    }

    /** What is owed to the sink grows by the item, unless the handle was told that it does not. */
    method SendItem(item: T) returns (r: SendResult)
      requires handle
      modifies this`queue
      ensures (View(), r) == TrySend(old(View()), Send(item))
      ensures old(Shutdown !in Accepted(View())) ==>
        Owed(Accepted(View())) == old(Owed(Accepted(View()))) + if r.Sent? then [item] else []
    {
      OwedOffer(View(), Send(item));
      r := SendActorMessage(Send(item));
    }

    method FeedItem(item: T) returns (r: SendResult)
      requires handle
      modifies this`queue
      ensures (View(), r) == TrySend(old(View()), Feed(item))
      ensures old(Shutdown !in Accepted(View())) ==>
        Owed(Accepted(View())) == old(Owed(Accepted(View()))) + if r.Sent? then [item] else []
    {
      OwedOffer(View(), Feed(item));
      r := SendActorMessage(Feed(item));
    }

    method FlushSink() returns (r: SendResult)
      requires handle
      modifies this`queue
      ensures (View(), r) == TrySend(old(View()), Flush)
      ensures old(Shutdown !in Accepted(View())) ==> Owed(Accepted(View())) == old(Owed(Accepted(View())))
    {
      OwedOffer(View(), Flush);
      r := SendActorMessage(Flush);
    }

    method SignalShutdown() returns (r: SendResult)
      requires handle
      modifies this`queue
      ensures (View(), r) == TrySend(old(View()), Shutdown)
      ensures old(Shutdown !in Accepted(View())) ==> Owed(Accepted(View())) == old(Owed(Accepted(View())))
    {
      OwedOffer(View(), Shutdown);
      r := SendActorMessage(Shutdown);
    }

    /** `moves` is what has happened since `start`; of its offers the owner has made i. It leaves only when
        it has made all. */
    ghost predicate Course(start: Writer<T>, moves: seq<Move<T>>, offers: seq<Msg<T>>, i: nat)
      reads this
    {
      && CanMove(start, moves) && View() == RunMoves(start, moves)
      && i <= |offers| && Offers(moves) == offers[..i] && (handle || i == |offers|)
    }

    /** The owner makes its next offer, in the way that this is made. */
    method MakeOffer(offers: seq<Msg<T>>, i: nat, ghost start: Writer<T>, ghost moves: seq<Move<T>>)
        returns (ghost more: seq<Move<T>>)
      requires Course(start, moves, offers, i) && handle && i < |offers|
      modifies this`queue
      ensures Course(start, more, offers, i + 1)
    {
      MoveSnoc(start, moves, Owner(offers[i]));
      more := moves + [Owner(offers[i])];
      assert more[..|more|-1] == moves && offers[..i+1] == offers[..i] + [offers[i]];
      var r: SendResult;
      match offers[i] {
        case Send(item) => r := SendItem(item);
        case Feed(item) => r := FeedItem(item);
        case Flush => r := FlushSink();
        case Shutdown => r := SignalShutdown();
      }
    }

    method LetGo(offers: seq<Msg<T>>, ghost start: Writer<T>, ghost moves: seq<Move<T>>)
        returns (ghost more: seq<Move<T>>)
      requires Course(start, moves, offers, |offers|) && handle
      modifies this`handle
      ensures Course(start, more, offers, |offers|) && !handle
    {
      MoveSnoc(start, moves, Leave);
      more := moves + [Leave];
      assert more[..|more|-1] == moves;
      handle := false;
    }

    /** Meanwhile the owner makes any number of its offers, and may leave when it has made all. */
    method Meanwhile(offers: seq<Msg<T>>, i: nat, ghost start: Writer<T>, ghost moves: seq<Move<T>>)
        returns (j: nat, ghost more: seq<Move<T>>)
      requires Course(start, moves, offers, i)
      modifies this`queue, this`handle
      ensures Course(start, more, offers, j) && i <= j && (handle ==> old(handle))
      ensures j == i && handle == old(handle) ==> queue == old(queue)
    {
      j, more := i, moves;
      var until: nat :| i <= until <= |offers|;
      while j < until
        invariant i <= j <= until && Course(start, more, offers, j) && handle == old(handle)
        invariant j == i ==> queue == old(queue)
      {
        more := MakeOffer(offers, j, start, more);
        j := j + 1;
      }
      var leaves: bool := *;
      if leaves && handle && j == |offers| {
        more := LetGo(offers, start, more);
      }
    }

    /** A step of the task has been taken. */
    ghost method Note(s: Step, before: Writer<T>, offers: seq<Msg<T>>, i: nat, start: Writer<T>, moves: seq<Move<T>>)
        returns (more: seq<Move<T>>)
      requires CanMove(start, moves) && before == RunMoves(start, moves)
      requires i <= |offers| && Offers(moves) == offers[..i] && (handle || i == |offers|)
      requires Enabled(before, s) && View() == Apply(before, s)
      ensures Course(start, more, offers, i)
    {
      MoveSnoc(start, moves, Task(s));
      more := moves + [Task(s)];
      assert more[..|more|-1] == moves;
    }

    /** The sink writes as much of its buffer as it likes. */
    method SinkWrites(ghost offers: seq<Msg<T>>, ghost i: nat, ghost start: Writer<T>, ghost moves: seq<Move<T>>)
        returns (ghost more: seq<Move<T>>)
      requires Course(start, moves, offers, i) && !phase.Finished?
      modifies this`buffer, this`wire
      ensures Course(start, more, offers, i)
    {
      more := moves;
      var n: nat :| n <= |buffer|;
      if n > 0 {
        ghost var before := View();
        wire, buffer := wire + buffer[..n], buffer[n..];
        more := Note(Progress(n), before, offers, i, start, moves);
      }
    }

    /** The awaited sink operation succeeds or fails. */
    method SinkAnswers(ghost offers: seq<Msg<T>>, ghost i: nat, ghost start: Writer<T>, ghost moves: seq<Move<T>>)
        returns (ok: bool, ghost more: seq<Move<T>>)
      requires Course(start, moves, offers, i) && phase.Busy?
      modifies this`buffer, this`phase, this`failed
      ensures Course(start, more, offers, i)
      ensures phase == if ok then Receiving else Closing(SinkError)
      ensures ok && old(phase.mustFlush) ==> buffer == []
    {
      ghost var before := View();
      ok := *;
      ok := ok && (phase.mustFlush ==> buffer == []);
      if ok {
        phase := Receiving;
        more := Note(Complete, before, offers, i, start, moves);
      } else {
        var kept: nat :| kept <= |buffer|;
        phase, buffer, failed := Closing(SinkError), buffer[..kept], true;
        more := Note(Fail(kept), before, offers, i, start, moves);
      }
    }

    /** Awaits the sink operation in progress: the sink writes some of its buffer, the owner goes on, and
        the operation succeeds or fails. */
    method AwaitSink(offers: seq<Msg<T>>, i: nat, ghost start: Writer<T>, ghost moves: seq<Move<T>>)
        returns (ok: bool, j: nat, ghost more: seq<Move<T>>)
      requires Course(start, moves, offers, i) && phase.Busy?
      modifies this`buffer, this`wire, this`phase, this`failed, this`queue, this`handle
      ensures Course(start, more, offers, j) && i <= j && (handle ==> old(handle))
      ensures j == i && handle == old(handle) ==> queue == old(queue)
      ensures phase == if ok then Receiving else Closing(SinkError)
      ensures ok && old(phase.mustFlush) ==> buffer == []
    {
      more := SinkWrites(offers, i, start, moves);
      j, more := Meanwhile(offers, i, start, more);
      ok, more := SinkAnswers(offers, j, start, more);
    }

    /** Closes the sink, flushing all remaining output, while the owner goes on. An error is only logged. */
    method CloseSink(reason: Reason, offers: seq<Msg<T>>, i: nat, ghost start: Writer<T>, ghost moves: seq<Move<T>>)
        returns (ghost more: seq<Move<T>>)
      requires Course(start, moves, offers, i) && phase == Closing(reason)
      modifies this`buffer, this`wire, this`phase, this`failed, this`queue, this`handle
      ensures CanMove(start, more) && View() == RunMoves(start, more) && Offers(more) <= offers
      ensures phase == Finished(Controlled(reason))
    {
      more := SinkWrites(offers, i, start, moves);
      var j: nat;
      j, more := Meanwhile(offers, i, start, more);
      ghost var before := View();
      var ok: bool := *;
      ok := ok && buffer == [];
      phase, failed := Finished(Controlled(reason)), failed || !ok;
      more := Note(if ok then CloseOk else CloseFailed, before, offers, j, start, more);
    }

    /** Takes the next message off the queue. */
    method PopMessage(ghost offers: seq<Msg<T>>, ghost i: nat, ghost start: Writer<T>, ghost moves: seq<Move<T>>)
        returns (m: Msg<T>, ghost more: seq<Move<T>>)
      requires Course(start, moves, offers, i) && phase.Receiving? && queue != []
      modifies this`queue, this`done, this`buffer, this`phase
      ensures Course(start, more, offers, i)
      ensures m == old(queue[0]) && queue == old(queue[1..])
      ensures if m.Shutdown? then phase == Closing(Signalled) else phase.Busy? && (phase.mustFlush <==> !m.Feed?)
    {
      m := queue[0];
      ghost var before := View();
      queue, done := queue[1..], done + [m];
      match m {
        case Send(item) => buffer, phase := buffer + [item], Busy(true);
        case Feed(item) => buffer, phase := buffer + [item], Busy(false);
        case Flush => phase := Busy(true);
        case Shutdown => phase := Closing(Signalled);
      }
      more := Note(Pop, before, offers, i, start, moves);
    }

    /** Takes the next message off the queue and does what it says. `stop` is why that ends the loop. Unless
        it does, nothing is left in the sink's buffer after a Send or a Flush. */
    method OnMessage(offers: seq<Msg<T>>, i: nat, ghost start: Writer<T>, ghost moves: seq<Move<T>>)
        returns (stop: Option<Reason>, j: nat, ghost more: seq<Move<T>>)
      requires Course(start, moves, offers, i) && phase.Receiving? && queue != []
      modifies this
      ensures Course(start, more, offers, j) && i <= j && (handle ==> old(handle))
      ensures j == i && handle == old(handle) ==> queue == old(queue[1..])
      ensures phase == if stop.Some? then Closing(stop.value) else Receiving
      ensures stop == Some(Signalled) <==> old(queue[0]).Shutdown?
      ensures stop in {None, Some(Signalled), Some(SinkError)}
      ensures stop.None? && (old(queue[0]).Send? || old(queue[0]).Flush?) ==> buffer == []
    {
      var m: Msg<T>;
      m, more := PopMessage(offers, i, start, moves);
      if m.Shutdown? {
        return Some(Signalled), i, more;
      }
      var ok: bool;
      ok, j, more := AwaitSink(offers, i, start, more);
      stop := if ok then None else Some(SinkError);
    }

    /** Nothing is queued, so the task waits: for the owner's next offer, or for it to leave. */
    method AwaitOwner(offers: seq<Msg<T>>, i: nat, ghost start: Writer<T>, ghost moves: seq<Move<T>>)
        returns (j: nat, ghost more: seq<Move<T>>)
      requires Course(start, moves, offers, i) && handle
      modifies this`queue, this`handle
      ensures Course(start, more, offers, j) && i <= j && (j > i || !handle)
    {
      if i < |offers| {
        more := MakeOffer(offers, i, start, moves);
        j := i + 1;
      } else {
        more := LetGo(offers, start, moves);
        j := i;
      }
    }

    /** Nobody is left to send. */
    method HangUp(ghost offers: seq<Msg<T>>, ghost i: nat, ghost start: Writer<T>, ghost moves: seq<Move<T>>)
        returns (ghost more: seq<Move<T>>)
      requires Course(start, moves, offers, i) && phase.Receiving? && queue == [] && !handle
      modifies this`phase
      ensures Course(start, more, offers, i) && phase == Closing(ActorHandlesDropped)
    {
      ghost var before := View();
      phase := Closing(ActorHandlesDropped);
      more := Note(Step.HangUp, before, offers, i, start, moves);
    }

    /** The task's loop and the closing of the sink, from any state of the queue, while the owner of the
        handle makes these offers, each at any moment, and then leaves. What happens is a run of the
        task's steps and the owner's, and it ends the task. Without a sink error everything ever accepted
        up to the first Shutdown has been written. */
    method Actor(offers: seq<Msg<T>>) returns (reason: Reason, ghost moves: seq<Move<T>>)
      requires phase.Receiving? && (handle || offers == [])
      modifies this
      ensures CanMove(old(View()), moves) && View() == RunMoves(old(View()), moves) && Offers(moves) <= offers
      ensures phase == Finished(Controlled(reason))
      ensures old(Inv(View())) ==> Inv(View()) && old(Accepted(View())) <= Accepted(View())
      ensures old(Inv(View())) && !failed ==> wire == Owed(Accepted(View()))
    {
      ghost var start := View();
      moves := [];
      var i := 0;
      while true
        invariant Course(start, moves, offers, i) && phase.Receiving?
        decreases |offers| - i, handle, |queue|
      {
        if queue == [] && handle {
          i, moves := AwaitOwner(offers, i, start, moves);
        } else if queue == [] {
          reason := ActorHandlesDropped;
          moves := HangUp(offers, i, start, moves);
          break;
        } else {
          var stop: Option<Reason>;
          stop, i, moves := OnMessage(offers, i, start, moves);
          if stop.Some? {
            reason := stop.value;
            break;
          }
        }
      }
      moves := CloseSink(reason, offers, i, start, moves);
      if Inv(start) {
        MovesInv(start, moves);
        if !failed {
          EndedWrote(View());
        }
      }
    }
  }
}
