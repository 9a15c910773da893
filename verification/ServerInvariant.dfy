/** The broker's whole invariant, kept by its own steps and by those of its IO actors. */
module ServerInvariant {
  import opened Messages
  import opened PeerTable
  import opened Server
  import opened ServerActors
  import opened ServerSound
  import opened ServerEffects
  import opened ServerLog
  import R = ReadActor
  import W = WriteActor

  /** What the log tells, given what the broker took from the readers and why it dropped peers. */
  ghost predicate Truthful(t: Table, rs: map<Uid, TcpReader>, causes: map<Uid, Cause>, toDrop: seq<Drop>) {
    && Logged(t) && !LateUdp(t.log)
    && Transcribed(t.log, rs)
    && Accounted(t.peers.Keys, t.nextUid, causes)
    && HeardOut(rs, causes, toDrop)
    && LateExplained(t.log, causes)
  }

  ghost predicate Indexed(t: Table) {
    Exact(t) && UdpIsTcp(t)
  }

  ghost predicate Inv(s: Server) {
    && Actors(s) && Agenda(s) && Clean(s) && AssertionsHold(s)
    && Indexed(s.t) && Truthful(s.t, s.readers, s.causes, s.toDrop)
  }

  lemma StartTruthful(maxConnections: nat)
    ensures Truthful(Empty(maxConnections), map[], map[], [])
  {
    var t := Empty(maxConnections);
    var rs: map<Uid, TcpReader> := map[];
    assert Replay(t.log) == t.peers.Keys;
    assert Transcribed(t.log, rs);
  }

  lemma StartActors(maxConnections: nat)
    ensures Actors(Start(maxConnections))
  {
    var s := Start(maxConnections);
    assert R.Inv(s.udpIn) && W.Inv(s.udpOut);
  }

  lemma StartInv(maxConnections: nat)
    ensures Inv(Start(maxConnections))
  {
    StartTruthful(maxConnections);
    StartActors(maxConnections);
  }

  lemma BrokerTruthful(s: Server, b: Step)
    requires Enabled(s, b) && Issued(s) && Exact(s.t)
    requires !s.phase.Head? ==> s.toDrop == []
    requires s.t.nextUid !in s.readers
    requires Truthful(s.t, s.readers, s.causes, s.toDrop)
    ensures Truthful(TableAfter(s, b), ReadersAfter(s, b), CausesAfter(s, b), ToDropAfter(s, b))
  {
    StepLogged(s, b);
    StepLateUdp(s, b);
    StepTranscribed(s, b);
    StepAccounted(s, b);
    StepHeardOut(s, b);
    StepLateExplained(s, b);
  }

  lemma BrokerActs(s: Server, b: Step)
    requires Enabled(s, b) && Actors(s) && Agenda(s) && Clean(s) && Exact(s.t)
    ensures var v := Apply(s, b); Actors(v) && Agenda(v) && Clean(v) && AssertionsHold(v)
    ensures Effect(s, b, Apply(s, b)) && Issued(s) && s.t.nextUid !in s.readers
  {
    ActorsIssued(s);
    ActorsEndQuietly(s, b);
    StepActors(s, b);
    StepAgenda(s, b);
    StepClean(s, b);
    StepAssertions(s, b);
    ExactSizes(s.t);
    StepEffect(s, b);
  }

  lemma BrokerInv(s: Server, b: Step)
    requires Inv(s) && Enabled(s, b) && Surroundings(s, b)
    ensures Inv(Apply(s, b)) && Effect(s, b, Apply(s, b))
  {
    BrokerActs(s, b);
    BrokerTruthful(s, b);
    StepExact(s, b);
  }

  // ---- Steps of the IO actors ----

  /** What a reader may become without the broker: by a step of its task, or by what its stream does. */
  ghost predicate ReaderEvolves<T>(r: R.Reader<T>, q: R.Reader<T>) {
    && R.Inv(q) && (R.Quiet(r) ==> R.Quiet(q))
    && q.handle == r.handle && q.open == r.open && q.capacity == r.capacity && q.signals == r.signals && q.control <= r.control
    && q.taken == r.taken && q.reported == r.reported
    && (r.reported ==> q.phase == r.phase && q.out == r.out)
  }

  lemma ReaderSteps<T>(r: R.Reader<T>, a: R.Step)
    requires R.Inv(r) && R.Enabled(r, a)
    ensures ReaderEvolves(r, R.Apply(r, a)) && R.Apply(r, a).input == r.input
  {
    R.StepInv(r, a);
    R.StepFrame(r, a);
    if R.Quiet(r) {
      R.QuietKept(r);
    }
  }

  lemma ReaderArrives<T>(r: R.Reader<T>, x: T)
    requires R.Inv(r)
    ensures ReaderEvolves(r, R.Arrive(r, x)) && ReaderEvolves(r, R.End(r))
  {
    R.ArriveInv(r, x);
  }

  lemma ReaderEnds<T>(r: R.Reader<T>)
    requires R.Inv(r)
    ensures ReaderEvolves(r, R.End(r))
  {
  }

  /** The same of a writer. What it accepted stays; what it wrote only grows. */
  ghost predicate WriterEvolves<T>(w: W.Writer<T>, v: W.Writer<T>) {
    && W.Inv(v) && (W.Quiet(w) ==> W.Quiet(v))
    && v.handle == w.handle && v.reported == w.reported
    && (w.reported ==> v.phase == w.phase)
    && W.Accepted(v) == W.Accepted(w) && w.wire <= v.wire
  }

  lemma WriterSteps<T>(w: W.Writer<T>, a: W.Step)
    requires W.Inv(w) && W.Enabled(w, a)
    ensures WriterEvolves(w, W.Apply(w, a))
  {
    W.StepInv(w, a);
    W.StepFrame(w, a);
    if W.Quiet(w) {
      W.QuietStep(w, a);
    }
  }

  lemma ReaderActors(s: Server, uid: Uid, q: TcpReader)
    requires Actors(s) && uid in s.readers && ReaderEvolves(s.readers[uid], q)
    ensures Actors(s.(readers := s.readers[uid := q]))
  {
    assert ActorsOk(uid in s.t.peers, s.readers[uid], s.writers[uid]);
    CrewReader(s.t.peers.Keys, s.t.nextUid, s.readers, s.writers, uid, q);
  }

  lemma ReaderClean(s: Server, uid: Uid, q: TcpReader)
    requires Clean(s) && uid in s.readers && ReaderEvolves(s.readers[uid], q)
    ensures Clean(s.(readers := s.readers[uid := q]))
  {
  }

  lemma ReaderTruthful(t: Table, rs: map<Uid, TcpReader>, causes: map<Uid, Cause>, toDrop: seq<Drop>, uid: Uid, q: TcpReader)
    requires Truthful(t, rs, causes, toDrop) && uid in rs && ReaderEvolves(rs[uid], q)
    ensures Truthful(t, rs[uid := q], causes, toDrop)
  {
    SameTaken(t.log, rs, rs[uid := q]);
    assert forall u :: Exhausted(rs, u) ==> Exhausted(rs[uid := q], u);
  }

  lemma ReaderInv(s: Server, uid: Uid, q: TcpReader)
    requires Inv(s) && uid in s.readers && ReaderEvolves(s.readers[uid], q)
    ensures Inv(s.(readers := s.readers[uid := q]))
  {
    ReaderActors(s, uid, q);
    ReaderClean(s, uid, q);
    ReaderTruthful(s.t, s.readers, s.causes, s.toDrop, uid, q);
  }

  lemma WriterInv(s: Server, uid: Uid, v: TcpWriter)
    requires Inv(s) && uid in s.writers && WriterEvolves(s.writers[uid], v)
    ensures Inv(s.(writers := s.writers[uid := v]))
  {
    assert uid in s.readers && ActorsOk(uid in s.t.peers, s.readers[uid], s.writers[uid]);
    CrewWriter(s.t.peers.Keys, s.t.nextUid, s.readers, s.writers, uid, v);
    WriterClean(s, uid, v);
  }

  lemma WriterClean(s: Server, uid: Uid, v: TcpWriter)
    requires Clean(s) && uid in s.writers && WriterEvolves(s.writers[uid], v)
    ensures Clean(s.(writers := s.writers[uid := v]))
  {
  }

  lemma UdpInInv(s: Server, q: UdpReader)
    requires Inv(s) && ReaderEvolves(s.udpIn, q)
    ensures Inv(s.(udpIn := q))
  {
  }

  lemma UdpOutInv(s: Server, v: UdpWriter)
    requires Inv(s) && WriterEvolves(s.udpOut, v)
    ensures Inv(s.(udpOut := v))
  {
  }
}
