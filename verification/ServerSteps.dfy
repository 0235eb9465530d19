/** Each of the server's threads keeps the server's part of the invariant. */
module ServerSteps {
  import opened Wrappers
  import opened Protocol
  import opened Ownership
  import opened TokenMoves
  import opened ClientSteps

  /** A step keeps the server's invariant, counts nothing and sends only frames the client expects. */
  ghost predicate ServerKeeps<V>(p: Params<V>, o: Outcome<V>) {
    && !o.OutOfArray?
    && (o.Went? ==> ServerOk(p, o.me) && AllToClientOk(p, o.sent) && o.counted == [])
  }

  // ---------- worker ----------

  lemma WorkerSlots<V>(p: Params<V>, v: Node<V>, done: seq<int>)
    requires ServerSlots(p, v) && ServerPlaces(v) && Distinct(p.n, v, done)
    ensures ServerWorker(p, v).Went? ==> ServerSlots(p, ServerWorker(p, v).me)
  {
    WorkerHand(p.n, v, done);
    ReaderHand(p.n, v, done);
    hide Distinct;
  }

  lemma WorkerPlaces<V>(p: Params<V>, v: Node<V>, done: seq<int>)
    requires ServerSlots(p, v) && ServerPlaces(v) && Distinct(p.n, v, done)
    ensures var o := ServerWorker(p, v);
      !o.OutOfArray? && (o.Went? ==> ServerPlaces(o.me) && o.me.inbox == v.inbox && o.sent == [] && o.counted == [])
  {
    WorkerHand(p.n, v, done);
    if v.todo != [] && v.todo[0] != STOP { Queued(p.n, v, done, v.todo[0]); }
    hide Distinct, Raw, Ready;
  }

  lemma WorkerKeeps<V>(p: Params<V>, v: Node<V>, done: seq<int>)
    requires ServerOk(p, v) && Distinct(p.n, v, done)
    ensures ServerKeeps(p, ServerWorker(p, v))
  {
    hide ServerSlots, ServerPlaces, AllToServerOk, Distinct, ServerWorker;
    WorkerSlots(p, v, done);
    WorkerPlaces(p, v, done);
  }

  // ---------- writer ----------

  lemma WriterSlots<V>(p: Params<V>, v: Node<V>)
    requires ServerSlots(p, v) && ServerPlaces(v)
    ensures ServerWriter(p, v).Went? ==> ServerSlots(p, ServerWriter(p, v).me)
  {
    hide Raw;
  }

  lemma WriterFrame<V>(p: Params<V>, v: Node<V>)
    requires ServerSlots(p, v) && v.writer.WSend? && (v.writer.job == STOP || 0 <= v.writer.job < p.n)
    ensures var f := FrameFor(p.n, v.arr, v.writer.job); f.Some? && ToClientOk(p, f.value)
  {
    hide Raw;
  }

  lemma WriterEffect<V>(p: Params<V>, v: Node<V>)
    requires ServerPlaces(v) && (v.writer.WSend? ==> FrameFor(p.n, v.arr, v.writer.job).Some?)
    ensures var o := ServerWriter(p, v);
      && !o.OutOfArray?
      && (o.Went? ==>
            && ServerPlaces(o.me) && o.me.inbox == v.inbox && o.counted == []
            && (o.sent == [] || (v.writer.WSend? && o.sent == [FrameFor(p.n, v.arr, v.writer.job).value])))
  {
  }

  lemma WriterKeeps<V>(p: Params<V>, v: Node<V>, done: seq<int>)
    requires ServerOk(p, v) && Distinct(p.n, v, done)
    ensures ServerKeeps(p, ServerWriter(p, v))
  {
    WriterHand(p.n, v, done);
    hide ServerSlots, ServerPlaces, AllToServerOk, Distinct, ServerWriter, FrameFor, ToClientOk;
    if v.writer.WSend? { WriterFrame(p, v); }
    WriterEffect(p, v);
    WriterSlots(p, v);
  }

  // ---------- reader ----------

  lemma ReceiveKeeps<V>(p: Params<V>, v: Node<V>)
    requires ServerOk(p, v) && v.reader.RWait? && v.inbox != []
    ensures ServerKeeps(p, Local(ServerReceive(p, v, v.inbox[0]).(inbox := v.inbox[1..])))
  {
    var f := v.inbox[0];
    assert ToServerOk(p, f);
    hide OnState, Ready;
    if f.StateMsg? { StateKeepsTokens(p.policy, v, f.num, RWait); }
  }

  /** The server's offload loop sends job j as n + j with the value it received. */
  lemma OffloadFrame<V>(p: Params<V>, v: Node<V>, done: seq<int>)
    requires ServerOk(p, v) && Distinct(p.n, v, done) && v.reader.ROfferHand?
    requires v.reader.job != 0
    ensures var j := v.reader.job;
      0 < j < p.n && FrameFor(p.n, v.arr, p.n + j) == Some(Data(p.n + j, p.c0[j]))
  {
    ReaderHand(p.n, v, done);
    hide Distinct, Ready;
    assert Raw(v.todo, v.worker, v.reader, v.reader.job);
  }

  lemma OffloadSlots<V>(p: Params<V>, v: Node<V>)
    requires ServerSlots(p, v) && Offloading(v.reader) && Offload(p, v, RWait).Went?
    ensures ServerSlots(p, Offload(p, v, RWait).me)
  {
    hide Ready;
  }

  lemma OffloadKeeps<V>(p: Params<V>, v: Node<V>, done: seq<int>)
    requires ServerOk(p, v) && Distinct(p.n, v, done) && Offloading(v.reader)
    requires v.reader.ROfferHand? ==> v.reader.job != 0
    ensures ServerKeeps(p, Offload(p, v, RWait))
  {
    if v.reader.ROfferHand? { OffloadFrame(p, v, done); }
    if v.reader.ROffer? && v.todo != [] { Queued(p.n, v, done, v.todo[0]); }
    hide Distinct, Offload, FrameFor, ServerSlots;
    OffloadEffect(p, v, RWait);
    if Offload(p, v, RWait).Went? { OffloadSlots(p, v); }
  }

  lemma DeliverSlots<V>(p: Params<V>, v: Node<V>, done: seq<int>)
    requires ServerSlots(p, v) && ServerPlaces(v) && Distinct(p.n, v, done) && ServerDeliver(p, v).Went?
    ensures ServerSlots(p, ServerDeliver(p, v).me)
  {
    ReaderHand(p.n, v, done);
    WorkerHand(p.n, v, done);
    hide Distinct;
  }

  lemma DeliverKeeps<V>(p: Params<V>, v: Node<V>, done: seq<int>)
    requires ServerOk(p, v) && Distinct(p.n, v, done)
    ensures ServerKeeps(p, ServerDeliver(p, v))
  {
    ReaderHand(p.n, v, done);
    if ServerDeliver(p, v).Went? { DeliverSlots(p, v, done); }
    hide Distinct, Raw, Ready;
  }

  lemma ReaderKeeps<V>(p: Params<V>, v: Node<V>, done: seq<int>)
    requires ServerOk(p, v) && Distinct(p.n, v, done)
    requires v.reader.ROfferHand? ==> v.reader.job != 0
    ensures ServerKeeps(p, ServerReader(p, v))
  {
    hide ServerOk, Distinct, ServerKeeps, ServerReceive, Offload, ServerDeliver;
    if
    case v.reader.RWait? && v.inbox != [] => ReceiveKeeps(p, v);
    case v.reader.RWait? && v.inbox == [] => BlockedKeeps(p, ServerReader(p, v));
    case Offloading(v.reader) => OffloadKeeps(p, v, done);
    case !v.reader.RWait? && !Offloading(v.reader) => DeliverKeeps(p, v, done);
  }

  lemma BlockedKeeps<V>(p: Params<V>, o: Outcome<V>)
    requires o.Blocked?
    ensures ServerKeeps(p, o)
  {
  }

  lemma ManagerKeeps<V>(p: Params<V>, v: Node<V>)
    requires ServerOk(p, v)
    ensures ServerKeeps(p, Manager(v))
  {
  }

  lemma ReaderBalanced<V>(p: Params<V>, v: Node<V>, done: seq<int>)
    requires ServerOk(p, v) && Distinct(p.n, v, done) && ServerReader(p, v).Went?
    ensures Balanced(p.n, v, ServerReader(p, v))
  {
    if v.reader.RWait? { assert ToServerOk(p, v.inbox[0]); }
    ReaderHand(p.n, v, done);
    if v.reader.ROffer? && v.todo != [] { Queued(p.n, v, done, v.todo[0]); }
    hide Distinct, Balanced, ServerReceive, Offload, ServerDeliver, ServerSlots, AllToServerOk, ToServerOk;
    if
    case v.reader.RWait? => ServerReceiveBalanced(p, v);
    case Offloading(v.reader) => OffloadBalanced(p, v, RWait);
    case !v.reader.RWait? && !Offloading(v.reader) => ServerDeliverBalanced(p, v);
  }

  // ---------- any server thread ----------

  lemma ServerStepKeeps<V>(p: Params<V>, v: Node<V>, done: seq<int>, t: Thread)
    requires ServerOk(p, v) && Distinct(p.n, v, done) && !OnClient(t)
    requires v.reader.ROfferHand? ==> v.reader.job != 0
    ensures ServerKeeps(p, ServerStep(p, v, t))
  {
    hide ServerOk, Distinct, ServerKeeps, ServerWorker, ServerWriter, ServerReader, Manager;
    match t
    case SWorker => WorkerKeeps(p, v, done);
    case SWriter => WriterKeeps(p, v, done);
    case SReader => ReaderKeeps(p, v, done);
    case SManager => ManagerKeeps(p, v);
  }

  lemma ServerStepBalanced<V>(p: Params<V>, v: Node<V>, done: seq<int>, t: Thread)
    requires ServerOk(p, v) && Distinct(p.n, v, done) && !OnClient(t)
    requires ServerStep(p, v, t).Went?
    ensures Balanced(p.n, v, ServerStep(p, v, t))
  {
    WriterHand(p.n, v, done);
    if v.todo != [] { Queued(p.n, v, done, v.todo[0]); }
    hide Distinct, Balanced, ServerWorker, ServerWriter, ServerReader, Manager, ServerSlots, AllToServerOk;
    match t
    case SWorker => WorkerBalanced(p, v);
    case SWriter => ServerWriterBalanced(p, v);
    case SReader => ReaderBalanced(p, v, done);
    case SManager => ManagerBalanced(p.n, v);
  }

  lemma WorkerBalanced<V>(p: Params<V>, v: Node<V>)
    requires ServerWorker(p, v).Went? && (v.todo != [] ==> v.todo[0] >= 0)
    ensures Balanced(p.n, v, ServerWorker(p, v))
  {
    hide Balanced;
    ServerWorkerBalanced(p, v);
  }
}
