/** Each of the client's threads keeps the client's part of the invariant. */
module ClientSteps {
  import opened Wrappers
  import opened Protocol
  import opened Ownership
  import opened TokenMoves

  /** A step keeps the client's invariant and sends only frames the server expects. */
  ghost predicate ClientKeeps<V>(p: Params<V>, o: Outcome<V>, done: seq<int>, started: bool) {
    && !o.OutOfArray?
    && (o.Went? ==>
          && ClientOk(p, o.me, done + o.counted, started || o.me.worker.MHold?)
          && AllToServerOk(p, o.sent))
  }

  // ---------- what ownership says ----------

  lemma Parts<V>(n: nat, nd: Node<V>, j: int)
    ensures NodeIds(n, nd)[j] ==
      multiset(nd.todo)[j] + multiset(nd.tosend)[j] + InboxIds(n, nd.inbox)[j] +
      WorkerIds(nd.worker)[j] + WriterIds(nd.writer)[j] + ReaderIds(nd.reader)[j]
  {
    hide InboxIds, ReaderIds, WriterIds, WorkerIds;
  }

  /** A job in a worker's hand has not been counted and is in no other hand. */
  lemma WorkerHand<V>(n: nat, nd: Node<V>, done: seq<int>)
    requires Distinct(n, nd, done)
    ensures (nd.worker.MHold? || nd.worker.MHalf? || nd.worker.MDone?) && nd.worker.job != STOP ==>
      var j := nd.worker.job;
      && 0 <= j < n && j !in done && |done| < n
      && (HasJob(nd.reader) ==> nd.reader.job != j)
      && j !in nd.todo && j !in nd.tosend && j !in WriterIds(nd.writer)
  {
    if (nd.worker.MHold? || nd.worker.MHalf? || nd.worker.MDone?) && nd.worker.job != STOP {
      hide NodeIds, InboxIds, WriterIds;
      Parts(n, nd, nd.worker.job);
    }
  }

  lemma WriterHand<V>(n: nat, nd: Node<V>, done: seq<int>)
    requires Distinct(n, nd, done)
    ensures nd.writer.WSend? && nd.writer.job != STOP ==>
      var j := nd.writer.job;
      && 0 <= j < n && j !in done
      && (HasJob(nd.reader) ==> nd.reader.job != j) && j !in WorkerIds(nd.worker)
  {
    if nd.writer.WSend? && nd.writer.job != STOP {
      hide NodeIds, InboxIds, WorkerIds;
      Parts(n, nd, nd.writer.job);
    }
  }

  lemma ReaderHand<V>(n: nat, nd: Node<V>, done: seq<int>)
    requires Distinct(n, nd, done)
    ensures HasJob(nd.reader) && nd.reader.job != STOP ==>
      var j := nd.reader.job;
      && 0 <= j < n && j !in done && |done| < n
      && j !in nd.todo && j !in nd.tosend && j !in WorkerIds(nd.worker) && j !in WriterIds(nd.writer)
  {
    if HasJob(nd.reader) && nd.reader.job != STOP {
      hide NodeIds, InboxIds, WorkerIds, WriterIds;
      Parts(n, nd, nd.reader.job);
    }
  }

  lemma Queued<V>(n: nat, nd: Node<V>, done: seq<int>, j: int)
    requires Distinct(n, nd, done) && j in nd.todo && j != STOP
    ensures 0 <= j < n && |done| < n && j !in done
    ensures j !in ReaderIds(nd.reader)
  {
    hide NodeIds, InboxIds, WorkerIds, WriterIds, ReaderIds;
    Parts(n, nd, j);
  }

  /** The client's invariant reads only part of the node. */
  lemma ClientUntouched<V>(p: Params<V>, c: Node<V>, c': Node<V>, done: seq<int>, started: bool)
    requires c'.todo == c.todo && c'.arr == c.arr && c'.worker == c.worker && c'.reader == c.reader
    ensures ClientSlots(p, c', done) == ClientSlots(p, c, done)
    ensures ClientPlaces(p, c', done) == ClientPlaces(p, c, done)
    ensures JobZero(c, done, started) ==> JobZero(c', done, started || c'.worker.MHold?)
  {
  }

  // ---------- client main ----------

  lemma MainSlots<V>(p: Params<V>, c: Node<V>, done: seq<int>)
    requires ClientSlots(p, c, done)
    requires c.worker.MHold? || c.worker.MHalf? ==> 0 <= c.worker.job < p.n && c.worker.job !in done
    requires (c.worker.MHold? || c.worker.MHalf?) && HasJob(c.reader) ==> c.worker.job != c.reader.job
    ensures var o := ClientMain(p, c, |done|); !o.OutOfArray? && (o.Went? ==> ClientSlots(p, o.me, done + o.counted))
  {
    var o := ClientMain(p, c, |done|);
    if o.Went? {
      assert o.me.reader == c.reader && |o.me.arr| == |c.arr|;
      forall j | 0 <= j < p.n ensures o.me.arr[j] == ClientValue(p, o.me, done + o.counted, j) {
        MainSlot(p, c, done, j);
      }
    }
  }

  lemma MainSlot<V>(p: Params<V>, c: Node<V>, done: seq<int>, j: nat)
    requires |p.c0| == p.n && |c.arr| == p.n && j < p.n && c.arr[j] == ClientValue(p, c, done, j)
    requires c.worker.MHold? || c.worker.MHalf? ==> 0 <= c.worker.job < p.n && c.worker.job !in done
    requires (c.worker.MHold? || c.worker.MHalf?) && HasJob(c.reader) ==> c.worker.job != c.reader.job
    ensures var o := ClientMain(p, c, |done|);
      o.Went? ==> |o.me.arr| == p.n && o.me.arr[j] == ClientValue(p, o.me, done + o.counted, j)
  {
  }

  lemma MainPlaces<V>(p: Params<V>, c: Node<V>, done: seq<int>)
    requires ClientPlaces(p, c, done)
    ensures var o := ClientMain(p, c, |done|); o.Went? ==> ClientPlaces(p, o.me, done + o.counted)
  {
  }

  lemma MainZero<V>(p: Params<V>, c: Node<V>, done: seq<int>, started: bool)
    requires JobZero(c, done, started)
    requires !started ==> |done| < p.n
    ensures var o := ClientMain(p, c, |done|);
      o.Went? ==> JobZero(o.me, done + o.counted, started || o.me.worker.MHold?)
  {
  }

  lemma MainKeeps<V>(p: Params<V>, c: Node<V>, done: seq<int>, started: bool)
    requires ClientOk(p, c, done, started) && Distinct(p.n, c, done)
    ensures ClientKeeps(p, ClientMain(p, c, |done|), done, started)
  {
    WorkerHand(p.n, c, done);
    if !started { Queued(p.n, c, done, 0); }
    hide ClientSlots, JobZero, AllToClientOk, Distinct;
    MainPlaces(p, c, done);
    MainSlots(p, c, done);
    MainZero(p, c, done, started);
    MainFrames(p, c, |done|);
  }

  lemma MainFrames<V>(p: Params<V>, c: Node<V>, finished: nat)
    ensures var o := ClientMain(p, c, finished); o.Went? ==> o.me.inbox == c.inbox && o.sent == []
  {
  }

  // ---------- client writer ----------

  lemma WriterEffect<V>(p: Params<V>, c: Node<V>, finished: nat)
    ensures var o := ClientWriter(p, c, finished);
      && (o.OutOfArray? ==> c.writer.WSend? && FrameFor(p.n, c.arr, c.writer.job).None?)
      && (o.Went? ==>
            && o.me == c.(tosend := o.me.tosend, writer := o.me.writer) && o.counted == []
            && (o.sent == [] || (c.writer.WSend? && o.sent == [FrameFor(p.n, c.arr, c.writer.job).value])))
  {
  }

  lemma WriterKeeps<V>(p: Params<V>, c: Node<V>, done: seq<int>, started: bool)
    requires ClientOk(p, c, done, started) && Distinct(p.n, c, done)
    ensures ClientKeeps(p, ClientWriter(p, c, |done|), done, started)
  {
    WriterHand(p.n, c, done);
    hide Distinct, ClientWriter, ClientSlots, ClientPlaces, JobZero, AllToClientOk, FrameFor;
    WriterEffect(p, c, |done|);
    if c.writer.WSend? { WriterFrame(p, c, done); }
    var o := ClientWriter(p, c, |done|);
    if o.Went? {
      assert done + o.counted == done;
      ClientUntouched(p, c, o.me, done, started);
    }
  }

  lemma WriterFrame<V>(p: Params<V>, c: Node<V>, done: seq<int>)
    requires ClientSlots(p, c, done)
    requires c.writer.WSend? && (c.writer.job == STOP || (0 <= c.writer.job < p.n && !Computed(c, done, c.writer.job)))
    requires c.worker != MHalf(c.writer.job) && (HasJob(c.reader) ==> c.reader.job != c.writer.job)
    ensures var f := FrameFor(p.n, c.arr, c.writer.job); f.Some? && ToServerOk(p, f.value)
  {
  }

  // ---------- client reader ----------

  lemma CheckKeeps<V>(p: Params<V>, c: Node<V>, done: seq<int>, started: bool)
    requires ClientOk(p, c, done, started) && c.reader.RCheck?
    ensures ClientKeeps(p, ClientCheck(p, c, |done|), done, started)
  {
    var o := ClientCheck(p, c, |done|);
    if o.Went? {
      assert done + o.counted == done;
    }
  }

  lemma ReceiveSlots<V>(p: Params<V>, c: Node<V>, done: seq<int>)
    requires ClientSlots(p, c, done) && c.reader.RWait? && c.inbox != [] && ToClientOk(p, c.inbox[0])
    ensures ClientSlots(p, ClientReceive(p, c, c.inbox[0]).(inbox := c.inbox[1..]), done)
  {
    hide OnState;
    var f := c.inbox[0];
    if f.StateMsg? { StateKeepsTokens(p.policy, c, f.num, RCheck); }
  }

  lemma ReceivePlaces<V>(p: Params<V>, c: Node<V>, done: seq<int>, started: bool)
    requires ClientPlaces(p, c, done) && JobZero(c, done, started)
    requires c.reader.RWait? && c.inbox != [] && ToClientOk(p, c.inbox[0])
    ensures var c' := ClientReceive(p, c, c.inbox[0]).(inbox := c.inbox[1..]);
      ClientPlaces(p, c', done) && JobZero(c', done, started || c'.worker.MHold?)
  {
    hide OnState;
    var f := c.inbox[0];
    if f.StateMsg? { StateKeepsTokens(p.policy, c, f.num, RCheck); }
  }

  lemma ReceiveKeeps<V>(p: Params<V>, c: Node<V>, done: seq<int>, started: bool)
    requires ClientOk(p, c, done, started) && c.reader.RWait? && c.inbox != []
    ensures var o := Local(ClientReceive(p, c, c.inbox[0]).(inbox := c.inbox[1..]));
      ClientKeeps(p, o, done, started)
  {
    assert ToClientOk(p, c.inbox[0]);
    assert done + [] == done;
    hide ClientSlots, ClientPlaces, JobZero, ToClientOk, ClientReceive;
    ReceiveSlots(p, c, done);
    ReceivePlaces(p, c, done, started);
  }

  /** The offload loop sends job j as n + j with the slot's initial value, and never job 0. */
  lemma OffloadFrame<V>(p: Params<V>, c: Node<V>, done: seq<int>, started: bool)
    requires ClientOk(p, c, done, started) && Distinct(p.n, c, done) && c.reader.ROfferHand?
    ensures var j := c.reader.job;
      0 < j < p.n && FrameFor(p.n, c.arr, p.n + j) == Some(Data(p.n + j, p.c0[j]))
  {
    ReaderHand(p.n, c, done);
    if !started { Queued(p.n, c, done, 0); }
    hide Distinct;
  }

  lemma OffloadEffect<V>(p: Params<V>, me: Node<V>, home: Reader<V>)
    requires me.reader.ROffer? && me.todo != [] ==> me.todo[0] > STOP
    requires me.reader.ROfferHand? ==> FrameFor(p.n, me.arr, p.n + me.reader.job).Some?
    requires home.RCheck? || home.RWait?
    ensures var o := Offload(p, me, home);
      && !o.OutOfArray?
      && (o.Went? ==>
            && o.me == me.(todo := o.me.todo, reader := o.me.reader) && o.counted == []
            && ((o.me.todo == me.todo && (o.me.reader == home || o.me.reader.ROffer?))
                || (me.reader.ROffer? && me.reader.left > 0 && me.todo != [] && o.me.todo == me.todo[1..]
                    && o.me.reader == ROfferHand(me.todo[0], me.reader.left - 1)))
            && (o.sent == [] || o.sent == [Rebalance]
                || (me.reader.ROfferHand? && o.sent == [FrameFor(p.n, me.arr, p.n + me.reader.job).value])))
  {
  }

  lemma OffloadKeeps<V>(p: Params<V>, c: Node<V>, done: seq<int>, started: bool)
    requires ClientOk(p, c, done, started) && Distinct(p.n, c, done) && Offloading(c.reader)
    requires c.reader.ROffer? && c.reader.left > 0 ==> started
    ensures ClientKeeps(p, Offload(p, c, RCheck), done, started)
  {
    if c.reader.ROfferHand? { OffloadFrame(p, c, done, started); }
    if c.reader.ROffer? && c.todo != [] { Queued(p.n, c, done, c.todo[0]); }
    hide Distinct, Offload, FrameFor;
    OffloadEffect(p, c, RCheck);
    var o := Offload(p, c, RCheck);
    if o.Went? {
      assert done + o.counted == done;
    }
  }

  lemma DeliverKeeps<V>(p: Params<V>, c: Node<V>, done: seq<int>, started: bool)
    requires ClientOk(p, c, done, started) && Distinct(p.n, c, done) && HasJob(c.reader) && !c.reader.ROfferHand?
    ensures ClientKeeps(p, ClientDeliver(p, c), done, started)
  {
    ReaderHand(p.n, c, done);
    hide Distinct;
  }

  // ---------- any client thread ----------

  /** A state manager changes nothing the invariant reads. */
  lemma ManagerKeeps<V>(p: Params<V>, c: Node<V>, done: seq<int>, started: bool)
    requires ClientOk(p, c, done, started)
    ensures ClientKeeps(p, Manager(c), done, started)
  {
    var o := Manager(c);
    assert done + o.counted == done;
    ClientUntouched(p, c, o.me, done, started);
    hide ClientSlots, ClientPlaces, JobZero;
  }

  lemma ReaderKeeps<V>(p: Params<V>, c: Node<V>, done: seq<int>, started: bool)
    requires ClientOk(p, c, done, started) && Distinct(p.n, c, done)
    requires c.reader.ROffer? && c.reader.left > 0 ==> started
    ensures ClientKeeps(p, ClientReader(p, c, |done|), done, started)
  {
    hide ClientOk, Distinct, ClientKeeps, ClientCheck, ClientReceive, Offload, ClientDeliver;
    if
    case c.reader.RCheck? => CheckKeeps(p, c, done, started);
    case c.reader.RWait? && c.inbox != [] => ReceiveKeeps(p, c, done, started);
    case Offloading(c.reader) => OffloadKeeps(p, c, done, started);
    case HasJob(c.reader) && !c.reader.ROfferHand? => DeliverKeeps(p, c, done, started);
    case c.reader.RGotStop? || c.reader.RStuck? || c.reader.RStop? || (c.reader.RWait? && c.inbox == []) =>
      ReaderRests(p, c, done, started);
  }

  lemma ReaderRests<V>(p: Params<V>, c: Node<V>, done: seq<int>, started: bool)
    requires c.reader.RGotStop? || c.reader.RStuck? || c.reader.RStop? || (c.reader.RWait? && c.inbox == [])
    ensures ClientReader(p, c, |done|).Blocked? && ClientKeeps(p, ClientReader(p, c, |done|), done, started)
  {
  }

  lemma ReaderBalanced<V>(p: Params<V>, c: Node<V>, done: seq<int>, started: bool)
    requires ClientOk(p, c, done, started) && Distinct(p.n, c, done) && ClientReader(p, c, |done|).Went?
    ensures Balanced(p.n, c, ClientReader(p, c, |done|))
  {
    if c.reader.RWait? { assert ToClientOk(p, c.inbox[0]); }
    if c.reader.ROfferHand? { OffloadFrame(p, c, done, started); }
    if c.reader.ROffer? && c.todo != [] { Queued(p.n, c, done, c.todo[0]); }
    hide Distinct, Balanced, ClientCheck, ClientReceive, Offload, ClientDeliver, ClientSlots, JobZero,
         AllToClientOk, ToClientOk;
    if
    case c.reader.RCheck? => ClientCheckBalanced(p, c, |done|);
    case c.reader.RWait? => ClientReceiveBalanced(p, c);
    case Offloading(c.reader) => OffloadBalanced(p, c, RCheck);
    case !c.reader.RCheck? && !c.reader.RWait? && !Offloading(c.reader) => DeliverBalanced(p, c, done);
  }

  lemma DeliverBalanced<V>(p: Params<V>, c: Node<V>, done: seq<int>)
    requires ClientPlaces(p, c, done) && ClientDeliver(p, c).Went?
    ensures Balanced(p.n, c, ClientDeliver(p, c))
  {
    hide Balanced;
    ClientDeliverBalanced(p, c);
  }

  lemma ClientStepKeeps<V>(p: Params<V>, c: Node<V>, done: seq<int>, started: bool, t: Thread)
    requires ClientOk(p, c, done, started) && Distinct(p.n, c, done) && OnClient(t)
    requires t == CReader && c.reader.ROffer? && c.reader.left > 0 ==> started
    ensures ClientKeeps(p, ClientStep(p, c, |done|, t), done, started)
  {
    hide ClientOk, Distinct, ClientKeeps, ClientMain, ClientWriter, ClientReader, Manager;
    match t
    case CMain => MainKeeps(p, c, done, started);
    case CWriter => WriterKeeps(p, c, done, started);
    case CReader => ReaderKeeps(p, c, done, started);
    case CManager => ManagerKeeps(p, c, done, started);
  }

  lemma ClientStepBalanced<V>(p: Params<V>, c: Node<V>, done: seq<int>, started: bool, t: Thread)
    requires ClientOk(p, c, done, started) && Distinct(p.n, c, done) && OnClient(t)
    requires ClientStep(p, c, |done|, t).Went?
    ensures Balanced(p.n, c, ClientStep(p, c, |done|, t))
  {
    WriterHand(p.n, c, done);
    hide Distinct, Balanced, ClientMain, ClientWriter, ClientReader, Manager, ClientSlots, JobZero, AllToClientOk;
    match t
    case CMain => MainBalanced(p, c, |done|);
    case CWriter => ClientWriterBalanced(p, c, |done|);
    case CReader => ReaderBalanced(p, c, done, started);
    case CManager => ManagerBalanced(p.n, c);
  }
}
