/** No step of a thread loses, copies or invents a job. */
module TokenMoves {
  import opened Wrappers
  import opened Protocol
  import opened Ownership

  // ---------- one field of a node at a time ----------

  lemma SetWorker<V>(n: nat, nd: Node<V>, w: Worker, j: int)
    ensures NodeIds(n, nd.(worker := w))[j] + WorkerIds(nd.worker)[j] == NodeIds(n, nd)[j] + WorkerIds(w)[j]
  {
    hide InboxIds, ReaderIds, WriterIds, WorkerIds;
  }

  lemma SetWriter<V>(n: nat, nd: Node<V>, w: Writer, j: int)
    ensures NodeIds(n, nd.(writer := w))[j] + WriterIds(nd.writer)[j] == NodeIds(n, nd)[j] + WriterIds(w)[j]
  {
    hide InboxIds, ReaderIds, WriterIds, WorkerIds;
  }

  lemma SetReader<V>(n: nat, nd: Node<V>, r: Reader<V>, j: int)
    ensures NodeIds(n, nd.(reader := r))[j] + ReaderIds(nd.reader)[j] == NodeIds(n, nd)[j] + ReaderIds(r)[j]
  {
    hide InboxIds, ReaderIds, WriterIds, WorkerIds;
  }

  lemma PopTodo<V>(n: nat, nd: Node<V>, j: int)
    requires nd.todo != []
    ensures NodeIds(n, nd.(todo := nd.todo[1..]))[j] + Bit(j == nd.todo[0]) == NodeIds(n, nd)[j]
  {
    hide InboxIds, ReaderIds, WriterIds, WorkerIds;
    Pop(nd.todo);
  }

  lemma PushTodo<V>(n: nat, nd: Node<V>, x: int, j: int)
    ensures NodeIds(n, nd.(todo := nd.todo + [x]))[j] == NodeIds(n, nd)[j] + Bit(j == x)
  {
    hide InboxIds, ReaderIds, WriterIds, WorkerIds;
  }

  lemma PopTosend<V>(n: nat, nd: Node<V>, j: int)
    requires nd.tosend != []
    ensures NodeIds(n, nd.(tosend := nd.tosend[1..]))[j] + Bit(j == nd.tosend[0]) == NodeIds(n, nd)[j]
  {
    hide InboxIds, ReaderIds, WriterIds, WorkerIds;
    Pop(nd.tosend);
  }

  lemma PushTosend<V>(n: nat, nd: Node<V>, x: int, j: int)
    ensures NodeIds(n, nd.(tosend := nd.tosend + [x]))[j] == NodeIds(n, nd)[j] + Bit(j == x)
  {
    hide InboxIds, ReaderIds, WriterIds, WorkerIds;
  }

  lemma PopInbox<V>(n: nat, nd: Node<V>, j: int)
    requires nd.inbox != []
    ensures NodeIds(n, nd.(inbox := nd.inbox[1..]))[j] + FrameIds(n, nd.inbox[0])[j] == NodeIds(n, nd)[j]
  {
    hide ReaderIds, WriterIds, WorkerIds, FrameIds;
  }

  lemma AddInbox<V>(n: nat, nd: Node<V>, sent: seq<Frame<V>>)
    ensures NodeIds(n, nd.(inbox := nd.inbox + sent)) == NodeIds(n, nd) + InboxIds(n, sent)
  {
    InboxConcat(n, nd.inbox, sent);
    hide InboxIds, ReaderIds, WriterIds, WorkerIds, FrameIds;
  }

  /** The fields the multiset of ids does not depend on. */
  lemma SetOther<V>(n: nat, nd: Node<V>, arr: seq<V>, manager: Option<int>, peer: int, asked: bool)
    ensures NodeIds(n, nd.(arr := arr, manager := manager, peer := peer, asked := asked)) == NodeIds(n, nd)
  {
    hide InboxIds, ReaderIds, WriterIds, WorkerIds;
  }

  // ---------- one thread at a time ----------

  lemma MainPullTokens<V>(p: Params<V>, c: Node<V>, finished: nat, j: int)
    requires c.worker.MPull? && c.todo != []
    ensures var o := ClientMain(p, c, finished);
      o.Went? && o.sent == [] && o.counted == [] &&
      NodeIds(p.n, o.me)[j] + Bit(c.todo[0] == STOP == j) == NodeIds(p.n, c)[j]
  {
    hide NodeIds;
    var o := ClientMain(p, c, finished);
    SetWorker(p.n, c, o.me.worker, j);
    PopTodo(p.n, c.(worker := o.me.worker), j);
  }

  lemma MainHandTokens<V>(p: Params<V>, c: Node<V>, finished: nat, j: int)
    requires c.worker.MHold? || c.worker.MHalf? || c.worker.MDone? || c.worker.MCheck?
    requires ClientMain(p, c, finished).Went?
    ensures var o := ClientMain(p, c, finished);
      o.sent == [] && NodeIds(p.n, o.me)[j] + multiset(o.counted)[j] == NodeIds(p.n, c)[j]
  {
    hide NodeIds;
    var o := ClientMain(p, c, finished);
    SetWorker(p.n, c, o.me.worker, j);
    var c1 := c.(worker := o.me.worker);
    SetOther(p.n, c1, o.me.arr, c1.manager, c1.peer, c1.asked);
    assert o.me == c1.(arr := o.me.arr);
  }

  lemma MainLeaveTokens<V>(p: Params<V>, c: Node<V>, finished: nat, j: int)
    requires c.worker.MLeave? && ClientMain(p, c, finished).Went?
    ensures var o := ClientMain(p, c, finished);
      o.sent == [] && o.counted == [] && NodeIds(p.n, o.me)[j] == NodeIds(p.n, c)[j] + Bit(j == STOP)
  {
    hide NodeIds;
    var o := ClientMain(p, c, finished);
    SetWorker(p.n, c, o.me.worker, j);
    PushTosend(p.n, c.(worker := o.me.worker), STOP, j);
  }

  lemma MainTokens<V>(p: Params<V>, c: Node<V>, finished: nat, j: int)
    requires ClientMain(p, c, finished).Went?
    ensures var o := ClientMain(p, c, finished);
      o.sent == [] && (c.worker.MPull? ==> c.todo != []) &&
      NodeIds(p.n, o.me)[j] + multiset(o.counted)[j] + Bit(c.worker.MPull? && c.todo[0] == STOP == j)
      == NodeIds(p.n, c)[j] + Bit(c.worker.MLeave? && j == STOP)
  {
    MainGoes(p, c, finished);
    hide NodeIds, ClientMain;
    if c.worker.MPull? { MainPullTokens(p, c, finished, j); }
    else if c.worker.MLeave? { MainLeaveTokens(p, c, finished, j); }
    else { MainHandTokens(p, c, finished, j); }
  }

  lemma MainGoes<V>(p: Params<V>, c: Node<V>, finished: nat)
    requires ClientMain(p, c, finished).Went?
    ensures !c.worker.MStop? && (c.worker.MPull? ==> c.todo != [])
  {
  }

  lemma MainBalanced<V>(p: Params<V>, c: Node<V>, finished: nat)
    requires ClientMain(p, c, finished).Went?
    requires c.worker.MDone? ==> c.worker.job != STOP
    ensures Balanced(p.n, c, ClientMain(p, c, finished))
  {
    hide NodeIds;
    forall j { MainTokens(p, c, finished, j); }
  }

  lemma NoFrames<V>(n: nat)
    ensures InboxIds<V>(n, []) == multiset{}
  {
  }

  /** A transferred id reaches the peer as the same job. */
  lemma TransferTokens<V>(n: nat, arr: seq<V>, id: int, next: Node<V>, job: int)
    requires Transfer(n, arr, id, next).Went?
    requires if id >= n then id == n + job else id == job
    ensures InboxIds(n, Transfer(n, arr, id, next).sent) == multiset{job}
    ensures Transfer(n, arr, id, next).me == next && Transfer(n, arr, id, next).counted == []
  {
    NoFrames<V>(n);
  }

  lemma ClientWriterBalanced<V>(p: Params<V>, c: Node<V>, finished: nat)
    requires ClientWriter(p, c, finished).Went?
    requires c.writer.WSend? ==> c.writer.job < p.n
    ensures Balanced(p.n, c, ClientWriter(p, c, finished))
  {
    hide NodeIds, InboxIds;
    var o := ClientWriter(p, c, finished);
    if c.writer.WSend? { TransferTokens(p.n, c.arr, c.writer.job, o.me, c.writer.job); }
    else { NoFrames<V>(p.n); }
    forall j ensures NodeIds(p.n, o.me)[j] + InboxIds(p.n, o.sent)[j] == NodeIds(p.n, c)[j] {
      SetWriter(p.n, c, o.me.writer, j);
      if c.writer.WPull? { PopTosend(p.n, c.(writer := o.me.writer), j); }
    }
  }

  lemma ServerWriterBalanced<V>(p: Params<V>, v: Node<V>)
    requires ServerWriter(p, v).Went?
    requires v.writer.WSend? ==> v.writer.job < p.n
    ensures Balanced(p.n, v, ServerWriter(p, v))
  {
    hide NodeIds, InboxIds;
    var o := ServerWriter(p, v);
    if v.writer.WSend? { TransferTokens(p.n, v.arr, v.writer.job, o.me, v.writer.job); }
    else { NoFrames<V>(p.n); }
    forall j ensures NodeIds(p.n, o.me)[j] + InboxIds(p.n, o.sent)[j] == NodeIds(p.n, v)[j] {
      SetWriter(p.n, v, o.me.writer, j);
      if v.writer.WPull? { PopTosend(p.n, v.(writer := o.me.writer), j); }
    }
  }

  lemma OffloadTokens<V>(p: Params<V>, me: Node<V>, home: Reader<V>, j: int)
    requires Offload(p, me, home).Went? && (home.RCheck? || home.RWait?)
    requires me.reader.ROfferHand? ==> me.reader.job >= 0
    requires me.reader.ROffer? && me.todo != [] ==> me.todo[0] >= 0
    ensures var o := Offload(p, me, home);
      o.counted == [] && NodeIds(p.n, o.me)[j] + InboxIds(p.n, o.sent)[j] == NodeIds(p.n, me)[j]
  {
    hide NodeIds, InboxIds;
    var o := Offload(p, me, home);
    if me.reader.ROfferHand? {
      hide FrameFor;
      TransferTokens(p.n, me.arr, p.n + me.reader.job, me.(reader := ROffer(me.reader.rest)), me.reader.job);
      SetReader(p.n, me, ROffer(me.reader.rest), j);
    } else {
      NoFrames<V>(p.n);
      InboxAsk<V>(p.n);
      SetReader(p.n, me, o.me.reader, j);
      if me.reader.ROffer? && me.reader.left > 0 { PopTodo(p.n, me.(reader := o.me.reader), j); }
    }
  }

  lemma OffloadSentinels<V>(p: Params<V>, me: Node<V>, home: Reader<V>)
    requires Offload(p, me, home).Went? && (home.RCheck? || home.RWait?)
    ensures var o := Offload(p, me, home);
      o.counted == [] && SentinelsMade(o.me) == SentinelsMade(me) && SentinelsSpent(me, o.me) == 0
  {
    hide FrameFor;
  }

  lemma OffloadBalanced<V>(p: Params<V>, me: Node<V>, home: Reader<V>)
    requires Offload(p, me, home).Went? && (home.RCheck? || home.RWait?)
    requires me.reader.ROfferHand? ==> me.reader.job >= 0
    requires me.reader.ROffer? && me.todo != [] ==> me.todo[0] >= 0
    ensures Balanced(p.n, me, Offload(p, me, home))
  {
    hide NodeIds, InboxIds, Offload, SentinelsMade, SentinelsSpent;
    var o := Offload(p, me, home);
    OffloadTokens(p, me, home, STOP);
    OffloadSentinels(p, me, home);
    forall j ensures NodeIds(p.n, o.me)[j] + InboxIds(p.n, o.sent)[j] == NodeIds(p.n, me)[j] {
      OffloadTokens(p, me, home, j);
    }
  }

  lemma InboxAsk<V>(n: nat)
    ensures InboxIds<V>(n, [Rebalance]) == multiset{}
  {
    NoFrames<V>(n);
  }

  lemma ManagerBalanced<V>(n: nat, me: Node<V>)
    ensures Manager(me).Went? && Balanced(n, me, Manager(me))
  {
    hide NodeIds;
    var o := Manager(me);
    NoFrames<V>(n);
    assert InboxIds(n, o.sent) == multiset{};
    SetOther(n, me, me.arr, o.me.manager, me.peer, me.asked);
  }

  lemma ClientCheckBalanced<V>(p: Params<V>, c: Node<V>, finished: nat)
    requires c.reader.RCheck? && ClientCheck(p, c, finished).Went?
    ensures Balanced(p.n, c, ClientCheck(p, c, finished))
  {
    hide NodeIds;
    var o := ClientCheck(p, c, finished);
    forall j ensures NodeIds(p.n, o.me)[j] == NodeIds(p.n, c)[j] + Bit(o.me.reader.RStop? && j == STOP) {
      SetReader(p.n, c, o.me.reader, j);
      if o.me.reader.RStop? { PushTodo(p.n, c.(reader := o.me.reader), STOP, j); }
    }
  }

  /** Receiving turns the ids of the first frame into the ids of the reader's hand. */
  lemma ReceiveTokens<V>(n: nat, me: Node<V>, me': Node<V>, j: int)
    requires me.reader.RWait? && me.inbox != []
    requires me' == me.(inbox := me.inbox[1..], reader := me'.reader, peer := me'.peer, asked := me'.asked)
    ensures NodeIds(n, me')[j] + FrameIds(n, me.inbox[0])[j] == NodeIds(n, me)[j] + ReaderIds(me'.reader)[j]
  {
    hide NodeIds, FrameIds;
    SetReader(n, me, me'.reader, j);
    var me1 := me.(reader := me'.reader);
    PopInbox(n, me1, j);
    var me2 := me1.(inbox := me.inbox[1..]);
    SetOther(n, me2, me2.arr, me2.manager, me'.peer, me'.asked);
  }

  lemma StateKeepsTokens<V>(policy: int, me: Node<V>, num: int, home: Reader<V>)
    requires home.RCheck? || home.RWait?
    ensures var me' := OnState(policy, me, num, home);
      && me' == me.(reader := me'.reader, peer := me'.peer)
      && (me'.reader == home || me'.reader.RAsk? || me'.reader.ROffer?)
  {
  }

  lemma ClientReceives<V>(p: Params<V>, c: Node<V>, f: Frame<V>)
    requires ToClientOk(p, f)
    ensures var c' := ClientReceive(p, c, f);
      && c' == c.(reader := c'.reader, peer := c'.peer, asked := c'.asked)
      && !c'.reader.RStop? && (c'.reader.RStuck? <==> f.StopMsg?)
      && FrameIds(p.n, f) == (if f.StopMsg? then multiset{STOP} else ReaderIds(c'.reader))
      && (f.StopMsg? ==> ReaderIds(c'.reader) == multiset{})
  {
    hide OnState;
    if f.StateMsg? { StateKeepsTokens(p.policy, c, f.num, RCheck); }
  }

  lemma ClientReceiveBalanced<V>(p: Params<V>, c: Node<V>)
    requires c.reader.RWait? && c.inbox != [] && ToClientOk(p, c.inbox[0])
    ensures Balanced(p.n, c, Local(ClientReceive(p, c, c.inbox[0]).(inbox := c.inbox[1..])))
  {
    hide NodeIds, ClientReceive, ReaderIds, FrameIds;
    ClientReceives(p, c, c.inbox[0]);
    var c' := ClientReceive(p, c, c.inbox[0]).(inbox := c.inbox[1..]);
    NoFrames<V>(p.n);
    forall j ensures NodeIds(p.n, c')[j] + Bit(c.inbox[0].StopMsg? && j == STOP) == NodeIds(p.n, c)[j] {
      ReceiveTokens(p.n, c, c', j);
    }
  }

  lemma ClientDeliverTokens<V>(p: Params<V>, c: Node<V>, j: int)
    requires ClientDeliver(p, c).Went? && c.reader.job != STOP
    ensures var o := ClientDeliver(p, c);
      && o.sent == [] && multiset(o.counted)[STOP] == 0
      && SentinelsMade(o.me) == SentinelsMade(c) && SentinelsSpent(c, o.me) == 0
      && NodeIds(p.n, o.me)[j] + multiset(o.counted)[j] == NodeIds(p.n, c)[j]
  {
    hide NodeIds;
    var o := ClientDeliver(p, c);
    SetReader(p.n, c, o.me.reader, j);
    var c1 := c.(reader := o.me.reader);
    if c.reader.RBack? { PushTodo(p.n, c1, c.reader.job, j); }
    else { SetOther(p.n, c1, o.me.arr, c1.manager, c1.peer, c1.asked); }
  }

  lemma ClientDeliverBalanced<V>(p: Params<V>, c: Node<V>)
    requires ClientDeliver(p, c).Went? && c.reader.job != STOP
    ensures Balanced(p.n, c, ClientDeliver(p, c))
  {
    hide NodeIds, ClientDeliver, SentinelsMade, SentinelsSpent;
    var o := ClientDeliver(p, c);
    ClientDeliverTokens(p, c, STOP);
    forall j ensures NodeIds(p.n, o.me)[j] + multiset(o.counted)[j] == NodeIds(p.n, c)[j] {
      ClientDeliverTokens(p, c, j);
    }
  }

  lemma ServerReceives<V>(p: Params<V>, v: Node<V>, f: Frame<V>)
    requires ToServerOk(p, f)
    ensures var v' := ServerReceive(p, v, f);
      && v' == v.(reader := v'.reader, peer := v'.peer, asked := v'.asked)
      && !v'.reader.RStop? && !v'.reader.RStuck?
      && FrameIds(p.n, f) == ReaderIds(v'.reader)
  {
    hide OnState;
    if f.StateMsg? { StateKeepsTokens(p.policy, v, f.num, RWait); }
  }

  lemma ServerReceiveBalanced<V>(p: Params<V>, v: Node<V>)
    requires v.reader.RWait? && v.inbox != [] && ToServerOk(p, v.inbox[0])
    ensures Balanced(p.n, v, Local(ServerReceive(p, v, v.inbox[0]).(inbox := v.inbox[1..])))
  {
    hide NodeIds, ServerReceive, ReaderIds, FrameIds;
    ServerReceives(p, v, v.inbox[0]);
    var v' := ServerReceive(p, v, v.inbox[0]).(inbox := v.inbox[1..]);
    NoFrames<V>(p.n);
    forall j ensures NodeIds(p.n, v')[j] == NodeIds(p.n, v)[j] {
      ReceiveTokens(p.n, v, v', j);
    }
  }

  lemma ServerDeliverTokens<V>(p: Params<V>, v: Node<V>, j: int)
    requires ServerDeliver(p, v).Went?
    ensures var o := ServerDeliver(p, v);
      && o.sent == [] && SentinelsMade(o.me) == SentinelsMade(v) && SentinelsSpent(v, o.me) == 0
      && NodeIds(p.n, o.me)[j] == NodeIds(p.n, v)[j]
  {
    hide NodeIds;
    var o := ServerDeliver(p, v);
    SetReader(p.n, v, o.me.reader, j);
    var v1 := v.(reader := o.me.reader);
    if v.reader.RStored? { PushTodo(p.n, v1, v.reader.job, j); }
    else if v.reader.RGotStop? { PushTosend(p.n, v1, STOP, j); }
    else { SetOther(p.n, v1, o.me.arr, v1.manager, v1.peer, v1.asked); }
  }

  lemma ServerDeliverBalanced<V>(p: Params<V>, v: Node<V>)
    requires ServerDeliver(p, v).Went?
    ensures Balanced(p.n, v, ServerDeliver(p, v))
  {
    hide NodeIds;
    var o := ServerDeliver(p, v);
    ServerDeliverTokens(p, v, STOP);
    forall j ensures NodeIds(p.n, o.me)[j] == NodeIds(p.n, v)[j] {
      hide ServerDeliver;
      ServerDeliverTokens(p, v, j);
    }
  }

  lemma ServerWorkerTokens<V>(p: Params<V>, v: Node<V>, j: int)
    requires ServerWorker(p, v).Went?
    requires v.worker.MPull? ==> v.todo[0] >= 0
    ensures var o := ServerWorker(p, v);
      && o.sent == [] && o.counted == []
      && SentinelsMade(o.me) == SentinelsMade(v) && SentinelsSpent(v, o.me) == 0
      && NodeIds(p.n, o.me)[j] == NodeIds(p.n, v)[j]
  {
    hide NodeIds;
    var o := ServerWorker(p, v);
    SetWorker(p.n, v, o.me.worker, j);
    var v1 := v.(worker := o.me.worker);
    if v.worker.MPull? { PopTodo(p.n, v1, j); }
    else if v.worker.MDone? { PushTosend(p.n, v1, v.worker.job, j); }
    else { SetOther(p.n, v1, o.me.arr, v1.manager, v1.peer, v1.asked); }
  }

  lemma ServerWorkerBalanced<V>(p: Params<V>, v: Node<V>)
    requires ServerWorker(p, v).Went?
    requires v.worker.MPull? ==> v.todo[0] >= 0
    ensures Balanced(p.n, v, ServerWorker(p, v))
  {
    hide NodeIds, ServerWorker, SentinelsMade, SentinelsSpent;
    ServerWorkerTokens(p, v, STOP);
    forall j ensures NodeIds(p.n, ServerWorker(p, v).me)[j] == NodeIds(p.n, v)[j] {
      ServerWorkerTokens(p, v, j);
    }
  }
}
