/** What the threads of MP4 are about to send: a thread's frame stays the same whatever the others do, and the frames
    on the way make no difference to those who do not read them. */
module Sending {
  import opened Wrappers
  import opened Protocol
  import opened Ownership
  import opened Invariant
  import opened OffloadLoop
  import Theorems
  import ClientSteps

  // ---------- nodes, frames and sends ----------

  /** The thread waits for a frame. */
  predicate Receives<V>(s: Sys<V>, t: Thread) {
    IsReader(t) && Side(s, t).reader.RWait?
  }

  /** The nodes with frames between them. */
  function WithFrames<V>(s: Sys<V>, down: seq<Frame<V>>, up: seq<Frame<V>>): Sys<V> {
    s.(client := s.client.(inbox := down), server := s.server.(inbox := up))
  }

  function Quiet<V>(s: Sys<V>): Sys<V> { WithFrames(s, [], []) }

  /** The frame a thread is about to send. */
  function Sends<V>(p: Params<V>, s: Sys<V>, t: Thread): Option<Frame<V>> {
    if !Receives(s, t) && SentIn(p, s, t) != [] then Some(SentIn(p, s, t)[0]) else None
  }

  // ---------- frames in between make no difference to the others ----------

  lemma ClientReaderInbox<V>(p: Params<V>, c: Node<V>, x: seq<Frame<V>>, finished: nat)
    requires !c.reader.RWait?
    ensures var o, o' := ClientReader(p, c, finished), ClientReader(p, c.(inbox := x), finished);
      if o.Went? then o.me.inbox == c.inbox && o' == Went(o.me.(inbox := x), o.sent, o.counted) else o' == o
  {
    hide FrameFor, ClientReceive;
  }

  lemma ClientInbox<V>(p: Params<V>, c: Node<V>, x: seq<Frame<V>>, finished: nat, t: Thread)
    requires OnClient(t) && !(t == CReader && c.reader.RWait?)
    ensures var o, o' := ClientStep(p, c, finished, t), ClientStep(p, c.(inbox := x), finished, t);
      if o.Went? then o.me.inbox == c.inbox && o' == Went(o.me.(inbox := x), o.sent, o.counted) else o' == o
  {
    if t == CReader {
      ClientReaderInbox(p, c, x, finished);
    } else {
      hide FrameFor, ClientReader;
    }
  }

  lemma ServerReaderInbox<V>(p: Params<V>, v: Node<V>, x: seq<Frame<V>>)
    requires !v.reader.RWait?
    ensures var o, o' := ServerReader(p, v), ServerReader(p, v.(inbox := x));
      if o.Went? then o.me.inbox == v.inbox && o' == Went(o.me.(inbox := x), o.sent, o.counted) else o' == o
  {
    hide FrameFor, ServerReceive;
  }

  lemma ServerInbox<V>(p: Params<V>, v: Node<V>, x: seq<Frame<V>>, t: Thread)
    requires !OnClient(t) && !(t == SReader && v.reader.RWait?)
    ensures var o, o' := ServerStep(p, v, t), ServerStep(p, v.(inbox := x), t);
      if o.Went? then o.me.inbox == v.inbox && o' == Went(o.me.(inbox := x), o.sent, o.counted) else o' == o
  {
    if t == SReader {
      ServerReaderInbox(p, v, x);
    } else {
      hide FrameFor, ServerReader;
    }
  }

  lemma AtMostOne<V>(p: Params<V>, s: Sys<V>, t: Thread)
    ensures |SentIn(p, s, t)| <= 1
  {
    hide FrameFor, OnState;
  }

  /** What a step that reads nothing is with the frames, compared to without. */
  ghost predicate SameStep<V>(
      s: Sys<V>, t: Thread, sent: seq<Frame<V>>, with: Option<Sys<V>>, without: Option<Sys<V>>)
  {
    && (with.Some? <==> without.Some?)
    && (with.Some? ==> with.value.fault == without.value.fault)
    && (with.Some? && !with.value.fault ==>
          && without.value.client.inbox == (if OnClient(t) then [] else sent)
          && without.value.server.inbox == (if OnClient(t) then sent else [])
          && with.value == WithFrames(without.value, s.client.inbox + without.value.client.inbox,
                                      s.server.inbox + without.value.server.inbox))
  }

  /** The state after a step of the client, and after one of the server. */
  lemma StepIs<V>(p: Params<V>, s: Sys<V>, t: Thread, o: Outcome<V>)
    requires o == if OnClient(t) then ClientStep(p, s.client, s.finished, t) else ServerStep(p, s.server, t)
    ensures SentIn(p, s, t) == if o.Went? then o.sent else []
    ensures s.fault || o.Blocked? ==> Step(p, s, t).None?
    ensures !s.fault && o.OutOfArray? ==> Step(p, s, t) == Some(s.(fault := true))
    ensures !s.fault && o.Went? ==>
      Step(p, s, t) == Some(
        if OnClient(t) then
          Sys(o.me, s.server.(inbox := s.server.inbox + o.sent), s.finished + |o.counted|, s.done + o.counted,
              s.started || o.me.worker.MHold?, false)
        else s.(server := o.me, client := s.client.(inbox := s.client.inbox + o.sent)))
  {
    hide ClientStep, ServerStep;
  }

  lemma QuietClient<V>(p: Params<V>, s: Sys<V>, t: Thread)
    requires OnClient(t) && !Receives(s, t)
    ensures SentIn(p, Quiet(s), t) == SentIn(p, s, t)
    ensures SameStep(s, t, SentIn(p, s, t), Step(p, s, t), Step(p, Quiet(s), t))
  {
    hide ClientStep, ServerStep, Step, SentIn;
    var o, o' := ClientStep(p, s.client, s.finished, t), ClientStep(p, s.client.(inbox := []), s.finished, t);
    ClientInbox(p, s.client, [], s.finished, t);
    StepIs(p, s, t, o);
    StepIs(p, Quiet(s), t, o');
    if o.Went? { assert s.client.inbox + [] == s.client.inbox && [] + o.sent == o.sent; }
  }

  lemma QuietServer<V>(p: Params<V>, s: Sys<V>, t: Thread)
    requires !OnClient(t) && !Receives(s, t)
    ensures SentIn(p, Quiet(s), t) == SentIn(p, s, t)
    ensures SameStep(s, t, SentIn(p, s, t), Step(p, s, t), Step(p, Quiet(s), t))
  {
    hide ClientStep, ServerStep, Step, SentIn;
    var o, o' := ServerStep(p, s.server, t), ServerStep(p, s.server.(inbox := []), t);
    ServerInbox(p, s.server, [], t);
    StepIs(p, s, t, o);
    StepIs(p, Quiet(s), t, o');
    if o.Went? { assert s.server.inbox + [] == s.server.inbox && [] + o.sent == o.sent; }
  }

  lemma QuietStep<V>(p: Params<V>, s: Sys<V>, t: Thread)
    requires !Receives(s, t)
    ensures SentIn(p, Quiet(s), t) == SentIn(p, s, t)
    ensures SameStep(s, t, SentIn(p, s, t), Step(p, s, t), Step(p, Quiet(s), t))
  {
    hide Step, SentIn, SameStep;
    if OnClient(t) { QuietClient(p, s, t); } else { QuietServer(p, s, t); }
  }

  // ---------- a frame that is being written stays the same ----------

  /** A step changes no slot but one in the hand of the computing thread or of the reader, whichever makes it. */
  ghost predicate SlotsKept<V>(nd: Node<V>, nd': Node<V>, computes: bool, stores: bool) {
    |nd'.arr| == |nd.arr| && forall j | 0 <= j < |nd.arr| ::
      || nd'.arr[j] == nd.arr[j]
      || (computes && Theorems.WorkerTouches(nd, j)) || (stores && Theorems.ReaderTouches(nd, j))
  }

  lemma ClientSlotsKept<V>(p: Params<V>, c: Node<V>, finished: nat, u: Thread)
    requires OnClient(u) && ClientStep(p, c, finished, u).Went?
    ensures SlotsKept(c, ClientStep(p, c, finished, u).me, u == CMain, u == CReader)
  {
    hide FrameFor;
  }

  lemma ServerSlotsKept<V>(p: Params<V>, v: Node<V>, u: Thread)
    requires !OnClient(u) && ServerStep(p, v, u).Went?
    ensures SlotsKept(v, ServerStep(p, v, u).me, u == SWorker, u == SReader)
  {
    hide FrameFor;
  }

  /** The other threads of the node stay where they are. */
  ghost predicate OthersStay<V>(nd: Node<V>, nd': Node<V>, u: Thread) {
    && (u != CWriter && u != SWriter ==> nd'.writer == nd.writer)
    && (!IsReader(u) ==> nd'.reader == nd.reader)
    && (u != CManager && u != SManager ==> nd'.manager == nd.manager)
  }

  lemma ClientOthersStay<V>(p: Params<V>, c: Node<V>, finished: nat, u: Thread)
    requires OnClient(u) && ClientStep(p, c, finished, u).Went?
    ensures OthersStay(c, ClientStep(p, c, finished, u).me, u)
  {
    hide FrameFor;
  }

  lemma ServerOthersStay<V>(p: Params<V>, v: Node<V>, u: Thread)
    requires !OnClient(u) && ServerStep(p, v, u).Went?
    ensures OthersStay(v, ServerStep(p, v, u).me, u)
  {
    hide FrameFor;
  }

  /** What a thread of a node would send, from what the node looks like to it. */
  lemma SentFrom<V>(p: Params<V>, s: Sys<V>, t: Thread)
    requires !Receives(s, t)
    ensures var nd := Side(s, t);
      SentIn(p, s, t) ==
        match t
        case CWriter => FramesOf(if nd.writer.WSend? then FrameFor(p.n, nd.arr, nd.writer.job) else None)
        case SWriter => FramesOf(if nd.writer.WSend? then FrameFor(p.n, nd.arr, nd.writer.job) else None)
        case CReader => ReaderSends(p, nd)
        case SReader => ReaderSends(p, nd)
        case CManager => FramesOf(if nd.manager.Some? then Some(StateMsg(nd.manager.value)) else None)
        case SManager => FramesOf(if nd.manager.Some? then Some(StateMsg(nd.manager.value)) else None)
        case _ => []
  {
    hide FrameFor;
  }

  function FramesOf<V>(f: Option<Frame<V>>): seq<Frame<V>> {
    if f.Some? then [f.value] else []
  }

  function ReaderSends<V>(p: Params<V>, nd: Node<V>): seq<Frame<V>> {
    match nd.reader
    case RAsk => [Rebalance]
    case ROfferHand(j, _) => FramesOf(FrameFor(p.n, nd.arr, p.n + j))
    case _ => []
  }

  /** The slot of a frame in preparation: another thread's step does not change it. */
  lemma SlotStays<V>(p: Params<V>, nd: Node<V>, nd': Node<V>, done: seq<int>, u: Thread, id: int)
    requires Distinct(p.n, nd, done) && |nd.arr| == p.n && p.n > 0
    requires SlotsKept(nd, nd', u == CMain || u == SWorker, IsReader(u))
    requires id == STOP || (0 <= SlotOf(p.n, id) < p.n && SlotOf(p.n, id) != STOP)
    requires id != STOP ==>
      || Theorems.WriterTouches(nd, SlotOf(p.n, id))
      || (Theorems.ReaderTouches(nd, SlotOf(p.n, id)) && !IsReader(u))
    ensures FrameFor(p.n, nd'.arr, id) == FrameFor(p.n, nd.arr, id)
  {
    hide Distinct;
    if id != STOP { Theorems.DistinctIsolated(p.n, nd, done, SlotOf(p.n, id)); }
  }

  lemma WriterPersists<V>(p: Params<V>, nd: Node<V>, nd': Node<V>, done: seq<int>, u: Thread)
    requires Distinct(p.n, nd, done) && |nd.arr| == p.n && p.n > 0 && nd.writer.WSend?
    requires SlotsKept(nd, nd', u == CMain || u == SWorker, IsReader(u))
    ensures FrameFor(p.n, nd'.arr, nd.writer.job) == FrameFor(p.n, nd.arr, nd.writer.job)
  {
    ClientSteps.WriterHand(p.n, nd, done);
    hide Distinct, FrameFor, SlotsKept;
    SlotStays(p, nd, nd', done, u, nd.writer.job);
  }

  lemma ReaderPersists<V>(p: Params<V>, nd: Node<V>, nd': Node<V>, done: seq<int>, u: Thread)
    requires Distinct(p.n, nd, done) && |nd.arr| == p.n && p.n > 0 && nd.reader.ROfferHand? && !IsReader(u)
    requires nd.reader.job != STOP && FrameFor(p.n, nd.arr, p.n + nd.reader.job).Some?
    requires SlotsKept(nd, nd', u == CMain || u == SWorker, IsReader(u))
    ensures FrameFor(p.n, nd'.arr, p.n + nd.reader.job) == FrameFor(p.n, nd.arr, p.n + nd.reader.job)
  {
    ClientSteps.ReaderHand(p.n, nd, done);
    hide Distinct, SlotsKept;
    SlotStays(p, nd, nd', done, u, p.n + nd.reader.job);
  }

  /** What the nodes look like after a step of one of their threads. */
  lemma NodeStep<V>(p: Params<V>, s: Sys<V>, u: Thread, s': Sys<V>)
    requires Step(p, s, u) == Some(s') && !s'.fault
    ensures SlotsKept(Side(s, u), Side(s', u), u == CMain || u == SWorker, IsReader(u))
    ensures OthersStay(Side(s, u), Side(s', u), u)
    ensures OnClient(u) ==> s'.server == s.server.(inbox := s'.server.inbox)
    ensures !OnClient(u) ==> s'.client == s.client.(inbox := s'.client.inbox)
  {
    hide ClientStep, ServerStep, SlotsKept, OthersStay;
    if OnClient(u) {
      ClientSlotsKept(p, s.client, s.finished, u);
      ClientOthersStay(p, s.client, s.finished, u);
    } else {
      ServerSlotsKept(p, s.server, u);
      ServerOthersStay(p, s.server, u);
    }
  }

  lemma SameNode<V>(
      p: Params<V>, nd: Node<V>, nd': Node<V>, done: seq<int>, s: Sys<V>, s': Sys<V>, u: Thread, t: Thread)
    requires Distinct(p.n, nd, done) && |nd.arr| == p.n && p.n > 0 && nd == Side(s, t) && nd' == Side(s', t)
    requires HasJob(nd.reader) ==> nd.reader.job != STOP
    requires SlotsKept(nd, nd', u == CMain || u == SWorker, IsReader(u)) && OthersStay(nd, nd', u)
    requires u != t && OnClient(u) == OnClient(t) && Sends(p, s, t).Some?
    ensures !Receives(s', t) && SentIn(p, s', t) == SentIn(p, s, t)
  {
    hide Distinct, FrameFor, SlotsKept, SentIn;
    SentFrom(p, s, t);
    assert !Receives(s', t);
    SentFrom(p, s', t);
    if (t == CWriter || t == SWriter) && nd.writer.WSend? { WriterPersists(p, nd, nd', done, u); }
    if IsReader(t) && nd.reader.ROfferHand? { ReaderPersists(p, nd, nd', done, u); }
  }

  lemma OtherNode<V>(p: Params<V>, s: Sys<V>, s': Sys<V>, t: Thread)
    requires Side(s', t) == Side(s, t).(inbox := Side(s', t).inbox) && Sends(p, s, t).Some?
    ensures !Receives(s', t) && SentIn(p, s', t) == SentIn(p, s, t)
  {
    hide FrameFor, SentIn;
    SentFrom(p, s, t);
    SentFrom(p, s', t);
  }

  lemma InvParts<V>(p: Params<V>, s: Sys<V>, t: Thread)
    requires Inv(p, s)
    ensures Distinct(p.n, Side(s, t), s.done) && |Side(s, t).arr| == p.n && p.n > 0 && !s.fault
    ensures HasJob(Side(s, t).reader) ==> Side(s, t).reader.job != STOP
  {
    hide Tokens, OwnedOnce, JobZero, AllToClientOk, AllToServerOk, Distinct;
    NodesDistinct(p, s);
  }

  /** While a thread is about to send, no step of another changes what it will send: its bytes can be read from memory
      as they are written. */
  lemma SendPersists<V>(p: Params<V>, s: Sys<V>, u: Thread, s': Sys<V>, t: Thread)
    requires Inv(p, s) && Step(p, s, u) == Some(s') && !s'.fault && u != t && Sends(p, s, t).Some?
    ensures Sends(p, s', t) == Sends(p, s, t)
  {
    hide Inv, Distinct, SlotsKept, OthersStay, Step, SentIn;
    InvParts(p, s, t);
    NodeStep(p, s, u, s');
    if OnClient(u) == OnClient(t) {
      SameNode(p, Side(s, t), Side(s', t), s.done, s, s', u, t);
    } else {
      OtherNode(p, s, s', t);
    }
  }

  lemma QuietSends<V>(p: Params<V>, s: Sys<V>, t: Thread)
    ensures Sends(p, Quiet(s), t) == Sends(p, s, t) && Receives(Quiet(s), t) == Receives(s, t)
  {
    hide SentIn, Step;
    if !Receives(s, t) { QuietStep(p, s, t); }
  }

  // ---------- the numbers in a frame ----------

  /** The sizes that the state managers are about to send. */
  ghost predicate SizesFit<V>(p: Params<V>, s: Sys<V>) {
    && (s.client.manager.Some? ==> 0 <= s.client.manager.value <= p.n + 2)
    && (s.server.manager.Some? ==> 0 <= s.server.manager.value <= p.n + 2)
  }

  lemma QueuesFit<V>(p: Params<V>, s: Sys<V>)
    requires Inv(p, s)
    ensures |s.client.todo| <= p.n + 2 && |s.server.todo| <= p.n + 2
  {
    hide NodeIds, ClientOk, ServerOk;
    OwnedSize(p.n, Tokens(p.n, s));
    forall j ensures multiset(s.client.todo)[j] <= NodeIds(p.n, s.client)[j]
             ensures multiset(s.server.todo)[j] <= NodeIds(p.n, s.server)[j] {
      ClientSteps.Parts(p.n, s.client, j);
      ClientSteps.Parts(p.n, s.server, j);
    }
    SubsetSize(multiset(s.client.todo), Tokens(p.n, s));
    SubsetSize(multiset(s.server.todo), Tokens(p.n, s));
  }

  lemma StepSizes<V>(p: Params<V>, s: Sys<V>, t: Thread, s': Sys<V>)
    requires Inv(p, s) && SizesFit(p, s) && Step(p, s, t) == Some(s') && !s'.fault
    ensures SizesFit(p, s')
  {
    hide Inv, FrameFor, Step, SlotsKept;
    QueuesFit(p, s);
    NodeStep(p, s, t, s');
    if t == CManager || t == SManager { ManagerStep(p, s, t, s'); }
  }

  lemma ManagerStep<V>(p: Params<V>, s: Sys<V>, t: Thread, s': Sys<V>)
    requires Step(p, s, t) == Some(s') && (t == CManager || t == SManager)
    ensures Side(s', t).manager == if Side(s, t).manager.None? then Some(|Side(s, t).todo|) else None
  {
  }

  lemma {:induction false} ExecutionSizes<V>(p: Params<V>, schedule: seq<Thread>, states: seq<Sys<V>>, k: nat)
    requires WellFormed(p) && Execution(p, schedule, states) && MainPullsFirst(schedule, states) && k < |states|
    ensures SizesFit(p, states[k])
  {
    hide Inv, Step, EarlyOffload;
    if k > 0 {
      hide SizesFit;
      ExecutionSizes(p, schedule, states, k - 1);
      ExecutionInv(p, schedule, states, k - 1);
      ExecutionInv(p, schedule, states, k);
      InvParts(p, states[k], CMain);
      StepSizes(p, states[k - 1], schedule[k - 1], states[k]);
    }
  }

  /** What the threads of a node would send. */
  ghost predicate WouldSend<V>(p: Params<V>, nd: Node<V>, t: Thread, f: Frame<V>) {
    match t
    case CWriter => nd.writer.WSend? && FrameFor(p.n, nd.arr, nd.writer.job) == Some(f)
    case SWriter => nd.writer.WSend? && FrameFor(p.n, nd.arr, nd.writer.job) == Some(f)
    case CReader => ReaderSends(p, nd) == [f]
    case SReader => ReaderSends(p, nd) == [f]
    case CManager => nd.manager.Some? && f == StateMsg(nd.manager.value)
    case SManager => nd.manager.Some? && f == StateMsg(nd.manager.value)
    case _ => false
  }

  lemma FrameFits<V>(p: Params<V>, nd: Node<V>, done: seq<int>, t: Thread, f: Frame<V>)
    requires Distinct(p.n, nd, done) && WouldSend(p, nd, t, f) && (HasJob(nd.reader) ==> nd.reader.job != STOP)
    ensures f.Data? ==> 0 <= f.id < 2 * p.n
    ensures f.StateMsg? ==> (t == CManager || t == SManager)
  {
    ClientSteps.WriterHand(p.n, nd, done);
    ClientSteps.ReaderHand(p.n, nd, done);
    hide Distinct;
  }

  lemma SizeFits<V>(p: Params<V>, s: Sys<V>, t: Thread, f: Frame<V>)
    requires SizesFit(p, s) && WouldSend(p, Side(s, t), t, f) && f.StateMsg? && (t == CManager || t == SManager)
    ensures 0 <= f.num <= p.n + 2
  {
  }

  lemma NothingSent<V>(p: Params<V>, s: Sys<V>, t: Thread)
    requires !Receives(s, t) && Sends(p, s, t).None?
    ensures SentIn(p, s, t) == []
  {
    hide SentIn;
  }

  lemma OneFrame<V>(p: Params<V>, s: Sys<V>, t: Thread, f: Frame<V>)
    requires Sends(p, s, t) == Some(f)
    ensures !Receives(s, t) && SentIn(p, s, t) == [f]
  {
    hide SentIn, Receives;
    AtMostOne(p, s, t);
  }

  // ---------- reads ----------

  /** The bytes of a frame that is read as a whole are acted upon as the frame would be. */
  lemma ReceiveStep<V>(p: Params<V>, s: Sys<V>, t: Thread, f: Frame<V>, more: seq<Frame<V>>)
    requires Receives(s, t) && Side(s, t).inbox == [f] + more && !s.fault
    ensures var alone := if OnClient(t) then WithFrames(s, [f], []) else WithFrames(s, [], [f]);
      && Step(p, s, t).Some? && Step(p, alone, t).Some?
      && Quiet(Step(p, alone, t).value) == Step(p, alone, t).value == Quiet(Step(p, s, t).value)
      && Side(Step(p, s, t).value, t).inbox == more
      && (OnClient(t) ==> Step(p, s, t).value.server.inbox == s.server.inbox)
      && (!OnClient(t) ==> Step(p, s, t).value.client.inbox == s.client.inbox)
  {
    hide ClientStep, ServerStep, ClientReceive, ServerReceive, Step, SentIn;
    assert ([f] + more)[1..] == more && [f][1..] == [];
    var alone := if OnClient(t) then WithFrames(s, [f], []) else WithFrames(s, [], [f]);
    if OnClient(t) {
      ClientReceiveInbox(p, s.client, f, more);
      ClientReads(p, s.client, s.finished);
      ClientReads(p, alone.client, s.finished);
      StepIs(p, s, t, ClientStep(p, s.client, s.finished, t));
      StepIs(p, alone, t, ClientStep(p, alone.client, s.finished, t));
      assert s.server.inbox + [] == s.server.inbox && s.done + [] == s.done;
    } else {
      ServerReceiveInbox(p, s.server, f, more);
      ServerReads(p, s.server);
      ServerReads(p, alone.server);
      StepIs(p, s, t, ServerStep(p, s.server, t));
      StepIs(p, alone, t, ServerStep(p, alone.server, t));
      assert s.client.inbox + [] == s.client.inbox;
    }
  }

  lemma ClientReads<V>(p: Params<V>, c: Node<V>, finished: nat)
    requires c.reader.RWait? && c.inbox != []
    ensures ClientStep(p, c, finished, CReader) ==
      Went(ClientReceive(p, c, c.inbox[0]).(inbox := c.inbox[1..]), [], [])
  {
    hide ClientReceive;
  }

  lemma ServerReads<V>(p: Params<V>, v: Node<V>)
    requires v.reader.RWait? && v.inbox != []
    ensures ServerStep(p, v, SReader) == Went(ServerReceive(p, v, v.inbox[0]).(inbox := v.inbox[1..]), [], [])
  {
    hide ServerReceive;
  }

  lemma ClientReceiveInbox<V>(p: Params<V>, c: Node<V>, f: Frame<V>, more: seq<Frame<V>>)
    ensures ClientReceive(p, c.(inbox := [f]), f).(inbox := []) == ClientReceive(p, c, f).(inbox := [])
    ensures ClientReceive(p, c, f).(inbox := more).inbox == more
  {
  }

  lemma ServerReceiveInbox<V>(p: Params<V>, v: Node<V>, f: Frame<V>, more: seq<Frame<V>>)
    ensures ServerReceive(p, v.(inbox := [f]), f).(inbox := []) == ServerReceive(p, v, f).(inbox := [])
    ensures ServerReceive(p, v, f).(inbox := more).inbox == more
  {
  }

  lemma NotEarly<V>(s: Sys<V>, t: Thread)
    ensures Receives(s, t) ==> !EarlyOffload(s, t)
    ensures EarlyOffload(Quiet(s), t) == EarlyOffload(s, t)
  {
  }
}
