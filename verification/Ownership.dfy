/**
  The inductive invariant of the MP4 protocol.  The ids held by every queue, channel and
  thread form one multiset, `Tokens`; ownership says that it holds every job once.
 */
module Ownership {
  import opened Protocol

  // ---------- where the jobs are ----------

  function WorkerIds(w: Worker): multiset<int> {
    if w.MHold? || w.MHalf? || w.MDone? then multiset{w.job} else multiset{}
  }

  function WriterIds(w: Writer): multiset<int> {
    if w.WSend? then multiset{w.job} else multiset{}
  }

  function ReaderIds<V>(r: Reader<V>): multiset<int> {
    if r.ROfferHand? || r.RGot? || r.RCopy? || r.RStored? || r.RBack? then multiset{r.job}
    else if r.RGotStop? then multiset{STOP}
    else multiset{}
  }

  /** The job a frame carries, whether its id is raw or shifted by n. */
  function FrameIds<V>(n: nat, f: Frame<V>): multiset<int> {
    match f
    case Data(id, _) => multiset{if id >= n then id - n else id}
    case StopMsg => multiset{STOP}
    case _ => multiset{}
  }

  function InboxIds<V>(n: nat, inbox: seq<Frame<V>>): multiset<int> {
    if inbox == [] then multiset{} else FrameIds(n, inbox[0]) + InboxIds(n, inbox[1..])
  }

  function NodeIds<V>(n: nat, nd: Node<V>): multiset<int> {
    multiset(nd.todo) + multiset(nd.tosend) + InboxIds(n, nd.inbox) +
    WorkerIds(nd.worker) + WriterIds(nd.writer) + ReaderIds(nd.reader)
  }

  function Tokens<V>(n: nat, s: Sys<V>): multiset<int> {
    NodeIds(n, s.client) + NodeIds(n, s.server) + multiset(s.done)
  }

  // ---------- the invariant ----------

  function Bit(b: bool): nat { if b then 1 else 0 }

  ghost predicate OwnedOnce(n: nat, ids: multiset<int>) {
    forall j :: if 0 <= j < n then ids[j] == 1 else j != STOP ==> ids[j] == 0
  }

  /** The sentinels this node's threads have made: client main makes one when it leaves its loop,
      the client's reader one when it leaves its own. */
  function SentinelsMade<V>(nd: Node<V>): nat {
    Bit(nd.worker.MStop?) + Bit(nd.reader.RStop?)
  }

  /** The sentinels that a step of one node uses up: client main pulls one, or the client's reader takes one and waits
      for its body. */
  function SentinelsSpent<V>(nd: Node<V>, nd': Node<V>): nat {
    Bit(nd.worker.MPull? && nd'.worker != nd.worker && nd.todo != [] && nd.todo[0] == STOP) +
    Bit(nd'.reader.RStuck? && !nd.reader.RStuck?)
  }

  ghost predicate HasJob<V>(r: Reader<V>) {
    r.ROfferHand? || r.RGot? || r.RCopy? || r.RStored? || r.RBack?
  }

  /** The client's slot already holds the computed value. */
  ghost predicate Computed<V>(c: Node<V>, done: seq<int>, j: int) {
    j in done || c.worker == MDone(j) || (c.reader.RStored? && c.reader.job == j)
  }

  /** What slot j of the client holds: the result if it has been stored, something else while it is being computed
      or stored, and its initial value otherwise. */
  ghost function ClientValue<V>(p: Params<V>, c: Node<V>, done: seq<int>, j: nat): V
    requires |p.c0| == p.n && j < p.n
  {
    if Computed(c, done, j) then Compute(p, p.c0[j])
    else if c.worker == MHalf(j) then p.half(p.c0[j])
    else if c.reader.RCopy? && c.reader.job == j then p.mix(p.c0[j], c.reader.body)
    else p.c0[j]
  }

  /** The client's array, and the result in the reader's hand. */
  ghost predicate ClientSlots<V>(p: Params<V>, c: Node<V>, done: seq<int>) {
    && |p.c0| == p.n && |c.arr| == p.n
    && (forall j | 0 <= j < p.n :: c.arr[j] == ClientValue(p, c, done, j))
    && (c.reader.RGot? || c.reader.RCopy? ==>
          0 <= c.reader.job < p.n && c.reader.body == Compute(p, p.c0[c.reader.job]))
  }

  /** No sentinel is where a job is expected, and threads leave only after a full count. */
  ghost predicate ClientPlaces<V>(p: Params<V>, c: Node<V>, done: seq<int>) {
    && STOP !in done
    && !c.reader.RGotStop?
    && (STOP in c.todo ==> c.reader.RStop?)
    && (c.worker.MHold? || c.worker.MHalf? || c.worker.MDone? ==> c.worker.job != STOP)
    && (HasJob(c.reader) ==> c.reader.job != STOP)
    && (c.worker.MLeave? || c.worker.MStop? || c.reader.RStop? ==> |done| >= p.n)
  }

  /** Job 0 waits at the head of the client's queue for client main and never leaves it. */
  ghost predicate JobZero<V>(c: Node<V>, done: seq<int>, started: bool) {
    if started then 0 in WorkerIds(c.worker) || 0 in done
    else c.todo != [] && c.todo[0] == 0 && (c.worker.MCheck? || c.worker.MPull?)
  }

  /** The server has stored job j but not computed it. */
  ghost predicate Raw<V>(todo: seq<int>, worker: Worker, reader: Reader<V>, j: int) {
    j in todo || worker == MHold(j) || ((reader.RStored? || reader.ROfferHand?) && reader.job == j)
  }

  /** The server has computed job j but not sent it. */
  ghost predicate Ready(tosend: seq<int>, worker: Worker, writer: Writer, j: int) {
    j in tosend || worker == MDone(j) || writer == WSend(j)
  }

  /** The server's array: what was received in the slots of raw jobs, the result in those of ready ones. */
  ghost predicate ServerSlots<V>(p: Params<V>, v: Node<V>) {
    && |p.c0| == p.n && |v.arr| == p.n
    && (forall j | 0 <= j < p.n && Raw(v.todo, v.worker, v.reader, j) :: v.arr[j] == p.c0[j])
    && (forall j | 0 <= j < p.n && Ready(v.tosend, v.worker, v.writer, j) :: v.arr[j] == Compute(p, p.c0[j]))
    && (v.worker.MHalf? && 0 <= v.worker.job < p.n ==> v.arr[v.worker.job] == p.half(p.c0[v.worker.job]))
    && (v.reader.RGot? || v.reader.RCopy? ==> 0 <= v.reader.job < p.n && v.reader.body == p.c0[v.reader.job])
  }

  ghost predicate ServerPlaces<V>(v: Node<V>) {
    && (v.worker.MPull? || v.worker.MHold? || v.worker.MHalf? || v.worker.MDone?)
    && !v.writer.WCheck?
    && !v.reader.RCheck? && !v.reader.RBack? && !v.reader.RStuck? && !v.reader.RStop?
    && STOP !in v.todo
    && (v.worker.MHold? || v.worker.MHalf? || v.worker.MDone? ==> v.worker.job != STOP)
    && (HasJob(v.reader) ==> v.reader.job != STOP)
  }

  /** A frame to the server carries uncomputed data under a decodable id. */
  ghost predicate ToServerOk<V>(p: Params<V>, f: Frame<V>) {
    f.Data? ==> 0 <= f.id < 2 * p.n && f.id != p.n && |p.c0| == p.n && f.body == p.c0[SlotOf(p.n, f.id)]
  }

  /** A frame to the client carries a result under a raw id and uncomputed data under a shifted one. */
  ghost predicate ToClientOk<V>(p: Params<V>, f: Frame<V>) {
    f.Data? ==>
      && 0 <= f.id < 2 * p.n && |p.c0| == p.n
      && f.body == if f.id < p.n then Compute(p, p.c0[f.id]) else p.c0[f.id - p.n]
  }

  ghost predicate AllToServerOk<V>(p: Params<V>, frames: seq<Frame<V>>) {
    forall f | f in frames :: ToServerOk(p, f)
  }

  ghost predicate AllToClientOk<V>(p: Params<V>, frames: seq<Frame<V>>) {
    forall f | f in frames :: ToClientOk(p, f)
  }

  /** The part of the invariant about the client alone. */
  ghost predicate ClientOk<V>(p: Params<V>, c: Node<V>, done: seq<int>, started: bool) {
    && ClientSlots(p, c, done)
    && ClientPlaces(p, c, done)
    && JobZero(c, done, started)
    && AllToClientOk(p, c.inbox)
  }

  /** The part of the invariant about the server alone. */
  ghost predicate ServerOk<V>(p: Params<V>, v: Node<V>) {
    && ServerSlots(p, v)
    && ServerPlaces(v)
    && AllToServerOk(p, v.inbox)
  }

  ghost predicate Inv<V>(p: Params<V>, s: Sys<V>) {
    && WellFormed(p)
    && !s.fault
    && s.finished == |s.done|
    && OwnedOnce(p.n, Tokens(p.n, s))
    && Tokens(p.n, s)[STOP] <= SentinelsMade(s.client)
    && ClientOk(p, s.client, s.done, s.started)
    && ServerOk(p, s.server)
  }

  /** What ownership says to one node: its jobs are distinct, not yet counted, and keep the count
      below n. */
  ghost predicate Distinct<V>(n: nat, nd: Node<V>, done: seq<int>) {
    forall j | j != STOP ::
      && NodeIds(n, nd)[j] + multiset(done)[j] <= Bit(0 <= j < n)
      && (NodeIds(n, nd)[j] > 0 ==> |done| < n)
  }

  /** A step loses and invents no job; the sentinels change by those the step makes and those it uses up. */
  ghost predicate Balanced<V>(n: nat, me: Node<V>, o: Outcome<V>)
    requires o.Went?
  {
    && (forall j | j != STOP ::
          NodeIds(n, o.me)[j] + InboxIds(n, o.sent)[j] + multiset(o.counted)[j] == NodeIds(n, me)[j])
    && NodeIds(n, o.me)[STOP] + InboxIds(n, o.sent)[STOP] + SentinelsMade(me) + SentinelsSpent(me, o.me)
         == NodeIds(n, me)[STOP] + SentinelsMade(o.me)
    && STOP !in o.counted
  }

  // ---------- counting ----------

  lemma {:induction false} InboxConcat<V>(n: nat, a: seq<Frame<V>>, b: seq<Frame<V>>)
    ensures InboxIds(n, a + b) == InboxIds(n, a) + InboxIds(n, b)
  {
    if a == [] {
      assert a + b == b;
    } else {
      assert (a + b)[1..] == a[1..] + b;
      InboxConcat(n, a[1..], b);
    }
  }

  lemma Pop(q: seq<int>)
    requires q != []
    ensures multiset(q) == multiset{q[0]} + multiset(q[1..])
  {
    assert q == [q[0]] + q[1..];
  }

  /** A multiset that owns every job once has n elements besides its sentinels. */
  lemma {:induction false} OwnedSize(n: nat, ids: multiset<int>)
    requires OwnedOnce(n, ids)
    ensures |ids| == n + ids[STOP]
  {
    if n == 0 {
      var rest := ids[STOP := 0];
      assert forall j :: rest[j] == 0;
      assert rest == multiset{};
      assert ids == rest[STOP := ids[STOP]];
    } else {
      OwnedSize(n - 1, ids - multiset{n - 1});
      assert ids == (ids - multiset{n - 1}) + multiset{n - 1};
    }
  }

  lemma SubsetSize(a: multiset<int>, b: multiset<int>)
    requires a <= b
    ensures |a| <= |b|
  {
    assert b == a + (b - a);
  }

  /** Once every job is counted, nothing but sentinels is left anywhere. */
  lemma AllCounted(n: nat, ids: multiset<int>, done: multiset<int>, j: int)
    requires OwnedOnce(n, ids) && done <= ids && STOP !in done && |done| == n
    requires j in ids - done
    ensures j == STOP
  {
    OwnedSize(n, ids);
    var rest := ids - done;
    assert ids == done + rest;
    assert |rest| == rest[STOP];
    if j != STOP {
      SubsetSize(multiset{j} + multiset{}[STOP := rest[STOP]], rest);
    }
  }

  /** A job that is anywhere else has not been counted, so the counter has not reached n. */
  lemma Busy(n: nat, ids: multiset<int>, done: seq<int>, j: int)
    requires OwnedOnce(n, ids) && multiset(done) <= ids && STOP !in done
    requires j != STOP && multiset(done)[j] < ids[j]
    ensures 0 <= j < n && |done| < n && j !in done
  {
    DoneBound(n, ids, done);
    if |done| == n { AllCounted(n, ids, multiset(done), j); }
  }

  lemma DoneBound(n: nat, ids: multiset<int>, done: seq<int>)
    requires OwnedOnce(n, ids) && multiset(done) <= ids && STOP !in done
    ensures |done| <= n
  {
    OwnedSize(n, ids);
    SubsetSize(multiset(done) + multiset{}[STOP := ids[STOP]], ids);
  }
}
