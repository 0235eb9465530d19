/** What holds in every reachable state of every schedule in which client main pulls first. */
module Theorems {
  import opened Wrappers
  import opened Protocol
  import opened Ownership
  import opened ClientSteps
  import opened Invariant

  /** The array after one thread has computed the jobs 0, ..., k - 1 one after the other. */
  function Sequential<V>(p: Params<V>, k: nat): (arr: seq<V>)
    requires |p.c0| == p.n && k <= p.n
    ensures |arr| == p.n
  {
    if k == 0 then p.c0
    else var arr := Sequential(p, k - 1); arr[k - 1 := Compute(p, arr[k - 1])]
  }

  lemma {:induction false} SequentialAt<V>(p: Params<V>, k: nat, j: nat)
    requires |p.c0| == p.n && j < p.n && k <= p.n
    ensures Sequential(p, k)[j] == if j < k then Compute(p, p.c0[j]) else p.c0[j]
  {
    if k > 0 {
      SequentialAt(p, k - 1, j);
    }
  }

  // ---------- ownership ----------

  /** Every job is in exactly one place. */
  lemma UniqueOwner<V>(p: Params<V>, schedule: seq<Thread>, states: seq<Sys<V>>, s: Sys<V>, j: int)
    requires Reached(p, schedule, states, s)
    ensures 0 <= j < p.n ==> Tokens(p.n, s)[j] == 1
    ensures j in Tokens(p.n, s) ==> STOP <= j < p.n
  {
    hide Tokens;
    ReachedInv(p, schedule, states, s);
    hide Reached, ClientOk, ServerOk;
  }

  /** The counter counts the finished jobs, each of them once. */
  lemma CounterCounts<V>(p: Params<V>, schedule: seq<Thread>, states: seq<Sys<V>>, s: Sys<V>)
    requires Reached(p, schedule, states, s)
    ensures s.finished == |s.done| == |set j | j in s.done| <= p.n
    ensures forall j | j in s.done :: 0 <= j < p.n
  {
    hide Reached, NodeIds, ClientSlots, JobZero, ServerOk, AllToClientOk;
    ReachedInv(p, schedule, states, s);
    DoneBound(p.n, Tokens(p.n, s), s.done);
    NoRepeats(s.done);
    forall j | j in s.done ensures 0 <= j < p.n {
      assert Tokens(p.n, s)[j] >= multiset(s.done)[j] > 0;
    }
  }

  lemma {:induction false} NoRepeats(q: seq<int>)
    requires forall j :: multiset(q)[j] <= 1
    ensures |q| == |set j | j in q|
  {
    if q != [] {
      var k := |q| - 1;
      var x := q[k];
      assert q == q[..k] + [x];
      assert multiset(q) == multiset(q[..k]) + multiset{x};
      assert forall j :: multiset(q[..k])[j] <= multiset(q)[j];
      assert multiset(q[..k])[x] == 0;
      NoRepeats(q[..k]);
      assert (set j | j in q) == (set j | j in q[..k]) + {x};
    }
  }

  // ---------- the result ----------

  /** When all jobs are counted the client's array is the one a sequential loop leaves. */
  lemma EndToEnd<V>(p: Params<V>, schedule: seq<Thread>, states: seq<Sys<V>>, s: Sys<V>)
    requires Reached(p, schedule, states, s)
    requires s.finished == p.n
    ensures s.client.arr == Sequential(p, p.n)
  {
    ReachedInv(p, schedule, states, s);
    forall j | 0 <= j < p.n ensures s.client.arr[j] == Sequential(p, p.n)[j] {
      AllDone(p, s, j);
      SequentialAt(p, p.n, j);
    }
  }

  lemma AllDone<V>(p: Params<V>, s: Sys<V>, j: int)
    requires Inv(p, s) && s.finished == p.n && 0 <= j < p.n
    ensures j in s.done
  {
    hide NodeIds, ClientSlots, JobZero, ServerOk, AllToClientOk;
    if j !in s.done { Busy(p.n, Tokens(p.n, s), s.done, j); }
  }

  /** The client is computing slot j or copying a result into it. */
  ghost predicate InHand<V>(c: Node<V>, j: int) {
    WorkerTouches(c, j) || ReaderTouches(c, j)
  }

  /** At any time a slot of the client that is in no thread's hand holds the result if its job is counted, and its
      initial value if not. */
  lemma NeverTorn<V>(p: Params<V>, schedule: seq<Thread>, states: seq<Sys<V>>, s: Sys<V>, j: nat)
    requires Reached(p, schedule, states, s) && j < p.n && !InHand(s.client, j)
    ensures |s.client.arr| == p.n
    ensures s.client.arr[j] == if j in s.done then Compute(p, p.c0[j]) else p.c0[j]
  {
    hide Reached, Tokens, OwnedOnce, ServerOk, JobZero, ClientPlaces, AllToClientOk;
    ReachedInv(p, schedule, states, s);
  }

  // ---------- capacity ----------

  /** Both queues of both nodes. */
  ghost predicate IsQueue<V>(s: Sys<V>, nd: Node<V>, q: seq<int>) {
    (nd == s.client || nd == s.server) && (q == nd.todo || q == nd.tosend)
  }

  /** While a thread of the node holds a job, the node's queues have room. */
  lemma JobFits<V>(p: Params<V>, s: Sys<V>, nd: Node<V>, q: seq<int>, j: int)
    requires Inv(p, s) && IsQueue(s, nd, q) && j != STOP
    requires j in WorkerIds(nd.worker) || j in ReaderIds(nd.reader)
    ensures |q| < p.n
  {
    var ids := Tokens(p.n, s);
    hide NodeIds, Tokens, JobZero, ClientSlots, ServerOk, WorkerIds, ReaderIds;
    JobWithin(p.n, s, nd, q, j);
    Busy(p.n, ids, s.done, j);
    OwnedSize(p.n, ids);
    SubsetSize(multiset(q) + multiset{j}, ids);
  }

  lemma JobWithin<V>(n: nat, s: Sys<V>, nd: Node<V>, q: seq<int>, j: int)
    requires IsQueue(s, nd, q) && (j in WorkerIds(nd.worker) || j in ReaderIds(nd.reader))
    ensures multiset(q) + multiset{j} <= Tokens(n, s)
    ensures multiset(s.done)[j] < Tokens(n, s)[j] && multiset(s.done) <= Tokens(n, s)
  {
    hide NodeIds, WorkerIds, ReaderIds;
    forall k ensures multiset(q)[k] + Bit(k == j) <= NodeIds(n, nd)[k] { PartsFit(n, nd, q, j, k); }
  }

  lemma PartsFit<V>(n: nat, nd: Node<V>, q: seq<int>, j: int, k: int)
    requires q == nd.todo || q == nd.tosend
    requires j in WorkerIds(nd.worker) || j in ReaderIds(nd.reader)
    ensures multiset(q)[k] + Bit(k == j) <= NodeIds(n, nd)[k]
  {
    Parts(n, nd, k);
    hide NodeIds, InboxIds, WriterIds;
  }

  /** Once every job is counted a queue holds sentinels only. */
  lemma OnlySentinels<V>(p: Params<V>, s: Sys<V>, nd: Node<V>, q: seq<int>)
    requires Inv(p, s) && IsQueue(s, nd, q) && s.finished == p.n
    ensures |q| == multiset(q)[STOP]
    ensures multiset(q)[STOP] + ReaderIds(nd.reader)[STOP] <= Tokens(p.n, s)[STOP]
  {
    forall k ensures multiset(q)[k] + ReaderIds(nd.reader)[k] + multiset(s.done)[k] <= Tokens(p.n, s)[k] {
      Parts(p.n, nd, k);
      hide NodeIds, InboxIds, WriterIds, WorkerIds, ReaderIds, ClientOk, ServerOk;
    }
    hide NodeIds, Tokens, JobZero, ClientSlots, ServerOk, ReaderIds;
    forall i | 0 <= i < |q| ensures q[i] == STOP {
      assert multiset(q)[q[i]] > 0;
      AllCounted(p.n, Tokens(p.n, s), multiset(s.done), q[i]);
    }
    Uniform(q);
  }

  lemma {:induction false} Uniform(q: seq<int>)
    requires forall i | 0 <= i < |q| :: q[i] == STOP
    ensures |q| == multiset(q)[STOP]
  {
    if q != [] {
      assert q == [q[0]] + q[1..];
      Uniform(q[1..]);
    }
  }

  /** No push on any of the four queues finds its queue full. */
  lemma CapacitySuffices<V>(p: Params<V>, schedule: seq<Thread>, states: seq<Sys<V>>, s: Sys<V>)
    requires Reached(p, schedule, states, s)
    ensures s.client.worker.MLeave? ==> |s.client.tosend| < p.n
    ensures s.client.reader.RBack? ==> |s.client.todo| < p.n
    ensures s.client.reader.RCheck? && s.finished == p.n ==> |s.client.todo| < p.n
    ensures s.server.reader.RStored? ==> |s.server.todo| < p.n
    ensures s.server.worker.MDone? ==> |s.server.tosend| < p.n
    ensures s.server.reader.RGotStop? ==> |s.server.tosend| < p.n
  {
    ReachedInv(p, schedule, states, s);
    JobPushesFit(p, s);
    StopPushesFit(p, s);
  }

  lemma JobPushesFit<V>(p: Params<V>, s: Sys<V>)
    requires Inv(p, s)
    ensures s.client.reader.RBack? ==> |s.client.todo| < p.n
    ensures s.server.reader.RStored? ==> |s.server.todo| < p.n
    ensures s.server.worker.MDone? ==> |s.server.tosend| < p.n
  {
    hide Tokens, NodeIds, OwnedOnce, ClientSlots, ServerSlots, JobZero;
    if s.client.reader.RBack? { JobFits(p, s, s.client, s.client.todo, s.client.reader.job); }
    if s.server.reader.RStored? { JobFits(p, s, s.server, s.server.todo, s.server.reader.job); }
    if s.server.worker.MDone? { JobFits(p, s, s.server, s.server.tosend, s.server.worker.job); }
  }

  /** A sentinel anywhere means that every job has been counted. */
  lemma SentinelMeansFinished<V>(p: Params<V>, s: Sys<V>)
    requires Inv(p, s) && (STOP in Tokens(p.n, s) || s.client.worker.MLeave?)
    ensures s.finished == p.n
  {
    hide NodeIds, JobZero, ClientSlots, ServerOk;
    DoneBound(p.n, Tokens(p.n, s), s.done);
  }

  lemma StopPushesFit<V>(p: Params<V>, s: Sys<V>)
    requires Inv(p, s)
    ensures s.client.worker.MLeave? ==> |s.client.tosend| < p.n
    ensures s.client.reader.RCheck? && s.finished == p.n ==> |s.client.todo| < p.n
    ensures s.server.reader.RGotStop? ==> |s.server.tosend| < p.n
  {
    if s.server.reader.RGotStop? { Parts(p.n, s.server, STOP); }
    hide NodeIds, OwnedOnce, ClientOk, ServerOk;
    if s.client.worker.MLeave? {
      SentinelMeansFinished(p, s);
      OnlySentinels(p, s, s.client, s.client.tosend);
    }
    if s.client.reader.RCheck? && s.finished == p.n { OnlySentinels(p, s, s.client, s.client.todo); }
    if s.server.reader.RGotStop? {
      SentinelMeansFinished(p, s);
      OnlySentinels(p, s, s.server, s.server.tosend);
    }
  }

  // ---------- sentinels ----------

  /** The sentinel is never together with a job that is still to be done. */
  lemma SentinelSafety<V>(p: Params<V>, schedule: seq<Thread>, states: seq<Sys<V>>, s: Sys<V>, j: int)
    requires Reached(p, schedule, states, s) && STOP in Tokens(p.n, s)
    ensures s.finished == p.n
    ensures 0 <= j < p.n ==> j in s.done
  {
    hide Reached, Tokens;
    ReachedInv(p, schedule, states, s);
    SentinelMeansFinished(p, s);
    if 0 <= j < p.n { AllDone(p, s, j); }
  }

  /** Neither offload loop nor the server's worker ever finds the sentinel in the queue it pulls from. */
  lemma SentinelNotPulled<V>(p: Params<V>, schedule: seq<Thread>, states: seq<Sys<V>>, s: Sys<V>)
    requires Reached(p, schedule, states, s)
    ensures s.client.reader.ROffer? ==> STOP !in s.client.todo
    ensures STOP !in s.server.todo
  {
    hide Reached, Tokens, NodeIds, OwnedOnce, ClientSlots, ServerSlots, JobZero;
    ReachedInv(p, schedule, states, s);
  }

  // ---------- slot isolation ----------

  /** The slot a thread of the node is computing, storing, or about to send or queue. */
  ghost predicate WorkerTouches<V>(nd: Node<V>, j: int) {
    nd.worker == MHold(j) || nd.worker == MHalf(j) || nd.worker == MDone(j)
  }

  ghost predicate WriterTouches<V>(nd: Node<V>, j: int) { nd.writer == WSend(j) }

  ghost predicate ReaderTouches<V>(nd: Node<V>, j: int) { HasJob(nd.reader) && nd.reader.job == j }

  /** No two threads of one node work on the same slot, and every slot lies inside the array. */
  lemma SlotIsolation<V>(p: Params<V>, schedule: seq<Thread>, states: seq<Sys<V>>, s: Sys<V>, nd: Node<V>, j: int)
    requires Reached(p, schedule, states, s)
    requires (nd == s.client || nd == s.server) && j != STOP
    ensures !(WorkerTouches(nd, j) && WriterTouches(nd, j))
    ensures !(WorkerTouches(nd, j) && ReaderTouches(nd, j))
    ensures !(WriterTouches(nd, j) && ReaderTouches(nd, j))
    ensures WorkerTouches(nd, j) || WriterTouches(nd, j) || ReaderTouches(nd, j) ==> 0 <= j < |nd.arr| && j !in s.done
  {
    ReachedInv(p, schedule, states, s);
    hide Reached, Distinct, Tokens, OwnedOnce, JobZero;
    NodesDistinct(p, s);
    DistinctIsolated(p.n, nd, s.done, j);
  }

  lemma DistinctIsolated<V>(n: nat, nd: Node<V>, done: seq<int>, j: int)
    requires Distinct(n, nd, done) && j != STOP
    ensures !(WorkerTouches(nd, j) && WriterTouches(nd, j))
    ensures !(WorkerTouches(nd, j) && ReaderTouches(nd, j))
    ensures !(WriterTouches(nd, j) && ReaderTouches(nd, j))
    ensures WorkerTouches(nd, j) || WriterTouches(nd, j) || ReaderTouches(nd, j) ==> 0 <= j < n && j !in done
  {
    hide Distinct;
    WorkerHand(n, nd, done);
    WriterHand(n, nd, done);
    ReaderHand(n, nd, done);
  }

  // ---------- job 0 ----------

  /** In any such state, the job the client's offload loop would pull is job 0, and sending it would read past
      the array, exactly when client main has not pulled yet. */
  lemma OffloadOfZero<V>(p: Params<V>, schedule: seq<Thread>, states: seq<Sys<V>>, s: Sys<V>)
    requires Reached(p, schedule, states, s)
    requires s.client.reader.ROffer? && s.client.todo != []
    ensures s.client.todo[0] == 0 <==> !s.started
    ensures FrameFor(p.n, s.client.arr, p.n + s.client.todo[0]).None? <==> !s.started
  {
    hide Reached;
    ReachedInv(p, schedule, states, s);
    HeadIsZero(p, s);
    hide Inv;
  }

  /** The head of the client's queue is a job, and it is job 0 exactly until client main has pulled. */
  lemma HeadIsZero<V>(p: Params<V>, s: Sys<V>)
    requires Inv(p, s) && s.client.reader.ROffer?
    ensures !s.fault && |s.client.arr| == p.n
    ensures s.client.todo != [] ==> 0 <= s.client.todo[0] < p.n && (s.client.todo[0] == 0 <==> !s.started)
  {
    NodesDistinct(p, s);
    hide Tokens, OwnedOnce, ServerOk, Distinct;
    if s.client.todo != [] {
      Queued(p.n, s.client, s.done, s.client.todo[0]);
      if s.started { StartedPastZero(p, s, s.client.todo[0]); }
    }
  }

  lemma PullThenSend<V>(p: Params<V>, s: Sys<V>, s1: Sys<V>, s2: Sys<V>)
    requires !s.fault && |s.client.arr| == p.n && s.client.reader.ROffer? && s.client.reader.left > 0
    requires s.client.todo != [] ==> 0 <= s.client.todo[0] < p.n
    requires Step(p, s, CReader) == Some(s1) && Step(p, s1, CReader) == Some(s2)
    ensures s.client.todo != []
    ensures s1.client.reader.ROfferHand? && s1.client.reader.job == s.client.todo[0]
    ensures s2.fault <==> s.client.todo[0] == 0
  {
  }

  lemma StartedPastZero<V>(p: Params<V>, s: Sys<V>, j: int)
    requires Inv(p, s) && s.started && j in s.client.todo
    ensures j != 0
  {
    NodesDistinct(p, s);
    hide Tokens, OwnedOnce, ServerOk, ClientSlots, NodeIds, InboxIds, WriterIds, ReaderIds;
    if j == 0 { Parts(p.n, s.client, 0); }
  }

  /** An execution that touches a slot outside an array has an offload pull before client main's first. */
  lemma FaultNeedsEarlyOffload<V>(p: Params<V>, schedule: seq<Thread>, states: seq<Sys<V>>, s: Sys<V>)
    requires WellFormed(p) && Execution(p, schedule, states) && s in states && s.fault
    ensures exists i | 0 <= i < |schedule| :: EarlyOffload(states[i], schedule[i])
  {
    hide Step, EarlyOffload, Init;
    if MainPullsFirst(schedule, states) {
      ReachedInv(p, schedule, states, s);
    }
  }
}
