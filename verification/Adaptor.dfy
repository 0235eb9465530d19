/** The load balancer of MP4/utils.c in place, over the linked queue, and the filling of the client's queues. */
module Adaptor {
  import opened Wrappers
  import opened Protocol
  import opened Queue
  import Loop = OffloadLoop

  /** How many of the first k ids are jobs; a negative id stops the loop. */
  function Leading(ids: seq<int>, k: nat): (m: nat)
    requires k <= |ids|
    ensures m <= k && (forall i | 0 <= i < m :: ids[i] > -1) && (m < k ==> ids[m] <= -1)
  {
    if k == 0 || ids[0] <= -1 then 0 else 1 + Leading(ids[1..], k - 1)
  }

  /** The globals of MP4/utils.c that `state_handle` and `adaptor` use.  `outgoing` is what went to the socket;
      the job array holds one value per slot. */
  class Balancer<V> {
    const jobNum: nat
    const transferPolicy: int
    const jobTodo: BoundedQueue<int>
    const jobArray: array<V>
    var peerNumJobs: int
    var rebalanceRequested: bool
    var jobSent: nat
    var outgoing: seq<Frame<V>>

    /** Job 0 cannot be offloaded: the reader of the protocol shows it never is. */
    ghost predicate Valid()
      reads jobTodo, jobTodo.nodes
    {
      && jobTodo.Valid() && jobArray.Length == jobNum
      && forall id | id in jobTodo.Contents() :: id <= -1 || 0 < id < jobNum
    }

    constructor (jobNum: nat, transferPolicy: int, jobTodo: BoundedQueue<int>, jobArray: array<V>)
      ensures this.jobNum == jobNum && this.transferPolicy == transferPolicy
      ensures this.jobTodo == jobTodo && this.jobArray == jobArray
      ensures peerNumJobs == -1 && !rebalanceRequested && jobSent == 0 && outgoing == []
    {
      this.jobNum, this.transferPolicy, this.jobTodo, this.jobArray := jobNum, transferPolicy, jobTodo, jobArray;
      peerNumJobs, rebalanceRequested, jobSent, outgoing := -1, false, 0, [];
    }

    /** The node of the protocol whose reader these globals serve. */
    ghost function AsNode(rest: Node<V>): Node<V>
      reads this, jobTodo, jobTodo.nodes, jobArray
    {
      rest.(todo := jobTodo.Contents(), arr := jobArray[..], peer := peerNumJobs, asked := rebalanceRequested)
    }

    /** `transfer` of an uncomputed job */
    method Transfer(jobID: int)
      requires jobArray.Length == jobNum && 0 < jobID < jobNum
      modifies this`outgoing
      ensures FrameFor(jobNum, jobArray[..], jobNum + jobID) == Some(Data(jobNum + jobID, jobArray[jobID]))
      ensures outgoing == old(outgoing) + [Data(jobNum + jobID, jobArray[jobID])]
    {
      outgoing := outgoing + [Data(jobNum + jobID, jobArray[jobID])];
    }

    /** `queue_pull` on a queue that is not empty */
    method PullJob() returns (jobID: int)
      requires Valid() && jobTodo.Contents() != []
      modifies jobTodo
      ensures Valid() && [jobID] + jobTodo.Contents() == old(jobTodo.Contents())
    {
      hide BoundedQueue.Contents, BoundedQueue.Valid;
      ghost var ids := jobTodo.Contents();
      var pulled, freed := jobTodo.Pull();
      jobID := pulled.data;
      assert ids == [ids[0]] + ids[1..];
      assert forall id | id in ids[1..] :: id in ids;
    }

    /** The offload loop: the leading jobs go out in FIFO order, and a negative id is lost. */
    method OffloadLoop(toTransfer: nat)
      requires Valid() && toTransfer <= |jobTodo.Contents()|
      modifies this`outgoing, this`jobSent, jobTodo
      ensures Valid()
      ensures var ids := old(jobTodo.Contents());
        var m := Leading(ids, toTransfer);
        && jobSent == old(jobSent) + m
        && (forall i | 0 <= i < m :: 0 < ids[i] < jobNum)
        && outgoing == old(outgoing) + Loop.Offers(jobNum, jobArray[..], ids[..m])
        && jobTodo.Contents() == ids[if m < toTransfer then m + 1 else m..]
    {
      hide BoundedQueue.Contents, BoundedQueue.Valid, Leading, Loop.Offers, Valid;
      SizeCounts();
      ghost var ids := jobTodo.Contents();
      ghost var goal := Leading(ids, toTransfer);
      ghost var m := 0;
      var left := toTransfer;
      NoOffer(jobNum, jobArray[..], ids);
      assert outgoing == outgoing + Loop.Offers(jobNum, jobArray[..], ids[..m]);
      while left > 0
        invariant Valid() && left == toTransfer - m && m <= goal
        invariant jobTodo.Contents() == ids[m..] && jobSent == old(jobSent) + m
        invariant forall i | 0 <= i < m :: 0 < ids[i] < jobNum
        invariant outgoing == old(outgoing) + Loop.Offers(jobNum, jobArray[..], ids[..m])
        decreases left
      {
        assert ids[m..][0] == ids[m] && ids[m..][1..] == ids[m + 1..];
        var jobID := PullJob();
        assert jobTodo.Contents() == ids[m + 1..] && jobID == ids[m];
        if jobID <= -1 {
          return;
        }
        assert ids[m] in ids;
        Transfer(jobID);
        OneMoreOffer(jobNum, jobArray[..], ids, m);
        jobSent := jobSent + 1;
        left := left - 1;
        m := m + 1;
      }
    }

    static lemma NoOffer(n: nat, arr: seq<V>, ids: seq<int>)
      requires |arr| == n
      ensures Loop.Offers(n, arr, ids[..0]) == []
    {
    }

    static lemma OneMoreOffer(n: nat, arr: seq<V>, ids: seq<int>, m: nat)
      requires |arr| == n && m < |ids| && forall i | 0 <= i <= m :: 0 < ids[i] < n
      ensures Loop.Offers(n, arr, ids[..m]) + [Data(n + ids[m], arr[ids[m]])] == Loop.Offers(n, arr, ids[..m + 1])
    {
    }

    /** What `adaptor` sends and takes when the protocol's reader decides on `reader`. */
    static ghost predicate Balances(
        n: nat, arr: seq<V>, ids: seq<int>, reader: Reader<V>, rest: seq<int>, sent: seq<Frame<V>>)
      requires |arr| == n
    {
      match reader
      case RAsk => sent == [Rebalance] && rest == ids
      case ROffer(k) =>
        && k <= |ids|
        && (forall i | 0 <= i < Leading(ids, k) :: 0 < ids[i] < n)
        && sent == Loop.Offers(n, arr, ids[..Leading(ids, k)])
        && rest == ids[if Leading(ids, k) < k then Leading(ids, k) + 1 else Leading(ids, k)..]
      case _ => sent == [] && rest == ids
    }

    /** The decision of `adaptor`, from the difference of the queues. */
    static function Decision(policy: int, asked: bool, diff: int): Reader<V> {
      if policy > 0 && diff < DIFF_THRESHOLD then RAsk
      else if diff > DIFF_THRESHOLD && (policy == 0 || policy == 2 || asked) then ROffer(diff / 2)
      else RWait
    }

    static lemma DecidesAlike(policy: int, me: Node<V>, num: nat)
      ensures OnState(policy, me, num, RWait).reader ==
        if me.peer == -1 && num == 0 then RWait else Decision(policy, me.asked, |me.todo| - num)
      ensures OnState(policy, me, num, RWait).peer == if me.peer == -1 && num == 0 then me.peer else num
    {
    }

    /** `adaptor`, once the size of the peer's queue is known. */
    method Adapt()
      requires Valid() && 0 <= peerNumJobs
      modifies this`outgoing, this`jobSent, jobTodo
      ensures Valid() && old(outgoing) <= outgoing
      ensures var ids := old(jobTodo.Contents());
        Balances(jobNum, jobArray[..], ids, Decision(transferPolicy, rebalanceRequested, |ids| - peerNumJobs),
                 jobTodo.Contents(), outgoing[|old(outgoing)|..])
      ensures jobSent == old(jobSent) + CountData(outgoing[|old(outgoing)|..])
    {
      hide BoundedQueue.Contents, BoundedQueue.Valid, Leading, Loop.Offers, Valid, CountData, Balances;
      ghost var ids, was := jobTodo.Contents(), outgoing;
      ghost var arr := jobArray[..];
      SizeCounts();
      var diff := jobTodo.size - peerNumJobs;
      if transferPolicy > 0 && diff < DIFF_THRESHOLD {
        outgoing := outgoing + [Rebalance];
        assert outgoing[|was|..] == [Rebalance];
        AskBalanced(jobNum, arr, ids);
      }
      if diff > DIFF_THRESHOLD && peerNumJobs != -1
         && (transferPolicy == 0 || transferPolicy == 2 || rebalanceRequested) {
        OffloadLoop(diff / 2);
        assert outgoing[|was|..] == Loop.Offers(jobNum, arr, ids[..Leading(ids, diff / 2)]);
        OfferBalanced(jobNum, arr, ids, diff / 2);
      } else if outgoing == was {
        assert outgoing[|was|..] == [];
        NothingBalanced(jobNum, arr, ids);
      }
    }

    static lemma AskBalanced(n: nat, arr: seq<V>, ids: seq<int>)
      requires |arr| == n
      ensures Balances(n, arr, ids, RAsk, ids, [Rebalance]) && CountData<V>([Rebalance]) == 0
    {
      assert CountData<V>([Rebalance][1..]) == 0;
    }

    static lemma OfferBalanced(n: nat, arr: seq<V>, ids: seq<int>, k: nat)
      requires |arr| == n && k <= |ids| && forall i | 0 <= i < Leading(ids, k) :: 0 < ids[i] < n
      ensures var m := Leading(ids, k);
        var offers := Loop.Offers(n, arr, ids[..m]);
        && Balances(n, arr, ids, ROffer(k), ids[if m < k then m + 1 else m..], offers)
        && CountData(offers) == m
    {
      OffersAreData(n, arr, ids[..Leading(ids, k)]);
    }

    lemma SizeCounts()
      requires Valid()
      ensures jobTodo.size == |jobTodo.Contents()| && jobArray.Length == jobNum
      ensures forall id | id in jobTodo.Contents() :: id <= -1 || 0 < id < jobNum
    {
    }

    static lemma OffersAreData(n: nat, arr: seq<V>, ids: seq<int>)
      requires |arr| == n && forall i | 0 <= i < |ids| :: 0 < ids[i] < n
      ensures CountData(Loop.Offers(n, arr, ids)) == |ids|
    {
      assert forall f | f in Loop.Offers(n, arr, ids) :: f.Data?;
      AllData(Loop.Offers(n, arr, ids));
    }

    /** `state_handle` on a state frame that carries the size of the peer's queue.  It decides as the protocol's
        reader does, and an offload is carried out to its end without blocking. */
    method StateHandle(num: nat, ghost me: Node<V>)
      requires Valid()
      modifies this`peerNumJobs, this`outgoing, this`jobSent, jobTodo
      ensures Valid() && old(outgoing) <= outgoing
      ensures var next := OnState(transferPolicy, old(AsNode(me)), num, RWait);
        && peerNumJobs == next.peer
        && Balances(jobNum, jobArray[..], old(jobTodo.Contents()), next.reader, jobTodo.Contents(),
                    outgoing[|old(outgoing)|..])
      ensures jobSent == old(jobSent) + CountData(outgoing[|old(outgoing)|..])
    {
      hide BoundedQueue.Contents, Valid, Balances, Decision, CountData, OnState;
      SizeCounts();
      DecidesAlike(transferPolicy, AsNode(me), num);
      if peerNumJobs == -1 && num == 0 {
        assert outgoing[|outgoing|..] == [];
        NothingBalanced(jobNum, jobArray[..], jobTodo.Contents());
        return;
      }
      peerNumJobs := num;
      Adapt();
    }

    static lemma NothingBalanced(n: nat, arr: seq<V>, ids: seq<int>)
      requires |arr| == n
      ensures Balances(n, arr, ids, RWait, ids, []) && CountData<V>([]) == 0
    {
    }
  }

  /** How many of the frames carry a job. */
  function CountData<V>(frames: seq<Frame<V>>): nat {
    if frames == [] then 0 else (if frames[0].Data? then 1 else 0) + CountData(frames[1..])
  }

  lemma {:induction false} AllData<V>(frames: seq<Frame<V>>)
    requires forall f | f in frames :: f.Data?
    ensures CountData(frames) == |frames|
  {
    if frames != [] { AllData(frames[1..]); }
  }

  /** `bootstrap`: the two halves of the jobs, into two empty queues of the client.  No push waits. */
  method Bootstrap<V>(n: nat, todo: BoundedQueue<int>, tosend: BoundedQueue<int>, ghost p: Params<V>)
    requires p.n == n && n > 0 && todo != tosend
    requires todo.Valid() && todo.nodes == [] && todo.maxSize == n
    requires tosend.Valid() && tosend.nodes == [] && tosend.maxSize == n
    modifies todo, tosend
    ensures todo.Valid() && todo.Contents() == Init(p).client.todo
    ensures tosend.Valid() && tosend.Contents() == Init(p).client.tosend
  {
    hide BoundedQueue.Contents, BoundedQueue.Valid;
    assert todo.Contents() == seq(0, k => k) && tosend.Contents() == seq(0, k => k + n / 2);
    var i := 0;
    while i < n / 2
      invariant 0 <= i <= n / 2
      invariant todo.Valid() && todo.Contents() == seq(i, k => k)
      invariant tosend.Valid() && tosend.Contents() == seq(i, k => k + n / 2)
      invariant fresh(todo.nodes) && fresh(tosend.nodes)
      invariant forall a | a in todo.nodes :: a !in tosend.nodes
    {
      assert !Full(|todo.Contents()|, n) && !Full(|tosend.Contents()|, n);
      ghost var first, second := todo.nodes, tosend.nodes;
      PushApart(todo, tosend, i);
      PushApart(tosend, todo, i + n / 2);
      assert todo.nodes == first + [todo.nodes[|first|]] && tosend.nodes == second + [tosend.nodes[|second|]];
      assert seq(i, k => k) + [i] == seq(i + 1, k => k);
      assert seq(i, k => k + n / 2) + [i + n / 2] == seq(i + 1, k => k + n / 2);
      i := i + 1;
    }
  }
}
