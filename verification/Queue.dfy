/**
  The bounded queue of MP4/queue.c as a linked list in memory.  `Push` and `Pull` are the critical
  sections of `queue_push` and `queue_pull`: they say `Wait` where the C code waits on the condition
  variable, and otherwise whether it broadcasts.  The monitor around them is in `QueueMonitor`.
 */
module Queue {
  datatype Pushed = PushWaits | PushDone(broadcast: bool)
  datatype Pulled<T> = PullWaits | PullDone(data: T, broadcast: bool)

  /** A push has to wait: the queue is bounded and full.  A bound of zero or less means no bound. */
  predicate Full(size: int, maxSize: int) {
    maxSize > 0 && size == maxSize
  }

  /** One pass through the critical section of `queue_push`: the outcome and the queue afterwards. */
  function AfterPush<T>(queue: seq<T>, maxSize: int, data: T): (Pushed, seq<T>) {
    if Full(|queue|, maxSize) then (PushWaits, queue) else (PushDone(|queue| + 1 == 1), queue + [data])
  }

  /** The same for `queue_pull`. */
  function AfterPull<T>(queue: seq<T>, maxSize: int): (Pulled<T>, seq<T>) {
    if queue == [] then (PullWaits, queue)
    else (PullDone(queue[0], maxSize > 0 && |queue| - 1 == maxSize - 1), queue[1..])
  }

  class QueueNode<T> {
    var data: T
    var next: QueueNode?<T>

    constructor (data: T)
      ensures this.data == data && next == null
    {
      this.data := data;
      next := null;
    }
  }

  class BoundedQueue<T> {
    var head: QueueNode?<T>
    var tail: QueueNode?<T>
    var size: int
    const maxSize: int
    ghost var nodes: seq<QueueNode<T>>

    /** The nodes from head to tail are linked, distinct and counted. */
    ghost predicate Valid()
      reads this, nodes
    {
      && size == |nodes|
      && (maxSize > 0 ==> size <= maxSize)
      && (forall i, j | 0 <= i < j < |nodes| :: nodes[i] != nodes[j])
      && (forall i | 0 <= i < |nodes| - 1 :: nodes[i].next == nodes[i + 1])
      && (if nodes == [] then head == null && tail == null
          else head == nodes[0] && tail == nodes[|nodes| - 1] && tail.next == null)
    }

    ghost function Contents(): (s: seq<T>)
      reads this, nodes
      ensures |s| == |nodes|
    {
      seq(|nodes|, i requires 0 <= i < |nodes| reads this, nodes => nodes[i].data)
    }

    /** `queue_create` */
    constructor (maxSize: int)
      ensures Valid() && Contents() == [] && this.maxSize == maxSize && nodes == []
    {
      size := 0;
      this.maxSize := maxSize;
      head, tail := null, null;
      nodes := [];
    }

    method Push(data: T) returns (r: Pushed)
      requires Valid()
      modifies this, nodes
      ensures Valid()
      ensures (r, Contents()) == AfterPush(old(Contents()), maxSize, data)
      ensures r.PushWaits? <==> maxSize > 0 && |old(Contents())| == maxSize
      ensures r.PushDone? ==>
        Contents() == old(Contents()) + [data] && (r.broadcast <==> old(Contents()) == [])
      ensures r.PushWaits? ==> nodes == old(nodes)
      ensures r.PushDone? ==> nodes[..|nodes| - 1] == old(nodes) && fresh(nodes[|nodes| - 1])
    {
      var nd := new QueueNode(data);
      if maxSize > 0 && size == maxSize {
        return PushWaits;
      }
      size := size + 1;
      if tail != null {
        tail.next := nd;
      } else {
        head := nd;
      }
      tail := nd;
      nodes := nodes + [nd];
      assert Contents() == old(Contents()) + [data];
      r := PushDone(size == 1);
    }

    /** Also says which node is freed: the head, which is in the list no longer. */
    method Pull() returns (r: Pulled<T>, freed: QueueNode?<T>)
      requires Valid()
      modifies this
      ensures Valid()
      ensures (r, Contents()) == AfterPull(old(Contents()), maxSize)
      ensures r.PullWaits? <==> old(Contents()) == []
      ensures r.PullDone? ==>
        [r.data] + Contents() == old(Contents()) &&
        (r.broadcast <==> maxSize > 0 && |old(Contents())| == maxSize)
      ensures r.PullWaits? ==> nodes == old(nodes) && freed == null
      ensures r.PullDone? ==> freed == old(nodes[0]) && nodes == old(nodes[1..]) && freed !in nodes
    {
      if size == 0 {
        return PullWaits, null;
      }
      freed := head;
      var data := head.data;
      size := size - 1;
      if size == 0 {
        tail := null;
      }
      head := head.next;
      nodes := nodes[1..];
      assert Contents() == old(Contents())[1..];
      r := PullDone(data, maxSize > 0 && size == maxSize - 1);
    }

    /** `queue_destroy`: the nodes freed, in order.  No node is read after it was freed. */
    method Destroy() returns (freed: seq<QueueNode<T>>)
      requires Valid()
      ensures freed == nodes
      ensures forall i, j | 0 <= i < j < |freed| :: freed[i] != freed[j]
    {
      var curr := head;
      freed := [];
      while curr != null
        invariant |freed| <= |nodes| && freed == nodes[..|freed|]
        invariant curr == if |freed| < |nodes| then nodes[|freed|] else null
        decreases |nodes| - |freed|
      {
        var toFree := curr;
        assert toFree !in freed;
        curr := curr.next;
        freed := freed + [toFree];
      }
    }
  }

  /** A push into one of two queues that share no node, which is not full. */
  method PushApart<T>(queue: BoundedQueue<T>, other: BoundedQueue<T>, data: T)
    requires queue != other && queue.Valid() && other.Valid() && !Full(|queue.Contents()|, queue.maxSize)
    requires forall a | a in queue.nodes :: a !in other.nodes
    modifies queue, queue.nodes
    ensures queue.Valid() && queue.Contents() == old(queue.Contents()) + [data]
    ensures other.Valid() && other.Contents() == old(other.Contents()) && other.nodes == old(other.nodes)
    ensures forall a | a in queue.nodes :: a !in other.nodes
    ensures |queue.nodes| == |old(queue.nodes)| + 1 && queue.nodes[..|old(queue.nodes)|] == old(queue.nodes)
    ensures fresh(queue.nodes[|old(queue.nodes)|])
  {
    ghost var nodes := queue.nodes;
    assert forall b | b in other.nodes :: b !in queue.nodes;
    ghost var theirs := other.nodes;
    var pushed := queue.Push(data);
    assert other.nodes == theirs;
    forall k | 0 <= k < |theirs| ensures unchanged(theirs[k]) {
      assert theirs[k] in theirs;
    }
    assert queue.nodes == nodes + [queue.nodes[|queue.nodes| - 1]];
  }

  /** A pull from one of them, which is not empty. */
  method PullApart<T>(queue: BoundedQueue<T>, other: BoundedQueue<T>) returns (data: T)
    requires queue != other && queue.Valid() && other.Valid() && queue.Contents() != []
    requires forall a | a in queue.nodes :: a !in other.nodes
    modifies queue
    ensures queue.Valid() && [data] + queue.Contents() == old(queue.Contents())
    ensures other.Valid() && other.Contents() == old(other.Contents()) && other.nodes == old(other.nodes)
    ensures forall a | a in queue.nodes :: a in old(queue.nodes) && a !in other.nodes
  {
    ghost var items, mine, theirs := queue.Contents(), queue.nodes, other.nodes;
    var pulled, freed := queue.Pull();
    data := pulled.data;
    assert items == [items[0]] + items[1..];
    assert mine == [mine[0]] + mine[1..];
    assert other.nodes == theirs;
    forall k | 0 <= k < |theirs| ensures unchanged(theirs[k]) {
      assert theirs[k] in theirs;
    }
  }
}
