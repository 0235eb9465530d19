/**
  The monitor of MP4/queue.c with any number of threads: one mutex, one condition variable on which both
  pushers and pullers wait, and broadcasts on only two edges.  A step is one pass through a critical section.
 */
module QueueMonitor {
  import opened Wrappers
  import Queue

  type Tid = nat

  /** Where a thread is in `queue_push` or `queue_pull`: outside, about to test the loop condition with the
      mutex held, or asleep on the condition variable. */
  datatype Phase<T> =
    | Outside
    | Pushing(item: T)
    | Pulling
    | AsleepPushing(item: T)
    | AsleepPulling

  datatype Event<T> =
    | CallPush(t: Tid, item: T)
    | CallPull(t: Tid)
    | Run(t: Tid)
    | Spurious(t: Tid)

  /** The queue, the threads, and the history of what was pushed and what was pulled. */
  datatype Monitor<T> = Monitor(
    maxSize: int, queue: seq<T>, threads: map<Tid, Phase<T>>, pushed: seq<T>, pulled: seq<T>)

  function PhaseOf<T>(m: Monitor<T>, t: Tid): Phase<T> {
    if t in m.threads then m.threads[t] else Outside
  }

  function Awake<T>(ph: Phase<T>): Phase<T> {
    match ph
    case AsleepPushing(x) => Pushing(x)
    case AsleepPulling => Pulling
    case _ => ph
  }

  /** `pthread_cond_broadcast` wakes pushers and pullers alike. */
  function Broadcast<T>(threads: map<Tid, Phase<T>>): map<Tid, Phase<T>> {
    map t | t in threads :: Awake(threads[t])
  }

  function Set<T>(m: Monitor<T>, t: Tid, ph: Phase<T>): Monitor<T> {
    m.(threads := m.threads[t := ph])
  }

  function PushStep<T>(m: Monitor<T>, t: Tid, x: T): Monitor<T> {
    var (r, queue) := Queue.AfterPush(m.queue, m.maxSize, x);
    match r
    case PushWaits => Set(m, t, AsleepPushing(x))
    case PushDone(broadcast) =>
      var m' := Set(m, t, Outside).(queue := queue, pushed := m.pushed + [x]);
      if broadcast then m'.(threads := Broadcast(m'.threads)) else m'
  }

  function PullStep<T>(m: Monitor<T>, t: Tid): Monitor<T> {
    var (r, queue) := Queue.AfterPull(m.queue, m.maxSize);
    match r
    case PullWaits => Set(m, t, AsleepPulling)
    case PullDone(data, broadcast) =>
      var m' := Set(m, t, Outside).(queue := queue, pulled := m.pulled + [data]);
      if broadcast then m'.(threads := Broadcast(m'.threads)) else m'
  }

  /** The next state, if the event can happen. */
  function Next<T>(m: Monitor<T>, e: Event<T>): Option<Monitor<T>> {
    match e
    case CallPush(t, x) => if PhaseOf(m, t).Outside? then Some(Set(m, t, Pushing(x))) else None
    case CallPull(t) => if PhaseOf(m, t).Outside? then Some(Set(m, t, Pulling)) else None
    case Run(t) =>
      (match PhaseOf(m, t)
       case Pushing(x) => Some(PushStep(m, t, x))
       case Pulling => Some(PullStep(m, t))
       case _ => None)
    case Spurious(t) =>
      if PhaseOf(m, t).AsleepPushing? || PhaseOf(m, t).AsleepPulling?
      then Some(Set(m, t, Awake(PhaseOf(m, t)))) else None
  }

  function Start<T>(maxSize: int): Monitor<T> {
    Monitor(maxSize, [], map[], [], [])
  }

  function After<T>(maxSize: int, events: seq<Event<T>>): Option<Monitor<T>> {
    if events == [] then Some(Start(maxSize))
    else
      match After(maxSize, events[..|events| - 1])
      case None => None
      case Some(m) => Next(m, events[|events| - 1])
  }

  // ---------- what every history keeps ----------

  /** Sleepers sleep for a reason, the bound holds, and the queue is what was pushed and not yet pulled. */
  ghost predicate Inv<T>(m: Monitor<T>) {
    && (m.maxSize > 0 ==> |m.queue| <= m.maxSize)
    && m.pushed == m.pulled + m.queue
    && (forall t | t in m.threads && m.threads[t].AsleepPulling? :: m.queue == [])
    && (forall t | t in m.threads && m.threads[t].AsleepPushing? :: Queue.Full(|m.queue|, m.maxSize))
  }

  lemma PushStepInv<T>(m: Monitor<T>, t: Tid, x: T)
    requires Inv(m)
    ensures Inv(PushStep(m, t, x))
  {
  }

  lemma PullStepInv<T>(m: Monitor<T>, t: Tid)
    requires Inv(m)
    ensures Inv(PullStep(m, t))
  {
    if m.queue != [] { assert m.pulled + m.queue == (m.pulled + [m.queue[0]]) + m.queue[1..]; }
  }

  lemma {:induction false} HistoryInv<T>(maxSize: int, events: seq<Event<T>>)
    requires After(maxSize, events).Some?
    ensures Inv(After(maxSize, events).value) && After(maxSize, events).value.maxSize == maxSize
  {
    if events != [] {
      var k := |events| - 1;
      HistoryInv(maxSize, events[..k]);
      var m := After(maxSize, events[..k]).value;
      match events[k]
      case Run(t) =>
        if PhaseOf(m, t).Pushing? { PushStepInv(m, t, PhaseOf(m, t).item); } else { PullStepInv(m, t); }
      case _ =>
    }
  }

  /** No lost wakeup: whoever sleeps could not go on if it were woken, so sleeping pushers and sleeping
      pullers never coexist. */
  lemma NoLostWakeup<T>(maxSize: int, events: seq<Event<T>>, m: Monitor<T>, t: Tid, u: Tid)
    requires After(maxSize, events) == Some(m)
    ensures PhaseOf(m, t).AsleepPulling? ==> |m.queue| == 0
    ensures PhaseOf(m, t).AsleepPushing? ==> maxSize > 0 && |m.queue| == maxSize
    ensures !(PhaseOf(m, t).AsleepPulling? && PhaseOf(m, u).AsleepPushing?)
  {
    HistoryInv(maxSize, events);
  }

  /** Concurrent FIFO: what was pulled is what was pushed first, and the rest is in the queue. */
  lemma ConcurrentFifo<T>(maxSize: int, events: seq<Event<T>>, m: Monitor<T>)
    requires After(maxSize, events) == Some(m)
    ensures m.pushed == m.pulled + m.queue
    ensures maxSize > 0 ==> |m.queue| <= maxSize
  {
    HistoryInv(maxSize, events);
  }

  // ---------- whose items ----------

  /** The items that a thread has called `queue_push` with, in order. */
  function Asked<T>(events: seq<Event<T>>, t: Tid): seq<T> {
    if events == [] then []
    else
      var k := |events| - 1;
      Asked(events[..k], t) + if events[k].CallPush? && events[k].t == t then [events[k].item] else []
  }

  /** The items that the passes of a thread have added to the history of pushes. */
  function PushedBy<T>(maxSize: int, events: seq<Event<T>>, t: Tid): seq<T>
    requires After(maxSize, events).Some?
  {
    if events == [] then []
    else
      var k := |events| - 1;
      var was, now := After(maxSize, events[..k]).value.pushed, After(maxSize, events).value.pushed;
      PushedBy(maxSize, events[..k], t) +
      if events[k] == Run(t) && |was| <= |now| then now[|was|..] else []
  }

  /** How many pulls a thread has called, and how many items its passes have added to the history of pulls. */
  function PullsAsked<T>(events: seq<Event<T>>, t: Tid): nat {
    if events == [] then 0
    else
      var k := |events| - 1;
      PullsAsked(events[..k], t) + if events[k] == CallPull(t) then 1 else 0
  }

  function PulledBy<T>(maxSize: int, events: seq<Event<T>>, t: Tid): int
    requires After(maxSize, events).Some?
  {
    if events == [] then 0
    else
      var k := |events| - 1;
      var was, now := After(maxSize, events[..k]).value.pulled, After(maxSize, events).value.pulled;
      PulledBy(maxSize, events[..k], t) + if events[k] == Run(t) then |now| - |was| else 0
  }

  /** The item of a push that is not over. */
  function Pending<T>(ph: Phase<T>): seq<T> {
    if ph.Pushing? || ph.AsleepPushing? then [ph.item] else []
  }

  function PendingPulls<T>(ph: Phase<T>): nat {
    if ph.Pulling? || ph.AsleepPulling? then 1 else 0
  }

  /** What an event does to the histories, and to the calls of one thread. */
  lemma EventGrows<T>(m: Monitor<T>, e: Event<T>, m': Monitor<T>)
    requires Next(m, e) == Some(m')
    ensures m.pushed <= m'.pushed && m.pulled <= m'.pulled
    ensures !e.Run? ==> m'.pushed == m.pushed && m'.pulled == m.pulled
  {
    hide Queue.Full;
  }

  lemma EventPushes<T>(m: Monitor<T>, e: Event<T>, m': Monitor<T>, t: Tid)
    requires Next(m, e) == Some(m') && m.pushed <= m'.pushed
    ensures Pending(PhaseOf(m, t)) + (if e.CallPush? && e.t == t then [e.item] else []) ==
      (if e == Run(t) then m'.pushed[|m.pushed|..] else []) + Pending(PhaseOf(m', t))
  {
    hide Queue.Full;
  }

  lemma EventPulls<T>(m: Monitor<T>, e: Event<T>, m': Monitor<T>, t: Tid)
    requires Next(m, e) == Some(m')
    ensures PendingPulls(PhaseOf(m, t)) + (if e == CallPull(t) then 1 else 0) ==
      (if e == Run(t) then |m'.pulled| - |m.pulled| else 0) + PendingPulls(PhaseOf(m', t))
  {
    hide Queue.Full;
  }

  /** Every item a thread calls `queue_push` with is pushed by it, once and in its order, unless the call is not over;
      and so is every pull. */
  lemma {:induction false} CallsAccounted<T>(maxSize: int, events: seq<Event<T>>, t: Tid)
    requires After(maxSize, events).Some?
    ensures var ph := PhaseOf(After(maxSize, events).value, t);
      && Asked(events, t) == PushedBy(maxSize, events, t) + Pending(ph)
      && PullsAsked(events, t) == PulledBy(maxSize, events, t) + PendingPulls(ph)
  {
    hide Next;
    if events != [] {
      var k := |events| - 1;
      var m, m' := After(maxSize, events[..k]).value, After(maxSize, events).value;
      CallsAccounted(maxSize, events[..k], t);
      EventGrows(m, events[k], m');
      EventPushes(m, events[k], m', t);
      EventPulls(m, events[k], m', t);
      var asked := if events[k].CallPush? && events[k].t == t then [events[k].item] else [];
      var pushed := if events[k] == Run(t) then m'.pushed[|m.pushed|..] else [];
      var before := PushedBy(maxSize, events[..k], t);
      assert Asked(events, t) == before + (Pending(PhaseOf(m, t)) + asked);
      assert PushedBy(maxSize, events, t) == before + pushed;
    }
  }

  /** A thread sleeps exactly if its push finds a bounded queue full or its pull an empty one; the others are woken
      exactly if the queue was empty before a push, or full before a pull, and else stay as they are. */
  lemma RunExactly<T>(m: Monitor<T>, t: Tid, m': Monitor<T>, u: Tid)
    requires Next(m, Run(t)) == Some(m')
    ensures var ph, full := PhaseOf(m, t), m.maxSize > 0 && |m.queue| == m.maxSize;
      && (ph.Pushing? || ph.Pulling?)
      && (PhaseOf(m', t).AsleepPushing? <==> ph.Pushing? && full)
      && (PhaseOf(m', t).AsleepPulling? <==> ph.Pulling? && m.queue == [])
      && (PhaseOf(m', t).Outside? <==> if ph.Pushing? then !full else m.queue != [])
      && (u != t ==>
            var wakes := PhaseOf(m', t).Outside? && if ph.Pushing? then m.queue == [] else full;
            PhaseOf(m', u) == if wakes then Awake(PhaseOf(m, u)) else PhaseOf(m, u))
  {
  }
}
