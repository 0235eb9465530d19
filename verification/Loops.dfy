/**
  The computing loops of MP4/client.c and MP4/server.c in place, on the linked queues and the job array in memory,
  and what the protocol's threads do when left alone.
 */
module Loops {
  import opened Wrappers
  import opened Queue
  import opened Slots
  import P = Protocol

  /** How a loop ends: it would wait for a job, would wait for room with a result in its hand, or leaves. */
  datatype Ended = WaitsForJob | WaitsForRoom(job: int) | Leaves

  /** What a computing thread works on. */
  datatype Desk<V> = Desk(todo: seq<int>, tosend: seq<int>, slots: seq<V>)

  /** `compute_worker`: every job is computed and its id queued to be sent; a negative id ends the loop. */
  function Worker<V>(d: Desk<V>, room: int, f: V -> V): (Desk<V>, Ended)
    requires forall k | 0 <= k < |d.todo| :: d.todo[k] < |d.slots|
    decreases |d.todo|
  {
    if d.todo == [] then (d, WaitsForJob)
    else
      var j, rest := d.todo[0], d.todo[1..];
      if j <= -1 then (d.(todo := rest), Leaves)
      else
        var slots := d.slots[j := f(d.slots[j])];
        if Full(|d.tosend|, room) then (d.(todo := rest, slots := slots), WaitsForRoom(j))
        else Worker(Desk(rest, d.tosend + [j], slots), room, f)
  }

  function Computing<T>(bump: T -> T): seq<T> -> seq<T> {
    (slot: seq<T>) => ComputeSlot(bump, slot)
  }

  ghost function DeskOf<T>(
      todo: BoundedQueue<int>, tosend: BoundedQueue<int>, jobArray: array<T>, n: nat): (d: Desk<seq<T>>)
    requires jobArray.Length == Base(n)
    reads todo, todo.nodes, tosend, tosend.nodes, jobArray
  {
    Desk(todo.Contents(), tosend.Contents(), View(jobArray[..], n))
  }

  /** Two queues in memory that share no node. */
  ghost predicate Apart(todo: BoundedQueue<int>, tosend: BoundedQueue<int>)
    reads todo, todo.nodes, tosend, tosend.nodes
  {
    todo != tosend && todo.Valid() && tosend.Valid() && forall a | a in todo.nodes :: a !in tosend.nodes
  }

  /** One slot of the array computed in place. */
  method ComputeJob<T>(jobArray: array<T>, n: nat, job: nat, bump: T -> T)
    requires jobArray.Length == Base(n) && job < n
    modifies jobArray
    ensures View(jobArray[..], n) ==
      View(old(jobArray[..]), n)[job := ComputeSlot(bump, View(old(jobArray[..]), n)[job])]
  {
    SlotsApart(job + 1, n);
    PutIsUpdate(jobArray[..], n, job, ComputeSlot(bump, Get(jobArray[..], job)));
    Compute(jobArray, job, bump);
  }

  /** What a worker's desk is after one job. */
  lemma WorkerOnce<V>(d: Desk<V>, room: int, f: V -> V)
    requires d.todo != [] && forall k | 0 <= k < |d.todo| :: d.todo[k] < |d.slots|
    ensures forall k | 0 <= k < |d.todo[1..]| :: d.todo[1..][k] < |d.slots|
    ensures var j := d.todo[0];
      if j <= -1 then Worker(d, room, f) == (d.(todo := d.todo[1..]), Leaves)
      else
        var e := Desk(d.todo[1..], d.tosend, d.slots[j := f(d.slots[j])]);
        Worker(d, room, f) ==
          if Full(|d.tosend|, room) then (e, WaitsForRoom(j)) else Worker(e.(tosend := d.tosend + [j]), room, f)
  {
  }

  /** One pass of the loop of `compute_worker`. */
  method WorkerPass<T>(
      todo: BoundedQueue<int>, tosend: BoundedQueue<int>, jobArray: array<T>, n: nat, bump: T -> T)
    returns (ended: Option<Ended>)
    requires Apart(todo, tosend) && jobArray.Length == Base(n)
    requires forall k | 0 <= k < |todo.Contents()| :: todo.Contents()[k] < n
    modifies todo, tosend, tosend.nodes, jobArray
    ensures Apart(todo, tosend)
    ensures forall k | 0 <= k < |todo.Contents()| :: todo.Contents()[k] < n
    ensures |old(tosend.nodes)| <= |tosend.nodes| && tosend.nodes[..|old(tosend.nodes)|] == old(tosend.nodes)
    ensures forall k | |old(tosend.nodes)| <= k < |tosend.nodes| :: fresh(tosend.nodes[k])
    ensures var d, e := old(DeskOf(todo, tosend, jobArray, n)), DeskOf(todo, tosend, jobArray, n);
      && Worker(d, tosend.maxSize, Computing(bump)) ==
         (if ended.Some? then (e, ended.value) else Worker(e, tosend.maxSize, Computing(bump)))
      && (ended.None? ==> |e.todo| < |d.todo|)
  {
    hide BoundedQueue.Contents, BoundedQueue.Valid, View, ComputeSlot, Worker, Iterate, Get, Put, Full;
    ghost var d := DeskOf(todo, tosend, jobArray, n);
    var empty := IsEmpty(todo);
    if empty {
      EmptyDesk(d, tosend.maxSize, Computing(bump));
      return Some(WaitsForJob);
    }
    WorkerOnce(d, tosend.maxSize, Computing(bump));
    var job := PullApart(todo, tosend);
    assert todo.Contents() == d.todo[1..] && job == d.todo[0];
    if job <= -1 {
      return Some(Leaves);
    }
    ended := ComputeAndQueue(todo, tosend, jobArray, n, job, bump);
  }

  /** The second half of a pass: the job is computed, and its id queued if there is room. */
  method ComputeAndQueue<T>(
      todo: BoundedQueue<int>, tosend: BoundedQueue<int>, jobArray: array<T>, n: nat, job: nat, bump: T -> T)
    returns (ended: Option<Ended>)
    requires Apart(todo, tosend) && jobArray.Length == Base(n) && job < n
    modifies tosend, tosend.nodes, jobArray
    ensures Apart(todo, tosend)
    ensures |old(tosend.nodes)| <= |tosend.nodes| && tosend.nodes[..|old(tosend.nodes)|] == old(tosend.nodes)
    ensures forall k | |old(tosend.nodes)| <= k < |tosend.nodes| :: fresh(tosend.nodes[k])
    ensures var d := old(DeskOf(todo, tosend, jobArray, n));
      var slots := d.slots[job := Computing(bump)(d.slots[job])];
      if Full(|d.tosend|, tosend.maxSize)
      then ended == Some(WaitsForRoom(job)) && DeskOf(todo, tosend, jobArray, n) == d.(slots := slots)
      else ended == None && DeskOf(todo, tosend, jobArray, n) == Desk(d.todo, d.tosend + [job], slots)
  {
    hide BoundedQueue.Contents, BoundedQueue.Valid, View, ComputeSlot, Full;
    ComputeJob(jobArray, n, job, bump);
    var full := IsFull(tosend);
    if full {
      return Some(WaitsForRoom(job));
    }
    PushApart(tosend, todo, job);
    ended := None;
  }

  lemma EmptyDesk<V>(d: Desk<V>, room: int, f: V -> V)
    requires d.todo == []
    ensures Worker(d, room, f) == (d, WaitsForJob)
  {
  }

  /** `compute_worker`, until it leaves or would wait. */
  method ComputeWorker<T>(
      todo: BoundedQueue<int>, tosend: BoundedQueue<int>, jobArray: array<T>, n: nat, bump: T -> T)
    returns (ended: Ended)
    requires Apart(todo, tosend) && jobArray.Length == Base(n)
    requires forall k | 0 <= k < |todo.Contents()| :: todo.Contents()[k] < n
    modifies todo, tosend, tosend.nodes, jobArray
    ensures Apart(todo, tosend)
    ensures (DeskOf(todo, tosend, jobArray, n), ended) ==
      Worker(old(DeskOf(todo, tosend, jobArray, n)), tosend.maxSize, Computing(bump))
  {
    hide BoundedQueue.Contents, BoundedQueue.Valid, View, Worker;
    ghost var end := Worker(DeskOf(todo, tosend, jobArray, n), tosend.maxSize, Computing(bump));
    var r: Option<Ended> := None;
    while r.None?
      invariant Apart(todo, tosend) && forall k | 0 <= k < |todo.Contents()| :: todo.Contents()[k] < n
      invariant |old(tosend.nodes)| <= |tosend.nodes| && tosend.nodes[..|old(tosend.nodes)|] == old(tosend.nodes)
      invariant forall k | |old(tosend.nodes)| <= k < |tosend.nodes| :: fresh(tosend.nodes[k])
      invariant end == if r.Some? then (DeskOf(todo, tosend, jobArray, n), r.value)
                       else Worker(DeskOf(todo, tosend, jobArray, n), tosend.maxSize, Computing(bump))
      decreases r.None?, |todo.Contents()|
    {
      ghost var nodes := tosend.nodes;
      forall k | 0 <= k < |nodes| ensures nodes[k] in old(tosend.nodes) || fresh(nodes[k]) {
        if k < |old(tosend.nodes)| { assert nodes[k] == nodes[..|old(tosend.nodes)|][k]; }
      }
      r := WorkerPass(todo, tosend, jobArray, n, bump);
      assert tosend.nodes[..|old(tosend.nodes)|] == nodes[..|old(tosend.nodes)|];
    }
    ended := r.value;
  }

  /** What the loop means: with room for the ids and no id twice, every job before the first negative id is computed
      once, in the order of the queue, and its id is queued in that order; no other slot changes. */
  lemma {:induction false} WorkerComputesOnce<V>(d: Desk<V>, room: int, f: V -> V) returns (m: nat)
    requires forall k | 0 <= k < |d.todo| :: d.todo[k] < |d.slots|
    requires forall i, k | 0 <= i < k < |d.todo| :: d.todo[i] != d.todo[k]
    requires room > 0 ==> |d.tosend| + |d.todo| <= room
    ensures m <= |d.todo| && (forall k | 0 <= k < m :: d.todo[k] > -1) && (m < |d.todo| ==> d.todo[m] <= -1)
    ensures var (e, ended) := Worker(d, room, f);
      && ended == (if m < |d.todo| then Leaves else WaitsForJob)
      && e.todo == d.todo[if m < |d.todo| then m + 1 else m..] && e.tosend == d.tosend + d.todo[..m]
      && |e.slots| == |d.slots|
      && forall j | 0 <= j < |d.slots| :: e.slots[j] == if j in d.todo[..m] then f(d.slots[j]) else d.slots[j]
    decreases |d.todo|
  {
    m := 0;
    if d.todo == [] {
      EmptyDesk(d, room, f);
      assert d.tosend + d.todo[..0] == d.tosend;
    } else {
      hide Worker;
      WorkerOnce(d, room, f);
      if d.todo[0] <= -1 {
        assert d.tosend + d.todo[..0] == d.tosend;
      } else {
        var j := d.todo[0];
        var e := Desk(d.todo[1..], d.tosend + [j], d.slots[j := f(d.slots[j])]);
        var k := WorkerComputesOnce(e, room, f);
        m := k + 1;
        OneMoreJob(d, e, k);
      }
    }
  }

  lemma OneMoreJob<V>(d: Desk<V>, e: Desk<V>, k: nat)
    requires d.todo != [] && e.todo == d.todo[1..] && e.tosend == d.tosend + [d.todo[0]] && k <= |e.todo|
    requires forall i, l | 0 <= i < l < |d.todo| :: d.todo[i] != d.todo[l]
    ensures d.todo[..k + 1] == [d.todo[0]] + e.todo[..k] && d.todo[0] !in e.todo[..k]
    ensures d.tosend + d.todo[..k + 1] == e.tosend + e.todo[..k]
    ensures e.todo[k..] == d.todo[k + 1..] && (k < |e.todo| ==> e.todo[k + 1..] == d.todo[k + 2..])
  {
    assert forall i | 0 <= i < k :: e.todo[..k][i] == d.todo[i + 1];
  }

  // ---------- the loop of the client ----------

  /** `run_client`: until the counter is full, sentinels are thrown away and jobs computed and counted. */
  function Main<V>(todo: seq<int>, slots: seq<V>, finished: nat, n: nat, f: V -> V): (seq<int>, seq<V>, nat, Ended)
    requires forall k | 0 <= k < |todo| :: todo[k] == -1 || 0 <= todo[k] < |slots|
    decreases |todo|
  {
    if finished >= n then (todo, slots, finished, Leaves)
    else if todo == [] then (todo, slots, finished, WaitsForJob)
    else if todo[0] == -1 then Main(todo[1..], slots, finished, n, f)
    else Main(todo[1..], slots[todo[0] := f(slots[todo[0]])], finished + 1, n, f)
  }

  lemma MainOnce<V>(todo: seq<int>, slots: seq<V>, finished: nat, n: nat, f: V -> V)
    requires finished < n && todo != [] && forall k | 0 <= k < |todo| :: todo[k] == -1 || 0 <= todo[k] < |slots|
    ensures forall k | 0 <= k < |todo[1..]| :: todo[1..][k] == -1 || 0 <= todo[1..][k] < |slots|
    ensures Main(todo, slots, finished, n, f) ==
      if todo[0] == -1 then Main(todo[1..], slots, finished, n, f)
      else Main(todo[1..], slots[todo[0] := f(slots[todo[0]])], finished + 1, n, f)
  {
  }

  method RunClient<T>(todo: BoundedQueue<int>, jobArray: array<T>, n: nat, jobFinished: nat, bump: T -> T)
    returns (finished: nat, ended: Ended)
    requires todo.Valid() && jobArray.Length == Base(n)
    requires forall k | 0 <= k < |todo.Contents()| :: todo.Contents()[k] == -1 || 0 <= todo.Contents()[k] < n
    modifies todo, jobArray
    ensures todo.Valid()
    ensures (todo.Contents(), View(jobArray[..], n), finished, ended) ==
      Main(old(todo.Contents()), View(old(jobArray[..]), n), jobFinished, n, Computing(bump))
  {
    hide BoundedQueue.Contents, BoundedQueue.Valid, View, ComputeSlot, Main;
    ghost var end := Main(todo.Contents(), View(jobArray[..], n), jobFinished, n, Computing(bump));
    finished := jobFinished;
    while finished < n
      invariant todo.Valid()
      invariant forall k | 0 <= k < |todo.Contents()| :: todo.Contents()[k] == -1 || 0 <= todo.Contents()[k] < n
      invariant Main(todo.Contents(), View(jobArray[..], n), finished, n, Computing(bump)) == end
      decreases |todo.Contents()|
    {
      ghost var ids, slots := todo.Contents(), View(jobArray[..], n);
      var pulled, freed := todo.Pull();
      if pulled.PullWaits? {
        MainEnds(ids, slots, finished, n, Computing(bump));
        return finished, WaitsForJob;
      }
      MainOnce(ids, slots, finished, n, Computing(bump));
      var jobID := pulled.data;
      if jobID == -1 {
        continue;
      }
      ComputeJob(jobArray, n, jobID, bump);
      finished := finished + 1;
    }
    MainEnds(todo.Contents(), View(jobArray[..], n), finished, n, Computing(bump));
    ended := Leaves;
  }

  lemma MainEnds<V>(todo: seq<int>, slots: seq<V>, finished: nat, n: nat, f: V -> V)
    requires finished >= n || todo == []
    requires forall k | 0 <= k < |todo| :: todo[k] == -1 || 0 <= todo[k] < |slots|
    ensures Main(todo, slots, finished, n, f) == (todo, slots, finished, if finished >= n then Leaves else WaitsForJob)
  {
  }

  /** The ids that are jobs. */
  function Jobs(ids: seq<int>): (jobs: seq<int>)
    ensures |jobs| <= |ids| && forall j :: j in jobs <==> j in ids && j != -1
  {
    if ids == [] then [] else (if ids[0] == -1 then [] else [ids[0]]) + Jobs(ids[1..])
  }

  /** What the loop means: if no job is queued twice, the first m ids leave the queue, where m is as small as the
      counter allows; every job among them is computed once and counted, and no other slot changes.  The loop ends
      with a full counter, or waiting with an empty queue. */
  lemma {:induction false} MainComputesOnce<V>(todo: seq<int>, slots: seq<V>, finished: nat, n: nat, f: V -> V)
    returns (m: nat)
    requires forall k | 0 <= k < |todo| :: todo[k] == -1 || 0 <= todo[k] < |slots|
    requires forall i, k | 0 <= i < k < |todo| && todo[i] != -1 :: todo[i] != todo[k]
    ensures m <= |todo| && forall i | 0 <= i < m :: finished + |Jobs(todo[..i])| < n
    ensures var (rest, after, counted, ended) := Main(todo, slots, finished, n, f);
      && rest == todo[m..] && counted == finished + |Jobs(todo[..m])|
      && ended == (if counted >= n then Leaves else WaitsForJob) && (counted < n ==> m == |todo|)
      && Computed(slots, after, todo[..m], f)
    decreases |todo|
  {
    hide Main, Jobs, Computed;
    m := 0;
    JobsFrom(todo, 0);
    if finished >= n || todo == [] {
      MainEnds(todo, slots, finished, n, f);
      NothingComputed(slots, f);
    } else {
      var j, rest, one := todo[0], todo[1..], if todo[0] == -1 then 0 else 1;
      var later := if j == -1 then slots else slots[j := f(slots[j])];
      MainOnce(todo, slots, finished, n, f);
      var k := MainComputesOnce(rest, later, finished + one, n, f);
      m := k + 1;
      forall i | 0 < i <= m ensures |Jobs(todo[..i])| == one + |Jobs(rest[..i - 1])| {
        JobsFrom(todo, i);
      }
      OneMoreId(todo, k);
      OneMoreComputed(slots, later, Main(todo, slots, finished, n, f).1, j, rest[..k], f);
    }
  }

  lemma NothingComputed<V>(slots: seq<V>, f: V -> V)
    ensures Computed(slots, slots, [], f)
  {
  }

  /** The jobs among the first i ids, seen from the second id on. */
  lemma JobsFrom(todo: seq<int>, i: nat)
    requires i <= |todo|
    ensures i == 0 ==> Jobs(todo[..i]) == []
    ensures i > 0 ==> |Jobs(todo[..i])| == (if todo[0] == -1 then 0 else 1) + |Jobs(todo[1..][..i - 1])|
  {
    assert i > 0 ==> todo[..i][1..] == todo[1..][..i - 1];
  }

  lemma OneMoreId(todo: seq<int>, k: nat)
    requires k < |todo| && forall l | 0 < l < |todo| && todo[0] != -1 :: todo[l] != todo[0]
    ensures todo[..k + 1] == [todo[0]] + todo[1..][..k] && todo[k + 1..] == todo[1..][k..]
    ensures todo[0] != -1 ==> todo[0] !in todo[1..][..k]
  {
    assert forall i | 0 <= i < k :: todo[1..][..k][i] == todo[i + 1];
  }

  /** Exactly the slots of these ids have been computed, each once. */
  ghost predicate Computed<V>(slots: seq<V>, after: seq<V>, ids: seq<int>, f: V -> V) {
    |after| == |slots| && forall j | 0 <= j < |slots| :: after[j] == if j in ids then f(slots[j]) else slots[j]
  }

  lemma OneMoreComputed<V>(slots: seq<V>, later: seq<V>, after: seq<V>, j: int, ids: seq<int>, f: V -> V)
    requires j == -1 || 0 <= j < |slots|
    requires later == if j == -1 then slots else slots[j := f(slots[j])]
    requires Computed(later, after, ids, f) && (j != -1 ==> j !in ids)
    ensures Computed(slots, after, [j] + ids, f)
  {
  }

  // ---------- the protocol's threads, left alone ----------

  /** Some steps of one thread, with nobody else moving. */
  function Steps<V>(p: P.Params<V>, s: P.Sys<V>, t: P.Thread, k: nat): Option<P.Sys<V>>
    decreases k
  {
    if k == 0 then Some(s)
    else
      match P.Step(p, s, t)
      case None => None
      case Some(s') => Steps(p, s', t, k - 1)
  }

  function Whole<V>(p: P.Params<V>): V -> V {
    x => P.Compute(p, x)
  }

  function PcOf(e: Ended): P.Worker {
    match e
    case WaitsForJob => P.MPull
    case WaitsForRoom(j) => P.MDone(j)
    case Leaves => P.MStop
  }

  function AtDesk<V>(s: P.Sys<V>, d: Desk<V>, w: P.Worker): P.Sys<V> {
    s.(server := s.server.(todo := d.todo, tosend := d.tosend, arr := d.slots, worker := w))
  }

  lemma {:induction false} StepsConcat<V>(p: P.Params<V>, s: P.Sys<V>, t: P.Thread, k: nat, m: nat)
    requires Steps(p, s, t, k).Some?
    ensures Steps(p, s, t, k + m) == Steps(p, Steps(p, s, t, k).value, t, m)
    decreases k
  {
    hide P.Step;
    if k > 0 { StepsConcat(p, P.Step(p, s, t).value, t, k - 1, m); }
  }

  lemma ThreeSteps<V>(p: P.Params<V>, s: P.Sys<V>, t: P.Thread, s1: P.Sys<V>, s2: P.Sys<V>, s3: P.Sys<V>)
    requires P.Step(p, s, t) == Some(s1) && P.Step(p, s1, t) == Some(s2) && P.Step(p, s2, t) == Some(s3)
    ensures Steps(p, s, t, 3) == Some(s3)
  {
    hide P.Step;
    assert Steps(p, s2, t, 1) == Some(s3);
    assert Steps(p, s1, t, 2) == Some(s3);
  }

  /** Pull, the two halves of the computation, and the push. */
  lemma ServerJob<V>(p: P.Params<V>, s: P.Sys<V>)
    requires !s.fault && s.server.worker.MPull? && s.server.todo != []
    requires 0 <= s.server.todo[0] < |s.server.arr|
    ensures var v := s.server;
      var j := v.todo[0];
      var d := Desk(v.todo[1..], v.tosend, v.arr[j := P.Compute(p, v.arr[j])]);
      && Steps(p, s, P.SWorker, 3) == Some(AtDesk(s, d, P.MDone(j)))
      && P.Step(p, AtDesk(s, d, P.MDone(j)), P.SWorker) ==
         if |v.tosend| == p.n then None else Some(AtDesk(s, d.(tosend := v.tosend + [j]), P.MPull))
  {
    hide P.ServerWriter, P.ServerReader, P.Manager, P.ClientStep;
    assert s.client.inbox + [] == s.client.inbox;
    var v := s.server;
    var j := v.todo[0];
    var s1 := AtDesk(s, Desk(v.todo[1..], v.tosend, v.arr), P.MHold(j));
    assert P.Step(p, s, P.SWorker) == Some(s1);
    var s2 := AtDesk(s, Desk(v.todo[1..], v.tosend, v.arr[j := p.half(v.arr[j])]), P.MHalf(j));
    assert P.Step(p, s1, P.SWorker) == Some(s2);
    var s3 := AtDesk(s, Desk(v.todo[1..], v.tosend, v.arr[j := P.Compute(p, v.arr[j])]), P.MDone(j));
    assert s2.server.arr[j := p.rest(s2.server.arr[j])] == s3.server.arr;
    assert P.Step(p, s2, P.SWorker) == Some(s3);
    ThreeSteps(p, s, P.SWorker, s1, s2, s3);
  }

  /** The server's worker, left alone with any queue, does in the protocol what the loop does in memory, and then
      can do no more. */
  lemma {:induction false} WorkerAlone<V>(p: P.Params<V>, s: P.Sys<V>) returns (k: nat)
    requires !s.fault && s.server.worker.MPull? && |s.server.arr| == p.n > 0
    requires forall i | 0 <= i < |s.server.todo| :: s.server.todo[i] < p.n
    ensures var (d, e) := Worker(Desk(s.server.todo, s.server.tosend, s.server.arr), p.n, Whole(p));
      && Steps(p, s, P.SWorker, k) == Some(AtDesk(s, d, PcOf(e)))
      && P.Step(p, AtDesk(s, d, PcOf(e)), P.SWorker) == None
    decreases |s.server.todo|
  {
    hide P.Step, Steps, Worker, P.Compute;
    var v := s.server;
    var d := Desk(v.todo, v.tosend, v.arr);
    if v.todo == [] {
      k := NothingQueued(p, s);
      EmptyDesk(d, p.n, Whole(p));
    } else {
      WorkerOnce(d, p.n, Whole(p));
      if v.todo[0] <= -1 {
        k := WorkerLeaves(p, s);
      } else {
        ServerJob(p, s);
        var j := v.todo[0];
        var done := Desk(v.todo[1..], v.tosend, v.arr[j := Whole(p)(v.arr[j])]);
        if |v.tosend| == p.n {
          k := 3;
        } else {
          var s' := AtDesk(s, done.(tosend := v.tosend + [j]), P.MPull);
          var m := WorkerAlone(p, s');
          k := 4 + m;
          StepsConcat(p, s, P.SWorker, 3, m + 1);
          OneThenMore(p, AtDesk(s, done, P.MDone(j)), P.SWorker, s', m);
        }
      }
    }
  }

  lemma OneThenMore<V>(p: P.Params<V>, s: P.Sys<V>, t: P.Thread, s': P.Sys<V>, m: nat)
    requires P.Step(p, s, t) == Some(s')
    ensures Steps(p, s, t, m + 1) == Steps(p, s', t, m)
  {
  }

  lemma NothingQueued<V>(p: P.Params<V>, s: P.Sys<V>) returns (k: nat)
    requires !s.fault && s.server.worker.MPull? && s.server.todo == []
    ensures AtDesk(s, Desk(s.server.todo, s.server.tosend, s.server.arr), P.MPull) == s
    ensures P.Step(p, s, P.SWorker) == None && Steps(p, s, P.SWorker, k) == Some(s)
  {
    k := 0;
  }

  lemma WorkerLeaves<V>(p: P.Params<V>, s: P.Sys<V>) returns (k: nat)
    requires !s.fault && s.server.worker.MPull? && s.server.todo != [] && s.server.todo[0] <= -1
    ensures var s' := AtDesk(s, Desk(s.server.todo[1..], s.server.tosend, s.server.arr), P.MStop);
      k == 1 && Steps(p, s, P.SWorker, k) == Some(s') && P.Step(p, s', P.SWorker) == None
  {
    k := 1;
    assert s.client.inbox + [] == s.client.inbox;
    assert P.Step(p, s, P.SWorker).Some?;
  }

  /** The protocol's state when client main is at its desk; `done` and `started` record what it has counted. */
  ghost predicate AtMain<V>(
      s: P.Sys<V>, s': P.Sys<V>, todo: seq<int>, slots: seq<V>, finished: nat, w: P.Worker)
  {
    && s'.client == s.client.(todo := todo, arr := slots, worker := w)
    && s'.server == s.server && s'.finished == finished && s'.fault == s.fault
  }

  lemma ClientCheckPull<V>(p: P.Params<V>, s: P.Sys<V>) returns (s1: P.Sys<V>, s2: P.Sys<V>)
    requires !s.fault && s.client.worker.MCheck? && s.finished < p.n && s.client.todo != []
    ensures P.Step(p, s, P.CMain) == Some(s1) && P.Step(p, s1, P.CMain) == Some(s2)
    ensures var j := s.client.todo[0];
      AtMain(s, s2, s.client.todo[1..], s.client.arr, s.finished, if j == -1 then P.MCheck else P.MHold(j))
  {
    hide P.ClientWriter, P.ClientReader, P.Manager, P.ServerStep;
    s1 := P.Step(p, s, P.CMain).value;
    s2 := P.Step(p, s1, P.CMain).value;
  }

  lemma ClientComputes<V>(p: P.Params<V>, s: P.Sys<V>) returns (s1: P.Sys<V>, s2: P.Sys<V>, s3: P.Sys<V>)
    requires !s.fault && s.client.worker.MHold? && 0 <= s.client.worker.job < |s.client.arr|
    ensures P.Step(p, s, P.CMain) == Some(s1) && P.Step(p, s1, P.CMain) == Some(s2)
    ensures P.Step(p, s2, P.CMain) == Some(s3)
    ensures var j := s.client.worker.job;
      AtMain(s, s3, s.client.todo, s.client.arr[j := P.Compute(p, s.client.arr[j])], s.finished + 1, P.MCheck)
  {
    hide P.ClientWriter, P.ClientReader, P.Manager, P.ServerStep;
    var j := s.client.worker.job;
    s1 := P.Step(p, s, P.CMain).value;
    s2 := P.Step(p, s1, P.CMain).value;
    assert s1.client.arr[j := p.rest(s1.client.arr[j])] == s.client.arr[j := P.Compute(p, s.client.arr[j])];
    s3 := P.Step(p, s2, P.CMain).value;
  }

  /** Client main, left alone with any queue, does in the protocol what its loop does in memory: it ends at the loop's
      exit, or waiting in its pull. */
  lemma {:induction false} MainAlone<V>(p: P.Params<V>, s: P.Sys<V>) returns (k: nat, s': P.Sys<V>)
    requires !s.fault && s.client.worker.MCheck? && |s.client.arr| == p.n
    requires forall i | 0 <= i < |s.client.todo| :: s.client.todo[i] == -1 || 0 <= s.client.todo[i] < p.n
    ensures Steps(p, s, P.CMain, k) == Some(s')
    ensures var (todo, slots, finished, e) := Main(s.client.todo, s.client.arr, s.finished, p.n, Whole(p));
      && AtMain(s, s', todo, slots, finished, if e.Leaves? then P.MLeave else P.MPull)
      && (e.WaitsForJob? ==> P.Step(p, s', P.CMain) == None)
    decreases |s.client.todo|
  {
    hide P.Step, Steps, Main, P.Compute;
    var c := s.client;
    if s.finished >= p.n || c.todo == [] {
      MainEnds(c.todo, c.arr, s.finished, p.n, Whole(p));
      s' := MainChecks(p, s);
      k := 1;
    } else {
      MainOnce(c.todo, c.arr, s.finished, p.n, Whole(p));
      var s1, s2 := ClientCheckPull(p, s);
      var m: nat;
      if c.todo[0] == -1 {
        m, s' := MainAlone(p, s2);
        k := m + 2;
      } else {
        var s3, s4, s5 := ClientComputes(p, s2);
        m, s' := MainAlone(p, s5);
        OneThenMore(p, s4, P.CMain, s5, m);
        OneThenMore(p, s3, P.CMain, s4, m + 1);
        OneThenMore(p, s2, P.CMain, s3, m + 2);
        k := m + 5;
      }
      OneThenMore(p, s1, P.CMain, s2, k - 2);
      OneThenMore(p, s, P.CMain, s1, k - 1);
    }
  }

  lemma MainChecks<V>(p: P.Params<V>, s: P.Sys<V>) returns (s': P.Sys<V>)
    requires !s.fault && s.client.worker.MCheck? && (s.finished >= p.n || s.client.todo == [])
    ensures Steps(p, s, P.CMain, 1) == Some(s')
    ensures AtMain(s, s', s.client.todo, s.client.arr, s.finished, if s.finished >= p.n then P.MLeave else P.MPull)
    ensures s.finished < p.n ==> P.Step(p, s', P.CMain) == None
  {
    s' := P.Step(p, s, P.CMain).value;
    OneThenMore(p, s, P.CMain, s', 0);
  }

  method IsEmpty(queue: BoundedQueue<int>) returns (empty: bool)
    requires queue.Valid()
    ensures empty == (queue.Contents() == [])
  {
    empty := queue.size == 0;
  }

  method IsFull(queue: BoundedQueue<int>) returns (full: bool)
    requires queue.Valid()
    ensures full == Full(|queue.Contents()|, queue.maxSize)
  {
    full := queue.maxSize > 0 && queue.size == queue.maxSize;
  }
}
