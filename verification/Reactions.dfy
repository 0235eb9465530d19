/** What the threads of MP4 do in any state at all, reachable or not: when they wait, what a reader makes of an id, and
    what an offload does when nobody else moves. */
module Reactions {
  import opened Wrappers
  import opened Protocol
  import opened OffloadLoop
  import opened Adaptor
  import opened Hearing
  import Loops

  // ---------- waiting ----------

  /** The thread pulls from an empty queue, pushes into a full one, reads from an empty channel, or has ended. */
  predicate Waits<V>(p: Params<V>, s: Sys<V>, t: Thread) {
    var c, v := s.client, s.server;
    match t
    case CMain => (c.worker.MPull? && c.todo == []) || (c.worker.MLeave? && |c.tosend| == p.n) || c.worker.MStop?
    case CWriter => (c.writer.WPull? && c.tosend == []) || c.writer.WStop?
    case CReader =>
      || (c.reader.RCheck? && s.finished == p.n && |c.todo| == p.n)
      || (c.reader.RWait? && c.inbox == [])
      || (c.reader.ROffer? && c.reader.left > 0 && c.todo == [])
      || (c.reader.RBack? && |c.todo| == p.n)
      || c.reader.RStuck? || c.reader.RStop? || c.reader.RGotStop?
    case SWorker =>
      || (v.worker.MPull? && v.todo == []) || (v.worker.MDone? && |v.tosend| == p.n)
      || v.worker.MStop? || v.worker.MCheck? || v.worker.MLeave?
    case SWriter => (v.writer.WPull? && v.tosend == []) || v.writer.WStop? || v.writer.WCheck?
    case SReader =>
      || (v.reader.RWait? && v.inbox == [])
      || (v.reader.ROffer? && v.reader.left > 0 && v.todo == [])
      || (v.reader.RStored? && |v.todo| == p.n) || (v.reader.RGotStop? && |v.tosend| == p.n)
      || v.reader.RCheck? || v.reader.RBack? || v.reader.RStuck? || v.reader.RStop?
    case _ => false
  }

  lemma ClientWaits<V>(p: Params<V>, s: Sys<V>, t: Thread)
    requires OnClient(t)
    ensures ClientStep(p, s.client, s.finished, t).Blocked? <==> Waits(p, s, t)
  {
    hide FrameFor, ClientReceive, ServerStep;
  }

  lemma ServerWaits<V>(p: Params<V>, s: Sys<V>, t: Thread)
    requires !OnClient(t)
    ensures ServerStep(p, s.server, t).Blocked? <==> Waits(p, s, t)
  {
    hide FrameFor, ServerReceive, ClientStep;
  }

  /** A thread has no step exactly when it waits, or when a slot outside an array has been touched. */
  lemma WaitsExactly<V>(p: Params<V>, s: Sys<V>, t: Thread)
    ensures Step(p, s, t).None? <==> s.fault || Waits(p, s, t)
  {
    hide ClientStep, ServerStep, Waits;
    if OnClient(t) { ClientWaits(p, s, t); } else { ServerWaits(p, s, t); }
  }

  // ---------- ids ----------

  /** The client stores data under an id below n, queues n + j as job j, and drops a negative id; the server takes
      j + n as j for every j above 0, and drops a negative id too. */
  lemma ReceivesExactly<V>(p: Params<V>, nd: Node<V>, id: int, body: V)
    ensures ClientReceive(p, nd, Data(id, body)) == nd.(reader :=
      if id < 0 then RCheck else if id < p.n then RGot(id, body) else RBack(id - p.n))
    ensures ServerReceive(p, nd, Data(id, body)) == nd.(reader :=
      if id < 0 then RWait else if id <= p.n then RGot(id, body) else RGot(id - p.n, body))
    ensures ClientReceive(p, nd, StopMsg) == nd.(reader := RStuck)
    ensures ServerReceive(p, nd, StopMsg) == nd.(reader := RGotStop)
  {
  }

  // ---------- an offload on its own ----------

  /** Only the reader's node has changed, but for the frames the reader has sent. */
  ghost predicate OnlyReader<V>(s: Sys<V>, t: Thread, nd: Node<V>, sent: seq<Frame<V>>, s': Sys<V>) {
    var there := PeerReader(t);
    && Side(s', t) == nd && Side(s', there) == Side(s, there).(inbox := Side(s, there).inbox + sent)
    && s'.finished == s.finished && s'.done == s.done && s'.fault == s.fault
  }

  function Home<V>(t: Thread): Reader<V> {
    if t == CReader then RCheck else RWait
  }

  lemma OneStep<V>(p: Params<V>, s: Sys<V>, t: Thread)
    requires IsReader(t) && !s.fault && Offloading(Side(s, t).reader)
    requires Offload(p, Side(s, t), Home(t)).Went? && Offload(p, Side(s, t), Home(t)).counted == []
    ensures Step(p, s, t).Some?
    ensures var o := Offload(p, Side(s, t), Home(t)); OnlyReader(s, t, o.me, o.sent, Step(p, s, t).value)
  {
    hide Offload;
    assert s.done + [] == s.done;
  }

  /** How many of the leading ids an offload of so many takes: fewer if the queue is short. */
  function Most(ids: seq<int>, left: nat): (k: nat)
    ensures k <= |ids|
  {
    if left <= |ids| then left else |ids|
  }

  /** The queue after it, and where the reader is: a negative id is taken off the queue and ends the offload, and a
      queue that is too short leaves the reader waiting. */
  function Offered<V>(nd: Node<V>, left: nat, home: Reader<V>): Node<V> {
    var most := Most(nd.todo, left);
    var m := Leading(nd.todo, most);
    if m < most then nd.(todo := nd.todo[m + 1..], reader := home)
    else nd.(todo := nd.todo[m..], reader := if m == left then home else ROffer(left - m))
  }

  /** Job 0 is not offered. */
  predicate Shiftable(ids: seq<int>, n: nat) {
    forall i | 0 <= i < |ids| :: ids[i] <= -1 || 0 < ids[i] < n
  }

  predicate Offerable<V>(p: Params<V>, s: Sys<V>, t: Thread, left: nat) {
    && IsReader(t) && !s.fault && Side(s, t).reader == ROffer(left)
    && |Side(s, t).arr| == p.n && Shiftable(Side(s, t).todo, p.n)
  }

  /** The leading jobs, as many as the offload is for, travel in their order. */
  function OffersOf<V>(n: nat, arr: seq<V>, ids: seq<int>, left: nat): seq<Frame<V>>
    requires |arr| == n && Shiftable(ids, n)
  {
    Offers(n, arr, ids[..Leading(ids, Most(ids, left))])
  }

  lemma OneOffer<V>(p: Params<V>, s: Sys<V>, t: Thread, left: nat) returns (s1: Sys<V>, s2: Sys<V>)
    requires Offerable(p, s, t, left) && left > 0 && Side(s, t).todo != [] && Side(s, t).todo[0] > -1
    ensures Step(p, s, t) == Some(s1) && Step(p, s1, t) == Some(s2) && Offerable(p, s2, t, left - 1)
    ensures var nd := Side(s, t);
      OnlyReader(s, t, nd.(todo := nd.todo[1..], reader := ROffer(left - 1)),
                 [Data(p.n + nd.todo[0], nd.arr[nd.todo[0]])], s2)
  {
    var nd := Side(s, t);
    var j := nd.todo[0];
    hide Step, Side;
    OneStep(p, s, t);
    s1 := Step(p, s, t).value;
    OneStep(p, s1, t);
    s2 := Step(p, s1, t).value;
    TwoSends(s, t, s1, s2, nd.(todo := nd.todo[1..], reader := ROfferHand(j, left - 1)),
             nd.(todo := nd.todo[1..], reader := ROffer(left - 1)), [], [Data(p.n + j, nd.arr[j])]);
  }

  lemma TwoSends<V>(
      s: Sys<V>, t: Thread, s1: Sys<V>, s2: Sys<V>, nd1: Node<V>, nd2: Node<V>, a: seq<Frame<V>>, b: seq<Frame<V>>)
    requires OnlyReader(s, t, nd1, a, s1) && OnlyReader(s1, t, nd2, b, s2)
    ensures OnlyReader(s, t, nd2, a + b, s2)
  {
    hide Side;
    var inbox := Side(s, PeerReader(t)).inbox;
    assert inbox + a + b == inbox + (a + b);
  }

  lemma LeadingOnce(ids: seq<int>, left: nat)
    requires left > 0 && ids != [] && ids[0] > -1
    ensures Most(ids, left) == 1 + Most(ids[1..], left - 1)
    ensures Leading(ids, Most(ids, left)) == 1 + Leading(ids[1..], Most(ids[1..], left - 1))
  {
  }

  lemma RestOfRest(ids: seq<int>, m: nat)
    requires m < |ids|
    ensures ids[1..][m..] == ids[m + 1..]
  {
  }

  /** The effect is that of its first job, and then of the rest. */
  lemma OfferedOnce<V>(nd: Node<V>, left: nat, home: Reader<V>)
    requires left > 0 && nd.todo != [] && nd.todo[0] > -1
    ensures Offered(nd, left, home) ==
      Offered(nd.(todo := nd.todo[1..], reader := ROffer(left - 1)), left - 1, home)
  {
    hide Leading, Most;
    LeadingOnce(nd.todo, left);
    var m := Leading(nd.todo[1..], Most(nd.todo[1..], left - 1));
    RestOfRest(nd.todo, m);
    if m < Most(nd.todo[1..], left - 1) { RestOfRest(nd.todo, m + 1); }
  }

  lemma OffersOnce<V>(n: nat, arr: seq<V>, ids: seq<int>, left: nat)
    requires |arr| == n && Shiftable(ids, n) && left > 0 && ids != [] && ids[0] > -1
    ensures Shiftable(ids[1..], n)
    ensures OffersOf(n, arr, ids, left) == [Data(n + ids[0], arr[ids[0]])] + OffersOf(n, arr, ids[1..], left - 1)
  {
    LeadingOnce(ids, left);
    hide Leading, Most;
    var m := Leading(ids[1..], Most(ids[1..], left - 1));
    assert ids[..1 + m] == [ids[0]] + ids[1..][..m];
  }

  /** One job goes out, and the rest is an offload of one job less. */
  lemma OneMoreOffer<V>(
      p: Params<V>, s: Sys<V>, t: Thread, left: nat, s1: Sys<V>, s2: Sys<V>, m: nat, s': Sys<V>)
    requires Offerable(p, s, t, left) && left > 0 && Side(s, t).todo != [] && Side(s, t).todo[0] > -1
    requires Step(p, s, t) == Some(s1) && Step(p, s1, t) == Some(s2) && Loops.Steps(p, s2, t, m) == Some(s')
    requires var nd := Side(s, t);
      var next := nd.(todo := nd.todo[1..], reader := ROffer(left - 1));
      && OnlyReader(s, t, next, [Data(p.n + nd.todo[0], nd.arr[nd.todo[0]])], s2) && Offerable(p, s2, t, left - 1)
      && OnlyReader(s2, t, Offered(next, left - 1, Home(t)), OffersOf(p.n, next.arr, next.todo, left - 1), s')
    ensures Loops.Steps(p, s, t, m + 2) == Some(s')
    ensures OnlyReader(s, t, Offered(Side(s, t), left, Home(t)),
                       OffersOf(p.n, Side(s, t).arr, Side(s, t).todo, left), s')
  {
    var nd := Side(s, t);
    hide Step, Side, Offered, OffersOf, OnlyReader, Loops.Steps;
    OfferedOnce(nd, left, Home(t));
    OffersOnce(p.n, nd.arr, nd.todo, left);
    Loops.OneThenMore(p, s1, t, s2, m);
    Loops.OneThenMore(p, s, t, s1, m + 1);
    TwoSends(s, t, s2, s', nd.(todo := nd.todo[1..], reader := ROffer(left - 1)), Offered(nd, left, Home(t)),
             [Data(p.n + nd.todo[0], nd.arr[nd.todo[0]])], OffersOf(p.n, nd.arr, nd.todo[1..], left - 1));
  }

  /** An offload left alone, in any queue: the leading jobs go out in order as shifted frames. */
  lemma {:induction false} OffloadAlone<V>(p: Params<V>, s: Sys<V>, t: Thread, left: nat)
    returns (k: nat, s': Sys<V>)
    requires Offerable(p, s, t, left)
    ensures Loops.Steps(p, s, t, k) == Some(s')
    ensures OnlyReader(s, t, Offered(Side(s, t), left, Home(t)),
                       OffersOf(p.n, Side(s, t).arr, Side(s, t).todo, left), s')
    decreases left
  {
    hide Step, Offered, OffersOf, OnlyReader, Loops.Steps;
    if left == 0 || Side(s, t).todo == [] || Side(s, t).todo[0] <= -1 {
      k, s' := OfferEnds(p, s, t, left);
    } else {
      var nd := Side(s, t);
      var s1, s2 := OneOffer(p, s, t, left);
      NodeAfter(s, t, nd.(todo := nd.todo[1..], reader := ROffer(left - 1)),
                [Data(p.n + nd.todo[0], nd.arr[nd.todo[0]])], s2);
      k, s' := OffloadAlone(p, s2, t, left - 1);
      OneMoreOffer(p, s, t, left, s1, s2, k, s');
      k := k + 2;
    }
  }

  lemma NodeAfter<V>(s: Sys<V>, t: Thread, nd: Node<V>, sent: seq<Frame<V>>, s': Sys<V>)
    requires OnlyReader(s, t, nd, sent, s')
    ensures Side(s', t) == nd
  {
  }

  lemma OfferEnds<V>(p: Params<V>, s: Sys<V>, t: Thread, left: nat) returns (k: nat, s': Sys<V>)
    requires Offerable(p, s, t, left) && (left == 0 || Side(s, t).todo == [] || Side(s, t).todo[0] <= -1)
    ensures Loops.Steps(p, s, t, k) == Some(s')
    ensures OnlyReader(s, t, Offered(Side(s, t), left, Home(t)),
                       OffersOf(p.n, Side(s, t).arr, Side(s, t).todo, left), s')
  {
    var nd := Side(s, t);
    hide Step, Side;
    assert nd.todo[..0] == [] && nd.todo[0..] == nd.todo;
    if left > 0 && nd.todo == [] {
      k, s' := 0, s;
      assert Side(s, PeerReader(t)).inbox + [] == Side(s, PeerReader(t)).inbox;
    } else {
      OneStep(p, s, t);
      k, s' := 1, Step(p, s, t).value;
      Loops.OneThenMore(p, s, t, s', 0);
    }
  }
}
