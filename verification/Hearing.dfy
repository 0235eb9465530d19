/**
  What the two nodes of MP4 learn from each other over every execution: which sizes and requests a reader has
  taken, and what it decides on them.
 */
module Hearing {
  import opened Wrappers
  import opened Protocol
  import opened OffloadLoop

  // ---------- frames taken ----------

  /** The frame that the reader t takes off its node's channel in step i. */
  ghost function TakenIn<V>(schedule: seq<Thread>, states: seq<Sys<V>>, t: Thread, i: nat): Option<Frame<V>>
    requires i < |schedule| < |states|
  {
    var inbox := Side(states[i], t).inbox;
    if schedule[i] == t && inbox != [] && Side(states[i + 1], t).inbox == inbox[1..] then Some(inbox[0]) else None
  }

  /** The reader t has taken a request to rebalance in one of the first k steps. */
  ghost predicate Heard<V>(schedule: seq<Thread>, states: seq<Sys<V>>, t: Thread, k: nat)
    requires k <= |schedule| < |states|
  {
    exists i | 0 <= i < k :: TakenIn(schedule, states, t, i) == Some(Rebalance)
  }

  /** The sizes of the peer's queue among some frames, in order. */
  function Sizes<V>(frames: seq<Frame<V>>): seq<int> {
    if frames == [] then [] else SizeIn(frames[0]) + Sizes(frames[1..])
  }

  function SizeIn<V>(f: Frame<V>): seq<int> {
    if f.StateMsg? then [f.num] else []
  }

  /** The sizes that the reader t has taken in the first k steps. */
  ghost function SizesTaken<V>(schedule: seq<Thread>, states: seq<Sys<V>>, t: Thread, k: nat): seq<int>
    requires k <= |schedule| < |states|
  {
    if k == 0 then []
    else
      var taken := TakenIn(schedule, states, t, k - 1);
      SizesTaken(schedule, states, t, k - 1) + if taken.Some? then SizeIn(taken.value) else []
  }

  /** The requests to rebalance among some frames. */
  function Requests<V>(frames: seq<Frame<V>>): nat {
    if frames == [] then 0 else (if frames[0].Rebalance? then 1 else 0) + Requests(frames[1..])
  }

  /** How many of them the reader t has taken in the first k steps. */
  ghost function RequestsTaken<V>(schedule: seq<Thread>, states: seq<Sys<V>>, t: Thread, k: nat): nat
    requires k <= |schedule| < |states|
  {
    if k == 0 then 0
    else
      var more := if TakenIn(schedule, states, t, k - 1) == Some(Rebalance) then 1 else 0;
      RequestsTaken(schedule, states, t, k - 1) + more
  }

  // ---------- one step ----------

  /** The reader of the other node, and its state manager. */
  function PeerReader(t: Thread): Thread {
    if OnClient(t) then SReader else CReader
  }

  function PeerManager(t: Thread): Thread {
    if OnClient(t) then SManager else CManager
  }

  /** A step on the other node appends what it sends. */
  lemma PeerStep<V>(p: Params<V>, s: Sys<V>, t: Thread, u: Thread, s': Sys<V>)
    requires Step(p, s, u) == Some(s') && OnClient(t) != OnClient(u)
    ensures Side(s', t) == Side(s, t).(inbox := Side(s, t).inbox + SentIn(p, s, u))
  {
    hide ClientStep, ServerStep;
    assert Side(s, t).inbox + [] == Side(s, t).inbox;
  }

  /** What a node has heard. */
  ghost predicate SameHearing<V>(a: Node<V>, b: Node<V>) {
    a.inbox == b.inbox && a.asked == b.asked && a.peer == b.peer
  }

  /** So does a step on the reader's own node by any other thread. */
  lemma OwnStep<V>(p: Params<V>, s: Sys<V>, t: Thread, u: Thread, s': Sys<V>)
    requires IsReader(t) && Step(p, s, u) == Some(s') && OnClient(t) == OnClient(u) && u != t
    ensures SameHearing(Side(s, t), Side(s', t)) && Side(s', t).reader == Side(s, t).reader
  {
    hide FrameFor;
    if OnClient(t) { hide ServerStep, ClientReader; } else { hide ClientStep, ServerReader; }
  }

  /** A reader that waits takes a frame; in any other step it keeps what the node has heard. */
  lemma ReaderStep<V>(p: Params<V>, s: Sys<V>, t: Thread, s': Sys<V>)
    requires IsReader(t) && Step(p, s, t) == Some(s')
    ensures var nd, nd' := Side(s, t), Side(s', t);
      if nd.reader.RWait? then
        && nd.inbox != [] && nd'.inbox == nd.inbox[1..]
        && nd' == (if t == CReader then ClientReceive(p, nd, nd.inbox[0]) else ServerReceive(p, nd, nd.inbox[0]))
                    .(inbox := nd.inbox[1..])
      else SameHearing(nd, nd')
  {
    hide FrameFor, ClientReceive, ServerReceive;
    if t == CReader { hide ServerStep; } else { hide ClientStep; }
  }

  /** A step takes a frame exactly if it is the reader's and the reader waits. */
  lemma TakesExactly<V>(
      p: Params<V>, schedule: seq<Thread>, states: seq<Sys<V>>, t: Thread, i: nat)
    requires IsReader(t) && Execution(p, schedule, states) && i < |schedule|
    ensures var nd := Side(states[i], t);
      TakenIn(schedule, states, t, i) ==
        if schedule[i] == t && nd.reader.RWait? && nd.inbox != [] then Some(nd.inbox[0]) else None
  {
    hide Step, ClientReceive, ServerReceive;
    if schedule[i] == t { ReaderStep(p, states[i], t, states[i + 1]); }
    if Side(states[i], t).inbox != [] { assert |Side(states[i], t).inbox[1..]| < |Side(states[i], t).inbox|; }
  }

  // ---------- requests ----------

  lemma StepAsked<V>(p: Params<V>, s: Sys<V>, t: Thread, u: Thread, s': Sys<V>)
    requires IsReader(t) && Step(p, s, u) == Some(s')
    ensures var nd := Side(s, t);
      Side(s', t).asked <==>
        nd.asked || (u == t && nd.reader.RWait? && nd.inbox != [] && nd.inbox[0].Rebalance?)
  {
    hide Step, SentIn, Side, ClientReceive, ServerReceive;
    if OnClient(t) != OnClient(u) {
      PeerStep(p, s, t, u, s');
    } else if u != t {
      OwnStep(p, s, t, u, s');
    } else {
      ReaderStep(p, s, t, s');
      if Side(s, t).reader.RWait? { ReceiveAsked(p, Side(s, t), Side(s, t).inbox[0]); }
    }
  }

  lemma ReceiveAsked<V>(p: Params<V>, nd: Node<V>, f: Frame<V>)
    ensures ClientReceive(p, nd, f).asked <==> nd.asked || f.Rebalance?
    ensures ServerReceive(p, nd, f).asked <==> nd.asked || f.Rebalance?
  {
  }

  /** A node takes itself to be asked to rebalance exactly when its reader has taken a request. */
  lemma {:induction false} AskedExactly<V>(
      p: Params<V>, schedule: seq<Thread>, states: seq<Sys<V>>, t: Thread, k: nat)
    requires IsReader(t) && Execution(p, schedule, states) && k <= |schedule|
    ensures Side(states[k], t).asked <==> Heard(schedule, states, t, k)
  {
    hide Step, TakenIn;
    if k > 0 {
      AskedExactly(p, schedule, states, t, k - 1);
      StepAsked(p, states[k - 1], t, schedule[k - 1], states[k]);
      TakesExactly(p, schedule, states, t, k - 1);
      assert TakenIn(schedule, states, t, k - 1) == Some(Rebalance) ==> Heard(schedule, states, t, k);
    } else {
      hide Side;
      assert !Side(states[0], t).asked by { InitHearing(p, t); }
    }
  }

  lemma InitHearing<V>(p: Params<V>, t: Thread)
    ensures var nd := Side(Init(p), t);
      !nd.asked && nd.peer == -1 && nd.inbox == [] && nd.manager.None? && !nd.reader.RAsk?
  {
  }

  lemma {:induction false} RequestsConcat<V>(a: seq<Frame<V>>, b: seq<Frame<V>>)
    ensures Requests(a + b) == Requests(a) + Requests(b)
  {
    if a == [] {
      assert a + b == b;
    } else {
      assert (a + b)[1..] == a[1..] + b;
      RequestsConcat(a[1..], b);
    }
  }

  /** The requests in a step's frames: a reader at `RAsk` sends one, no other step sends any. */
  lemma RequestsSent<V>(p: Params<V>, s: Sys<V>, t: Thread, u: Thread)
    requires IsReader(t) && OnClient(u) == OnClient(t) && Step(p, s, u).Some?
    ensures Requests(SentIn(p, s, u)) == if u == t && Side(s, t).reader.RAsk? then 1 else 0
  {
    if OnClient(t) { hide ServerStep; } else { hide ClientStep; }
  }

  lemma StepRequests<V>(p: Params<V>, s: Sys<V>, t: Thread, u: Thread, s': Sys<V>)
    requires IsReader(t) && Step(p, s, u) == Some(s')
    ensures var nd := Side(s, t);
      Requests(nd.inbox) + (if u == PeerReader(t) && Side(s, u).reader.RAsk? then 1 else 0) ==
        Requests(Side(s', t).inbox) +
        if u == t && nd.reader.RWait? && nd.inbox != [] && nd.inbox[0].Rebalance? then 1 else 0
  {
    hide Step, SentIn, Side, ClientReceive, ServerReceive;
    if OnClient(t) != OnClient(u) {
      PeerStep(p, s, t, u, s');
      RequestsSent(p, s, PeerReader(t), u);
      RequestsConcat(Side(s, t).inbox, SentIn(p, s, u));
      assert Side(s, PeerReader(t)) == Side(s, u) by { OneSide(s, PeerReader(t), u); }
    } else if u != t {
      OwnStep(p, s, t, u, s');
    } else {
      ReaderStep(p, s, t, s');
    }
  }

  lemma OneSide<V>(s: Sys<V>, t: Thread, u: Thread)
    requires OnClient(t) == OnClient(u)
    ensures Side(s, t) == Side(s, u)
  {
  }

  /** How many requests the reader t has sent in the first k steps. */
  ghost function RequestsMade<V>(schedule: seq<Thread>, states: seq<Sys<V>>, t: Thread, k: nat): nat
    requires k <= |schedule| < |states|
  {
    if k == 0 then 0
    else
      var more := if schedule[k - 1] == t && Side(states[k - 1], t).reader.RAsk? then 1 else 0;
      RequestsMade(schedule, states, t, k - 1) + more
  }

  /** No request is lost or made up on the way: those one reader sent are those the other has taken and those still
      in its channel. */
  lemma {:induction false} RequestsArrive<V>(
      p: Params<V>, schedule: seq<Thread>, states: seq<Sys<V>>, t: Thread, k: nat)
    requires IsReader(t) && Execution(p, schedule, states) && k <= |schedule|
    ensures RequestsMade(schedule, states, PeerReader(t), k) ==
      RequestsTaken(schedule, states, t, k) + Requests(Side(states[k], t).inbox)
  {
    hide Step, TakenIn, Side;
    if k > 0 {
      RequestsArrive(p, schedule, states, t, k - 1);
      StepRequests(p, states[k - 1], t, schedule[k - 1], states[k]);
      TakesExactly(p, schedule, states, t, k - 1);
    } else {
      InitHearing(p, t);
    }
  }

  // ---------- sizes ----------

  lemma {:induction false} SizesConcat<V>(a: seq<Frame<V>>, b: seq<Frame<V>>)
    ensures Sizes(a + b) == Sizes(a) + Sizes(b)
  {
    if a == [] {
      assert a + b == b;
    } else {
      assert (a + b)[1..] == a[1..] + b;
      SizesConcat(a[1..], b);
    }
  }

  /** The size a manager has read and not sent. */
  function Held<V>(nd: Node<V>): seq<int> {
    if nd.manager.Some? then [nd.manager.value] else []
  }

  /** No other thread than a manager sends a size. */
  lemma ClientSizes<V>(p: Params<V>, c: Node<V>, finished: nat, u: Thread)
    requires OnClient(u) && u != CManager && ClientStep(p, c, finished, u).Went?
    ensures var o := ClientStep(p, c, finished, u); Sizes(o.sent) == [] && o.me.manager == c.manager
  {
  }

  lemma ServerSizes<V>(p: Params<V>, v: Node<V>, u: Thread)
    requires !OnClient(u) && u != SManager && ServerStep(p, v, u).Went?
    ensures var o := ServerStep(p, v, u); Sizes(o.sent) == [] && o.me.manager == v.manager
  {
  }

  lemma ManagerSizes<V>(nd: Node<V>)
    ensures var o := Manager(nd);
      o.Went? && Held(nd) + (if nd.manager.None? then [|nd.todo|] else []) == Sizes(o.sent) + Held(o.me)
  {
  }

  /** A manager reads the size of its queue, or sends the one it has read. */
  lemma SizesSent<V>(p: Params<V>, s: Sys<V>, u: Thread, s': Sys<V>)
    requires Step(p, s, u) == Some(s')
    ensures var nd, manages := Side(s, u), u == CManager || u == SManager;
      Held(nd) + (if manages && nd.manager.None? then [|nd.todo|] else []) ==
        Sizes(SentIn(p, s, u)) + Held(Side(s', u))
  {
    hide Sizes, ClientMain, ClientWriter, ClientReader, ServerWorker, ServerWriter, ServerReader, Manager;
    assert Sizes<V>([]) == [] by { NoSizes<V>(); }
    ManagerSizes(Side(s, u));
    if OnClient(u) {
      if u != CManager && ClientStep(p, s.client, s.finished, u).Went? { ClientSizes(p, s.client, s.finished, u); }
    } else {
      if u != SManager && ServerStep(p, s.server, u).Went? { ServerSizes(p, s.server, u); }
    }
  }

  lemma NoSizes<V>()
    ensures Sizes<V>([]) == []
  {
  }

  /** The sizes that the manager m has read in the first k steps: it reads in its first, third, ... step. */
  function SizesRead<V>(schedule: seq<Thread>, states: seq<Sys<V>>, m: Thread, k: nat): seq<int>
    requires k <= |schedule| < |states|
  {
    if k == 0 then []
    else
      SizesRead(schedule, states, m, k - 1) +
      if schedule[k - 1] == m && Count(schedule, m, 0, k - 1) % 2 == 0 then [|Side(states[k - 1], m).todo|] else []
  }

  lemma StepManager<V>(p: Params<V>, s: Sys<V>, m: Thread, u: Thread, s': Sys<V>)
    requires (m == CManager || m == SManager) && Step(p, s, u) == Some(s')
    ensures Side(s', m).manager.None? <==> (Side(s, m).manager.None? <==> u != m)
    ensures u != m ==> Side(s', m).manager == Side(s, m).manager
  {
    hide FrameFor;
  }

  lemma {:induction false} ManagerAlternates<V>(
      p: Params<V>, schedule: seq<Thread>, states: seq<Sys<V>>, m: Thread, k: nat)
    requires (m == CManager || m == SManager) && Execution(p, schedule, states) && k <= |schedule|
    ensures Side(states[k], m).manager.None? <==> Count(schedule, m, 0, k) % 2 == 0
  {
    hide Step, Side;
    if k > 0 {
      ManagerAlternates(p, schedule, states, m, k - 1);
      StepManager(p, states[k - 1], m, schedule[k - 1], states[k]);
    } else {
      InitHearing(p, m);
    }
  }

  /** The sizes on their way to the reader t: in its channel, and read by the manager but not sent. */
  function Coming<V>(s: Sys<V>, t: Thread): seq<int> {
    Sizes(Side(s, t).inbox) + Held(Side(s, PeerManager(t)))
  }

  /** The size the manager reads in a step. */
  function ReadNow<V>(s: Sys<V>, m: Thread, u: Thread): seq<int> {
    if u == m && Side(s, m).manager.None? then [|Side(s, m).todo|] else []
  }

  lemma PeerSizes<V>(p: Params<V>, s: Sys<V>, t: Thread, u: Thread, s': Sys<V>)
    requires IsReader(t) && Step(p, s, u) == Some(s') && OnClient(t) != OnClient(u)
    ensures Coming(s, t) + ReadNow(s, PeerManager(t), u) == Coming(s', t)
  {
    hide Step, SentIn, Side, Sizes, Held;
    PeerStep(p, s, t, u, s');
    SizesSent(p, s, u, s');
    SizesConcat(Side(s, t).inbox, SentIn(p, s, u));
    OneSide(s, PeerManager(t), u);
    OneSide(s', PeerManager(t), u);
    var sizes, now := Sizes(Side(s, t).inbox), ReadNow(s, PeerManager(t), u);
    assert Coming(s, t) + now == sizes + (Held(Side(s, u)) + now);
  }

  lemma OwnSizes<V>(p: Params<V>, s: Sys<V>, t: Thread, u: Thread, s': Sys<V>)
    requires IsReader(t) && Step(p, s, u) == Some(s') && OnClient(t) == OnClient(u)
    ensures var nd := Side(s, t);
      Coming(s, t) ==
        (if u == t && nd.reader.RWait? && nd.inbox != [] then SizeIn(nd.inbox[0]) else []) + Coming(s', t)
  {
    hide Step, Side, ClientReceive, ServerReceive;
    StepManager(p, s, PeerManager(t), u, s');
    if u != t { OwnStep(p, s, t, u, s'); } else { ReaderStep(p, s, t, s'); }
  }

  lemma Moved(read: seq<int>, now: seq<int>, taken: seq<int>, x: seq<int>, coming: seq<int>, coming': seq<int>)
    requires read == taken + coming && coming + now == x + coming'
    ensures read + now == taken + x + coming'
  {
    assert read + now == taken + (coming + now);
  }

  /** The sizes a manager read are, in order, those the other node's reader has taken, those in its channel, and the
      one the manager is about to send. */
  lemma {:induction false} SizesArrive<V>(
      p: Params<V>, schedule: seq<Thread>, states: seq<Sys<V>>, t: Thread, k: nat)
    requires IsReader(t) && Execution(p, schedule, states) && k <= |schedule|
    ensures SizesRead(schedule, states, PeerManager(t), k) ==
      SizesTaken(schedule, states, t, k) + Coming(states[k], t)
  {
    hide Step, TakenIn, Coming, SizeIn;
    if k == 0 {
      InitSizes(p, t);
    } else {
      var s, u, s' := states[k - 1], schedule[k - 1], states[k];
      SizesArrive(p, schedule, states, t, k - 1);
      TakesExactly(p, schedule, states, t, k - 1);
      ManagerAlternates(p, schedule, states, PeerManager(t), k - 1);
      if OnClient(t) == OnClient(u) { OwnSizes(p, s, t, u, s'); } else { PeerSizes(p, s, t, u, s'); }
      hide Side;
      var taken := TakenIn(schedule, states, t, k - 1);
      Moved(SizesRead(schedule, states, PeerManager(t), k - 1), ReadNow(s, PeerManager(t), u),
            SizesTaken(schedule, states, t, k - 1), if taken.Some? then SizeIn(taken.value) else [],
            Coming(s, t), Coming(s', t));
    }
  }

  lemma InitSizes<V>(p: Params<V>, t: Thread)
    ensures Coming(Init(p), t) == []
  {
  }

  /** So every size that was taken or is in the channel is the length of a queue. */
  lemma {:induction false} SizesNatural<V>(schedule: seq<Thread>, states: seq<Sys<V>>, m: Thread, k: nat)
    requires k <= |schedule| < |states|
    ensures forall x | x in SizesRead(schedule, states, m, k) :: x >= 0
  {
    hide Side;
    if k > 0 { SizesNatural(schedule, states, m, k - 1); }
  }

  lemma StepPeer<V>(p: Params<V>, s: Sys<V>, t: Thread, u: Thread, s': Sys<V>)
    requires IsReader(t) && Step(p, s, u) == Some(s')
    ensures var nd := Side(s, t);
      Side(s', t).peer ==
        if u == t && nd.reader.RWait? && nd.inbox != [] && nd.inbox[0].StateMsg? &&
           !(nd.peer == -1 && nd.inbox[0].num == 0)
        then nd.inbox[0].num else nd.peer
  {
    hide Step, SentIn, Side, ClientReceive, ServerReceive;
    if OnClient(t) != OnClient(u) {
      PeerStep(p, s, t, u, s');
    } else if u != t {
      OwnStep(p, s, t, u, s');
    } else {
      ReaderStep(p, s, t, s');
      if Side(s, t).reader.RWait? { ReceivePeer(p, Side(s, t), Side(s, t).inbox[0]); }
    }
  }

  lemma ReceivePeer<V>(p: Params<V>, nd: Node<V>, f: Frame<V>)
    ensures ClientReceive(p, nd, f).peer == ServerReceive(p, nd, f).peer ==
      if f.StateMsg? && !(nd.peer == -1 && f.num == 0) then f.num else nd.peer
  {
  }

  /** The size of the peer's queue that a node believes in. */
  function Believed(sizes: seq<int>): int {
    if forall x | x in sizes :: x == 0 then -1 else sizes[|sizes| - 1]
  }

  lemma BelievedSnoc(sizes: seq<int>, x: int)
    requires x >= 0 && forall y | y in sizes :: y >= 0
    ensures Believed(sizes + [x]) == if Believed(sizes) == -1 && x == 0 then -1 else x
  {
    assert x in sizes + [x] && forall y | y in sizes :: y in sizes + [x];
    if sizes != [] { assert sizes[|sizes| - 1] in sizes; }
  }

  /** What one more step adds to the sizes taken. */
  lemma OneMoreSize<V>(schedule: seq<Thread>, states: seq<Sys<V>>, t: Thread, k: nat)
    requires 0 < k <= |schedule| < |states|
    ensures var taken, sizes := TakenIn(schedule, states, t, k - 1), SizesTaken(schedule, states, t, k - 1);
      SizesTaken(schedule, states, t, k) ==
        if taken.Some? && taken.value.StateMsg? then sizes + [taken.value.num] else sizes
  {
    hide TakenIn;
  }

  lemma TakenNatural<V>(p: Params<V>, schedule: seq<Thread>, states: seq<Sys<V>>, t: Thread, k: nat)
    requires IsReader(t) && Execution(p, schedule, states) && k <= |schedule|
    ensures forall x | x in SizesTaken(schedule, states, t, k) :: x >= 0
  {
    SizesArrive(p, schedule, states, t, k);
    SizesNatural(schedule, states, PeerManager(t), k);
    hide *;
    var taken, read := SizesTaken(schedule, states, t, k), SizesRead(schedule, states, PeerManager(t), k);
    assert forall x | x in taken :: x in read;
  }

  /** A node believes in the last size its reader has taken; zeros before the first other size count for nothing. */
  lemma {:induction false} PeerExactly<V>(
      p: Params<V>, schedule: seq<Thread>, states: seq<Sys<V>>, t: Thread, k: nat)
    requires IsReader(t) && Execution(p, schedule, states) && k <= |schedule|
    ensures Side(states[k], t).peer == Believed(SizesTaken(schedule, states, t, k))
  {
    hide Step, TakenIn, Side, SizesTaken, Believed;
    if k > 0 {
      var taken, sizes := TakenIn(schedule, states, t, k - 1), SizesTaken(schedule, states, t, k - 1);
      PeerExactly(p, schedule, states, t, k - 1);
      StepPeer(p, states[k - 1], t, schedule[k - 1], states[k]);
      TakesExactly(p, schedule, states, t, k - 1);
      OneMoreSize(schedule, states, t, k);
      TakenNatural(p, schedule, states, t, k);
      if taken.Some? && taken.value.StateMsg? {
        var num := taken.value.num;
        assert num in sizes + [num] && forall x | x in sizes :: x in sizes + [num];
        BelievedSnoc(sizes, num);
      }
    } else {
      InitHearing(p, t);
      NothingBelieved(schedule, states, t);
    }
  }

  lemma NothingBelieved<V>(schedule: seq<Thread>, states: seq<Sys<V>>, t: Thread)
    requires |schedule| < |states|
    ensures Believed(SizesTaken(schedule, states, t, 0)) == -1
  {
  }

  // ---------- decisions ----------

  /** What a reader does on a size it takes, in terms of what it has taken before. */
  ghost function Decision<V>(
      policy: int, schedule: seq<Thread>, states: seq<Sys<V>>, t: Thread, i: nat, num: int): Reader<V>
    requires i < |schedule| < |states|
  {
    var home := if t == CReader then RCheck else RWait;
    var surplus := |Side(states[i], t).todo| - num;
    if num == 0 && forall x | x in SizesTaken(schedule, states, t, i) :: x == 0 then home
    else if policy >= 1 && surplus < 5 then RAsk
    else if surplus > 5 && (policy == 0 || policy == 2 || Heard(schedule, states, t, i)) then ROffer(surplus / 2)
    else home
  }

  lemma ReceiveDecides<V>(p: Params<V>, nd: Node<V>, num: int, t: Thread)
    requires IsReader(t)
    ensures var home, surplus := if t == CReader then RCheck else RWait, |nd.todo| - num;
      (if t == CReader then ClientReceive(p, nd, StateMsg(num)) else ServerReceive(p, nd, StateMsg(num))).reader ==
        if nd.peer == -1 && num == 0 then home
        else if p.policy >= 1 && surplus < 5 then RAsk
        else if surplus > 5 && num != -1 && (p.policy == 0 || p.policy == 2 || nd.asked) then ROffer(surplus / 2)
        else home
  {
  }

  /** Nothing is believed exactly while all sizes taken are 0. */
  lemma NoneBelieved(sizes: seq<int>)
    requires forall x | x in sizes :: x >= 0
    ensures Believed(sizes) == -1 <==> forall x | x in sizes :: x == 0
  {
    if sizes != [] { assert sizes[|sizes| - 1] in sizes; }
  }

  /** Under every policy, in every execution. */
  lemma DecidesExactly<V>(
      p: Params<V>, schedule: seq<Thread>, states: seq<Sys<V>>, t: Thread, i: nat, num: int)
    requires IsReader(t) && Execution(p, schedule, states) && i < |schedule|
    requires TakenIn(schedule, states, t, i) == Some(StateMsg(num))
    ensures Side(states[i + 1], t).reader == Decision(p.policy, schedule, states, t, i, num)
  {
    hide Step, Heard, TakenIn, SizesTaken, Side, Believed, ClientReceive, ServerReceive;
    TakenNatural(p, schedule, states, t, i + 1);
    OneMoreSize(schedule, states, t, i + 1);
    var sizes := SizesTaken(schedule, states, t, i);
    assert num in sizes + [num] && forall x | x in sizes :: x in sizes + [num];
    AskedExactly(p, schedule, states, t, i);
    PeerExactly(p, schedule, states, t, i);
    NoneBelieved(sizes);
    TakesExactly(p, schedule, states, t, i);
    ReaderStep(p, states[i], t, states[i + 1]);
    ReceiveDecides(p, Side(states[i], t), num, t);
  }

  /** With the default policy a reader that takes a size smaller than its own queue's by more than 5 offers half of the
      difference if and only if it has taken a request to rebalance before. */
  lemma OffersIfAsked<V>(
      p: Params<V>, schedule: seq<Thread>, states: seq<Sys<V>>, t: Thread, i: nat, num: int)
    requires IsReader(t) && Execution(p, schedule, states) && i < |schedule| && p.policy == 1
    requires TakenIn(schedule, states, t, i) == Some(StateMsg(num))
    requires |Side(states[i], t).todo| > num + 5
    requires num > 0 || exists x | x in SizesTaken(schedule, states, t, i) :: x != 0
    ensures Side(states[i + 1], t).reader == ROffer((|Side(states[i], t).todo| - num) / 2) <==>
      exists j | 0 <= j < i :: TakenIn(schedule, states, t, j) == Some(Rebalance)
  {
    DecidesExactly(p, schedule, states, t, i, num);
    hide Execution, TakenIn, SizesTaken, Side;
  }
}
