/** One offload, from the decision to the arrival of the jobs, whatever the other threads do meanwhile. */
module OffloadLoop {
  import opened Wrappers
  import opened Protocol
  import opened Ownership
  import opened Invariant
  import ClientSteps
  import ServerSteps
  import Progress

  /** The frames that offer these jobs, in this order. */
  function Offers<V>(n: nat, arr: seq<V>, ids: seq<int>): (frames: seq<Frame<V>>)
    requires forall i | 0 <= i < |ids| :: 0 < ids[i] < |arr|
    ensures |frames| == |ids|
  {
    seq(|ids|, i requires 0 <= i < |ids| => Data(n + ids[i], arr[ids[i]]))
  }

  lemma OffersSnoc<V>(n: nat, arr: seq<V>, ids: seq<int>, k: nat)
    requires k < |ids| && forall i | 0 <= i <= k :: 0 < ids[i] < |arr|
    ensures Offers(n, arr, ids[..k + 1]) == Offers(n, arr, ids[..k]) + [Data(n + ids[k], arr[ids[k]])]
  {
  }

  lemma NoOffers<V>(n: nat, arr: seq<V>)
    ensures Offers(n, arr, []) == []
  {
  }

  /** How many steps a thread makes from position i to position m. */
  function Count(schedule: seq<Thread>, t: Thread, i: nat, m: nat): nat
    requires i <= m <= |schedule|
  {
    if m == i then 0 else Count(schedule, t, i, m - 1) + Bit(schedule[m - 1] == t)
  }

  /** The frames a thread sends in a step. */
  function SentIn<V>(p: Params<V>, s: Sys<V>, t: Thread): seq<Frame<V>> {
    match if OnClient(t) then ClientStep(p, s.client, s.finished, t) else ServerStep(p, s.server, t)
    case Went(_, sent, _) => sent
    case _ => []
  }

  /** The frames a thread sends from position i to position m. */
  function Sent<V>(p: Params<V>, schedule: seq<Thread>, states: seq<Sys<V>>, t: Thread, i: nat, m: nat): seq<Frame<V>>
    requires i <= m <= |schedule| < |states|
  {
    if m == i then []
    else Sent(p, schedule, states, t, i, m - 1) + if schedule[m - 1] == t then SentIn(p, states[m - 1], t) else []
  }

  // ---------- one step of the loop ----------

  predicate IsReader(t: Thread) {
    t == CReader || t == SReader
  }

  /** The node of a thread. */
  function Side<V>(s: Sys<V>, t: Thread): Node<V> {
    if OnClient(t) then s.client else s.server
  }

  /** The computing thread of a reader's node pulls a job. */
  ghost predicate ComputerPulls<V>(s: Sys<V>, t: Thread, u: Thread) {
    u == (if OnClient(t) then CMain else SWorker) && Side(s, t).worker.MPull?
  }

  /** It pulls nothing from position i to position m. */
  ghost predicate ComputerRests<V>(schedule: seq<Thread>, states: seq<Sys<V>>, t: Thread, i: nat, m: nat)
    requires i <= m <= |schedule| < |states|
  {
    forall l {:trigger schedule[l]} | i <= l < m :: !ComputerPulls(states[l], t, schedule[l])
  }

  lemma OthersLeave<V>(p: Params<V>, s: Sys<V>, t: Thread, u: Thread, s': Sys<V>)
    requires IsReader(t) && Step(p, s, u) == Some(s') && u != t && !ComputerPulls(s, t, u)
    ensures Side(s', t).todo == Side(s, t).todo && Side(s', t).reader == Side(s, t).reader
  {
    if t == CReader { hide ClientReader, ServerStep; } else { hide ServerReader, ClientStep; }
  }

  lemma LoopPull<V>(p: Params<V>, s: Sys<V>, t: Thread, s': Sys<V>)
    requires IsReader(t) && Step(p, s, t) == Some(s') && Side(s, t).reader.ROffer? && Side(s, t).reader.left > 0
    requires Side(s, t).todo != [] && Side(s, t).todo[0] > STOP
    ensures Side(s', t).todo == Side(s, t).todo[1..]
    ensures Side(s', t).reader == ROfferHand(Side(s, t).todo[0], Side(s, t).reader.left - 1)
    ensures SentIn(p, s, t) == []
  {
  }

  lemma ClientFrame<V>(p: Params<V>, s: Sys<V>)
    requires Inv(p, s) && s.client.reader.ROfferHand?
    ensures var j := s.client.reader.job;
      0 < j < p.n == |p.c0| && !s.fault && FrameFor(p.n, s.client.arr, p.n + j) == Some(Data(p.n + j, p.c0[j]))
  {
    hide Tokens, OwnedOnce, ServerOk, JobZero, ClientPlaces, AllToClientOk, Distinct, FrameFor;
    NodesDistinct(p, s);
    ClientSteps.OffloadFrame(p, s.client, s.done, s.started);
  }

  lemma ServerFrame<V>(p: Params<V>, s: Sys<V>)
    requires Inv(p, s) && s.server.reader.ROfferHand?
    ensures var j := s.server.reader.job;
      0 < j < p.n == |p.c0| && !s.fault && FrameFor(p.n, s.server.arr, p.n + j) == Some(Data(p.n + j, p.c0[j]))
  {
    hide Tokens, OwnedOnce, ClientOk, ServerPlaces, AllToServerOk, Distinct, FrameFor;
    NodesDistinct(p, s);
    NotZero(p.n, s.server);
    ServerSteps.OffloadFrame(p, s.server, s.done);
  }

  lemma SendFrame<V>(p: Params<V>, s: Sys<V>, t: Thread)
    requires IsReader(t) && Inv(p, s) && Side(s, t).reader.ROfferHand?
    ensures var j := Side(s, t).reader.job;
      0 < j < p.n == |p.c0| && !s.fault && FrameFor(p.n, Side(s, t).arr, p.n + j) == Some(Data(p.n + j, p.c0[j]))
  {
    hide Inv, FrameFor;
    if t == CReader { ClientFrame(p, s); } else { ServerFrame(p, s); }
  }

  lemma SendStep<V>(p: Params<V>, s: Sys<V>, t: Thread, s': Sys<V>, f: Frame<V>)
    requires IsReader(t) && Side(s, t).reader.ROfferHand?
    requires FrameFor(p.n, Side(s, t).arr, p.n + Side(s, t).reader.job) == Some(f)
    requires Step(p, s, t) == Some(s')
    ensures SentIn(p, s, t) == [f]
    ensures Side(s', t).todo == Side(s, t).todo && Side(s', t).reader == ROffer(Side(s, t).reader.rest)
  {
    hide FrameFor;
  }

  lemma LoopSend<V>(p: Params<V>, s: Sys<V>, t: Thread, s': Sys<V>)
    requires IsReader(t) && Inv(p, s) && Step(p, s, t) == Some(s') && Side(s, t).reader.ROfferHand?
    ensures var j := Side(s, t).reader.job;
      && 0 < j < p.n == |p.c0| && SentIn(p, s, t) == [Data(p.n + j, p.c0[j])]
      && Side(s', t).todo == Side(s, t).todo && Side(s', t).reader == ROffer(Side(s, t).reader.rest)
  {
    hide Inv, Step, SentIn, FrameFor, Side;
    SendFrame(p, s, t);
    SendStep(p, s, t, s', Data(p.n + Side(s, t).reader.job, p.c0[Side(s, t).reader.job]));
  }

  /** The loop holds a job, or there is one to pull. */
  ghost predicate CanOffer<V>(nd: Node<V>) {
    nd.reader.ROfferHand? || (nd.reader.ROffer? && nd.todo != [])
  }

  lemma ReaderNeverBlocks<V>(p: Params<V>, s: Sys<V>, t: Thread)
    requires Inv(p, s) && IsReader(t)
    ensures CanOffer(Side(s, t)) ==> Step(p, s, t).Some?
  {
    hide Tokens, OwnedOnce, ServerOk, ClientOk;
  }

  // ---------- the whole loop ----------

  /** The state of the loop after c of its steps: the first c / 2 jobs of the queue q have gone, in order. */
  ghost predicate LoopAt<V>(p: Params<V>, q: seq<int>, k: nat, c: nat, nd: Node<V>, sent: seq<Frame<V>>)
    requires k <= |q| && c <= 2 * k
  {
    && nd.todo == q[(c + 1) / 2..]
    && nd.reader == (if c % 2 == 0 then ROffer(k - c / 2) else ROfferHand(q[c / 2], k - c / 2 - 1))
    && (forall i | 0 <= i < c / 2 :: 0 < q[i] < |p.c0|)
    && sent == Offers(p.n, p.c0, q[..c / 2])
  }

  lemma LoopAtStep<V>(
      p: Params<V>, q: seq<int>, k: nat, c: nat, s: Sys<V>, t: Thread, s': Sys<V>, sent: seq<Frame<V>>)
    requires IsReader(t) && k <= |q| && c < 2 * k && LoopAt(p, q, k, c, Side(s, t), sent)
    requires Inv(p, s) && Step(p, s, t) == Some(s')
    ensures LoopAt(p, q, k, c + 1, Side(s', t), sent + SentIn(p, s, t))
  {
    hide Inv, Step, SentIn;
    if c % 2 == 0 {
      Progress.ClientFacts(p, s);
      Progress.ServerFacts(p, s);
      LoopPull(p, s, t, s');
      assert sent + [] == sent;
    } else {
      LoopSend(p, s, t, s');
      OffersSnoc(p.n, p.c0, q, c / 2);
    }
  }

  /** The offload loop of either node under any interleaving in which the node's computing thread pulls nothing
      meanwhile: it never blocks, and it offers the jobs of its queue in order, with their initial values. */
  lemma {:induction false} LoopOffloads<V>(
      p: Params<V>, schedule: seq<Thread>, states: seq<Sys<V>>, t: Thread, i: nat, m: nat, k: nat)
    requires WellFormed(p) && Execution(p, schedule, states) && MainPullsFirst(schedule, states) && i <= m <= |schedule|
    requires IsReader(t) && Side(states[i], t).reader == ROffer(k) && k <= |Side(states[i], t).todo|
    requires ComputerRests(schedule, states, t, i, m) && Count(schedule, t, i, m) <= 2 * k
    ensures var c := Count(schedule, t, i, m);
      && LoopAt(p, Side(states[i], t).todo, k, c, Side(states[m], t), Sent(p, schedule, states, t, i, m))
      && (c < 2 * k ==> Step(p, states[m], t).Some?)
  {
    hide Inv, Step, Init, EarlyOffload, SentIn, LoopAt, Side;
    var q, c := Side(states[i], t).todo, Count(schedule, t, i, m);
    if m == i {
      LoopStarts(p, k, Side(states[i], t));
    } else {
      LoopOffloads(p, schedule, states, t, i, m - 1, k);
      ExecutionInv(p, schedule, states, m - 1);
      var before := Sent(p, schedule, states, t, i, m - 1);
      if schedule[m - 1] == t {
        LoopAtStep(p, q, k, c - 1, states[m - 1], t, states[m], before);
      } else {
        OthersLeave(p, states[m - 1], t, schedule[m - 1], states[m]);
        assert before + [] == before;
        LoopAtSame(p, q, k, c, Side(states[m - 1], t), Side(states[m], t), before);
      }
    }
    if c < 2 * k {
      ExecutionInv(p, schedule, states, m);
      ReaderNeverBlocks(p, states[m], t);
      LoopCanOffer(p, q, k, c, Side(states[m], t), Sent(p, schedule, states, t, i, m));
    }
  }

  lemma LoopBegins<V>(p: Params<V>, q: seq<int>, k: nat, nd: Node<V>)
    requires k <= |q| && nd.todo == q == q[0..] && nd.reader == ROffer(k) && Offers(p.n, p.c0, q[..0]) == []
    ensures LoopAt(p, q, k, 0, nd, [])
  {
    assert (0 + 1) / 2 == 0 && 0 / 2 == 0;
  }

  lemma LoopStarts<V>(p: Params<V>, k: nat, nd: Node<V>)
    requires nd.reader == ROffer(k) && k <= |nd.todo|
    ensures LoopAt(p, nd.todo, k, 0, nd, [])
  {
    hide Offers, LoopAt;
    NoOffers(p.n, p.c0);
    assert nd.todo[0..] == nd.todo && nd.todo[..0] == [];
    LoopBegins(p, nd.todo, k, nd);
  }

  lemma LoopAtSame<V>(p: Params<V>, q: seq<int>, k: nat, c: nat, nd: Node<V>, nd': Node<V>, sent: seq<Frame<V>>)
    requires k <= |q| && c <= 2 * k && LoopAt(p, q, k, c, nd, sent)
    requires nd'.todo == nd.todo && nd'.reader == nd.reader
    ensures LoopAt(p, q, k, c, nd', sent)
  {
  }

  lemma LoopCanOffer<V>(p: Params<V>, q: seq<int>, k: nat, c: nat, nd: Node<V>, sent: seq<Frame<V>>)
    requires k <= |q| && c < 2 * k && LoopAt(p, q, k, c, nd, sent)
    ensures CanOffer(nd)
  {
  }
}
