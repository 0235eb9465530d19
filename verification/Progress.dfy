/** How far a run can go: every step that moves a job, except the pull of an offload loop, lowers a rank. */
module Progress {
  import opened Wrappers
  import opened Protocol
  import opened Ownership
  import opened Invariant
  import TokenMoves
  import ClientSteps

  // ---------- the rank of a state ----------

  /** A rank for every place an id can be in; an uncomputed job has the same rank in both `job_todo`s. */
  function WorkerRank(w: Worker): nat {
    if w.MHold? then 9 else if w.MHalf? then 8 else if w.MDone? then 7 else 0
  }

  function ReaderRank<V>(r: Reader<V>, stored: nat): nat {
    if r.ROfferHand? then 15
    else if r.RGotStop? then 13
    else if r.RGot? then stored + 2
    else if r.RCopy? then stored + 1
    else if r.RStored? then stored
    else if r.RBack? then 11
    else 0
  }

  function ToClientFrameRank<V>(n: nat, f: Frame<V>): nat {
    match f
    case Data(id, _) => if id < n then 4 else 12
    case StopMsg => 4
    case _ => 0
  }

  /** Frames to the client are results, sentinels, or jobs sent back. */
  function ToClientRank<V>(n: nat, inbox: seq<Frame<V>>): nat {
    if inbox == [] then 0 else ToClientRank(n, inbox[1..]) + ToClientFrameRank(n, inbox[0])
  }

  function ToServerRank<V>(inbox: seq<Frame<V>>): nat {
    if inbox == [] then 0
    else ToServerRank(inbox[1..]) + (if inbox[0].Data? || inbox[0].StopMsg? then 14 else 0)
  }

  /** The sentinels still to be made count with the threads that will make them. */
  function ClientRank<V>(n: nat, c: Node<V>): nat {
    10 * |c.todo| + 16 * |c.tosend| + ToClientRank(n, c.inbox) +
    WorkerRank(c.worker) + (if c.writer.WSend? then 15 else 0) + ReaderRank(c.reader, 1) +
    (if c.worker.MStop? then 0 else if c.worker.MLeave? then 17 else 18) +
    (if c.reader.RStop? || c.reader.RStuck? then 0 else 11)
  }

  function ServerRank<V>(v: Node<V>): nat {
    10 * |v.todo| + 6 * |v.tosend| + ToServerRank(v.inbox) +
    WorkerRank(v.worker) + (if v.writer.WSend? then 5 else 0) + ReaderRank(v.reader, 11)
  }

  function Rank<V>(p: Params<V>, s: Sys<V>): nat {
    ClientRank(p.n, s.client) + ServerRank(s.server)
  }

  // ---------- which steps move a job ----------

  ghost predicate OffloadPull<V>(r: Reader<V>) {
    r.ROffer? && r.left > 0
  }

  /** The reader only looks at the counter, reads or sends a frame without a job, or ends an offload. */
  ghost predicate ReaderIdles<V>(nd: Node<V>, finished: nat, n: nat) {
    || (nd.reader.RCheck? && finished != n)
    || (nd.reader.RWait? && nd.inbox != [] && (nd.inbox[0].StateMsg? || nd.inbox[0].Rebalance?))
    || nd.reader.RAsk?
    || (nd.reader.ROffer? && nd.reader.left == 0)
  }

  /** The step moves no job and no sentinel. */
  ghost predicate Idles<V>(p: Params<V>, s: Sys<V>, t: Thread) {
    match t
    case CMain => s.client.worker.MCheck? && s.finished < p.n
    case CWriter => s.client.writer.WCheck?
    case CReader => ReaderIdles(s.client, s.finished, p.n)
    case CManager => true
    case SWorker => false
    case SWriter => false
    case SReader => ReaderIdles(s.server, s.finished, p.n)
    case SManager => true
  }

  ghost predicate Pulls<V>(s: Sys<V>, t: Thread) {
    (t == CReader && OffloadPull(s.client.reader)) || (t == SReader && OffloadPull(s.server.reader))
  }

  // ---------- one step ----------

  lemma {:induction false} ToServerConcat<V>(a: seq<Frame<V>>, b: seq<Frame<V>>)
    ensures ToServerRank(a + b) == ToServerRank(a) + ToServerRank(b)
  {
    if a == [] { assert a + b == b; }
    else {
      assert (a + b)[1..] == a[1..] + b;
      ToServerConcat(a[1..], b);
    }
  }

  lemma {:induction false} ToClientConcat<V>(n: nat, a: seq<Frame<V>>, b: seq<Frame<V>>)
    ensures ToClientRank(n, a + b) == ToClientRank(n, a) + ToClientRank(n, b)
  {
    if a == [] { assert a + b == b; }
    else {
      assert (a + b)[1..] == a[1..] + b;
      ToClientConcat(n, a[1..], b);
    }
  }

  /** The change of rank a step may make. */
  ghost predicate Falls(before: nat, after: nat, idles: bool, pulls: bool) {
    if idles then after == before else if pulls then after == before + 5 else after < before
  }

  lemma MainRank<V>(p: Params<V>, c: Node<V>, finished: nat)
    requires ClientMain(p, c, finished).Went?
    ensures var o := ClientMain(p, c, finished);
      o.sent == [] && Falls(ClientRank(p.n, c), ClientRank(p.n, o.me), c.worker.MCheck? && finished < p.n, false)
  {
    hide ToClientRank, ReaderRank;
  }

  lemma ClientWriterRank<V>(p: Params<V>, c: Node<V>, finished: nat)
    requires ClientWriter(p, c, finished).Went?
    ensures var o := ClientWriter(p, c, finished);
      Falls(ClientRank(p.n, c), ClientRank(p.n, o.me) + ToServerRank(o.sent), c.writer.WCheck?, false)
  {
    hide ToClientRank, ReaderRank, WorkerRank;
  }

  lemma ServerWorkerRank<V>(p: Params<V>, v: Node<V>)
    requires ServerWorker(p, v).Went? && (v.todo != [] ==> v.todo[0] > STOP)
    ensures var o := ServerWorker(p, v); o.sent == [] && Falls(ServerRank(v), ServerRank(o.me), false, false)
  {
    hide ToServerRank, ReaderRank;
  }

  lemma ServerWriterRank<V>(p: Params<V>, v: Node<V>)
    requires ServerWriter(p, v).Went? && (v.writer.WSend? ==> v.writer.job < p.n)
    ensures var o := ServerWriter(p, v);
      Falls(ServerRank(v), ServerRank(o.me) + ToClientRank(p.n, o.sent), false, false)
  {
    hide ToServerRank, ReaderRank, WorkerRank;
  }

  lemma OffloadRankClient<V>(p: Params<V>, c: Node<V>)
    requires Offload(p, c, RCheck).Went?
    requires c.reader.ROfferHand? ==> c.reader.job >= 0
    requires c.reader.ROffer? && c.todo != [] ==> c.todo[0] > STOP
    ensures var o := Offload(p, c, RCheck);
      Falls(ClientRank(p.n, c), ClientRank(p.n, o.me) + ToServerRank(o.sent),
            c.reader.RAsk? || (c.reader.ROffer? && c.reader.left == 0), OffloadPull(c.reader))
  {
    hide ToClientRank, WorkerRank;
  }

  lemma OffloadRankServer<V>(p: Params<V>, v: Node<V>)
    requires Offload(p, v, RWait).Went?
    requires v.reader.ROfferHand? ==> v.reader.job >= 0
    requires v.todo != [] ==> v.todo[0] > STOP
    ensures var o := Offload(p, v, RWait);
      Falls(ServerRank(v), ServerRank(o.me) + ToClientRank(p.n, o.sent),
            v.reader.RAsk? || (v.reader.ROffer? && v.reader.left == 0), OffloadPull(v.reader))
  {
    hide ToServerRank, WorkerRank;
  }

  lemma ClientReaderRank<V>(p: Params<V>, c: Node<V>, finished: nat)
    requires ClientReader(p, c, finished).Went? && !Offloading(c.reader)
    requires c.reader.RWait? ==> ToClientOk(p, c.inbox[0])
    ensures var o := ClientReader(p, c, finished);
      o.sent == [] && Falls(ClientRank(p.n, c), ClientRank(p.n, o.me), ReaderIdles(c, finished, p.n), false)
  {
    hide WorkerRank, OnState;
    if c.reader.RWait? && c.inbox[0].StateMsg? {
      TokenMoves.StateKeepsTokens(p.policy, c, c.inbox[0].num, RCheck);
    }
  }

  lemma ServerReaderRank<V>(p: Params<V>, v: Node<V>)
    requires ServerReader(p, v).Went? && !Offloading(v.reader) && !v.reader.RCheck?
    requires v.reader.RWait? ==> ToServerOk(p, v.inbox[0])
    ensures var o := ServerReader(p, v);
      o.sent == [] && Falls(ServerRank(v), ServerRank(o.me), ReaderIdles(v, 0, p.n), false)
  {
    hide WorkerRank, OnState;
    if v.reader.RWait? && v.inbox[0].StateMsg? {
      TokenMoves.StateKeepsTokens(p.policy, v, v.inbox[0].num, RWait);
    }
  }

  /** What the invariant gives the lemmas above. */
  lemma ClientFacts<V>(p: Params<V>, s: Sys<V>)
    requires Inv(p, s)
    ensures s.client.reader.RWait? && s.client.inbox != [] ==> ToClientOk(p, s.client.inbox[0])
    ensures s.client.reader.ROfferHand? ==> s.client.reader.job >= 0
    ensures s.client.reader.ROffer? && s.client.todo != [] ==> s.client.todo[0] > STOP
  {
    NodesDistinct(p, s);
    ClientSteps.ReaderHand(p.n, s.client, s.done);
    if s.client.reader.ROffer? && s.client.todo != [] {
      ClientSteps.Queued(p.n, s.client, s.done, s.client.todo[0]);
    }
    hide Distinct, Tokens, OwnedOnce, ServerOk, JobZero, ClientSlots;
  }

  lemma ServerFacts<V>(p: Params<V>, s: Sys<V>)
    requires Inv(p, s)
    ensures s.server.reader.RWait? && s.server.inbox != [] ==> ToServerOk(p, s.server.inbox[0])
    ensures s.server.reader.ROfferHand? ==> s.server.reader.job >= 0
    ensures s.server.todo != [] ==> s.server.todo[0] > STOP
    ensures s.server.writer.WSend? ==> s.server.writer.job < p.n
    ensures !s.server.reader.RCheck?
  {
    NodesDistinct(p, s);
    ClientSteps.ReaderHand(p.n, s.server, s.done);
    ClientSteps.WriterHand(p.n, s.server, s.done);
    if s.server.todo != [] && s.server.todo[0] != STOP {
      ClientSteps.Queued(p.n, s.server, s.done, s.server.todo[0]);
    }
    hide Distinct, Tokens, OwnedOnce, ClientOk, ServerSlots;
  }

  lemma NoFramesRank<V>(n: nat)
    ensures ToServerRank<V>([]) == 0 && ToClientRank<V>(n, []) == 0
  {
  }

  lemma ClientReadRank<V>(p: Params<V>, c: Node<V>, finished: nat)
    requires ClientReader(p, c, finished).Went?
    requires c.reader.RWait? && c.inbox != [] ==> ToClientOk(p, c.inbox[0])
    requires c.reader.ROfferHand? ==> c.reader.job >= 0
    requires c.reader.ROffer? && c.todo != [] ==> c.todo[0] > STOP
    ensures var o := ClientReader(p, c, finished);
      Falls(ClientRank(p.n, c), ClientRank(p.n, o.me) + ToServerRank(o.sent),
            ReaderIdles(c, finished, p.n), OffloadPull(c.reader))
  {
    hide ClientRank, Falls, Offload, ClientCheck, ClientReceive, ClientDeliver, ToClientOk;
    assert ToServerRank<V>([]) == 0;
    if Offloading(c.reader) { OffloadRankClient(p, c); } else { ClientReaderRank(p, c, finished); }
  }

  lemma ClientStepRank<V>(p: Params<V>, s: Sys<V>, t: Thread)
    requires Inv(p, s) && OnClient(t) && ClientStep(p, s.client, s.finished, t).Went?
    ensures var o := ClientStep(p, s.client, s.finished, t);
      Falls(ClientRank(p.n, s.client), ClientRank(p.n, o.me) + ToServerRank(o.sent), Idles(p, s, t), Pulls(s, t))
  {
    hide Inv, ClientRank, ToServerRank, ClientMain, ClientWriter, ClientReader, Manager, ToClientOk, ReaderIdles,
         OffloadPull;
    ClientFacts(p, s);
    NoFramesRank<V>(p.n);
    match t
    case CMain => MainRank(p, s.client, s.finished);
    case CWriter => ClientWriterRank(p, s.client, s.finished);
    case CReader => ClientReadRank(p, s.client, s.finished);
    case CManager => ManagerRank(p, s);
  }

  lemma ManagerRank<V>(p: Params<V>, s: Sys<V>)
    ensures var o := Manager(s.client);
      o.Went? && ClientRank(p.n, o.me) + ToServerRank(o.sent) == ClientRank(p.n, s.client)
    ensures var o := Manager(s.server);
      o.Went? && ServerRank(o.me) + ToClientRank(p.n, o.sent) == ServerRank(s.server)
  {
    hide WorkerRank, ReaderRank;
  }

  lemma ServerReadRank<V>(p: Params<V>, v: Node<V>, finished: nat)
    requires ServerReader(p, v).Went? && !v.reader.RCheck?
    requires v.reader.RWait? && v.inbox != [] ==> ToServerOk(p, v.inbox[0])
    requires v.reader.ROfferHand? ==> v.reader.job >= 0
    requires v.todo != [] ==> v.todo[0] > STOP
    ensures var o := ServerReader(p, v);
      Falls(ServerRank(v), ServerRank(o.me) + ToClientRank(p.n, o.sent),
            ReaderIdles(v, finished, p.n), OffloadPull(v.reader))
  {
    hide ServerRank, Falls, Offload, ServerReceive, ServerDeliver, ToServerOk;
    assert ToClientRank<V>(p.n, []) == 0;
    if Offloading(v.reader) { OffloadRankServer(p, v); } else { ServerReaderRank(p, v); }
  }

  lemma ServerStepRank<V>(p: Params<V>, s: Sys<V>, t: Thread)
    requires Inv(p, s) && !OnClient(t) && ServerStep(p, s.server, t).Went?
    ensures var o := ServerStep(p, s.server, t);
      Falls(ServerRank(s.server), ServerRank(o.me) + ToClientRank(p.n, o.sent), Idles(p, s, t), Pulls(s, t))
  {
    hide Inv, ServerRank, ToClientRank, ServerWorker, ServerWriter, ServerReader, Manager, ToServerOk, ReaderIdles,
         OffloadPull;
    ServerFacts(p, s);
    NoFramesRank<V>(p.n);
    match t
    case SWorker => ServerWorkerRank(p, s.server);
    case SWriter => ServerWriterRank(p, s.server);
    case SReader => ServerReadRank(p, s.server, s.finished);
    case SManager => ManagerRank(p, s);
  }

  /** The peer's rank grows by the rank of the frames it is sent. */
  lemma SentRank<V>(n: nat, c: Node<V>, v: Node<V>, sent: seq<Frame<V>>)
    ensures ServerRank(v.(inbox := v.inbox + sent)) == ServerRank(v) + ToServerRank(sent)
    ensures ClientRank(n, c.(inbox := c.inbox + sent)) == ClientRank(n, c) + ToClientRank(n, sent)
  {
    ToServerConcat(v.inbox, sent);
    ToClientConcat(n, c.inbox, sent);
    hide WorkerRank, ReaderRank;
  }

  /** Every step that moves a job lowers the rank, except an offload pull, which raises it by 5. */
  lemma StepRank<V>(p: Params<V>, s: Sys<V>, t: Thread, s': Sys<V>)
    requires Inv(p, s) && Step(p, s, t) == Some(s') && !EarlyOffload(s, t)
    ensures Falls(Rank(p, s), Rank(p, s'), Idles(p, s, t), Pulls(s, t))
  {
    hide Inv, Idles, Pulls, ClientStep, ServerStep, ClientRank, ServerRank, EarlyOffload, ToServerRank, ToClientRank;
    StepInv(p, s, t, s');
    NoFault(p, s);
    NoFault(p, s');
    if OnClient(t) {
      ClientStepRank(p, s, t);
      SentRank(p.n, s.client, s.server, ClientStep(p, s.client, s.finished, t).sent);
    } else {
      ServerStepRank(p, s, t);
      SentRank(p.n, s.client, s.server, ServerStep(p, s.server, t).sent);
    }
  }

  lemma NoFault<V>(p: Params<V>, s: Sys<V>)
    requires Inv(p, s)
    ensures !s.fault
  {
  }

  // ---------- whole runs ----------

  /** How many of the first k steps move an id without being an offload pull. */
  ghost function MovesIn<V>(p: Params<V>, schedule: seq<Thread>, states: seq<Sys<V>>, k: nat): nat
    requires k <= |schedule| < |states|
  {
    if k == 0 then 0
    else
      MovesIn(p, schedule, states, k - 1) +
      Bit(!Idles(p, states[k - 1], schedule[k - 1]) && !Pulls(states[k - 1], schedule[k - 1]))
  }

  ghost function PullsIn<V>(schedule: seq<Thread>, states: seq<Sys<V>>, k: nat): nat
    requires k <= |schedule| < |states|
  {
    if k == 0 then 0 else PullsIn(schedule, states, k - 1) + Bit(Pulls(states[k - 1], schedule[k - 1]))
  }

  /** An execution moves jobs at most 26 times per pair of jobs, plus a constant, plus 5 times per offload pull:
      only endless offloading can keep jobs moving for ever. */
  lemma {:induction false} MovesBounded<V>(p: Params<V>, schedule: seq<Thread>, states: seq<Sys<V>>, k: nat)
    requires WellFormed(p) && Execution(p, schedule, states) && MainPullsFirst(schedule, states) && k <= |schedule|
    ensures MovesIn(p, schedule, states, k) + Rank(p, states[k]) <=
      26 * (p.n / 2) + 29 + 5 * PullsIn(schedule, states, k)
  {
    hide Inv, Step, EarlyOffload, Rank, Idles, Pulls, Init;
    if k == 0 {
      StartRank(p);
    } else {
      MovesBounded(p, schedule, states, k - 1);
      ExecutionInv(p, schedule, states, k - 1);
      StepRank(p, states[k - 1], schedule[k - 1], states[k]);
      NotBoth(p, states[k - 1], schedule[k - 1]);
    }
  }

  lemma StartRank<V>(p: Params<V>)
    requires WellFormed(p)
    ensures Rank(p, Init(p)) == 26 * (p.n / 2) + 29
  {
  }

  lemma NotBoth<V>(p: Params<V>, s: Sys<V>, t: Thread)
    ensures !(Idles(p, s, t) && Pulls(s, t))
  {
  }
}
