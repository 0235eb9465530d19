/** Which states of MP4 are stuck: those in which an offload loop waits for a job that cannot come. */
module Completion {
  import opened Wrappers
  import opened Protocol
  import opened Ownership
  import opened Invariant
  import opened Progress
  import Theorems
  import ClientSteps

  // ---------- threads that have left ----------

  /** Threads that have left their loops, or wait for a body that is never sent, do so after the last job. */
  ghost predicate LateEnds<V>(p: Params<V>, s: Sys<V>) {
    s.client.writer.WStop? || s.client.reader.RStuck? || s.server.writer.WStop? ==> s.finished == p.n
  }

  lemma ClientLeaves<V>(p: Params<V>, s: Sys<V>, t: Thread, s': Sys<V>)
    requires Inv(p, s) && Inv(p, s') && !s'.fault && Step(p, s, t) == Some(s') && OnClient(t) && LateEnds(p, s)
    ensures LateEnds(p, s')
  {
    hide Inv, FrameFor;
    CountsUp(p, s, t, s');
    if s.client.reader.RWait? && s.client.inbox != [] && s.client.inbox[0].StopMsg? { EndMessage(p, s); }
  }

  lemma CountsUp<V>(p: Params<V>, s: Sys<V>, t: Thread, s': Sys<V>)
    requires Inv(p, s') && Step(p, s, t) == Some(s') && !s'.fault
    ensures s.finished <= s'.finished <= p.n
  {
    hide NodeIds, JobZero, ClientSlots, ServerSlots, OwnedOnce, ClientStep, ServerStep;
    DoneBound(p.n, Tokens(p.n, s'), s'.done);
  }

  lemma EndMessage<V>(p: Params<V>, s: Sys<V>)
    requires Inv(p, s) && s.client.inbox != [] && s.client.inbox[0].StopMsg?
    ensures s.finished == p.n
  {
    hide NodeIds, ClientSlots, ServerSlots, OwnedOnce, WriterIds, WorkerIds, ReaderIds, JobZero;
    ClientSteps.Parts(p.n, s.client, STOP);
    Theorems.SentinelMeansFinished(p, s);
  }

  lemma ServerLeaves<V>(p: Params<V>, s: Sys<V>, t: Thread, s': Sys<V>)
    requires Inv(p, s) && !s'.fault && Step(p, s, t) == Some(s') && !OnClient(t) && LateEnds(p, s)
    ensures LateEnds(p, s')
  {
    hide Inv, ServerStep;
    if s.server.writer == WSend(STOP) { StopInHand(p, s); }
    if s'.server.writer.WStop? { ServerWriterLeaves(p, s.server, t); }
  }

  lemma StopInHand<V>(p: Params<V>, s: Sys<V>)
    requires Inv(p, s) && s.server.writer == WSend(STOP)
    ensures s.finished == p.n
  {
    hide NodeIds, JobZero, ClientSlots, ServerSlots, OwnedOnce, InboxIds, ReaderIds, WorkerIds;
    ClientSteps.Parts(p.n, s.server, STOP);
    Theorems.SentinelMeansFinished(p, s);
  }

  lemma ServerWriterLeaves<V>(p: Params<V>, v: Node<V>, t: Thread)
    requires !OnClient(t) && ServerStep(p, v, t).Went? && ServerStep(p, v, t).me.writer.WStop?
    ensures v.writer.WStop? || v.writer == WSend(STOP)
  {
    hide FrameFor;
  }

  lemma StepLateEnds<V>(p: Params<V>, s: Sys<V>, t: Thread, s': Sys<V>)
    requires Inv(p, s) && Step(p, s, t) == Some(s') && !EarlyOffload(s, t) && LateEnds(p, s)
    ensures LateEnds(p, s')
  {
    hide Inv, Step, EarlyOffload, LateEnds;
    StepInv(p, s, t, s');
    NoFault(p, s');
    if OnClient(t) { ClientLeaves(p, s, t, s'); } else { ServerLeaves(p, s, t, s'); }
  }

  lemma {:induction false} EndsAreLate<V>(p: Params<V>, schedule: seq<Thread>, states: seq<Sys<V>>, k: nat)
    requires WellFormed(p) && Execution(p, schedule, states) && MainPullsFirst(schedule, states) && k < |states|
    ensures LateEnds(p, states[k])
  {
    hide Inv, Step, EarlyOffload;
    if k > 0 {
      hide LateEnds;
      EndsAreLate(p, schedule, states, k - 1);
      ExecutionInv(p, schedule, states, k - 1);
      StepLateEnds(p, states[k - 1], schedule[k - 1], states[k]);
    }
  }

  // ---------- jams ----------

  /** The offload loop has a job left to send and waits on an empty queue. */
  ghost predicate Jammed<V>(nd: Node<V>) {
    nd.reader.ROffer? && nd.reader.left > 0 && nd.todo == []
  }

  /** Only that thread fills the queue: a jam is for ever. */
  lemma JamStays<V>(p: Params<V>, s: Sys<V>, t: Thread, s': Sys<V>)
    requires Step(p, s, t) == Some(s')
    ensures Jammed(s.client) ==> Jammed(s'.client)
    ensures Jammed(s.server) ==> Jammed(s'.server)
  {
    hide FrameFor;
  }

  predicate Manages(t: Thread) {
    t == CManager || t == SManager
  }

  /** No thread but the state managers can take a step. */
  ghost predicate Stuck<V>(p: Params<V>, s: Sys<V>) {
    forall t: Thread | !Manages(t) :: Step(p, s, t).None?
  }

  /** Nobody of the node holds a job, and both queues are empty. */
  ghost predicate Idle<V>(nd: Node<V>) {
    nd.todo == [] && nd.tosend == [] && nd.worker.MPull? && nd.writer.WPull?
  }

  ghost predicate Waits<V>(nd: Node<V>) {
    nd.reader.RWait? && nd.inbox == []
  }

  lemma IdleWaits<V>(n: nat, nd: Node<V>)
    requires Idle(nd) && Waits(nd)
    ensures NodeIds(n, nd) == multiset{}
  {
  }

  lemma NothingLeft<V>(p: Params<V>, s: Sys<V>)
    requires Inv(p, s) && NodeIds(p.n, s.client) == multiset{} && NodeIds(p.n, s.server) == multiset{}
    ensures s.finished == p.n
  {
    hide NodeIds, ClientSlots, JobZero, ServerOk, AllToClientOk;
    OwnedSize(p.n, Tokens(p.n, s));
    assert Tokens(p.n, s) == multiset(s.done);
  }

  /** Before the last job is counted no thread has left, and a push finds room. */
  ghost predicate ClientAtWork<V>(p: Params<V>, c: Node<V>) {
    && !c.worker.MLeave? && !c.worker.MStop? && !c.writer.WStop?
    && !c.reader.RStop? && !c.reader.RGotStop? && !c.reader.RStuck?
    && (c.reader.RBack? ==> |c.todo| < p.n)
  }

  ghost predicate ServerAtWork<V>(p: Params<V>, v: Node<V>) {
    && (v.worker.MPull? || v.worker.MHold? || v.worker.MHalf? || v.worker.MDone?)
    && !v.writer.WCheck? && !v.writer.WStop?
    && !v.reader.RCheck? && !v.reader.RBack? && !v.reader.RStuck? && !v.reader.RStop?
    && (v.reader.RStored? ==> |v.todo| < p.n)
    && (v.worker.MDone? ==> |v.tosend| < p.n)
    && (v.reader.RGotStop? ==> |v.tosend| < p.n)
  }

  lemma AtWork<V>(p: Params<V>, s: Sys<V>)
    requires Inv(p, s) && LateEnds(p, s) && s.finished < p.n
    ensures !s.fault && ClientAtWork(p, s.client) && ServerAtWork(p, s.server)
  {
    hide Tokens, OwnedOnce, ClientSlots, ServerSlots, JobZero, AllToClientOk, AllToServerOk;
    Theorems.JobPushesFit(p, s);
    Theorems.StopPushesFit(p, s);
  }

  lemma ClientBlocked<V>(p: Params<V>, c: Node<V>, finished: nat)
    requires ClientAtWork(p, c) && finished < p.n
    requires ClientMain(p, c, finished).Blocked? && ClientWriter(p, c, finished).Blocked?
    requires ClientReader(p, c, finished).Blocked?
    ensures Idle(c) && (Waits(c) || Jammed(c))
  {
    hide FrameFor, ClientReceive;
  }

  lemma ServerBlocked<V>(p: Params<V>, v: Node<V>)
    requires ServerAtWork(p, v)
    requires ServerWorker(p, v).Blocked? && ServerWriter(p, v).Blocked? && ServerReader(p, v).Blocked?
    ensures Idle(v) && (Waits(v) || Jammed(v))
  {
    hide FrameFor, ServerReceive;
  }

  lemma IdleBlocks<V>(p: Params<V>, c: Node<V>, v: Node<V>, finished: nat)
    ensures Idle(c) ==> ClientMain(p, c, finished).Blocked? && ClientWriter(p, c, finished).Blocked?
    ensures Idle(v) ==> ServerWorker(p, v).Blocked? && ServerWriter(p, v).Blocked?
    ensures Waits(c) || Jammed(c) ==> ClientReader(p, c, finished).Blocked?
    ensures Waits(v) || Jammed(v) ==> ServerReader(p, v).Blocked?
  {
  }

  lemma StuckMeans<V>(p: Params<V>, s: Sys<V>)
    requires !s.fault
    ensures Stuck(p, s) <==>
      && ClientMain(p, s.client, s.finished).Blocked? && ClientWriter(p, s.client, s.finished).Blocked?
      && ClientReader(p, s.client, s.finished).Blocked?
      && ServerWorker(p, s.server).Blocked? && ServerWriter(p, s.server).Blocked? && ServerReader(p, s.server).Blocked?
  {
    hide ClientMain, ClientWriter, ClientReader, ServerWorker, ServerWriter, ServerReader;
    assert Step(p, s, CMain).None? <==> ClientMain(p, s.client, s.finished).Blocked?;
    assert Step(p, s, CWriter).None? <==> ClientWriter(p, s.client, s.finished).Blocked?;
    assert Step(p, s, CReader).None? <==> ClientReader(p, s.client, s.finished).Blocked?;
    assert Step(p, s, SWorker).None? <==> ServerWorker(p, s.server).Blocked?;
    assert Step(p, s, SWriter).None? <==> ServerWriter(p, s.server).Blocked?;
    assert Step(p, s, SReader).None? <==> ServerReader(p, s.server).Blocked?;
  }

  lemma StuckShape<V>(p: Params<V>, s: Sys<V>)
    requires Inv(p, s) && LateEnds(p, s) && s.finished < p.n
    ensures Stuck(p, s) <==>
      && Idle(s.client) && Idle(s.server)
      && (Waits(s.client) || Jammed(s.client)) && (Waits(s.server) || Jammed(s.server))
      && (Jammed(s.client) || Jammed(s.server))
  {
    hide Inv, LateEnds, Stuck, Idle, Waits, Jammed, ClientAtWork, ServerAtWork, NodeIds;
    hide ClientMain, ClientWriter, ClientReader, ServerWorker, ServerWriter, ServerReader;
    AtWork(p, s);
    StuckMeans(p, s);
    IdleBlocks(p, s.client, s.server, s.finished);
    if Stuck(p, s) {
      ClientBlocked(p, s.client, s.finished);
      ServerBlocked(p, s.server);
      if !Jammed(s.client) && !Jammed(s.server) {
        IdleWaits(p.n, s.client);
        IdleWaits(p.n, s.server);
        NothingLeft(p, s);
      }
    }
  }

  /** A reachable state with jobs still to be counted is stuck exactly if all hands and queues are empty, each reader
      waits for frames with none there or is jammed, and at least one of them is jammed. */
  lemma StuckExactly<V>(p: Params<V>, schedule: seq<Thread>, states: seq<Sys<V>>, k: nat)
    requires WellFormed(p) && Execution(p, schedule, states) && MainPullsFirst(schedule, states) && k < |states|
    requires states[k].finished < p.n
    ensures var c, v := states[k].client, states[k].server;
      Stuck(p, states[k]) <==>
        && Idle(c) && Idle(v)
        && (Waits(c) || Jammed(c)) && (Waits(v) || Jammed(v))
        && (Jammed(c) || Jammed(v))
  {
    hide Inv, Step, EarlyOffload, LateEnds, Stuck, Idle, Waits, Jammed;
    ExecutionInv(p, schedule, states, k);
    EndsAreLate(p, schedule, states, k);
    StuckShape(p, states[k]);
  }

  /** A jam lasts: in no continuation does that thread take another step. */
  lemma {:induction false} JamIsForever<V>(
      p: Params<V>, schedule: seq<Thread>, states: seq<Sys<V>>, i: nat, k: nat)
    requires Execution(p, schedule, states) && i <= k < |states|
    ensures Jammed(states[i].client) ==> Jammed(states[k].client) && Step(p, states[k], CReader).None?
    ensures Jammed(states[i].server) ==> Jammed(states[k].server) && Step(p, states[k], SReader).None?
    decreases k
  {
    hide Step, Jammed;
    if i < k {
      JamIsForever(p, schedule, states, i, k - 1);
      JamStays(p, states[k - 1], schedule[k - 1], states[k]);
    }
    JamBlocks(p, states[k]);
  }

  lemma JamBlocks<V>(p: Params<V>, s: Sys<V>)
    ensures Jammed(s.client) ==> Step(p, s, CReader).None?
    ensures Jammed(s.server) ==> Step(p, s, SReader).None?
  {
  }
}
