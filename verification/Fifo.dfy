/** Uncomputed jobs keep their order from node to node: each `job_todo` is the end of a pipe. */
module Fifo {
  import opened Wrappers
  import opened Protocol
  import opened Ownership
  import opened Invariant
  import opened OffloadLoop
  import opened Progress
  import TokenMoves

  // ---------- the pipe to the server ----------

  /** The jobs in frames to the server. */
  function JobsOut<V>(n: nat, frames: seq<Frame<V>>): seq<int> {
    if frames == [] then []
    else (if frames[0].Data? then [SlotOf(n, frames[0].id)] else []) + JobsOut(n, frames[1..])
  }

  function Received<V>(r: Reader<V>): seq<int> {
    if r.RGot? || r.RCopy? || r.RStored? then [r.job] else []
  }

  /** The server's queue and all that is on its way to it, first come first. */
  function ServerPipe<V>(n: nat, v: Node<V>): seq<int> {
    v.todo + Received(v.reader) + JobsOut(n, v.inbox)
  }

  /** The worker or the offload loop pulls from the server's queue. */
  ghost predicate TakesFromServer<V>(s: Sys<V>, t: Thread) {
    s.server.todo != [] &&
    ((t == SWorker && s.server.worker.MPull?) || (t == SReader && OffloadPull(s.server.reader)))
  }

  /** What was pulled from the server's queue in the first m steps. */
  ghost function ServerTook<V>(schedule: seq<Thread>, states: seq<Sys<V>>, m: nat): seq<int>
    requires m <= |schedule| < |states|
  {
    if m == 0 then []
    else
      ServerTook(schedule, states, m - 1) +
      if TakesFromServer(states[m - 1], schedule[m - 1]) then [states[m - 1].server.todo[0]] else []
  }

  /** The jobs the client sent in the first m steps. */
  function ClientSentJobs<V>(p: Params<V>, schedule: seq<Thread>, states: seq<Sys<V>>, m: nat): seq<int>
    requires m <= |schedule| < |states|
  {
    if m == 0 then []
    else
      var t := schedule[m - 1];
      ClientSentJobs(p, schedule, states, m - 1) +
      if OnClient(t) then JobsOut(p.n, SentIn(p, states[m - 1], t)) else []
  }

  lemma {:induction false} JobsOutConcat<V>(n: nat, a: seq<Frame<V>>, b: seq<Frame<V>>)
    ensures JobsOut(n, a + b) == JobsOut(n, a) + JobsOut(n, b)
  {
    if a == [] {
      assert a + b == b;
    } else {
      assert (a + b)[1..] == a[1..] + b;
      JobsOutConcat(n, a[1..], b);
    }
  }

  lemma ServerReceivePipe<V>(p: Params<V>, v: Node<V>)
    requires v.reader.RWait? && v.inbox != [] && ToServerOk(p, v.inbox[0])
    ensures ServerPipe(p.n, ServerReceive(p, v, v.inbox[0]).(inbox := v.inbox[1..])) == ServerPipe(p.n, v)
  {
    hide OnState;
    var f := v.inbox[0];
    if f.StateMsg? { TokenMoves.StateKeepsTokens(p.policy, v, f.num, RWait); }
    assert JobsOut(p.n, v.inbox) == (if f.Data? then [SlotOf(p.n, f.id)] else []) + JobsOut(p.n, v.inbox[1..]);
  }

  lemma ServerDeliverPipe<V>(p: Params<V>, v: Node<V>)
    requires ServerDeliver(p, v).Went?
    ensures ServerPipe(p.n, ServerDeliver(p, v).me) == ServerPipe(p.n, v)
  {
    hide JobsOut;
  }

  /** Only an offload pull takes a job out of the pipe. */
  lemma ServerOffloadPipe<V>(p: Params<V>, v: Node<V>)
    requires Offloading(v.reader) && Offload(p, v, RWait).Went?
    requires v.todo != [] ==> v.todo[0] > STOP
    ensures var v' := Offload(p, v, RWait).me;
      if OffloadPull(v.reader) then v.todo != [] && ServerPipe(p.n, v) == [v.todo[0]] + ServerPipe(p.n, v')
      else ServerPipe(p.n, v') == ServerPipe(p.n, v)
  {
    hide JobsOut, FrameFor;
    if OffloadPull(v.reader) { assert v.todo == [v.todo[0]] + v.todo[1..]; }
  }

  /** A step of the server's reader moves a job along the pipe, or takes one out of it. */
  lemma ServerReaderPipe<V>(p: Params<V>, v: Node<V>)
    requires ServerReader(p, v).Went? && !v.reader.RCheck?
    requires v.reader.RWait? && v.inbox != [] ==> ToServerOk(p, v.inbox[0])
    requires v.todo != [] ==> v.todo[0] > STOP
    ensures var v' := ServerReader(p, v).me;
      if OffloadPull(v.reader) then v.todo != [] && ServerPipe(p.n, v) == [v.todo[0]] + ServerPipe(p.n, v')
      else ServerPipe(p.n, v') == ServerPipe(p.n, v)
  {
    hide ServerPipe, ServerReceive, ServerDeliver, Offload, ToServerOk;
    if
    case v.reader.RWait? => ServerReceivePipe(p, v);
    case Offloading(v.reader) => ServerOffloadPipe(p, v);
    case !v.reader.RWait? && !Offloading(v.reader) => ServerDeliverPipe(p, v);
  }

  lemma ServerOthersPipe<V>(p: Params<V>, v: Node<V>, t: Thread)
    requires !OnClient(t) && t != SReader && ServerStep(p, v, t).Went?
    ensures var v' := ServerStep(p, v, t).me;
      if t == SWorker && v.worker.MPull? then v.todo != [] && ServerPipe(p.n, v) == [v.todo[0]] + ServerPipe(p.n, v')
      else ServerPipe(p.n, v') == ServerPipe(p.n, v)
  {
    hide JobsOut, FrameFor, ServerReader;
    if t == SWorker && v.worker.MPull? { assert v.todo == [v.todo[0]] + v.todo[1..]; }
  }

  lemma ServerStepPipe<V>(p: Params<V>, s: Sys<V>, t: Thread, s': Sys<V>, sent: seq<int>, took: seq<int>)
    requires Inv(p, s) && Step(p, s, t) == Some(s') && !s'.fault && !OnClient(t)
    requires sent == took + ServerPipe(p.n, s.server)
    ensures sent == took + (if TakesFromServer(s, t) then [s.server.todo[0]] else []) + ServerPipe(p.n, s'.server)
  {
    hide Inv, ServerStep, ServerReader, ServerPipe, ToServerOk;
    ServerFacts(p, s);
    if t == SReader {
      assert ServerStep(p, s.server, t) == ServerReader(p, s.server) by { ReaderIsReader(p, s.server); }
      ServerReaderPipe(p, s.server);
    } else {
      ServerOthersPipe(p, s.server, t);
    }
  }

  lemma ReaderIsReader<V>(p: Params<V>, nd: Node<V>)
    ensures ServerStep(p, nd, SReader) == ServerReader(p, nd)
    ensures forall finished: nat :: ClientStep(p, nd, finished, CReader) == ClientReader(p, nd, finished)
  {
  }

  lemma ClientStepFeeds<V>(p: Params<V>, s: Sys<V>, t: Thread, s': Sys<V>)
    requires Step(p, s, t) == Some(s') && !s'.fault && OnClient(t)
    ensures ServerPipe(p.n, s'.server) == ServerPipe(p.n, s.server) + JobsOut(p.n, SentIn(p, s, t))
    ensures !TakesFromServer(s, t)
  {
    hide ClientStep, JobsOut;
    JobsOutConcat(p.n, s.server.inbox, SentIn(p, s, t));
  }

  /** In every execution, whatever was pulled from the server's queue and what is still on its way through it are,
      in this order, the jobs that the client sent. */
  lemma {:induction false} ServerFifo<V>(p: Params<V>, schedule: seq<Thread>, states: seq<Sys<V>>, m: nat)
    requires WellFormed(p) && Execution(p, schedule, states) && MainPullsFirst(schedule, states) && m <= |schedule|
    ensures ClientSentJobs(p, schedule, states, m) ==
      ServerTook(schedule, states, m) + ServerPipe(p.n, states[m].server)
  {
    hide Inv, Step, EarlyOffload, ServerPipe, SentIn, JobsOut, TakesFromServer, Init;
    if m == 0 {
      assert ServerPipe(p.n, states[0].server) == [] by { StartPipes(p); }
    } else {
      var s, t, s' := states[m - 1], schedule[m - 1], states[m];
      ServerFifo(p, schedule, states, m - 1);
      ExecutionInv(p, schedule, states, m - 1);
      ExecutionInv(p, schedule, states, m);
      NoFault(p, s');
      var sent, took := ClientSentJobs(p, schedule, states, m - 1), ServerTook(schedule, states, m - 1);
      if OnClient(t) {
        ClientStepFeeds(p, s, t, s');
        assert took + [] == took;
        assert took + (ServerPipe(p.n, s.server) + JobsOut(p.n, SentIn(p, s, t)))
            == (took + ServerPipe(p.n, s.server)) + JobsOut(p.n, SentIn(p, s, t));
      } else {
        ServerStepPipe(p, s, t, s', sent, took);
        assert sent + [] == sent;
      }
    }
  }

  lemma StartPipes<V>(p: Params<V>)
    ensures ServerPipe(p.n, Init(p).server) == [] && ClientPipe(p.n, Init(p).client) == seq(p.n / 2, i => i)
    ensures Sentinel(Init(p).client.reader) == []
  {
  }

  // ---------- the pipe back to the client ----------

  /** The uncomputed jobs in frames to the client. */
  function JobsBack<V>(n: nat, frames: seq<Frame<V>>): seq<int> {
    if frames == [] then []
    else (if frames[0].Data? && frames[0].id >= n then [frames[0].id - n] else []) + JobsBack(n, frames[1..])
  }

  /** The client's queue and all that is on its way to it, first come first. */
  function ClientPipe<V>(n: nat, c: Node<V>): seq<int> {
    c.todo + (if c.reader.RBack? then [c.reader.job] else []) + JobsBack(n, c.inbox)
  }

  ghost predicate TakesFromClient<V>(s: Sys<V>, t: Thread) {
    s.client.todo != [] &&
    ((t == CMain && s.client.worker.MPull?) || (t == CReader && OffloadPull(s.client.reader)))
  }

  ghost function ClientTook<V>(schedule: seq<Thread>, states: seq<Sys<V>>, m: nat): seq<int>
    requires m <= |schedule| < |states|
  {
    if m == 0 then []
    else
      ClientTook(schedule, states, m - 1) +
      if TakesFromClient(states[m - 1], schedule[m - 1]) then [states[m - 1].client.todo[0]] else []
  }

  /** The uncomputed jobs the server sent back in the first m steps. */
  function ServerSentJobs<V>(p: Params<V>, schedule: seq<Thread>, states: seq<Sys<V>>, m: nat): seq<int>
    requires m <= |schedule| < |states|
  {
    if m == 0 then []
    else
      var t := schedule[m - 1];
      ServerSentJobs(p, schedule, states, m - 1) +
      if OnClient(t) then [] else JobsBack(p.n, SentIn(p, states[m - 1], t))
  }

  lemma {:induction false} JobsBackConcat<V>(n: nat, a: seq<Frame<V>>, b: seq<Frame<V>>)
    ensures JobsBack(n, a + b) == JobsBack(n, a) + JobsBack(n, b)
  {
    if a == [] {
      assert a + b == b;
    } else {
      assert (a + b)[1..] == a[1..] + b;
      JobsBackConcat(n, a[1..], b);
    }
  }

  lemma ClientReceivePipe<V>(p: Params<V>, c: Node<V>)
    requires c.reader.RWait? && c.inbox != []
    ensures ClientPipe(p.n, ClientReceive(p, c, c.inbox[0]).(inbox := c.inbox[1..])) == ClientPipe(p.n, c)
  {
    hide OnState;
    var f := c.inbox[0];
    if f.StateMsg? { TokenMoves.StateKeepsTokens(p.policy, c, f.num, RCheck); }
    assert JobsBack(p.n, c.inbox) ==
      (if f.Data? && f.id >= p.n then [f.id - p.n] else []) + JobsBack(p.n, c.inbox[1..]);
  }

  lemma ClientDeliverPipe<V>(p: Params<V>, c: Node<V>)
    requires ClientDeliver(p, c).Went?
    ensures ClientPipe(p.n, ClientDeliver(p, c).me) == ClientPipe(p.n, c)
  {
    hide JobsBack;
  }

  lemma ClientOffloadPipe<V>(p: Params<V>, c: Node<V>)
    requires Offloading(c.reader) && Offload(p, c, RCheck).Went?
    requires c.todo != [] && c.reader.ROffer? ==> c.todo[0] > STOP
    ensures var c' := Offload(p, c, RCheck).me;
      if OffloadPull(c.reader) then c.todo != [] && ClientPipe(p.n, c) == [c.todo[0]] + ClientPipe(p.n, c')
      else ClientPipe(p.n, c') == ClientPipe(p.n, c)
  {
    hide JobsBack, FrameFor;
    if OffloadPull(c.reader) { assert c.todo == [c.todo[0]] + c.todo[1..]; }
  }

  lemma ClientCheckPipe<V>(p: Params<V>, c: Node<V>, finished: nat)
    requires c.reader.RCheck? && ClientCheck(p, c, finished).Went? && !ClientCheck(p, c, finished).me.reader.RStop?
    ensures ClientPipe(p.n, ClientCheck(p, c, finished).me) == ClientPipe(p.n, c)
  {
    hide JobsBack;
  }

  lemma ClientReaderPipe<V>(p: Params<V>, c: Node<V>, finished: nat)
    requires ClientReader(p, c, finished).Went? && !ClientReader(p, c, finished).me.reader.RStop?
    requires c.reader.ROffer? && c.todo != [] ==> c.todo[0] > STOP
    ensures var c' := ClientReader(p, c, finished).me;
      if OffloadPull(c.reader) then c.todo != [] && ClientPipe(p.n, c) == [c.todo[0]] + ClientPipe(p.n, c')
      else ClientPipe(p.n, c') == ClientPipe(p.n, c)
  {
    hide ClientPipe, ClientReceive, ClientDeliver, ClientCheck, Offload;
    if
    case c.reader.RCheck? => ClientCheckPipe(p, c, finished);
    case c.reader.RWait? => ClientReceivePipe(p, c);
    case Offloading(c.reader) => ClientOffloadPipe(p, c);
    case !c.reader.RCheck? && !c.reader.RWait? && !Offloading(c.reader) => ClientDeliverPipe(p, c);
  }

  lemma ClientOthersPipe<V>(p: Params<V>, c: Node<V>, finished: nat, t: Thread)
    requires OnClient(t) && t != CReader && ClientStep(p, c, finished, t).Went?
    ensures var c' := ClientStep(p, c, finished, t).me;
      if t == CMain && c.worker.MPull? then c.todo != [] && ClientPipe(p.n, c) == [c.todo[0]] + ClientPipe(p.n, c')
      else ClientPipe(p.n, c') == ClientPipe(p.n, c)
  {
    hide JobsBack, FrameFor, ClientReader;
    if t == CMain && c.worker.MPull? { assert c.todo == [c.todo[0]] + c.todo[1..]; }
  }

  lemma ClientStepPipe<V>(p: Params<V>, s: Sys<V>, t: Thread, s': Sys<V>, sent: seq<int>, took: seq<int>)
    requires Inv(p, s) && Step(p, s, t) == Some(s') && !s'.fault && OnClient(t) && !s'.client.reader.RStop?
    requires sent == took + ClientPipe(p.n, s.client)
    ensures sent == took + (if TakesFromClient(s, t) then [s.client.todo[0]] else []) + ClientPipe(p.n, s'.client)
  {
    hide Inv, ClientStep, ClientReader, ClientPipe, ToClientOk;
    ClientFacts(p, s);
    if t == CReader {
      assert ClientStep(p, s.client, s.finished, t) == ClientReader(p, s.client, s.finished) by {
        ReaderIsReader(p, s.client);
      }
      ClientReaderPipe(p, s.client, s.finished);
    } else {
      ClientOthersPipe(p, s.client, s.finished, t);
    }
  }

  lemma ServerStepFeeds<V>(p: Params<V>, s: Sys<V>, t: Thread, s': Sys<V>)
    requires Step(p, s, t) == Some(s') && !s'.fault && !OnClient(t)
    ensures ClientPipe(p.n, s'.client) == ClientPipe(p.n, s.client) + JobsBack(p.n, SentIn(p, s, t))
    ensures !TakesFromClient(s, t) && s'.client.reader == s.client.reader
  {
    hide ServerStep, JobsBack;
    JobsBackConcat(p.n, s.client.inbox, SentIn(p, s, t));
  }

  // ---------- after the sentinel ----------

  lemma {:induction false} BackIsThere<V>(n: nat, inbox: seq<Frame<V>>) returns (j: int)
    requires JobsBack(n, inbox) != []
    ensures j >= 0 && InboxIds(n, inbox)[j] > 0
  {
    if inbox[0].Data? && inbox[0].id >= n {
      j := inbox[0].id - n;
    } else {
      j := BackIsThere(n, inbox[1..]);
    }
  }

  /** Once every job is counted none is on its way back. */
  lemma NothingBack<V>(p: Params<V>, s: Sys<V>)
    requires Inv(p, s) && s.finished == p.n
    ensures JobsBack(p.n, s.client.inbox) == [] && !s.client.reader.RBack?
  {
    hide NodeIds, InboxIds, WorkerIds, WriterIds, JobZero, ClientSlots, ServerOk, JobsBack, AllToClientOk;
    var c := s.client;
    if c.reader.RBack? {
      ClientSteps.Parts(p.n, c, c.reader.job);
      Busy(p.n, Tokens(p.n, s), s.done, c.reader.job);
    }
    if JobsBack(p.n, c.inbox) != [] {
      var j := BackIsThere(p.n, c.inbox);
      ClientSteps.Parts(p.n, c, j);
      Busy(p.n, Tokens(p.n, s), s.done, j);
    }
  }

  lemma StopMeansFinished<V>(p: Params<V>, s: Sys<V>)
    requires Inv(p, s) && s.client.reader.RStop?
    ensures s.finished == p.n
  {
    hide NodeIds, JobZero, ClientSlots, ServerOk;
    DoneBound(p.n, Tokens(p.n, s), s.done);
  }

  /** The client's reader leaves its loop and queues the sentinel behind all jobs. */
  lemma StopPipe<V>(p: Params<V>, s: Sys<V>, s': Sys<V>)
    requires Inv(p, s) && Step(p, s, CReader) == Some(s') && !s.client.reader.RStop? && s'.client.reader.RStop?
    ensures ClientPipe(p.n, s'.client) == ClientPipe(p.n, s.client) + [STOP]
    ensures !TakesFromClient(s, CReader)
  {
    hide Inv, JobsBack;
    if s.finished == p.n { NothingBack(p, s); }
  }

  /** After that the reader takes no more steps, and everybody else treats the queue as before. */
  lemma StoppedPipe<V>(p: Params<V>, s: Sys<V>, t: Thread, s': Sys<V>)
    requires Step(p, s, t) == Some(s') && !s'.fault && OnClient(t) && s.client.reader.RStop?
    ensures s'.client.reader.RStop?
    ensures ClientPipe(p.n, s.client) ==
      (if TakesFromClient(s, t) then [s.client.todo[0]] else []) + ClientPipe(p.n, s'.client)
  {
    hide ClientPipe, ClientStep;
    StoppedReader(p, s.client, s.finished);
    ClientOthersPipe(p, s.client, s.finished, t);
    OthersKeepReader(p, s.client, s.finished, t);
    assert [] + ClientPipe(p.n, s'.client) == ClientPipe(p.n, s'.client);
  }

  lemma StoppedReader<V>(p: Params<V>, c: Node<V>, finished: nat)
    requires c.reader.RStop?
    ensures ClientStep(p, c, finished, CReader).Blocked?
  {
  }

  lemma OthersKeepReader<V>(p: Params<V>, c: Node<V>, finished: nat, t: Thread)
    requires OnClient(t) && t != CReader && ClientStep(p, c, finished, t).Went?
    ensures ClientStep(p, c, finished, t).me.reader == c.reader
  {
  }

  /** The sentinel that the client's reader leaves in its queue. */
  function Sentinel<V>(r: Reader<V>): seq<int> {
    if r.RStop? then [STOP] else []
  }

  lemma ClientStepFifo<V>(p: Params<V>, s: Sys<V>, t: Thread, s': Sys<V>, sent: seq<int>, took: seq<int>)
    requires Inv(p, s) && Step(p, s, t) == Some(s') && !s'.fault && OnClient(t)
    requires sent + Sentinel(s.client.reader) == took + ClientPipe(p.n, s.client)
    ensures sent + Sentinel(s'.client.reader) ==
      took + (if TakesFromClient(s, t) then [s.client.todo[0]] else []) + ClientPipe(p.n, s'.client)
  {
    hide Inv, Step, ClientPipe;
    if s.client.reader.RStop? {
      StoppedPipe(p, s, t, s');
    } else {
      assert sent + Sentinel(s.client.reader) == sent;
      if s'.client.reader.RStop? {
        OnlyReaderStops(p, s, t, s');
        StopPipe(p, s, s');
      } else {
        ClientStepPipe(p, s, t, s', sent, took);
      }
    }
  }

  lemma OnlyReaderStops<V>(p: Params<V>, s: Sys<V>, t: Thread, s': Sys<V>)
    requires Step(p, s, t) == Some(s') && OnClient(t) && !s.client.reader.RStop? && s'.client.reader.RStop?
    ensures t == CReader
  {
    hide ClientStep;
    var o := ClientStep(p, s.client, s.finished, t);
    if t != CReader && o.Went? { OthersKeepReader(p, s.client, s.finished, t); }
  }

  /** A job the server would send back after the end. */
  lemma NoneSentBack<V>(p: Params<V>, s: Sys<V>, t: Thread, s': Sys<V>)
    requires Inv(p, s') && Step(p, s, t) == Some(s') && !s'.fault && !OnClient(t) && s.client.reader.RStop?
    ensures JobsBack(p.n, SentIn(p, s, t)) == []
  {
    hide Inv, ServerStep, JobsBack;
    StopMeansFinished(p, s');
    NothingBack(p, s');
    JobsBackConcat(p.n, s.client.inbox, SentIn(p, s, t));
  }

  /** The same for the client's queue: first come the jobs `bootstrap` put there, then those the server sent back, and
      last the sentinel with which the reader ends it. */
  lemma {:induction false} ClientFifo<V>(p: Params<V>, schedule: seq<Thread>, states: seq<Sys<V>>, m: nat)
    requires WellFormed(p) && Execution(p, schedule, states) && MainPullsFirst(schedule, states) && m <= |schedule|
    ensures seq(p.n / 2, i => i) + ServerSentJobs(p, schedule, states, m) + Sentinel(states[m].client.reader) ==
      ClientTook(schedule, states, m) + ClientPipe(p.n, states[m].client)
  {
    hide Inv, Step, EarlyOffload, ClientPipe, SentIn, JobsBack, TakesFromClient, Init, Sentinel;
    var first := seq(p.n / 2, i => i);
    if m == 0 {
      StartPipes(p);
      assert first + [] + [] == first && [] + first == first;
    } else {
      var s, t, s' := states[m - 1], schedule[m - 1], states[m];
      ClientFifo(p, schedule, states, m - 1);
      ExecutionInv(p, schedule, states, m - 1);
      ExecutionInv(p, schedule, states, m);
      NoFault(p, s');
      var sent, took := ServerSentJobs(p, schedule, states, m - 1), ClientTook(schedule, states, m - 1);
      if OnClient(t) {
        assert sent + [] == sent;
        ClientStepFifo(p, s, t, s', first + sent, took);
      } else {
        ServerStepFifo(p, s, t, s', first + sent, took);
        assert first + (sent + JobsBack(p.n, SentIn(p, s, t))) == first + sent + JobsBack(p.n, SentIn(p, s, t));
        assert took + [] == took;
      }
    }
  }

  lemma ServerStepFifo<V>(p: Params<V>, s: Sys<V>, t: Thread, s': Sys<V>, sent: seq<int>, took: seq<int>)
    requires Inv(p, s') && Step(p, s, t) == Some(s') && !s'.fault && !OnClient(t)
    requires sent + Sentinel(s.client.reader) == took + ClientPipe(p.n, s.client)
    ensures sent + JobsBack(p.n, SentIn(p, s, t)) + Sentinel(s'.client.reader) == took + ClientPipe(p.n, s'.client)
    ensures !TakesFromClient(s, t)
  {
    hide Inv, Step, ClientPipe, SentIn, JobsBack, TakesFromClient;
    ServerStepFeeds(p, s, t, s');
    var more := JobsBack(p.n, SentIn(p, s, t));
    assert took + (ClientPipe(p.n, s.client) + more) == (took + ClientPipe(p.n, s.client)) + more;
    if s.client.reader.RStop? {
      NoneSentBack(p, s, t, s');
      assert sent + [] == sent;
    } else {
      assert sent + more + [] == sent + more && sent + [] == sent;
    }
  }
}
