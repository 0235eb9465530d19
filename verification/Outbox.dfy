/** First in, first out through the queues of the jobs to send, over every execution. */
module Outbox {
  import opened Wrappers
  import opened Protocol
  import opened OffloadLoop

  /** The thread that empties the queue of a node. */
  function WriterOf(client: bool): Thread {
    if client then CWriter else SWriter
  }

  function NodeOf<V>(s: Sys<V>, client: bool): Node<V> {
    if client then s.client else s.server
  }

  /** The id that a step puts into the queue: client main its sentinel, the server's worker a job it has computed, the
      server's reader the sentinel it has taken. */
  function PutIn<V>(s: Sys<V>, u: Thread, client: bool): seq<int> {
    if client then (if u == CMain && s.client.worker.MLeave? then [-1] else [])
    else if u == SWorker && s.server.worker.MDone? then [s.server.worker.job]
    else if u == SReader && s.server.reader.RGotStop? then [-1]
    else []
  }

  /** The ids that went into the queue in the first k steps, after what `bootstrap` left there: the second half of
      the client's jobs. */
  function Put<V>(p: Params<V>, schedule: seq<Thread>, states: seq<Sys<V>>, client: bool, k: nat): seq<int>
    requires k <= |schedule| < |states|
  {
    if k == 0 then (if client then seq(p.n / 2, i => p.n / 2 + i) else [])
    else Put(p, schedule, states, client, k - 1) + PutIn(states[k - 1], schedule[k - 1], client)
  }

  /** The id whose frame a step sends. */
  function SentId<V>(s: Sys<V>, u: Thread, client: bool): seq<int> {
    if u == WriterOf(client) && NodeOf(s, client).writer.WSend? then [NodeOf(s, client).writer.job] else []
  }

  /** The ids whose frames the writer has sent in the first k steps. */
  function Wrote<V>(schedule: seq<Thread>, states: seq<Sys<V>>, client: bool, k: nat): seq<int>
    requires k <= |schedule| < |states|
  {
    if k == 0 then []
    else
      Wrote(schedule, states, client, k - 1) +
      if states[k].fault then [] else SentId(states[k - 1], schedule[k - 1], client)
  }

  /** What is still to be sent: the id in the writer's hand, and the queue. */
  function Waiting<V>(nd: Node<V>): seq<int> {
    (if nd.writer.WSend? then [nd.writer.job] else []) + nd.tosend
  }

  /** What a node sends and queues in a step, from the node alone. */
  ghost predicate Flows<V>(nd: Node<V>, put: seq<int>, sent: seq<int>, o: Outcome<V>) {
    match o
    case Blocked => true
    case OutOfArray => put == []
    case Went(me, _, _) => Waiting(nd) + put == sent + Waiting(me)
  }

  lemma ClientReaderFlows<V>(p: Params<V>, c: Node<V>, finished: nat)
    ensures Flows(c, [], [], ClientReader(p, c, finished))
  {
    hide FrameFor;
  }

  lemma ClientFlows<V>(p: Params<V>, s: Sys<V>, u: Thread)
    requires OnClient(u)
    ensures Flows(s.client, PutIn(s, u, true), SentId(s, u, true), ClientStep(p, s.client, s.finished, u))
  {
    hide FrameFor, ClientReader;
    if u == CReader { ClientReaderFlows(p, s.client, s.finished); }
  }

  lemma ServerReaderFlows<V>(p: Params<V>, s: Sys<V>)
    ensures Flows(s.server, PutIn(s, SReader, false), [], ServerReader(p, s.server))
  {
    hide FrameFor;
  }

  lemma ServerFlows<V>(p: Params<V>, s: Sys<V>, u: Thread)
    requires !OnClient(u)
    ensures Flows(s.server, PutIn(s, u, false), SentId(s, u, false), ServerStep(p, s.server, u))
  {
    hide FrameFor, ServerReader;
    if u == SReader { ServerReaderFlows(p, s); }
  }

  lemma ClientWaiting<V>(p: Params<V>, s: Sys<V>, u: Thread, s': Sys<V>)
    requires Step(p, s, u) == Some(s') && OnClient(u)
    ensures Waiting(s.client) + PutIn(s, u, true) ==
      (if s'.fault then [] else SentId(s, u, true)) + Waiting(s'.client)
    ensures Waiting(s'.server) == Waiting(s.server)
  {
    ClientFlows(p, s, u);
    hide ClientStep, ServerStep, PutIn, SentId;
  }

  lemma ServerWaiting<V>(p: Params<V>, s: Sys<V>, u: Thread, s': Sys<V>)
    requires Step(p, s, u) == Some(s') && !OnClient(u)
    ensures Waiting(s.server) + PutIn(s, u, false) ==
      (if s'.fault then [] else SentId(s, u, false)) + Waiting(s'.server)
    ensures Waiting(s'.client) == Waiting(s.client)
  {
    ServerFlows(p, s, u);
    hide ClientStep, ServerStep, PutIn, SentId;
  }

  /** The frame the writer sends is that of the id in its hand. */
  lemma WriterSends<V>(p: Params<V>, s: Sys<V>, client: bool)
    requires NodeOf(s, client).writer.WSend? && FrameFor(p.n, NodeOf(s, client).arr, NodeOf(s, client).writer.job).Some?
    ensures SentIn(p, s, WriterOf(client)) ==
      [FrameFor(p.n, NodeOf(s, client).arr, NodeOf(s, client).writer.job).value]
  {
    hide FrameFor;
  }

  /** On either node the ids that went into the queue are, in order, those whose frames the writer has sent, the one in
      its hand, and those in the queue. */
  lemma {:induction false} OutboxFifo<V>(
      p: Params<V>, schedule: seq<Thread>, states: seq<Sys<V>>, client: bool, k: nat)
    requires Execution(p, schedule, states) && k <= |schedule|
    ensures Put(p, schedule, states, client, k) ==
      Wrote(schedule, states, client, k) + Waiting(NodeOf(states[k], client))
  {
    hide Step, Waiting, PutIn, SentId;
    if k == 0 {
      StartWaiting(p, client);
    } else {
      var s, u, s' := states[k - 1], schedule[k - 1], states[k];
      OutboxFifo(p, schedule, states, client, k - 1);
      if OnClient(u) { ClientWaiting(p, s, u, s'); } else { ServerWaiting(p, s, u, s'); }
      Elsewhere(s, u, client);
      var wrote, was := Wrote(schedule, states, client, k - 1), Waiting(NodeOf(s, client));
      assert (wrote + was) + PutIn(s, u, client) == wrote + (was + PutIn(s, u, client));
    }
  }

  lemma Elsewhere<V>(s: Sys<V>, u: Thread, client: bool)
    ensures OnClient(u) != client ==> PutIn(s, u, client) == [] && SentId(s, u, client) == []
  {
  }

  lemma StartWaiting<V>(p: Params<V>, client: bool)
    ensures Waiting(NodeOf(Init(p), client)) == if client then seq(p.n / 2, i => p.n / 2 + i) else []
  {
  }
}
