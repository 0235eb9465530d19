/** When the threads of MP4 end, over every execution, and where the sentinels that end them go. */
module Endings {
  import opened Wrappers
  import opened Protocol
  import opened Ownership
  import opened Invariant
  import opened TokenMoves
  import ClientSteps
  import ServerSteps

  // ---------- ends ----------

  /** The next step of the thread is its last: client main puts a sentinel behind the jobs to send, a loop of the
      client finds the counter full, the client's reader takes a sentinel and then waits for a body that is never
      sent, the server's writer has sent the sentinel on, or the server's worker pulls one. */
  ghost predicate AtEnd<V>(p: Params<V>, s: Sys<V>, t: Thread) {
    match t
    case CMain => s.client.worker.MLeave?
    case CWriter => s.client.writer.WCheck? && s.finished == p.n
    case CReader =>
      || (s.client.reader.RCheck? && s.finished == p.n)
      || (s.client.reader.RWait? && s.client.inbox != [] && s.client.inbox[0].StopMsg?)
    case SWorker => s.server.worker.MPull? && s.server.todo != [] && s.server.todo[0] < 0
    case SWriter => s.server.writer == WSend(-1)
    case _ => false
  }

  ghost predicate Gone<V>(s: Sys<V>, t: Thread) {
    match t
    case CMain => s.client.worker.MStop?
    case CWriter => s.client.writer.WStop?
    case CReader => s.client.reader.RStop? || s.client.reader.RStuck?
    case SWorker => s.server.worker.MStop?
    case SWriter => s.server.writer.WStop?
    case _ => false
  }

  /** The thread has taken its last step among the first k. */
  ghost predicate Ended<V>(p: Params<V>, schedule: seq<Thread>, states: seq<Sys<V>>, t: Thread, k: nat)
    requires k <= |schedule| < |states|
  {
    exists i {:trigger schedule[i]} | 0 <= i < k :: schedule[i] == t && AtEnd(p, states[i], t)
  }

  lemma ClientStepGone<V>(p: Params<V>, s: Sys<V>, t: Thread, u: Thread, s': Sys<V>)
    requires Step(p, s, u) == Some(s') && OnClient(u)
    ensures Gone(s', t) <==> Gone(s, t) || (u == t && AtEnd(p, s, t))
    ensures Gone(s, t) ==> u != t
  {
    hide FrameFor, ServerStep;
    if u == CReader { ReaderGone(p, s, t, s'); hide ClientStep; }
  }

  lemma ReaderGone<V>(p: Params<V>, s: Sys<V>, t: Thread, s': Sys<V>)
    requires Step(p, s, CReader) == Some(s')
    ensures Gone(s', t) <==> Gone(s, t) || (t == CReader && AtEnd(p, s, t))
    ensures Gone(s, t) ==> t != CReader
  {
    hide FrameFor, ServerStep;
  }

  lemma ServerReaderGone<V>(p: Params<V>, s: Sys<V>, t: Thread, s': Sys<V>)
    requires Step(p, s, SReader) == Some(s')
    ensures Gone(s', t) <==> Gone(s, t)
  {
    hide FrameFor, ClientStep;
  }

  lemma ServerStepGone<V>(p: Params<V>, s: Sys<V>, t: Thread, u: Thread, s': Sys<V>)
    requires Step(p, s, u) == Some(s') && !OnClient(u)
    ensures Gone(s', t) <==> Gone(s, t) || (u == t && AtEnd(p, s, t))
    ensures Gone(s, t) ==> u != t
  {
    assert FrameFor(p.n, s.server.arr, STOP) == Some(StopMsg);
    hide FrameFor, ClientStep, ServerReader;
    if u == SReader { ServerReaderGone(p, s, t, s'); }
  }

  lemma StepGone<V>(p: Params<V>, s: Sys<V>, t: Thread, u: Thread, s': Sys<V>)
    requires Step(p, s, u) == Some(s')
    ensures Gone(s', t) <==> Gone(s, t) || (u == t && AtEnd(p, s, t))
    ensures Gone(s, t) ==> u != t
  {
    hide Step, Gone, AtEnd;
    if OnClient(u) { ClientStepGone(p, s, t, u, s'); } else { ServerStepGone(p, s, t, u, s'); }
  }

  lemma NobodyGone<V>(p: Params<V>, t: Thread)
    ensures !Gone(Init(p), t)
  {
  }

  /** A thread is gone exactly after such a step. */
  lemma {:induction false} GoneExactly<V>(
      p: Params<V>, schedule: seq<Thread>, states: seq<Sys<V>>, t: Thread, k: nat)
    requires Execution(p, schedule, states) && k <= |schedule|
    ensures Gone(states[k], t) <==> Ended(p, schedule, states, t, k)
  {
    hide Step, Gone, AtEnd;
    if k > 0 {
      GoneExactly(p, schedule, states, t, k - 1);
      StepGone(p, states[k - 1], t, schedule[k - 1], states[k]);
      assert schedule[k - 1] == t && AtEnd(p, states[k - 1], t) ==> Ended(p, schedule, states, t, k);
    } else {
      NobodyGone(p, t);
    }
  }

  /** And takes no step after it. */
  lemma NoStepAfter<V>(p: Params<V>, schedule: seq<Thread>, states: seq<Sys<V>>, t: Thread, i: nat, k: nat)
    requires Execution(p, schedule, states) && i < k < |schedule|
    requires schedule[i] == t && AtEnd(p, states[i], t)
    ensures schedule[k] != t
  {
    hide Step, Gone, AtEnd;
    GoneExactly(p, schedule, states, t, k);
    StepGone(p, states[k], t, schedule[k], states[k + 1]);
  }

  /** Client main leaves its loop exactly by finding the counter full at the loop's head. */
  lemma {:induction false} LeavesExactly<V>(p: Params<V>, schedule: seq<Thread>, states: seq<Sys<V>>, k: nat)
    requires Execution(p, schedule, states) && k <= |schedule|
    ensures states[k].client.worker.MLeave? || states[k].client.worker.MStop? <==>
      exists i {:trigger schedule[i]} | 0 <= i < k ::
        schedule[i] == CMain && states[i].client.worker.MCheck? && states[i].finished >= p.n
  {
    hide Step;
    if k > 0 {
      LeavesExactly(p, schedule, states, k - 1);
      StepLeaves(p, states[k - 1], schedule[k - 1], states[k]);
      assert schedule[k - 1] == schedule[k - 1];
    }
  }

  lemma StepLeaves<V>(p: Params<V>, s: Sys<V>, u: Thread, s': Sys<V>)
    requires Step(p, s, u) == Some(s')
    ensures s'.client.worker.MLeave? || s'.client.worker.MStop? <==>
      || s.client.worker.MLeave? || s.client.worker.MStop?
      || (u == CMain && s.client.worker.MCheck? && s.finished >= p.n)
  {
    hide FrameFor;
  }

  // ---------- sentinels ----------

  /** The sentinels that the client has used up in the first k steps: those client main has pulled, and the one its
      reader waits for a body with. */
  function Spent<V>(states: seq<Sys<V>>, k: nat): nat
    requires k < |states|
  {
    if k == 0 then 0
    else Spent(states, k - 1) + SentinelsSpent(states[k - 1].client, states[k].client)
  }

  /** A balanced step changes the sentinels of the whole system by those it makes and uses up. */
  lemma BalancedSentinels<V>(n: nat, me: Node<V>, peer: Node<V>, o: Outcome<V>)
    requires o.Went? && Balanced(n, me, o)
    ensures NodeIds(n, o.me)[STOP] + NodeIds(n, peer.(inbox := peer.inbox + o.sent))[STOP] +
        SentinelsMade(me) + SentinelsSpent(me, o.me) ==
      NodeIds(n, me)[STOP] + NodeIds(n, peer)[STOP] + SentinelsMade(o.me)
    ensures multiset(o.counted)[STOP] == 0
  {
    hide NodeIds, InboxIds, SentinelsMade, SentinelsSpent;
    AddInbox(n, peer, o.sent);
  }

  lemma ClientStepSentinels<V>(p: Params<V>, s: Sys<V>, t: Thread, s': Sys<V>)
    requires Inv(p, s) && Step(p, s, t) == Some(s') && OnClient(t) && !EarlyOffload(s, t)
    ensures Tokens(p.n, s')[STOP] + SentinelsMade(s.client) + SentinelsSpent(s.client, s'.client) ==
      Tokens(p.n, s)[STOP] + SentinelsMade(s'.client)
  {
    hide NodeIds, Distinct, ClientOk, ServerOk, ClientStep, Balanced, OwnedOnce, SentinelsMade, SentinelsSpent;
    NodesDistinct(p, s);
    ClientSteps.ClientStepKeeps(p, s.client, s.done, s.started, t);
    var o := ClientStep(p, s.client, s.finished, t);
    if o.Went? {
      ClientSteps.ClientStepBalanced(p, s.client, s.done, s.started, t);
      BalancedSentinels(p.n, s.client, s.server, o);
    }
  }

  lemma ServerSpendsNone<V>(p: Params<V>, v: Node<V>, v': Node<V>)
    requires ServerOk(p, v) && ServerOk(p, v')
    ensures SentinelsSpent(v, v') == 0
  {
    assert v.todo != [] ==> v.todo[0] in v.todo;
  }

  lemma ServerStepSentinels<V>(p: Params<V>, s: Sys<V>, t: Thread, s': Sys<V>)
    requires Inv(p, s) && Step(p, s, t) == Some(s') && !OnClient(t)
    ensures Tokens(p.n, s')[STOP] == Tokens(p.n, s)[STOP]
    ensures SentinelsMade(s.client) == SentinelsMade(s'.client) && SentinelsSpent(s.client, s'.client) == 0
  {
    hide NodeIds, Distinct, ClientOk, ServerOk, ServerStep, Balanced, OwnedOnce, SentinelsMade;
    NodesDistinct(p, s);
    NotZero(p.n, s.server);
    ServerSteps.ServerStepKeeps(p, s.server, s.done, t);
    var o := ServerStep(p, s.server, t);
    if o.Went? {
      ServerMakesNone(p, s.server);
      ServerMakesNone(p, o.me);
      ServerSpendsNone(p, s.server, o.me);
      ServerSteps.ServerStepBalanced(p, s.server, s.done, t);
      BalancedSentinels(p.n, s.server, s.client, o);
      SameSentinels(s.client, s'.client);
    }
  }

  /** The sentinels the client has made and not used up are in a queue, in a channel or in hand. */
  lemma {:induction false} SentinelsAccounted<V>(
      p: Params<V>, schedule: seq<Thread>, states: seq<Sys<V>>, k: nat)
    requires WellFormed(p) && Execution(p, schedule, states) && MainPullsFirst(schedule, states) && k <= |schedule|
    ensures Tokens(p.n, states[k])[-1] + Spent(states, k) == SentinelsMade(states[k].client)
  {
    hide Inv, Step, EarlyOffload, SentinelsMade, SentinelsSpent, Tokens;
    if k > 0 {
      var s, t, s' := states[k - 1], schedule[k - 1], states[k];
      SentinelsAccounted(p, schedule, states, k - 1);
      ExecutionInv(p, schedule, states, k - 1);
      if OnClient(t) { ClientStepSentinels(p, s, t, s'); } else { ServerStepSentinels(p, s, t, s'); }
    } else {
      InitTokens(p, STOP);
      NoneMade(p);
    }
  }

  lemma NoneMade<V>(p: Params<V>)
    ensures SentinelsMade(Init(p).client) == 0
  {
  }
}
