/** Every step of every schedule in which client main pulls first keeps the invariant. */
module Invariant {
  import opened Wrappers
  import opened Protocol
  import opened Ownership
  import opened TokenMoves
  import opened ClientSteps
  import opened ServerSteps

  /** Ownership seen from the two nodes. */
  lemma NodesDistinct<V>(p: Params<V>, s: Sys<V>)
    requires Inv(p, s)
    ensures Distinct(p.n, s.client, s.done) && Distinct(p.n, s.server, s.done)
    ensures 0 !in NodeIds(p.n, s.server)
  {
    hide NodeIds, ClientSlots, ServerOk, AllToClientOk;
    var ids := Tokens(p.n, s);
    forall j | j != STOP
      ensures NodeIds(p.n, s.client)[j] + NodeIds(p.n, s.server)[j] + multiset(s.done)[j] <= Bit(0 <= j < p.n)
      ensures NodeIds(p.n, s.client)[j] + NodeIds(p.n, s.server)[j] > 0 ==> |s.done| < p.n
    {
      if multiset(s.done)[j] < ids[j] { Busy(p.n, ids, s.done, j); }
    }
    assert ids[0] == 1;
    ZeroPlace(p.n, s.client, s.done, s.started);
  }

  lemma ZeroPlace<V>(n: nat, c: Node<V>, done: seq<int>, started: bool)
    requires JobZero(c, done, started)
    ensures NodeIds(n, c)[0] + multiset(done)[0] > 0
  {
    hide NodeIds, InboxIds, ReaderIds, WriterIds;
    Parts(n, c, 0);
  }

  lemma ServerReceivesMore<V>(p: Params<V>, v: Node<V>, sent: seq<Frame<V>>)
    requires ServerOk(p, v) && AllToServerOk(p, sent)
    ensures ServerOk(p, v.(inbox := v.inbox + sent))
  {
  }

  lemma ClientReceivesMore<V>(p: Params<V>, c: Node<V>, done: seq<int>, started: bool, sent: seq<Frame<V>>)
    requires ClientOk(p, c, done, started) && AllToClientOk(p, sent)
    ensures ClientOk(p, c.(inbox := c.inbox + sent), done, started)
  {
  }

  /** A balanced step of one node keeps ownership in the whole system. */
  lemma BalancedOwned<V>(n: nat, me: Node<V>, peer: Node<V>, done: seq<int>, o: Outcome<V>, made: nat,
                         before: multiset<int>, after: multiset<int>)
    requires o.Went? && Balanced(n, me, o)
    requires forall j :: before[j] == NodeIds(n, me)[j] + NodeIds(n, peer)[j] + multiset(done)[j]
    requires var peer' := peer.(inbox := peer.inbox + o.sent);
      forall j :: after[j] == NodeIds(n, o.me)[j] + NodeIds(n, peer')[j] + multiset(done + o.counted)[j]
    requires OwnedOnce(n, before) && before[STOP] <= made + SentinelsMade(me)
    ensures OwnedOnce(n, after) && after[STOP] <= made + SentinelsMade(o.me)
  {
    hide NodeIds, InboxIds, SentinelsMade;
    AddInbox(n, peer, o.sent);
    forall j | j != STOP ensures after[j] == before[j] {
    }
  }

  lemma ClientTokens<V>(p: Params<V>, s: Sys<V>, o: Outcome<V>, s': Sys<V>)
    requires OwnedOnce(p.n, Tokens(p.n, s)) && Tokens(p.n, s)[STOP] <= SentinelsMade(s.client)
    requires o.Went? && Balanced(p.n, s.client, o)
    requires s'.client == o.me && s'.server == s.server.(inbox := s.server.inbox + o.sent)
    requires s'.done == s.done + o.counted
    ensures OwnedOnce(p.n, Tokens(p.n, s')) && Tokens(p.n, s')[STOP] <= SentinelsMade(s'.client)
  {
    hide NodeIds, InboxIds, SentinelsMade, Balanced, OwnedOnce;
    BalancedOwned(p.n, s.client, s.server, s.done, o, 0, Tokens(p.n, s), Tokens(p.n, s'));
  }

  lemma SameSentinels<V>(c: Node<V>, c': Node<V>)
    requires c'.worker == c.worker && c'.reader == c.reader
    ensures SentinelsMade(c') == SentinelsMade(c)
  {
  }

  lemma ServerTokens<V>(p: Params<V>, s: Sys<V>, o: Outcome<V>, s': Sys<V>)
    requires OwnedOnce(p.n, Tokens(p.n, s)) && Tokens(p.n, s)[STOP] <= SentinelsMade(s.client)
    requires o.Went? && Balanced(p.n, s.server, o) && o.counted == []
    requires SentinelsMade(s.server) == SentinelsMade(o.me) == 0
    requires s'.server == o.me && s'.client == s.client.(inbox := s.client.inbox + o.sent) && s'.done == s.done
    ensures OwnedOnce(p.n, Tokens(p.n, s')) && Tokens(p.n, s')[STOP] <= SentinelsMade(s'.client)
  {
    hide NodeIds, InboxIds, SentinelsMade, Balanced, OwnedOnce;
    assert s.done + o.counted == s.done;
    SameSentinels(s.client, s'.client);
    BalancedOwned(p.n, s.server, s.client, s.done, o, SentinelsMade(s.client), Tokens(p.n, s), Tokens(p.n, s'));
  }

  lemma ServerMakesNone<V>(p: Params<V>, v: Node<V>)
    requires ServerOk(p, v)
    ensures SentinelsMade(v) == 0
  {
  }

  lemma ClientStepInv<V>(p: Params<V>, s: Sys<V>, t: Thread, s': Sys<V>)
    requires Inv(p, s) && Step(p, s, t) == Some(s') && OnClient(t) && !EarlyOffload(s, t)
    ensures Inv(p, s')
  {
    hide Tokens, NodeIds, Distinct, ClientOk, ServerOk, ClientStep, Balanced, AllToServerOk, OwnedOnce, SentinelsMade;
    NodesDistinct(p, s);
    ClientStepKeeps(p, s.client, s.done, s.started, t);
    var o := ClientStep(p, s.client, s.finished, t);
    if o.Went? {
      ClientStepBalanced(p, s.client, s.done, s.started, t);
      ClientTokens(p, s, o, s');
      ServerReceivesMore(p, s.server, o.sent);
    }
  }

  lemma ServerStepInv<V>(p: Params<V>, s: Sys<V>, t: Thread, s': Sys<V>)
    requires Inv(p, s) && Step(p, s, t) == Some(s') && !OnClient(t)
    ensures Inv(p, s')
  {
    hide Tokens, NodeIds, Distinct, ClientOk, ServerOk, ServerStep, Balanced, AllToClientOk, OwnedOnce, SentinelsMade;
    NodesDistinct(p, s);
    NotZero(p.n, s.server);
    ServerStepKeeps(p, s.server, s.done, t);
    var o := ServerStep(p, s.server, t);
    if o.Went? {
      ServerMakesNone(p, s.server);
      ServerMakesNone(p, o.me);
      ServerStepBalanced(p, s.server, s.done, t);
      ServerTokens(p, s, o, s');
      ClientReceivesMore(p, s.client, s.done, s.started, o.sent);
    }
  }

  lemma NotZero<V>(n: nat, v: Node<V>)
    requires 0 !in NodeIds(n, v)
    ensures v.reader.ROfferHand? ==> v.reader.job != 0
  {
    hide InboxIds, WorkerIds, WriterIds;
  }

  lemma StepInv<V>(p: Params<V>, s: Sys<V>, t: Thread, s': Sys<V>)
    requires Inv(p, s) && Step(p, s, t) == Some(s') && !EarlyOffload(s, t)
    ensures Inv(p, s')
  {
    hide Inv, Step;
    if OnClient(t) { ClientStepInv(p, s, t, s'); } else { ServerStepInv(p, s, t, s'); }
  }

  // ---------- the initial state ----------

  lemma {:induction false} IntervalCount(k: nat, lo: int, j: int)
    ensures multiset(seq(k, i => i + lo))[j] == Bit(lo <= j < lo + k)
  {
    if k > 0 {
      IntervalCount(k - 1, lo, j);
      assert seq(k, i => i + lo) == seq(k - 1, i => i + lo) + [k - 1 + lo];
    }
  }

  lemma InitTokens<V>(p: Params<V>, j: int)
    requires WellFormed(p)
    ensures Tokens(p.n, Init(p))[j] == Bit(0 <= j < p.n)
  {
    hide NodeIds, InboxIds;
    var s, h := Init(p), p.n / 2;
    Parts(p.n, s.client, j);
    Parts(p.n, s.server, j);
    NoFrames<V>(p.n);
    assert s.client.todo == seq(h, i => i + 0);
    IntervalCount(h, 0, j);
    IntervalCount(h, h, j);
  }

  lemma InitInv<V>(p: Params<V>)
    requires WellFormed(p)
    ensures Inv(p, Init(p))
  {
    hide NodeIds, Tokens;
    forall j ensures Tokens(p.n, Init(p))[j] == Bit(0 <= j < p.n) {
      InitTokens(p, j);
    }
  }

  // ---------- every run ----------

  lemma {:induction false} ExecutionInv<V>(p: Params<V>, schedule: seq<Thread>, states: seq<Sys<V>>, k: nat)
    requires WellFormed(p) && Execution(p, schedule, states) && MainPullsFirst(schedule, states) && k < |states|
    ensures Inv(p, states[k])
  {
    hide Inv, Step, EarlyOffload, Init;
    if k == 0 {
      InitInv(p);
    } else {
      ExecutionInv(p, schedule, states, k - 1);
      StepInv(p, states[k - 1], schedule[k - 1], states[k]);
    }
  }

  lemma ReachedInv<V>(p: Params<V>, schedule: seq<Thread>, states: seq<Sys<V>>, s: Sys<V>)
    requires Reached(p, schedule, states, s)
    ensures Inv(p, s)
  {
    hide Inv, Step, EarlyOffload, Init;
    var k :| 0 <= k < |states| && states[k] == s;
    ExecutionInv(p, schedule, states, k);
  }
}
