/** A family of schedules in which the client offloads job 0: the hypothesis of the theorems about MP4,
    that client main pulls first, cannot be dropped. */
module EarlyOffloadRun {
  import opened Wrappers
  import opened Protocol
  import opened Ownership
  import opened Invariant
  import opened Flow
  import opened Theorems

  ghost predicate Reachable<V(!new)>(p: Params<V>, s: Sys<V>) {
    exists schedule: seq<Thread>, states: seq<Sys<V>> ::
      Execution(p, schedule, states) && states[|schedule|] == s
  }

  lemma ReachStep<V(!new)>(p: Params<V>, s: Sys<V>, t: Thread, s': Sys<V>)
    requires Reachable(p, s) && Step(p, s, t) == Some(s')
    ensures Reachable(p, s')
  {
    hide Step, Init;
    var schedule, states :| Execution(p, schedule, states) && states[|schedule|] == s;
    var schedule', states' := schedule + [t], states + [s'];
    forall i | 0 <= i < |schedule'| ensures Step(p, states'[i], schedule'[i]) == Some(states'[i + 1]) {
      assert i < |schedule| ==> schedule'[i] == schedule[i];
    }
    assert Execution(p, schedule', states');
  }

  /** A state of an execution in which client main pulls first and every offload is decided on the true size. */
  ghost predicate Orderly<V(!new)>(p: Params<V>, s: Sys<V>) {
    exists schedule: seq<Thread>, states: seq<Sys<V>> ::
      && Execution(p, schedule, states) && MainPullsFirst(schedule, states) && TrueSizes(p, schedule, states)
      && states[|schedule|] == s
  }

  lemma OrderlyStep<V(!new)>(p: Params<V>, s: Sys<V>, t: Thread, s': Sys<V>)
    requires Orderly(p, s) && Step(p, s, t) == Some(s') && !EarlyOffload(s, t) && SeesTrueSize(p, s, t)
    ensures Orderly(p, s')
  {
    hide Step, Init, EarlyOffload, SeesTrueSize;
    var schedule, states :|
      && Execution(p, schedule, states) && MainPullsFirst(schedule, states) && TrueSizes(p, schedule, states)
      && states[|schedule|] == s;
    var schedule', states' := schedule + [t], states + [s'];
    forall i | 0 <= i < |schedule'|
      ensures Step(p, states'[i], schedule'[i]) == Some(states'[i + 1])
      ensures !EarlyOffload(states'[i], schedule'[i]) && SeesTrueSize(p, states'[i], schedule'[i])
    {
      assert i < |schedule| ==> schedule'[i] == schedule[i];
    }
    assert Execution(p, schedule', states') && MainPullsFirst(schedule', states') && TrueSizes(p, schedule', states');
  }

  lemma OrderlyReachable<V(!new)>(p: Params<V>, s: Sys<V>)
    requires Orderly(p, s)
    ensures Reachable(p, s)
  {
    hide Step, Init, EarlyOffload, SeesTrueSize;
    var schedule, states :|
      && Execution(p, schedule, states) && MainPullsFirst(schedule, states) && TrueSizes(p, schedule, states)
      && states[|schedule|] == s;
  }

  /** The client as `bootstrap` left it, up to the fields its writer, reader and manager change. */
  ghost predicate Untouched<V(!new)>(p: Params<V>, s: Sys<V>) {
    && !s.fault && !s.started && s.finished == 0
    && s.client.todo == seq(p.n / 2, i => i) && s.client.arr == p.c0
    && s.client.worker.MCheck? && s.client.reader.RCheck? && s.server.reader.RWait?
    && s.client.manager == s.server.manager == None
  }

  lemma StartOrderly<V(!new)>(p: Params<V>)
    ensures Orderly(p, Init(p))
  {
    var none, one := [], [Init(p)];
    assert Execution(p, none, one) && MainPullsFirst(none, one) && TrueSizes(p, none, one);
  }

  /** The client's writer sends the server its first job. */
  lemma SendJob<V(!new)>(p: Params<V>) returns (s: Sys<V>)
    requires WellFormed(p)
    ensures Orderly(p, s) && Untouched(p, s) && s.client.peer == -1 && s.server.peer == -1
    ensures s.client.inbox == [] && s.server.todo == [] && |s.server.arr| == p.n
    ensures s.server.inbox == [Data(p.n / 2, p.c0[p.n / 2])]
  {
    hide Orderly;
    var s0 := Init(p);
    StartOrderly(p);
    var s1 := Step(p, s0, CWriter).value;
    OrderlyStep(p, s0, CWriter, s1);
    var s2 := Step(p, s1, CWriter).value;
    OrderlyStep(p, s1, CWriter, s2);
    assert s2.client.writer == WSend(p.n / 2);
    s := Step(p, s2, CWriter).value;
    OrderlyStep(p, s2, CWriter, s);
  }

  lemma StoreJob<V(!new)>(p: Params<V>, s: Sys<V>) returns (s': Sys<V>)
    requires WellFormed(p) && Orderly(p, s) && Untouched(p, s)
    requires s.server.inbox == [Data(p.n / 2, p.c0[p.n / 2])] && s.server.todo == [] && |s.server.arr| == p.n
    ensures Orderly(p, s') && Untouched(p, s') && s'.client == s.client
    ensures s'.server.inbox == [] && s'.server.todo == [p.n / 2] && s'.server.peer == s.server.peer
  {
    hide Orderly;
    var s1 := Step(p, s, SReader).value;
    OrderlyStep(p, s, SReader, s1);
    var s2 := Step(p, s1, SReader).value;
    OrderlyStep(p, s1, SReader, s2);
    var s3 := Step(p, s2, SReader).value;
    OrderlyStep(p, s2, SReader, s3);
    s' := Step(p, s3, SReader).value;
    OrderlyStep(p, s3, SReader, s');
  }

  /** The client reports its size. */
  lemma ReportSize<V(!new)>(p: Params<V>, s: Sys<V>) returns (s': Sys<V>)
    requires WellFormed(p) && Orderly(p, s) && Untouched(p, s)
    requires s.server.inbox == [] && s.client.inbox == [] && |s.server.todo| == 1
    ensures Orderly(p, s') && Untouched(p, s') && s'.client == s.client
    ensures s'.server.inbox == [StateMsg(p.n / 2)] && |s'.server.todo| == 1
  {
    hide Orderly;
    var s1 := Step(p, s, CManager).value;
    OrderlyStep(p, s, CManager, s1);
    s' := Step(p, s1, CManager).value;
    OrderlyStep(p, s1, CManager, s');
  }

  /** The underloaded server asks it to rebalance. */
  lemma AskForMore<V(!new)>(p: Params<V>, s: Sys<V>) returns (s': Sys<V>)
    requires WellFormed(p) && p.policy == 1 && Orderly(p, s) && Untouched(p, s)
    requires s.server.inbox == [StateMsg(p.n / 2)] && s.client.inbox == [] && |s.server.todo| == 1
    ensures Orderly(p, s') && Untouched(p, s')
    ensures s'.client.inbox == [Rebalance] && |s'.server.todo| == 1
  {
    hide Orderly;
    var s3 := Step(p, s, SReader).value;
    OrderlyStep(p, s, SReader, s3);
    assert s3.server.reader.RAsk?;
    s' := Step(p, s3, SReader).value;
    OrderlyStep(p, s3, SReader, s');
  }

  lemma ReportOne<V(!new)>(p: Params<V>, s: Sys<V>) returns (s': Sys<V>)
    requires WellFormed(p) && Orderly(p, s) && Untouched(p, s)
    requires s.client.inbox == [Rebalance] && |s.server.todo| == 1
    ensures Orderly(p, s') && Untouched(p, s') && s'.client.inbox == [Rebalance, StateMsg(1)]
    ensures |s'.server.todo| == 1
  {
    hide Orderly;
    var s1 := Step(p, s, SManager).value;
    OrderlyStep(p, s, SManager, s1);
    s' := Step(p, s1, SManager).value;
    OrderlyStep(p, s1, SManager, s');
  }

  lemma HearRequest<V(!new)>(p: Params<V>, s: Sys<V>) returns (s': Sys<V>)
    requires WellFormed(p) && Orderly(p, s) && Untouched(p, s)
    requires s.client.inbox == [Rebalance, StateMsg(1)] && |s.server.todo| == 1
    ensures Orderly(p, s') && Untouched(p, s') && s'.client.asked && s'.client.inbox == [StateMsg(1)]
    ensures |s'.server.todo| == 1
  {
    hide Orderly;
    var s1 := Step(p, s, CReader).value;
    OrderlyStep(p, s, CReader, s1);
    s' := Step(p, s1, CReader).value;
    OrderlyStep(p, s1, CReader, s');
  }

  /** The client finds itself overloaded before client main has run. */
  lemma Overloaded<V(!new)>(p: Params<V>, s: Sys<V>) returns (s': Sys<V>)
    requires WellFormed(p) && p.policy == 1 && p.n >= 14 && Orderly(p, s) && Untouched(p, s)
    requires s.client.asked && s.client.inbox == [StateMsg(1)] && |s.server.todo| == 1
    ensures Orderly(p, s') && EarlyOffload(s', CReader) && !s'.fault
    ensures s'.client.todo == seq(p.n / 2, i => i) && s'.client.arr == p.c0
    ensures s'.client.worker.MCheck? && s'.finished == 0
  {
    hide Orderly;
    var s3 := Step(p, s, CReader).value;
    OrderlyStep(p, s, CReader, s3);
    s' := Step(p, s3, CReader).value;
    OrderlyStep(p, s3, CReader, s');
  }

  lemma PullsZero<V(!new)>(p: Params<V>, s: Sys<V>)
    requires EarlyOffload(s, CReader) && !s.fault && |s.client.arr| == p.n > 0
    requires s.client.todo != [] && s.client.todo[0] == 0
    ensures Step(p, s, CReader).Some? && Step(p, Step(p, s, CReader).value, CReader).Some?
  {
  }

  /** With the code's policy and at least 14 jobs, the client can decide to offload before client main has pulled. */
  lemma EarlyDecision<V(!new)>(p: Params<V>) returns (g: Sys<V>)
    requires WellFormed(p) && p.n >= 14 && p.policy == 1
    ensures Orderly(p, g) && EarlyOffload(g, CReader) && !g.fault
    ensures g.client.todo == seq(p.n / 2, i => i) && g.client.arr == p.c0
    ensures g.client.worker.MCheck? && g.finished == 0
  {
    hide Orderly, Untouched, Step;
    var a := SendJob(p);
    var b := StoreJob(p, a);
    var c := ReportSize(p, b);
    var d := AskForMore(p, c);
    var e := ReportOne(p, d);
    var f := HearRequest(p, e);
    g := Overloaded(p, f);
  }

  /** With the code's policy and at least 14 jobs, some schedule makes the client read past its array. */
  lemma FaultReachable<V(!new)>(p: Params<V>)
    requires WellFormed(p) && p.n >= 14 && p.policy == 1
    ensures exists s :: Reachable(p, s) && s.fault
  {
    hide Reachable, Orderly, Untouched, Step;
    var g := EarlyDecision(p);
    OrderlyReachable(p, g);
    PullsZero(p, g);
    var g1 := Step(p, g, CReader).value;
    ReachStep(p, g, CReader, g1);
    var g2 := Step(p, g1, CReader).value;
    ReachStep(p, g1, CReader, g2);
    PullThenSend(p, g, g1, g2);
    assert Reachable(p, g2) && g2.fault;
  }

  // ---------- the other way round ----------

  /** The client's offload loop holds job 0. */
  ghost predicate ZeroInHand<V>(p: Params<V>, s: Sys<V>) {
    s.client.reader.ROfferHand? && s.client.reader.job == 0 && |s.client.arr| == p.n
  }

  lemma EarlyPull<V>(p: Params<V>, s: Sys<V>, s': Sys<V>)
    requires Inv(p, s) && EarlyOffload(s, CReader) && Step(p, s, CReader) == Some(s')
    ensures ZeroInHand(p, s')
  {
    hide Inv;
    HeadIsZero(p, s);
  }

  lemma OthersKeepZero<V>(p: Params<V>, s: Sys<V>, t: Thread, s': Sys<V>)
    requires ZeroInHand(p, s) && Step(p, s, t) == Some(s') && t != CReader
    ensures ZeroInHand(p, s')
  {
    hide ClientReader, ServerStep;
  }

  lemma ZeroFaults<V>(p: Params<V>, s: Sys<V>, s': Sys<V>)
    requires ZeroInHand(p, s) && Step(p, s, CReader) == Some(s')
    ensures s'.fault
  {
  }

  lemma {:induction false} ZeroStays<V>(p: Params<V>, schedule: seq<Thread>, states: seq<Sys<V>>, i: nat, m: nat)
    requires Execution(p, schedule, states) && i <= m <= |schedule| && ZeroInHand(p, states[i])
    requires forall l {:trigger schedule[l]} | i <= l < m :: schedule[l] != CReader
    ensures ZeroInHand(p, states[m])
  {
    hide Step, Init, ZeroInHand;
    if m > i {
      ZeroStays(p, schedule, states, i, m - 1);
      OthersKeepZero(p, states[m - 1], schedule[m - 1], states[m]);
    }
  }

  /** An early pull of the client's offload loop dooms the execution: the next step of that thread, whatever comes
      in between, reads past the array, and is the last. */
  lemma {:induction false} EarlyOffloadFaults<V>(
      p: Params<V>, schedule: seq<Thread>, states: seq<Sys<V>>, i: nat, m: nat)
    requires WellFormed(p) && Execution(p, schedule, states) && i < m < |schedule|
    requires EarlyOffload(states[i], schedule[i]) && schedule[m] == CReader
    ensures states[|schedule|].fault
    decreases i, m
  {
    hide Inv, Step, Init, EarlyOffload, ZeroInHand;
    if l :| 0 <= l < i && EarlyOffload(states[l], schedule[l]) {
      EarlyOffloadFaults(p, schedule, states, l, m);
    } else if l :| i < l < m && schedule[l] == CReader {
      EarlyOffloadFaults(p, schedule, states, i, l);
    } else {
      var first, before := schedule[..i], states[..i + 1];
      ExecutionInv(p, first, before, i);
      assert schedule[i] == CReader by { OnlyReaderEarly(states[i], schedule[i]); }
      EarlyPull(p, states[i], states[i + 1]);
      ZeroStays(p, schedule, states, i + 1, m);
      ZeroFaults(p, states[m], states[m + 1]);
      FaultIsLast(p, schedule, states, m + 1);
    }
  }

  lemma OnlyReaderEarly<V>(s: Sys<V>, t: Thread)
    requires EarlyOffload(s, t)
    ensures t == CReader
  {
  }

  lemma FaultIsLast<V>(p: Params<V>, schedule: seq<Thread>, states: seq<Sys<V>>, m: nat)
    requires Execution(p, schedule, states) && m <= |schedule| && states[m].fault
    ensures m == |schedule|
  {
    hide Init, ClientStep, ServerStep;
    assert m < |schedule| ==> Step(p, states[m], schedule[m]) == None;
  }
}
