/** What an offload leaves behind: the queues even out, and the peer has no reason to send anything back. */
module Rounds {
  import opened Wrappers
  import opened Protocol
  import opened Ownership
  import opened Invariant
  import opened Progress
  import opened Flow
  import ClientSteps
  import Theorems

  // ---------- the flow before the end ----------

  lemma {:induction false} CarriedIds<V>(n: nat, inbox: seq<Frame<V>>)
    ensures Carried(inbox) <= |InboxIds(n, inbox)|
  {
    if inbox != [] { CarriedIds(n, inbox[1..]); }
  }

  lemma {:induction false} ReturningIds<V>(n: nat, inbox: seq<Frame<V>>)
    ensures Returning(n, inbox) <= |InboxIds(n, inbox)|
  {
    if inbox != [] { ReturningIds(n, inbox[1..]); }
  }

  lemma ClientVolume<V>(n: nat, c: Node<V>)
    ensures |c.todo| + Homeward(n, c) + Outward(c) <= |NodeIds(n, c)| + 2 - SentinelsMade(c)
  {
    ReturningIds(n, c.inbox);
    hide InboxIds, Returning;
  }

  lemma ServerVolume<V>(n: nat, v: Node<V>)
    ensures |v.todo| + Arriving(v) + Bit(v.reader.ROfferHand?) <= |NodeIds(n, v)|
  {
    CarriedIds(n, v.inbox);
    hide InboxIds, Carried;
  }

  /** Uncounted ids are all the flow can carry. */
  lemma VolumeLeft<V>(p: Params<V>, s: Sys<V>)
    requires Inv(p, s)
    ensures Volume(TideOf(p.n, s)) <= p.n - s.finished + 2
  {
    hide NodeIds, ClientOk, ServerOk, Homeward, Outward, Arriving, SentinelsMade;
    ClientVolume(p.n, s.client);
    ServerVolume(p.n, s.server);
    OwnedSize(p.n, Tokens(p.n, s));
  }

  lemma EndIsLate<V>(p: Params<V>, s: Sys<V>)
    requires Inv(p, s) && (EndSeen(s.client) || EndSeen(s.server))
    ensures s.finished == p.n
  {
    hide NodeIds, ClientSlots, ServerSlots, OwnedOnce, WriterIds, WorkerIds, JobZero;
    if s.server.reader.RGotStop? || s.client.reader.RGotStop? {
      ClientSteps.Parts(p.n, s.server, STOP);
      ClientSteps.Parts(p.n, s.client, STOP);
    } else if s.client.reader.RWait? && s.client.inbox != [] && s.client.inbox[0].StopMsg? {
      ClientSteps.Parts(p.n, s.client, STOP);
    } else {
      ClientSteps.Parts(p.n, s.server, STOP);
    }
    Theorems.SentinelMeansFinished(p, s);
  }

  // ---------- a stretch without decisions ----------

  /** From position i to position m no worker pulls and no offload is decided. */
  ghost predicate Calm<V>(p: Params<V>, schedule: seq<Thread>, states: seq<Sys<V>>, i: nat, m: nat)
    requires i <= m <= |schedule| < |states|
  {
    forall l {:trigger schedule[l]} | i <= l < m ::
      !WorkerPulls(states[l], schedule[l]) && !Deciding(p, states[l], schedule[l])
  }

  lemma CalmStep<V>(p: Params<V>, s: Sys<V>, t: Thread, s': Sys<V>)
    requires Inv(p, s) && Step(p, s, t) == Some(s') && !EarlyOffload(s, t)
    requires !WorkerPulls(s, t) && !Deciding(p, s, t) && s.finished < p.n
    ensures TideOf(p.n, s').clientEnd == TideOf(p.n, s).clientEnd
    ensures TideOf(p.n, s').serverEnd == TideOf(p.n, s).serverEnd
  {
    hide Inv, Step, TideOf, EarlyOffload, WorkerPulls, Pulls, EndSeen, Decides;
    if EndSeen(s.client) || EndSeen(s.server) { EndIsLate(p, s); }
    StepTide(p, s, t, s');
  }

  /** What will have come to rest in each queue does not change, whatever moves meanwhile. */
  lemma {:induction false} CalmTide<V>(p: Params<V>, schedule: seq<Thread>, states: seq<Sys<V>>, i: nat, m: nat)
    requires WellFormed(p) && Execution(p, schedule, states) && MainPullsFirst(schedule, states) && i <= m <= |schedule|
    requires Calm(p, schedule, states, i, m) && Volume(TideOf(p.n, states[i])) > 2
    ensures TideOf(p.n, states[m]).clientEnd == TideOf(p.n, states[i]).clientEnd
    ensures TideOf(p.n, states[m]).serverEnd == TideOf(p.n, states[i]).serverEnd
  {
    hide Inv, Step, EarlyOffload, TideOf, WorkerPulls, Deciding, Init;
    if m > i {
      CalmTide(p, schedule, states, i, m - 1);
      ExecutionInv(p, schedule, states, m - 1);
      VolumeLeft(p, states[m - 1]);
      CalmStep(p, states[m - 1], schedule[m - 1], states[m]);
    }
  }

  // ---------- the round ----------

  /** What is on its way to the client's queue, and to the server's. */
  function ToClient<V>(n: nat, s: Sys<V>): int { TideOf(n, s).clientEnd - |s.client.todo| }

  function ToServer<V>(n: nat, s: Sys<V>): int { TideOf(n, s).serverEnd - |s.server.todo| }

  /** A node decides on the peer's true size to offload half of the difference.  However the threads interleave,
      as long as no worker pulls and nothing else is decided: once as much is on its way as before, so that the
      offer has arrived, the queues differ by at most one, and no node that learns the other's size offers anything. */
  lemma RoundSettles<V>(p: Params<V>, schedule: seq<Thread>, states: seq<Sys<V>>, i: nat, m: nat)
    requires WellFormed(p) && Execution(p, schedule, states) && MainPullsFirst(schedule, states) && i < m <= |schedule|
    requires Deciding(p, states[i], schedule[i]) && SeesTrueSize(p, states[i], schedule[i])
    requires Calm(p, schedule, states, i + 1, m)
    requires ToClient(p.n, states[m]) == ToClient(p.n, states[i])
    requires ToServer(p.n, states[m]) == ToServer(p.n, states[i])
    ensures var c, v := states[m].client, states[m].server;
      && (if schedule[i] == CReader then 0 <= |c.todo| - |v.todo| <= 1 else 0 <= |v.todo| - |c.todo| <= 1)
      && (forall home: Reader<V> | home.RCheck? || home.RWait? ::
            !OnState(p.policy, c.(reader := RWait), |v.todo|, home).reader.ROffer? &&
            !OnState(p.policy, v.(reader := RWait), |c.todo|, home).reader.ROffer?)
  {
    hide Inv, Step, EarlyOffload, WorkerPulls, TideOf, OnState, Init;
    var s, t, s' := states[i], schedule[i], states[i + 1];
    ExecutionInv(p, schedule, states, i);
    DecisionTide(p, s, t, s');
    CalmTide(p, schedule, states, i + 1, m);
    var c, v := states[m].client, states[m].server;
    forall home: Reader<V> | home.RCheck? || home.RWait?
      ensures !OnState(p.policy, c.(reader := RWait), |v.todo|, home).reader.ROffer? &&
        !OnState(p.policy, v.(reader := RWait), |c.todo|, home).reader.ROffer?
    {
      Decision(p, c.(reader := RWait), |v.todo|, home);
      Decision(p, v.(reader := RWait), |c.todo|, home);
    }
  }

  lemma DecisionTide<V>(p: Params<V>, s: Sys<V>, t: Thread, s': Sys<V>)
    requires Inv(p, s) && Step(p, s, t) == Some(s') && Deciding(p, s, t) && SeesTrueSize(p, s, t)
    ensures var a, b := TideOf(p.n, s), TideOf(p.n, s');
      var d := |s.client.todo| - |s.server.todo|;
      && Volume(b) > 2 && (t == CReader ==> d >= 6) && (t != CReader ==> d <= -6)
      && (t == CReader ==> b.clientEnd == a.clientEnd - d / 2 && b.serverEnd == a.serverEnd + d / 2)
      && (t != CReader ==> b.clientEnd == a.clientEnd + (-d) / 2 && b.serverEnd == a.serverEnd - (-d) / 2)
  {
    hide Inv, ClientStep, ServerStep, ClientChange, ServerChange, TideOf, OnState;
    StepInv(p, s, t, s');
    NoFault(p, s);
    NoFault(p, s');
    TideBounds(p.n, s);
    if t == CReader {
      ClientStepChange(p, s, t);
      ClientTide(p.n, s, ClientStep(p, s.client, s.finished, t), s');
    } else {
      ServerStepChange(p, s, t);
      ServerTide(p.n, s, ServerStep(p, s.server, t), s');
    }
  }
}
