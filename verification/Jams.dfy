/** Jams happen, even if every offload is decided on the true size: client main empties the queue meanwhile. */
module Jams {
  import opened Wrappers
  import opened Protocol
  import opened Completion
  import opened EarlyOffloadRun
  import Loops

  lemma {:induction false} OrderlyMain<V(!new)>(p: Params<V>, s: Sys<V>, k: nat, s': Sys<V>)
    requires Orderly(p, s) && Loops.Steps(p, s, CMain, k) == Some(s')
    ensures Orderly(p, s')
    decreases k
  {
    hide Step, Orderly;
    if k > 0 {
      OrderlyStep(p, s, CMain, Step(p, s, CMain).value);
      OrderlyMain(p, Step(p, s, CMain).value, k - 1, s');
    }
  }

  /** With the code's policy and at least 14 jobs, some execution in which client main pulls first and every offload is
      decided on the true size ends with the client's offload loop jammed and half of the jobs still to be counted. */
  lemma JamReachable<V(!new)>(p: Params<V>)
    requires WellFormed(p) && p.n >= 14 && p.policy == 1
    ensures exists s :: Orderly(p, s) && Jammed(s.client) && s.finished <= p.n / 2 < p.n
  {
    hide Orderly, Step, Loops.Main, Loops.Steps;
    var g := EarlyDecision(p);
    var todo := g.client.todo;
    assert forall i | 0 <= i < |todo| :: todo[i] == i;
    var k, s := Loops.MainAlone(p, g);
    var m := Loops.MainComputesOnce(todo, g.client.arr, g.finished, p.n, Loops.Whole(p));
    assert todo[|todo|..] == [];
    OrderlyMain(p, g, k, s);
    assert Orderly(p, s) && Jammed(s.client) && s.finished <= p.n / 2;
  }
}
