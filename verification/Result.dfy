/** The protocol's result in terms of the job array in memory. */
module Result {
  import opened Wrappers
  import opened Protocol
  import opened Slots
  import Theorems

  /** The slots that `Slots.SequentialLoop` leaves in an array. */
  function OneMachine<T>(arr: seq<T>, n: nat, bump: T -> T): (slots: seq<seq<T>>)
    requires |arr| == Base(n)
    ensures |slots| == n
  {
    seq(n, k requires 0 <= k < n => ComputeSlot(bump, View(arr, n)[k]))
  }

  /** Whatever the schedule, when the client's counter has reached the number of jobs its array holds what one
      thread leaves that computes every slot once, entry by entry. */
  lemma SameAsOneMachine<T>(
      p: Params<seq<T>>, schedule: seq<Thread>, states: seq<Sys<seq<T>>>, s: Sys<seq<T>>,
      arr: seq<T>, bump: T -> T)
    requires Reached(p, schedule, states, s) && s.finished == p.n
    requires |arr| == Base(p.n) && p.c0 == View(arr, p.n)
    requires forall slot | |slot| == JOB_SIZE :: Protocol.Compute(p, slot) == ComputeSlot(bump, slot)
    ensures s.client.arr == OneMachine(arr, p.n, bump)
  {
    Theorems.EndToEnd(p, schedule, states, s);
    forall k | 0 <= k < p.n ensures s.client.arr[k] == OneMachine(arr, p.n, bump)[k] {
      Theorems.SequentialAt(p, p.n, k);
    }
  }

  /** Where a constant d is added, every entry of the client's array is then its initial value plus 6000 d. */
  lemma FinalEntries(
      p: Params<seq<real>>, schedule: seq<Thread>, states: seq<Sys<seq<real>>>, s: Sys<seq<real>>,
      arr: seq<real>, bump: real -> real, d: real)
    requires Reached(p, schedule, states, s) && s.finished == p.n
    requires |arr| == Base(p.n) && p.c0 == View(arr, p.n)
    requires forall slot | |slot| == JOB_SIZE :: Protocol.Compute(p, slot) == ComputeSlot(bump, slot)
    requires forall y :: bump(y) == y + d
    ensures |s.client.arr| == p.n && |arr| == 4096 * p.n
    ensures forall j, i | 0 <= j < p.n && 0 <= i < 4096 ::
      |s.client.arr[j]| == 4096 && s.client.arr[j][i] == arr[4096 * j + i] + 6000.0 * d
  {
    SameAsOneMachine(p, schedule, states, s, arr, bump);
    OneMachineAdds(arr, p.n, bump, d);
    hide Reached, OneMachine;
  }

  lemma OneMachineAdds(arr: seq<real>, n: nat, bump: real -> real, d: real)
    requires |arr| == Base(n) && forall y :: bump(y) == y + d
    ensures |arr| == 4096 * n
    ensures forall j, i | 0 <= j < n && 0 <= i < 4096 ::
      |OneMachine(arr, n, bump)[j]| == 4096 && OneMachine(arr, n, bump)[j][i] == arr[4096 * j + i] + 6000.0 * d
  {
    var slots := OneMachine(arr, n, bump);
    forall j, i | 0 <= j < n && 0 <= i < 4096
      ensures |slots[j]| == 4096 && slots[j][i] == arr[4096 * j + i] + 6000.0 * d
    {
      OneEntry(arr, n, bump, d, j, i);
    }
  }

  lemma OneEntry(arr: seq<real>, n: nat, bump: real -> real, d: real, j: nat, i: nat)
    requires |arr| == Base(n) && j < n && i < 4096 && forall y :: bump(y) == y + d
    ensures |OneMachine(arr, n, bump)[j]| == 4096 && OneMachine(arr, n, bump)[j][i] == arr[4096 * j + i] + 6000.0 * d
  {
    EntryAdds(bump, d, arr[4096 * j + i]);
    hide Iterate;
  }

  /** The same array, left by the loop itself. */
  method RunOnOneMachine<T>(
      vec: array<T>, n: nat, bump: T -> T, ghost p: Params<seq<T>>, ghost schedule: seq<Thread>,
      ghost states: seq<Sys<seq<T>>>, ghost s: Sys<seq<T>>)
    requires Reached(p, schedule, states, s) && s.finished == p.n
    requires n == p.n && vec.Length == Base(n) && p.c0 == View(vec[..], n)
    requires forall slot | |slot| == JOB_SIZE :: Protocol.Compute(p, slot) == ComputeSlot(bump, slot)
    modifies vec
    ensures View(vec[..], n) == s.client.arr
  {
    SameAsOneMachine(p, schedule, states, s, vec[..], bump);
    SequentialLoop(vec, n, bump);
  }
}
