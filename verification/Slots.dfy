/**
  The job array of MP4/utils.c as an array in memory: `compute` and `store_local` work in place on the
  4096 entries of one slot.  The addition of the constant, a floating-point operation, is the parameter `bump`.
 */
module Slots {
  const JOB_SIZE := 4096
  const ROUNDS := 6000

  /** Where slot k begins. */
  function Base(k: nat): nat { k * JOB_SIZE }

  /** k applications of f. */
  function Iterate<T>(f: T -> T, k: nat, x: T): T {
    if k == 0 then x else f(Iterate(f, k - 1, x))
  }

  /** What `compute` makes of one slot. */
  function ComputeSlot<T>(bump: T -> T, slot: seq<T>): seq<T> {
    seq(|slot|, i requires 0 <= i < |slot| => Iterate(bump, ROUNDS, slot[i]))
  }

  /** The array seen as n slots. */
  function View<T>(arr: seq<T>, n: nat): (slots: seq<seq<T>>)
    requires |arr| == Base(n)
    ensures |slots| == n && forall k | 0 <= k < n :: |slots[k]| == JOB_SIZE
  {
    seq(n, k requires 0 <= k < n => arr[Base(k)..Base(k + 1)])
  }

  /** The array after one slot has been replaced. */
  function Put<T>(arr: seq<T>, k: nat, slot: seq<T>): (r: seq<T>)
    requires Base(k + 1) <= |arr| && |slot| == JOB_SIZE
    ensures |r| == |arr|
  {
    arr[..Base(k)] + slot + arr[Base(k + 1)..]
  }

  function Get<T>(arr: seq<T>, k: nat): (slot: seq<T>)
    requires Base(k + 1) <= |arr|
    ensures |slot| == JOB_SIZE
  {
    arr[Base(k)..Base(k + 1)]
  }

  lemma Replaced<T>(arr: seq<T>, lo: nat, hi: nat, slot: seq<T>, x: nat, y: nat)
    requires lo <= hi <= |arr| && |slot| == hi - lo && x <= y <= |arr|
    ensures var r := arr[..lo] + slot + arr[hi..];
      && |r| == |arr| && r[lo..hi] == slot
      && (y <= lo || hi <= x ==> r[x..y] == arr[x..y])
  {
  }

  /** Replacing a slot is what an update of the sequence of slots says it is: no other slot changes. */
  lemma PutIsUpdate<T>(arr: seq<T>, n: nat, k: nat, slot: seq<T>)
    requires |arr| == Base(n) && k < n && |slot| == JOB_SIZE
    ensures View(Put(arr, k, slot), n) == View(arr, n)[k := slot]
    ensures Get(arr, k) == View(arr, n)[k]
  {
    forall i | 0 <= i < n ensures View(Put(arr, k, slot), n)[i] == View(arr, n)[k := slot][i] {
      SlotsApart(i, k);
      Replaced(arr, Base(k), Base(k + 1), slot, Base(i), Base(i + 1));
    }
  }

  /** Slots of distinct ids are disjoint ranges. */
  lemma SlotsApart(i: nat, k: nat)
    ensures i < k ==> Base(i + 1) <= Base(k)
    ensures k < i ==> Base(k + 1) <= Base(i)
  {
  }

  /** The inner loop of `compute`: one entry is bumped 6000 times. */
  method ComputeEntry<T>(vec: array<T>, i: nat, bump: T -> T)
    requires i < vec.Length
    modifies vec
    ensures vec[..] == old(vec[..])[i := Iterate(bump, 6000, old(vec[i]))]
  {
    ghost var was := vec[..];
    var j := 0;
    while j < ROUNDS
      invariant 0 <= j <= ROUNDS
      invariant vec[..] == was[i := Iterate(bump, j, was[i])]
    {
      vec[i] := bump(vec[i]);
      j := j + 1;
    }
  }

  /** `compute` works through the slot entry by entry and touches nothing else. */
  method Compute<T>(vec: array<T>, jobId: nat, bump: T -> T)
    requires Base(jobId + 1) <= vec.Length
    modifies vec
    ensures vec[..] == Put(old(vec[..]), jobId, ComputeSlot(bump, Get(old(vec[..]), jobId)))
    ensures forall k | 0 <= k < vec.Length ::
      vec[k] == if 4096 * jobId <= k < 4096 * jobId + 4096 then Iterate(bump, 6000, old(vec[k])) else old(vec[k])
  {
    hide Iterate;
    ghost var was := vec[..];
    var i := jobId * JOB_SIZE;
    while i < (jobId + 1) * JOB_SIZE
      invariant Base(jobId) <= i <= Base(jobId + 1)
      invariant forall k | 0 <= k < vec.Length ::
        vec[k] == if Base(jobId) <= k < i then Iterate(bump, ROUNDS, was[k]) else was[k]
    {
      ghost var before := vec[..];
      ComputeEntry(vec, i, bump);
      forall k | 0 <= k < vec.Length && k != i ensures vec[k] == before[k] {
        assert vec[k] == vec[..][k];
      }
      i := i + 1;
    }
  }

  lemma {:induction false} IterateAdds(bump: real -> real, d: real, k: nat, x: real)
    requires forall y :: bump(y) == y + d
    ensures Iterate(bump, k, x) == x + k as real * d
  {
    if k > 0 { IterateAdds(bump, d, k - 1, x); }
  }

  /** Where the constant d is added, `ComputeEntry` leaves its entry at the old value plus 6000 d. */
  lemma EntryAdds(bump: real -> real, d: real, x: real)
    requires forall y :: bump(y) == y + d
    ensures Iterate(bump, 6000, x) == x + 6000.0 * d
  {
    IterateAdds(bump, d, 6000, x);
  }

  /** And `Compute` every one of the 4096 entries of its slot, and no other. */
  lemma ComputeAdds(arr: seq<real>, jobId: nat, bump: real -> real, d: real)
    requires Base(jobId + 1) <= |arr| && forall y :: bump(y) == y + d
    ensures var r := Put(arr, jobId, ComputeSlot(bump, Get(arr, jobId)));
      |r| == |arr| && forall k | 0 <= k < |arr| ::
        r[k] == if 4096 * jobId <= k < 4096 * jobId + 4096 then arr[k] + 6000.0 * d else arr[k]
  {
    forall k | 4096 * jobId <= k < 4096 * jobId + 4096
      ensures ComputeSlot(bump, Get(arr, jobId))[k - 4096 * jobId] == arr[k] + 6000.0 * d
    {
      EntryAdds(bump, d, arr[k]);
    }
  }

  /** `storeLocal` copies a received slot into the array. */
  method StoreLocal<T>(jobArray: array<T>, jobId: nat, data: array<T>)
    requires Base(jobId + 1) <= jobArray.Length && data.Length == JOB_SIZE && data != jobArray
    modifies jobArray
    ensures jobArray[..] == Put(old(jobArray[..]), jobId, data[..])
    ensures forall k | 0 <= k < jobArray.Length ::
      jobArray[k] == if 4096 * jobId <= k < 4096 * jobId + 4096 then data[k - 4096 * jobId] else old(jobArray[k])
  {
    ghost var was := jobArray[..];
    var i := 0;
    while i < JOB_SIZE
      invariant 0 <= i <= JOB_SIZE
      invariant forall k | 0 <= k < jobArray.Length ::
        jobArray[k] == if Base(jobId) <= k < Base(jobId) + i then data[k - Base(jobId)] else was[k]
    {
      jobArray[i + 4096 * jobId] := data[i];
      i := i + 1;
    }
  }

  /** One thread computing every job in turn: the loop the two nodes share out between them. */
  method SequentialLoop<T>(vec: array<T>, n: nat, bump: T -> T)
    requires vec.Length == Base(n)
    modifies vec
    ensures View(vec[..], n) == seq(n, k requires 0 <= k < n => ComputeSlot(bump, View(old(vec[..]), n)[k]))
  {
    ghost var was := View(vec[..], n);
    var id := 0;
    while id < n
      invariant 0 <= id <= n
      invariant |View(vec[..], n)| == n
      invariant forall k | 0 <= k < n :: View(vec[..], n)[k] == if k < id then ComputeSlot(bump, was[k]) else was[k]
    {
      PutIsUpdate(vec[..], n, id, ComputeSlot(bump, Get(vec[..], id)));
      SlotsApart(id + 1, n);
      Compute(vec, id, bump);
      id := id + 1;
    }
  }
}
