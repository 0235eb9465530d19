/** When the sampler of MP3 runs: exactly which steps put it to sleep while somebody is registered, and which step
    makes it sample nobody.  Registration looks at the list before it takes the lock and unregistration after it
    released it, and the work function queues itself without looking. */
module Sampler {
  import opened Wrappers
  import opened Profiler

  // ---------- awake while somebody is registered ----------

  /** While anybody is registered the work is queued or under way. */
  ghost predicate Awake(s: State) {
    s.registered != [] ==> s.pending || !s.work.Rests?
  }

  /** The two steps that put the sampler to sleep: a process that saw the list filled is added after the list was
      emptied and the work is gone, or an unregistration that saw the list empty cancels the queued work after
      somebody was added. */
  ghost predicate Lulls(s: State, e: Event) {
    && s.work.Rests?
    && match e
       case Joins(i) => i < |s.joining| && !s.joining[i].wasEmpty && s.registered == [] && !s.pending
       case Cancels(i) => i < |s.leaving| && s.leaving[i] == Cancelling && s.registered != []
       case _ => false
  }

  lemma LullsExactly(s: State, e: Event, toMsecs: nat -> nat, s': State)
    requires Awake(s) && Step(s, e, toMsecs) == Went(s')
    ensures Awake(s') <==> !Lulls(s, e)
  {
    hide Find, Collected, Drop;
  }

  /** In any run the sampler is awake all the time exactly if none of those two steps is made. */
  lemma {:induction false} SamplerAwake(
      processes: seq<Process>, events: seq<Event>, toMsecs: nat -> nat, states: seq<State>, n: nat)
    requires Execution(processes, events, toMsecs, states) && n <= |events|
    ensures (forall k {:trigger states[k]} | 0 <= k <= n :: Awake(states[k])) <==>
      (forall k {:trigger events[k]} | 0 <= k < n :: !Lulls(states[k], events[k]))
  {
    hide Step, Lulls, Awake;
    if n == 0 {
      assert Awake(states[0]) by { StartsAwake(processes); }
    } else {
      SamplerAwake(processes, events, toMsecs, states, n - 1);
      if Awake(states[n - 1]) { LullsExactly(states[n - 1], events[n - 1], toMsecs, states[n]); }
    }
  }

  lemma StartsAwake(processes: seq<Process>)
    ensures Awake(Init(processes))
  {
  }

  /** A sampler asleep stays asleep until the list is empty again, or a process is added that saw it empty; and
      no sample is written meanwhile. */
  lemma SleepsOn(s: State, e: Event, toMsecs: nat -> nat, s': State)
    requires !Awake(s) && Step(s, e, toMsecs) == Went(s')
    ensures Awake(s') <==> s'.registered == [] || (e.Joins? && e.i < |s.joining| && s.joining[e.i].wasEmpty)
    ensures s'.buffer == s.buffer && s'.ptr == s.ptr
  {
    hide Find, Collected, Drop;
  }

  // ---------- handlers one at a time ----------

  ghost predicate OneAtATime(s: State) {
    |s.joining| + |s.leaving| <= 1
  }

  /** What the handlers in flight saw is still so. */
  ghost predicate Fresh(s: State) {
    && (forall i | 0 <= i < |s.joining| :: s.joining[i].wasEmpty == (s.registered == []))
    && (Cancelling in s.leaving ==> s.registered == [])
  }

  lemma StepFresh(s: State, e: Event, toMsecs: nat -> nat, s': State)
    requires OneAtATime(s) && OneAtATime(s') && Fresh(s) && Step(s, e, toMsecs) == Went(s')
    ensures Fresh(s') && !Lulls(s, e)
  {
    hide Find, Collected;
  }

  lemma StartsFresh(processes: seq<Process>)
    ensures Fresh(Init(processes))
  {
  }

  /** Without overlapping handlers the sampler is always awake. */
  lemma {:induction false} HandlersApart(
      processes: seq<Process>, events: seq<Event>, toMsecs: nat -> nat, states: seq<State>, n: nat)
    requires Execution(processes, events, toMsecs, states) && n <= |events|
    requires forall k {:trigger states[k]} | 0 <= k <= n :: OneAtATime(states[k])
    ensures Fresh(states[n]) && Awake(states[n])
  {
    hide Step, Lulls, Awake, Fresh, OneAtATime;
    if n == 0 {
      StartsAwake(processes);
      StartsFresh(processes);
    } else {
      HandlersApart(processes, events, toMsecs, states, n - 1);
      StepFresh(states[n - 1], events[n - 1], toMsecs, states[n]);
      LullsExactly(states[n - 1], events[n - 1], toMsecs, states[n]);
    }
  }

  // ---------- sampling nobody ----------

  /** The work is queued, nobody is registered, and nobody is about to cancel it. */
  ghost predicate Idle(s: State) {
    s.pending && s.registered == [] && s.leaving == []
  }

  /** The work function queues itself after the last one left and was done with cancelling. */
  ghost predicate Outlives(s: State, e: Event) {
    e.Requeues? && s.work.Wrote? && s.registered == [] && s.leaving == []
  }

  lemma IdleExactly(s: State, e: Event, toMsecs: nat -> nat, s': State)
    requires !Idle(s) && Step(s, e, toMsecs) == Went(s')
    ensures Idle(s') <==> Outlives(s, e)
  {
    hide Find, Collected;
  }

  /** In any run the queued work has somebody to sample, or somebody who will cancel it, exactly if the work
      function never queues itself with nobody left. */
  lemma {:induction false} SamplesSomebody(
      processes: seq<Process>, events: seq<Event>, toMsecs: nat -> nat, states: seq<State>, n: nat)
    requires Execution(processes, events, toMsecs, states) && n <= |events|
    ensures (forall k {:trigger states[k]} | 0 <= k <= n :: !Idle(states[k])) <==>
      (forall k {:trigger events[k]} | 0 <= k < n :: !Outlives(states[k], events[k]))
  {
    hide Step, Idle, Outlives;
    if n == 0 {
      assert !Idle(states[0]) by { StartsBusy(processes); }
    } else {
      SamplesSomebody(processes, events, toMsecs, states, n - 1);
      if !Idle(states[n - 1]) { IdleExactly(states[n - 1], events[n - 1], toMsecs, states[n]); }
    }
  }

  lemma StartsBusy(processes: seq<Process>)
    ensures !Idle(Init(processes))
  {
  }

  // ---------- runs that fail ----------

  /** A state of a machine without processes, before the first sample is written. */
  function At(registered: seq<int>, joining: seq<Join>, leaving: seq<Leave>, pending: bool, work: Work): State {
    Init([]).(registered := registered, joining := joining, leaving := leaving, pending := pending, work := work)
  }

  lemma Entered(pid: int, registered: seq<int>, leaving: seq<Leave>, pending: bool, work: Work, toMsecs: nat -> nat)
    ensures Step(At(registered, [], leaving, pending, work), Enters(pid), toMsecs)
      == Went(At(registered, [Join(pid, registered == [])], leaving, pending, work))
  {
    hide Init;
  }

  lemma Joined(j: Join, leaving: seq<Leave>, pending: bool, work: Work, toMsecs: nat -> nat)
    ensures Step(At([], [j], leaving, pending, work), Joins(0), toMsecs)
      == Went(At([j.pid], [], leaving, pending || j.wasEmpty, work))
  {
    hide Init;
  }

  /** The only process leaves, up to its cancelling of the work. */
  lemma LastLeft(pid: int, joining: seq<Join>, pending: bool, work: Work, toMsecs: nat -> nat)
    ensures Step(At([pid], joining, [], pending, work), Leaves(pid), toMsecs)
      == Went(At([], joining, [Looking], pending, work))
    ensures Step(At([], joining, [Looking], pending, work), Looks(0), toMsecs)
      == Went(At([], joining, [Cancelling], pending, work))
  {
    hide Init;
    assert IndexOf([pid], pid) == Some(0) && Drop([pid], 0) == [];
    assert [Looking][0 := Cancelling] == [Cancelling];
  }

  lemma Cancelled(registered: seq<int>, joining: seq<Join>, pending: bool, work: Work, toMsecs: nat -> nat)
    ensures Step(At(registered, joining, [Cancelling], pending, work), Cancels(0), toMsecs)
      == Went(At(registered, joining, [], false, work))
  {
    hide Init;
  }

  /** Process 2 looks while process 1 is still on the list, process 1 leaves and cancels the work, and process 2
      is added: registered, and never sampled. */
  lemma JoinsAsleep(toMsecs: nat -> nat) returns (states: seq<State>)
    ensures Execution([], [Enters(1), Joins(0), Enters(2), Leaves(1), Looks(0), Cancels(0), Joins(0)], toMsecs, states)
    ensures states[7].registered == [2] && !Awake(states[7])
  {
    hide Step, Init;
    states := [
      At([], [], [], false, Rests), At([], [Join(1, true)], [], false, Rests), At([1], [], [], true, Rests),
      At([1], [Join(2, false)], [], true, Rests), At([], [Join(2, false)], [Looking], true, Rests),
      At([], [Join(2, false)], [Cancelling], true, Rests), At([], [Join(2, false)], [], false, Rests),
      At([2], [], [], false, Rests)];
    assert Init([]) == At([], [], [], false, Rests) by { Start(); }
    Entered(1, [], [], false, Rests, toMsecs);
    Joined(Join(1, true), [], false, Rests, toMsecs);
    Entered(2, [1], [], true, Rests, toMsecs);
    LastLeft(1, [Join(2, false)], true, Rests, toMsecs);
    Cancelled([], [Join(2, false)], true, Rests, toMsecs);
    Joined(Join(2, false), [], false, Rests, toMsecs);
  }

  lemma Start()
    ensures Init([]) == At([], [], [], false, Rests)
  {
  }

  /** Process 1 leaves and sees the list empty, process 2 is registered from end to end and queues the work, and
      then process 1 cancels it. */
  lemma CancelledAsleep(toMsecs: nat -> nat) returns (states: seq<State>)
    ensures Execution([], [Enters(1), Joins(0), Leaves(1), Looks(0), Enters(2), Joins(0), Cancels(0)], toMsecs, states)
    ensures states[7].registered == [2] && !Awake(states[7])
  {
    hide Step, Init;
    states := [
      At([], [], [], false, Rests), At([], [Join(1, true)], [], false, Rests), At([1], [], [], true, Rests),
      At([], [], [Looking], true, Rests), At([], [], [Cancelling], true, Rests),
      At([], [Join(2, true)], [Cancelling], true, Rests), At([2], [], [Cancelling], true, Rests),
      At([2], [], [], false, Rests)];
    assert Init([]) == At([], [], [], false, Rests) by { Start(); }
    Entered(1, [], [], false, Rests, toMsecs);
    Joined(Join(1, true), [], false, Rests, toMsecs);
    LastLeft(1, [], true, Rests, toMsecs);
    Entered(2, [], [Cancelling], true, Rests, toMsecs);
    Joined(Join(2, true), [Cancelling], true, Rests, toMsecs);
    Cancelled([2], [], true, Rests, toMsecs);
  }

  /** The work function runs once, from here to where it writes, with nobody alive to read. */
  lemma Sampled(pid: int, toMsecs: nat -> nat)
    ensures Step(At([pid], [], [], true, Rests), Wakes, toMsecs) == Went(At([pid], [], [], false, Begun))
    ensures Step(At([pid], [], [], false, Begun), Collects, toMsecs)
      == Went(At([pid], [], [], false, Read(Sums(0, 0, 0))))
  {
    assert [pid][..0] == [];
    assert Collected([], [pid]) == (Sums(0, 0, 0), []);
  }

  lemma Finished(toMsecs: nat -> nat, s: State)
    requires s == At([], [], [], false, Read(Sums(0, 0, 0)))
    ensures Step(s, Writes(0), toMsecs).Went?
    ensures var next := Step(s, Writes(0), toMsecs).state;
      next.work == Wrote && next.registered == [] && next.leaving == [] && next.joining == []
  {
    hide Written, Words;
  }

  lemma Requeued(s: State, toMsecs: nat -> nat)
    requires s.work == Wrote && s.registered == [] && s.leaving == []
    ensures Step(s, Requeues, toMsecs).Went? && Idle(Step(s, Requeues, toMsecs).state)
    ensures Step(s, Requeues, toMsecs).state.joining == s.joining
  {
  }

  /** The last task leaves while the work function runs: there is nothing to cancel, and the work function queues
      itself again for nobody. */
  lemma SamplesNobody(toMsecs: nat -> nat) returns (states: seq<State>)
    ensures Execution([], [Enters(1), Joins(0), Wakes, Collects, Leaves(1), Looks(0), Cancels(0), Writes(0), Requeues],
                      toMsecs, states)
    ensures Idle(states[9]) && states[9].joining == []
  {
    hide Step, Init, At, Idle;
    var read := Read(Sums(0, 0, 0));
    var s7 := At([], [], [], false, read);
    Finished(toMsecs, s7);
    var s8 := Step(s7, Writes(0), toMsecs).state;
    Requeued(s8, toMsecs);
    states := [
      At([], [], [], false, Rests), At([], [Join(1, true)], [], false, Rests), At([1], [], [], true, Rests),
      At([1], [], [], false, Begun), At([1], [], [], false, read), At([], [], [Looking], false, read),
      At([], [], [Cancelling], false, read), s7, s8, Step(s8, Requeues, toMsecs).state];
    Start();
    Entered(1, [], [], false, Rests, toMsecs);
    Joined(Join(1, true), [], false, Rests, toMsecs);
    Sampled(1, toMsecs);
    LastLeft(1, [], false, read, toMsecs);
    Cancelled([], [], false, read, toMsecs);
  }
}
