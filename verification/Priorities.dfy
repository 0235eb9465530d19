/**
  Which processes of MP2 have real-time priority, over runs: a pass gives it to the process of the task it picks, and
  takes it from the process of the running task if it preempts that task or picks none.  A process is named by the
  pid its task was registered with.
 */
module Priorities {
  import opened Wrappers
  import opened RateMonotonic
  import opened Dispatching

  // ---------- whom a pass demotes ----------

  /** The task at an address is listed at this place. */
  lemma {:induction false} PlaceFound(tasks: seq<Task>, i: nat)
    requires i < |tasks| && forall j, k | 0 <= j < k < |tasks| :: tasks[j].addr != tasks[k].addr
    ensures PlaceOf(tasks, tasks[i].addr) == Some(i)
  {
  }

  /** A pass lowers the running task's process exactly if no task is READY with a period below INT_MAX, or one is with
      a smaller period than the running task's. */
  lemma DemotesExactly(s: Sched, r: nat)
    requires References(s) && r < |s.tasks| && s.running == Some(s.tasks[r].addr)
    ensures Demotes(s) <==>
      || (forall k | 0 <= k < |s.tasks| :: s.tasks[k].state == Ready ==> s.tasks[k].period >= 2147483647)
      || (exists k | 0 <= k < |s.tasks| ::
            s.tasks[k].state == Ready && s.tasks[k].period < 2147483647 && s.tasks[k].period < s.tasks[r].period)
  {
    ListDistinct(s);
    PickIsFirstMinimum(s.tasks);
    PeriodFound(s.tasks, r);
    hide Pick, PeriodAt, References;
    if Pick(s.tasks).Some? { assert Eligible(s.tasks[Pick(s.tasks).value]); }
    assert forall k | 0 <= k < |s.tasks| ::
      Eligible(s.tasks[k]) <==> s.tasks[k].state == Ready && s.tasks[k].period < 2147483647;
  }

  /** A pass dereferences null exactly if a process it changes the priority of is null. */
  lemma PassCrashes(s: Sched)
    requires forall i, j | 0 <= i < j < |s.tasks| :: s.tasks[i].addr != s.tasks[j].addr
    ensures Dispatch(s).Crash? <==> exists k | 0 <= k < |s.tasks| ::
      !s.tasks[k].process && (Pick(s.tasks) == Some(k) || (Demotes(s) && s.running == Some(s.tasks[k].addr)))
  {
    forall k | 0 <= k < |s.tasks| ensures PlaceOf(s.tasks, s.tasks[k].addr) == Some(k) { PlaceFound(s.tasks, k); }
    hide Pick, Demotes, PlaceOf;
    if Demotes(s) && s.running.Some? {
      var i := PlaceOf(s.tasks, s.running.value);
      if i.Some? { assert s.running == Some(s.tasks[i.value].addr); }
    }
    if Pick(s.tasks).Some? { assert Pick(s.tasks) == Some(Pick(s.tasks).value); }
  }

  // ---------- over runs ----------

  /** The event is a pass that raises the process with this pid. */
  ghost predicate Raises(s: Sched, e: Event, pid: int) {
    e.Dispatches? && Pick(s.tasks).Some? && s.tasks[Pick(s.tasks).value].pid == pid
  }

  /** The event is a pass that lowers it: the running task is one of that process. */
  ghost predicate Lowers(s: Sched, e: Event, pid: int) {
    e.Dispatches? && Demotes(s) &&
    exists r | 0 <= r < |s.tasks| :: s.running == Some(s.tasks[r].addr) && s.tasks[r].pid == pid
  }

  /** The process has real-time priority after the first k events. */
  ghost predicate Elevated(events: seq<Event>, states: seq<Sched>, pid: int, k: nat)
    requires k <= |events| < |states|
  {
    && k > 0
    && (|| Raises(states[k - 1], events[k - 1], pid)
        || (Elevated(events, states, pid, k - 1) && !Lowers(states[k - 1], events[k - 1], pid)))
  }

  /** After a pass the running task's process has it exactly if the pass picked a task; otherwise the task goes on
      without it. */
  lemma RunningElevated(now: nat, events: seq<Event>, toJiffies: int -> nat, states: seq<Sched>, k: nat, r: nat)
    requires Execution(now, events, toJiffies, states) && k < |events| && events[k].Dispatches?
    requires r < |states[k + 1].tasks| && states[k + 1].running == Some(states[k + 1].tasks[r].addr)
    ensures Elevated(events, states, states[k + 1].tasks[r].pid, k + 1) <==>
      exists j | 0 <= j < |states[k].tasks| :: Eligible(states[k].tasks[j])
  {
    hide Handle, Pass, Pick, Demotes, Preempts;
    var s, s' := states[k], states[k + 1];
    PassStep(now, events, toJiffies, states, k);
    PickIsFirstMinimum(s.tasks);
    PassRecords(s);
    DemotesIf(s);
    if Pick(s.tasks).Some? {
      var i := Pick(s.tasks).value;
      assert Eligible(s.tasks[i]);
      assert s'.tasks[r].addr == s.tasks[r].addr == s.tasks[i].addr;
      assert Raises(s, events[k], s.tasks[i].pid);
    } else {
      assert s.running == Some(s.tasks[r].addr);
      assert Lowers(s, events[k], s.tasks[r].pid);
    }
  }

  /** No task of a process is listed from position i on, up to position k. */
  ghost predicate Unlisted(states: seq<Sched>, pid: int, i: nat, k: nat)
    requires k <= |states|
  {
    forall l {:trigger states[l]} | i <= l < k :: forall t | t in states[l].tasks :: t.pid != pid
  }

  /** A de-registration lowers nobody: a process that has the priority when its last task leaves the list has it as
      long as no other task of the process is registered. */
  lemma {:induction false} LeaverStaysElevated(
      now: nat, events: seq<Event>, toJiffies: int -> nat, states: seq<Sched>, pid: int, i: nat, k: nat)
    requires Execution(now, events, toJiffies, states) && i < k <= |events| && events[i] == Deregisters(pid)
    requires Elevated(events, states, pid, i) && Unlisted(states, pid, i + 1, k)
    ensures Elevated(events, states, pid, k)
  {
    hide Handle;
    if k > i + 1 {
      LeaverStaysElevated(now, events, toJiffies, states, pid, i, k - 1);
      var s := states[k - 1];
      assert forall r | 0 <= r < |s.tasks| :: s.tasks[r] in s.tasks;
    }
  }

  // ---------- one at a time ----------

  /** Among the listed tasks only the running one's process has the priority. */
  ghost predicate Sole(events: seq<Event>, states: seq<Sched>, k: nat)
    requires k <= |events| < |states|
  {
    forall j | 0 <= j < |states[k].tasks| && Elevated(events, states, states[k].tasks[j].pid, k) ::
      states[k].running == Some(states[k].tasks[j].addr)
  }

  /** With unique pids a pass keeps that exactly if it picks nobody, preempts, or nobody but the task it picks had the
      priority: a READY task of the same or a larger period than the running one's is raised beside it. */
  lemma SoleExactly(now: nat, events: seq<Event>, toJiffies: int -> nat, states: seq<Sched>, k: nat)
    requires Execution(now, events, toJiffies, states) && k < |events| && events[k].Dispatches?
    requires Sole(events, states, k)
    requires forall i, j | 0 <= i < j < |states[k].tasks| :: states[k].tasks[i].pid != states[k].tasks[j].pid
    ensures Sole(events, states, k + 1) <==>
      var s := states[k];
      || Pick(s.tasks).None? || Preempts(s)
      || forall j | 0 <= j < |s.tasks| && Elevated(events, states, s.tasks[j].pid, k) :: Pick(s.tasks) == Some(j)
  {
    hide Handle, Preempts, Elevated, Pass, Pick, Demotes, Sole, OnlyRunning, Marks;
    var s, s' := states[k], states[k + 1];
    PassStep(now, events, toJiffies, states, k);
    PassRecords(s);
    DemotesIf(s);
    OldAndNew(events, states, k);
    var e, e' := Marks(events, states, s.tasks, k), Marks(events, states, s.tasks, k + 1);
    forall j | 0 <= j < |s.tasks|
      ensures e'[j] <==> Pick(s.tasks) == Some(j) || (e[j] && !(Demotes(s) && s.running == Some(s.tasks[j].addr)))
    {
      MarksNext(events, states, k, j);
    }
    SoleCases(s, e, e', s'.running);
    OldMarks(events, states, k);
  }

  lemma PassStep(now: nat, events: seq<Event>, toJiffies: int -> nat, states: seq<Sched>, k: nat)
    requires Execution(now, events, toJiffies, states) && k < |events| && events[k].Dispatches?
    ensures states[k + 1] == Pass(states[k])
    ensures forall i, j | 0 <= i < j < |states[k].tasks| :: states[k].tasks[i].addr != states[k].tasks[j].addr
  {
    ReferencesHold(now, events, toJiffies, states, k);
    assert Handle(states[k], events[k], toJiffies) == Went(states[k + 1]);
    DispatchWent(states[k]);
    ListDistinct(states[k]);
  }

  lemma OldMarks(events: seq<Event>, states: seq<Sched>, k: nat)
    requires k < |events| < |states|
    ensures var tasks := states[k].tasks;
      (forall j | 0 <= j < |tasks| && Marks(events, states, tasks, k)[j] :: Pick(tasks) == Some(j)) <==>
      forall j | 0 <= j < |tasks| && Elevated(events, states, tasks[j].pid, k) :: Pick(tasks) == Some(j)
  {
    hide Elevated, Marks, Pick;
    forall j | 0 <= j < |states[k].tasks|
      ensures Marks(events, states, states[k].tasks, k)[j] <==> Elevated(events, states, states[k].tasks[j].pid, k)
    {
      MarkAt(events, states, states[k].tasks, k, j);
    }
  }

  /** What the marks say of the states before and after the pass. */
  lemma OldAndNew(events: seq<Event>, states: seq<Sched>, k: nat)
    requires k < |events| < |states| && states[k + 1] == Pass(states[k])
    ensures var s, s' := states[k], states[k + 1];
      && (Sole(events, states, k) <==> OnlyRunning(s.tasks, Marks(events, states, s.tasks, k), s.running))
      && (Sole(events, states, k + 1) <==> OnlyRunning(s.tasks, Marks(events, states, s.tasks, k + 1), s'.running))
  {
    hide Pass, Pick, Elevated, Marks, Sole, OnlyRunning;
    PassRecords(states[k]);
    SoleIs(events, states, k, states[k].tasks);
    SoleIs(events, states, k + 1, states[k].tasks);
  }

  lemma MarksNext(events: seq<Event>, states: seq<Sched>, k: nat, j: nat)
    requires k < |events| < |states| && events[k].Dispatches? && j < |states[k].tasks|
    requires forall i, j | 0 <= i < j < |states[k].tasks| :: states[k].tasks[i].pid != states[k].tasks[j].pid
    ensures var s := states[k];
      && (Marks(events, states, s.tasks, k + 1)[j] <==>
            Pick(s.tasks) == Some(j) ||
            (Marks(events, states, s.tasks, k)[j] && !(Demotes(s) && s.running == Some(s.tasks[j].addr))))
      && (Marks(events, states, s.tasks, k)[j] <==> Elevated(events, states, s.tasks[j].pid, k))
  {
    hide Elevated, Marks, Pick, Demotes;
    ElevatedNext(events, states, k, j);
    MarkAt(events, states, states[k].tasks, k, j);
    MarkAt(events, states, states[k].tasks, k + 1, j);
  }

  /** Which of these tasks' processes have the priority. */
  ghost function Marks(events: seq<Event>, states: seq<Sched>, tasks: seq<Task>, k: nat): (marks: seq<bool>)
    requires k <= |events| < |states|
    ensures |marks| == |tasks|
  {
    seq(|tasks|, j requires 0 <= j < |tasks| => Elevated(events, states, tasks[j].pid, k))
  }

  lemma MarkAt(events: seq<Event>, states: seq<Sched>, tasks: seq<Task>, k: nat, j: nat)
    requires k <= |events| < |states| && j < |tasks|
    ensures Marks(events, states, tasks, k)[j] <==> Elevated(events, states, tasks[j].pid, k)
  {
    hide Elevated;
  }

  lemma SoleIs(events: seq<Event>, states: seq<Sched>, k: nat, tasks: seq<Task>)
    requires k <= |events| < |states| && |tasks| == |states[k].tasks|
    requires forall j | 0 <= j < |tasks| :: Same(tasks[j], states[k].tasks[j])
    ensures Sole(events, states, k) <==> OnlyRunning(tasks, Marks(events, states, tasks, k), states[k].running)
  {
    hide Elevated;
    if OnlyRunning(tasks, Marks(events, states, tasks, k), states[k].running) {
      forall j | 0 <= j < |tasks| && Elevated(events, states, states[k].tasks[j].pid, k)
        ensures states[k].running == Some(states[k].tasks[j].addr)
      {
        assert Marks(events, states, tasks, k)[j];
      }
    }
  }

  /** Among these tasks only the running one is marked. */
  ghost predicate OnlyRunning(tasks: seq<Task>, marks: seq<bool>, running: Option<nat>)
    requires |marks| == |tasks|
  {
    forall j | 0 <= j < |tasks| && marks[j] :: running == Some(tasks[j].addr)
  }

  lemma SoleCases(s: Sched, e: seq<bool>, e': seq<bool>, running: Option<nat>)
    requires |e| == |e'| == |s.tasks| && OnlyRunning(s.tasks, e, s.running)
    requires forall i, j | 0 <= i < j < |s.tasks| :: s.tasks[i].addr != s.tasks[j].addr
    requires Demotes(s) <==> s.running.Some? && (Pick(s.tasks).None? || Preempts(s))
    requires forall j | 0 <= j < |s.tasks| ::
      e'[j] <==> Pick(s.tasks) == Some(j) || (e[j] && !(Demotes(s) && s.running == Some(s.tasks[j].addr)))
    requires running == if Pick(s.tasks).Some? then Some(s.tasks[Pick(s.tasks).value].addr) else s.running
    ensures OnlyRunning(s.tasks, e', running) <==>
      Pick(s.tasks).None? || Preempts(s) || forall j | 0 <= j < |s.tasks| && e[j] :: Pick(s.tasks) == Some(j)
  {
    hide Pick, Preempts, Demotes;
  }

  lemma DemotesIf(s: Sched)
    ensures Demotes(s) <==> s.running.Some? && (Pick(s.tasks).None? || Preempts(s))
  {
  }

  lemma PassRecords(s: Sched)
    ensures |Pass(s).tasks| == |s.tasks| && forall j | 0 <= j < |s.tasks| :: Same(s.tasks[j], Pass(s).tasks[j])
    ensures Pass(s).running == if Pick(s.tasks).Some? then Some(s.tasks[Pick(s.tasks).value].addr) else s.running
  {
    PassInPlace(s);
    hide Pick, Preempts;
  }

  lemma ElevatedNext(events: seq<Event>, states: seq<Sched>, k: nat, j: nat)
    requires k < |events| < |states| && events[k].Dispatches? && j < |states[k].tasks|
    requires forall i, j | 0 <= i < j < |states[k].tasks| :: states[k].tasks[i].pid != states[k].tasks[j].pid
    ensures var s := states[k];
      Elevated(events, states, s.tasks[j].pid, k + 1) <==>
        Pick(s.tasks) == Some(j) ||
        (Elevated(events, states, s.tasks[j].pid, k) && !(Demotes(s) && s.running == Some(s.tasks[j].addr)))
  {
    hide Pick, Demotes;
  }
}
