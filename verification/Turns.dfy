/** Who has the processor in MP2: what a pass does to every record, and which task is the running one, over runs. */
module Turns {
  import opened Wrappers
  import opened RateMonotonic
  import opened Dispatching

  // ---------- one pass ----------

  /** The state a pass that picks the task i leaves task k in. */
  ghost function StateAfter(s: Sched, i: nat, k: nat): TaskState
    requires i < |s.tasks| && k < |s.tasks|
  {
    if k == i then Running
    else if s.running == Some(s.tasks[k].addr) && s.tasks[i].period < s.tasks[k].period then Ready
    else s.tasks[k].state
  }

  /** A pass that picks a task makes that task RUNNING and the running one, makes the task that was the running one
      READY exactly if its period is larger, and changes nothing else; any other pass changes nothing. */
  lemma PassExactly(now: nat, events: seq<Event>, toJiffies: int -> nat, states: seq<Sched>, l: nat)
    requires Execution(now, events, toJiffies, states) && l < |events| && events[l].Dispatches?
    ensures var s, s' := states[l], states[l + 1];
      match Pick(s.tasks)
      case None => s' == s
      case Some(i) =>
        && s' == s.(running := Some(s.tasks[i].addr), tasks := s'.tasks) && |s'.tasks| == |s.tasks|
        && forall k | 0 <= k < |s.tasks| :: s'.tasks[k] == s.tasks[k].(state := StateAfter(s, i, k))
  {
    hide Pick, References, Apart, ProcessAt, Demotes;
    var s := states[l];
    ReferencesHold(now, events, toJiffies, states, l);
    assert Handle(s, events[l], toJiffies) == Went(states[l + 1]);
    DispatchWent(s);
    hide Handle, Dispatch;
    if Pick(s.tasks).Some? {
      hide Pass;
      var i := Pick(s.tasks).value;
      forall k | 0 <= k < |s.tasks| ensures Pass(s).tasks[k] == s.tasks[k].(state := StateAfter(s, i, k)) {
        OneState(s, k);
      }
      PassFields(s);
    }
  }

  lemma PassFields(s: Sched)
    requires Pick(s.tasks).Some?
    ensures Pass(s) == s.(running := Some(s.tasks[Pick(s.tasks).value].addr), tasks := Pass(s).tasks)
    ensures |Pass(s).tasks| == |s.tasks|
  {
    hide Pick, Preempts;
  }

  lemma OnlyStates(s: Sched, k: nat)
    requires Pick(s.tasks).Some? && k < |s.tasks|
    ensures |Pass(s).tasks| == |s.tasks| && Pass(s).tasks[k] == s.tasks[k].(state := Pass(s).tasks[k].state)
  {
    hide Pick, Preempts;
  }

  lemma OneState(s: Sched, k: nat)
    requires References(s) && Pick(s.tasks).Some? && k < |s.tasks|
    ensures |Pass(s).tasks| == |s.tasks|
    ensures Pass(s).tasks[k] == s.tasks[k].(state := StateAfter(s, Pick(s.tasks).value, k))
  {
    ListDistinct(s);
    PassStates(s, k);
    OnlyStates(s, k);
    hide Pick, PeriodAt, Pass, References;
    if s.running == Some(s.tasks[k].addr) { PeriodFound(s.tasks, k); }
  }

  // ---------- the running task ----------

  /** The event is a pass that picks the task at an address. */
  ghost predicate Starts(s: Sched, e: Event, addr: nat) {
    e.Dispatches? && Pick(s.tasks).Some? && s.tasks[Pick(s.tasks).value].addr == addr
  }

  /** The event takes the processor from the running task: a pass that picks some task, or the de-registration of the
      task. */
  ghost predicate Displaces(s: Sched, e: Event, addr: nat) {
    || (e.Dispatches? && Pick(s.tasks).Some?)
    || (e.Deregisters? && exists i | 0 <= i < |s.tasks| ::
          s.tasks[i].addr == addr && s.tasks[i].pid == e.pid && forall k | 0 <= k < i :: s.tasks[k].pid != e.pid)
  }

  lemma HandleRunning(s: Sched, e: Event, toJiffies: int -> nat, s': Sched, addr: nat)
    requires References(s) && Handle(s, e, toJiffies) == Went(s')
    ensures s'.running == Some(addr) <==> Starts(s, e, addr) || (s.running == Some(addr) && !Displaces(s, e, addr))
  {
    hide References, Register, Find, Go, Expire, Callback, Pick, Preempts, Due, PlaceOf, Demotes, ProcessAt;
    match e
    case Registers(pid, period, processing, process) => RegisterChecks(s, pid, period, processing, process);
    case Inserts(_) =>
    case Deregisters(pid) => hide Handle; DeregisterRuns(s, e, toJiffies, s', addr);
    case Dispatches =>
    case _ =>
      HandleInPlace(s, e, toJiffies, s');
      QuietRunning(s, s');
  }

  lemma DeregisterRuns(s: Sched, e: Event, toJiffies: int -> nat, s': Sched, addr: nat)
    requires References(s) && e.Deregisters? && Handle(s, e, toJiffies) == Went(s')
    ensures s'.running == Some(addr) <==> s.running == Some(addr) && !Displaces(s, e, addr)
  {
    ListDistinct(s);
    var i := Lookup(s.tasks, e.pid).value;
    hide Lookup, References, Pick;
  }

  /** From the pass at position i to position k the task keeps the processor. */
  ghost predicate Keeps(events: seq<Event>, states: seq<Sched>, addr: nat, i: nat, k: nat)
    requires k <= |events| < |states|
  {
    forall l {:trigger events[l]} | i < l < k :: !Displaces(states[l], events[l], addr)
  }

  /** Some pass before position k started the task, and it has kept the processor since. */
  ghost predicate Started(events: seq<Event>, states: seq<Sched>, addr: nat, k: nat)
    requires k <= |events| < |states|
  {
    exists i {:trigger events[i]} | 0 <= i < k ::
      Starts(states[i], events[i], addr) && Keeps(events, states, addr, i, k)
  }

  lemma StartedNext(events: seq<Event>, states: seq<Sched>, addr: nat, k: nat)
    requires 0 < k <= |events| < |states|
    ensures Started(events, states, addr, k) <==>
      || Starts(states[k - 1], events[k - 1], addr)
      || (Started(events, states, addr, k - 1) && !Displaces(states[k - 1], events[k - 1], addr))
  {
    hide Starts, Displaces;
    if Starts(states[k - 1], events[k - 1], addr) {
      assert Keeps(events, states, addr, k - 1, k);
    } else if Started(events, states, addr, k - 1) && !Displaces(states[k - 1], events[k - 1], addr) {
      var i :| 0 <= i < k - 1 && Starts(states[i], events[i], addr) && Keeps(events, states, addr, i, k - 1);
      assert Keeps(events, states, addr, i, k);
    }
    if Started(events, states, addr, k) && !Starts(states[k - 1], events[k - 1], addr) {
      var i :| 0 <= i < k && Starts(states[i], events[i], addr) && Keeps(events, states, addr, i, k);
      assert Keeps(events, states, addr, i, k - 1);
      assert !Displaces(states[k - 1], events[k - 1], addr);
    }
  }

  /** The running task is the one that the last pass that picked a task has picked, unless that task has been
      de-registered since. */
  lemma {:induction false} RunningExactly(
      now: nat, events: seq<Event>, toJiffies: int -> nat, states: seq<Sched>, addr: nat, k: nat)
    requires Execution(now, events, toJiffies, states) && k < |states|
    ensures states[k].running == Some(addr) <==> Started(events, states, addr, k)
  {
    hide Handle, References, Apart, Starts, Displaces, Keeps;
    if k > 0 {
      RunningExactly(now, events, toJiffies, states, addr, k - 1);
      ReferencesHold(now, events, toJiffies, states, k - 1);
      StartedNext(events, states, addr, k);
      HandleRunning(states[k - 1], events[k - 1], toJiffies, states[k], addr);
    }
  }

  // ---------- timers ----------

  /** The timer of a record expires only when its deadline has come; then it is disarmed, and one callback for the
      record's pid is started. */
  lemma ExpiresExactly(s: Sched, addr: nat, toJiffies: int -> nat, i: nat)
    requires References(s) && i < |Memory(s)| && Memory(s)[i].addr == addr
    ensures var t, o := Memory(s)[i], Handle(s, Expires(addr), toJiffies);
      && o.Went?
      && if t.timer.Some? && t.timer.value <= s.now then
           && o.sched.callbacks == s.callbacks + multiset{t.pid}
           && Memory(o.sched) == Memory(s)[i := t.(timer := None)]
         else o.sched == s
  {
    hide References;
    assert PlaceOf(Memory(s), addr) == Some(i) by { AddressAt(s, i); }
    hide PlaceOf;
    MemoryStored(s, i, Memory(s)[i].(timer := None));
  }

  lemma AddressAt(s: Sched, i: nat)
    requires References(s) && i < |Memory(s)|
    ensures PlaceOf(Memory(s), Memory(s)[i].addr) == Some(i)
  {
    var j := PlaceOf(Memory(s), Memory(s)[i].addr);
    hide Memory, PlaceOf;
  }

  lemma MemoryStored(s: Sched, i: nat, t: Task)
    requires i < |Memory(s)|
    ensures Memory(Store(s, i, t)) == Memory(s)[i := t]
  {
  }
}
