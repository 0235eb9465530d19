/** What the dispatcher of MP2 guarantees, which references the scheduler keeps, and when it dereferences null. */
module Dispatching {
  import opened Wrappers
  import opened RateMonotonic

  // ---------- references ----------

  /** The records in memory have distinct addresses, all issued; the running task is listed, and has a process. */
  ghost predicate References(s: Sched) {
    && (forall i, j | 0 <= i < j < |Memory(s)| :: Memory(s)[i].addr != Memory(s)[j].addr)
    && (forall i | 0 <= i < |Memory(s)| :: Memory(s)[i].addr < s.issued)
    && (s.running.Some? ==> exists i | 0 <= i < |s.tasks| :: s.tasks[i].addr == s.running.value && s.tasks[i].process)
  }

  /** The records about to be added have addresses of their own. */
  ghost predicate Apart(s: Sched) {
    && (forall i, j | 0 <= i < j < |s.joining| :: s.joining[i].addr != s.joining[j].addr)
    && (forall r | r in s.joining :: r.addr < s.issued && !Traps(r.processing, r.period))
    && (forall r, i | r in s.joining && 0 <= i < |Memory(s)| :: r.addr != Memory(s)[i].addr)
  }

  /** A record is the same one, whatever its state, release and timer. */
  predicate Same(t: Task, u: Task) {
    && u.addr == t.addr && u.pid == t.pid && u.process == t.process
    && u.period == t.period && u.processing == t.processing
  }

  /** Handlers that keep every record at its place. */
  ghost predicate SameRecords(a: seq<Task>, b: seq<Task>) {
    |a| == |b| && forall i | 0 <= i < |a| :: Same(a[i], b[i])
  }

  /** No record becomes RUNNING. */
  ghost predicate StartsNobody(a: seq<Task>, b: seq<Task>) {
    |a| == |b| && forall i | 0 <= i < |a| && b[i].state == Running :: a[i].state == Running
  }

  /** The list and the freed records stay where they are. */
  ghost predicate InPlace(s: Sched, s': Sched) {
    && SameRecords(s.tasks, s'.tasks) && SameRecords(s.freed, s'.freed)
    && s'.issued == s.issued && s'.joining == s.joining
  }

  /** And nobody gets the processor. */
  ghost predicate Quiet(s: Sched, s': Sched) {
    InPlace(s, s') && s'.running == s.running && StartsNobody(s.tasks, s'.tasks)
  }

  lemma ListDistinct(s: Sched)
    requires References(s)
    ensures forall i, j | 0 <= i < j < |s.tasks| :: s.tasks[i].addr != s.tasks[j].addr
  {
    forall i, j | 0 <= i < j < |s.tasks| ensures s.tasks[i].addr != s.tasks[j].addr {
      MemoryAt(s, i);
      MemoryAt(s, j);
    }
  }

  lemma MemoryAt(s: Sched, i: nat)
    requires i < |Memory(s)|
    ensures Memory(s)[i] == if i < |s.tasks| then s.tasks[i] else s.freed[i - |s.tasks|]
  {
  }

  lemma StoreInPlace(s: Sched, i: nat, t: Task)
    requires i < |Memory(s)| && Same(Memory(s)[i], t) && (t.state == Running ==> Memory(s)[i].state == Running)
    ensures var s' := Store(s, i, t);
      && Quiet(s, s') && s'.callbacks == s.callbacks && s'.yielding == s.yielding && s'.now == s.now
  {
    MemoryAt(s, i);
  }

  lemma GoInPlace(s: Sched, y: Yield, toJiffies: int -> nat)
    requires Go(s, y, toJiffies).Went?
    ensures var s' := Go(s, y, toJiffies).sched; Quiet(s, s') && s'.callbacks == s.callbacks && s'.now == s.now
  {
    hide PlaceOf, Store, NextRelease, Quiet;
    var at := PlaceOf(Memory(s), y.addr);
    if at.Some? {
      StoreInPlace(s, at.value, Yielded(Memory(s)[at.value], y.phase, s.now, toJiffies));
      QuietYielding(s, Store(s, at.value, Yielded(Memory(s)[at.value], y.phase, s.now, toJiffies)),
                    Go(s, y, toJiffies).sched);
    } else {
      QuietYielding(s, s, s);
    }
  }

  lemma QuietYielding(s: Sched, m: Sched, s': Sched)
    requires Quiet(s, m) || m == s
    requires s' == m.(yielding := s'.yielding, callbacks := s'.callbacks, now := s'.now)
    ensures Quiet(s, s')
  {
  }

  lemma ExpireInPlace(s: Sched, i: nat)
    requires i < |Memory(s)|
    ensures var s' := Expire(s, i);
      && Quiet(s, s') && s'.callbacks == s.callbacks + multiset{Memory(s)[i].pid}
      && s'.yielding == s.yielding && s'.now == s.now
  {
    hide Store, Quiet;
    StoreInPlace(s, i, Memory(s)[i].(timer := None));
    QuietYielding(s, Store(s, i, Memory(s)[i].(timer := None)), Expire(s, i));
  }

  lemma CallbackInPlace(s: Sched, pid: int)
    requires Callback(s, pid).Went?
    ensures var s' := Callback(s, pid).sched;
      Quiet(s, s') && s'.callbacks == s.callbacks - multiset{pid} && s'.yielding == s.yielding && s'.now == s.now
  {
    hide Lookup;
  }

  lemma PassInPlace(s: Sched)
    ensures InPlace(s, Pass(s)) && Pass(s).callbacks == s.callbacks
    ensures Pass(s).yielding == s.yielding && Pass(s).now == s.now
  {
    hide Pick, PeriodAt, Preempts;
  }

  lemma FindInPlace(s: Sched, pid: int)
    requires Find(s, pid).Went?
    ensures var s' := Find(s, pid).sched; Quiet(s, s') && s'.callbacks == s.callbacks && s'.now == s.now
  {
    hide Lookup;
  }

  /** Every event except those of a registration and a de-registration leaves the records at their places. */
  lemma HandleInPlace(s: Sched, e: Event, toJiffies: int -> nat, s': Sched)
    requires Handle(s, e, toJiffies) == Went(s') && !e.Registers? && !e.Inserts? && !e.Deregisters?
    ensures InPlace(s, s') && (!e.Dispatches? ==> Quiet(s, s'))
    ensures s'.callbacks ==
      if e.Expires? && Due(s, e.addr) then s.callbacks + multiset{Memory(s)[PlaceOf(Memory(s), e.addr).value].pid}
      else if e.CallbackRuns? && e.pid in s.callbacks then s.callbacks - multiset{e.pid}
      else s.callbacks
    ensures !e.Finds? && !e.Goes? ==> s'.yielding == s.yielding
    ensures s'.now == if e.TimePasses? then s.now + e.ticks else s.now
  {
    hide Find, Go, Expire, Callback, Pass, Pick, Demotes, PlaceOf, ProcessAt, Quiet, InPlace;
    QuietYielding(s, s, s);
    QuietIsInPlace(s, s');
    match e
    case Finds(pid) => FindInPlace(s, pid);
    case Goes(y) => if y in s.yielding { GoInPlace(s, y, toJiffies); }
    case Expires(addr) => if Due(s, addr) { ExpireInPlace(s, PlaceOf(Memory(s), addr).value); }
    case CallbackRuns(pid) => if pid in s.callbacks { CallbackInPlace(s, pid); }
    case Dispatches => PassInPlace(s);
    case TimePasses(_) => QuietYielding(s, s, s');
  }

  lemma QuietIsInPlace(s: Sched, s': Sched)
    ensures Quiet(s, s') ==> InPlace(s, s')
  {
  }

  // ---------- every step keeps them ----------

  lemma InPlaceApart(s: Sched, s': Sched)
    requires InPlace(s, s')
    ensures |Memory(s)| == |Memory(s')| && forall i | 0 <= i < |Memory(s)| :: Same(Memory(s)[i], Memory(s')[i])
    ensures s'.issued == s.issued && (Apart(s) ==> Apart(s'))
  {
    forall i | 0 <= i < |Memory(s)| ensures Same(Memory(s)[i], Memory(s')[i]) {
      MemoryAt(s, i);
      MemoryAt(s', i);
    }
  }

  lemma InPlaceReferences(s: Sched, s': Sched)
    requires References(s) && InPlace(s, s')
    requires s'.running == s.running ||
      exists i | 0 <= i < |s'.tasks| :: s'.running == Some(s'.tasks[i].addr) && s'.tasks[i].process
    ensures References(s')
  {
    hide InPlace, Memory;
    InPlaceApart(s, s');
    if s'.running != s.running {
      var i :| 0 <= i < |s'.tasks| && s'.running == Some(s'.tasks[i].addr) && s'.tasks[i].process;
    } else if s.running.Some? {
      var i :| 0 <= i < |s.tasks| && s.tasks[i].addr == s.running.value && s.tasks[i].process;
      InPlaceTasks(s, s', i);
    }
  }

  lemma InPlaceTasks(s: Sched, s': Sched, i: nat)
    requires InPlace(s, s') && i < |s.tasks|
    ensures |s'.tasks| == |s.tasks| && Same(s.tasks[i], s'.tasks[i])
  {
  }

  lemma InsertMemory(s: Sched, i: nat)
    requires i < |s.joining|
    ensures Memory(Insert(s, i)) == [Newcomer(s.joining[i])] + Memory(s)
  {
  }

  lemma InsertReferences(s: Sched, i: nat)
    requires References(s) && Apart(s) && i < |s.joining|
    ensures References(Insert(s, i)) && Apart(Insert(s, i))
  {
    hide Memory;
    var s' := Insert(s, i);
    InsertMemory(s, i);
    assert s.joining[i] in s.joining;
    assert forall j | 0 < j < |Memory(s')| :: Memory(s')[j] == Memory(s)[j - 1];
    if s.running.Some? {
      var k :| 0 <= k < |s.tasks| && s.tasks[k].addr == s.running.value && s.tasks[k].process;
      assert s'.tasks[k + 1] == s.tasks[k];
    }
  }

  /** What a registration does up to its admission. */
  lemma RegisterChecks(s: Sched, pid: int, period: int, processing: int, process: bool)
    requires Register(s, pid, period, processing, process).Went?
    ensures var s' := Register(s, pid, period, processing, process).sched;
      && s' == s.(issued := s.issued + 1, joining := s'.joining)
      && (s'.joining == s.joining || s'.joining == s.joining + [Request(s.issued, pid, period, processing, process)])
      && !Traps(processing, period)
  {
    hide Total, Share, Traps;
  }

  lemma RegisterApart(s: Sched, pid: int, period: int, processing: int, process: bool)
    requires References(s) && Apart(s) && Register(s, pid, period, processing, process).Went?
    ensures var s' := Register(s, pid, period, processing, process).sched; References(s') && Apart(s')
  {
    hide Register, Memory, Traps;
    RegisterChecks(s, pid, period, processing, process);
    var s' := Register(s, pid, period, processing, process).sched;
    assert Memory(s') == Memory(s) by { SameMemory(s, s'); }
  }

  lemma SameMemory(s: Sched, s': Sched)
    requires s'.tasks == s.tasks && s'.freed == s.freed
    ensures Memory(s') == Memory(s)
  {
  }

  /** De-registration moves a record behind the others. */
  lemma DeregisterMemory(s: Sched, pid: int, j: nat)
    requires Deregister(s, pid).Went? && j < |Memory(s)|
    ensures var s', i := Deregister(s, pid).sched, Lookup(s.tasks, pid).value;
      && |Memory(s')| == |Memory(s)|
      && Memory(s)[i] == s.tasks[i]
      && Memory(s')[j] ==
         (if j < i then Memory(s)[j]
          else if j < |Memory(s)| - 1 then Memory(s)[j + 1]
          else s.tasks[i].(state := Sleeping, timer := None))
  {
    hide Lookup;
    var s', i := Deregister(s, pid).sched, Lookup(s.tasks, pid).value;
    var rest := Drop(s.tasks, i) + s.freed;
    assert Memory(s') == rest + [s.tasks[i].(state := Sleeping, timer := None)];
    if j < |rest| { assert rest[j] == Memory(s)[if j < i then j else j + 1]; }
  }

  lemma DeregisterReferences(s: Sched, pid: int)
    requires References(s) && Deregister(s, pid).Went?
    ensures References(Deregister(s, pid).sched)
  {
    hide Lookup, Memory, Deregister;
    DeregisterRunning(s, pid);
    var s', i := Deregister(s, pid).sched, Lookup(s.tasks, pid).value;
    forall j | 0 <= j < |Memory(s)|
      ensures |Memory(s')| == |Memory(s)| && Memory(s')[j].addr ==
        Memory(s)[if j < i then j else if j < |Memory(s)| - 1 then j + 1 else i].addr
    {
      DeregisterMemory(s, pid, j);
    }
  }

  lemma DeregisterRunning(s: Sched, pid: int)
    requires References(s) && Deregister(s, pid).Went?
    ensures var s' := Deregister(s, pid).sched;
      && |Memory(s')| == |Memory(s)| && s'.issued == s.issued && s'.joining == s.joining
      && Lookup(s.tasks, pid).Some? && Lookup(s.tasks, pid).value < |Memory(s)|
      && (s'.running.Some? ==>
          exists k | 0 <= k < |s'.tasks| :: s'.tasks[k].addr == s'.running.value && s'.tasks[k].process)
  {
    var i, s' := Lookup(s.tasks, pid).value, Deregister(s, pid).sched;
    if s'.running.Some? {
      var k :| 0 <= k < |s.tasks| && s.tasks[k].addr == s.running.value && s.tasks[k].process;
      assert s'.tasks[if k < i then k else k - 1] == s.tasks[k];
    }
  }

  lemma DeregisterApart(s: Sched, pid: int)
    requires References(s) && Apart(s) && Deregister(s, pid).Went?
    ensures Apart(Deregister(s, pid).sched)
  {
    hide Lookup, Memory, Deregister;
    var s' := Deregister(s, pid).sched;
    DeregisterRunning(s, pid);
    forall r, j | r in s.joining && 0 <= j < |Memory(s')| ensures r.addr != Memory(s')[j].addr {
      DeregisterMemory(s, pid, j);
    }
  }

  lemma DispatchReferences(s: Sched)
    requires References(s) && Dispatch(s).Went?
    ensures References(Pass(s))
  {
    hide Pick, References, PeriodAt, PlaceOf, Preempts;
    var s' := Pass(s);
    if Pick(s.tasks).Some? {
      var i := Pick(s.tasks).value;
      assert s'.running == Some(s'.tasks[i].addr) && s'.tasks[i].process;
    }
    PassInPlace(s);
    InPlaceReferences(s, s');
  }

  lemma HandleReferences(s: Sched, e: Event, toJiffies: int -> nat, s': Sched)
    requires References(s) && Apart(s) && Handle(s, e, toJiffies) == Went(s')
    ensures References(s') && Apart(s')
  {
    hide References, Apart, Register, Insert, Deregister, Find, Go, Expire, Callback, Dispatch;
    hide Lookup, PlaceOf, Due, InPlace, Quiet;
    match e
    case Registers(pid, period, processing, process) => RegisterApart(s, pid, period, processing, process);
    case Inserts(i) => if i < |s.joining| { InsertReferences(s, i); }
    case Deregisters(pid) => DeregisterReferences(s, pid); DeregisterApart(s, pid);
    case Dispatches => DispatchWent(s); DispatchReferences(s); PassInPlace(s); InPlaceApart(s, s');
    case _ =>
      HandleInPlace(s, e, toJiffies, s');
      QuietRunning(s, s');
      InPlaceReferences(s, s');
      InPlaceApart(s, s');
  }

  lemma DispatchWent(s: Sched)
    requires Dispatch(s).Went?
    ensures Dispatch(s).sched == Pass(s)
    ensures Pick(s.tasks).Some? ==> s.tasks[Pick(s.tasks).value].process
  {
  }

  lemma QuietRunning(s: Sched, s': Sched)
    requires Quiet(s, s')
    ensures s'.running == s.running
  {
  }

  /** In every reachable state the addresses of records are distinct, the running task is null or listed and then has
      a process, and no listed task's share is a division that faults. */
  lemma {:induction false} ReferencesHold(
      now: nat, events: seq<Event>, toJiffies: int -> nat, states: seq<Sched>, k: nat)
    requires Execution(now, events, toJiffies, states) && k < |states|
    ensures References(states[k]) && Apart(states[k])
    ensures forall t | t in states[k].tasks :: !Traps(t.processing, t.period)
  {
    hide Handle, References, Apart, Traps;
    if k == 0 {
      assert References(states[0]) && Apart(states[0]) by { NoReferences(now); }
    } else {
      ReferencesHold(now, events, toJiffies, states, k - 1);
      HandleReferences(states[k - 1], events[k - 1], toJiffies, states[k]);
      DivisionsStay(states[k - 1], events[k - 1], toJiffies, states[k]);
    }
  }

  lemma NoReferences(now: nat)
    ensures References(Start(now)) && Apart(Start(now))
  {
  }

  lemma DivisionsStay(s: Sched, e: Event, toJiffies: int -> nat, s': Sched)
    requires Handle(s, e, toJiffies) == Went(s') && Apart(s)
    requires forall t | t in s.tasks :: !Traps(t.processing, t.period)
    ensures forall t | t in s'.tasks :: !Traps(t.processing, t.period)
  {
    hide Traps, Register, Lookup, Memory;
    if e.Registers? {
      RegisterChecks(s, e.pid, e.period, e.processing, e.process);
    } else if e.Inserts? {
      assert e.i < |s.joining| ==> s.joining[e.i] in s.joining;
    } else if !e.Deregisters? {
      hide Handle;
      HandleInPlace(s, e, toJiffies, s');
    }
  }

  // ---------- crashes ----------

  /** A handler crashes exactly on a division that faults, on a command that names a pid no listed task has, at the end
      of a yield whose record was registered without a process, on a callback whose pid no listed task has any more,
      and on a pass that picks a task without a process. */
  lemma CrashesExactly(
      now: nat, events: seq<Event>, toJiffies: int -> nat, states: seq<Sched>, k: nat, e: Event)
    requires Execution(now, events, toJiffies, states) && k < |states|
    ensures var s := states[k];
      Handle(s, e, toJiffies).Crash? <==>
        match e
        case Registers(_, period, processing, _) =>
          period == 0 || (period == -1 && Wrap32(processing * SCALE) == -INT_MAX - 1)
        case Deregisters(pid) => forall t | t in s.tasks :: t.pid != pid
        case Finds(pid) => forall t | t in s.tasks :: t.pid != pid
        case Goes(y) =>
          && y in s.yielding && y.phase == Slept
          && exists i | 0 <= i < |Memory(s)| :: Memory(s)[i].addr == y.addr && !Memory(s)[i].process
        case CallbackRuns(pid) => pid in s.callbacks && forall t | t in s.tasks :: t.pid != pid
        case Dispatches => Pick(s.tasks).Some? && !s.tasks[Pick(s.tasks).value].process
        case _ => false
  {
    hide Total, Share, Pick, PeriodAt, Demotes, Memory, ProcessAt;
    var s := states[k];
    ReferencesHold(now, events, toJiffies, states, k);
    match e
    case Registers(_, _, _, _) =>
    case Deregisters(pid) => KnownPid(s.tasks, pid);
    case Finds(pid) => KnownPid(s.tasks, pid);
    case Goes(y) => GoCrashes(s, y, toJiffies);
    case CallbackRuns(pid) => KnownPid(s.tasks, pid);
    case Dispatches => RunningHasProcess(s);
    case _ =>
  }

  lemma GoCrashes(s: Sched, y: Yield, toJiffies: int -> nat)
    requires References(s)
    ensures Go(s, y, toJiffies).Crash? <==>
      y.phase == Slept && exists i | 0 <= i < |Memory(s)| :: Memory(s)[i].addr == y.addr && !Memory(s)[i].process
  {
    hide Memory, Store, NextRelease;
  }

  lemma RunningHasProcess(s: Sched)
    requires References(s)
    ensures Demotes(s) ==> ProcessAt(s.tasks, s.running.value)
  {
    hide Pick, Preempts;
    if s.running.Some? {
      var i :| 0 <= i < |s.tasks| && s.tasks[i].addr == s.running.value && s.tasks[i].process;
      MemoryAt(s, i);
      var k := PlaceOf(s.tasks, s.running.value);
      if k.Some? { MemoryAt(s, k.value); }
    }
  }

  lemma KnownPid(tasks: seq<Task>, pid: int)
    ensures Lookup(tasks, pid).None? <==> forall t | t in tasks :: t.pid != pid
  {
    var i := Lookup(tasks, pid);
    if i.Some? { assert tasks[i.value] in tasks; }
  }

  // ---------- the choice ----------

  predicate Eligible(t: Task) {
    t.state == Ready && t.period < INT_MAX
  }

  /** The dispatcher picks the first READY task of the smallest period, unless every READY task's period
      is INT_MAX or more. */
  lemma {:induction false} PickIsFirstMinimum(tasks: seq<Task>)
    ensures Pick(tasks).None? <==> forall k | 0 <= k < |tasks| :: !Eligible(tasks[k])
    ensures Pick(tasks).Some? ==>
      var i := Pick(tasks).value;
      && Eligible(tasks[i])
      && (forall k | 0 <= k < |tasks| && Eligible(tasks[k]) :: tasks[i].period <= tasks[k].period)
      && (forall k | 0 <= k < i && Eligible(tasks[k]) :: tasks[i].period < tasks[k].period)
  {
    if tasks != [] {
      var n := |tasks| - 1;
      PickIsFirstMinimum(tasks[..n]);
      assert forall k | 0 <= k < n :: tasks[..n][k] == tasks[k];
      var before := Pick(tasks[..n]);
      if before.Some? { assert Eligible(tasks[before.value]); }
      if Pick(tasks).Some? { assert Eligible(tasks[Pick(tasks).value]); }
    }
  }

  lemma {:induction false} PeriodFound(tasks: seq<Task>, i: nat)
    requires i < |tasks| && forall j, k | 0 <= j < k < |tasks| :: tasks[j].addr != tasks[k].addr
    ensures PeriodAt(tasks, tasks[i].addr) == tasks[i].period
  {
    if i > 0 {
      assert tasks[1..][i - 1] == tasks[i];
      PeriodFound(tasks[1..], i - 1);
    }
  }

  lemma {:induction false} PeriodSame(a: seq<Task>, b: seq<Task>, addr: nat)
    requires SameRecords(a, b)
    ensures PeriodAt(a, addr) == PeriodAt(b, addr)
  {
    if a != [] {
      PeriodSame(a[1..], b[1..], addr);
    }
  }

  /** The states after a pass: the picked task runs, and a preempted task is READY again. */
  lemma PassStates(s: Sched, k: nat)
    requires References(s) && Pick(s.tasks).Some? && k < |s.tasks|
    ensures var i := Pick(s.tasks).value;
      var s' := Pass(s);
      && |s'.tasks| == |s.tasks| && SameRecords(s.tasks, s'.tasks)
      && s'.running == Some(s.tasks[i].addr)
      && s'.tasks[k].state ==
         if k == i then Running
         else if Preempts(s) && s.tasks[k].addr == s.running.value then Ready
         else s.tasks[k].state
  {
    hide Pick, PeriodAt, Preempts;
    ListDistinct(s);
  }

  /** Whoever is READY after a pass, preempted tasks included, has no smaller period than the task picked. */
  lemma ReadyAfterPass(s: Sched, k: nat)
    requires References(s) && Pick(s.tasks).Some? && k < |s.tasks| && s.tasks[k].period <= INT_MAX
    requires Pass(s).tasks[k].state == Ready
    ensures s.tasks[Pick(s.tasks).value].period <= s.tasks[k].period
  {
    hide Pass, Pick, PeriodAt;
    ListDistinct(s);
    PassStates(s, k);
    PickIsFirstMinimum(s.tasks);
    if s.tasks[k].state != Ready {
      PeriodFound(s.tasks, k);
    } else {
      assert Eligible(s.tasks[k]) || s.tasks[k].period == INT_MAX;
    }
  }

  lemma RunningPeriod(s: Sched)
    requires References(s) && Pick(s.tasks).Some?
    ensures Pass(s).running.Some?
    ensures PeriodAt(Pass(s).tasks, Pass(s).running.value) == s.tasks[Pick(s.tasks).value].period
  {
    hide Pass, Pick, PeriodAt, Preempts;
    ListDistinct(s);
    var i := Pick(s.tasks).value;
    PassStates(s, i);
    PeriodFound(s.tasks, i);
    PeriodSame(s.tasks, Pass(s).tasks, s.tasks[i].addr);
  }

  /** The running task's period is the period of some listed task. */
  lemma RunningListed(s: Sched)
    requires References(s) && s.running.Some? && forall t | t in s.tasks :: t.period <= INT_MAX
    ensures PeriodAt(s.tasks, s.running.value) <= INT_MAX
  {
    hide PeriodAt;
    ListDistinct(s);
    var i :| 0 <= i < |s.tasks| && s.tasks[i].addr == s.running.value;
    PeriodFound(s.tasks, i);
  }

  /** Rate-monotonic dispatch.  After a pass a task runs and no READY task has a smaller period, exactly if a task
      ran before, or one is READY with a period below INT_MAX, or none is READY. */
  lemma RateMonotonicDispatch(s: Sched)
    requires References(s) && forall t | t in s.tasks :: t.period <= INT_MAX
    ensures var s' := Pass(s);
      (forall k | 0 <= k < |s'.tasks| && s'.tasks[k].state == Ready ::
         s'.running.Some? && PeriodAt(s'.tasks, s'.running.value) <= s'.tasks[k].period)
      <==>
      || s.running.Some?
      || (exists k | 0 <= k < |s.tasks| :: Eligible(s.tasks[k]))
      || (forall k | 0 <= k < |s.tasks| :: s.tasks[k].state != Ready)
  {
    hide Pick, PeriodAt;
    var s' := Pass(s);
    PickIsFirstMinimum(s.tasks);
    if Pick(s.tasks).Some? {
      hide Dispatch;
      RunningPeriod(s);
      assert Eligible(s.tasks[Pick(s.tasks).value]);
      forall k | 0 <= k < |s'.tasks| && s'.tasks[k].state == Ready
        ensures PeriodAt(s'.tasks, s'.running.value) <= s'.tasks[k].period
      {
        PassStates(s, 0);
        ReadyAfterPass(s, k);
      }
    } else {
      assert s' == s;
      if s.running.Some? { RunningListed(s); }
      assert forall k | 0 <= k < |s.tasks| && s.tasks[k].state == Ready :: !Eligible(s.tasks[k]);
    }
  }

  /** A preempted task has a larger period than its replacement, and a pass right after a pass preempts nobody. */
  lemma PassSettles(s: Sched)
    requires References(s) && forall t | t in s.tasks :: t.period <= INT_MAX
    ensures Preempts(s) ==> PeriodAt(Pass(s).tasks, Pass(s).running.value) < PeriodAt(s.tasks, s.running.value)
    ensures !Preempts(Pass(s))
  {
    var s' := Pass(s);
    if Pick(s.tasks).Some? {
      hide Pass, Pick, PeriodAt;
      RunningPeriod(s);
      PassStates(s, 0);
      PickIsFirstMinimum(s'.tasks);
      if Pick(s'.tasks).Some? { ReadyAfterPass(s, Pick(s'.tasks).value); }
    }
  }

  /** The period INT_MAX is out of the dispatcher's sight: whatever else is on the list, it starts no such task. */
  lemma LongestPeriodStarves(s: Sched, k: nat)
    requires References(s) && k < |s.tasks| && s.tasks[k].period >= INT_MAX && s.tasks[k].state != Running
    ensures Pass(s).tasks[k].state != Running
  {
    hide PeriodAt, Preempts;
    if Pick(s.tasks).Some? {
      PickIsFirstMinimum(s.tasks);
      PassStates(s, k);
      assert Eligible(s.tasks[Pick(s.tasks).value]);
    }
  }

  /** No task of such a period runs. */
  ghost predicate Starved(s: Sched) {
    forall k | 0 <= k < |s.tasks| && s.tasks[k].period >= INT_MAX :: s.tasks[k].state != Running
  }

  lemma InsertStarves(s: Sched, i: nat)
    requires Starved(s) && i < |s.joining|
    ensures Starved(Insert(s, i))
  {
    assert forall k | 0 < k < |Insert(s, i).tasks| :: Insert(s, i).tasks[k] == s.tasks[k - 1];
  }

  lemma DeregisterStarves(s: Sched, pid: int)
    requires Starved(s) && Deregister(s, pid).Went?
    ensures Starved(Deregister(s, pid).sched)
  {
    hide Lookup;
    var i, s' := Lookup(s.tasks, pid).value, Deregister(s, pid).sched;
    assert forall k | 0 <= k < |s'.tasks| :: s'.tasks[k] == s.tasks[if k < i then k else k + 1];
  }

  lemma HandleStarves(s: Sched, e: Event, toJiffies: int -> nat, s': Sched)
    requires References(s) && Starved(s) && Handle(s, e, toJiffies) == Went(s')
    ensures Starved(s')
  {
    hide References, Register, Insert, Deregister, Find, Go, Expire, Callback, Dispatch, Pass, PlaceOf, Due, Lookup;
    if e.Registers? {
      RegisterChecks(s, e.pid, e.period, e.processing, e.process);
    } else if e.Inserts? {
      if e.i < |s.joining| { InsertStarves(s, e.i); }
    } else if e.Deregisters? {
      DeregisterStarves(s, e.pid);
    } else {
      HandleInPlace(s, e, toJiffies, s');
      if e.Dispatches? {
        DispatchWent(s);
        forall k | 0 <= k < |s'.tasks| && s'.tasks[k].period >= INT_MAX ensures s'.tasks[k].state != Running {
          LongestPeriodStarves(s, k);
        }
      }
    }
  }

  /** In no run does a task of period INT_MAX ever get the processor, be it alone. */
  lemma {:induction false} NeverRuns(now: nat, events: seq<Event>, toJiffies: int -> nat, states: seq<Sched>, k: nat)
    requires Execution(now, events, toJiffies, states) && k < |states|
    ensures Starved(states[k])
  {
    hide Handle;
    if k > 0 {
      NeverRuns(now, events, toJiffies, states, k - 1);
      ReferencesHold(now, events, toJiffies, states, k - 1);
      HandleStarves(states[k - 1], events[k - 1], toJiffies, states[k]);
    }
  }

  // ---------- how many tasks are RUNNING ----------

  /** Only the running task is in state RUNNING. */
  ghost predicate Focused(s: Sched) {
    forall t | t in s.tasks && t.state == Running :: s.running == Some(t.addr)
  }

  /** Who is RUNNING after a pass that picks a task: that task, and whoever was RUNNING unless it was preempted. */
  lemma RunningAfterPass(s: Sched, k: nat)
    requires References(s) && Focused(s) && Pick(s.tasks).Some? && k < |s.tasks|
    ensures |Pass(s).tasks| == |s.tasks|
    ensures Pass(s).tasks[k].state == Running <==>
      k == Pick(s.tasks).value || (s.tasks[k].state == Running && !Preempts(s))
  {
    hide Pass, Pick, PeriodAt, Preempts, References;
    PassStates(s, k);
    assert s.tasks[k] in s.tasks;
  }

  lemma FocusedPass(s: Sched)
    requires References(s) && Focused(s) && Pick(s.tasks).Some?
    ensures Focused(Pass(s)) <==> Preempts(s) || forall k | 0 <= k < |s.tasks| :: s.tasks[k].state != Running
  {
    hide Pass, Pick, PeriodAt, Preempts;
    ListDistinct(s);
    PickIsFirstMinimum(s.tasks);
    var i, s' := Pick(s.tasks).value, Pass(s);
    assert Eligible(s.tasks[i]);
    PassStates(s, i);
    forall k | 0 <= k < |s.tasks|
      ensures s'.tasks[k].state == Running <==> k == i || (s.tasks[k].state == Running && !Preempts(s))
    {
      RunningAfterPass(s, k);
    }
    forall k | 0 <= k < |s.tasks| && k != i ensures s'.tasks[k] in s'.tasks && s'.tasks[k].addr != s'.tasks[i].addr {
    }
  }

  /** A pass keeps that exactly when it picks nobody, preempts, or found no task RUNNING: a READY task of the
      same or a larger period is started beside the one that runs. */
  lemma FocusedExactly(s: Sched)
    requires References(s) && Focused(s)
    ensures Focused(Pass(s)) <==>
      Pick(s.tasks).None? || Preempts(s) || forall k | 0 <= k < |s.tasks| :: s.tasks[k].state != Running
  {
    hide Pick, PeriodAt, Preempts, References, Focused;
    if Pick(s.tasks).Some? {
      FocusedPass(s);
    }
  }
}
