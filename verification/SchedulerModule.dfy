/** The scheduler of MP2 in place: records on the heap, handlers that change them, and the loops over the list. */
module SchedulerModule {
  import opened Wrappers
  import opened RateMonotonic
  import opened Dispatching
  import opened Priorities

  /** `mp_task_struct`; `addr` stands for the address of the record, and `process` says that `task` is not null. */
  class MpTask {
    const addr: nat
    const pid: int
    const period: int
    const processing: int
    const process: bool
    var state: TaskState
    var next: nat
    var timer: Option<nat>

    constructor (r: Request)
      ensures Record() == Newcomer(r)
    {
      addr, pid, period, processing, process := r.addr, r.pid, r.period, r.processing, r.process;
      state, next, timer := Sleeping, 0, None;
    }

    ghost function Record(): (t: Task)
      reads this
      ensures t.addr == addr && t.pid == pid && t.period == period && t.processing == processing
      ensures t.process == process && t.state == state && t.next == next && t.timer == timer
    {
      Task(addr, pid, period, processing, process, state, next, timer)
    }
  }

  ghost function Records(tasks: seq<MpTask>): (r: seq<Task>)
    reads tasks
    ensures |r| == |tasks| && forall i | 0 <= i < |tasks| :: r[i] == tasks[i].Record()
  {
    seq(|tasks|, i requires 0 <= i < |tasks| reads tasks => tasks[i].Record())
  }

  ghost predicate Distinct(tasks: seq<MpTask>) {
    forall i, j | 0 <= i < j < |tasks| :: tasks[i].addr != tasks[j].addr
  }

  /** The records about to be added have addresses of their own. */
  ghost predicate Newcomers(joining: seq<Request>, memory: seq<MpTask>, issued: nat) {
    && (forall i, j | 0 <= i < j < |joining| :: joining[i].addr != joining[j].addr)
    && (forall r | r in joining :: r.addr < issued)
    && (forall t | t in memory :: t.addr < issued)
    && (forall r, t | r in joining && t in memory :: r.addr != t.addr)
  }

  lemma NewcomerJoins(joining: seq<Request>, i: nat, task: MpTask, memory: seq<MpTask>, issued: nat)
    requires Newcomers(joining, memory, issued) && Distinct(memory) && i < |joining| && task.addr == joining[i].addr
    ensures Newcomers(Drop(joining, i), [task] + memory, issued) && Distinct([task] + memory)
  {
    assert joining[i] in joining;
  }

  lemma OneMoreNewcomer(joining: seq<Request>, r: Request, memory: seq<MpTask>, issued: nat)
    requires Newcomers(joining, memory, issued) && r.addr == issued
    ensures Newcomers(joining + [r], memory, issued + 1) && Newcomers(joining, memory, issued + 1)
  {
  }

  /** A record taken off the list goes behind the others in memory. */
  lemma Shuffled(joining: seq<Request>, tasks: seq<MpTask>, at: nat, freed: seq<MpTask>, issued: nat)
    requires Newcomers(joining, tasks + freed, issued) && Distinct(tasks + freed) && at < |tasks|
    ensures Newcomers(joining, Drop(tasks, at) + (freed + [tasks[at]]), issued)
    ensures Distinct(Drop(tasks, at) + (freed + [tasks[at]]))
    ensures forall t | t in tasks :: t == tasks[at] || t in Drop(tasks, at)
  {
    var memory, after := tasks + freed, Drop(tasks, at) + (freed + [tasks[at]]);
    var m := |memory| - 1;
    forall i | 0 <= i < |after| ensures after[i] == memory[if i < at then i else if i < m then i + 1 else at] {
    }
    forall t | t in tasks && t != tasks[at] ensures t in Drop(tasks, at) {
      var i :| 0 <= i < |tasks| && tasks[i] == t;
      assert Drop(tasks, at)[if i < at then i else i - 1] == t;
    }
  }

  lemma OneRecord(tasks: seq<MpTask>, freed: seq<MpTask>, at: nat)
    requires Distinct(tasks + freed) && at < |tasks|
    ensures forall k | 0 <= k < |tasks| && k != at :: tasks[k] != tasks[at]
    ensures tasks[at] !in freed && Distinct(tasks)
  {
    var memory := tasks + freed;
    assert forall k | 0 <= k < |tasks| :: memory[k] == tasks[k];
    assert forall k | 0 <= k < |freed| :: memory[|tasks| + k] == freed[k];
  }

  /** The place of a record in memory. */
  lemma PlaceInMemory(s: Sched, tasks: seq<MpTask>, freed: seq<MpTask>, task: MpTask) returns (i: nat)
    requires Distinct(tasks + freed) && task in tasks + freed
    requires s.tasks == Records(tasks) && s.freed == Records(freed)
    ensures At(s, tasks, freed, task, i)
    ensures i < |Memory(s)| && PlaceOf(Memory(s), task.addr) == Some(i) && Memory(s)[i] == task.Record()
  {
    hide Records;
    var memory := tasks + freed;
    i :| 0 <= i < |memory| && memory[i] == task;
    forall k | 0 <= k < |memory| ensures Memory(s)[k] == memory[k].Record() && Memory(s)[k].addr == memory[k].addr {
      MemoryAt(s, k);
    }
    forall k | 0 <= k < |tasks| && k != i ensures tasks[k] != task { assert memory[k] == tasks[k]; }
    forall k | 0 <= k < |freed| && |tasks| + k != i ensures freed[k] != task { assert memory[|tasks| + k] == freed[k]; }
  }

  /** This is the place of a record in memory, and nowhere else is it. */
  ghost predicate At(s: Sched, tasks: seq<MpTask>, freed: seq<MpTask>, task: MpTask, i: nat) {
    && |s.tasks| == |tasks| && |s.freed| == |freed| && i < |Memory(s)| && PlaceOf(Memory(s), task.addr) == Some(i)
    && (if i < |tasks| then tasks[i] == task else freed[i - |tasks|] == task)
    && (forall k | 0 <= k < |tasks| && k != i :: tasks[k] != task)
    && (forall k | 0 <= k < |freed| && |tasks| + k != i :: freed[k] != task)
  }

  /** The records after a write to one of them: `s` has the records before it. */
  lemma OneWritten(s: Sched, i: nat, tasks: seq<MpTask>, freed: seq<MpTask>, task: MpTask)
    requires At(s, tasks, freed, task, i)
    requires forall k | 0 <= k < |tasks| && tasks[k] != task :: s.tasks[k] == tasks[k].Record()
    requires forall k | 0 <= k < |freed| && freed[k] != task :: s.freed[k] == freed[k].Record()
    ensures Records(tasks) == Store(s, i, task.Record()).tasks && Records(freed) == Store(s, i, task.Record()).freed
  {
    hide Records;
  }

  lemma GoIs(s: Sched, i: nat, y: Yield, toJiffies: int -> nat, s': Sched)
    requires i < |Memory(s)| && PlaceOf(Memory(s), y.addr) == Some(i) && (y.phase == Slept ==> Memory(s)[i].process)
    requires y in s.yielding
    requires s' == Store(s, i, Yielded(Memory(s)[i], y.phase, s.now, toJiffies)).(
      yielding := Exchange(s.yielding, y, After(y.addr, Onward(Memory(s)[i], y.phase, s.now))))
    ensures Handle(s, Goes(y), toJiffies) == Went(s')
  {
    hide PlaceOf, Store;
  }

  lemma ExpireIs(s: Sched, i: nat)
    requires i < |Memory(s)|
    ensures Expire(s, i) == Store(s, i, Memory(s)[i].(timer := None)).(
      callbacks := s.callbacks + multiset{Memory(s)[i].pid})
  {
    hide Store;
  }

  lemma YieldedFound(t: Task, now: nat, toJiffies: int -> nat)
    ensures Yielded(t, Found, now, toJiffies) ==
      t.(next := t.next + if t.next == 0 then now + toJiffies(t.period) else toJiffies(t.period))
  {
  }

  lemma RegisterIs(s: Sched, pid: int, period: int, processing: int, process: bool)
    requires Register(s, pid, period, processing, process).Went?
    ensures !Traps(processing, period) && forall t | t in s.tasks :: !Traps(t.processing, t.period)
    ensures Register(s, pid, period, processing, process).sched == s.(issued := s.issued + 1, joining :=
      if Admits(s.tasks, processing, period) then s.joining + [Request(s.issued, pid, period, processing, process)]
      else s.joining)
  {
    hide Admits, Traps;
  }

  lemma StoreKeeps(s: Sched, i: nat, t: Task)
    requires i < |Memory(s)|
    ensures Store(s, i, t) == s.(tasks := Store(s, i, t).tasks, freed := Store(s, i, t).freed)
  {
  }

  /** Several events, one after the other. */
  function Steps(s: Sched, events: seq<Event>, toJiffies: int -> nat): Outcome
    decreases |events|
  {
    if events == [] then Went(s)
    else
      var first := Handle(s, events[0], toJiffies);
      if first.Went? then Steps(first.sched, events[1..], toJiffies) else first
  }

  lemma {:induction false} StepsAre(states: seq<Sched>, events: seq<Event>, toJiffies: int -> nat)
    requires |states| == |events| + 1
    requires forall i {:trigger events[i]} | 0 <= i < |events| ::
      Handle(states[i], events[i], toJiffies) == Went(states[i + 1])
    ensures Steps(states[0], events, toJiffies) == Went(states[|events|])
    decreases |events|
  {
    hide Handle;
    if events != [] {
      assert forall i | 0 <= i < |events| - 1 :: events[1..][i] == events[i + 1];
      StepsAre(states[1..], events[1..], toJiffies);
    }
  }

  /** The yields under way, one of them replaced. */
  function Exchange(yielding: multiset<Yield>, y: Yield, after: multiset<Yield>): multiset<Yield> {
    yielding - multiset{y} + after
  }

  /** The yields under way, and one more. */
  function With(base: multiset<Yield>, addr: nat, phase: Phase): multiset<Yield> {
    base + multiset{Yield(addr, phase)}
  }

  lemma Exchanged(base: multiset<Yield>, addr: nat, was: Phase, later: Phase)
    ensures Yield(addr, was) in With(base, addr, was)
    ensures Exchange(With(base, addr, was), Yield(addr, was), After(addr, None)) == base
    ensures Exchange(With(base, addr, was), Yield(addr, was), After(addr, Some(later))) == With(base, addr, later)
  {
  }

  class Scheduler {
    var tasks: seq<MpTask>
    var running: MpTask?
    var now: nat
    var issued: nat

    /** The handlers in between: registrations about to be added, yields about to write the state, and callbacks
        without the lock. */
    ghost var joining: seq<Request>
    ghost var yielding: multiset<Yield>
    ghost var callbacks: multiset<int>

    /** The records taken off the list. */
    ghost var freed: seq<MpTask>

    ghost predicate Valid()
      reads this
    {
      Distinct(tasks + freed) && Newcomers(joining, tasks + freed, issued) && (running != null ==> running in tasks)
    }

    ghost function Contents(): Sched
      reads this, tasks, freed
    {
      Sched(Records(tasks), if running == null then None else Some(running.addr), now, issued,
            joining, Records(freed), yielding, callbacks)
    }

    constructor (now: nat)
      ensures Valid() && Contents() == Start(now)
    {
      tasks, running, this.now, issued := [], null, now, 0;
      joining, yielding, callbacks, freed := [], multiset{}, multiset{}, [];
    }

    /** `__get_task_by_pid` */
    method TaskByPid(pid: int) returns (task: MpTask?, at: nat)
      ensures match Lookup(Records(tasks), pid)
              case None => task == null
              case Some(i) => at == i && task == tasks[i]
    {
      at := 0;
      while at < |tasks|
        invariant at <= |tasks| && forall k | 0 <= k < at :: tasks[k].pid != pid
      {
        if tasks[at].pid == pid {
          return tasks[at], at;
        }
        at := at + 1;
      }
      task := null;
    }

    /** `admission_control` */
    method AdmissionControl(processing: int, period: int) returns (admitted: bool)
      requires !Traps(processing, period) && forall t | t in Records(tasks) :: !Traps(t.processing, t.period)
      ensures admitted == Admits(Records(tasks), processing, period)
    {
      hide Traps, Share;
      ghost var records := Records(tasks);
      var total := Share(processing, period) % TWO64;
      var k := 0;
      while k < |tasks|
        invariant k <= |tasks|
        invariant total == Total(records[..k], Share(processing, period))
      {
        assert records[k] in records && records[..k + 1][..k] == records[..k];
        total := (total + Share(tasks[k].processing, tasks[k].period)) % TWO64;
        k := k + 1;
      }
      assert records[..k] == records;
      admitted := total <= BOUND;
    }

    /** `registration` up to its admission; gives the new record, if it is admitted */
    method RegistrationChecks(pid: int, period: int, processing: int, process: bool) returns (task: MpTask?)
      requires Valid() && Register(Contents(), pid, period, processing, process).Went?
      modifies this`issued, this`joining
      ensures Valid() && Register(old(Contents()), pid, period, processing, process) == Went(Contents())
      ensures task == null ==> joining == old(joining)
      ensures task != null ==>
        && fresh(task) && task.Record() == Newcomer(Request(old(issued), pid, period, processing, process))
        && joining == old(joining) + [Request(old(issued), pid, period, processing, process)]
    {
      hide Total, Share, Records, Distinct, Admits, Newcomers, Traps, Register;
      ghost var s := Contents();
      RegisterIs(s, pid, period, processing, process);
      ghost var r := Request(issued, pid, period, processing, process);
      var newTask := new MpTask(Request(issued, pid, period, processing, process));
      var admitted := AdmissionControl(processing, period);
      OneMoreNewcomer(joining, r, tasks + freed, issued);
      issued := issued + 1;
      if admitted {
        joining := joining + [r];
        task := newTask;
      } else {
        task := null;
      }
    }

    /** The rest of it: the record is added to the list. */
    method RegistrationInserts(task: MpTask, ghost i: nat)
      requires Valid() && i < |joining| && task.Record() == Newcomer(joining[i])
      modifies this`tasks, this`joining
      ensures Valid() && Contents() == Insert(old(Contents()), i) && tasks == [task] + old(tasks)
      ensures joining == Drop(old(joining), i)
    {
      hide Records, Distinct, Newcomers;
      NewcomerJoins(joining, i, task, tasks + freed, issued);
      ghost var records := Records(tasks);
      assert [task] + (tasks + freed) == [task] + tasks + freed;
      tasks := [task] + tasks;
      joining := Drop(joining, i);
      assert Records(tasks) == [task.Record()] + records;
    }

    /** `registration` when nothing comes in between */
    method Registration(pid: int, period: int, processing: int, process: bool)
      requires Valid() && Register(Contents(), pid, period, processing, process).Went?
      modifies this
      ensures Valid()
      ensures var checked := Register(old(Contents()), pid, period, processing, process).sched;
        Contents() == if checked.joining == old(joining) then checked else Insert(checked, old(|joining|))
    {
      hide Register, Insert, Records, Distinct, Newcomers;
      ghost var last := |joining|;
      var task := RegistrationChecks(pid, period, processing, process);
      if task != null {
        RegistrationInserts(task, last);
      }
    }

    /** `de_registration` */
    method DeRegistration(pid: int)
      requires Valid() && Deregister(Contents(), pid).Went?
      modifies this, tasks
      ensures Valid() && Deregister(old(Contents()), pid) == Went(Contents())
    {
      hide Lookup, Records, Distinct, Newcomers;
      ghost var records, others := Records(tasks), Records(freed);
      var task, at := TaskByPid(pid);
      OneRecord(tasks, freed, at);
      task.state := Sleeping;
      task.timer := None;
      assert Records(tasks) == records[at := task.Record()] && Records(freed) == others;
      Unlink(at);
      assert Records(tasks) == Drop(records, at) && Records(freed) == others + [task.Record()];
    }

    /** `list_del`; a running task is no longer running. */
    method Unlink(at: nat)
      requires Valid() && at < |tasks|
      modifies this`tasks, this`running, this`freed
      ensures Valid() && tasks == Drop(old(tasks), at) && freed == old(freed) + [old(tasks)[at]]
      ensures running == if old(running) == old(tasks)[at] then null else old(running)
      ensures old(running) != null && old(running.addr) == old(tasks)[at].addr ==> running == null
    {
      hide Distinct, Newcomers;
      Shuffled(joining, tasks, at, freed, issued);
      if running != null && running.addr == tasks[at].addr { SameAddress(tasks, freed, at, running); }
      if running == tasks[at] {
        running := null;
      }
      freed := freed + [tasks[at]];
      tasks := tasks[..at] + tasks[at + 1..];
    }

    static lemma SameAddress(tasks: seq<MpTask>, freed: seq<MpTask>, at: nat, task: MpTask)
      requires Distinct(tasks + freed) && at < |tasks| && task in tasks && task.addr == tasks[at].addr
      ensures task == tasks[at]
    {
      OneRecord(tasks, freed, at);
    }

    // ---------- yield_handle, step by step ----------

    /** The lookup */
    method YieldFinds(pid: int, ghost toJiffies: int -> nat) returns (task: MpTask)
      requires Valid() && Find(Contents(), pid).Went?
      modifies this`yielding
      ensures Valid() && Handle(old(Contents()), Finds(pid), toJiffies) == Went(Contents())
      ensures task in tasks && task.pid == pid && yielding == With(old(yielding), task.addr, Found)
    {
      hide Lookup, Records, Distinct, Newcomers;
      var found, at := TaskByPid(pid);
      yielding := yielding + multiset{Yield(found.addr, Found)};
      task := found;
    }

    /** The release moves on. */
    method YieldMoves(task: MpTask, toJiffies: int -> nat)
      requires Valid() && task in tasks + freed && Yield(task.addr, Found) in yielding
      modifies this`yielding, task`next
      ensures Valid() && Handle(old(Contents()), Goes(Yield(task.addr, Found)), toJiffies) == Went(Contents())
      ensures yielding == Exchange(old(yielding), Yield(task.addr, Found), After(task.addr, Some(Moved)))
    {
      hide Records, Distinct, Newcomers, Store, PlaceOf, Memory, Handle, At, Yielded, NextRelease, Exchange, After;
      ghost var s := Contents();
      ghost var i := PlaceInMemory(s, tasks, freed, task);
      YieldedFound(task.Record(), now, toJiffies);
      var jiffies := toJiffies(task.period);
      task.next := task.next + (if task.next == 0 then now + jiffies else jiffies);
      yielding := Exchange(yielding, Yield(task.addr, Found), After(task.addr, Some(Moved)));
      OneWritten(s, i, tasks, freed, task);
      StoreKeeps(s, i, task.Record());
      GoIs(s, i, Yield(task.addr, Found), toJiffies, Contents());
    }

    /** The test whether the release is over */
    method YieldTests(task: MpTask, ghost toJiffies: int -> nat) returns (over: bool)
      requires Valid() && task in tasks + freed && Yield(task.addr, Moved) in yielding
      modifies this`yielding
      ensures Valid() && Handle(old(Contents()), Goes(Yield(task.addr, Moved)), toJiffies) == Went(Contents())
      ensures over == (task.next < now)
      ensures yielding ==
        Exchange(old(yielding), Yield(task.addr, Moved), After(task.addr, if over then None else Some(Checked)))
    {
      hide Records, Distinct, Newcomers, Store, PlaceOf, Memory, Handle, Expire, At, Exchange, After;
      ghost var s := Contents();
      ghost var i := PlaceInMemory(s, tasks, freed, task);
      over := task.next < now;
      yielding := Exchange(yielding, Yield(task.addr, Moved), After(task.addr, if over then None else Some(Checked)));
      OneWritten(s, i, tasks, freed, task);
      StoreKeeps(s, i, task.Record());
      GoIs(s, i, Yield(task.addr, Moved), toJiffies, Contents());
    }

    /** `mod_timer` */
    method YieldArms(task: MpTask, ghost toJiffies: int -> nat)
      requires Valid() && task in tasks + freed && Yield(task.addr, Checked) in yielding
      modifies this`yielding, task`timer
      ensures Valid() && Handle(old(Contents()), Goes(Yield(task.addr, Checked)), toJiffies) == Went(Contents())
      ensures yielding == Exchange(old(yielding), Yield(task.addr, Checked), After(task.addr, Some(Armed)))
    {
      hide Records, Distinct, Newcomers, Store, PlaceOf, Memory, Handle, Expire, At, Exchange, After;
      ghost var s := Contents();
      ghost var i := PlaceInMemory(s, tasks, freed, task);
      task.timer := Some(task.next);
      yielding := Exchange(yielding, Yield(task.addr, Checked), After(task.addr, Some(Armed)));
      OneWritten(s, i, tasks, freed, task);
      StoreKeeps(s, i, task.Record());
      GoIs(s, i, Yield(task.addr, Checked), toJiffies, Contents());
    }

    /** The write of the state */
    method YieldSleeps(task: MpTask, ghost toJiffies: int -> nat)
      requires Valid() && task in tasks + freed && Yield(task.addr, Armed) in yielding
      modifies this`yielding, task`state
      ensures Valid() && Handle(old(Contents()), Goes(Yield(task.addr, Armed)), toJiffies) == Went(Contents())
      ensures yielding == Exchange(old(yielding), Yield(task.addr, Armed), After(task.addr, Some(Slept)))
    {
      hide Records, Distinct, Newcomers, Store, PlaceOf, Memory, Handle, Expire, At, Exchange, After;
      ghost var s := Contents();
      ghost var i := PlaceInMemory(s, tasks, freed, task);
      task.state := Sleeping;
      yielding := Exchange(yielding, Yield(task.addr, Armed), After(task.addr, Some(Slept)));
      OneWritten(s, i, tasks, freed, task);
      StoreKeeps(s, i, task.Record());
      GoIs(s, i, Yield(task.addr, Armed), toJiffies, Contents());
    }

    /** `set_task_state`, which needs a process */
    method YieldParks(task: MpTask, ghost toJiffies: int -> nat)
      requires Valid() && task in tasks + freed && Yield(task.addr, Slept) in yielding && task.process
      modifies this`yielding
      ensures Valid() && Handle(old(Contents()), Goes(Yield(task.addr, Slept)), toJiffies) == Went(Contents())
      ensures yielding == Exchange(old(yielding), Yield(task.addr, Slept), After(task.addr, None))
    {
      hide Records, Distinct, Newcomers, Store, PlaceOf, Memory, Handle, Expire, At, Exchange, After;
      ghost var s := Contents();
      ghost var i := PlaceInMemory(s, tasks, freed, task);
      yielding := Exchange(yielding, Yield(task.addr, Slept), After(task.addr, None));
      OneWritten(s, i, tasks, freed, task);
      StoreKeeps(s, i, task.Record());
      GoIs(s, i, Yield(task.addr, Slept), toJiffies, Contents());
    }

    /** The events of a yield that nothing interrupts. */
    static function YieldEvents(pid: int, addr: nat, over: bool): seq<Event> {
      [Finds(pid), Goes(Yield(addr, Found)), Goes(Yield(addr, Moved))] +
      if over then [] else [Goes(Yield(addr, Checked)), Goes(Yield(addr, Armed)), Goes(Yield(addr, Slept))]
    }

    /** `yield_handle` when nothing comes in between, for a task with a process */
    method YieldHandle(pid: int, toJiffies: int -> nat) returns (task: MpTask, over: bool)
      requires Valid() && Find(Contents(), pid).Went?
      requires forall t | t in tasks && t.pid == pid :: t.process
      modifies this`yielding, tasks
      ensures Valid() && task in tasks && task.pid == pid && over == (task.next < now)
      ensures Steps(old(Contents()), YieldEvents(pid, task.addr, over), toJiffies) == Went(Contents())
      ensures yielding == old(yielding)
    {
      hide Contents, Distinct, Newcomers, Handle, Steps, Exchange, With, After;
      ghost var base, s0 := yielding, Contents();
      task := YieldFinds(pid, toJiffies);
      ghost var a, s1 := task.addr, Contents();
      Exchanged(base, a, Found, Moved);
      YieldMoves(task, toJiffies);
      ghost var s2 := Contents();
      Exchanged(base, a, Moved, Checked);
      over := YieldTests(task, toJiffies);
      ghost var s3 := Contents();
      if over {
        StepsAre([s0, s1, s2, s3], YieldEvents(pid, a, true), toJiffies);
      } else {
        YieldGoesOn(task, base, toJiffies, [s0, s1, s2, s3]);
      }
    }

    /** From `mod_timer` to the end, after the states that the yield has led through. */
    method YieldGoesOn(
        task: MpTask, ghost base: multiset<Yield>, ghost toJiffies: int -> nat, ghost states: seq<Sched>)
      requires Valid() && task in tasks && task.process && yielding == With(base, task.addr, Checked)
      requires |states| == 4 && states[3] == Contents()
      requires forall i {:trigger states[i]} | 0 <= i < 3 ::
        Handle(states[i], YieldEvents(task.pid, task.addr, true)[i], toJiffies) == Went(states[i + 1])
      modifies this`yielding, task`timer, task`state
      ensures Valid() && yielding == base
      ensures Steps(states[0], YieldEvents(task.pid, task.addr, false), toJiffies) == Went(Contents())
    {
      hide Contents, Distinct, Newcomers, Handle, Steps, Exchange, With, After;
      ghost var a := task.addr;
      Exchanged(base, a, Checked, Armed);
      YieldArms(task, toJiffies);
      ghost var s4 := Contents();
      Exchanged(base, a, Armed, Slept);
      YieldSleeps(task, toJiffies);
      ghost var s5 := Contents();
      Exchanged(base, a, Slept, Slept);
      YieldParks(task, toJiffies);
      ghost var events := YieldEvents(task.pid, a, false);
      assert events[..3] == YieldEvents(task.pid, a, true);
      assert forall i | 0 <= i < 3 :: states[i] == (states + [s4, s5, Contents()])[i];
      StepsAre(states + [s4, s5, Contents()], events, toJiffies);
    }

    // ---------- timers ----------

    /** The timer of a record expires, listed or not. */
    method Expires(task: MpTask)
      requires Valid() && task in tasks + freed
      modifies this`callbacks, task`timer
      ensures Valid() && PlaceOf(Memory(old(Contents())), task.addr).Some?
      ensures Contents() == Expire(old(Contents()), PlaceOf(Memory(old(Contents())), task.addr).value)
    {
      hide Records, Distinct, Newcomers, Store, PlaceOf, Memory, Handle, Expire, At, Exchange, After;
      ghost var s := Contents();
      ghost var i := PlaceInMemory(s, tasks, freed, task);
      task.timer := None;
      callbacks := callbacks + multiset{task.pid};
      OneWritten(s, i, tasks, freed, task);
      StoreKeeps(s, i, task.Record());
      ExpireIs(s, i);
    }

    /** `_timer_callback`, with the lock */
    method TimerCallback(pid: int)
      requires Valid() && pid in callbacks && Callback(Contents(), pid).Went?
      modifies this`callbacks, tasks
      ensures Valid() && Callback(old(Contents()), pid) == Went(Contents())
    {
      hide Lookup, Records, Distinct, Newcomers;
      ghost var records, others := Records(tasks), Records(freed);
      var task, k := TaskByPid(pid);
      OneRecord(tasks, freed, k);
      task.state := Ready;
      callbacks := callbacks - multiset{pid};
      assert Records(tasks) == records[k := records[k].(state := Ready)] && Records(freed) == others;
    }

    /** The search of `thread_fn`: the first READY task of the smallest period. */
    method ReadyTask() returns (task: MpTask?)
      ensures task == match Pick(Records(tasks)) case None => null case Some(i) => tasks[i]
    {
      ghost var records := Records(tasks);
      var minPeriod := INT_MAX;
      task := null;
      var k := 0;
      while k < |tasks|
        invariant k <= |tasks|
        invariant task == match Pick(records[..k]) case None => null case Some(i) => tasks[i]
        invariant minPeriod == if task == null then INT_MAX else task.period
      {
        assert records[..k + 1][..k] == records[..k];
        if tasks[k].state == Ready && tasks[k].period < minPeriod {
          task, minPeriod := tasks[k], tasks[k].period;
        }
        k := k + 1;
      }
      assert records[..k] == records;
    }

    /** The preemption of `thread_fn`: whose process loses its priority. */
    method Preempt(task: MpTask) returns (lowered: MpTask?)
      requires Valid() && task in tasks
      modifies tasks
      ensures lowered == if Outruns(task) then running else null
      ensures Records(freed) == old(Records(freed))
      ensures Records(tasks) ==
        if running != null && task.period < running.period
        then SetState(old(Records(tasks)), running.addr, Ready) else old(Records(tasks))
    {
      hide Records;
      ghost var records, others := Records(tasks), Records(freed);
      if running != null && task.period < running.period {
        NotFreed(tasks, freed, running);
        running.state := Ready;
        lowered := running;
        assert Records(tasks) == SetState(records, running.addr, Ready) && Records(freed) == others;
      } else {
        lowered := null;
        assert Records(tasks) == records && Records(freed) == others;
      }
    }

    static lemma NotFreed(tasks: seq<MpTask>, freed: seq<MpTask>, task: MpTask)
      requires Distinct(tasks + freed) && task in tasks
      ensures task !in freed && Distinct(tasks)
    {
      var at :| 0 <= at < |tasks| && tasks[at] == task;
      OneRecord(tasks, freed, at);
    }

    ghost predicate Outruns(task: MpTask)
      reads this
    {
      running != null && task.period < running.period
    }

    lemma OutrunsIsPreempts(i: nat)
      requires Valid() && Pick(Records(tasks)) == Some(i)
      ensures Preempts(Contents()) == Outruns(tasks[i])
    {
      hide Pick, Records, PeriodAt;
      if running != null {
        NotFreed(tasks, freed, running);
        var r :| 0 <= r < |tasks| && tasks[r] == running;
        PeriodFound(Records(tasks), r);
      }
    }

    /** One pass of `thread_fn` that finds the processes it uses: whose priority it lowers, and then whose it raises. */
    method DispatcherPass() returns (lowered: MpTask?, raised: MpTask?)
      requires Valid() && Dispatch(Contents()).Went?
      modifies this`running, tasks
      ensures Valid() && Dispatch(old(Contents())) == Went(Contents())
      ensures lowered == if old(Demotes(Contents())) then old(running) else null
      ensures raised == match old(Pick(Records(tasks))) case None => null case Some(i) => tasks[i]
      ensures (lowered != null ==> lowered.process) && (raised != null ==> raised.process)
    {
      hide Pick, Records, PeriodAt, Preempts, SetState, Distinct, Newcomers, Demotes, ProcessAt, Dispatch, Pass;
      ghost var s := Contents();
      DispatchWent(s);
      DemotesIf(s);
      UsesProcesses();
      raised := ReadyTask();
      if raised != null {
        OutrunsIsPreempts(Pick(Records(tasks)).value);
        lowered := Preempt(raised);
        RunNow(raised);
        PassIs(s);
      } else {
        lowered := running;
        PassIs(s);
      }
    }

    /** The processes a pass uses are there. */
    lemma UsesProcesses()
      requires Valid() && Dispatch(Contents()).Went?
      ensures Demotes(Contents()) ==> running != null && running.process
      ensures var i := Pick(Records(tasks)); i.Some? ==> tasks[i.value].process
    {
      hide Pick, Records, Preempts, Demotes, PlaceOf;
      DemotesIf(Contents());
      if running != null {
        NotFreed(tasks, freed, running);
        var r :| 0 <= r < |tasks| && tasks[r] == running;
        PlaceFound(Records(tasks), r);
      }
    }

    static lemma PassIs(s: Sched)
      ensures Pass(s) ==
        match Pick(s.tasks)
        case None => s
        case Some(i) =>
          var tasks := if Preempts(s) then SetState(s.tasks, s.running.value, Ready) else s.tasks;
          s.(tasks := SetState(tasks, s.tasks[i].addr, Running), running := Some(s.tasks[i].addr))
    {
      hide Pick, Preempts, SetState;
    }

    /** The task chosen starts. */
    method RunNow(task: MpTask)
      requires Valid() && task in tasks
      modifies this`running, tasks
      ensures Valid() && running == task
      ensures Records(tasks) == SetState(old(Records(tasks)), task.addr, Running)
      ensures Records(freed) == old(Records(freed))
    {
      hide Records;
      ghost var records, others := Records(tasks), Records(freed);
      NotFreed(tasks, freed, task);
      task.state := Running;
      running := task;
      assert Records(tasks) == SetState(records, task.addr, Running) && Records(freed) == others;
    }
  }
}
