/** The profiler of MP3 in place: counters on the heap that are read and reset, the list of registrations, and the
    buffer that the work function fills. */
module ProfilerModule {
  import opened Wrappers
  import opened Drain
  import opened P = Profiler
  import Registry

  /** The counters of a kernel task. */
  class TaskStruct {
    const pid: int
    var minor: nat
    var major: nat
    var utime: nat
    var stime: nat

    constructor (pid: int)
      ensures Record() == Process(pid, ZERO)
    {
      this.pid := pid;
      minor, major, utime, stime := 0, 0, 0, 0;
    }

    ghost function Record(): (p: Process)
      reads this
    {
      Process(pid, Counters(minor, major, utime, stime))
    }
  }

  lemma OneStep(s: State, e: Event, s': State, toMsecs: nat -> nat)
    requires Step(s, e, toMsecs) == Went(s')
    ensures Steps(s, [e], toMsecs) == Went(s')
  {
    hide Step;
    assert Steps(s', [], toMsecs) == Went(s');
  }

  lemma TwoSteps(s: State, d: Event, mid: State, e: Event, s': State, toMsecs: nat -> nat)
    requires Step(s, d, toMsecs) == Went(mid) && Step(mid, e, toMsecs) == Went(s')
    ensures Steps(s, [d, e], toMsecs) == Went(s')
  {
    hide Step;
    OneStep(mid, e, s', toMsecs);
    assert [d, e][1..] == [e];
  }

  lemma {:induction false} StepsConcat(s: State, a: seq<Event>, mid: State, b: seq<Event>, toMsecs: nat -> nat)
    requires Steps(s, a, toMsecs) == Went(mid)
    ensures Steps(s, a + b, toMsecs) == Steps(mid, b, toMsecs)
    decreases |a|
  {
    hide Step;
    if a == [] {
      assert a + b == b;
    } else {
      assert (a + b)[1..] == a[1..] + b;
      StepsConcat(Step(s, a[0], toMsecs).state, a[1..], mid, b, toMsecs);
    }
  }

  lemma WorkSteps(s: State, toMsecs: nat -> nat)
    ensures s.pending && s.work.Rests? ==>
      Step(s, Wakes, toMsecs) == Went(s.(pending := false, work := Begun))
    ensures s.work.Wrote? ==> Step(s, Requeues, toMsecs) == Went(s.(pending := true, work := Rests))
  {
  }

  lemma CollectStep(s: State, toMsecs: nat -> nat)
    requires s.work.Begun?
    ensures var (sums, processes) := Collected(s.processes, s.registered);
      Step(s, Collects, toMsecs) == Went(s.(processes := processes, work := Read(sums)))
  {
    hide Collected;
  }

  lemma WriteStep(s: State, jiffies: nat, toMsecs: nat -> nat)
    requires s.work.Read? && s.ptr + 4 <= |s.buffer|
    ensures Step(s, Writes(jiffies), toMsecs) ==
      Went(s.(buffer := Written(s.buffer, s.ptr, Words(jiffies, s.work.sums, toMsecs)), ptr := s.ptr + 4,
              work := Wrote))
  {
    hide Written, Words;
  }

  lemma OneByOne(buffer: seq<nat>, ptr: nat, a: nat, b: nat, c: nat, d: nat)
    requires ptr + 4 <= |buffer|
    ensures Written(buffer, ptr, [a, b, c, d]) == buffer[ptr := a][ptr + 1 := b][ptr + 2 := c][ptr + 3 := d]
  {
  }

  ghost function Records(tasks: seq<TaskStruct>): (r: seq<Process>)
    reads tasks
    ensures |r| == |tasks| && forall i | 0 <= i < |tasks| :: r[i] == tasks[i].Record()
  {
    seq(|tasks|, i requires 0 <= i < |tasks| reads tasks => tasks[i].Record())
  }

  class ProfilerState {
    var tasks: seq<TaskStruct>
    var registered: seq<int>
    var pending: bool
    var memBuf: array<nat>
    var memBufPtr: nat
    /** The handlers that are between two of their critical sections, with what they have in their locals. */
    ghost var joining: seq<P.Join>
    ghost var leaving: seq<Leave>

    ghost predicate Valid()
      reads this
    {
      forall i, j | 0 <= i < j < |tasks| :: tasks[i] != tasks[j]
    }

    /** The state, for a work function that has got this far. */
    ghost function Contents(work: Work): State
      reads this, tasks, memBuf
    {
      State(Records(tasks), registered, joining, leaving, pending, work, memBuf[..], memBufPtr)
    }

    /** `mp_init` */
    constructor (tasks: seq<TaskStruct>)
      requires forall i, j | 0 <= i < j < |tasks| :: tasks[i] != tasks[j]
      ensures Valid() && Contents(Rests) == Init(Records(tasks)) && fresh(memBuf)
    {
      this.tasks, registered, pending := tasks, [], false;
      memBuf := new nat[BUFFER_WORDS](_ => 0);
      memBufPtr := 0;
      joining, leaving := [], [];
      new;
      assert memBuf[..] == seq(BUFFER_WORDS, _ => 0);
    }

    /** `get_cpu_use`: the counters of a process since the last call, or -1 if there is none. */
    method GetCpuUse(pid: int) returns (ret: int, minor: nat, major: nat, utime: nat, stime: nat)
      requires Valid()
      modifies tasks
      ensures match Find(old(Records(tasks)), pid)
              case None => ret == -1 && Records(tasks) == old(Records(tasks))
              case Some(i) =>
                && ret == 0 && Counters(minor, major, utime, stime) == old(Records(tasks))[i].counters
                && Records(tasks) == old(Records(tasks))[i := Process(pid, ZERO)]
    {
      hide Records;
      ghost var records := Records(tasks);
      ret, minor, major, utime, stime := -1, 0, 0, 0, 0;
      var i := 0;
      while i < |tasks| && tasks[i].pid != pid
        invariant i <= |tasks| && forall k | 0 <= k < i :: tasks[k].pid != pid
      {
        i := i + 1;
      }
      if i < |tasks| {
        var task := tasks[i];
        assert records[i].pid == pid;
        minor, major, utime, stime := task.minor, task.major, task.utime, task.stime;
        task.major := 0;
        task.minor := 0;
        task.utime := 0;
        task.stime := 0;
        ret := 0;
        assert Records(tasks) == records[i := Process(pid, ZERO)];
      } else {
        assert forall k | 0 <= k < |records| :: records[k].pid == tasks[k].pid;
      }
    }

    /** The first critical section of `mp_work_func`. */
    method Collect() returns (sums: Sums)
      requires Valid()
      modifies tasks
      ensures Valid()
      ensures (sums, Records(tasks)) == Collected(old(Records(tasks)), registered)
    {
      hide Records;
      ghost var records := Records(tasks);
      var minSum, majSum, cpuSum := 0, 0, 0;
      var k := 0;
      while k < |registered|
        invariant k <= |registered|
        invariant (Sums(minSum, majSum, cpuSum), Records(tasks)) == Collected(records, registered[..k])
      {
        assert registered[..k + 1][..k] == registered[..k];
        var ret, minor, major, utime, stime := GetCpuUse(registered[k]);
        if ret != -1 {
          minSum := Add(minSum, minor);
          majSum := Add(majSum, major);
          cpuSum := Add(cpuSum, Add(utime, stime));
        }
        k := k + 1;
      }
      assert registered[..k] == registered;
      sums := Sums(minSum, majSum, cpuSum);
    }

    /** The second critical section. */
    method Write(sums: Sums, jiffies: nat, toMsecs: nat -> nat)
      requires Valid() && memBufPtr + 4 <= memBuf.Length
      modifies this`memBufPtr, memBuf
      ensures Valid() && Step(old(Contents(Read(sums))), Writes(jiffies), toMsecs) == Went(Contents(Wrote))
    {
      hide Step, Records, Written;
      WriteStep(Contents(Read(sums)), jiffies, toMsecs);
      ghost var was, start, last := memBuf[..], memBufPtr, toMsecs(sums.cpu);
      OneByOne(was, start, jiffies, sums.minor, sums.major, last);
      memBuf[memBufPtr] := jiffies;
      memBufPtr := memBufPtr + 1;
      ghost var one: seq<nat> := was[start := jiffies];
      assert memBuf[..] == one;
      memBuf[memBufPtr] := sums.minor;
      memBufPtr := memBufPtr + 1;
      ghost var two: seq<nat> := one[start + 1 := sums.minor];
      assert memBuf[..] == two;
      memBuf[memBufPtr] := sums.major;
      memBufPtr := memBufPtr + 1;
      ghost var three: seq<nat> := two[start + 2 := sums.major];
      assert memBuf[..] == three;
      memBuf[memBufPtr] := toMsecs(sums.cpu);
      memBufPtr := memBufPtr + 1;
      assert memBuf[..] == three[start + 3 := last];
    }

    /** A run of `mp_work_func` from end to end, when nothing comes between its critical sections. */
    method WorkFunc(jiffies: nat, toMsecs: nat -> nat)
      requires Valid() && pending && memBufPtr + 4 <= memBuf.Length
      modifies this`pending, this`memBufPtr, memBuf, tasks
      ensures Valid()
      ensures Steps(old(Contents(Rests)), [Wakes, Collects, Writes(jiffies), Requeues], toMsecs)
        == Went(Contents(Rests))
    {
      hide Records, Collected, Step, Steps;
      ghost var s0 := Contents(Rests);
      WorkSteps(s0, toMsecs);
      pending := false;
      ghost var s1 := Contents(Begun);
      CollectStep(s1, toMsecs);
      var sums := Collect();
      ghost var s2 := Contents(Read(sums));
      Write(sums, jiffies, toMsecs);
      ghost var s3 := Contents(Wrote);
      WorkSteps(s3, toMsecs);
      pending := true;
      ghost var s4 := Contents(Rests);
      TwoSteps(s0, Wakes, s1, Collects, s2, toMsecs);
      TwoSteps(s2, Writes(jiffies), s3, Requeues, s4, toMsecs);
      StepsConcat(s0, [Wakes, Collects], s2, [Writes(jiffies), Requeues], toMsecs);
      assert [Wakes, Collects] + [Writes(jiffies), Requeues] == [Wakes, Collects, Writes(jiffies), Requeues];
    }

    /** `registration` up to the lock: it looks whether the list is empty. */
    method RegistrationLooks(pid: int, ghost work: Work, ghost toMsecs: nat -> nat) returns (emptyFlag: bool)
      requires Valid()
      modifies this`joining
      ensures Valid() && Step(old(Contents(work)), Enters(pid), toMsecs) == Went(Contents(work))
      ensures joining == old(joining) + [P.Join(pid, emptyFlag)] && emptyFlag == (registered == [])
    {
      emptyFlag := registered == [];
      joining := joining + [P.Join(pid, emptyFlag)];
    }

    /** The critical section of `registration`, with what it saw before. */
    method RegistrationAdds(
        pid: int, emptyFlag: bool, ghost i: nat, ghost work: Work, ghost toMsecs: nat -> nat)
      requires Valid() && i < |joining| && joining[i] == P.Join(pid, emptyFlag)
      modifies this`registered, this`pending, this`joining
      ensures Valid() && Step(old(Contents(work)), Joins(i), toMsecs) == Went(Contents(work))
      ensures registered == [pid] + old(registered) && pending == (old(pending) || emptyFlag)
      ensures joining == Drop(old(joining), i)
    {
      registered := [pid] + registered;
      if emptyFlag {
        pending := true;
      }
      joining := Drop(joining, i);
    }

    /** The critical section of `unregistration`: it removes the first entry with the pid. */
    method UnregistrationRemoves(pid: int, ghost work: Work, ghost toMsecs: nat -> nat)
      requires Valid() && pid in registered
      modifies this`registered, this`leaving
      ensures Valid() && Step(old(Contents(work)), Leaves(pid), toMsecs) == Went(Contents(work))
      ensures Registry.Without(old(registered), pid, registered)
      ensures leaving == old(leaving) + [Looking]
    {
      var i := 0;
      while registered[i] != pid
        invariant i < |registered| && pid !in registered[..i]
        decreases |registered| - i
      {
        i := i + 1;
      }
      assert P.IndexOf(registered, pid) == Some(i);
      registered := registered[..i] + registered[i + 1..];
      leaving := leaving + [Looking];
    }

    /** `unregistration` after the lock: it looks at the list again. */
    method UnregistrationLooks(ghost i: nat, ghost work: Work, ghost toMsecs: nat -> nat) returns (emptied: bool)
      requires Valid() && i < |leaving| && leaving[i] == Looking
      modifies this`leaving
      ensures Valid() && Step(old(Contents(work)), Looks(i), toMsecs) == Went(Contents(work))
      ensures emptied == (registered == [])
      ensures leaving == if emptied then old(leaving)[i := Cancelling] else Drop(old(leaving), i)
    {
      emptied := registered == [];
      leaving := if emptied then leaving[i := Cancelling] else Drop(leaving, i);
    }

    /** `cancel_delayed_work` */
    method UnregistrationCancels(ghost i: nat, ghost work: Work, ghost toMsecs: nat -> nat)
      requires Valid() && i < |leaving| && leaving[i] == Cancelling
      modifies this`pending, this`leaving
      ensures Valid() && Step(old(Contents(work)), Cancels(i), toMsecs) == Went(Contents(work))
      ensures !pending && leaving == Drop(old(leaving), i)
    {
      pending := false;
      leaving := Drop(leaving, i);
    }

    /** `registration` from end to end, when no other handler comes between. */
    method Registration(pid: int, ghost work: Work, ghost toMsecs: nat -> nat)
      requires Valid()
      modifies this`registered, this`pending, this`joining
      ensures Valid() && joining == old(joining) && registered == [pid] + old(registered)
      ensures pending == (old(pending) || old(registered) == [])
      ensures Steps(old(Contents(work)), [Enters(pid), Joins(old(|joining|))], toMsecs) == Went(Contents(work))
    {
      hide Records, Step, Steps;
      ghost var last, s0 := |joining|, Contents(work);
      var emptyFlag := RegistrationLooks(pid, work, toMsecs);
      ghost var s1 := Contents(work);
      RegistrationAdds(pid, emptyFlag, last, work, toMsecs);
      TwoSteps(s0, Enters(pid), s1, Joins(last), Contents(work), toMsecs);
    }

    /** `unregistration` from end to end, when no other handler comes between. */
    method Unregistration(pid: int, ghost work: Work, ghost toMsecs: nat -> nat)
      requires Valid() && pid in registered
      modifies this`registered, this`pending, this`leaving
      ensures Valid() && leaving == old(leaving) && pending == (old(pending) && registered != [])
      ensures Registry.Without(old(registered), pid, registered)
      ensures var last := old(|leaving|);
        Steps(old(Contents(work)), [Leaves(pid), Looks(last)] + (if registered == [] then [Cancels(last)] else []),
              toMsecs) == Went(Contents(work))
    {
      hide Records, Step, Steps;
      ghost var last, s0 := |leaving|, Contents(work);
      UnregistrationRemoves(pid, work, toMsecs);
      ghost var s1 := Contents(work);
      var emptied := UnregistrationLooks(last, work, toMsecs);
      ghost var s2 := Contents(work);
      TwoSteps(s0, Leaves(pid), s1, Looks(last), s2, toMsecs);
      if emptied {
        UnregistrationCancels(last, work, toMsecs);
        OneStep(s2, Cancels(last), Contents(work), toMsecs);
        StepsConcat(s0, [Leaves(pid), Looks(last)], s2, [Cancels(last)], toMsecs);
      } else {
        assert [Leaves(pid), Looks(last)] + [] == [Leaves(pid), Looks(last)];
      }
    }
  }
}
