/**
  The profiler of MP3/mp3.c on values: the registered pids, the counters of the live processes, and the
  buffer the work function writes.  The work function drops the lock between reading the counters and writing
  the sample, and queues itself after that; registration looks at the list before it takes the lock, and
  unregistration after it released it.  Each of these is a step of its own.  `ProfilerModule` runs the same steps
  in place.
 */
module Profiler {
  import opened Wrappers
  import opened Drain

  const TWO64 := 0x1_0000_0000_0000_0000

  datatype Counters = Counters(minor: nat, major: nat, utime: nat, stime: nat)

  datatype Process = Process(pid: int, counters: Counters)

  datatype Sums = Sums(minor: nat, major: nat, cpu: nat)

  /** Where the work function is: not running, before its first critical section, between the two, or before it
      queues itself again. */
  datatype Work = Rests | Begun | Read(sums: Sums) | Wrote

  /** A registration that has looked whether the list is empty and has not taken the lock yet. */
  datatype Join = Join(pid: int, wasEmpty: bool)

  /** An unregistration that has released the lock: before it looks at the list, and before it cancels the work. */
  datatype Leave = Looking | Cancelling

  /** `pending` says that the delayed work is queued; `ptr` is `mem_buf_ptr`. */
  datatype State = State(
    processes: seq<Process>, registered: seq<int>, joining: seq<Join>, leaving: seq<Leave>, pending: bool,
    work: Work, buffer: seq<nat>, ptr: nat)

  /** A step's result: `Crash` is a null dereference, `Overrun` a write outside the buffer. */
  datatype Outcome = Crash | Overrun | Went(state: State)

  const ZERO := Counters(0, 0, 0, 0)

  function Add(a: nat, b: nat): nat { (a + b) % TWO64 }

  /** `find_task_by_pid` */
  function Find(processes: seq<Process>, pid: int): (i: Option<nat>)
    ensures i.Some? ==> i.value < |processes| && processes[i.value].pid == pid
    ensures i.Some? ==> forall k | 0 <= k < i.value :: processes[k].pid != pid
    ensures i.None? ==> forall k | 0 <= k < |processes| :: processes[k].pid != pid
  {
    if processes == [] then None
    else if processes[0].pid == pid then Some(0)
    else
      match Find(processes[1..], pid)
      case None => None
      case Some(i) => Some(i + 1)
  }

  /** The place of a pid in the list of registrations. */
  function IndexOf(registered: seq<int>, pid: int): (i: Option<nat>)
    ensures i.Some? ==> i.value < |registered| && registered[i.value] == pid && pid !in registered[..i.value]
    ensures i.None? ==> pid !in registered
  {
    if registered == [] then None
    else if registered[0] == pid then Some(0)
    else
      match IndexOf(registered[1..], pid)
      case None => None
      case Some(i) => Some(i + 1)
  }

  /** The loop of `mp_work_func` over the list: each live process is read and its counters are reset. */
  function Collected(processes: seq<Process>, registered: seq<int>): (r: (Sums, seq<Process>))
    ensures |r.1| == |processes| && forall i | 0 <= i < |processes| :: r.1[i].pid == processes[i].pid
  {
    if registered == [] then (Sums(0, 0, 0), processes)
    else
      var k := |registered| - 1;
      var (sums, now) := Collected(processes, registered[..k]);
      match Find(now, registered[k])
      case None => (sums, now)
      case Some(i) =>
        var c := now[i].counters;
        (Sums(Add(sums.minor, c.minor), Add(sums.major, c.major), Add(sums.cpu, Add(c.utime, c.stime))),
         now[i := Process(now[i].pid, ZERO)])
  }

  /** The words of a sample. */
  function Words(jiffies: nat, sums: Sums, toMsecs: nat -> nat): (words: seq<nat>)
    ensures |words| == 4
  {
    [jiffies, sums.minor, sums.major, toMsecs(sums.cpu)]
  }

  /** The buffer after a sample has been written at `ptr`. */
  function Written(buffer: seq<nat>, ptr: nat, words: seq<nat>): (r: seq<nat>)
    requires |words| == 4 && ptr + 4 <= |buffer|
    ensures |r| == |buffer|
  {
    buffer[..ptr] + words + buffer[ptr + 4..]
  }

  datatype Event =
    | Begins(pid: int)
    | Ends(pid: int)
    | Incurs(pid: int, cost: Counters)
    | Enters(pid: int)
    | Joins(i: nat)
    | Leaves(pid: int)
    | Looks(i: nat)
    | Cancels(i: nat)
    | Wakes
    | Collects
    | Writes(jiffies: nat)
    | Requeues

  function Charged(c: Counters, cost: Counters): Counters {
    Counters(Add(c.minor, cost.minor), Add(c.major, cost.major), Add(c.utime, cost.utime), Add(c.stime, cost.stime))
  }

  /** One step.  A step that is not enabled leaves the state as it is. */
  function Step(s: State, e: Event, toMsecs: nat -> nat): Outcome {
    match e
    case Begins(pid) =>
      Went(if Find(s.processes, pid).Some? then s else s.(processes := s.processes + [Process(pid, ZERO)]))
    case Ends(pid) =>
      (match Find(s.processes, pid)
       case None => Went(s)
       case Some(i) => Went(s.(processes := Drop(s.processes, i))))
    case Incurs(pid, cost) =>
      (match Find(s.processes, pid)
       case None => Went(s)
       case Some(i) =>
         Went(s.(processes := s.processes[i := Process(pid, Charged(s.processes[i].counters, cost))])))
    case Enters(pid) => Went(s.(joining := s.joining + [Join(pid, s.registered == [])]))
    case Joins(i) =>
      if i >= |s.joining| then Went(s)
      else
        Went(s.(registered := [s.joining[i].pid] + s.registered, pending := s.pending || s.joining[i].wasEmpty,
                joining := Drop(s.joining, i)))
    case Leaves(pid) =>
      (match IndexOf(s.registered, pid)
       case None => Crash
       case Some(i) => Went(s.(registered := Drop(s.registered, i), leaving := s.leaving + [Looking])))
    case Looks(i) =>
      if i >= |s.leaving| || s.leaving[i] != Looking then Went(s)
      else Went(s.(leaving := if s.registered == [] then s.leaving[i := Cancelling] else Drop(s.leaving, i)))
    case Cancels(i) =>
      if i >= |s.leaving| || s.leaving[i] != Cancelling then Went(s)
      else Went(s.(pending := false, leaving := Drop(s.leaving, i)))
    case Wakes => Went(if s.pending && s.work.Rests? then s.(pending := false, work := Begun) else s)
    case Collects =>
      if s.work.Begun? then
        var (sums, processes) := Collected(s.processes, s.registered);
        Went(s.(processes := processes, work := Read(sums)))
      else Went(s)
    case Writes(jiffies) =>
      if !s.work.Read? then Went(s)
      else if s.ptr + 4 > |s.buffer| then Overrun
      else
        Went(s.(buffer := Written(s.buffer, s.ptr, Words(jiffies, s.work.sums, toMsecs)), ptr := s.ptr + 4,
                work := Wrote))
    case Requeues => Went(if s.work.Wrote? then s.(pending := true, work := Rests) else s)
  }

  /** Several steps, one after the other. */
  function Steps(s: State, events: seq<Event>, toMsecs: nat -> nat): Outcome
    decreases |events|
  {
    if events == [] then Went(s)
    else
      var first := Step(s, events[0], toMsecs);
      if first.Went? then Steps(first.state, events[1..], toMsecs) else first
  }

  /** The buffer is cleared when the module is loaded, and nothing is registered. */
  function Init(processes: seq<Process>): State {
    State(processes, [], [], [], false, Rests, seq(BUFFER_WORDS, _ => 0), 0)
  }

  /** An execution: events, none of which fails, and the states they lead through. */
  ghost predicate Execution(
      processes: seq<Process>, events: seq<Event>, toMsecs: nat -> nat, states: seq<State>)
  {
    && |states| == |events| + 1 && states[0] == Init(processes)
    && forall i {:trigger events[i]} | 0 <= i < |events| :: Step(states[i], events[i], toMsecs) == Went(states[i + 1])
  }
}
