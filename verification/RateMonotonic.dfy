/**
  The rate-monotonic scheduler of MP2/mp2.c on values: the list of registered tasks, the pointer to the
  running one, and the handlers as functions, each cut where it holds no lock.  Tasks are identified by the address
  of their record; an address is never reused, and a freed record keeps what it holds.  `SchedulerModule` runs the
  same handlers in place on heap records.
 */
module RateMonotonic {
  import opened Wrappers

  datatype TaskState = Sleeping | Ready | Running

  /** `process` says that the pointer to the process is not null. */
  datatype Task = Task(
    addr: nat, pid: int, period: int, processing: int, process: bool, state: TaskState, next: nat, timer: Option<nat>)

  /** A record that has passed admission control and is not on the list yet. */
  datatype Request = Request(addr: nat, pid: int, period: int, processing: int, process: bool)

  /** What `yield_handle` has done: found the record, moved its release on, seen that the release is not over, armed
      the timer, written the state. */
  datatype Phase = Found | Moved | Checked | Armed | Slept

  /** A `yield_handle` under way, on the record at an address. */
  datatype Yield = Yield(addr: nat, phase: Phase)

  /** Besides the list: the registrations between their two critical sections, the records taken off the list and
      freed, the yields under way, which hold no lock, and the pids of the timer callbacks that have been started and
      wait for the lock. */
  datatype Sched = Sched(
    tasks: seq<Task>, running: Option<nat>, now: nat, issued: nat,
    joining: seq<Request>, freed: seq<Task>, yielding: multiset<Yield>, callbacks: multiset<int>)

  /** A handler's result; `Crash` is a null dereference or a divide error. */
  datatype Outcome = Crash | Went(sched: Sched)

  const INT_MAX := 0x7fff_ffff
  const TWO32 := 0x1_0000_0000
  const TWO64 := 0x1_0000_0000_0000_0000
  const BOUND := 693000
  const SCALE := 1000000

  // ---------- C arithmetic ----------

  /** The value of an `int` after an overflow. */
  function Wrap32(x: int): int {
    var u := x % TWO32;
    if u > INT_MAX then u - TWO32 else u
  }

  /** C division. */
  function TruncDiv(a: int, b: int): int
    requires b != 0
  {
    if a >= 0 then a / b else -((-a) / b)
  }

  /** The division of `admission_control` faults: the divisor is zero, or the quotient does not fit an `int`. */
  predicate Traps(processing: int, period: int) {
    period == 0 || (period == -1 && Wrap32(processing * SCALE) == -INT_MAX - 1)
  }

  /** One task's share as `admission_control` computes it, before it is added up as an `unsigned long`. */
  function Share(processing: int, period: int): int
    requires !Traps(processing, period)
  {
    TruncDiv(Wrap32(processing * SCALE), period)
  }

  /** The shares of the registered tasks added to a start value, modulo the width of `unsigned long`. */
  function Total(tasks: seq<Task>, start: int): int
    requires forall t | t in tasks :: !Traps(t.processing, t.period)
  {
    if tasks == [] then start % TWO64
    else
      var k := |tasks| - 1;
      (Total(tasks[..k], start) + Share(tasks[k].processing, tasks[k].period)) % TWO64
  }

  // ---------- handlers ----------

  /** `__get_task_by_pid`: the first task with the pid. */
  function Lookup(tasks: seq<Task>, pid: int): (i: Option<nat>)
    ensures i.Some? ==> i.value < |tasks| && tasks[i.value].pid == pid
    ensures i.Some? ==> forall k | 0 <= k < i.value :: tasks[k].pid != pid
    ensures i.None? ==> forall k | 0 <= k < |tasks| :: tasks[k].pid != pid
  {
    if tasks == [] then None
    else if tasks[0].pid == pid then Some(0)
    else
      match Lookup(tasks[1..], pid)
      case None => None
      case Some(i) => Some(i + 1)
  }

  /** `admission_control` */
  predicate Admits(tasks: seq<Task>, processing: int, period: int)
    requires !Traps(processing, period) && forall t | t in tasks :: !Traps(t.processing, t.period)
  {
    Total(tasks, Share(processing, period)) <= BOUND
  }

  /** `registration` up to the end of `admission_control`, which looks at the list as it is.  `process` says whether
      `find_task_by_pid` finds a process. */
  function Register(s: Sched, pid: int, period: int, processing: int, process: bool): Outcome {
    if Traps(processing, period) || exists t | t in s.tasks :: Traps(t.processing, t.period) then Crash
    else if Admits(s.tasks, processing, period) then
      Went(s.(joining := s.joining + [Request(s.issued, pid, period, processing, process)], issued := s.issued + 1))
    else Went(s.(issued := s.issued + 1))
  }

  /** The record of a new task. */
  function Newcomer(r: Request): Task {
    Task(r.addr, r.pid, r.period, r.processing, r.process, Sleeping, 0, None)
  }

  /** The rest of `registration`: the new task is added at the head of the list. */
  function Insert(s: Sched, i: nat): Sched
    requires i < |s.joining|
  {
    s.(tasks := [Newcomer(s.joining[i])] + s.tasks, joining := Drop(s.joining, i))
  }

  /** `de_registration` */
  function Deregister(s: Sched, pid: int): Outcome {
    match Lookup(s.tasks, pid)
    case None => Crash
    case Some(i) =>
      Went(s.(tasks := Drop(s.tasks, i), freed := s.freed + [s.tasks[i].(state := Sleeping, timer := None)],
              running := if s.running == Some(s.tasks[i].addr) then None else s.running))
  }

  /** The release a yield moves on to. */
  function NextRelease(t: Task, now: nat, jiffies: nat): nat {
    if t.next == 0 then now + jiffies else t.next + jiffies
  }

  function PlaceOf(tasks: seq<Task>, addr: nat): (i: Option<nat>)
    ensures i.Some? ==> i.value < |tasks| && tasks[i.value].addr == addr
    ensures i.None? ==> forall k | 0 <= k < |tasks| :: tasks[k].addr != addr
  {
    if tasks == [] then None
    else if tasks[0].addr == addr then Some(0)
    else
      match PlaceOf(tasks[1..], addr)
      case None => None
      case Some(i) => Some(i + 1)
  }

  /** The records in memory: those on the list, and those freed. */
  function Memory(s: Sched): seq<Task> { s.tasks + s.freed }

  /** A write to the record at a place in memory. */
  function Store(s: Sched, i: nat, t: Task): (r: Sched)
    requires i < |Memory(s)|
  {
    if i < |s.tasks| then s.(tasks := s.tasks[i := t])
    else s.(freed := s.freed[i - |s.tasks| := t])
  }

  /** The lookup that `yield_handle` begins with. */
  function Find(s: Sched, pid: int): Outcome {
    match Lookup(s.tasks, pid)
    case None => Crash
    case Some(i) => Went(s.(yielding := s.yielding + multiset{Yield(s.tasks[i].addr, Found)}))
  }

  /** What a yield writes to its record in one step. */
  function Yielded(t: Task, phase: Phase, now: nat, toJiffies: int -> nat): Task {
    match phase
    case Found => t.(next := NextRelease(t, now, toJiffies(t.period)))
    case Checked => t.(timer := Some(t.next))
    case Armed => t.(state := Sleeping)
    case _ => t
  }

  /** How far a yield is after one step; it returns early if the release is over already. */
  function Onward(t: Task, phase: Phase, now: nat): Option<Phase> {
    match phase
    case Found => Some(Moved)
    case Moved => if t.next < now then None else Some(Checked)
    case Checked => Some(Armed)
    case Armed => Some(Slept)
    case Slept => None
  }

  /** One step of a yield under way.  At the end it sets the state of the process. */
  function Go(s: Sched, y: Yield, toJiffies: int -> nat): Outcome {
    match PlaceOf(Memory(s), y.addr)
    case None => Went(s)
    case Some(i) =>
      var t := Memory(s)[i];
      if y.phase == Slept && !t.process then Crash
      else
        Went(Store(s, i, Yielded(t, y.phase, s.now, toJiffies)).(
          yielding := s.yielding - multiset{y} + After(y.addr, Onward(t, y.phase, s.now))))
  }

  /** The yield that goes on, if it does. */
  function After(addr: nat, phase: Option<Phase>): multiset<Yield> {
    if phase.Some? then multiset{Yield(addr, phase.value)} else multiset{}
  }

  function SetState(tasks: seq<Task>, addr: nat, state: TaskState): (r: seq<Task>)
    ensures |r| == |tasks|
  {
    seq(|tasks|, i requires 0 <= i < |tasks| => if tasks[i].addr == addr then tasks[i].(state := state) else tasks[i])
  }

  /** A timer that is due is disarmed, and its callback is started; it need not be the timer of a listed task. */
  function Expire(s: Sched, i: nat): Sched
    requires i < |Memory(s)|
  {
    var t := Memory(s)[i];
    Store(s, i, t.(timer := None)).(callbacks := s.callbacks + multiset{t.pid})
  }

  /** `_timer_callback`, once it has the lock. */
  function Callback(s: Sched, pid: int): Outcome {
    match Lookup(s.tasks, pid)
    case None => Crash
    case Some(k) =>
      Went(s.(tasks := s.tasks[k := s.tasks[k].(state := Ready)], callbacks := s.callbacks - multiset{pid}))
  }

  /** The loop of the dispatcher: the first of the READY tasks with the smallest period, if that is below
      INT_MAX. */
  function Pick(tasks: seq<Task>): (i: Option<nat>)
    ensures i.Some? ==> i.value < |tasks|
  {
    if tasks == [] then None
    else
      var k := |tasks| - 1;
      var best := Pick(tasks[..k]);
      var least := if best.Some? then tasks[best.value].period else INT_MAX;
      if tasks[k].state == Ready && tasks[k].period < least then Some(k) else best
  }

  /** The period of the task at an address; the address is the running task's. */
  function PeriodAt(tasks: seq<Task>, addr: nat): int {
    if tasks == [] then 0 else if tasks[0].addr == addr then tasks[0].period else PeriodAt(tasks[1..], addr)
  }

  /** The process pointer of the task at an address is not null. */
  predicate ProcessAt(tasks: seq<Task>, addr: nat) {
    var i := PlaceOf(tasks, addr);
    i.Some? ==> tasks[i.value].process
  }

  /** The READY task found has a smaller period than the running one, which goes back to READY. */
  predicate Preempts(s: Sched) {
    Pick(s.tasks).Some? && s.running.Some? &&
    s.tasks[Pick(s.tasks).value].period < PeriodAt(s.tasks, s.running.value)
  }

  /** A pass on the records: the task picked runs, and a preempted one is READY. */
  function Pass(s: Sched): Sched {
    match Pick(s.tasks)
    case None => s
    case Some(i) =>
      var t := s.tasks[i];
      var tasks := if Preempts(s) then SetState(s.tasks, s.running.value, Ready) else s.tasks;
      s.(tasks := SetState(tasks, t.addr, Running), running := Some(t.addr))
  }

  /** A pass lowers the priority of the running task's process if nobody is READY or the task is preempted. */
  predicate Demotes(s: Sched) {
    s.running.Some? && (Pick(s.tasks).None? || Preempts(s))
  }

  /** One pass of the dispatcher.  It uses the process of the running task it demotes, and of the task it picks. */
  function Dispatch(s: Sched): Outcome {
    if Demotes(s) && !ProcessAt(s.tasks, s.running.value) then Crash
    else if Pick(s.tasks).Some? && !s.tasks[Pick(s.tasks).value].process then Crash
    else Went(Pass(s))
  }

  // ---------- runs ----------

  datatype Event =
    | Registers(pid: int, period: int, processing: int, process: bool)
    | Inserts(i: nat)
    | Deregisters(pid: int)
    | Finds(pid: int)
    | Goes(y: Yield)
    | Expires(addr: nat)
    | CallbackRuns(pid: int)
    | Dispatches
    | TimePasses(ticks: nat)

  /** A timer can expire once its deadline has come. */
  predicate Due(s: Sched, addr: nat) {
    var i := PlaceOf(Memory(s), addr);
    i.Some? && Memory(s)[i.value].timer.Some? && Memory(s)[i.value].timer.value <= s.now
  }

  /** One event.  One that is not enabled changes nothing. */
  function Handle(s: Sched, e: Event, toJiffies: int -> nat): Outcome {
    match e
    case Registers(pid, period, processing, process) => Register(s, pid, period, processing, process)
    case Inserts(i) => Went(if i < |s.joining| then Insert(s, i) else s)
    case Deregisters(pid) => Deregister(s, pid)
    case Finds(pid) => Find(s, pid)
    case Goes(y) => if y in s.yielding then Go(s, y, toJiffies) else Went(s)
    case Expires(addr) => Went(if Due(s, addr) then Expire(s, PlaceOf(Memory(s), addr).value) else s)
    case CallbackRuns(pid) => if pid in s.callbacks then Callback(s, pid) else Went(s)
    case Dispatches => Dispatch(s)
    case TimePasses(d) => Went(s.(now := s.now + d))
  }

  function Start(now: nat): Sched {
    Sched([], None, now, 0, [], [], multiset{}, multiset{})
  }

  /** An execution: events, each of which is handled, and the states they lead through. */
  ghost predicate Execution(now: nat, events: seq<Event>, toJiffies: int -> nat, states: seq<Sched>) {
    && |states| == |events| + 1 && states[0] == Start(now)
    && forall i {:trigger events[i]} | 0 <= i < |events| ::
         Handle(states[i], events[i], toJiffies) == Went(states[i + 1])
  }
}
