/** Who wakes the sleeping tasks of MP2, and exactly how a wakeup gets lost. */
module Sleepers {
  import opened Wrappers
  import opened RateMonotonic
  import opened Dispatching
  import opened Crashes
  import opened Releases

  // ---------- whom a timer wakes ----------

  /** The timer of a listed task, and its callback right after: it wakes that task exactly if no task before it in the
      list has the same pid.  Otherwise the task keeps its state and has lost its timer. */
  lemma WakesExactly(s: Sched, i: nat)
    requires i < |s.tasks|
    ensures i < |Memory(s)|
    ensures var r := Callback(Expire(s, i), s.tasks[i].pid);
      && r.Went? && i < |r.sched.tasks|
      && r.sched.tasks[i] == s.tasks[i].(timer := None, state :=
           if forall k | 0 <= k < i :: s.tasks[k].pid != s.tasks[i].pid then Ready else s.tasks[i].state)
  {
    MemoryAt(s, i);
    var s1 := Expire(s, i);
    ListedFound(s1.tasks, i);
    hide Callback;
    CallbackAt(s1, s.tasks[i].pid, i);
    assert forall k | 0 <= k < i :: s1.tasks[k].pid == s.tasks[k].pid;
    if Lookup(s1.tasks, s.tasks[i].pid).value < i {
      assert s1.tasks[Lookup(s1.tasks, s.tasks[i].pid).value].pid == s.tasks[i].pid;
    }
  }

  lemma CallbackAt(s: Sched, pid: int, i: nat)
    requires Lookup(s.tasks, pid).Some? && i < |s.tasks|
    ensures Callback(s, pid).Went? && |Callback(s, pid).sched.tasks| == |s.tasks|
    ensures Callback(s, pid).sched.tasks[i] ==
      s.tasks[i].(state := if Lookup(s.tasks, pid) == Some(i) then Ready else s.tasks[i].state)
  {
    hide Lookup;
  }

  lemma ListedFound(tasks: seq<Task>, i: nat)
    requires i < |tasks|
    ensures Lookup(tasks, tasks[i].pid).Some? && Lookup(tasks, tasks[i].pid).value <= i
  {
  }

  // ---------- rules the callers may keep ----------

  /** Every event obeys the rule in the state it meets. */
  ghost predicate Obeys(events: seq<Event>, states: seq<Sched>, rule: (Sched, Event) -> bool)
    requires |states| > |events|
  {
    forall i {:trigger events[i]} | 0 <= i < |events| :: rule(states[i], events[i])
  }

  /** No pid is added to the list that is on it. */
  predicate NewPid(s: Sched, e: Event) {
    e.Inserts? && e.i < |s.joining| ==> Lookup(s.tasks, s.joining[e.i].pid).None?
  }

  ghost predicate UniquePids(s: Sched) {
    forall i, j | 0 <= i < j < |s.tasks| :: s.tasks[i].pid != s.tasks[j].pid
  }

  lemma InsertUnique(s: Sched, i: nat)
    requires UniquePids(s) && i < |s.joining| && Lookup(s.tasks, s.joining[i].pid).None?
    ensures UniquePids(Insert(s, i))
  {
    assert forall k | 0 < k < |Insert(s, i).tasks| :: Insert(s, i).tasks[k] == s.tasks[k - 1];
  }

  lemma HandleUnique(s: Sched, e: Event, toJiffies: int -> nat, s': Sched)
    requires UniquePids(s) && NewPid(s, e) && Handle(s, e, toJiffies) == Went(s')
    ensures UniquePids(s')
  {
    hide Register, Insert, Find, Go, Expire, Callback, Dispatch, PlaceOf, Due, Lookup;
    if e.Registers? {
      RegisterChecks(s, e.pid, e.period, e.processing, e.process);
    } else if e.Inserts? {
      if e.i < |s.joining| { InsertUnique(s, e.i); }
    } else if !e.Deregisters? {
      HandleInPlace(s, e, toJiffies, s');
    }
  }

  lemma {:induction false} PidsStayUnique(
      now: nat, events: seq<Event>, toJiffies: int -> nat, states: seq<Sched>, k: nat)
    requires Execution(now, events, toJiffies, states) && k < |states|
    requires Obeys(events, states, NewPid)
    ensures UniquePids(states[k])
  {
    hide Handle, NewPid;
    if k > 0 {
      PidsStayUnique(now, events, toJiffies, states, k - 1);
      HandleUnique(states[k - 1], events[k - 1], toJiffies, states[k]);
    }
  }

  // ---------- a wakeup is on its way ----------

  /** The record sleeps after a yield. */
  predicate Asleep(t: Task) {
    t.state == Sleeping && t.next != 0
  }

  /** The timer is armed, and at the release if that is asked for. */
  predicate Set(t: Task, atRelease: bool) {
    if atRelease then t.timer == Some(t.next) else t.timer.Some?
  }

  /** A yield of the task is about to arm its timer, or to find the release over. */
  predicate Underway(yielding: multiset<Yield>, addr: nat) {
    Yield(addr, Moved) in yielding || Yield(addr, Checked) in yielding
  }

  predicate Covered(s: Sched, t: Task, atRelease: bool) {
    Set(t, atRelease) || t.pid in s.callbacks || Underway(s.yielding, t.addr)
  }

  /** Every listed task asleep has its timer armed, or a callback in flight, or a yield that is about to arm it. */
  ghost predicate Awaited(s: Sched, atRelease: bool) {
    forall i | 0 <= i < |s.tasks| && Asleep(s.tasks[i]) :: Covered(s, s.tasks[i], atRelease)
  }

  /** A yield writes SLEEPING, or finds the release of a task that sleeps over and returns; no callback of the task is
      in flight, no other yield of it is about to arm its timer, and the timer is not armed. */
  predicate Loses(s: Sched, e: Event, atRelease: bool) {
    && e.Goes? && e.y in s.yielding && PlaceOf(s.tasks, e.y.addr).Some?
    && var t := s.tasks[PlaceOf(s.tasks, e.y.addr).value];
       && !Set(t, atRelease) && t.pid !in s.callbacks && !Underway(s.yielding - multiset{e.y}, t.addr)
       && t.next != 0
       && (e.y.phase == Armed || (e.y.phase == Moved && t.state == Sleeping && t.next < s.now))
  }

  lemma GoOthers(s: Sched, y: Yield, toJiffies: int -> nat, addr: nat)
    requires Go(s, y, toJiffies).Went? && y in s.yielding && addr != y.addr
    ensures Underway(s.yielding, addr) ==> Underway(Go(s, y, toJiffies).sched.yielding, addr)
  {
    hide PlaceOf, Store, NextRelease;
  }

  /** The yields under way after a step of one, on its own record. */
  lemma GoOwn(s: Sched, y: Yield, toJiffies: int -> nat, i: nat)
    requires References(s) && Go(s, y, toJiffies).Went? && y in s.yielding
    requires i < |Memory(s)| && Memory(s)[i].addr == y.addr
    ensures var next, over := Go(s, y, toJiffies).sched.yielding, Memory(s)[i].next < s.now;
      Underway(next, y.addr) <==>
        Underway(s.yielding - multiset{y}, y.addr) || y.phase == Found || (y.phase == Moved && !over)
  {
    hide PlaceOf, Store, NextRelease, References, Memory;
    AtPlace(s, i);
  }

  lemma GoAwaited(s: Sched, y: Yield, toJiffies: int -> nat, atRelease: bool)
    requires References(s) && Awaited(s, atRelease) && Go(s, y, toJiffies).Went? && y in s.yielding
    ensures Awaited(Go(s, y, toJiffies).sched, atRelease) <==> !Loses(s, Goes(y), atRelease)
  {
    hide References, PlaceOf, Go, Underway, Memory;
    var s' := Go(s, y, toJiffies).sched;
    GoInPlace(s, y, toJiffies);
    forall i | 0 <= i < |s.tasks|
      ensures i < |s'.tasks| && (Asleep(s'.tasks[i]) ==>
        (Covered(s', s'.tasks[i], atRelease) <==> !(s.tasks[i].addr == y.addr && Loses(s, Goes(y), atRelease))))
    {
      GoRecord(s, y, toJiffies, atRelease, i);
    }
    if Loses(s, Goes(y), atRelease) {
      var i := PlaceOf(s.tasks, y.addr).value;
      GoRecord(s, y, toJiffies, atRelease, i);
      LoserSleeps(s, y, toJiffies, atRelease);
    }
  }

  lemma ListedPlace(s: Sched, i: nat)
    requires References(s) && i < |s.tasks|
    ensures PlaceOf(s.tasks, s.tasks[i].addr) == Some(i)
  {
    ListDistinct(s);
  }

  lemma GoTask(s: Sched, y: Yield, toJiffies: int -> nat, i: nat)
    requires References(s) && Go(s, y, toJiffies).Went? && i < |s.tasks|
    ensures var s' := Go(s, y, toJiffies).sched;
      && |s'.tasks| == |s.tasks| && s'.callbacks == s.callbacks
      && s'.tasks[i] == if y.addr == s.tasks[i].addr then Yielded(s.tasks[i], y.phase, s.now, toJiffies) else s.tasks[i]
  {
    hide References, Go, Yielded, PlaceOf;
    var s' := Go(s, y, toJiffies).sched;
    GoInPlace(s, y, toJiffies);
    MemoryAt(s, i);
    GoRewrites(s, y, toJiffies, i);
    MemoryAt(s', i);
  }

  lemma GoRecord(s: Sched, y: Yield, toJiffies: int -> nat, atRelease: bool, i: nat)
    requires References(s) && Awaited(s, atRelease) && Go(s, y, toJiffies).Went? && y in s.yielding && i < |s.tasks|
    ensures var s' := Go(s, y, toJiffies).sched;
      i < |s'.tasks| && (Asleep(s'.tasks[i]) ==>
        (Covered(s', s'.tasks[i], atRelease) <==> !(s.tasks[i].addr == y.addr && Loses(s, Goes(y), atRelease))))
  {
    hide References, PlaceOf, Go, Underway, NextRelease, Memory;
    GoTask(s, y, toJiffies, i);
    if s.tasks[i].addr == y.addr {
      ListedPlace(s, i);
      MemoryIndex(s, i);
      GoOwn(s, y, toJiffies, i);
      if y.phase == Slept || y.phase == Armed { SameUnderway(s.yielding, y); }
    } else {
      GoOthers(s, y, toJiffies, s.tasks[i].addr);
    }
  }

  lemma SameUnderway(yielding: multiset<Yield>, y: Yield)
    requires y.phase != Moved && y.phase != Checked
    ensures Underway(yielding - multiset{y}, y.addr) == Underway(yielding, y.addr)
  {
  }

  lemma MemoryIndex(s: Sched, i: nat)
    requires i < |s.tasks|
    ensures i < |Memory(s)| && Memory(s)[i] == s.tasks[i]
  {
  }

  lemma LoserSleeps(s: Sched, y: Yield, toJiffies: int -> nat, atRelease: bool)
    requires References(s) && Go(s, y, toJiffies).Went? && Loses(s, Goes(y), atRelease)
    ensures var i, s' := PlaceOf(s.tasks, y.addr).value, Go(s, y, toJiffies).sched;
      i < |s'.tasks| && Asleep(s'.tasks[i])
  {
    hide References, Go, Underway, NextRelease, Memory;
    GoTask(s, y, toJiffies, PlaceOf(s.tasks, y.addr).value);
  }

  /** What any other step does to a sleeper. */
  lemma StillAwaited(s: Sched, e: Event, toJiffies: int -> nat, s': Sched, atRelease: bool, j: nat)
    requires References(s) && UniquePids(s) && Awaited(s, atRelease) && Handle(s, e, toJiffies) == Went(s') && !e.Goes?
    requires j < |s'.tasks| && Asleep(s'.tasks[j])
    ensures Covered(s', s'.tasks[j], atRelease)
  {
    hide References, Register, Insert, Deregister, Expire, Callback, Dispatch, PlaceOf, Due, Lookup, Memory;
    if e.Inserts? {
      if e.i < |s.joining| { InsertSleepers(s, e.i, j); }
    } else if e.Deregisters? {
      DeregisterSleepers(s, e.pid, j);
    } else if e.Dispatches? {
      DispatchWent(s);
      PassSleepers(s, j);
    } else {
      ListedRewrites(s, e, toJiffies, s', j);
      if e.CallbackRuns? && e.pid in s.callbacks && s.tasks[j].pid == e.pid { CallbackCovers(s, e.pid, j); }
    }
  }

  lemma InsertSleepers(s: Sched, i: nat, j: nat)
    requires i < |s.joining| && j < |Insert(s, i).tasks|
    ensures var s' := Insert(s, i);
      && (Asleep(s'.tasks[j]) ==> j > 0 && j - 1 < |s.tasks| && s'.tasks[j] == s.tasks[j - 1])
      && s'.callbacks == s.callbacks && s'.yielding == s.yielding
  {
  }

  lemma DeregisterSleepers(s: Sched, pid: int, j: nat)
    requires Deregister(s, pid).Went? && j < |Deregister(s, pid).sched.tasks|
    ensures var s' := Deregister(s, pid).sched;
      && (exists i | 0 <= i < |s.tasks| :: s'.tasks[j] == s.tasks[i])
      && s'.callbacks == s.callbacks && s'.yielding == s.yielding
  {
    hide Lookup;
    var i := Lookup(s.tasks, pid).value;
    assert Deregister(s, pid).sched.tasks[j] == s.tasks[if j < i then j else j + 1];
  }

  lemma PassSleepers(s: Sched, j: nat)
    requires j < |Pass(s).tasks|
    ensures var s' := Pass(s);
      && j < |s.tasks| && (Asleep(s'.tasks[j]) ==> s'.tasks[j] == s.tasks[j])
      && s'.callbacks == s.callbacks && s'.yielding == s.yielding
  {
    hide Pick, PeriodAt, Preempts;
  }

  /** What becomes of a listed record, and of the callbacks and yields. */
  lemma ListedRewrites(s: Sched, e: Event, toJiffies: int -> nat, s': Sched, j: nat)
    requires References(s) && Handle(s, e, toJiffies) == Went(s') && j < |s'.tasks|
    requires !e.Inserts? && !e.Deregisters? && !e.Dispatches? && !e.Goes?
    ensures j < |s.tasks| && s'.tasks[j] == Rewritten(s, e, toJiffies, s.tasks[j])
    ensures s.yielding <= s'.yielding
    ensures !e.CallbackRuns? ==> s.callbacks <= s'.callbacks
    ensures e.CallbackRuns? && e.pid in s.callbacks ==> s'.callbacks == s.callbacks - multiset{e.pid}
    ensures e.CallbackRuns? && e.pid !in s.callbacks ==> s'.callbacks == s.callbacks
    ensures e.Expires? && Due(s, e.addr) && s.tasks[j].addr == e.addr ==> s.tasks[j].pid in s'.callbacks
  {
    hide References, Register, Expire, Callback, PlaceOf, Due, Lookup, Rewritten, InPlace;
    SameCount(s, e, toJiffies, s');
    HandleRewrites(s, e, toJiffies, s', j);
    MemoryAt(s, j);
    MemoryAt(s', j);
    if e.Registers? {
      RegisterChecks(s, e.pid, e.period, e.processing, e.process);
    } else {
      HandleInPlace(s, e, toJiffies, s');
      if e.Finds? { FindYielding(s, e.pid); }
      if e.Expires? { AtPlace(s, j); }
    }
  }

  lemma SameCount(s: Sched, e: Event, toJiffies: int -> nat, s': Sched)
    requires Handle(s, e, toJiffies) == Went(s') && !e.Inserts? && !e.Deregisters?
    ensures |s'.tasks| == |s.tasks|
  {
    hide Handle, Memory, InPlace;
    if e.Registers? {
      OthersRewrite(s, e, toJiffies, s');
    } else {
      HandleInPlace(s, e, toJiffies, s');
      SameLength(s, s');
    }
  }

  lemma FindYielding(s: Sched, pid: int)
    ensures Find(s, pid).Went? ==> s.yielding <= Find(s, pid).sched.yielding
  {
  }

  /** With unique pids a callback leaves no sleeper of its pid. */
  lemma CallbackCovers(s: Sched, pid: int, j: nat)
    requires UniquePids(s) && j < |s.tasks| && s.tasks[j].pid == pid
    ensures Lookup(s.tasks, pid).Some? && s.tasks[Lookup(s.tasks, pid).value].addr == s.tasks[j].addr
  {
  }

  /** With unique pids, exactly that step loses a wakeup. */
  lemma LostExactly(s: Sched, e: Event, toJiffies: int -> nat, s': Sched, atRelease: bool)
    requires References(s) && UniquePids(s) && Awaited(s, atRelease) && Handle(s, e, toJiffies) == Went(s')
    ensures Awaited(s', atRelease) <==> !Loses(s, e, atRelease)
  {
    hide References, UniquePids, Loses, Go, Covered;
    LosesYielding(s, e, atRelease);
    if e.Goes? {
      if e.y in s.yielding { GoAwaited(s, e.y, toJiffies, atRelease); }
    } else {
      hide Handle;
      forall j | 0 <= j < |s'.tasks| && Asleep(s'.tasks[j]) ensures Covered(s', s'.tasks[j], atRelease) {
        StillAwaited(s, e, toJiffies, s', atRelease, j);
      }
    }
  }

  lemma LosesYielding(s: Sched, e: Event, atRelease: bool)
    ensures Loses(s, e, atRelease) ==> e.Goes? && e.y in s.yielding
  {
  }

  /** Over any run with unique pids: every sleeper is sure to be woken at every time, and at its release if that is
      asked for, exactly if none of those steps is made. */
  lemma {:induction false} SleepersAwaited(
      now: nat, events: seq<Event>, toJiffies: int -> nat, states: seq<Sched>, n: nat, atRelease: bool)
    requires Execution(now, events, toJiffies, states) && Obeys(events, states, NewPid) && n <= |events|
    ensures (forall k {:trigger states[k]} | 0 <= k <= n :: Awaited(states[k], atRelease)) <==>
      (forall i {:trigger events[i]} | 0 <= i < n :: !Loses(states[i], events[i], atRelease))
  {
    hide Handle, NewPid, Loses, Awaited;
    if n == 0 {
      assert Awaited(states[0], atRelease) by { NobodyAsleep(now, atRelease); }
    } else {
      SleepersAwaited(now, events, toJiffies, states, n - 1, atRelease);
      ReferencesHold(now, events, toJiffies, states, n - 1);
      PidsStayUnique(now, events, toJiffies, states, n - 1);
      if Awaited(states[n - 1], atRelease) {
        LostExactly(states[n - 1], events[n - 1], toJiffies, states[n], atRelease);
      }
    }
  }

  lemma NobodyAsleep(now: nat, atRelease: bool)
    ensures Awaited(Start(now), atRelease)
  {
  }

  // ---------- when it gets lost ----------

  /** A yield arms the timer of the record at this address. */
  predicate Arming(s: Sched, e: Event, addr: nat) {
    e == Goes(Yield(addr, Checked)) && e.y in s.yielding
  }

  lemma {:induction false} PastArming(
      now: nat, events: seq<Event>, toJiffies: int -> nat, states: seq<Sched>, k: nat, addr: nat)
    requires Execution(now, events, toJiffies, states) && k <= |events| && Yield(addr, Armed) in states[k].yielding
    ensures exists i | 0 <= i < k :: Arming(states[i], events[i], addr)
  {
    hide Handle;
    if k > 0 {
      var y := Yield(addr, Armed);
      if y in states[k - 1].yielding {
        PastArming(now, events, toJiffies, states, k - 1, addr);
      } else {
        YieldFrom(states[k - 1], events[k - 1], toJiffies, states[k], y);
      }
    }
  }

  /** The timer of the task at this address is armed, if the task is still listed. */
  ghost predicate ArmedAt(s: Sched, addr: nat) {
    && (forall r | r in s.joining :: r.addr != addr) && addr < s.issued
    && forall j | 0 <= j < |s.tasks| && s.tasks[j].addr == addr :: s.tasks[j].timer.Some?
  }

  lemma JoiningFrom(s: Sched, e: Event, toJiffies: int -> nat, s': Sched)
    requires Handle(s, e, toJiffies) == Went(s')
    ensures forall r | r in s'.joining :: r in s.joining || r.addr == s.issued
    ensures s.issued <= s'.issued
  {
    hide Register, Deregister, Find, Go, Expire, Callback, Dispatch, InPlace, Due, PlaceOf;
    Crashes.IssuedGrows(s, e, toJiffies, s');
    if e.Registers? {
      RegisterChecks(s, e.pid, e.period, e.processing, e.process);
    } else if e.Deregisters? {
      DeregisterSizes(s, e.pid);
    } else if !e.Inserts? {
      HandleInPlace(s, e, toJiffies, s');
      InPlaceJoining(s, s');
    }
  }

  lemma ArmingArms(s: Sched, e: Event, toJiffies: int -> nat, s': Sched, addr: nat)
    requires References(s) && Apart(s) && Handle(s, e, toJiffies) == Went(s') && Arming(s, e, addr)
    requires HasRecord(s, addr)
    ensures ArmedAt(s', addr)
  {
    hide References, Go;
    JoiningFrom(s, e, toJiffies, s');
    NotNewcomer(s, addr);
    RecordIssued(s, addr);
    GoInPlace(s, e.y, toJiffies);
    forall j | 0 <= j < |s'.tasks| && s'.tasks[j].addr == addr ensures s'.tasks[j].timer.Some? {
      GoTask(s, e.y, toJiffies, j);
    }
  }

  lemma RecordIssued(s: Sched, addr: nat)
    requires References(s) && HasRecord(s, addr)
    ensures addr < s.issued
  {
    hide Memory;
  }

  lemma ArmedStays(s: Sched, e: Event, toJiffies: int -> nat, s': Sched, addr: nat)
    requires References(s) && Handle(s, e, toJiffies) == Went(s') && ArmedAt(s, addr) && e != Expires(addr)
    ensures ArmedAt(s', addr)
  {
    hide References, Register, Insert, Deregister, Find, Go, Expire, Callback, Dispatch, Lookup, Memory, Due, PlaceOf;
    hide InPlace;
    JoiningFrom(s, e, toJiffies, s');
    forall j | 0 <= j < |s'.tasks| && s'.tasks[j].addr == addr ensures s'.tasks[j].timer.Some? {
      if e.Inserts? {
        if e.i < |s.joining| { InsertTasks(s, e.i, j); }
      } else if e.Deregisters? {
        DeregisterSleepers(s, e.pid, j);
      } else if e.Dispatches? {
        DispatchWent(s);
        PassTimers(s, j);
      } else if e.Goes? {
        if e.y in s.yielding {
          GoInPlace(s, e.y, toJiffies);
          SameLength(s, s');
          GoTask(s, e.y, toJiffies, j);
        }
      } else {
        ListedRewrites(s, e, toJiffies, s', j);
      }
    }
  }

  lemma InsertTasks(s: Sched, i: nat, j: nat)
    requires i < |s.joining| && j < |Insert(s, i).tasks|
    ensures s.joining[i] in s.joining && j <= |s.tasks|
    ensures Insert(s, i).tasks[j] == if j == 0 then Newcomer(s.joining[i]) else s.tasks[j - 1]
  {
  }

  lemma PassTimers(s: Sched, j: nat)
    requires j < |Pass(s).tasks|
    ensures j < |s.tasks| && Pass(s).tasks[j].timer == s.tasks[j].timer && Pass(s).tasks[j].addr == s.tasks[j].addr
  {
    hide Pick, PeriodAt, Preempts;
  }

  lemma {:induction false} ArmedUntilExpiry(
      now: nat, events: seq<Event>, toJiffies: int -> nat, states: seq<Sched>, i: nat, k: nat, addr: nat)
    requires Execution(now, events, toJiffies, states) && i < k <= |events|
    requires Arming(states[i], events[i], addr)
    requires forall m {:trigger events[m]} | i < m < k :: events[m] != Expires(addr)
    ensures ArmedAt(states[k], addr)
  {
    hide Handle, ArmedAt, References, Apart, HasRecord;
    ReferencesHold(now, events, toJiffies, states, k - 1);
    if k == i + 1 {
      YieldHasRecord(now, events, toJiffies, states, i, events[i].y);
      ArmingArms(states[i], events[i], toJiffies, states[k], addr);
    } else {
      ArmedUntilExpiry(now, events, toJiffies, states, i, k - 1, addr);
      ArmedStays(states[k - 1], events[k - 1], toJiffies, states[k], addr);
    }
  }

  /** A write of SLEEPING loses the wakeup only if, since the yield armed the timer, that timer has expired. */
  lemma LostFired(now: nat, events: seq<Event>, toJiffies: int -> nat, states: seq<Sched>, k: nat)
    requires Execution(now, events, toJiffies, states) && k < |events| && Loses(states[k], events[k], false)
    requires events[k].y.phase == Armed
    ensures exists i | 0 <= i < k :: Arming(states[i], events[i], events[k].y.addr)
    ensures forall i | 0 <= i < k && Arming(states[i], events[i], events[k].y.addr) ::
      exists m | i < m < k :: events[m] == Expires(events[k].y.addr)
  {
    hide Handle, Arming, Underway;
    var addr := events[k].y.addr;
    PastArming(now, events, toJiffies, states, k, addr);
    forall i | 0 <= i < k && Arming(states[i], events[i], addr)
      ensures exists m | i < m < k :: events[m] == Expires(addr)
    {
      if forall m {:trigger events[m]} | i < m < k :: events[m] != Expires(addr) {
        ArmedUntilExpiry(now, events, toJiffies, states, i, k, addr);
      }
    }
  }
}
