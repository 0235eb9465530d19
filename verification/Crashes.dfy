/** How a run of MP2 gets to a null dereference: whose process pointer is null, and which callbacks find nobody. */
module Crashes {
  import opened Wrappers
  import opened RateMonotonic
  import opened Dispatching

  // ---------- where records come from ----------

  /** What a record was registered with. */
  function RequestOf(t: Task): Request {
    Request(t.addr, t.pid, t.period, t.processing, t.process)
  }

  /** A record of this identity is in memory, or about to be added. */
  ghost predicate Known(s: Sched, r: Request) {
    r in s.joining || exists i | 0 <= i < |Memory(s)| :: RequestOf(Memory(s)[i]) == r
  }

  /** The event registers this record. */
  predicate Bears(s: Sched, e: Event, r: Request) {
    e == Registers(r.pid, r.period, r.processing, r.process) && s.issued == r.addr
  }

  lemma KnownBefore(s: Sched, e: Event, toJiffies: int -> nat, s': Sched, r: Request)
    requires Handle(s, e, toJiffies) == Went(s') && Known(s', r)
    ensures Known(s, r) || Bears(s, e, r)
  {
    hide Register, Insert, Deregister, Find, Go, Expire, Callback, Dispatch, Due, PlaceOf, InPlace, Memory;
    if e.Registers? {
      RegisterChecks(s, e.pid, e.period, e.processing, e.process);
      SameMemory(s, s');
    } else if e.Inserts? {
      if e.i < |s.joining| { InsertKnown(s, e.i, r); }
    } else if e.Deregisters? {
      DeregisterKnown(s, e.pid, r);
    } else {
      HandleInPlace(s, e, toJiffies, s');
      InPlaceApart(s, s');
      InPlaceJoining(s, s');
    }
  }

  lemma InPlaceJoining(s: Sched, s': Sched)
    requires InPlace(s, s')
    ensures s'.joining == s.joining
  {
  }

  lemma InsertKnown(s: Sched, i: nat, r: Request)
    requires i < |s.joining| && Known(Insert(s, i), r)
    ensures Known(s, r)
  {
    hide Memory;
    InsertMemory(s, i);
    var m := Memory(Insert(s, i));
    assert forall k | 0 < k < |m| :: m[k] == Memory(s)[k - 1];
    assert s.joining[i] in s.joining && RequestOf(m[0]) == s.joining[i];
  }

  lemma DeregisterKnown(s: Sched, pid: int, r: Request)
    requires Deregister(s, pid).Went? && Known(Deregister(s, pid).sched, r)
    ensures Known(s, r)
  {
    hide Memory, Lookup, Deregister;
    DeregisterSizes(s, pid);
    var s', i := Deregister(s, pid).sched, Lookup(s.tasks, pid).value;
    if r !in s.joining {
      var j :| 0 <= j < |Memory(s')| && RequestOf(Memory(s')[j]) == r;
      DeregisterMemory(s, pid, j);
      assert RequestOf(Memory(s)[if j < i then j else if j < |Memory(s)| - 1 then j + 1 else i]) == r;
    }
  }

  lemma DeregisterSizes(s: Sched, pid: int)
    requires Deregister(s, pid).Went?
    ensures var s' := Deregister(s, pid).sched;
      && |Memory(s')| == |Memory(s)| && s'.joining == s.joining && s'.issued == s.issued
      && Lookup(s.tasks, pid).Some? && Lookup(s.tasks, pid).value < |Memory(s)|
  {
  }

  /** Every record, on the list, freed or about to be added, comes from a registration of its pid. */
  lemma {:induction false} EveryRecordBorn(
      now: nat, events: seq<Event>, toJiffies: int -> nat, states: seq<Sched>, k: nat, r: Request)
    requires Execution(now, events, toJiffies, states) && k <= |events| && Known(states[k], r)
    ensures exists j | 0 <= j < k :: Bears(states[j], events[j], r)
  {
    hide Handle, Known, Bears;
    if k == 0 {
      NobodyKnown(now, r);
    } else {
      KnownBefore(states[k - 1], events[k - 1], toJiffies, states[k], r);
      if Known(states[k - 1], r) { EveryRecordBorn(now, events, toJiffies, states, k - 1, r); }
    }
  }

  lemma NobodyKnown(now: nat, r: Request)
    ensures !Known(Start(now), r)
  {
  }

  lemma IssuedGrows(s: Sched, e: Event, toJiffies: int -> nat, s': Sched)
    requires Handle(s, e, toJiffies) == Went(s')
    ensures s.issued + (if e.Registers? then 1 else 0) <= s'.issued
  {
    hide Register, Insert, Deregister, Find, Go, Expire, Callback, Dispatch, Due, PlaceOf;
    if e.Registers? {
      RegisterChecks(s, e.pid, e.period, e.processing, e.process);
    } else if e.Deregisters? {
      DeregisterSizes(s, e.pid);
    } else if e.Inserts? {
      InsertIssued(s, e.i);
    } else {
      HandleInPlace(s, e, toJiffies, s');
    }
  }

  lemma InsertIssued(s: Sched, i: nat)
    ensures i < |s.joining| ==> Insert(s, i).issued == s.issued
  {
  }

  lemma {:induction false} IssuedBetween(
      now: nat, events: seq<Event>, toJiffies: int -> nat, states: seq<Sched>, i: nat, k: nat)
    requires Execution(now, events, toJiffies, states) && i < k <= |events| && events[i].Registers?
    ensures states[i].issued < states[k].issued
  {
    hide Handle;
    IssuedGrows(states[k - 1], events[k - 1], toJiffies, states[k]);
    if i < k - 1 { IssuedBetween(now, events, toJiffies, states, i, k - 1); }
  }

  /** An address is given to one registration only. */
  lemma BornOnce(
      now: nat, events: seq<Event>, toJiffies: int -> nat, states: seq<Sched>, i: nat, j: nat)
    requires Execution(now, events, toJiffies, states) && i < |events| && j < |events|
    requires events[i].Registers? && events[j].Registers? && states[i].issued == states[j].issued
    ensures i == j
  {
    hide Handle;
    if i < j { IssuedBetween(now, events, toJiffies, states, i, j); }
    if j < i { IssuedBetween(now, events, toJiffies, states, j, i); }
  }

  // ---------- null process pointers ----------

  /** The record at this address was registered for a pid that no process had. */
  ghost predicate BornDead(events: seq<Event>, states: seq<Sched>, k: nat, addr: nat)
    requires k <= |events| < |states|
  {
    exists j | 0 <= j < k :: events[j].Registers? && !events[j].process && states[j].issued == addr
  }

  lemma DeadExactly(now: nat, events: seq<Event>, toJiffies: int -> nat, states: seq<Sched>, k: nat, i: nat)
    requires Execution(now, events, toJiffies, states) && k <= |events| && i < |Memory(states[k])|
    ensures !Memory(states[k])[i].process <==> BornDead(events, states, k, Memory(states[k])[i].addr)
  {
    hide Handle, Memory;
    var t := Memory(states[k])[i];
    assert Known(states[k], RequestOf(t));
    EveryRecordBorn(now, events, toJiffies, states, k, RequestOf(t));
    var j :| 0 <= j < k && Bears(states[j], events[j], RequestOf(t));
    if BornDead(events, states, k, t.addr) {
      var m :| 0 <= m < k && events[m].Registers? && !events[m].process && states[m].issued == t.addr;
      BornOnce(now, events, toJiffies, states, j, m);
    }
  }

  /** A yield under way has a record, on the list or freed. */
  ghost predicate HasRecord(s: Sched, addr: nat) {
    exists i | 0 <= i < |Memory(s)| :: Memory(s)[i].addr == addr
  }

  lemma HasRecordStays(s: Sched, e: Event, toJiffies: int -> nat, s': Sched, addr: nat)
    requires Handle(s, e, toJiffies) == Went(s') && HasRecord(s, addr)
    ensures HasRecord(s', addr)
  {
    hide Register, Insert, Deregister, Find, Go, Expire, Callback, Dispatch, Due, PlaceOf, InPlace, Memory, Lookup;
    var i :| 0 <= i < |Memory(s)| && Memory(s)[i].addr == addr;
    if e.Registers? {
      RegisterChecks(s, e.pid, e.period, e.processing, e.process);
      SameMemory(s, s');
    } else if e.Inserts? {
      if e.i < |s.joining| {
        InsertMemory(s, e.i);
        assert Memory(s')[i + 1].addr == addr;
      }
    } else if e.Deregisters? {
      DeregisterSizes(s, e.pid);
      var gone := Lookup(s.tasks, e.pid).value;
      var j := if i < gone then i else if i == gone then |Memory(s)| - 1 else i - 1;
      DeregisterMemory(s, e.pid, j);
      assert Memory(s')[j].addr == addr;
    } else {
      HandleInPlace(s, e, toJiffies, s');
      InPlaceApart(s, s');
      assert Memory(s')[i].addr == addr;
    }
  }

  /** A step begins a yield only on a listed record, and moves on only a yield under way. */
  lemma YieldFrom(s: Sched, e: Event, toJiffies: int -> nat, s': Sched, y: Yield)
    requires Handle(s, e, toJiffies) == Went(s') && y in s'.yielding && y !in s.yielding
    ensures e.Finds? || (e.Goes? && e.y in s.yielding && e.y.addr == y.addr)
    ensures e.Finds? ==> y.phase == Found && Lookup(s.tasks, e.pid).Some?
    ensures e.Finds? ==> s.tasks[Lookup(s.tasks, e.pid).value].addr == y.addr
    ensures e.Goes? ==> Next(e.y.phase) == Some(y.phase)
  {
    hide Register, Insert, Deregister, Expire, Callback, Dispatch, Due, PlaceOf, InPlace, Quiet, Lookup, Store, Memory;
    if e.Registers? {
      RegisterChecks(s, e.pid, e.period, e.processing, e.process);
    } else if e.Inserts? {
      InsertYielding(s, e.i);
    } else if e.Deregisters? {
      DeregisterYielding(s, e.pid);
    } else if !e.Finds? {
      HandleInPlace(s, e, toJiffies, s');
      if e.Goes? { GoYielding(s, e.y, toJiffies); }
    }
  }

  function Next(phase: Phase): Option<Phase> {
    match phase
    case Found => Some(Moved)
    case Moved => Some(Checked)
    case Checked => Some(Armed)
    case Armed => Some(Slept)
    case Slept => None
  }

  lemma InsertYielding(s: Sched, i: nat)
    ensures i < |s.joining| ==> Insert(s, i).yielding == s.yielding
  {
  }

  lemma DeregisterYielding(s: Sched, pid: int)
    requires Deregister(s, pid).Went?
    ensures Deregister(s, pid).sched.yielding == s.yielding && Deregister(s, pid).sched.callbacks == s.callbacks
  {
  }

  lemma GoYielding(s: Sched, y: Yield, toJiffies: int -> nat)
    requires Go(s, y, toJiffies).Went?
    ensures var s' := Go(s, y, toJiffies).sched;
      forall z | z in s'.yielding && z !in s.yielding :: z.addr == y.addr && Next(y.phase) == Some(z.phase)
  {
    hide PlaceOf, Store;
  }

  lemma {:induction false} YieldHasRecord(
      now: nat, events: seq<Event>, toJiffies: int -> nat, states: seq<Sched>, k: nat, y: Yield)
    requires Execution(now, events, toJiffies, states) && k <= |events| && y in states[k].yielding
    ensures HasRecord(states[k], y.addr)
    decreases k, 0
  {
    hide Handle, HasRecord;
    if k > 0 {
      var s, e := states[k - 1], events[k - 1];
      if y in s.yielding {
        YieldHasRecord(now, events, toJiffies, states, k - 1, y);
      } else {
        YieldFrom(s, e, toJiffies, states[k], y);
        if e.Goes? {
          YieldHasRecord(now, events, toJiffies, states, k - 1, e.y);
        } else {
          ListedHasRecord(s, Lookup(s.tasks, e.pid).value);
        }
      }
      HasRecordStays(s, e, toJiffies, states[k], y.addr);
    }
  }

  lemma ListedHasRecord(s: Sched, i: nat)
    requires i < |s.tasks|
    ensures HasRecord(s, s.tasks[i].addr)
  {
    MemoryAt(s, i);
  }

  lemma NullPass(now: nat, events: seq<Event>, toJiffies: int -> nat, states: seq<Sched>, k: nat)
    requires Execution(now, events, toJiffies, states) && k <= |events|
    ensures var s := states[k];
      Handle(s, Dispatches, toJiffies).Crash? <==>
        Pick(s.tasks).Some? && BornDead(events, states, k, s.tasks[Pick(s.tasks).value].addr)
  {
    hide Handle, Memory, BornDead, References;
    var s := states[k];
    CrashesExactly(now, events, toJiffies, states, k, Dispatches);
    if Pick(s.tasks).Some? {
      ListShorter(s);
      MemoryAt(s, Pick(s.tasks).value);
      DeadExactly(now, events, toJiffies, states, k, Pick(s.tasks).value);
    }
  }

  lemma NullYield(now: nat, events: seq<Event>, toJiffies: int -> nat, states: seq<Sched>, k: nat, y: Yield)
    requires Execution(now, events, toJiffies, states) && k <= |events|
    ensures var s := states[k];
      Handle(s, Goes(y), toJiffies).Crash? <==>
        y in s.yielding && y.phase == Slept && BornDead(events, states, k, y.addr)
  {
    hide Handle, Memory, BornDead;
    var s := states[k];
    CrashesExactly(now, events, toJiffies, states, k, Goes(y));
    if y in s.yielding {
      YieldHasRecord(now, events, toJiffies, states, k, y);
      ReferencesHold(now, events, toJiffies, states, k);
      var i :| 0 <= i < |Memory(s)| && Memory(s)[i].addr == y.addr;
      DeadExactly(now, events, toJiffies, states, k, i);
      assert forall j | 0 <= j < |Memory(s)| && Memory(s)[j].addr == y.addr :: j == i;
    }
  }

  /** Over any run, the null pointers are those of registrations for pids that no process had: a pass crashes exactly
      if it picks such a task, and the last step of a yield exactly if the yield is of such a task. */
  lemma NullExactly(now: nat, events: seq<Event>, toJiffies: int -> nat, states: seq<Sched>, k: nat, y: Yield)
    requires Execution(now, events, toJiffies, states) && k <= |events|
    ensures var s := states[k];
      && (Handle(s, Dispatches, toJiffies).Crash? <==>
            Pick(s.tasks).Some? && BornDead(events, states, k, s.tasks[Pick(s.tasks).value].addr))
      && (Handle(s, Goes(y), toJiffies).Crash? <==>
            y in s.yielding && y.phase == Slept && BornDead(events, states, k, y.addr))
  {
    hide Handle, BornDead;
    NullPass(now, events, toJiffies, states, k);
    NullYield(now, events, toJiffies, states, k, y);
  }

  lemma ListShorter(s: Sched)
    ensures |s.tasks| <= |Memory(s)|
  {
  }

  /** So if every registration names a process, no run dereferences a null process pointer. */
  lemma ProcessesSuffice(now: nat, events: seq<Event>, toJiffies: int -> nat, states: seq<Sched>, k: nat, y: Yield)
    requires Execution(now, events, toJiffies, states) && k <= |events|
    requires forall e | e in events && e.Registers? :: e.process
    ensures !Handle(states[k], Dispatches, toJiffies).Crash? && !Handle(states[k], Goes(y), toJiffies).Crash?
  {
    hide Handle;
    NullExactly(now, events, toJiffies, states, k, y);
    assert forall j | 0 <= j < k && events[j].Registers? :: events[j] in events;
  }

  // ---------- callbacks that find nobody ----------

  /** A callback of this pid is in flight and no listed task has the pid: it will crash when it gets the lock. */
  predicate Stranded(s: Sched, pid: int) {
    pid in s.callbacks && Lookup(s.tasks, pid).None?
  }

  /** De-registering the only task of a pid while a callback of it is in flight, or the expiry of the timer of a freed
      record when no task of its pid is listed. */
  predicate Strands(s: Sched, e: Event, pid: int) {
    || (&& e == Deregisters(pid) && pid in s.callbacks && Lookup(s.tasks, pid).Some?
        && Lookup(Drop(s.tasks, Lookup(s.tasks, pid).value), pid).None?)
    || (e.Expires? && Due(s, e.addr) && Memory(s)[PlaceOf(Memory(s), e.addr).value].pid == pid
        && Lookup(s.tasks, pid).None?)
  }

  /** Handlers that keep every pid at its place keep what a lookup finds. */
  lemma SameLookup(s: Sched, s': Sched, pid: int)
    requires InPlace(s, s')
    ensures Lookup(s.tasks, pid) == Lookup(s'.tasks, pid)
  {
    var i, k := Lookup(s.tasks, pid), Lookup(s'.tasks, pid);
    if i.Some? && k.Some? {
      assert !(i.value < k.value) && !(k.value < i.value);
    }
  }

  lemma InsertListed(s: Sched, i: nat, pid: int)
    requires i < |s.joining|
    ensures Insert(s, i).callbacks == s.callbacks
    ensures Lookup(Insert(s, i).tasks, pid).Some? <==> s.joining[i].pid == pid || Lookup(s.tasks, pid).Some?
  {
    assert Insert(s, i).tasks[1..] == s.tasks;
  }

  lemma DeregisterListed(s: Sched, q: int, pid: int)
    requires Deregister(s, q).Went?
    ensures var s' := Deregister(s, q).sched;
      && s'.callbacks == s.callbacks && s'.tasks == Drop(s.tasks, Lookup(s.tasks, q).value)
      && (q != pid ==> (Lookup(s'.tasks, pid).Some? <==> Lookup(s.tasks, pid).Some?))
  {
    OthersStay(s.tasks, Lookup(s.tasks, q).value, pid);
  }

  lemma OthersStay(tasks: seq<Task>, i: nat, pid: int)
    requires i < |tasks|
    ensures pid != tasks[i].pid ==> (Lookup(Drop(tasks, i), pid).Some? <==> Lookup(tasks, pid).Some?)
  {
    var rest := Drop(tasks, i);
    if pid != tasks[i].pid {
      if Lookup(tasks, pid).Some? {
        var k := Lookup(tasks, pid).value;
        assert rest[if k < i then k else k - 1] == tasks[k];
      }
      if Lookup(rest, pid).Some? {
        var k := Lookup(rest, pid).value;
        assert rest[k] == tasks[if k < i then k else k + 1];
      }
    }
  }

  /** Exactly such a step strands a callback. */
  lemma StrandsExactly(s: Sched, e: Event, toJiffies: int -> nat, s': Sched, pid: int)
    requires Handle(s, e, toJiffies) == Went(s') && !Stranded(s, pid)
    ensures Stranded(s', pid) <==> Strands(s, e, pid)
  {
    hide Register, Insert, Deregister, Find, Go, Expire, Callback, Dispatch, Lookup, PlaceOf, Due, Drop, InPlace;
    hide Memory;
    if e.Registers? {
      RegisterChecks(s, e.pid, e.period, e.processing, e.process);
    } else if e.Inserts? {
      if e.i < |s.joining| { InsertListed(s, e.i, pid); }
    } else if e.Deregisters? {
      DeregisterListed(s, e.pid, pid);
    } else {
      HandleInPlace(s, e, toJiffies, s');
      SameLookup(s, s', pid);
    }
  }

  /** Only a new registration of the pid can save it. */
  lemma StrandedStays(s: Sched, e: Event, toJiffies: int -> nat, s': Sched, pid: int)
    requires Handle(s, e, toJiffies) == Went(s') && Stranded(s, pid) && Lookup(s'.tasks, pid).None?
    ensures Stranded(s', pid)
  {
    hide Register, Insert, Deregister, Find, Go, Expire, Dispatch, Lookup, PlaceOf, Due, InPlace;
    if e.Registers? { RegisterChecks(s, e.pid, e.period, e.processing, e.process); }
    else if e.Inserts? { if e.i < |s.joining| { InsertListed(s, e.i, pid); } }
    else if e.Deregisters? { DeregisterListed(s, e.pid, pid); }
    else { HandleInPlace(s, e, toJiffies, s'); }
  }

  /** Over any run: a callback crashes exactly if it was stranded, and no task has had the pid since. */
  lemma {:induction false} CallbackCrashesExactly(
      now: nat, events: seq<Event>, toJiffies: int -> nat, states: seq<Sched>, k: nat, pid: int)
    requires Execution(now, events, toJiffies, states) && k <= |events|
    ensures Stranded(states[k], pid) <==> exists i | 0 <= i < k :: StrandedSince(events, states, i, k, pid)
    ensures Handle(states[k], CallbackRuns(pid), toJiffies).Crash? <==> Stranded(states[k], pid)
  {
    hide Handle, Lookup, Strands;
    assert Handle(states[k], CallbackRuns(pid), toJiffies).Crash? <==> Stranded(states[k], pid) by {
      CallbackOutcome(states[k], pid, toJiffies);
    }
    if k > 0 {
      CallbackCrashesExactly(now, events, toJiffies, states, k - 1, pid);
      var s, e, s' := states[k - 1], events[k - 1], states[k];
      if Stranded(s, pid) {
        var i :| 0 <= i < k - 1 && StrandedSince(events, states, i, k - 1, pid);
        if Lookup(s'.tasks, pid).None? {
          StrandedStays(s, e, toJiffies, s', pid);
          assert StrandedSince(events, states, i, k, pid);
        } else {
          NotListed(events, states, k, pid);
        }
      } else {
        StrandsExactly(s, e, toJiffies, s', pid);
        assert forall i | 0 <= i < k - 1 ::
          StrandedSince(events, states, i, k, pid) ==> StrandedSince(events, states, i, k - 1, pid);
        if Strands(s, e, pid) {
          assert StrandedSince(events, states, k - 1, k, pid);
        }
      }
    } else {
      assert !Stranded(states[0], pid);
    }
  }

  /** The event at position i strands the callback, and no task has the pid from then on. */
  ghost predicate StrandedSince(events: seq<Event>, states: seq<Sched>, i: nat, k: nat, pid: int)
    requires i < k <= |events| < |states|
  {
    && Strands(states[i], events[i], pid)
    && forall l {:trigger states[l]} | i < l <= k :: Lookup(states[l].tasks, pid).None?
  }

  lemma NotListed(events: seq<Event>, states: seq<Sched>, k: nat, pid: int)
    requires 0 < k <= |events| < |states| && Lookup(states[k].tasks, pid).Some?
    ensures forall i | 0 <= i < k :: !StrandedSince(events, states, i, k, pid)
    ensures !Stranded(states[k], pid)
  {
  }

  lemma CallbackOutcome(s: Sched, pid: int, toJiffies: int -> nat)
    ensures Handle(s, CallbackRuns(pid), toJiffies).Crash? <==> Stranded(s, pid)
  {
  }

  // ---------- timers of freed records ----------

  ghost predicate Listed(s: Sched, addr: nat) {
    exists i | 0 <= i < |s.tasks| :: s.tasks[i].addr == addr
  }

  ghost predicate Freed(s: Sched, addr: nat) {
    exists i | 0 <= i < |s.freed| :: s.freed[i].addr == addr
  }

  /** A yield finds this record, on the list. */
  predicate FindsRecord(s: Sched, e: Event, addr: nat) {
    e.Finds? && Lookup(s.tasks, e.pid).Some? && s.tasks[Lookup(s.tasks, e.pid).value].addr == addr
  }

  /** A de-registration takes this record off the list. */
  predicate Removes(s: Sched, e: Event, addr: nat) {
    e.Deregisters? && Lookup(s.tasks, e.pid).Some? && s.tasks[Lookup(s.tasks, e.pid).value].addr == addr
  }

  /** A yield arms the timer of this record, which has been freed. */
  ghost predicate ArmsFreed(s: Sched, e: Event, addr: nat) {
    e == Goes(Yield(addr, Checked)) && e.y in s.yielding && Freed(s, addr)
  }

  /** The record at this address has been freed, and its timer is armed. */
  ghost predicate FreedArmed(s: Sched, addr: nat) {
    exists i | 0 <= i < |s.freed| :: s.freed[i].addr == addr && s.freed[i].timer.Some?
  }

  lemma FreedArmedFrom(s: Sched, e: Event, toJiffies: int -> nat, s': Sched, addr: nat)
    requires Handle(s, e, toJiffies) == Went(s') && FreedArmed(s', addr)
    ensures FreedArmed(s, addr) || ArmsFreed(s, e, addr)
  {
    hide Register, Insert, Deregister, Find, Go, Expire, Callback, Dispatch, Due, PlaceOf, Lookup;
    match e
    case Registers(pid, period, processing, process) => RegisterChecks(s, pid, period, processing, process);
    case Inserts(i) => InsertFreed(s, i);
    case Deregisters(pid) => DeregisterFreed(s, pid, addr);
    case Goes(y) => if y in s.yielding { GoFreed(s, y, toJiffies, addr); }
    case Finds(pid) => OthersFreed(s, pid);
    case CallbackRuns(pid) => if pid in s.callbacks { OthersFreed(s, pid); }
    case Expires(a) => if Due(s, a) { DuePlace(s, a); ExpireFreed(s, PlaceOf(Memory(s), a).value, addr); }
    case Dispatches => OthersFreed(s, 0);
    case TimePasses(_) =>
  }

  lemma DuePlace(s: Sched, addr: nat)
    requires Due(s, addr)
    ensures PlaceOf(Memory(s), addr).Some?
  {
  }

  lemma InsertFreed(s: Sched, i: nat)
    ensures i < |s.joining| ==> Insert(s, i).freed == s.freed
  {
  }

  lemma DeregisterFreed(s: Sched, pid: int, addr: nat)
    requires Deregister(s, pid).Went?
    ensures FreedArmed(Deregister(s, pid).sched, addr) ==> FreedArmed(s, addr)
  {
    hide Lookup;
  }

  lemma GoFreed(s: Sched, y: Yield, toJiffies: int -> nat, addr: nat)
    requires Go(s, y, toJiffies).Went? && FreedArmed(Go(s, y, toJiffies).sched, addr) && y in s.yielding
    ensures FreedArmed(s, addr) || ArmsFreed(s, Goes(y), addr)
  {
    hide PlaceOf, NextRelease;
    var s' := Go(s, y, toJiffies).sched;
    var i :| 0 <= i < |s'.freed| && s'.freed[i].addr == addr && s'.freed[i].timer.Some?;
    assert i < |s.freed| && s.freed[i].addr == addr;
  }

  lemma ExpireFreed(s: Sched, i: nat, addr: nat)
    requires i < |Memory(s)|
    ensures FreedArmed(Expire(s, i), addr) ==> FreedArmed(s, addr)
  {
  }

  lemma OthersFreed(s: Sched, pid: int)
    ensures Find(s, pid).Went? ==> Find(s, pid).sched.freed == s.freed
    ensures Callback(s, pid).Went? ==> Callback(s, pid).sched.freed == s.freed
    ensures Dispatch(s).Went? ==> Dispatch(s).sched.freed == s.freed
  {
    hide Lookup, Pick, Demotes, Preempts, ProcessAt;
  }

  lemma {:induction false} ArmedWhenFreed(
      now: nat, events: seq<Event>, toJiffies: int -> nat, states: seq<Sched>, k: nat, addr: nat)
    requires Execution(now, events, toJiffies, states) && k <= |events| && FreedArmed(states[k], addr)
    ensures exists j | 0 <= j < k :: ArmsFreed(states[j], events[j], addr)
  {
    hide Handle, ArmsFreed;
    if k > 0 {
      FreedArmedFrom(states[k - 1], events[k - 1], toJiffies, states[k], addr);
      if FreedArmed(states[k - 1], addr) { ArmedWhenFreed(now, events, toJiffies, states, k - 1, addr); }
    }
  }

  lemma {:induction false} YieldFound(
      now: nat, events: seq<Event>, toJiffies: int -> nat, states: seq<Sched>, k: nat, y: Yield)
    requires Execution(now, events, toJiffies, states) && k <= |events| && y in states[k].yielding
    ensures exists f | 0 <= f < k :: FindsRecord(states[f], events[f], y.addr)
  {
    hide Handle, Lookup;
    if k > 0 {
      var s, e := states[k - 1], events[k - 1];
      if y in s.yielding {
        YieldFound(now, events, toJiffies, states, k - 1, y);
      } else {
        YieldFrom(s, e, toJiffies, states[k], y);
        if e.Goes? {
          YieldFound(now, events, toJiffies, states, k - 1, e.y);
        } else {
          assert FindsRecord(s, e, y.addr);
        }
      }
    }
  }

  /** Only a de-registration takes a record off the list. */
  lemma ListedStays(s: Sched, e: Event, toJiffies: int -> nat, s': Sched, addr: nat)
    requires Handle(s, e, toJiffies) == Went(s') && Listed(s, addr)
    ensures Listed(s', addr) || Removes(s, e, addr)
  {
    hide Register, Deregister, Find, Go, Expire, Callback, Dispatch, Due, PlaceOf, InPlace, Lookup;
    var i :| 0 <= i < |s.tasks| && s.tasks[i].addr == addr;
    if e.Registers? {
      RegisterChecks(s, e.pid, e.period, e.processing, e.process);
    } else if e.Inserts? {
      if e.i < |s.joining| { assert s'.tasks[i + 1].addr == addr; }
    } else if e.Deregisters? {
      DeregisterListed(s, e.pid, 0);
      DeregisterSizes(s, e.pid);
      var k := Lookup(s.tasks, e.pid).value;
      if i != k { assert s'.tasks[if i < k then i else i - 1] == s.tasks[i]; }
    } else {
      HandleInPlace(s, e, toJiffies, s');
      InPlaceTasks(s, s', i);
    }
  }

  lemma {:induction false} LeftList(
      now: nat, events: seq<Event>, toJiffies: int -> nat, states: seq<Sched>, f: nat, j: nat, addr: nat)
    requires Execution(now, events, toJiffies, states) && f <= j <= |events|
    requires Listed(states[f], addr) && Freed(states[j], addr)
    ensures exists d | f <= d < j :: Removes(states[d], events[d], addr)
  {
    hide Handle, Lookup, Listed, Freed, Removes;
    ReferencesHold(now, events, toJiffies, states, f);
    if Listed(states[j], addr) {
      ReferencesHold(now, events, toJiffies, states, j);
      NotBoth(states[j], addr);
    }
    StillListed(now, events, toJiffies, states, f, j, addr);
  }

  lemma NotBoth(s: Sched, addr: nat)
    requires References(s)
    ensures !(Listed(s, addr) && Freed(s, addr))
  {
    if Listed(s, addr) && Freed(s, addr) {
      var i :| 0 <= i < |s.tasks| && s.tasks[i].addr == addr;
      var j :| 0 <= j < |s.freed| && s.freed[j].addr == addr;
      MemoryAt(s, i);
      MemoryAt(s, |s.tasks| + j);
    }
  }

  lemma {:induction false} StillListed(
      now: nat, events: seq<Event>, toJiffies: int -> nat, states: seq<Sched>, f: nat, j: nat, addr: nat)
    requires Execution(now, events, toJiffies, states) && f <= j <= |events| && Listed(states[f], addr)
    ensures Listed(states[j], addr) || exists d | f <= d < j :: Removes(states[d], events[d], addr)
  {
    hide Handle, Listed, Removes;
    if f < j {
      StillListed(now, events, toJiffies, states, f, j - 1, addr);
      if Listed(states[j - 1], addr) { ListedStays(states[j - 1], events[j - 1], toJiffies, states[j], addr); }
    }
  }

  /** How the timer of a freed record comes to be armed, in any run: a yield found the record, a de-registration freed
      it, and then that yield, which holds no lock, armed the timer. */
  lemma FreedTimers(now: nat, events: seq<Event>, toJiffies: int -> nat, states: seq<Sched>, k: nat, addr: nat)
    requires Execution(now, events, toJiffies, states) && k <= |events| && FreedArmed(states[k], addr)
    ensures exists f, d, j | 0 <= f < d < j < k ::
      && FindsRecord(states[f], events[f], addr)
      && Removes(states[d], events[d], addr)
      && ArmsFreed(states[j], events[j], addr)
  {
    hide Handle, FreedArmed, Lookup;
    ArmedWhenFreed(now, events, toJiffies, states, k, addr);
    var j :| 0 <= j < k && ArmsFreed(states[j], events[j], addr);
    YieldFound(now, events, toJiffies, states, j, Yield(addr, Checked));
    var f :| 0 <= f < j && FindsRecord(states[f], events[f], addr);
    assert Listed(states[f], addr);
    LeftList(now, events, toJiffies, states, f, j, addr);
    var d :| f <= d < j && Removes(states[d], events[d], addr);
    assert f != d;
  }
}
