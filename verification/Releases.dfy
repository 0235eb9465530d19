/** The periods of MP2: when a task is released, and for when its timer is armed. */
module Releases {
  import opened Wrappers
  import opened RateMonotonic
  import opened Dispatching
  import opened Crashes

  // ---------- what becomes of a record ----------

  /** What an event writes to a record that stays where it is, in memory. */
  function Rewritten(s: Sched, e: Event, toJiffies: int -> nat, t: Task): Task {
    match e
    case Goes(y) => if y in s.yielding && y.addr == t.addr then Yielded(t, y.phase, s.now, toJiffies) else t
    case Expires(addr) => if addr == t.addr && Due(s, addr) then t.(timer := None) else t
    case CallbackRuns(pid) =>
      if pid in s.callbacks && Lookup(s.tasks, pid).Some? && s.tasks[Lookup(s.tasks, pid).value].addr == t.addr
      then t.(state := Ready) else t
    case _ => t
  }

  lemma AtPlace(s: Sched, i: nat)
    requires References(s) && i < |Memory(s)|
    ensures PlaceOf(Memory(s), Memory(s)[i].addr) == Some(i)
  {
    hide Memory;
  }

  lemma GoRewrites(s: Sched, y: Yield, toJiffies: int -> nat, i: nat)
    requires References(s) && Go(s, y, toJiffies).Went? && i < |Memory(s)|
    ensures var s' := Go(s, y, toJiffies).sched;
      && |Memory(s')| == |Memory(s)|
      && Memory(s')[i] == if y.addr == Memory(s)[i].addr then Yielded(Memory(s)[i], y.phase, s.now, toJiffies)
                          else Memory(s)[i]
  {
    hide PlaceOf, NextRelease, References;
    AtPlace(s, i);
    var at := PlaceOf(Memory(s), y.addr);
    if at.Some? { AtPlace(s, at.value); }
  }

  lemma ExpireRewrites(s: Sched, addr: nat, i: nat)
    requires References(s) && Due(s, addr) && i < |Memory(s)|
    ensures PlaceOf(Memory(s), addr).Some?
    ensures var s' := Expire(s, PlaceOf(Memory(s), addr).value);
      && |Memory(s')| == |Memory(s)|
      && Memory(s')[i] == if addr == Memory(s)[i].addr then Memory(s)[i].(timer := None) else Memory(s)[i]
  {
    hide PlaceOf, References;
    AtPlace(s, i);
  }

  lemma CallbackRewrites(s: Sched, pid: int, i: nat)
    requires References(s) && Callback(s, pid).Went? && i < |Memory(s)|
    ensures var s' := Callback(s, pid).sched;
      && |Memory(s')| == |Memory(s)| && Lookup(s.tasks, pid).Some?
      && Memory(s')[i] == if s.tasks[Lookup(s.tasks, pid).value].addr == Memory(s)[i].addr
                          then Memory(s)[i].(state := Ready) else Memory(s)[i]
  {
    hide Lookup;
    MemoryAt(s, Lookup(s.tasks, pid).value);
  }

  lemma OthersRewrite(s: Sched, e: Event, toJiffies: int -> nat, s': Sched)
    requires Handle(s, e, toJiffies) == Went(s')
    requires e.Finds? || e.TimePasses? || e.Registers?
    ensures s'.tasks == s.tasks && s'.freed == s.freed
  {
    hide Register, Lookup;
    if e.Registers? { RegisterChecks(s, e.pid, e.period, e.processing, e.process); }
  }

  /** Except for the dispatcher, whoever writes to a record in place does it so. */
  lemma HandleRewrites(s: Sched, e: Event, toJiffies: int -> nat, s': Sched, i: nat)
    requires References(s) && Handle(s, e, toJiffies) == Went(s') && i < |Memory(s)|
    requires !e.Inserts? && !e.Deregisters? && !e.Dispatches?
    ensures |Memory(s')| == |Memory(s)| && |s'.tasks| == |s.tasks|
    ensures Memory(s')[i] == Rewritten(s, e, toJiffies, Memory(s)[i])
  {
    hide References, Memory, Register, Go, Expire, Callback, Due, PlaceOf, Lookup, Find, InPlace, Yielded;
    if e.Finds? || e.TimePasses? || e.Registers? {
      OthersRewrite(s, e, toJiffies, s');
      SameMemory(s, s');
    } else {
      HandleInPlace(s, e, toJiffies, s');
      SameLength(s, s');
      match e
      case Goes(y) => if y in s.yielding { GoRewrites(s, y, toJiffies, i); }
      case Expires(addr) => if Due(s, addr) { ExpireRewrites(s, addr, i); }
      case CallbackRuns(pid) => if pid in s.callbacks { CallbackRewrites(s, pid, i); }
    }
  }

  lemma SameLength(s: Sched, s': Sched)
    requires InPlace(s, s')
    ensures |s'.tasks| == |s.tasks|
  {
  }

  /** A pass changes the states of listed tasks only, and puts nobody to sleep. */
  lemma PassRewrites(s: Sched, i: nat)
    requires i < |Memory(s)|
    ensures |Memory(Pass(s))| == |Memory(s)| && |Pass(s).tasks| == |s.tasks|
    ensures var t := Memory(Pass(s))[i];
      t == Memory(s)[i].(state := t.state) && (t.state == Memory(s)[i].state || t.state != Sleeping)
  {
    hide Pick, PeriodAt, Preempts;
  }

  /** The record is one of those in memory before, with another state and timer. */
  ghost predicate Kept(s: Sched, t: Task) {
    || (exists r | r in s.joining :: t == Newcomer(r))
    || exists i | 0 <= i < |Memory(s)| :: t == Memory(s)[i].(state := t.state, timer := t.timer)
  }

  /** Only a step of a yield changes the release of a record. */
  lemma HandleKept(s: Sched, e: Event, toJiffies: int -> nat, s': Sched, j: nat)
    requires References(s) && Handle(s, e, toJiffies) == Went(s') && !e.Goes? && j < |Memory(s')|
    ensures Kept(s, Memory(s')[j])
  {
    hide References, Memory, Insert, Deregister, Dispatch, Lookup, Register, Find, Expire, Callback, Due, PlaceOf;
    if e.Inserts? {
      if e.i < |s.joining| {
        InsertMemory(s, e.i);
        assert s.joining[e.i] in s.joining;
        assert j > 0 ==> Memory(s')[j] == Memory(s)[j - 1];
      }
    } else if e.Deregisters? {
      DeregisterSizes(s, e.pid);
      var i := Lookup(s.tasks, e.pid).value;
      DeregisterMemory(s, e.pid, j);
      assert j == |Memory(s)| - 1 ==> Memory(s')[j] == Memory(s)[i].(state := Sleeping, timer := None);
    } else if e.Dispatches? {
      DispatchWent(s);
      InPlaceSize(s);
      PassRewrites(s, j);
    } else {
      InPlaceLength(s, e, toJiffies, s');
      HandleRewrites(s, e, toJiffies, s', j);
    }
  }

  lemma InPlaceSize(s: Sched)
    ensures |Memory(Pass(s))| == |Memory(s)|
  {
    hide Memory, InPlace, Pass;
    PassInPlace(s);
    InPlaceApart(s, Pass(s));
  }

  lemma InPlaceLength(s: Sched, e: Event, toJiffies: int -> nat, s': Sched)
    requires Handle(s, e, toJiffies) == Went(s') && !e.Inserts? && !e.Deregisters?
    ensures |Memory(s')| == |Memory(s)|
  {
    hide Memory, InPlace, Handle;
    if e.Registers? {
      OthersRewrite(s, e, toJiffies, s');
      SameMemory(s, s');
    } else {
      HandleInPlace(s, e, toJiffies, s');
      InPlaceApart(s, s');
    }
  }

  // ---------- drift-free releases ----------

  /** The event moves on the release of the task at this address: it is the first step of one of its yields. */
  predicate MovesAt(s: Sched, e: Event, addr: nat) {
    e == Goes(Yield(addr, Found)) && e.y in s.yielding
  }

  /** The clock at every yield of the task at this address, among the first k events. */
  function YieldTimes(events: seq<Event>, states: seq<Sched>, addr: nat, k: nat): seq<nat>
    requires k <= |events| < |states|
  {
    if k == 0 then []
    else
      YieldTimes(events, states, addr, k - 1) +
      if MovesAt(states[k - 1], events[k - 1], addr) then [states[k - 1].now] else []
  }

  /** Only a task's own yield moves its release on. */
  ghost predicate ComesFrom(s: Sched, e: Event, toJiffies: int -> nat, t: Task) {
    || (!e.Goes? && exists r | r in s.joining :: t == Newcomer(r))
    || exists i | 0 <= i < |Memory(s)| ::
         && t.addr == Memory(s)[i].addr && t.period == Memory(s)[i].period
         && t.next == if MovesAt(s, e, t.addr) then NextRelease(Memory(s)[i], s.now, toJiffies(t.period))
                      else Memory(s)[i].next
  }

  lemma Origin(s: Sched, e: Event, toJiffies: int -> nat, s': Sched, j: nat)
    requires References(s) && Handle(s, e, toJiffies) == Went(s') && j < |Memory(s')|
    ensures ComesFrom(s, e, toJiffies, Memory(s')[j])
  {
    hide References, Memory, Handle, NextRelease;
    if e.Goes? {
      InPlaceLength(s, e, toJiffies, s');
      HandleRewrites(s, e, toJiffies, s', j);
    } else {
      HandleKept(s, e, toJiffies, s', j);
    }
  }

  /** An address without a record has no yields. */
  lemma {:induction false} UnbornNeverYields(
      now: nat, events: seq<Event>, toJiffies: int -> nat, states: seq<Sched>, k: nat, addr: nat)
    requires Execution(now, events, toJiffies, states) && k <= |events| && !HasRecord(states[k], addr)
    ensures YieldTimes(events, states, addr, k) == []
  {
    hide Handle, HasRecord;
    if k > 0 {
      var s, e := states[k - 1], events[k - 1];
      if HasRecord(s, addr) { HasRecordStays(s, e, toJiffies, states[k], addr); }
      UnbornNeverYields(now, events, toJiffies, states, k - 1, addr);
      if MovesAt(s, e, addr) { YieldHasRecord(now, events, toJiffies, states, k - 1, e.y); }
    }
  }

  lemma JoiningHasNoRecord(s: Sched, r: Request)
    requires Apart(s) && r in s.joining
    ensures !HasRecord(s, r.addr)
  {
    hide Memory;
  }

  /** One more event on a record that was in memory. */
  lemma OneMoreYield(s: Sched, e: Event, toJiffies: int -> nat, was: Task, t: Task, times: seq<nat>)
    requires was.addr == t.addr && was.period == t.period && toJiffies(t.period) > 0
    requires t.next == if MovesAt(s, e, t.addr) then NextRelease(was, s.now, toJiffies(t.period)) else was.next
    requires was.next == if times == [] then 0 else times[0] + |times| * toJiffies(t.period)
    ensures var after := times + if MovesAt(s, e, t.addr) then [s.now] else [];
      t.next == if after == [] then 0 else after[0] + |after| * toJiffies(t.period)
  {
    hide MovesAt;
    OneMore(|times|, toJiffies(t.period));
  }

  lemma OneMore(k: nat, p: nat)
    requires p > 0
    ensures (k + 1) * p == k * p + p && k * p >= 0
  {
  }

  /** In any run a task that has yielded k times, first at time t0, has its next release at t0 + k * P:
      how late the later yields came makes no difference. */
  lemma {:induction false} DriftFree(
      now: nat, events: seq<Event>, toJiffies: int -> nat, states: seq<Sched>, k: nat, j: nat)
    requires Execution(now, events, toJiffies, states) && k <= |events|
    requires j < |Memory(states[k])| && toJiffies(Memory(states[k])[j].period) > 0
    ensures var t := Memory(states[k])[j];
      var times := YieldTimes(events, states, t.addr, k);
      t.next == if times == [] then 0 else times[0] + |times| * toJiffies(t.period)
  {
    hide Handle, MovesAt, NextRelease, Memory, References, Apart, HasRecord;
    if k == 0 {
      NoMemory(now);
    } else {
      var before, e := states[k - 1], events[k - 1];
      var t := Memory(states[k])[j];
      ReferencesHold(now, events, toJiffies, states, k - 1);
      Origin(before, e, toJiffies, states[k], j);
      if !e.Goes? && exists r | r in before.joining :: t == Newcomer(r) {
        var r :| r in before.joining && t == Newcomer(r);
        JoiningHasNoRecord(before, r);
        UnbornNeverYields(now, events, toJiffies, states, k - 1, t.addr);
        assert !MovesAt(before, e, t.addr) by { OnlyGoesMoves(before, e, t.addr); }
      } else {
        var i :| 0 <= i < |Memory(before)| && t.addr == Memory(before)[i].addr && t.period == Memory(before)[i].period
                 && t.next == if MovesAt(before, e, t.addr)
                              then NextRelease(Memory(before)[i], before.now, toJiffies(t.period))
                              else Memory(before)[i].next;
        DriftFree(now, events, toJiffies, states, k - 1, i);
        OneMoreYield(before, e, toJiffies, Memory(before)[i], t, YieldTimes(events, states, t.addr, k - 1));
      }
    }
  }

  lemma NoMemory(now: nat)
    ensures Memory(Start(now)) == []
  {
  }

  lemma OnlyGoesMoves(s: Sched, e: Event, addr: nat)
    ensures MovesAt(s, e, addr) ==> e.Goes?
  {
  }

  // ---------- deadlines ----------

  /** The event is a yield's test that finds this release not over. */
  ghost predicate TestsFine(s: Sched, e: Event, addr: nat, release: nat) {
    && e == Goes(Yield(addr, Moved)) && e.y in s.yielding && s.now <= release
    && exists i | 0 <= i < |Memory(s)| :: Memory(s)[i].addr == addr && Memory(s)[i].next == release
  }

  /** Among the first k events, a yield of this record found a release not over that is no later than the deadline. */
  ghost predicate TestedBefore(events: seq<Event>, states: seq<Sched>, k: nat, addr: nat, deadline: nat)
    requires k <= |events| < |states|
  {
    exists j, release | 0 <= j < k && 0 <= release <= deadline :: TestsFine(states[j], events[j], addr, release)
  }

  lemma TestedLonger(events: seq<Event>, states: seq<Sched>, k: nat, addr: nat, deadline: nat, later: nat)
    requires 0 < k <= |events| < |states| && deadline <= later
    requires TestedBefore(events, states, k - 1, addr, deadline)
    ensures TestedBefore(events, states, k, addr, later)
  {
    var j, release :| 0 <= j < k - 1 && 0 <= release <= deadline && TestsFine(states[j], events[j], addr, release);
    assert release <= later;
  }

  /** A record before a step: its release is no later, and its timer is the same unless the step arms or disarms it. */
  ghost predicate Aged(s: Sched, e: Event, u: Task, t: Task) {
    && u.addr == t.addr && u.next <= t.next
    && (t.timer.Some? ==> t.timer == u.timer || (e == Goes(Yield(t.addr, Checked)) && e.y in s.yielding
                                                && t.timer == Some(u.next)))
  }

  lemma AgedFrom(s: Sched, e: Event, toJiffies: int -> nat, s': Sched, j: nat)
    requires References(s) && Handle(s, e, toJiffies) == Went(s') && j < |Memory(s')|
    ensures var t := Memory(s')[j];
      || (exists r | r in s.joining :: t == Newcomer(r))
      || exists i | 0 <= i < |Memory(s)| :: Aged(s, e, Memory(s)[i], t)
  {
    hide References, Memory, Insert, Deregister, Dispatch, Lookup, Register, Find, Expire, Callback, Due, PlaceOf, Go;
    var t := Memory(s')[j];
    if e.Inserts? {
      if e.i < |s.joining| {
        InsertMemory(s, e.i);
        assert s.joining[e.i] in s.joining;
        assert j > 0 ==> t == Memory(s)[j - 1] && Aged(s, e, Memory(s)[j - 1], t);
      }
      assert e.i >= |s.joining| ==> Aged(s, e, Memory(s)[j], t);
    } else if e.Deregisters? {
      DeregisterSizes(s, e.pid);
      var i := Lookup(s.tasks, e.pid).value;
      DeregisterMemory(s, e.pid, j);
      assert Aged(s, e, Memory(s)[if j < i then j else if j < |Memory(s)| - 1 then j + 1 else i], t);
    } else if e.Dispatches? {
      DispatchWent(s);
      InPlaceSize(s);
      PassRewrites(s, j);
      assert Aged(s, e, Memory(s)[j], t);
    } else {
      InPlaceLength(s, e, toJiffies, s');
      HandleRewrites(s, e, toJiffies, s', j);
      assert Aged(s, e, Memory(s)[j], t);
    }
  }

  lemma TestedNow(events: seq<Event>, states: seq<Sched>, k: nat, addr: nat, release: nat, deadline: nat)
    requires 0 < k <= |events| < |states| && 0 <= release <= deadline
    requires TestsFine(states[k - 1], events[k - 1], addr, release)
    ensures TestedBefore(events, states, k, addr, deadline)
  {
  }

  lemma GoChecks(s: Sched, y: Yield, toJiffies: int -> nat, z: Yield, m: nat)
    requires References(s) && Go(s, y, toJiffies).Went? && m < |Memory(s)| && Memory(s)[m].addr == y.addr
    requires z in Go(s, y, toJiffies).sched.yielding && z !in s.yielding && z.phase == Checked
    ensures y == Yield(z.addr, Moved) && s.now <= Memory(s)[m].next
  {
    hide PlaceOf, Store, References, Memory;
    AtPlace(s, m);
  }

  /** A yield past its test found the release not over. */
  lemma CheckedNow(s: Sched, e: Event, toJiffies: int -> nat, s': Sched, y: Yield, m: nat)
    requires References(s) && Handle(s, e, toJiffies) == Went(s') && m < |Memory(s)| && Memory(s)[m].addr == y.addr
    requires y in s'.yielding && y !in s.yielding && y.phase == Checked
    ensures TestsFine(s, e, y.addr, Memory(s)[m].next)
  {
    hide References, Memory, Go;
    YieldFrom(s, e, toJiffies, s', y);
    GoChecks(s, e.y, toJiffies, y, m);
  }

  lemma NotNewcomer(s: Sched, addr: nat)
    requires Apart(s) && HasRecord(s, addr)
    ensures forall r | r in s.joining :: Newcomer(r).addr != addr
  {
    hide Memory;
  }

  /** A yield past its test, and before it arms the timer: the release it tested was not over. */
  lemma {:induction false} CheckedTested(
      now: nat, events: seq<Event>, toJiffies: int -> nat, states: seq<Sched>, k: nat, i: nat)
    requires Execution(now, events, toJiffies, states) && k <= |events| && i < |Memory(states[k])|
    requires Yield(Memory(states[k])[i].addr, Checked) in states[k].yielding
    ensures TestedBefore(events, states, k, Memory(states[k])[i].addr, Memory(states[k])[i].next)
  {
    hide Handle, Memory, References, Apart, TestsFine, TestedBefore, HasRecord;
    if k > 0 {
      var s, e, t := states[k - 1], events[k - 1], Memory(states[k])[i];
      var y := Yield(t.addr, Checked);
      ReferencesHold(now, events, toJiffies, states, k - 1);
      AgedFrom(s, e, toJiffies, states[k], i);
      if y !in s.yielding { YieldFrom(s, e, toJiffies, states[k], y); }
      YieldHasRecord(now, events, toJiffies, states, k - 1, if y in s.yielding then y else e.y);
      NotNewcomer(s, t.addr);
      var m :| 0 <= m < |Memory(s)| && Aged(s, e, Memory(s)[m], t);
      if y in s.yielding {
        CheckedTested(now, events, toJiffies, states, k - 1, m);
        TestedLonger(events, states, k, t.addr, Memory(s)[m].next, t.next);
      } else {
        CheckedNow(s, e, toJiffies, states[k], y, m);
        TestedNow(events, states, k, t.addr, Memory(s)[m].next, t.next);
      }
    }
  }

  /** No timer is ever armed for a release that its yield had found over: in any run, before a deadline was armed a
      yield of the timer's own task had tested, at a time no later than the deadline, that it was not over. */
  lemma {:induction false} DeadlinesAhead(
      now: nat, events: seq<Event>, toJiffies: int -> nat, states: seq<Sched>, k: nat, i: nat)
    requires Execution(now, events, toJiffies, states) && k <= |events|
    requires i < |Memory(states[k])| && Memory(states[k])[i].timer.Some?
    ensures var t := Memory(states[k])[i];
      exists j, release | 0 <= j < k && states[j].now <= release <= t.timer.value ::
        TestsFine(states[j], events[j], t.addr, release)
  {
    hide Handle, Memory, References, Apart, TestsFine, HasRecord;
    if k == 0 {
      NoMemory(now);
    } else {
      var s, e, t := states[k - 1], events[k - 1], Memory(states[k])[i];
      ReferencesHold(now, events, toJiffies, states, k - 1);
      AgedFrom(s, e, toJiffies, states[k], i);
      var m :| 0 <= m < |Memory(s)| && Aged(s, e, Memory(s)[m], t);
      if t.timer == Memory(s)[m].timer {
        DeadlinesAhead(now, events, toJiffies, states, k - 1, m);
      } else {
        CheckedTested(now, events, toJiffies, states, k - 1, m);
        var j, release :| 0 <= j < k - 1 && 0 <= release <= t.timer.value &&
          TestsFine(states[j], events[j], t.addr, release);
        TestInTime(states[j], events[j], t.addr, release);
      }
    }
  }

  lemma TestInTime(s: Sched, e: Event, addr: nat, release: nat)
    requires TestsFine(s, e, addr, release)
    ensures s.now <= release
  {
  }
}
