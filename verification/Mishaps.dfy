/** Runs of MP2 that go wrong: handlers that get in each other's way, and commands that the code does not expect. */
module Mishaps {
  import opened Wrappers
  import opened RateMonotonic
  import opened Sleepers
  import opened Admission
  import opened Priorities

  // ---------- executions, event by event ----------

  /** An execution, all of whose events obey a rule, ends in a state. */
  ghost predicate Leads(
      now: nat, toJiffies: int -> nat, rule: (Sched, Event) -> bool, events: seq<Event>, states: seq<Sched>, s: Sched)
  {
    Execution(now, events, toJiffies, states) && Obeys(events, states, rule) && states[|events|] == s
  }

  lemma Begin(now: nat, toJiffies: int -> nat, rule: (Sched, Event) -> bool)
    returns (events: seq<Event>, states: seq<Sched>)
    ensures Leads(now, toJiffies, rule, events, states, Start(now)) && events == []
  {
    events, states := [], [Start(now)];
  }

  lemma Then(
      now: nat, toJiffies: int -> nat, rule: (Sched, Event) -> bool, events: seq<Event>, states: seq<Sched>, s: Sched,
      e: Event, s': Sched)
    returns (events': seq<Event>, states': seq<Sched>)
    requires Leads(now, toJiffies, rule, events, states, s) && Handle(s, e, toJiffies) == Went(s') && rule(s, e)
    ensures Leads(now, toJiffies, rule, events', states', s') && events' == events + [e] && states' == states + [s']
  {
    hide Handle;
    events', states' := events + [e], states + [s'];
    forall i | 0 <= i < |events'| ensures Handle(states'[i], events'[i], toJiffies) == Went(states'[i + 1]) {
      assert i < |events| ==> events'[i] == events[i];
    }
    forall i | 0 <= i < |events'| ensures rule(states'[i], events'[i]) {
      assert i < |events| ==> events'[i] == events[i];
    }
  }

  predicate LosesNothing(s: Sched, e: Event) {
    !Loses(s, e, false)
  }

  // ---------- one task ----------

  /** A task of period 10 that needs 1, as `registration` adds it. */
  function Fresh(addr: nat, pid: int, process: bool): Task {
    Task(addr, pid, 10, 1, process, Sleeping, 0, None)
  }

  /** A state with one task, the first that was registered. */
  function One(t: Task, now: nat, yielding: multiset<Yield>, callbacks: multiset<int>): Sched {
    Sched([t], None, now, 1, [], [], yielding, callbacks)
  }

  lemma SmallShare()
    ensures !Traps(1, 10) && Share(1, 10) == 100000
  {
    assert Wrap32(1000000) == 1000000;
  }

  lemma FirstRegistration(now: nat, pid: int, process: bool)
    ensures var s := Start(now).(joining := [Request(0, pid, 10, 1, process)], issued := 1);
      && Register(Start(now), pid, 10, 1, process) == Went(s)
      && Insert(s, 0) == One(Fresh(0, pid, process), now, multiset{}, multiset{})
  {
    SmallShare();
  }

  lemma OneFinds(t: Task, now: nat, callbacks: multiset<int>, toJiffies: int -> nat)
    requires t.addr == 0
    ensures Handle(One(t, now, multiset{}, callbacks), Finds(t.pid), toJiffies) ==
      Went(One(t, now, multiset{Yield(0, Found)}, callbacks))
  {
    assert Lookup([t], t.pid) == Some(0);
  }

  lemma OneGoes(t: Task, now: nat, phase: Phase, callbacks: multiset<int>, toJiffies: int -> nat)
    requires t.addr == 0
    ensures var s := One(t, now, multiset{Yield(0, phase)}, callbacks);
      Handle(s, Goes(Yield(0, phase)), toJiffies) ==
        if phase == Slept && !t.process then Crash
        else Went(One(Yielded(t, phase, now, toJiffies), now, After(0, Onward(t, phase, now)), callbacks))
  {
    hide NextRelease;
    var y := Yield(0, phase);
    var s := One(t, now, multiset{y}, callbacks);
    assert Memory(s) == [t] && PlaceOf([t], 0) == Some(0);
    assert [t][0 := Yielded(t, phase, now, toJiffies)] == [Yielded(t, phase, now, toJiffies)];
    assert s.yielding - multiset{y} + After(0, Onward(t, phase, now)) == After(0, Onward(t, phase, now));
  }

  /** Which of those steps lose a wakeup. */
  lemma OneLoses(t: Task, now: nat, phase: Phase, callbacks: multiset<int>)
    requires t.addr == 0
    ensures (phase == Armed ==> t.timer.Some?) && (phase == Moved ==> now <= t.next) ==>
      LosesNothing(One(t, now, multiset{Yield(0, phase)}, callbacks), Goes(Yield(0, phase)))
  {
    assert PlaceOf([t], 0) == Some(0);
  }

  lemma OneExpires(t: Task, now: nat, yielding: multiset<Yield>, toJiffies: int -> nat)
    requires t.addr == 0 && t.timer.Some? && t.timer.value <= now
    ensures Handle(One(t, now, yielding, multiset{}), Expires(0), toJiffies) ==
      Went(One(t.(timer := None), now, yielding, multiset{t.pid}))
  {
    var s := One(t, now, yielding, multiset{});
    assert Memory(s) == [t] && PlaceOf([t], 0) == Some(0);
    assert [t][0 := t.(timer := None)] == [t.(timer := None)];
  }

  lemma OneCallback(t: Task, now: nat, yielding: multiset<Yield>, toJiffies: int -> nat)
    ensures Handle(One(t, now, yielding, multiset{t.pid}), CallbackRuns(t.pid), toJiffies) ==
      Went(One(t.(state := Ready), now, yielding, multiset{}))
  {
    assert Lookup([t], t.pid) == Some(0);
    assert [t][0 := t.(state := Ready)] == [t.(state := Ready)];
  }

  // ---------- a first yield ----------

  /** A task registers, and a yield finds it and moves its release on. */
  lemma YieldMoved(now: nat, pid: int, process: bool, toJiffies: int -> nat, rule: (Sched, Event) -> bool)
    returns (events: seq<Event>, states: seq<Sched>)
    requires forall s: Sched, e: Event | NewPid(s, e) && LosesNothing(s, e) && !e.Deregisters? :: rule(s, e)
    ensures var t := Fresh(0, pid, process).(next := now + toJiffies(10));
      Leads(now, toJiffies, rule, events, states, One(t, now, multiset{Yield(0, Moved)}, multiset{}))
  {
    hide Leads, Register, Insert, Loses;
    var s0, t := Start(now), Fresh(0, pid, process);
    var joining := s0.(joining := [Request(0, pid, 10, 1, process)], issued := 1);
    var s1, s2 := One(t, now, multiset{}, multiset{}), One(t, now, multiset{Yield(0, Found)}, multiset{});
    events, states := Begin(now, toJiffies, rule);
    FirstRegistration(now, pid, process);
    OnlyGoesLoses(s0, Registers(pid, 10, 1, process));
    events, states := Then(now, toJiffies, rule, events, states, s0, Registers(pid, 10, 1, process), joining);
    OnlyGoesLoses(joining, Inserts(0));
    assert NewPid(joining, Inserts(0)) by { assert Lookup(joining.tasks, pid).None?; }
    events, states := Then(now, toJiffies, rule, events, states, joining, Inserts(0), s1);
    OneFinds(t, now, multiset{}, toJiffies);
    OnlyGoesLoses(s1, Finds(pid));
    events, states := Then(now, toJiffies, rule, events, states, s1, Finds(pid), s2);
    OneGoes(t, now, Found, multiset{}, toJiffies);
    OneLoses(t, now, Found, multiset{});
    events, states := Then(now, toJiffies, rule, events, states, s2, Goes(Yield(0, Found)),
                           One(t.(next := now + toJiffies(10)), now, multiset{Yield(0, Moved)}, multiset{}));
  }

  lemma OnlyGoesLoses(s: Sched, e: Event)
    ensures !e.Goes? ==> LosesNothing(s, e)
  {
  }

  /** It goes on and arms the timer. */
  lemma YieldArmed(now: nat, pid: int, process: bool, toJiffies: int -> nat, rule: (Sched, Event) -> bool)
    returns (events: seq<Event>, states: seq<Sched>)
    requires forall s: Sched, e: Event | NewPid(s, e) && LosesNothing(s, e) && !e.Deregisters? :: rule(s, e)
    ensures var release := now + toJiffies(10);
      var t := Fresh(0, pid, process).(next := release, timer := Some(release));
      Leads(now, toJiffies, rule, events, states, One(t, now, multiset{Yield(0, Armed)}, multiset{}))
  {
    hide Leads, Handle, LosesNothing, One;
    var release := now + toJiffies(10);
    var t := Fresh(0, pid, process).(next := release);
    events, states := YieldMoved(now, pid, process, toJiffies, rule);
    var s3 := One(t, now, multiset{Yield(0, Moved)}, multiset{});
    var s4 := One(t, now, multiset{Yield(0, Checked)}, multiset{});
    OneGoes(t, now, Moved, multiset{}, toJiffies);
    OneLoses(t, now, Moved, multiset{});
    events, states := Then(now, toJiffies, rule, events, states, s3, Goes(Yield(0, Moved)), s4);
    OneGoes(t, now, Checked, multiset{}, toJiffies);
    OneLoses(t, now, Checked, multiset{});
    events, states := Then(now, toJiffies, rule, events, states, s4, Goes(Yield(0, Checked)),
                           One(t.(timer := Some(release)), now, multiset{Yield(0, Armed)}, multiset{}));
  }

  lemma Waits(t: Task, now: nat, yielding: multiset<Yield>, ticks: nat, toJiffies: int -> nat)
    ensures Handle(One(t, now, yielding, multiset{}), TimePasses(ticks), toJiffies) ==
      Went(One(t, now + ticks, yielding, multiset{}))
  {
  }

  /** The release comes and the timer expires before the yield writes the state. */
  lemma YieldedAndExpired(now: nat, pid: int, process: bool, toJiffies: int -> nat, rule: (Sched, Event) -> bool)
    returns (events: seq<Event>, states: seq<Sched>)
    requires forall s: Sched, e: Event | NewPid(s, e) && LosesNothing(s, e) && !e.Deregisters? :: rule(s, e)
    ensures var release := now + toJiffies(10);
      var t := Fresh(0, pid, process).(next := release);
      Leads(now, toJiffies, rule, events, states, One(t, release, multiset{Yield(0, Armed)}, multiset{pid}))
  {
    hide Leads, Handle, LosesNothing, One;
    var release := now + toJiffies(10);
    var armed := Fresh(0, pid, process).(next := release, timer := Some(release));
    var y := multiset{Yield(0, Armed)};
    events, states := YieldArmed(now, pid, process, toJiffies, rule);
    Waits(armed, now, y, toJiffies(10), toJiffies);
    OnlyGoesLoses(One(armed, now, y, multiset{}), TimePasses(toJiffies(10)));
    events, states := Then(now, toJiffies, rule, events, states, One(armed, now, y, multiset{}),
                           TimePasses(toJiffies(10)), One(armed, release, y, multiset{}));
    OneExpires(armed, release, y, toJiffies);
    OnlyGoesLoses(One(armed, release, y, multiset{}), Expires(0));
    events, states := Then(now, toJiffies, rule, events, states, One(armed, release, y, multiset{}), Expires(0),
                           One(armed.(timer := None), release, y, multiset{pid}));
  }

  /** And its callback runs. */
  lemma YieldedAndWoken(now: nat, pid: int, process: bool, toJiffies: int -> nat, rule: (Sched, Event) -> bool)
    returns (events: seq<Event>, states: seq<Sched>)
    requires forall s: Sched, e: Event | NewPid(s, e) && LosesNothing(s, e) && !e.Deregisters? :: rule(s, e)
    ensures var release := now + toJiffies(10);
      var t := Fresh(0, pid, process).(next := release, state := Ready);
      Leads(now, toJiffies, rule, events, states, One(t, release, multiset{Yield(0, Armed)}, multiset{}))
  {
    hide Leads, Handle, LosesNothing, One;
    var release, y := now + toJiffies(10), multiset{Yield(0, Armed)};
    var t := Fresh(0, pid, process).(next := release);
    events, states := YieldedAndExpired(now, pid, process, toJiffies, rule);
    OneCallback(t, release, y, toJiffies);
    OnlyGoesLoses(One(t, release, y, multiset{pid}), CallbackRuns(pid));
    events, states := Then(now, toJiffies, rule, events, states, One(t, release, y, multiset{pid}), CallbackRuns(pid),
                           One(t.(state := Ready), release, y, multiset{}));
  }

  // ---------- lost wakeups ----------

  /** A yield made while awake, whose timer fires before the yield is over: the task sleeps for ever. */
  lemma YieldLosesWakeup(now: nat, toJiffies: int -> nat) returns (events: seq<Event>, states: seq<Sched>, end: Sched)
    requires toJiffies(10) > 0
    ensures Leads(now, toJiffies, NewPid, events, states, end)
    ensures |end.tasks| == 1 && Asleep(end.tasks[0]) && end.tasks[0].timer == None
    ensures end.callbacks == multiset{} && end.yielding == multiset{}
  {
    hide Leads, Handle;
    var release := now + toJiffies(10);
    var t := Fresh(0, 1, true).(next := release, state := Ready);
    events, states := YieldedAndWoken(now, 1, true, toJiffies, NewPid);
    OneGoes(t, release, Armed, multiset{}, toJiffies);
    var asleep := t.(state := Sleeping);
    events, states := Then(now, toJiffies, NewPid, events, states,
                           One(t, release, multiset{Yield(0, Armed)}, multiset{}), Goes(Yield(0, Armed)),
                           One(asleep, release, multiset{Yield(0, Slept)}, multiset{}));
    OneGoes(asleep, release, Slept, multiset{}, toJiffies);
    end := One(asleep, release, multiset{}, multiset{});
    events, states := Then(now, toJiffies, NewPid, events, states,
                           One(asleep, release, multiset{Yield(0, Slept)}, multiset{}), Goes(Yield(0, Slept)), end);
  }

  /** A first yield that is held up for longer than a period before it tests its release: it returns, and the task,
      which was registered as sleeping, sleeps for ever. */
  lemma LateYieldLosesWakeup(now: nat, toJiffies: int -> nat)
    returns (events: seq<Event>, states: seq<Sched>, end: Sched)
    requires toJiffies(10) > 0
    ensures Leads(now, toJiffies, NewPid, events, states, end)
    ensures |end.tasks| == 1 && Asleep(end.tasks[0]) && end.tasks[0].timer == None
    ensures end.callbacks == multiset{} && end.yielding == multiset{}
  {
    hide Leads, Handle;
    var late := now + (toJiffies(10) + 1);
    var t, y := Fresh(0, 1, true).(next := now + toJiffies(10)), multiset{Yield(0, Moved)};
    events, states := YieldMoved(now, 1, true, toJiffies, NewPid);
    Waits(t, now, y, toJiffies(10) + 1, toJiffies);
    events, states := Then(now, toJiffies, NewPid, events, states, One(t, now, y, multiset{}),
                           TimePasses(toJiffies(10) + 1), One(t, late, y, multiset{}));
    OneGoes(t, late, Moved, multiset{}, toJiffies);
    end := One(t, late, multiset{}, multiset{});
    events, states := Then(now, toJiffies, NewPid, events, states, One(t, late, y, multiset{}),
                           Goes(Yield(0, Moved)), end);
  }

  lemma SecondRegistration(s: Sched, t: Task, pid: int)
    requires s.tasks == [t] && t.period == 10 && t.processing == 1 && s.joining == []
    ensures var s1 := s.(joining := [Request(s.issued, pid, 10, 1, true)], issued := s.issued + 1);
      && Register(s, pid, 10, 1, true) == Went(s1)
      && Insert(s1, 0) == s.(tasks := [Fresh(s.issued, pid, true), t], issued := s.issued + 1)
  {
    SmallShare();
    assert Total([t][..0], 100000) == 100000;
    assert Total([t], 100000) == 200000;
  }

  /** A task yields, to the end. */
  lemma YieldedToTheEnd(now: nat, toJiffies: int -> nat) returns (events: seq<Event>, states: seq<Sched>)
    ensures var release := now + toJiffies(10);
      var t := Fresh(0, 7, true).(next := release, timer := Some(release));
      Leads(now, toJiffies, LosesNothing, events, states, One(t, now, multiset{}, multiset{}))
  {
    hide Leads, Handle, LosesNothing;
    var release := now + toJiffies(10);
    var t := Fresh(0, 7, true).(next := release, timer := Some(release));
    events, states := YieldArmed(now, 7, true, toJiffies, LosesNothing);
    var s5 := One(t, now, multiset{Yield(0, Armed)}, multiset{});
    var s6, s7 := One(t, now, multiset{Yield(0, Slept)}, multiset{}), One(t, now, multiset{}, multiset{});
    OneGoes(t, now, Armed, multiset{}, toJiffies);
    OneLoses(t, now, Armed, multiset{});
    events, states := Then(now, toJiffies, LosesNothing, events, states, s5, Goes(Yield(0, Armed)), s6);
    OneGoes(t, now, Slept, multiset{}, toJiffies);
    OneLoses(t, now, Slept, multiset{});
    events, states := Then(now, toJiffies, LosesNothing, events, states, s6, Goes(Yield(0, Slept)), s7);
  }

  /** Then another task registers with its pid. */
  lemma YieldedAndShared(now: nat, toJiffies: int -> nat) returns (events: seq<Event>, states: seq<Sched>)
    ensures var release := now + toJiffies(10);
      var t := Fresh(0, 7, true).(next := release, timer := Some(release));
      Leads(now, toJiffies, LosesNothing, events, states,
            Sched([Fresh(1, 7, true), t], None, release, 2, [], [], multiset{}, multiset{}))
  {
    hide Leads, Register, Insert, LosesNothing;
    var release := now + toJiffies(10);
    var t := Fresh(0, 7, true).(next := release, timer := Some(release));
    events, states := YieldedToTheEnd(now, toJiffies);
    var s7 := One(t, now, multiset{}, multiset{});
    var s8 := s7.(joining := [Request(1, 7, 10, 1, true)], issued := 2);
    var s9 := s7.(tasks := [Fresh(1, 7, true), t], issued := 2);
    SecondRegistration(s7, t, 7);
    OnlyGoesLoses(s7, Registers(7, 10, 1, true));
    events, states := Then(now, toJiffies, LosesNothing, events, states, s7, Registers(7, 10, 1, true), s8);
    OnlyGoesLoses(s8, Inserts(0));
    events, states := Then(now, toJiffies, LosesNothing, events, states, s8, Inserts(0), s9);
    OnlyGoesLoses(s9, TimePasses(toJiffies(10)));
    events, states := Then(now, toJiffies, LosesNothing, events, states, s9, TimePasses(toJiffies(10)),
                           s9.(now := release));
  }

  /** A pid registered twice: the timer of the first task wakes the second, and the first sleeps for ever, though
      no yield is overtaken by its timer. */
  lemma SharedPidLosesWakeup(now: nat, toJiffies: int -> nat)
    returns (events: seq<Event>, states: seq<Sched>, end: Sched)
    requires toJiffies(10) > 0
    ensures Leads(now, toJiffies, LosesNothing, events, states, end)
    ensures |end.tasks| == 2 && Asleep(end.tasks[1]) && end.tasks[1].timer == None && end.tasks[0].state == Ready
    ensures end.callbacks == multiset{} && end.yielding == multiset{}
  {
    hide Leads, Expire, Callback, PlaceOf, Due, Loses;
    var release := now + toJiffies(10);
    var t := Fresh(0, 7, true).(next := release);
    var armed := t.(timer := Some(release));
    events, states := YieldedAndShared(now, toJiffies);
    var s := Sched([Fresh(1, 7, true), armed], None, release, 2, [], [], multiset{}, multiset{});
    var s' := s.(tasks := [Fresh(1, 7, true), t], callbacks := multiset{7});
    SecondExpires(s, Fresh(1, 7, true), armed);
    OnlyGoesLoses(s, Expires(0));
    events, states := Then(now, toJiffies, LosesNothing, events, states, s, Expires(0), s');
    end := s'.(tasks := [Fresh(1, 7, true).(state := Ready), t], callbacks := multiset{});
    FirstIsWoken(s', Fresh(1, 7, true), t);
    OnlyGoesLoses(s', CallbackRuns(7));
    events, states := Then(now, toJiffies, LosesNothing, events, states, s', CallbackRuns(7), end);
  }

  lemma SecondExpires(s: Sched, first: Task, t: Task)
    requires s.tasks == [first, t] && first.addr == 1 && t.addr == 0 && t.timer.Some? && t.timer.value <= s.now
    requires s.freed == []
    ensures Due(s, 0) && PlaceOf(Memory(s), 0) == Some(1)
    ensures Expire(s, 1) == s.(tasks := [first, t.(timer := None)], callbacks := s.callbacks + multiset{t.pid})
  {
    assert Memory(s) == [first, t];
    assert [first, t][1..] == [t] && PlaceOf([t], 0) == Some(0);
    assert s.tasks[1 := t.(timer := None)] == [first, t.(timer := None)];
  }

  lemma FirstIsWoken(s: Sched, first: Task, t: Task)
    requires s.tasks == [first, t] && first.pid == t.pid
    ensures Callback(s, t.pid) ==
      Went(s.(tasks := [first.(state := Ready), t], callbacks := s.callbacks - multiset{t.pid}))
  {
    assert Lookup(s.tasks, t.pid) == Some(0);
    assert s.tasks[0 := first.(state := Ready)] == [first.(state := Ready), t];
  }

  // ---------- crashes ----------

  lemma OnlyTaskLeaves(t: Task, now: nat, yielding: multiset<Yield>, callbacks: multiset<int>)
    ensures Deregister(One(t, now, yielding, callbacks), t.pid) ==
      Went(One(t, now, yielding, callbacks).(tasks := [], freed := [t.(state := Sleeping, timer := None)]))
  {
    assert Lookup([t], t.pid) == Some(0);
    assert Drop([t], 0) == [];
  }

  /** A de-registration that finds the timer's callback waiting for the lock: the callback dereferences null. */
  lemma DeregistrationCrashesCallback(now: nat, toJiffies: int -> nat)
    returns (events: seq<Event>, states: seq<Sched>, end: Sched)
    ensures Leads(now, toJiffies, NewPid, events, states, end)
    ensures Handle(end, CallbackRuns(1), toJiffies).Crash?
  {
    hide Leads, Deregister;
    var release := now + toJiffies(10);
    var t, y := Fresh(0, 1, true).(next := release), multiset{Yield(0, Armed)};
    events, states := YieldedAndExpired(now, 1, true, toJiffies, NewPid);
    OnlyTaskLeaves(t, release, y, multiset{1});
    end := One(t, release, y, multiset{1}).(tasks := [], freed := [t]);
    events, states := Then(now, toJiffies, NewPid, events, states, One(t, release, y, multiset{1}), Deregisters(1),
                           end);
  }

  /** A state with one record, and that freed. */
  function Gone(t: Task, now: nat, phase: Phase, callbacks: multiset<int>): Sched {
    Sched([], None, now, 1, [], [t], multiset{Yield(0, phase)}, callbacks)
  }

  lemma GoneGoes(t: Task, now: nat, phase: Phase, toJiffies: int -> nat)
    requires t.addr == 0 && phase != Slept && (phase == Moved ==> now <= t.next)
    ensures Handle(Gone(t, now, phase, multiset{}), Goes(Yield(0, phase)), toJiffies) ==
      Went(Gone(Yielded(t, phase, now, toJiffies), now, Onward(t, phase, now).value, multiset{}))
  {
    hide NextRelease;
    var s, y := Gone(t, now, phase, multiset{}), Yield(0, phase);
    assert Memory(s) == [t] && PlaceOf([t], 0) == Some(0);
    assert [t][0 := Yielded(t, phase, now, toJiffies)] == [Yielded(t, phase, now, toJiffies)];
    assert s.yielding - multiset{y} + After(0, Onward(t, phase, now)) == After(0, Onward(t, phase, now));
  }

  lemma Leaves(t: Task, now: nat, phase: Phase, toJiffies: int -> nat)
    requires t.state == Sleeping && t.timer == None
    ensures Handle(One(t, now, multiset{Yield(0, phase)}, multiset{}), Deregisters(t.pid), toJiffies) ==
      Went(Gone(t, now, phase, multiset{}))
  {
    OnlyTaskLeaves(t, now, multiset{Yield(0, phase)}, multiset{});
  }

  lemma GoneWaits(t: Task, now: nat, phase: Phase, ticks: nat, toJiffies: int -> nat)
    ensures Handle(Gone(t, now, phase, multiset{}), TimePasses(ticks), toJiffies) ==
      Went(Gone(t, now + ticks, phase, multiset{}))
  {
  }

  lemma CallbackFindsNobody(t: Task, now: nat, phase: Phase, pid: int, toJiffies: int -> nat)
    ensures Handle(Gone(t, now, phase, multiset{pid}), CallbackRuns(pid), toJiffies).Crash?
  {
  }

  lemma GoneExpires(t: Task, now: nat, phase: Phase, toJiffies: int -> nat)
    requires t.addr == 0 && t.timer.Some? && t.timer.value <= now
    ensures Handle(Gone(t, now, phase, multiset{}), Expires(0), toJiffies) ==
      Went(Gone(t.(timer := None), now, phase, multiset{t.pid}))
  {
    var s := Gone(t, now, phase, multiset{});
    assert Memory(s) == [t] && PlaceOf([t], 0) == Some(0);
    assert [t][0 := t.(timer := None)] == [t.(timer := None)];
  }

  /** No pid is registered twice, and nobody is de-registered while a callback is in flight. */
  predicate NoneInFlight(s: Sched, e: Event) {
    NewPid(s, e) && (e.Deregisters? ==> s.callbacks == multiset{})
  }

  /** A yield finds its task, the task is de-registered and freed with no callback in flight, and then the yield arms
      the timer of the freed record: the callback dereferences null. */
  lemma FreedTimerCrashesCallback(now: nat, toJiffies: int -> nat)
    returns (events: seq<Event>, states: seq<Sched>, end: Sched)
    ensures Leads(now, toJiffies, NoneInFlight, events, states, end)
    ensures Handle(end, CallbackRuns(1), toJiffies).Crash?
  {
    hide Leads, Handle, Gone, Loses;
    var release := now + toJiffies(10);
    var t := Fresh(0, 1, true).(next := release);
    var armed := t.(timer := Some(release));
    events, states := YieldMoved(now, 1, true, toJiffies, NoneInFlight);
    Leaves(t, now, Moved, toJiffies);
    events, states := Then(now, toJiffies, NoneInFlight, events, states,
                           One(t, now, multiset{Yield(0, Moved)}, multiset{}), Deregisters(1),
                           Gone(t, now, Moved, multiset{}));
    GoneGoes(t, now, Moved, toJiffies);
    events, states := Then(now, toJiffies, NoneInFlight, events, states, Gone(t, now, Moved, multiset{}),
                           Goes(Yield(0, Moved)), Gone(t, now, Checked, multiset{}));
    GoneGoes(t, now, Checked, toJiffies);
    events, states := Then(now, toJiffies, NoneInFlight, events, states, Gone(t, now, Checked, multiset{}),
                           Goes(Yield(0, Checked)), Gone(armed, now, Armed, multiset{}));
    GoneWaits(armed, now, Armed, toJiffies(10), toJiffies);
    events, states := Then(now, toJiffies, NoneInFlight, events, states, Gone(armed, now, Armed, multiset{}),
                           TimePasses(toJiffies(10)), Gone(armed, release, Armed, multiset{}));
    GoneExpires(armed, release, Armed, toJiffies);
    end := Gone(t, release, Armed, multiset{1});
    events, states := Then(now, toJiffies, NoneInFlight, events, states, Gone(armed, release, Armed, multiset{}),
                           Expires(0), end);
    CallbackFindsNobody(t, release, Armed, 1, toJiffies);
  }

  /** The commands "R, 1, 10, 1" and "Y, 1" when no process has the pid 1: the yield dereferences null. */
  lemma NullProcessCrashesYield(now: nat, toJiffies: int -> nat)
    returns (events: seq<Event>, states: seq<Sched>, end: Sched)
    ensures Leads(now, toJiffies, NewPid, events, states, end)
    ensures Handle(end, Goes(Yield(0, Slept)), toJiffies).Crash?
  {
    hide Leads, Handle;
    var release := now + toJiffies(10);
    var t := Fresh(0, 1, false).(next := release, timer := Some(release));
    events, states := YieldArmed(now, 1, false, toJiffies, NewPid);
    OneGoes(t, now, Armed, multiset{}, toJiffies);
    end := One(t, now, multiset{Yield(0, Slept)}, multiset{});
    events, states := Then(now, toJiffies, NewPid, events, states, One(t, now, multiset{Yield(0, Armed)}, multiset{}),
                           Goes(Yield(0, Armed)), end);
    OneGoes(t, now, Slept, multiset{}, toJiffies);
  }

  /** And a pass that picks it does. */
  lemma NullProcessCrashesPass(now: nat, toJiffies: int -> nat)
    returns (events: seq<Event>, states: seq<Sched>, end: Sched)
    ensures Leads(now, toJiffies, NewPid, events, states, end)
    ensures Handle(end, Dispatches, toJiffies).Crash?
  {
    hide Leads;
    var release := now + toJiffies(10);
    var t := Fresh(0, 1, false).(next := release, state := Ready);
    events, states := YieldedAndWoken(now, 1, false, toJiffies, NewPid);
    end := One(t, release, multiset{Yield(0, Armed)}, multiset{});
    assert Pick([t][..0]) == None && Pick([t]) == Some(0);
  }

  /** The command "R, 1, -1, 33554432": the product wraps around to INT_MIN, and its quotient by -1 is a divide error.
      */
  lemma DivideError(now: nat, toJiffies: int -> nat)
    ensures Wrap32(33554432 * SCALE) == -INT_MAX - 1
    ensures Handle(Start(now), Registers(1, -1, 33554432, true), toJiffies).Crash?
  {
  }

  // ---------- registrations ----------

  lemma Admitted(s: Sched, pid: int)
    requires s.tasks == []
    ensures Register(s, pid, 10, 4, true) ==
      Went(s.(joining := s.joining + [Request(s.issued, pid, 10, 4, true)], issued := s.issued + 1))
  {
    assert Share(4, 10) == 400000 by { assert Wrap32(4000000) == 4000000; }
  }

  lemma Inserted(s: Sched, r: Request, rest: seq<Request>)
    requires s.joining == [r] + rest
    ensures Insert(s, 0) == s.(tasks := [Newcomer(r)] + s.tasks, joining := rest)
  {
  }

  /** Two registrations look at the list before either is added to it, and together they need more than admission
      control allows. */
  lemma RegistrationsOverload(now: nat, toJiffies: int -> nat)
    returns (events: seq<Event>, states: seq<Sched>, end: Sched)
    ensures Leads(now, toJiffies, NewPid, events, states, end) && SaneEvents(events)
    ensures AllSane(end.tasks) && Exact(end.tasks) == 800000 > BOUND
  {
    hide Leads, Register, Insert, Exact, Lookup;
    var r1, r2 := Request(0, 1, 10, 4, true), Request(1, 2, 10, 4, true);
    var s0, s1 := Start(now), Start(now).(joining := [r1], issued := 1);
    var s2 := s1.(joining := [r1, r2], issued := 2);
    var s3 := s2.(joining := [r2], tasks := [Newcomer(r1)]);
    end := s3.(joining := [], tasks := [Newcomer(r2), Newcomer(r1)]);
    events, states := Begin(now, toJiffies, NewPid);
    Admitted(s0, 1);
    Admitted(s1, 2);
    Inserted(s2, r1, [r2]);
    Inserted(s3, r2, []);
    events, states := Then(now, toJiffies, NewPid, events, states, s0, Registers(1, 10, 4, true), s1);
    events, states := Then(now, toJiffies, NewPid, events, states, s1, Registers(2, 10, 4, true), s2);
    NobodyFound();
    events, states := Then(now, toJiffies, NewPid, events, states, s2, Inserts(0), s3);
    events, states := Then(now, toJiffies, NewPid, events, states, s3, Inserts(0), end);
    ExactOne(Newcomer(r1));
    ExactOne(Newcomer(r2));
    ExactConcat([Newcomer(r2)], [Newcomer(r1)]);
    assert end.tasks == [Newcomer(r2)] + [Newcomer(r1)];
  }

  lemma NobodyFound()
    ensures Lookup([], 1).None?
    ensures Lookup([Newcomer(Request(0, 1, 10, 4, true))], 2).None?
  {
  }

  // ---------- priorities ----------

  predicate Anything(s: Sched, e: Event) { true }

  /** A pass that finds the only task READY, and the task's de-registration after it. */
  lemma OneRunsAndLeaves(t: Task, now: nat, yielding: multiset<Yield>, toJiffies: int -> nat)
    requires t.addr == 0 && t.state == Ready && t.period == 10 && t.process
    ensures var s := One(t, now, yielding, multiset{});
      var runs := One(t.(state := Running), now, yielding, multiset{}).(running := Some(0));
      && Pick(s.tasks) == Some(0)
      && Handle(s, Dispatches, toJiffies) == Went(runs)
      && Handle(runs, Deregisters(t.pid), toJiffies) ==
         Went(runs.(tasks := [], running := None, freed := [t.(state := Sleeping, timer := None)]))
  {
    assert Pick([t][..0]).None?;
    assert SetState([t], 0, Running) == [t.(state := Running)];
    assert Lookup([t.(state := Running)], t.pid) == Some(0);
    assert Drop([t.(state := Running)], 0) == [];
  }

  /** A task that leaves while it runs: its process keeps the priority of the processor's owner. */
  lemma LeaverStaysRealTime(now: nat, toJiffies: int -> nat) returns (events: seq<Event>, states: seq<Sched>)
    ensures Execution(now, events, toJiffies, states)
    ensures states[|events|].tasks == [] && Elevated(events, states, 1, |events|)
  {
    hide Leads, Handle, Pick;
    var release, y := now + toJiffies(10), multiset{Yield(0, Armed)};
    var t := Fresh(0, 1, true).(next := release, state := Ready);
    var before, was := YieldedAndWoken(now, 1, true, toJiffies, Anything);
    OneRunsAndLeaves(t, release, y, toJiffies);
    var s := One(t, release, y, multiset{});
    var runs := One(t.(state := Running), release, y, multiset{}).(running := Some(0));
    var gone := runs.(tasks := [], running := None, freed := [t.(state := Sleeping, timer := None)]);
    LeadsTo(now, toJiffies, Anything, before, was, s);
    events, states := Then(now, toJiffies, Anything, before, was, s, Dispatches, runs);
    events, states := Then(now, toJiffies, Anything, events, states, runs, Deregisters(1), gone);
    LeadsTo(now, toJiffies, Anything, events, states, gone);
    var k := |before|;
    assert states[k] == s && events[k] == Dispatches;
    assert Raises(states[k], events[k], 1);
    assert Elevated(events, states, 1, k + 1);
    assert !Lowers(states[k + 1], events[k + 1], 1);
  }

  lemma LeadsTo(
      now: nat, toJiffies: int -> nat, rule: (Sched, Event) -> bool, events: seq<Event>, states: seq<Sched>, s: Sched)
    requires Leads(now, toJiffies, rule, events, states, s)
    ensures Execution(now, events, toJiffies, states) && |states| == |events| + 1 && states[|events|] == s
  {
    hide Handle;
  }
}
