/** Admission control of MP2: what integer arithmetic guarantees about real utilisation, over whole runs. */
module Admission {
  import opened Wrappers
  import opened RateMonotonic
  import opened Dispatching
  import opened Crashes

  /** What the source needs of a registration: no division by zero and no overflow of an `int`. */
  predicate SaneRequest(processing: int, period: int) {
    period > 0 && 0 <= processing <= 2147
  }

  ghost predicate AllSane(tasks: seq<Task>) {
    forall t | t in tasks :: SaneRequest(t.processing, t.period)
  }

  ghost predicate SaneEvents(events: seq<Event>) {
    forall e | e in events && e.Registers? :: SaneRequest(e.processing, e.period)
  }

  /** The sum of the truncated shares, without any overflow. */
  function Exact(tasks: seq<Task>): (sum: nat)
    requires AllSane(tasks)
  {
    if tasks == [] then 0
    else
      var k := |tasks| - 1;
      Exact(tasks[..k]) + tasks[k].processing * SCALE / tasks[k].period
  }

  /** The utilisation of the tasks. */
  function Utilisation(tasks: seq<Task>): (u: real)
    requires AllSane(tasks)
  {
    if tasks == [] then 0.0
    else
      var k := |tasks| - 1;
      Utilisation(tasks[..k]) + tasks[k].processing as real / tasks[k].period as real
  }

  // ---------- integer arithmetic ----------

  /** The product in `admission_control` fits an `int` exactly up to 2147 ms of processing time. */
  lemma OverflowBound(processing: nat)
    ensures Wrap32(processing * SCALE) == processing * SCALE <==> processing <= 2147
  {
  }

  lemma Wrapped(x: int)
    ensures exists k :: x == Wrap32(x) + k * TWO32
    ensures -TWO32 <= 2 * Wrap32(x) && Wrap32(x) <= INT_MAX
  {
    var k := x / TWO32;
    assert x == k * TWO32 + x % TWO32;
    assert x == Wrap32(x) + (if Wrap32(x) >= 0 then k else k + 1) * TWO32;
  }

  lemma QuotientApart(x: int, w: int, k: int, p: int)
    requires 0 < p <= INT_MAX && x == w + k * TWO32 && k != 0 && x > INT_MAX >= w
    ensures TruncDiv(w, p) != x / p
  {
    var q, r := x / p, TruncDiv(w, p);
    assert q * p <= x < q * p + p && q >= 0 && k >= 1;
    assert w >= 0 ==> r * p <= w < r * p + p;
    assert w < 0 ==> r <= 0;
  }

  /** The share a task is charged is the true truncated share exactly up to 2147 ms, whatever its period. */
  lemma ShareExactly(processing: nat, period: int)
    requires 0 < period <= INT_MAX
    ensures !Traps(processing, period)
    ensures Share(processing, period) == processing * SCALE / period <==> processing <= 2147
  {
    OverflowBound(processing);
    var x := processing * SCALE;
    if processing > 2147 {
      Wrapped(x);
      var k :| x == Wrap32(x) + k * TWO32;
      QuotientApart(x, Wrap32(x), k, period);
    }
  }

  /** What that costs: a task using 4295 times the processor is admitted. */
  lemma OverflowAdmits()
    ensures !Traps(4295, 1) && 4295 * SCALE / 1 > BOUND && Admits([], 4295, 1)
  {
    assert Wrap32(4295 * SCALE) == 32704;
  }

  lemma ShareExact(processing: int, period: int)
    requires SaneRequest(processing, period)
    ensures !Traps(processing, period)
    ensures Share(processing, period) == processing * SCALE / period
    ensures 0 <= Share(processing, period) <= 2147 * SCALE
  {
    OverflowBound(processing);
    var a := processing * SCALE;
    assert a / period <= a by { DivShrinks(a, period); }
  }

  lemma MulGrows(q: nat, b: nat)
    requires b >= 1
    ensures q * b >= q
  {
    assert q * b == q * (b - 1) + q;
  }

  lemma DivShrinks(a: nat, b: nat)
    requires b > 0
    ensures 0 <= a / b <= a
  {
    var q := a / b;
    assert q * b <= a;
    MulGrows(q, b);
  }

  lemma NoWrap(x: nat)
    requires x < TWO64
    ensures x % TWO64 == x
  {
  }

  /** The sum grows by the share of the last task. */
  lemma LastShare(tasks: seq<Task>, start: nat)
    requires tasks != [] && AllSane(tasks)
    ensures forall t | t in tasks :: !Traps(t.processing, t.period)
    ensures var k := |tasks| - 1;
      && AllSane(tasks[..k]) && tasks[k] in tasks
      && Exact(tasks) == Exact(tasks[..k]) + Share(tasks[k].processing, tasks[k].period)
      && Total(tasks, start) == (Total(tasks[..k], start) + Share(tasks[k].processing, tasks[k].period)) % TWO64
  {
    var k := |tasks| - 1;
    forall t | t in tasks ensures !Traps(t.processing, t.period) {
      ShareExact(t.processing, t.period);
      hide Share;
    }
    ShareExact(tasks[k].processing, tasks[k].period);
    hide Share, Traps;
  }

  lemma {:induction false} TotalExact(tasks: seq<Task>, start: nat)
    requires AllSane(tasks) && start + Exact(tasks) < TWO64
    ensures forall t | t in tasks :: !Traps(t.processing, t.period)
    ensures Total(tasks, start) == start + Exact(tasks)
  {
    if tasks == [] {
      NoWrap(start);
    } else {
      hide Share, Traps, Total, Exact;
      var k := |tasks| - 1;
      LastShare(tasks, start);
      ShareExact(tasks[k].processing, tasks[k].period);
      TotalExact(tasks[..k], start);
      NoWrap(start + Exact(tasks));
    }
  }

  /** Within those bounds a task is admitted exactly when the truncated shares add up to at most 693000. */
  lemma AdmitsExactly(tasks: seq<Task>, processing: int, period: int)
    requires AllSane(tasks) && SaneRequest(processing, period)
    requires processing * SCALE / period + Exact(tasks) < TWO64
    ensures !Traps(processing, period)
    ensures forall t | t in tasks :: !Traps(t.processing, t.period)
    ensures Admits(tasks, processing, period) <==> processing * SCALE / period + Exact(tasks) <= BOUND
  {
    ShareExact(processing, period);
    TotalExact(tasks, Share(processing, period));
  }

  // ---------- the list changes ----------

  lemma {:induction false} ExactConcat(a: seq<Task>, b: seq<Task>)
    requires AllSane(a) && AllSane(b)
    ensures AllSane(a + b) && Exact(a + b) == Exact(a) + Exact(b)
  {
    if b == [] {
      assert a + b == a;
    } else {
      var k := |b| - 1;
      ExactConcat(a, b[..k]);
      assert (a + b)[..|a + b| - 1] == a + b[..k];
    }
  }

  lemma ExactWithout(tasks: seq<Task>, i: nat)
    requires AllSane(tasks) && i < |tasks|
    ensures AllSane(Drop(tasks, i)) && tasks[i] in tasks
    ensures Exact(Drop(tasks, i)) == Exact(tasks) - tasks[i].processing * SCALE / tasks[i].period
  {
    hide Exact, SaneRequest;
    ExactConcat(tasks[..i], tasks[i + 1..]);
    ExactConcat(tasks[..i], tasks[i..]);
    ExactConcat([tasks[i]], tasks[i + 1..]);
    assert tasks[..i] + tasks[i..] == tasks;
    assert [tasks[i]] + tasks[i + 1..] == tasks[i..];
    assert tasks[i] in tasks;
    ExactOne(tasks[i]);
  }

  /** Handlers that only change states, deadlines and timers do not change the shares. */
  ghost predicate SameDemand(a: seq<Task>, b: seq<Task>) {
    |a| == |b| && forall i | 0 <= i < |a| :: b[i].period == a[i].period && b[i].processing == a[i].processing
  }

  lemma {:induction false} ExactSame(a: seq<Task>, b: seq<Task>)
    requires AllSane(a) && SameDemand(a, b)
    ensures AllSane(b) && Exact(a) == Exact(b)
  {
    if a != [] {
      ExactSame(a[..|a| - 1], b[..|a| - 1]);
    }
  }

  lemma ExactOne(t: Task)
    requires SaneRequest(t.processing, t.period)
    ensures Exact([t]) == t.processing * SCALE / t.period
  {
    assert Exact([t][..0]) == 0;
  }

  // ---------- what is admitted and what is listed ----------

  ghost predicate Sane(s: Sched) {
    AllSane(s.tasks) && forall r | r in s.joining :: SaneRequest(r.processing, r.period)
  }

  /** The truncated shares of the tasks that have been admitted and are not on the list yet. */
  function Charge(requests: seq<Request>): (sum: nat)
    requires forall r | r in requests :: SaneRequest(r.processing, r.period)
  {
    if requests == [] then 0
    else
      var r := requests[0];
      assert r in requests && SaneRequest(r.processing, r.period);
      r.processing * SCALE / r.period + Charge(requests[1..])
  }

  lemma {:induction false} ChargeConcat(a: seq<Request>, b: seq<Request>)
    requires forall r | r in a + b :: SaneRequest(r.processing, r.period)
    ensures forall r | r in a || r in b :: r in a + b
    ensures Charge(a + b) == Charge(a) + Charge(b)
  {
    assert forall r | r in a || r in b :: r in a + b;
    if a == [] {
      assert a + b == b;
    } else {
      assert (a + b)[1..] == a[1..] + b;
      ChargeConcat(a[1..], b);
    }
  }

  lemma ChargeOne(r: Request)
    requires SaneRequest(r.processing, r.period)
    ensures Charge([r]) == r.processing * SCALE / r.period
  {
    assert [r][1..] == [];
  }

  lemma ChargeDrop(requests: seq<Request>, i: nat)
    requires i < |requests| && forall r | r in requests :: SaneRequest(r.processing, r.period)
    ensures forall r | r in Drop(requests, i) :: r in requests
    ensures Charge(requests) == Charge(Drop(requests, i)) + requests[i].processing * SCALE / requests[i].period
  {
    hide Charge, SaneRequest;
    var a, r, b := requests[..i], requests[i], requests[i + 1..];
    assert requests == a + ([r] + b);
    assert forall x | x in [r] + b || x in a + b || x in a :: x in requests;
    ChargeConcat(a, [r] + b);
    ChargeConcat([r], b);
    ChargeConcat(a, b);
    ChargeOne(r);
  }

  lemma {:induction false} ChargeBound(requests: seq<Request>)
    requires forall r | r in requests :: SaneRequest(r.processing, r.period) && r.processing * SCALE / r.period <= BOUND
    ensures Charge(requests) <= |requests| * BOUND
  {
    if requests != [] {
      ChargeBound(requests[1..]);
      assert requests[0] in requests;
    }
  }

  lemma InsertSane(s: Sched, i: nat)
    requires Sane(s) && i < |s.joining|
    ensures Sane(Insert(s, i))
    ensures var r := s.joining[i];
      Exact(Insert(s, i).tasks) == Exact(s.tasks) + r.processing * SCALE / r.period
  {
    hide Exact, SaneRequest;
    var r := s.joining[i];
    assert r in s.joining;
    ExactOne(Newcomer(r));
    ExactConcat([Newcomer(r)], s.tasks);
  }

  lemma RegisterSane(s: Sched, e: Event, toJiffies: int -> nat, s': Sched)
    requires Sane(s) && Handle(s, e, toJiffies) == Went(s') && e.Registers? && SaneRequest(e.processing, e.period)
    ensures Sane(s') && s'.tasks == s.tasks
  {
    hide Register, SaneRequest;
    RegisterChecks(s, e.pid, e.period, e.processing, e.process);
  }

  lemma DeregisterTasks(s: Sched, e: Event, toJiffies: int -> nat, s': Sched)
    requires e.Deregisters? && Handle(s, e, toJiffies) == Went(s')
    ensures Lookup(s.tasks, e.pid).Some?
    ensures var i := Lookup(s.tasks, e.pid).value; s'.tasks == Drop(s.tasks, i) && s'.joining == s.joining
  {
    hide Lookup;
  }

  /** What an event adds to the demand of the list, or takes from it. */
  function AddedBy(s: Sched, e: Event): int
    requires Sane(s)
  {
    match e
    case Inserts(i) =>
      if i < |s.joining| then
        var r := s.joining[i];
        assert r in s.joining;
        r.processing * SCALE / r.period
      else 0
    case Deregisters(pid) =>
      var i := Lookup(s.tasks, pid);
      if i.Some? then
        var t := s.tasks[i.value];
        assert t in s.tasks;
        0 - t.processing * SCALE / t.period
      else 0
    case _ => 0
  }

  lemma HandleSane(s: Sched, e: Event, toJiffies: int -> nat, s': Sched)
    requires Sane(s) && Handle(s, e, toJiffies) == Went(s')
    requires e.Registers? ==> SaneRequest(e.processing, e.period)
    ensures Sane(s') && Exact(s'.tasks) == Exact(s.tasks) + AddedBy(s, e)
    ensures !e.Inserts? && !e.Registers? ==> s'.joining == s.joining
  {
    hide Register, Insert, Deregister, Find, Go, Expire, Callback, Dispatch, Due, Exact, SaneRequest, PlaceOf;
    if e.Registers? {
      RegisterSane(s, e, toJiffies, s');
    } else if e.Inserts? {
      if e.i < |s.joining| { InsertSane(s, e.i); }
    } else if e.Deregisters? {
      DeregisterTasks(s, e, toJiffies, s');
      ExactWithout(s.tasks, Lookup(s.tasks, e.pid).value);
    } else {
      hide Handle;
      HandleInPlace(s, e, toJiffies, s');
      ExactSame(s.tasks, s'.tasks);
    }
  }

  lemma {:induction false} RunSane(
      now: nat, events: seq<Event>, toJiffies: int -> nat, states: seq<Sched>, k: nat)
    requires SaneEvents(events) && Execution(now, events, toJiffies, states) && k < |states|
    ensures Sane(states[k])
  {
    hide Handle, Sane, SaneRequest;
    if k == 0 {
      NothingBooked(now);
    } else {
      RunSane(now, events, toJiffies, states, k - 1);
      assert events[k - 1] in events;
      HandleSane(states[k - 1], events[k - 1], toJiffies, states[k]);
    }
  }

  lemma NothingBooked(now: nat)
    ensures Sane(Start(now)) && Exact(Start(now).tasks) == 0 && Booked(Start(now), 1)
  {
  }

  // ---------- the bound on the list ----------

  /** What the events from position a to position b added to the demand of the list, less what they took from it. */
  function Grown(events: seq<Event>, states: seq<Sched>, a: nat, b: nat): int
    requires a <= b <= |events| < |states| && forall k | a <= k < b :: Sane(states[k])
  {
    if a == b then 0 else Grown(events, states, a, b - 1) + AddedBy(states[b - 1], events[b - 1])
  }

  lemma AllStatesSane(now: nat, events: seq<Event>, toJiffies: int -> nat, states: seq<Sched>)
    requires SaneEvents(events) && Execution(now, events, toJiffies, states)
    ensures forall k {:trigger states[k]} | 0 <= k < |states| :: Sane(states[k]) && AllSane(states[k].tasks)
  {
    hide Handle, Sane, SaneRequest;
    forall k | 0 <= k < |states| ensures Sane(states[k]) && AllSane(states[k].tasks) {
      RunSane(now, events, toJiffies, states, k);
      SaneTasks(states[k]);
    }
  }

  lemma {:induction false} DemandGrows(
      now: nat, events: seq<Event>, toJiffies: int -> nat, states: seq<Sched>, a: nat, b: nat)
    requires SaneEvents(events) && Execution(now, events, toJiffies, states) && a <= b <= |events|
    ensures forall k {:trigger states[k]} | a <= k <= b :: Sane(states[k]) && AllSane(states[k].tasks)
    ensures Exact(states[b].tasks) == Exact(states[a].tasks) + Grown(events, states, a, b)
  {
    hide Handle, Sane, SaneRequest, Exact, AddedBy;
    AllStatesSane(now, events, toJiffies, states);
    if a < b {
      DemandGrows(now, events, toJiffies, states, a, b - 1);
      assert events[b - 1] in events;
      HandleSane(states[b - 1], events[b - 1], toJiffies, states[b]);
    }
  }

  /** The event at position b adds the task that the event at position a admitted. */
  predicate Adds(events: seq<Event>, states: seq<Sched>, a: nat, b: nat)
    requires a < b < |events| < |states|
  {
    && events[b].Inserts? && events[b].i < |states[b].joining|
    && Bears(states[a], events[a], states[b].joining[events[b].i])
  }

  /** The room on the list that the admission of a task left. */
  function Room(s: Sched, e: Event): int
    requires Sane(s) && e.Registers? && SaneRequest(e.processing, e.period)
  {
    BOUND - Exact(s.tasks) - e.processing * SCALE / e.period
  }

  /** Between the admission of a task and its insertion the list has grown by more than the room that was left. */
  predicate Overtaken(events: seq<Event>, states: seq<Sched>, a: nat, b: nat)
    requires SaneEvents(events) && a < b < |events| < |states| && forall k | a <= k <= b :: Sane(states[k])
  {
    Adds(events, states, a, b) &&
    assert events[a] in events;
    Grown(events, states, a, b) > Room(states[a], events[a])
  }

  /** The insertion at position b takes the list beyond the bound, exactly if the list has grown too much since the
      admission. */
  lemma OvertakenExactly(
      now: nat, events: seq<Event>, toJiffies: int -> nat, states: seq<Sched>, a: nat, b: nat)
    requires SaneEvents(events) && Execution(now, events, toJiffies, states) && a < b < |events|
    requires Adds(events, states, a, b)
    ensures forall k {:trigger states[k]} | 0 <= k < |states| :: Sane(states[k]) && AllSane(states[k].tasks)
    ensures Exact(states[b + 1].tasks) > BOUND <==> Overtaken(events, states, a, b)
  {
    hide Handle, Sane, SaneRequest, Exact, Grown;
    AllStatesSane(now, events, toJiffies, states);
    DemandGrows(now, events, toJiffies, states, a, b);
    HandleSane(states[b], events[b], toJiffies, states[b + 1]);
    assert events[a] in events;
  }

  lemma OnlyInsertionsAdd(s: Sched, e: Event)
    requires Sane(s)
    ensures AddedBy(s, e) > 0 ==> e.Inserts? && e.i < |s.joining|
  {
    if e.Deregisters? && Lookup(s.tasks, e.pid).Some? {
      var t := s.tasks[Lookup(s.tasks, e.pid).value];
      assert t in s.tasks;
      ShareNatural(t.processing, t.period);
    }
  }

  lemma ShareNatural(processing: int, period: int)
    requires SaneRequest(processing, period)
    ensures processing * SCALE / period >= 0
  {
  }

  /** A step that takes the list beyond the bound adds a task whose admission lies before. */
  lemma BeyondByInsertion(now: nat, events: seq<Event>, toJiffies: int -> nat, states: seq<Sched>, b: nat)
    returns (a: nat)
    requires SaneEvents(events) && Execution(now, events, toJiffies, states) && b < |events|
    requires Sane(states[b]) && Sane(states[b + 1])
    requires Exact(states[b].tasks) <= BOUND < Exact(states[b + 1].tasks)
    ensures a < b && Adds(events, states, a, b)
  {
    hide Handle, Sane, SaneRequest, Exact, AddedBy, Memory, Bears;
    assert events[b] in events;
    HandleSane(states[b], events[b], toJiffies, states[b + 1]);
    OnlyInsertionsAdd(states[b], events[b]);
    var r := states[b].joining[events[b].i];
    assert Known(states[b], r);
    EveryRecordBorn(now, events, toJiffies, states, b, r);
    a :| 0 <= a < b && Bears(states[a], events[a], r);
  }

  /** In any run the list keeps within 693000 all the time, exactly if no task is overtaken: what was added to the list
      between its admission and its insertion, less what was taken off, never exceeds the room that its admission
      left. */
  lemma {:induction false} RunBoundedExactly(
      now: nat, events: seq<Event>, toJiffies: int -> nat, states: seq<Sched>, n: nat)
    requires SaneEvents(events) && Execution(now, events, toJiffies, states) && n <= |events|
    ensures forall k {:trigger states[k]} | 0 <= k < |states| :: Sane(states[k]) && AllSane(states[k].tasks)
    ensures (forall k {:trigger states[k]} | 0 <= k <= n :: Exact(states[k].tasks) <= BOUND) <==>
      (forall a, b | 0 <= a < b < n :: !Overtaken(events, states, a, b))
  {
    hide Handle, Sane, SaneRequest, Exact, Overtaken, Adds;
    AllStatesSane(now, events, toJiffies, states);
    if n == 0 {
      NothingBooked(now);
    } else {
      RunBoundedExactly(now, events, toJiffies, states, n - 1);
      if Exact(states[n - 1].tasks) <= BOUND < Exact(states[n].tasks) {
        var a := BeyondByInsertion(now, events, toJiffies, states, n - 1);
        OvertakenExactly(now, events, toJiffies, states, a, n - 1);
      }
      var last := n - 1;
      forall a | 0 <= a < last && Overtaken(events, states, a, last) ensures Exact(states[n].tasks) > BOUND {
        OvertakenAdds(events, states, a, last);
        OvertakenExactly(now, events, toJiffies, states, a, last);
      }
    }
  }

  lemma OvertakenAdds(events: seq<Event>, states: seq<Sched>, a: nat, b: nat)
    requires SaneEvents(events) && a < b < |events| < |states| && forall k | a <= k <= b :: Sane(states[k])
    requires Overtaken(events, states, a, b)
    ensures Adds(events, states, a, b)
  {
  }

  lemma SaneTasks(s: Sched)
    requires Sane(s)
    ensures AllSane(s.tasks)
  {
  }

  // ---------- registrations that overlap ----------

  /** What m registrations at a time can book. */
  ghost predicate Booked(s: Sched, m: nat)
    requires Sane(s)
  {
    && Exact(s.tasks) + Charge(s.joining) <= m * BOUND
    && forall r | r in s.joining :: r.processing * SCALE / r.period <= BOUND
  }

  lemma RegisterBooked(s: Sched, e: Event, toJiffies: int -> nat, s': Sched, m: nat)
    requires Sane(s) && Booked(s, m) && 0 < m <= TWO32 && |s'.joining| <= m
    requires e.Registers? && SaneRequest(e.processing, e.period) && Handle(s, e, toJiffies) == Went(s')
    ensures Sane(s') && Booked(s', m)
  {
    hide Total, Share, Admits, Exact, Charge, SaneRequest, Traps;
    RegisterSane(s, e, toJiffies, s');
    ShareExact(e.processing, e.period);
    AdmitsExactly(s.tasks, e.processing, e.period);
    if s'.joining != s.joining {
      var r := Request(s.issued, e.pid, e.period, e.processing, e.process);
      ChargeConcat(s.joining, [r]);
      ChargeOne(r);
      ChargeBound(s.joining);
      Fewer(|s.joining|, m);
    }
  }

  lemma Fewer(k: nat, m: nat)
    requires k + 1 <= m
    ensures k * BOUND + BOUND <= m * BOUND
  {
  }

  lemma InsertBooked(s: Sched, i: nat, m: nat)
    requires Sane(s) && Booked(s, m) && i < |s.joining|
    ensures Sane(Insert(s, i)) && Booked(Insert(s, i), m)
  {
    hide Exact, Charge, SaneRequest;
    InsertSane(s, i);
    ChargeDrop(s.joining, i);
  }

  lemma HandleBooked(s: Sched, e: Event, toJiffies: int -> nat, s': Sched, m: nat)
    requires Sane(s) && Sane(s') && Booked(s, m) && 0 < m <= TWO32 && |s'.joining| <= m
    requires Handle(s, e, toJiffies) == Went(s') && (e.Registers? ==> SaneRequest(e.processing, e.period))
    ensures Booked(s', m)
  {
    hide Register, Insert, Deregister, Find, Go, Expire, Callback, Dispatch, Due, PlaceOf, Exact, Charge, SaneRequest;
    if e.Registers? {
      RegisterBooked(s, e, toJiffies, s', m);
    } else if e.Inserts? {
      if e.i < |s.joining| { InsertBooked(s, e.i, m); }
    } else {
      hide Handle, AddedBy;
      HandleSane(s, e, toJiffies, s');
      OnlyInsertionsAdd(s, e);
    }
  }

  /** In any run with at most m registrations at a time between admission and insertion, the list never needs more
      than m times what admission control allows. */
  lemma {:induction false} RunBounded(
      now: nat, events: seq<Event>, toJiffies: int -> nat, states: seq<Sched>, k: nat, m: nat)
    requires SaneEvents(events) && Execution(now, events, toJiffies, states) && k < |states| && 0 < m <= TWO32
    requires forall l {:trigger states[l]} | 0 <= l <= k :: |states[l].joining| <= m
    ensures Sane(states[k]) && Booked(states[k], m)
    ensures Exact(states[k].tasks) <= m * BOUND
  {
    hide Handle, Sane, SaneRequest, Exact, Charge;
    RunSane(now, events, toJiffies, states, k);
    if k == 0 {
      NothingBooked(now);
    } else {
      RunSane(now, events, toJiffies, states, k - 1);
      RunBounded(now, events, toJiffies, states, k - 1, m);
      assert events[k - 1] in events;
      HandleBooked(states[k - 1], events[k - 1], toJiffies, states[k], m);
    }
    SaneTasks(states[k]);
  }

  // ---------- real utilisation ----------

  lemma FractionBounds(y: real, p: real)
    requires p > 0.0 && 0.0 <= y * p < p
    ensures 0.0 <= y < 1.0
  {
  }

  lemma RealQuotient(a: real, p: real, q: real, r: real)
    requires p > 0.0 && a == q * p + r && 0.0 <= r < p
    ensures q <= a / p < q + 1.0
  {
    var x := a / p;
    assert x * p == a;
    var y := x - q;
    assert y * p == x * p - q * p;
    assert y * p == r;
    FractionBounds(y, p);
  }

  lemma DivReal(a: nat, b: nat)
    requires b > 0
    ensures (a / b) as real <= a as real / b as real < (a / b) as real + 1.0
  {
    var q, r := a / b, a % b;
    assert a == q * b + r;
    assert (q * b) as real == q as real * b as real;
    RealQuotient(a as real, b as real, q as real, r as real);
  }

  lemma ScaleInside(a: real, b: real, k: real)
    requires b > 0.0
    ensures a / b * k == a * k / b
  {
    var x := a / b;
    assert x * b == a;
    assert (x * k) * b == a * k;
  }

  /** A truncated share is less than one millionth below the real one. */
  lemma ShareReal(processing: nat, period: nat)
    requires period > 0
    ensures var u := processing as real / period as real;
      (processing * SCALE / period) as real <= u * SCALE as real < (processing * SCALE / period) as real + 1.0
  {
    DivReal(processing * SCALE, period);
    ScaleInside(processing as real, period as real, SCALE as real);
  }

  lemma {:induction false} UtilisationBounds(tasks: seq<Task>)
    requires AllSane(tasks)
    ensures Exact(tasks) as real <= Utilisation(tasks) * SCALE as real <= (Exact(tasks) + |tasks|) as real
    ensures tasks != [] ==> Utilisation(tasks) * SCALE as real < (Exact(tasks) + |tasks|) as real
  {
    if tasks != [] {
      var k := |tasks| - 1;
      UtilisationBounds(tasks[..k]);
      ShareReal(tasks[k].processing, tasks[k].period);
    }
  }

  /** In any run of the scheduler with at most m registrations at a time, n listed tasks use less than
      (693000 m + n) / 10^6 of the processor; if registrations do not overlap and there are at most 147 tasks, less
      than 0.693147, which is below the natural logarithm of 2. */
  lemma AdmissionBound(now: nat, events: seq<Event>, toJiffies: int -> nat, states: seq<Sched>, k: nat, m: nat)
    requires SaneEvents(events) && Execution(now, events, toJiffies, states) && k < |states| && 0 < m <= TWO32
    requires forall l {:trigger states[l]} | 0 <= l <= k :: |states[l].joining| <= m
    ensures AllSane(states[k].tasks)
    ensures var tasks := states[k].tasks;
      tasks != [] ==>
        && Utilisation(tasks) < (m * BOUND + |tasks|) as real / SCALE as real
        && (m == 1 && |tasks| <= 147 ==> Utilisation(tasks) < 0.693147)
  {
    hide Handle, Exact, Charge;
    RunBounded(now, events, toJiffies, states, k, m);
    UtilisationBounds(states[k].tasks);
  }

  /** At any time a request that would keep the utilisation at or below 0.693 is admitted. */
  lemma AdmissionComplete(
      now: nat, events: seq<Event>, toJiffies: int -> nat, states: seq<Sched>, k: nat, processing: int, period: int)
    requires SaneEvents(events) && Execution(now, events, toJiffies, states) && k < |states|
    requires SaneRequest(processing, period)
    ensures AllSane(states[k].tasks)
    ensures Utilisation(states[k].tasks) + processing as real / period as real <= 0.693 ==>
      !Traps(processing, period) && (forall t | t in states[k].tasks :: !Traps(t.processing, t.period)) &&
      Admits(states[k].tasks, processing, period)
  {
    hide Handle, Admits, Exact;
    var tasks := states[k].tasks;
    RunSane(now, events, toJiffies, states, k);
    UtilisationBounds(tasks);
    ShareReal(processing, period);
    if Utilisation(tasks) + processing as real / period as real <= 0.693 {
      AdmitsExactly(tasks, processing, period);
    }
  }
}
