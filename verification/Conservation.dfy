/** No fault and no processor time is lost or counted twice by the profiler of MP3, in any run. */
module Conservation {
  import opened Wrappers
  import opened Profiler

  /** What is counted: faults of two kinds, and processor time, in user and in system mode together. */
  datatype Kind = Minor | Major | Processor

  function Of(c: Counters, kind: Kind): nat {
    match kind
    case Minor => c.minor
    case Major => c.major
    case Processor => c.utime + c.stime
  }

  function OfSums(x: Sums, kind: Kind): nat {
    match kind
    case Minor => x.minor
    case Major => x.major
    case Processor => x.cpu
  }

  /** What is in the hands of the work function. */
  function Held(work: Work, kind: Kind): nat {
    match work
    case Read(x) => OfSums(x, kind)
    case _ => 0
  }

  /** What the live processes have incurred since they were last read. */
  function Residual(processes: seq<Process>, kind: Kind): nat {
    if processes == [] then 0
    else Residual(processes[..|processes| - 1], kind) + Of(processes[|processes| - 1].counters, kind)
  }

  /** The sums that a step writes, with the time of the sample. */
  function Added(s: State, e: Event): (samples: seq<(nat, Sums)>) {
    if e.Writes? && s.work.Read? then [(e.jiffies, s.work.sums)] else []
  }

  /** The samples written by the first k steps, in the order of the writes. */
  function Taken(events: seq<Event>, states: seq<State>, k: nat): (samples: seq<(nat, Sums)>)
    requires k <= |events| < |states|
  {
    if k == 0 then [] else Taken(events, states, k - 1) + Added(states[k - 1], events[k - 1])
  }

  /** All that the samples hold of one kind. */
  function Column(samples: seq<(nat, Sums)>, kind: Kind): nat {
    if samples == [] then 0
    else Column(samples[..|samples| - 1], kind) + OfSums(samples[|samples| - 1].1, kind)
  }

  /** What one step adds to the faults or the time of live processes, sampled or not. */
  function Gain(s: State, e: Event, kind: Kind): int {
    match e
    case Incurs(pid, cost) => if Find(s.processes, pid).Some? then Of(cost, kind) else 0
    case Ends(pid) =>
      (match Find(s.processes, pid) case None => 0 case Some(i) => 0 - Of(s.processes[i].counters, kind))
    case _ => 0
  }

  /** All that was incurred in the first k steps: what the processes had at the start and what they incurred, without
      what ended with a process before it was read. */
  function Incurred(processes: seq<Process>, events: seq<Event>, states: seq<State>, kind: Kind, k: nat): int
    requires k <= |events| < |states|
  {
    if k == 0 then Residual(processes, kind)
    else Incurred(processes, events, states, kind, k - 1) + Gain(states[k - 1], events[k - 1], kind)
  }

  // ---------- counting modulo 2^64 ----------

  /** Equal as 64-bit counters. */
  ghost predicate Same(a: int, b: int) {
    a % 0x1_0000_0000_0000_0000 == b % 0x1_0000_0000_0000_0000
  }

  lemma AddSame(a: nat, b: nat)
    ensures Same(Add(a, b), a + b)
  {
  }

  lemma AddTwice(a: nat, b: nat, c: nat)
    ensures Same(Add(a, Add(b, c)), a + (b + c))
  {
    AddSame(b, c);
    SameAdd(Add(b, c), b + c, a);
    AddSame(a, Add(b, c));
  }

  lemma SameAdd(a: int, b: int, c: int)
    requires Same(a, b)
    ensures Same(a + c, b + c)
  {
    var q, r := a / TWO64, b / TWO64;
    assert a + c == b + c + (q - r) * TWO64;
    Multiples(b + c, q - r);
  }

  lemma {:induction false} Multiples(a: int, k: int)
    ensures Same(a + k * TWO64, a)
    decreases if k < 0 then -k else k
  {
    if k > 0 { Multiples(a, k - 1); } else if k < 0 { Multiples(a, k + 1); }
  }

  lemma SameRefl(a: int)
    ensures Same(a, a)
  {
  }

  lemma SameTrans(a: int, b: int, c: int)
    requires Same(a, b) && Same(b, c)
    ensures Same(a, c)
  {
  }

  // ---------- conservation ----------

  lemma {:induction false} ResidualConcat(a: seq<Process>, b: seq<Process>, kind: Kind)
    ensures Residual(a + b, kind) == Residual(a, kind) + Residual(b, kind)
  {
    if b == [] {
      assert a + b == a;
    } else {
      assert (a + b)[..|a + b| - 1] == a + b[..|b| - 1];
      ResidualConcat(a, b[..|b| - 1], kind);
    }
  }

  lemma ResidualOne(p: Process, kind: Kind)
    ensures Residual([p], kind) == Of(p.counters, kind)
  {
    assert Residual([p][..0], kind) == 0;
  }

  lemma ResidualUpdate(processes: seq<Process>, i: nat, p: Process, kind: Kind)
    requires i < |processes|
    ensures Residual(processes[i := p], kind) ==
      Residual(processes, kind) - Of(processes[i].counters, kind) + Of(p.counters, kind)
  {
    hide Residual, Of;
    var a, b := processes[..i], processes[i + 1..];
    assert processes == a + ([processes[i]] + b) && processes[i := p] == a + ([p] + b);
    ResidualConcat(a, [processes[i]] + b, kind);
    ResidualConcat(a, [p] + b, kind);
    ResidualConcat([processes[i]], b, kind);
    ResidualConcat([p], b, kind);
    ResidualOne(processes[i], kind);
    ResidualOne(p, kind);
  }

  lemma ResidualRemove(processes: seq<Process>, i: nat, kind: Kind)
    requires i < |processes|
    ensures Residual(processes[..i] + processes[i + 1..], kind) ==
      Residual(processes, kind) - Of(processes[i].counters, kind)
  {
    hide Residual, Of;
    var a, b := processes[..i], processes[i + 1..];
    assert processes == a + ([processes[i]] + b);
    ResidualConcat(a, [processes[i]] + b, kind);
    ResidualConcat([processes[i]], b, kind);
    ResidualConcat(a, b, kind);
    ResidualOne(processes[i], kind);
  }

  /** One process is read. */
  lemma ReadOne(x: Sums, c: Counters, kind: Kind)
    ensures Same(OfSums(Sums(Add(x.minor, c.minor), Add(x.major, c.major), Add(x.cpu, Add(c.utime, c.stime))), kind),
                 OfSums(x, kind) + Of(c, kind))
  {
    hide Same, Add;
    AddSame(x.minor, c.minor);
    AddSame(x.major, c.major);
    AddTwice(x.cpu, c.utime, c.stime);
  }

  /** Reading and resetting moves the faults and the processor time of the registered processes into the sums, once each
      however often a pid is registered. */
  lemma {:induction false} CollectConserves(processes: seq<Process>, registered: seq<int>, kind: Kind)
    ensures var (sums, after) := Collected(processes, registered);
      Same(OfSums(sums, kind) + Residual(after, kind), Residual(processes, kind))
  {
    hide Same, Add, Residual, OfSums, Of;
    if registered != [] {
      var k := |registered| - 1;
      CollectConserves(processes, registered[..k], kind);
      var (sums, now) := Collected(processes, registered[..k]);
      var i := Find(now, registered[k]);
      if i.Some? {
        var c := now[i.value].counters;
        ResidualUpdate(now, i.value, Process(now[i.value].pid, ZERO), kind);
        assert Of(ZERO, kind) == 0 by { NothingIn(kind); }
        ReadOne(sums, c, kind);
        var more, left := OfSums(Collected(processes, registered).0, kind), Residual(now, kind) - Of(c, kind);
        SameAdd(more, OfSums(sums, kind) + Of(c, kind), left);
        SameTrans(more + left, OfSums(sums, kind) + Residual(now, kind), Residual(processes, kind));
      }
    } else {
      NothingIn(kind);
      SameRefl(Residual(processes, kind));
    }
  }

  lemma NothingIn(kind: Kind)
    ensures Of(ZERO, kind) == 0 && OfSums(Sums(0, 0, 0), kind) == 0
  {
  }

  /** Exactly the registered processes are read: the first of each pid starts from zero, and no other is touched. */
  lemma {:induction false} CollectsExactly(processes: seq<Process>, registered: seq<int>, i: nat)
    requires i < |processes|
    ensures var after := Collected(processes, registered).1;
      after[i] == if processes[i].pid in registered && Find(processes, processes[i].pid) == Some(i)
                  then Process(processes[i].pid, Counters(0, 0, 0, 0)) else processes[i]
  {
    if registered != [] {
      var k := |registered| - 1;
      var now := Collected(processes, registered[..k]).1;
      CollectsExactly(processes, registered[..k], i);
      SameFind(now, processes, registered[k]);
    }
  }

  function Accounted(s: State, samples: seq<(nat, Sums)>, kind: Kind): nat {
    Column(samples, kind) + Held(s.work, kind) + Residual(s.processes, kind)
  }

  lemma ChargeSame(c: Counters, cost: Counters, kind: Kind)
    ensures Same(Of(Charged(c, cost), kind), Of(c, kind) + Of(cost, kind))
  {
    hide Same, Add;
    AddSame(c.minor, cost.minor);
    AddSame(c.major, cost.major);
    AddSame(c.utime, cost.utime);
    AddSame(c.stime, cost.stime);
    SameAdd(Add(c.utime, cost.utime), c.utime + cost.utime, Add(c.stime, cost.stime));
    SameAdd(Add(c.stime, cost.stime), c.stime + cost.stime, c.utime + cost.utime);
    if kind.Processor? {
      SameTrans(Add(c.utime, cost.utime) + Add(c.stime, cost.stime), c.utime + cost.utime + Add(c.stime, cost.stime),
                c.utime + cost.utime + c.stime + cost.stime);
    }
  }

  lemma ProcessStepConserves(s: State, e: Event, toMsecs: nat -> nat, s': State, kind: Kind)
    requires Step(s, e, toMsecs) == Went(s') && (e.Begins? || e.Ends? || e.Incurs?)
    ensures Same(Residual(s'.processes, kind), Residual(s.processes, kind) + Gain(s, e, kind))
    ensures s'.work == s.work
  {
    hide Residual, Same, Add, Of;
    SameRefl(Residual(s'.processes, kind));
    NothingIn(kind);
    match e
    case Begins(pid) =>
      if Find(s.processes, pid).None? {
        ResidualConcat(s.processes, [Process(pid, ZERO)], kind);
        ResidualOne(Process(pid, ZERO), kind);
      }
    case Ends(pid) =>
      if Find(s.processes, pid).Some? { ResidualRemove(s.processes, Find(s.processes, pid).value, kind); }
    case Incurs(pid, cost) =>
      if Find(s.processes, pid).Some? {
        var i := Find(s.processes, pid).value;
        ResidualUpdate(s.processes, i, Process(pid, Charged(s.processes[i].counters, cost)), kind);
        var c := s.processes[i].counters;
        ChargeSame(c, cost, kind);
        SameAdd(Of(Charged(c, cost), kind), Of(c, kind) + Of(cost, kind), Residual(s.processes, kind) - Of(c, kind));
      }
  }

  lemma ColumnGrows(samples: seq<(nat, Sums)>, x: (nat, Sums), kind: Kind)
    ensures Column(samples + [x], kind) == Column(samples, kind) + OfSums(x.1, kind)
  {
    assert (samples + [x])[..|samples|] == samples;
  }

  /** In every run, and modulo the width of the counters, for faults of either kind and for processor time: what the
      samples written hold, what the sample in hand holds and what has not been read yet are together all that was
      incurred. */
  lemma {:induction false} Conserved(
      processes: seq<Process>, events: seq<Event>, toMsecs: nat -> nat, states: seq<State>, k: nat, kind: Kind)
    requires Execution(processes, events, toMsecs, states) && k <= |events|
    ensures Same(Accounted(states[k], Taken(events, states, k), kind), Incurred(processes, events, states, kind, k))
  {
    hide Same, Step, Gain, Accounted, Column, Added, Init;
    if k == 0 {
      StartAccounted(processes, kind);
    } else {
      var before, e, samples := states[k - 1], events[k - 1], Taken(events, states, k - 1);
      Conserved(processes, events, toMsecs, states, k - 1, kind);
      StepConserves(before, e, toMsecs, states[k], samples, kind);
      var was, gain := Accounted(before, samples, kind), Gain(before, e, kind);
      var incurred := Incurred(processes, events, states, kind, k - 1);
      SameAdd(was, incurred, gain);
      SameTrans(Accounted(states[k], samples + Added(before, e), kind), was + gain, incurred + gain);
    }
  }

  lemma StartAccounted(processes: seq<Process>, kind: Kind)
    ensures Same(Accounted(Init(processes), [], kind), Residual(processes, kind))
  {
  }

  lemma StepConserves(
      s: State, e: Event, toMsecs: nat -> nat, s': State, samples: seq<(nat, Sums)>, kind: Kind)
    requires Step(s, e, toMsecs) == Went(s')
    ensures Same(Accounted(s', samples + Added(s, e), kind), Accounted(s, samples, kind) + Gain(s, e, kind))
  {
    hide Residual, Column, Same, Step, Held, Gain, OfSums;
    if !(e.Writes? && s.work.Read?) { assert samples + [] == samples; }
    SameRefl(Accounted(s, samples, kind));
    if e.Collects? {
      CollectStepConserves(s, e, toMsecs, s', kind);
      SameAdd(Held(s'.work, kind) + Residual(s'.processes, kind), Held(s.work, kind) + Residual(s.processes, kind),
              Column(samples, kind));
    } else if e.Begins? || e.Ends? || e.Incurs? {
      ProcessStepConserves(s, e, toMsecs, s', kind);
      SameAdd(Residual(s'.processes, kind), Residual(s.processes, kind) + Gain(s, e, kind),
              Column(samples, kind) + Held(s.work, kind));
    } else {
      OtherStepConserves(s, e, toMsecs, s', kind);
      if e.Writes? && s.work.Read? { ColumnGrows(samples, (e.jiffies, s.work.sums), kind); }
    }
  }

  lemma CollectStepConserves(s: State, e: Event, toMsecs: nat -> nat, s': State, kind: Kind)
    requires Step(s, e, toMsecs) == Went(s') && e.Collects?
    ensures Same(Held(s'.work, kind) + Residual(s'.processes, kind), Held(s.work, kind) + Residual(s.processes, kind))
    ensures Gain(s, e, kind) == 0
  {
    hide Residual, Collected, Same, OfSums;
    SameRefl(Held(s.work, kind) + Residual(s.processes, kind));
    if s.work.Begun? { CollectConserves(s.processes, s.registered, kind); }
  }

  /** The other steps leave the processes alone; a sample goes from the work function to the buffer. */
  lemma OtherStepConserves(s: State, e: Event, toMsecs: nat -> nat, s': State, kind: Kind)
    requires Step(s, e, toMsecs) == Went(s') && !e.Collects? && !e.Begins? && !e.Ends? && !e.Incurs?
    ensures s'.processes == s.processes && Gain(s, e, kind) == 0
    ensures Held(s'.work, kind) ==
      if e.Writes? && s.work.Read? then Held(s.work, kind) - OfSums(s.work.sums, kind) else Held(s.work, kind)
  {
    hide Find, Collected, IndexOf, Written, OfSums;
  }

  /** Right after the counters were collected every live registered process starts from zero. */
  lemma {:induction false} CollectResets(processes: seq<Process>, registered: seq<int>, pid: int)
    requires pid in registered
    ensures var after := Collected(processes, registered).1;
      Find(after, pid).Some? ==> after[Find(after, pid).value].counters == ZERO
  {
    var k := |registered| - 1;
    var now := Collected(processes, registered[..k]).1;
    var after := Collected(processes, registered).1;
    var i := Find(now, registered[k]);
    if pid != registered[k] {
      assert pid in registered[..k];
      CollectResets(processes, registered[..k], pid);
      SameFind(now, after, pid);
    } else {
      SameFind(now, after, pid);
    }
  }

  lemma {:induction false} SameFind(a: seq<Process>, b: seq<Process>, pid: int)
    requires |a| == |b| && forall i | 0 <= i < |a| :: a[i].pid == b[i].pid
    ensures Find(a, pid) == Find(b, pid)
  {
    if a != [] { SameFind(a[1..], b[1..], pid); }
  }

  // ---------- the width of a word ----------

  /** Every counter fits an `unsigned long`. */
  predicate Narrow(c: Counters) {
    c.minor < 18446744073709551616 && c.major < 18446744073709551616 &&
    c.utime < 18446744073709551616 && c.stime < 18446744073709551616
  }

  ghost predicate AllNarrow(processes: seq<Process>) {
    forall i | 0 <= i < |processes| :: Narrow(processes[i].counters)
  }

  predicate NarrowSums(x: Sums) {
    x.minor < 18446744073709551616 && x.major < 18446744073709551616 && x.cpu < 18446744073709551616
  }

  lemma {:induction false} CollectedFits(processes: seq<Process>, registered: seq<int>)
    requires AllNarrow(processes)
    ensures var r := Collected(processes, registered); NarrowSums(r.0) && AllNarrow(r.1)
  {
    hide Find;
    if registered != [] { CollectedFits(processes, registered[..|registered| - 1]); }
  }

  lemma StepFits(s: State, e: Event, toMsecs: nat -> nat, s': State)
    requires Step(s, e, toMsecs) == Went(s') && AllNarrow(s.processes) && (s.work.Read? ==> NarrowSums(s.work.sums))
    ensures AllNarrow(s'.processes) && (s'.work.Read? ==> NarrowSums(s'.work.sums))
  {
    if e.Collects? {
      CollectedFits(s.processes, s.registered);
      hide Collected, AllNarrow, NarrowSums;
    } else {
      ProcessesFit(s, e, toMsecs, s');
      hide Find, IndexOf, Written, Words, AllNarrow, NarrowSums;
    }
  }

  lemma ProcessesFit(s: State, e: Event, toMsecs: nat -> nat, s': State)
    requires Step(s, e, toMsecs) == Went(s') && AllNarrow(s.processes) && !e.Collects?
    ensures AllNarrow(s'.processes)
  {
    hide Find, IndexOf, Collected, Written, Words, Narrow, Charged;
    match e
    case Begins(_) => assert Narrow(ZERO) by { ZeroFits(); }
    case Incurs(pid, cost) => ChargedFits(cost);
    case _ =>
  }

  lemma ZeroFits()
    ensures Narrow(ZERO)
  {
  }

  lemma ChargedFits(cost: Counters)
    ensures forall c :: Narrow(Charged(c, cost))
  {
  }

  /** Over any run that starts with counters that do, and so does every sum in the hands of the work function. */
  lemma {:induction false} CountersFit(
      processes: seq<Process>, events: seq<Event>, toMsecs: nat -> nat, states: seq<State>, k: nat)
    requires Execution(processes, events, toMsecs, states) && k <= |events| && AllNarrow(processes)
    ensures AllNarrow(states[k].processes) && (states[k].work.Read? ==> NarrowSums(states[k].work.sums))
  {
    hide Step, Narrow, NarrowSums;
    if k > 0 {
      CountersFit(processes, events, toMsecs, states, k - 1);
      StepFits(states[k - 1], events[k - 1], toMsecs, states[k]);
    }
  }
}
