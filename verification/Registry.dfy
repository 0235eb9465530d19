/** Which processes the profiler of MP3 samples: those that registered and have not left. */
module Registry {
  import opened Wrappers
  import opened Profiler

  /** The first entry of a pid goes, and no other. */
  ghost predicate Without(registered: seq<int>, pid: int, rest: seq<int>) {
    exists i | 0 <= i < |registered| ::
      registered[i] == pid && pid !in registered[..i] && rest == registered[..i] + registered[i + 1..]
  }

  /** An unregistration takes the first entry of its pid off the list and leaves the others where they are; it
      dereferences null exactly if there is none. */
  lemma LeavesExactly(s: State, pid: int, toMsecs: nat -> nat)
    ensures Step(s, Leaves(pid), toMsecs).Crash? <==> pid !in s.registered
    ensures pid in s.registered ==>
      Step(s, Leaves(pid), toMsecs).Went? &&
      Without(s.registered, pid, Step(s, Leaves(pid), toMsecs).state.registered)
  {
  }

  /** The second half of a registration puts the pid at the head of the list, and queues the work if the list was seen
      empty by the first; it is then no longer about to be added. */
  lemma JoinsExactly(s: State, i: nat, toMsecs: nat -> nat)
    requires i < |s.joining|
    ensures var o, j := Step(s, Joins(i), toMsecs), s.joining[i];
      && o.Went? && o.state.registered == [j.pid] + s.registered
      && o.state.pending == (s.pending || j.wasEmpty)
      && o.state.joining == s.joining[..i] + s.joining[i + 1..]
  {
    hide Find, IndexOf, Collected;
  }

  /** How many of the first k events are this one. */
  function Times(events: seq<Event>, e: Event, k: nat): nat
    requires k <= |events|
  {
    if k == 0 then 0 else Times(events, e, k - 1) + if events[k - 1] == e then 1 else 0
  }

  /** How often a pid is in a list. */
  function Entries(pids: seq<int>, pid: int): nat { multiset(pids)[pid] }

  /** The pids of the registrations that have not taken the lock yet. */
  function Pids(joining: seq<Join>): (pids: seq<int>)
    ensures |pids| == |joining|
  {
    seq(|joining|, i requires 0 <= i < |joining| => joining[i].pid)
  }

  lemma EntriesSplit(a: seq<int>, x: int, b: seq<int>, pid: int)
    ensures Entries(a + [x] + b, pid) == Entries(a + b, pid) + if x == pid then 1 else 0
    ensures Entries([x] + a, pid) == Entries(a, pid) + if x == pid then 1 else 0
    ensures Entries(a + [x], pid) == Entries(a, pid) + if x == pid then 1 else 0
  {
  }

  lemma PidsDrop(joining: seq<Join>, i: nat, pid: int)
    requires i < |joining|
    ensures Entries(Pids(joining), pid) == Entries(Pids(Drop(joining, i)), pid) + if joining[i].pid == pid then 1 else 0
  {
    hide Entries;
    var pids := Pids(joining);
    assert pids == pids[..i] + [joining[i].pid] + pids[i + 1..];
    assert Pids(Drop(joining, i)) == pids[..i] + pids[i + 1..];
    EntriesSplit(pids[..i], joining[i].pid, pids[i + 1..], pid);
  }

  lemma PidsSnoc(joining: seq<Join>, j: Join, pid: int)
    ensures Entries(Pids(joining + [j]), pid) == Entries(Pids(joining), pid) + if j.pid == pid then 1 else 0
  {
    hide Entries;
    assert Pids(joining + [j]) == Pids(joining) + [j.pid];
    EntriesSplit(Pids(joining), j.pid, [], pid);
  }

  lemma StepCounts(s: State, e: Event, toMsecs: nat -> nat, s': State, pid: int)
    requires Step(s, e, toMsecs) == Went(s')
    ensures Entries(s'.registered, pid) + Entries(Pids(s'.joining), pid) + (if e == Leaves(pid) then 1 else 0) ==
      Entries(s.registered, pid) + Entries(Pids(s.joining), pid) + (if e == Enters(pid) then 1 else 0)
  {
    hide Entries, Pids, Find, Collected, Written, Words;
    match e
    case Enters(q) => PidsSnoc(s.joining, Join(q, s.registered == []), pid);
    case Joins(i) =>
      if i < |s.joining| {
        PidsDrop(s.joining, i, pid);
        EntriesSplit(s.registered, s.joining[i].pid, [], pid);
      }
    case Leaves(q) =>
      var i := IndexOf(s.registered, q).value;
      assert s.registered == s.registered[..i] + [q] + s.registered[i + 1..];
      EntriesSplit(s.registered[..i], q, s.registered[i + 1..], pid);
    case _ =>
  }

  /** Over any run: a pid is listed, or about to be added, as often as it registered less as often as it left. */
  lemma {:induction false} RegistrationsCounted(
      processes: seq<Process>, events: seq<Event>, toMsecs: nat -> nat, states: seq<State>, k: nat, pid: int)
    requires Execution(processes, events, toMsecs, states) && k <= |events|
    ensures Times(events, Enters(pid), k) ==
      Entries(states[k].registered, pid) + Entries(Pids(states[k].joining), pid) + Times(events, Leaves(pid), k)
  {
    hide Step, Entries, Pids;
    if k == 0 {
      NobodyListed(processes, pid);
    } else {
      RegistrationsCounted(processes, events, toMsecs, states, k - 1, pid);
      StepCounts(states[k - 1], events[k - 1], toMsecs, states[k], pid);
    }
  }

  lemma NobodyListed(processes: seq<Process>, pid: int)
    ensures Entries(Init(processes).registered, pid) == 0 && Entries(Pids(Init(processes).joining), pid) == 0
  {
  }
}
