/** From the profiler of MP3 through the shared buffer to its monitor. */
module Samples {
  import opened Drain
  import opened Profiler
  import opened Conservation

  /** The buffer holds these rows from its beginning, and zeros after them. */
  ghost predicate Holds(buffer: seq<nat>, rows: seq<seq<nat>>) {
    && IsBuffer(buffer) && 4 * |rows| <= BUFFER_WORDS
    && (forall row | row in rows :: |row| == 4)
    && (forall k | 0 <= k < |rows| :: buffer[4 * k..4 * k + 4] == rows[k])
    && (forall x | 4 * |rows| <= x < BUFFER_WORDS :: buffer[x] == 0)
  }

  /** The row of a sample. */
  function RowOf(sample: (nat, Sums), toMsecs: nat -> nat): (row: seq<nat>)
    ensures |row| == 4
  {
    [sample.0, sample.1.minor, sample.1.major, toMsecs(sample.1.cpu)]
  }

  /** The rows written by the first k steps, in the order of the writes. */
  function Rows(events: seq<Event>, toMsecs: nat -> nat, states: seq<State>, k: nat): (rows: seq<seq<nat>>)
    requires k <= |events| < |states|
    ensures forall row | row in rows :: |row| == 4
    ensures |rows| == |Taken(events, states, k)|
  {
    RowsOf(Taken(events, states, k), toMsecs)
  }

  function RowsOf(samples: seq<(nat, Sums)>, toMsecs: nat -> nat): (rows: seq<seq<nat>>)
    ensures |rows| == |samples| && forall row | row in rows :: |row| == 4
  {
    seq(|samples|, i requires 0 <= i < |samples| => RowOf(samples[i], toMsecs))
  }

  lemma WriteHolds(buffer: seq<nat>, rows: seq<seq<nat>>, row: seq<nat>)
    requires Holds(buffer, rows) && |row| == 4 && 4 * |rows| + 4 <= BUFFER_WORDS
    ensures Holds(Written(buffer, 4 * |rows|, row), rows + [row])
  {
    var after, more := Written(buffer, 4 * |rows|, row), rows + [row];
    forall k | 0 <= k < |more| ensures after[4 * k..4 * k + 4] == more[k] {
      if k < |rows| { assert after[4 * k..4 * k + 4] == buffer[4 * k..4 * k + 4]; }
    }
  }

  /** In any run the buffer holds exactly the samples written. */
  lemma {:induction false} BufferHoldsRows(
      processes: seq<Process>, events: seq<Event>, toMsecs: nat -> nat, states: seq<State>, k: nat)
    requires Execution(processes, events, toMsecs, states) && k <= |events|
    ensures Holds(states[k].buffer, Rows(events, toMsecs, states, k))
    ensures states[k].ptr == 4 * |Rows(events, toMsecs, states, k)|
  {
    hide Step, Holds, Added, RowsOf;
    if k == 0 {
      NothingHeld(processes, toMsecs);
    } else {
      BufferHoldsRows(processes, events, toMsecs, states, k - 1);
      StepHolds(states[k - 1], events[k - 1], toMsecs, states[k], Taken(events, states, k - 1));
    }
  }

  lemma NothingHeld(processes: seq<Process>, toMsecs: nat -> nat)
    ensures Holds(Init(processes).buffer, RowsOf([], toMsecs)) && |RowsOf([], toMsecs)| == 0
  {
  }

  lemma StepHolds(s: State, e: Event, toMsecs: nat -> nat, s': State, samples: seq<(nat, Sums)>)
    requires Step(s, e, toMsecs) == Went(s')
    requires Holds(s.buffer, RowsOf(samples, toMsecs)) && s.ptr == 4 * |samples|
    ensures Holds(s'.buffer, RowsOf(samples + Added(s, e), toMsecs)) && s'.ptr == 4 * |samples + Added(s, e)|
  {
    hide Holds, Find, IndexOf, Collected, Written;
    var rows := RowsOf(samples, toMsecs);
    if e.Writes? && s.work.Read? {
      assert IsBuffer(s.buffer) by { HoldsBuffer(s.buffer, rows); }
      WriteHolds(s.buffer, rows, Words(e.jiffies, s.work.sums, toMsecs));
      assert RowsOf(samples + Added(s, e), toMsecs) == rows + [RowOf((e.jiffies, s.work.sums), toMsecs)];
    } else {
      assert samples + [] == samples;
    }
  }

  /** Word by word: the i-th sample of any run is in the buffer as its time, its minor and its major faults, and its
      processor time, user and system together, in milliseconds. */
  lemma SampleInBuffer(
      processes: seq<Process>, events: seq<Event>, toMsecs: nat -> nat, states: seq<State>, k: nat, i: nat)
    requires Execution(processes, events, toMsecs, states) && k <= |events| && i < |Taken(events, states, k)|
    ensures var buffer, (time, sums) := states[k].buffer, Taken(events, states, k)[i];
      && |buffer| == 65536 && 4 * i + 3 < 65536
      && buffer[4 * i] == time && buffer[4 * i + 1] == sums.minor && buffer[4 * i + 2] == sums.major
      && buffer[4 * i + 3] == toMsecs(sums.cpu)
  {
    hide Step, Init, Taken;
    BufferHoldsRows(processes, events, toMsecs, states, k);
    var buffer, row := states[k].buffer, Rows(events, toMsecs, states, k)[i];
    assert buffer[4 * i..4 * i + 4] == row;
    assert row == RowOf(Taken(events, states, k)[i], toMsecs);
    assert buffer[4 * i..4 * i + 4][1] == buffer[4 * i + 1] && buffer[4 * i..4 * i + 4][2] == buffer[4 * i + 2];
    assert buffer[4 * i..4 * i + 4][0] == buffer[4 * i] && buffer[4 * i..4 * i + 4][3] == buffer[4 * i + 3];
  }

  lemma HoldsBuffer(buffer: seq<nat>, rows: seq<seq<nat>>)
    requires Holds(buffer, rows)
    ensures IsBuffer(buffer) && 4 * |rows| <= BUFFER_WORDS
  {
  }

  /** The work function never looks at the end of the buffer before it writes: the sample after the 16384th
      goes outside, and until then the test that should report a full buffer is never true. */
  lemma OverrunExactly(
      processes: seq<Process>, events: seq<Event>, toMsecs: nat -> nat, states: seq<State>, k: nat, jiffies: nat)
    requires Execution(processes, events, toMsecs, states) && k <= |events|
    ensures Step(states[k], Writes(jiffies), toMsecs) == Overrun <==>
      states[k].work.Read? && |Taken(events, states, k)| == 16384
    ensures states[k].ptr <= 65536
  {
    hide Holds, Init, Rows, Written, Words, Collected, Find, IndexOf;
    BufferHoldsRows(processes, events, toMsecs, states, k);
    HoldsBuffer(states[k].buffer, Rows(events, toMsecs, states, k));
  }

  // ---------- the round trip ----------

  function Least(a: nat, b: nat): nat { if a < b then a else b }

  /** What a full round of the monitor should print: the rows it can see, and zeros. */
  function Expected(rows: seq<seq<nat>>): (r: seq<seq<nat>>)
    ensures |r| == 12000
  {
    rows[..Least(|rows|, ROWS)] + seq(ROWS - Least(|rows|, ROWS), _ => [0, 0, 0, 0])
  }

  /** No time stamp among the rows the monitor can see is the word -1. */
  ghost predicate Stamped(rows: seq<seq<nat>>)
    requires forall row | row in rows :: |row| == 4
  {
    forall k | 0 <= k < |rows| && k < ROWS :: rows[k][0] != EMPTY
  }

  lemma RowAt(buffer: seq<nat>, rows: seq<seq<nat>>, t: nat)
    requires Holds(buffer, rows) && t < ROWS
    ensures Row(buffer, 0, t) == Expected(rows)[t]
  {
    hide Place;
    FromStart(4 * t);
    FromStart(4 * t + 1);
    FromStart(4 * t + 2);
    FromStart(4 * t + 3);
    assert Row(buffer, 0, t) == buffer[4 * t..4 * t + 4];
    if t < |rows| {
      assert Expected(rows)[t] == rows[t];
    } else {
      assert Expected(rows)[t] == [0, 0, 0, 0];
    }
  }

  lemma FromStart(words: nat)
    requires words < BUFD_MAX
    ensures Place(0, words) == words
  {
  }

  lemma HeadsFilled(buffer: seq<nat>, t: nat)
    requires IsBuffer(buffer) && t <= ROWS && forall k | t <= k < ROWS :: buffer[4 * k] != EMPTY
    ensures Filled(buffer, 0, t) == ROWS
  {
    var rows := Filled(buffer, 0, t);
    assert rows < ROWS ==> Place(0, 4 * rows) == 4 * rows;
  }

  lemma StampedPrints(buffer: seq<nat>, rows: seq<seq<nat>>)
    requires Holds(buffer, rows) && Stamped(rows)
    ensures Search(buffer, 0) == 0 && Filled(buffer, 0, 0) == ROWS
    ensures Printed(buffer) == Expected(rows)
  {
    hide Expected, Row, Place;
    forall k | 0 <= k < ROWS ensures buffer[4 * k] != EMPTY && Row(buffer, 0, k) == Expected(rows)[k] {
      if k < |rows| { assert buffer[4 * k..4 * k + 4] == rows[k] && rows[k][0] != EMPTY; }
      RowAt(buffer, rows, k);
    }
    assert buffer[4 * 0] != EMPTY;
    HeadsFilled(buffer, 0);
  }

  lemma PrintedIsStamped(buffer: seq<nat>, rows: seq<seq<nat>>)
    requires Holds(buffer, rows) && Printed(buffer) == Expected(rows)
    ensures Stamped(rows)
  {
    var start := Search(buffer, 0);
    forall k | 0 <= k < |rows| && k < ROWS ensures rows[k][0] != EMPTY {
      assert Printed(buffer)[k] == rows[k] && Printed(buffer)[k] == Row(buffer, start, k);
    }
  }

  /** The round trip: after any run the monitor prints the samples in the order they were taken, at most 12000
      of them, and then zero rows up to 12000, and empties all it goes round in; exactly if none of those
      samples was taken when the clock read -1. */
  lemma RoundTrip(processes: seq<Process>, events: seq<Event>, toMsecs: nat -> nat, states: seq<State>, k: nat)
    requires Execution(processes, events, toMsecs, states) && k <= |events|
    ensures var rows, buffer := Rows(events, toMsecs, states, k), states[k].buffer;
      && IsBuffer(buffer)
      && (Printed(buffer) == Expected(rows) <==> Stamped(rows))
      && (Stamped(rows) ==> forall x | 0 <= x < BUFFER_WORDS ::
            Left(buffer, x) == if x < BUFD_MAX then EMPTY else buffer[x])
  {
    hide Step, Init, Rows, Expected, Printed, Stamped;
    var rows, buffer := Rows(events, toMsecs, states, k), states[k].buffer;
    BufferHoldsRows(processes, events, toMsecs, states, k);
    if Stamped(rows) { StampedPrints(buffer, rows); }
    if Printed(buffer) == Expected(rows) { PrintedIsStamped(buffer, rows); }
  }

  /** A second drain prints a row that nobody wrote, exactly if the word after the last one is not empty. */
  lemma SecondDrain(before: seq<nat>, after: seq<nat>)
    requires IsBuffer(before) && IsBuffer(after) && Search(before, 0) < BUFD_MAX
    requires Filled(before, Search(before, 0), 0) == ROWS
    requires forall x | 0 <= x < BUFFER_WORDS :: after[x] == Left(before, x)
    ensures Printed(after) == if before[BUFD_MAX] == EMPTY then [] else [[before[BUFD_MAX], EMPTY, EMPTY, EMPTY]]
  {
    forall x | 0 <= x < BUFD_MAX ensures after[x] == EMPTY {
    }
    assert Search(after, 0) == BUFD_MAX;
  }
}
