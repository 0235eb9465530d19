/** The C arithmetic of MP2's admission control, for every task, negative and overflowing ones included. */
module Arithmetic {
  import opened Wrappers
  import opened RateMonotonic

  /** An `int` keeps its lowest 32 bits. */
  lemma WrapsExactly(x: int)
    ensures -2147483648 <= Wrap32(x) <= 2147483647 && (x - Wrap32(x)) % 4294967296 == 0
  {
  }

  function Abs(x: int): nat { if x < 0 then -x else x }

  /** A C quotient is rounded towards zero: the remainder is smaller than the divisor and has the dividend's sign. */
  lemma DividesExactly(a: int, b: int)
    requires b != 0
    ensures var r := a - TruncDiv(a, b) * b; Abs(r) < Abs(b) && (a >= 0 ==> r >= 0) && (a <= 0 ==> r <= 0)
  {
    var m := if a >= 0 then a else -a;
    var q := m / b;
    assert m == q * b + m % b && 0 <= m % b < Abs(b);
    if a < 0 { assert (-q) * b == -(q * b); }
  }

  /** The sum of the shares, whatever their sign. */
  function Shares(tasks: seq<Task>): int
    requires forall t | t in tasks :: !Traps(t.processing, t.period)
  {
    if tasks == [] then 0
    else
      var k := |tasks| - 1;
      Shares(tasks[..k]) + Share(tasks[k].processing, tasks[k].period)
  }

  lemma ModuloSum(a: int, b: int, x: int)
    requires (a - b) % 18446744073709551616 == 0
    ensures ((a + x) % 18446744073709551616 - (b + x)) % 18446744073709551616 == 0
  {
  }

  /** `unsigned long` keeps the lowest 64 bits of that sum. */
  lemma {:induction false} TotalModulo(tasks: seq<Task>, start: int)
    requires forall t | t in tasks :: !Traps(t.processing, t.period)
    ensures Total(tasks, start) == (start + Shares(tasks)) % 18446744073709551616
  {
    hide Share, Traps;
    if tasks != [] {
      var k := |tasks| - 1;
      assert tasks[k] in tasks && forall t | t in tasks[..k] :: t in tasks;
      TotalModulo(tasks[..k], start);
      ModuloSum(Total(tasks[..k], start), start + Shares(tasks[..k]), Share(tasks[k].processing, tasks[k].period));
    }
  }

  /** The decision of `admission_control` for every list and every request that divides without a fault, and what
      `registration` does on it. */
  lemma RegistersExactly(s: Sched, pid: int, period: int, processing: int, process: bool)
    requires !Traps(processing, period) && forall t | t in s.tasks :: !Traps(t.processing, t.period)
    ensures Register(s, pid, period, processing, process) ==
      var admitted := (Share(processing, period) + Shares(s.tasks)) % 18446744073709551616 <= 693000;
      Went(s.(issued := s.issued + 1,
              joining := if admitted then s.joining + [Request(s.issued, pid, period, processing, process)]
                         else s.joining))
  {
    TotalModulo(s.tasks, Share(processing, period));
    hide Share, Traps, Total, Shares;
  }
}
