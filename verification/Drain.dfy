/**
  The monitor of MP3/monitor.c: it looks for the first filled word of the buffer and prints and empties
  rows of four words, going round, until it meets an empty word where a row would begin.
 */
module Drain {
  /** The words the monitor goes round in, and the words there are. */
  const BUFD_MAX := 48000
  const BUFFER_WORDS := 65536
  const ROWS := 12000

  /** The word -1. */
  const EMPTY := 0xFFFF_FFFF_FFFF_FFFF

  /** A buffer of 128 pages of 4096 bytes. */
  predicate IsBuffer(buf: seq<nat>) {
    |buf| == BUFFER_WORDS
  }

  /** Where the search from `k` ends: at the first filled word, or at BUFD_MAX. */
  function Search(buf: seq<nat>, k: nat): (start: nat)
    requires IsBuffer(buf) && k <= BUFD_MAX
    ensures k <= start <= BUFD_MAX
    ensures forall i | k <= i < start :: buf[i] == EMPTY
    ensures start < BUFD_MAX ==> buf[start] != EMPTY
    decreases BUFD_MAX - k
  {
    if k < BUFD_MAX && buf[k] == EMPTY then Search(buf, k + 1) else k
  }

  /** The place reached from `start` after so many words, going round. */
  function Place(start: nat, words: nat): (x: nat)
    ensures x < BUFD_MAX
  {
    (start + words) % BUFD_MAX
  }

  /** How many rows follow one another from row t on, at most one round in all. */
  function Filled(buf: seq<nat>, start: nat, t: nat): (rows: nat)
    requires IsBuffer(buf) && t <= ROWS
    ensures t <= rows <= ROWS
    ensures forall i | t <= i < rows :: buf[Place(start, 4 * i)] != EMPTY
    ensures rows < ROWS ==> buf[Place(start, 4 * rows)] == EMPTY
    decreases ROWS - t
  {
    if t < ROWS && buf[Place(start, 4 * t)] != EMPTY then Filled(buf, start, t + 1) else t
  }

  /** Row t of a drain that begins at `start`. */
  function Row(buf: seq<nat>, start: nat, t: nat): (row: seq<nat>)
    requires IsBuffer(buf)
    ensures |row| == 4
  {
    [buf[Place(start, 4 * t)], buf[Place(start, 4 * t + 1)], buf[Place(start, 4 * t + 2)], buf[Place(start, 4 * t + 3)]]
  }

  /** What a drain prints.  When the search finds nothing the word after the last one is looked at. */
  function Printed(buf: seq<nat>): (rows: seq<seq<nat>>)
    requires IsBuffer(buf)
  {
    var start := Search(buf, 0);
    if start < BUFD_MAX then seq(Filled(buf, start, 0), t requires 0 <= t => Row(buf, start, t))
    else if buf[BUFD_MAX] != EMPTY then [[buf[BUFD_MAX], EMPTY, EMPTY, EMPTY]]
    else []
  }

  /** How far before word x, going round, the drain began. */
  function Distance(start: nat, x: nat): (d: nat)
    requires start < BUFD_MAX && x < BUFD_MAX
    ensures d < BUFD_MAX && Place(start, d) == x
  {
    if start <= x then x - start else x + BUFD_MAX - start
  }

  /** Word x of the buffer after a drain. */
  function Left(buf: seq<nat>, x: nat): nat
    requires IsBuffer(buf) && x < BUFFER_WORDS
  {
    var start := Search(buf, 0);
    if start < BUFD_MAX then
      if x < BUFD_MAX && Distance(start, x) < 4 * Filled(buf, start, 0) then EMPTY else buf[x]
    else if x == BUFD_MAX then EMPTY
    else buf[x]
  }

  // ---------- the program ----------

  /** Where the monitor goes from a word. */
  function Next(index: nat): (x: nat)
    requires index <= BUFD_MAX
    ensures x < BUFD_MAX && (index < BUFD_MAX ==> x == Place(index, 1))
  {
    if index + 1 >= BUFD_MAX then 0 else index + 1
  }

  /** One of the four reads of a row: the word is printed and emptied. */
  method Read(buf: array<nat>, index: nat) returns (word: nat, next: nat)
    requires buf.Length == BUFFER_WORDS && index <= BUFD_MAX
    modifies buf
    ensures word == old(buf[index]) && buf[..] == old(buf[..])[index := EMPTY]
    ensures next == Next(index)
  {
    word := buf[index];
    buf[index] := EMPTY;
    next := index + 1;
    if next >= BUFD_MAX {
      next := 0;
    }
  }

  /** The buffer after the four reads of a row that begins at `index`. */
  function Emptied(buf: seq<nat>, index: nat): (r: seq<nat>)
    requires IsBuffer(buf) && index <= BUFD_MAX
    ensures IsBuffer(r)
  {
    var i, j := Next(index), Next(Next(index));
    buf[index := EMPTY][i := EMPTY][j := EMPTY][Next(j) := EMPTY]
  }

  lemma EmptiedAt(buf: seq<nat>, index: nat, x: nat)
    requires IsBuffer(buf) && index <= BUFD_MAX && x < BUFFER_WORDS
    ensures Emptied(buf, index)[x] ==
      if x == index || x == Next(index) || x == Next(Next(index)) || x == Next(Next(Next(index))) then EMPTY else buf[x]
  {
  }

  method ReadRow(buf: array<nat>, index: nat) returns (row: seq<nat>, next: nat)
    requires buf.Length == BUFFER_WORDS && index <= BUFD_MAX
    modifies buf
    ensures next == Next(Next(Next(Next(index)))) && buf[..] == Emptied(old(buf[..]), index)
    ensures row ==
      [old(buf[index]), old(buf[Next(index)]), old(buf[Next(Next(index))]), old(buf[Next(Next(Next(index)))])]
  {
    ghost var was := buf[..];
    var a, b, c, d;
    a, next := Read(buf, index);
    b, next := Read(buf, next);
    assert b == was[Next(index)];
    c, next := Read(buf, next);
    assert c == was[Next(Next(index))];
    d, next := Read(buf, next);
    assert d == was[Next(Next(Next(index)))];
    row := [a, b, c, d];
  }

  lemma Going(start: nat, words: nat)
    requires start < BUFD_MAX
    ensures Next(Place(start, words)) == Place(start, words + 1)
    ensures words < BUFD_MAX ==> Distance(start, Place(start, words)) == words
  {
  }

  lemma Apart(start: nat, x: nat, words: nat)
    requires start < BUFD_MAX && x < BUFD_MAX && words < BUFD_MAX
    ensures Distance(start, x) == words <==> x == Place(start, words)
  {
  }

  /** The loop after t rows: those rows are printed and emptied, and the next one comes after them. */
  ghost predicate Stage(was: seq<nat>, start: nat, t: nat, index: nat, rows: seq<seq<nat>>, buf: seq<nat>) {
    && IsBuffer(was) && IsBuffer(buf) && start < BUFD_MAX
    && t <= Filled(was, start, 0) && Filled(was, start, t) == Filled(was, start, 0)
    && index == Place(start, 4 * t)
    && rows == seq(t, i requires 0 <= i => Row(was, start, i))
    && forall x | 0 <= x < BUFFER_WORDS ::
         buf[x] == if x < BUFD_MAX && Distance(start, x) < 4 * t then EMPTY else was[x]
  }

  /** Nothing is read twice before the round is complete. */
  lemma Unread(was: seq<nat>, start: nat, t: nat, index: nat, rows: seq<seq<nat>>, buf: seq<nat>, words: nat)
    requires Stage(was, start, t, index, rows, buf) && 4 * t <= words < BUFD_MAX
    ensures buf[Place(start, words)] == was[Place(start, words)]
  {
    Going(start, words);
  }

  lemma RowsGrow(was: seq<nat>, start: nat, t: nat, index: nat, rows: seq<seq<nat>>, buf: seq<nat>)
    requires Stage(was, start, t, index, rows, buf) && buf[index] != EMPTY
    ensures t < ROWS && t < Filled(was, start, 0) && Filled(was, start, t + 1) == Filled(was, start, 0)
  {
    if t < ROWS { Unread(was, start, t, index, rows, buf, 4 * t); }
  }

  lemma RowRead(was: seq<nat>, start: nat, t: nat, index: nat, rows: seq<seq<nat>>, buf: seq<nat>)
    requires Stage(was, start, t, index, rows, buf) && t < ROWS
    ensures Next(index) == Place(start, 4 * t + 1) && Next(Next(index)) == Place(start, 4 * t + 2)
    ensures Next(Next(Next(index))) == Place(start, 4 * t + 3)
    ensures Next(Next(Next(Next(index)))) == Place(start, 4 * (t + 1))
    ensures [buf[index], buf[Next(index)], buf[Next(Next(index))], buf[Next(Next(Next(index)))]] == Row(was, start, t)
  {
    hide Stage, Next, Place;
    StageIndex(was, start, t, index, rows, buf);
    Going(start, 4 * t);
    Going(start, 4 * t + 1);
    Going(start, 4 * t + 2);
    Going(start, 4 * t + 3);
    Unread(was, start, t, index, rows, buf, 4 * t);
    Unread(was, start, t, index, rows, buf, 4 * t + 1);
    Unread(was, start, t, index, rows, buf, 4 * t + 2);
    Unread(was, start, t, index, rows, buf, 4 * t + 3);
  }

  lemma StageIndex(was: seq<nat>, start: nat, t: nat, index: nat, rows: seq<seq<nat>>, buf: seq<nat>)
    requires Stage(was, start, t, index, rows, buf)
    ensures start < BUFD_MAX && index == Place(start, 4 * t)
  {
  }

  lemma StageStep(was: seq<nat>, start: nat, t: nat, index: nat, rows: seq<seq<nat>>, buf: seq<nat>)
    requires Stage(was, start, t, index, rows, buf) && buf[index] != EMPTY
    ensures t < ROWS
    ensures Stage(was, start, t + 1, Place(start, 4 * (t + 1)), rows + [Row(was, start, t)], Emptied(buf, index))
  {
    hide Place, Next, Filled, Emptied, Distance, Row;
    RowsGrow(was, start, t, index, rows, buf);
    RowRead(was, start, t, index, rows, buf);
    var buf' := Emptied(buf, index);
    forall x | 0 <= x < BUFFER_WORDS
      ensures buf'[x] == if x < BUFD_MAX && Distance(start, x) < 4 * (t + 1) then EMPTY else was[x]
    {
      EmptiedAt(buf, index, x);
      if x < BUFD_MAX {
        Apart(start, x, 4 * t);
        Apart(start, x, 4 * t + 1);
        Apart(start, x, 4 * t + 2);
        Apart(start, x, 4 * t + 3);
      }
    }
  }

  lemma StageBegins(was: seq<nat>, start: nat)
    requires IsBuffer(was) && start < BUFD_MAX
    ensures Stage(was, start, 0, start, [], was)
  {
  }

  /** The loop ends where a row would begin at an empty word, or where it began. */
  lemma StageEnds(was: seq<nat>, start: nat, index: nat, rows: seq<seq<nat>>, buf: seq<nat>)
    requires Stage(was, start, |rows|, index, rows, buf) && buf[index] == EMPTY && Search(was, 0) == start
    ensures rows == Printed(was) && |rows| <= ROWS
    ensures forall x | 0 <= x < BUFFER_WORDS :: buf[x] == Left(was, x)
  {
    if |rows| < Filled(was, start, 0) { Unread(was, start, |rows|, index, rows, buf, 4 * |rows|); }
  }

  /** A search that found nothing: one row may follow. */
  ghost predicate LastStage(was: seq<nat>, index: nat, rows: seq<seq<nat>>, buf: seq<nat>) {
    && IsBuffer(was) && (forall x | 0 <= x < BUFD_MAX :: was[x] == EMPTY)
    && ((index == BUFD_MAX && rows == [] && buf == was)
        || (index == 3 && was[BUFD_MAX] != EMPTY && rows == [[was[BUFD_MAX], EMPTY, EMPTY, EMPTY]]
            && buf == was[BUFD_MAX := EMPTY]))
  }

  lemma LastStageBegins(was: seq<nat>)
    requires IsBuffer(was) && Search(was, 0) == BUFD_MAX
    ensures LastStage(was, BUFD_MAX, [], was)
  {
  }

  lemma LastStageStep(was: seq<nat>, index: nat, rows: seq<seq<nat>>, buf: seq<nat>)
    requires LastStage(was, index, rows, buf) && buf[index] != EMPTY
    ensures index == BUFD_MAX && rows == []
    ensures [buf[index], buf[Next(index)], buf[Next(Next(index))], buf[Next(Next(Next(index)))]] ==
      [was[BUFD_MAX], EMPTY, EMPTY, EMPTY]
    ensures LastStage(was, Next(Next(Next(Next(index)))), rows + [[was[BUFD_MAX], EMPTY, EMPTY, EMPTY]],
                      Emptied(buf, index))
  {
    assert rows + [[was[BUFD_MAX], EMPTY, EMPTY, EMPTY]] == [[was[BUFD_MAX], EMPTY, EMPTY, EMPTY]];
    assert Emptied(buf, index) == was[BUFD_MAX := EMPTY];
  }

  lemma LastStageEnds(was: seq<nat>, index: nat, rows: seq<seq<nat>>, buf: seq<nat>)
    requires LastStage(was, index, rows, buf) && buf[index] == EMPTY && Search(was, 0) == BUFD_MAX
    ensures rows == Printed(was) && |rows| <= ROWS
    ensures forall x | 0 <= x < BUFFER_WORDS :: buf[x] == Left(was, x)
  {
  }

  /** When every word before the last one the monitor looks at is empty, that one alone may begin a row. */
  lemma NothingFound(buf: seq<nat>)
    requires IsBuffer(buf) && Search(buf, 0) == BUFD_MAX
    ensures Printed(buf) == if buf[48000] == 0xFFFF_FFFF_FFFF_FFFF then [] else [[buf[48000], buf[0], buf[1], buf[2]]]
    ensures forall x | 0 <= x < 65536 :: Left(buf, x) == if x == 48000 then 0xFFFF_FFFF_FFFF_FFFF else buf[x]
  {
  }

  /** What a drain is, word by word: it begins at the first word that is not -1 among 48000, prints words four at a time
      going round as long as a row begins with a word that is not -1, at most 12000 rows, empties exactly the words it
      printed, and leaves all others. */
  lemma DrainExactly(buf: seq<nat>)
    requires |buf| == 65536
    ensures var start, rows := Search(buf, 0), Printed(buf);
      && start <= 48000 && (forall i | 0 <= i < start :: buf[i] == 0xFFFF_FFFF_FFFF_FFFF)
      && (start < 48000 ==>
            && buf[start] != 0xFFFF_FFFF_FFFF_FFFF && |rows| <= 12000
            && (forall t | 0 <= t < |rows| ::
                  rows[t] == RoundFrom(buf, start, t) && rows[t][0] != 0xFFFF_FFFF_FFFF_FFFF)
            && (|rows| < 12000 ==> buf[(start + 4 * |rows|) % 48000] == 0xFFFF_FFFF_FFFF_FFFF)
            && forall x | 0 <= x < 65536 ::
                 Left(buf, x) ==
                   if x < 48000 && (x - start) % 48000 < 4 * |rows| then 0xFFFF_FFFF_FFFF_FFFF else buf[x])
      && (start == 48000 ==>
            && rows == (if buf[48000] == 0xFFFF_FFFF_FFFF_FFFF then []
                        else [[buf[48000], buf[0], buf[1], buf[2]]])
            && forall x | 0 <= x < 65536 :: Left(buf, x) == if x == 48000 then 0xFFFF_FFFF_FFFF_FFFF else buf[x])
  {
    if Search(buf, 0) == BUFD_MAX { NothingFound(buf); } else { DrainFrom(buf); }
    hide Printed, Left, RoundFrom, Search;
    SearchEnds(buf);
  }

  lemma SearchEnds(buf: seq<nat>)
    requires IsBuffer(buf)
    ensures var start := Search(buf, 0);
      && start <= 48000 && (forall i | 0 <= i < start :: buf[i] == 0xFFFF_FFFF_FFFF_FFFF)
      && (start < 48000 ==> buf[start] != 0xFFFF_FFFF_FFFF_FFFF)
  {
  }

  lemma DrainFrom(buf: seq<nat>)
    requires IsBuffer(buf) && Search(buf, 0) < BUFD_MAX
    ensures var start, rows := Search(buf, 0), Printed(buf);
      && |rows| <= 12000
      && (forall t | 0 <= t < |rows| :: rows[t] == RoundFrom(buf, start, t) && rows[t][0] != 0xFFFF_FFFF_FFFF_FFFF)
      && (|rows| < 12000 ==> buf[(start + 4 * |rows|) % 48000] == 0xFFFF_FFFF_FFFF_FFFF)
      && forall x | 0 <= x < 65536 ::
           Left(buf, x) == if x < 48000 && (x - start) % 48000 < 4 * |rows| then 0xFFFF_FFFF_FFFF_FFFF else buf[x]
  {
    hide Printed, Left, Filled, RoundFrom, Search;
    var start, rows := Search(buf, 0), Printed(buf);
    PrintedCount(buf);
    forall t | 0 <= t < |rows| ensures rows[t] == RoundFrom(buf, start, t) && rows[t][0] != EMPTY {
      PrintedRow(buf, t);
    }
    forall x | 0 <= x < BUFFER_WORDS
      ensures Left(buf, x) == if x < BUFD_MAX && (x - start) % 48000 < 4 * |rows| then EMPTY else buf[x]
    {
      LeavesWord(buf, x);
    }
  }

  /** The four words, going round, that come 4 t words after the start. */
  function RoundFrom(buf: seq<nat>, start: nat, t: nat): (row: seq<nat>)
    requires |buf| == 65536
    ensures |row| == 4
  {
    seq(4, j requires 0 <= j < 4 => buf[(start + 4 * t + j) % 48000])
  }

  lemma PrintedIs(buf: seq<nat>)
    requires IsBuffer(buf) && Search(buf, 0) < BUFD_MAX
    ensures |Printed(buf)| == Filled(buf, Search(buf, 0), 0)
    ensures forall t | 0 <= t < |Printed(buf)| :: Printed(buf)[t] == Row(buf, Search(buf, 0), t)
  {
    hide Search, Row, Filled;
  }

  lemma PrintedCount(buf: seq<nat>)
    requires IsBuffer(buf) && Search(buf, 0) < BUFD_MAX
    ensures |Printed(buf)| == Filled(buf, Search(buf, 0), 0) <= 12000
    ensures |Printed(buf)| < 12000 ==> buf[(Search(buf, 0) + 4 * |Printed(buf)|) % 48000] == EMPTY
  {
    hide Search, Row, Filled, Printed;
    PrintedIs(buf);
    assert |Printed(buf)| < 12000 ==> buf[Place(Search(buf, 0), 4 * |Printed(buf)|)] == EMPTY;
  }

  lemma PrintedRow(buf: seq<nat>, t: nat)
    requires IsBuffer(buf) && Search(buf, 0) < BUFD_MAX && t < |Printed(buf)|
    ensures Printed(buf)[t] == RoundFrom(buf, Search(buf, 0), t) && Printed(buf)[t][0] != EMPTY
  {
    hide Search, Filled, Printed, Row;
    PrintedIs(buf);
    var start := Search(buf, 0);
    assert buf[Place(start, 4 * t)] != EMPTY;
    RowIs(buf, start, t);
  }

  lemma RowIs(buf: seq<nat>, start: nat, t: nat)
    requires IsBuffer(buf)
    ensures Row(buf, start, t) == RoundFrom(buf, start, t) && Row(buf, start, t)[0] == buf[Place(start, 4 * t)]
  {
  }

  lemma LeavesWord(buf: seq<nat>, x: nat)
    requires IsBuffer(buf) && Search(buf, 0) < BUFD_MAX && x < BUFFER_WORDS
    ensures Left(buf, x) ==
      if x < BUFD_MAX && (x - Search(buf, 0)) % 48000 < 4 * |Printed(buf)| then EMPTY else buf[x]
  {
    hide Search, Row, Filled, Printed, Distance;
    PrintedIs(buf);
    if x < BUFD_MAX { RoundDistance(Search(buf, 0), x); }
  }

  lemma RoundDistance(start: nat, x: nat)
    requires start < 48000 && x < 48000
    ensures (x - start) % 48000 == Distance(start, x)
  {
  }

  /** The monitor, from the search to the end of the drain.  It prints `Printed`, leaves `Left`, and stops
      within 12000 rows whatever the buffer holds. */
  method Monitor(buf: array<nat>) returns (rows: seq<seq<nat>>)
    requires buf.Length == 65536
    modifies buf
    ensures rows == Printed(old(buf[..])) && |rows| <= 12000
    ensures forall x | 0 <= x < 65536 :: buf[x] == Left(old(buf[..]), x)
  {
    hide Place, Next, Emptied, Row, Stage, LastStage, Printed, Left;
    ghost var was := buf[..];
    var index := 0;
    while index < BUFD_MAX && buf[index] == EMPTY
      invariant 0 <= index <= BUFD_MAX && Search(was, 0) == Search(was, index)
    {
      index := index + 1;
    }
    ghost var start := index;
    rows := [];
    if start < BUFD_MAX { StageBegins(was, start); } else { LastStageBegins(was); }
    while buf[index] != EMPTY
      invariant 0 <= index <= BUFD_MAX
      invariant if start < BUFD_MAX then Stage(was, start, |rows|, index, rows, buf[..])
                else LastStage(was, index, rows, buf[..])
      decreases ROWS - |rows|
    {
      ghost var before := buf[..];
      if start < BUFD_MAX {
        StageStep(was, start, |rows|, index, rows, before);
        RowRead(was, start, |rows|, index, rows, before);
      } else {
        LastStageStep(was, index, rows, before);
      }
      var row;
      row, index := ReadRow(buf, index);
      rows := rows + [row];
    }
    if start < BUFD_MAX {
      StageEnds(was, start, index, rows, buf[..]);
    } else {
      LastStageEnds(was, index, rows, buf[..]);
    }
  }
}
