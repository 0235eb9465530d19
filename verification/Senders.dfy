/**
  The threads of one node sharing its socket: each holds `transfer_mutex` for a whole frame, but the kernel
  takes the bytes in pieces of any size and interrupts writes at will.
 */
module Senders {
  import opened Wrappers
  import opened Wire

  type Tid = nat

  /** The bytes the peer has been given, the thread that holds the mutex with what it has yet to write, and
      the frames in the order in which their senders took the mutex. */
  datatype Line = Line(out: seq<Byte>, holder: Option<(Tid, seq<Byte>)>, log: seq<(Tid, Packet)>)

  datatype Act =
    | Lock(t: Tid, packet: Packet)
    | Write(t: Tid, count: nat)
    | Interrupted(t: Tid)
    | Unlock(t: Tid)

  /** `pthread_mutex_lock`, a short `write`, `EINTR`, `pthread_mutex_unlock`. */
  function Next(little: bool, l: Line, a: Act): Option<Line> {
    match a
    case Lock(t, p) =>
      if l.holder.None? && Sendable(p) then Some(Line(l.out, Some((t, Encode(little, p))), l.log + [(t, p)])) else None
    case Write(t, k) =>
      if l.holder.Some? && l.holder.value.0 == t && 0 < k <= |l.holder.value.1|
      then Some(l.(out := l.out + l.holder.value.1[..k], holder := Some((t, l.holder.value.1[k..]))))
      else None
    case Interrupted(t) => if l.holder.Some? && l.holder.value.0 == t then Some(l) else None
    case Unlock(t) =>
      if l.holder.Some? && l.holder.value == (t, []) then Some(l.(holder := None)) else None
  }

  function After(little: bool, acts: seq<Act>): Option<Line> {
    if acts == [] then Some(Line([], None, []))
    else
      match After(little, acts[..|acts| - 1])
      case None => None
      case Some(l) => Next(little, l, acts[|acts| - 1])
  }

  function Packets(log: seq<(Tid, Packet)>): (ps: seq<Packet>)
    ensures |ps| == |log|
  {
    seq(|log|, i requires 0 <= i < |log| => log[i].1)
  }

  /** What one thread sent, in its own order. */
  function SentBy(log: seq<(Tid, Packet)>, t: Tid): seq<Packet> {
    if log == [] then []
    else
      var k := |log| - 1;
      SentBy(log[..k], t) + if log[k].0 == t then [log[k].1] else []
  }

  /** What one thread asked to send. */
  function AskedBy(acts: seq<Act>, t: Tid): seq<Packet> {
    if acts == [] then []
    else
      var k := |acts| - 1;
      AskedBy(acts[..k], t) + if acts[k].Lock? && acts[k].t == t then [acts[k].packet] else []
  }

  /** What the holder has yet to write. */
  function Left(l: Line): seq<Byte> {
    if l.holder.Some? then l.holder.value.1 else []
  }

  ghost predicate Inv(little: bool, l: Line) {
    && (forall p | p in Packets(l.log) :: Sendable(p))
    && l.out + Left(l) == EncodeAll(little, Packets(l.log))
    && (l.holder.Some? ==> l.log != [] && |Left(l)| <= |Encode(little, Packets(l.log)[|l.log| - 1])|)
  }

  lemma {:induction false} EncodeSnoc(little: bool, ps: seq<Packet>, p: Packet)
    requires Sendable(p) && forall q | q in ps :: Sendable(q)
    ensures EncodeAll(little, ps + [p]) == EncodeAll(little, ps) + Encode(little, p)
  {
    hide Encode, Sendable;
    if ps == [] {
      assert [] + [p] == [p];
      assert EncodeAll(little, [p]) == Encode(little, p) + EncodeAll(little, []);
    } else {
      assert (ps + [p])[1..] == ps[1..] + [p];
      EncodeSnoc(little, ps[1..], p);
    }
  }

  lemma LockInv(little: bool, l: Line, t: Tid, p: Packet)
    requires Inv(little, l) && l.holder.None? && Sendable(p)
    ensures Inv(little, Line(l.out, Some((t, Encode(little, p))), l.log + [(t, p)]))
  {
    hide Encode, Sendable, EncodeAll;
    var l' := Line(l.out, Some((t, Encode(little, p))), l.log + [(t, p)]);
    assert Packets(l'.log) == Packets(l.log) + [p];
    assert l.out + [] == l.out;
    EncodeSnoc(little, Packets(l.log), p);
  }

  lemma WriteInv(little: bool, l: Line, k: nat)
    requires Inv(little, l) && l.holder.Some? && k <= |Left(l)|
    ensures Inv(little, l.(out := l.out + Left(l)[..k], holder := Some((l.holder.value.0, Left(l)[k..]))))
  {
    hide Encode, Sendable, EncodeAll, Packets;
    var left := Left(l);
    assert left == left[..k] + left[k..];
    assert (l.out + left[..k]) + left[k..] == l.out + left;
  }

  lemma StepInv(little: bool, l: Line, a: Act, l': Line)
    requires Inv(little, l) && Next(little, l, a) == Some(l')
    ensures Inv(little, l')
  {
    hide Encode, Sendable, EncodeAll, Packets;
    match a
    case Lock(t, p) => LockInv(little, l, t, p);
    case Write(t, k) => WriteInv(little, l, k);
    case _ =>
  }

  lemma {:induction false} LineInv(little: bool, acts: seq<Act>, l: Line)
    requires After(little, acts) == Some(l)
    ensures Inv(little, l)
    ensures forall t :: SentBy(l.log, t) == AskedBy(acts, t)
  {
    hide Inv, Next, SentBy, AskedBy, Encode, Left;
    if acts == [] {
      StartInv(little);
    } else {
      var k := |acts| - 1;
      var before := After(little, acts[..k]).value;
      LineInv(little, acts[..k], before);
      StepInv(little, before, acts[k], l);
      forall t ensures SentBy(l.log, t) == AskedBy(acts, t) {
        StepLog(little, before, acts[k], l, t);
        assert acts == acts[..k] + [acts[k]];
        AskedSnoc(acts[..k], acts[k], t);
      }
    }
  }

  lemma StartInv(little: bool)
    ensures Inv(little, Line([], None, []))
    ensures forall t :: SentBy([], t) == AskedBy([], t)
  {
  }

  /** What an act adds to a thread's own sequence of frames. */
  function Adds(a: Act, t: Tid): seq<Packet> {
    if a.Lock? && a.t == t then [a.packet] else []
  }

  lemma AskedSnoc(acts: seq<Act>, a: Act, t: Tid)
    ensures AskedBy(acts + [a], t) == AskedBy(acts, t) + Adds(a, t)
  {
    assert (acts + [a])[..|acts|] == acts;
  }

  lemma StepLog(little: bool, l: Line, a: Act, l': Line, t: Tid)
    requires Next(little, l, a) == Some(l')
    ensures SentBy(l'.log, t) == SentBy(l.log, t) + Adds(a, t)
  {
    hide Encode, Sendable;
    if a.Lock? {
      assert l'.log == l.log + [(a.t, a.packet)];
      assert l'.log[..|l.log|] == l.log;
    }
  }

  /** However the threads' frames interleave and however their writes are cut up, a reader that has got all
      the bytes sees whole frames, in an order that keeps each thread's own order. */
  lemma MutexKeepsFrames(server: bool, little: bool, acts: seq<Act>, l: Line)
    requires After(little, acts) == Some(l) && l.holder.None?
    requires server || StopPacket !in Packets(l.log)
    ensures ParseAll(server, little, l.out) == ViewAll(Packets(l.log))
    ensures forall t :: SentBy(l.log, t) == AskedBy(acts, t)
  {
    LineInv(little, acts, l);
    assert l.out + Left(l) == l.out;
    assert l.out + [] == l.out;
    hide Encode, Sendable, EncodeAll, ParseOne;
    StreamRoundTrip(server, little, Packets(l.log), []);
    assert ParseAll(server, little, []) == [] by { NothingToParse(server, little); }
  }

  /** When nobody holds the mutex the bytes sent are those of whole frames. */
  lemma WholeFrames(little: bool, acts: seq<Act>, l: Line)
    requires After(little, acts) == Some(l) && l.holder.None?
    ensures forall p | p in Packets(l.log) :: Sendable(p)
    ensures l.out == EncodeAll(little, Packets(l.log))
  {
    hide Encode, Sendable, EncodeAll, After;
    LineInv(little, acts, l);
    assert l.out + [] == l.out;
  }

  lemma NothingToParse(server: bool, little: bool)
    ensures ParseAll(server, little, []) == []
  {
  }

  /** A frame that has not arrived completely is waited for, not misread. */
  lemma PartIncomplete(server: bool, little: bool, p: Packet, k: nat)
    requires Sendable(p) && (server || !p.StopPacket?) && k < |Encode(little, p)|
    ensures ParseOne(server, little, Encode(little, p)[..k]).Incomplete?
  {
    hide Be, FromBe, Host;
    var b := Encode(little, p)[..k];
    if k >= WORD {
      var kind := if p.StatePacket? then TYPE_STATE else if p.RebalancePacket? then TYPE_REBALANCE else TYPE_DATA;
      assert b[..WORD] == Be(kind);
      BeRoundTrip(kind);
      if p.DataPacket? && k >= 2 * WORD {
        assert b[WORD..][..WORD] == Be(p.id);
        BeRoundTrip(p.id);
      }
    }
  }

  lemma NothingWhole(server: bool, little: bool, b: seq<Byte>)
    requires ParseOne(server, little, b).Incomplete?
    ensures ParseAll(server, little, b) == []
  {
    hide ParseOne;
  }

  /** While a frame is being written the reader sees every frame before it, and nothing wrong after them. */
  lemma FramesInFlight(server: bool, little: bool, acts: seq<Act>, l: Line)
    requires After(little, acts) == Some(l) && Left(l) != []
    requires server || StopPacket !in Packets(l.log)
    ensures l.log != [] && ParseAll(server, little, l.out) == ViewAll(Packets(l.log)[..|l.log| - 1])
  {
    hide Encode, EncodeAll, ViewAll, Sendable, ParseOne, ParseAll, After;
    LineInv(little, acts, l);
    var ps := Packets(l.log);
    var before, last := ps[..|ps| - 1], ps[|ps| - 1];
    assert ps == before + [last];
    var e := Encode(little, last);
    EncodeSnoc(little, before, last);
    var k := |e| - |Left(l)|;
    assert l.out == EncodeAll(little, before) + e[..k] by {
      assert l.out == (EncodeAll(little, before) + e)[..|l.out|];
    }
    StreamRoundTrip(server, little, before, e[..k]);
    PartIncomplete(server, little, last, k);
    NothingWhole(server, little, e[..k]);
  }
}
