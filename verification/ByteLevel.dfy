/**
  The protocol of MP4 over byte streams.  A thread that sends takes its node's mutex and writes its frame in pieces,
  each read from memory when it is written; a reader takes the bytes it asks for in pieces and acts when it has a
  frame.  Every step of this machine is a step of the protocol on frames, or none.
 */
module ByteLevel {
  import opened Wrappers
  import opened Protocol
  import opened Ownership
  import opened Invariant
  import opened OffloadLoop
  import opened ByteStreams
  import opened Sending
  import W = Wire
  import Theorems

  // ---------- the machine ----------

  /** The nodes, with no frames between them, and the streams to the server and to the client. */
  datatype Machine<V> = Machine(nodes: Sys<V>, up: Chan, down: Chan)

  datatype Act =
    | Local(t: Thread)
    | Locks(t: Thread, throttle: seq<Byte>, cpu: seq<Byte>)
    | Writes(t: Thread, k: nat)
    | Unlocks(t: Thread)
    | Reads(t: Thread, k: nat)

  function Out<V>(b: Machine<V>, t: Thread): Chan { if OnClient(t) then b.up else b.down }

  function In<V>(b: Machine<V>, t: Thread): Chan { if OnClient(t) then b.down else b.up }

  function WithOut<V>(b: Machine<V>, t: Thread, c: Chan): Machine<V> {
    if OnClient(t) then b.(up := c) else b.(down := c)
  }

  function WithIn<V>(b: Machine<V>, t: Thread, c: Chan): Machine<V> {
    if OnClient(t) then b.(down := c) else b.(up := c)
  }

  predicate Holding<V>(b: Machine<V>, t: Thread) {
    Out(b, t).holder.Some? && Out(b, t).holder.value.t == t
  }

  function Move<V>(p: Params<V>, little: bool, c: Codec<V>, b: Machine<V>, a: Act): Option<Machine<V>> {
    match a
    case Local(t) =>
      if Holding(b, t) || Receives(b.nodes, t) || Sends(p, b.nodes, t).Some? then None
      else
        (match Step(p, b.nodes, t)
         case None => None
         case Some(next) => Some(b.(nodes := next)))
    case Locks(t, throttle, cpu) =>
      var f := Sends(p, b.nodes, t);
      if Out(b, t).holder.None? && f.Some? && W.Sendable(Pack(c, f.value, throttle, cpu)) then
        Some(WithOut(b, t, Out(b, t).(holder := Some(Writing(t, 0, throttle, cpu)))))
      else None
    case Writes(t, k) =>
      var h, f := Out(b, t).holder, Sends(p, b.nodes, t);
      if h.Some? && h.value.Writing? && h.value.t == t && f.Some?
         && W.Sendable(Pack(c, f.value, h.value.throttle, h.value.cpu)) then
        var e := W.Encode(little, Pack(c, f.value, h.value.throttle, h.value.cpu));
        var count := h.value.count + k;
        if k == 0 || count > |e| then None
        else
          var out := Out(b, t).(bytes := Out(b, t).bytes + e[h.value.count..count]);
          if count < |e| then Some(WithOut(b, t, out.(holder := Some(h.value.(count := count)))))
          else
            (match Step(p, b.nodes, t)
             case None => None
             case Some(next) => Some(WithOut(b, t, out.(holder := Some(Written(t)))).(nodes := Quiet(next))))
      else None
    case Unlocks(t) =>
      if Out(b, t).holder == Some(Written(t)) then Some(WithOut(b, t, Out(b, t).(holder := None))) else None
    case Reads(t, k) =>
      var i := In(b, t);
      if !Receives(b.nodes, t) || i.taken + k > |i.bytes| || Holding(b, t) then None
      else if k == 0 || k > Wanted(i.bytes[..i.taken]) then None
      else
        match Parsed(!OnClient(t), little, i.bytes[..i.taken + k])
        case Incomplete => Some(WithIn(b, t, i.(taken := i.taken + k)))
        case Unknown => None
        case Frame(seen, _) =>
          var f := Unpack(c, seen);
          if f.None? then None
          else
            var alone :=
              if OnClient(t) then WithFrames(b.nodes, [f.value], []) else WithFrames(b.nodes, [], [f.value]);
            match Step(p, alone, t)
            case None => None
            case Some(next) =>
              Some(WithIn(b, t, i.(bytes := i.bytes[i.taken + k..], taken := 0)).(nodes := next))
  }

  // ---------- the relation to the protocol on frames ----------

  /** The bytes of a frame that is being written. */
  function Part<V>(p: Params<V>, little: bool, c: Codec<V>, s: Sys<V>, h: Option<Hold>): seq<Byte> {
    if h.Some? && h.value.Writing? && Sends(p, s, h.value.t).Some?
       && W.Sendable(Pack(c, Sends(p, s, h.value.t).value, h.value.throttle, h.value.cpu)) then
      var e := W.Encode(little, Pack(c, Sends(p, s, h.value.t).value, h.value.throttle, h.value.cpu));
      if h.value.count <= |e| then e[..h.value.count] else []
    else []
  }

  /** The holder is at its send, and has not written all of the frame. */
  ghost predicate HoldOk<V>(p: Params<V>, little: bool, c: Codec<V>, s: Sys<V>, client: bool, h: Option<Hold>) {
    h.Some? ==>
      && OnClient(h.value.t) == client
      && (h.value.Writing? ==>
            && Sends(p, s, h.value.t).Some?
            && W.Sendable(Pack(c, Sends(p, s, h.value.t).value, h.value.throttle, h.value.cpu))
            && h.value.count < |W.Encode(little, Pack(c, Sends(p, s, h.value.t).value, h.value.throttle, h.value.cpu))|)
  }

  /** The machine on bytes is where the protocol on frames is. */
  ghost predicate Related<V>(
      p: Params<V>, little: bool, c: Codec<V>, b: Machine<V>, s: Sys<V>, up: seq<W.Packet>, down: seq<W.Packet>)
  {
    && b.nodes == Quiet(s)
    && s.client.inbox == Unpacked(c, down) && s.server.inbox == Unpacked(c, up)
    && HoldOk(p, little, c, b.nodes, true, b.up.holder) && HoldOk(p, little, c, b.nodes, false, b.down.holder)
    && ChanOk(little, b.up, up, Part(p, little, c, b.nodes, b.up.holder))
    && ChanOk(little, b.down, down, Part(p, little, c, b.nodes, b.down.holder))
  }

  // ---------- what a step does to the senders ----------

  /** The other holders and the parts of their frames stay. */
  lemma HoldStays<V>(
      p: Params<V>, little: bool, c: Codec<V>, s: Sys<V>, u: Thread, s': Sys<V>, client: bool, h: Option<Hold>)
    requires Inv(p, s) && Step(p, s, u) == Some(s') && !s'.fault
    requires h.Some? && h.value.Writing? ==> h.value.t != u
    requires HoldOk(p, little, c, Quiet(s), client, h)
    ensures HoldOk(p, little, c, Quiet(s'), client, h)
    ensures Part(p, little, c, Quiet(s'), h) == Part(p, little, c, Quiet(s), h)
  {
    hide Inv, Step, Sends, W.Encode, W.Sendable;
    if h.Some? && h.value.Writing? {
      QuietSends(p, s, h.value.t);
      QuietSends(p, s', h.value.t);
      SendPersists(p, s, u, s', h.value.t);
    }
  }

  lemma HolderSide<V>(p: Params<V>, little: bool, c: Codec<V>, b: Machine<V>, s: Sys<V>, t: Thread)
    requires HoldOk(p, little, c, s, true, b.up.holder) && HoldOk(p, little, c, s, false, b.down.holder)
    requires !Holding(b, t)
    ensures b.up.holder.Some? ==> b.up.holder.value.t != t
    ensures b.down.holder.Some? ==> b.down.holder.value.t != t
  {
    hide Sends, W.Encode, W.Sendable;
  }

  /** What a holder is writing: some frame, of which it has written a part; without a holder any frame and nothing. */
  lemma PartOf<V>(p: Params<V>, little: bool, c: Codec<V>, s: Sys<V>, client: bool, h: Option<Hold>)
    returns (q: W.Packet, count: nat)
    requires HoldOk(p, little, c, s, client, h)
    ensures W.Sendable(q) && count < |W.Encode(little, q)| && Part(p, little, c, s, h) == W.Encode(little, q)[..count]
  {
    if h.Some? && h.value.Writing? {
      q, count := Pack(c, Sends(p, s, h.value.t).value, h.value.throttle, h.value.cpu), h.value.count;
    } else {
      q, count := W.RebalancePacket, 0;
    }
  }

  // ---------- the mutex is never refused for a frame ----------

  /** Every frame that a thread is about to send fits the format, as long as shifted ids fit an `int`. */
  lemma SendsFit<V(!new)>(p: Params<V>, c: Codec<V>, s: Sys<V>, t: Thread, throttle: seq<Byte>, cpu: seq<Byte>)
    requires Inv(p, s) && SizesFit(p, s) && Lossless(c) && 2 * p.n <= 0x7fff_ffff && Sends(p, s, t).Some?
    requires |throttle| == 4 && |cpu| == 8
    ensures W.Sendable(Pack(c, Sends(p, s, t).value, throttle, cpu))
  {
    hide Inv, SentIn, Distinct, Lossless, SizesFit, Receives;
    InvParts(p, s, t);
    SentFrom(p, s, t);
    var f := Sends(p, s, t).value;
    FrameFits(p, Side(s, t), s.done, t, f);
    if f.StateMsg? { SizeFits(p, s, t, f); }
    if f.Data? { BodyFits(c, f.body); }
  }

  // ---------- every act is a step of the protocol, or none ----------

  /** The act is a step of thread t of the protocol, or it leaves the protocol where it is. */
  ghost predicate Follows<V>(p: Params<V>, s: Sys<V>, t: Thread, s': Sys<V>) {
    s' == s || (Step(p, s, t) == Some(s') && !EarlyOffload(s, t))
  }

  lemma LocalFollows<V>(
      p: Params<V>, little: bool, c: Codec<V>, b: Machine<V>, s: Sys<V>, up: seq<W.Packet>, down: seq<W.Packet>,
      t: Thread, b': Machine<V>) returns (s': Sys<V>)
    requires Related(p, little, c, b, s, up, down) && Inv(p, s) && !EarlyOffload(s, t)
    requires Move(p, little, c, b, Local(t)) == Some(b')
    ensures Follows(p, s, t, s') && Related(p, little, c, b', s', up, down)
  {
    hide Inv, Step, ChanOk, HoldOk, Part, Sends, EarlyOffload, SentIn, Receives;
    QuietSends(p, s, t);
    QuietStep(p, s, t);
    s' := Step(p, s, t).value;
    StepInv(p, s, t, s');
    InvParts(p, s', t);
    NothingSent(p, s, t);
    HolderSide(p, little, c, b, b.nodes, t);
    HoldStays(p, little, c, s, t, s', true, b.up.holder);
    HoldStays(p, little, c, s, t, s', false, b.down.holder);
    assert s.client.inbox + [] == s.client.inbox && s.server.inbox + [] == s.server.inbox;
  }

  lemma LocksFollows<V>(
      p: Params<V>, little: bool, c: Codec<V>, b: Machine<V>, s: Sys<V>, up: seq<W.Packet>, down: seq<W.Packet>,
      t: Thread, throttle: seq<Byte>, cpu: seq<Byte>, b': Machine<V>)
    requires Related(p, little, c, b, s, up, down) && Move(p, little, c, b, Locks(t, throttle, cpu)) == Some(b')
    ensures Related(p, little, c, b', s, up, down)
  {
    hide Step, ChanOk, Sends, W.Encode, W.Sendable, Pack;
    var q := Pack(c, Sends(p, b.nodes, t).value, throttle, cpu);
    FirstWords(little, q);
    SameBytes(little, Out(b, t), if OnClient(t) then up else down, Out(b', t).holder);
    assert W.Encode(little, q)[..0] == [];
  }

  lemma UnlocksFollows<V>(
      p: Params<V>, little: bool, c: Codec<V>, b: Machine<V>, s: Sys<V>, up: seq<W.Packet>, down: seq<W.Packet>,
      t: Thread, b': Machine<V>)
    requires Related(p, little, c, b, s, up, down) && Move(p, little, c, b, Unlocks(t)) == Some(b')
    ensures Related(p, little, c, b', s, up, down)
  {
    hide Step, ChanOk, Sends, W.Encode, W.Sendable, Pack;
    SameBytes(little, Out(b, t), if OnClient(t) then up else down, None);
  }

  // ---------- writes ----------

  /** The thread holds the mutex and writes k more bytes of this frame. */
  ghost predicate WritesOf<V>(
      p: Params<V>, little: bool, c: Codec<V>, b: Machine<V>, t: Thread, k: nat, f: Frame<V>, q: W.Packet, h: Hold)
  {
    && Out(b, t).holder == Some(h) && h.Writing? && h.t == t && Sends(p, b.nodes, t) == Some(f)
    && q == Pack(c, f, h.throttle, h.cpu) && W.Sendable(q) && 0 < k && h.count + k <= |W.Encode(little, q)|
  }

  lemma WritesShape<V>(p: Params<V>, little: bool, c: Codec<V>, b: Machine<V>, t: Thread, k: nat, b': Machine<V>)
    returns (f: Frame<V>, q: W.Packet, h: Hold)
    requires Move(p, little, c, b, Writes(t, k)) == Some(b')
    ensures WritesOf(p, little, c, b, t, k, f, q, h)
    ensures var e, ch := W.Encode(little, q), Out(b, t);
      if h.count + k < |e| then
        b' == WithOut(b, t, ch.(bytes := ch.bytes + e[h.count..h.count + k], holder := Some(h.(count := h.count + k))))
      else
        && Step(p, b.nodes, t).Some?
        && b' == WithOut(b, t, ch.(bytes := ch.bytes + e[h.count..], holder := Some(Written(t)))).(
                   nodes := Quiet(Step(p, b.nodes, t).value))
  {
    hide Step, Sends, W.Encode, W.Sendable, Pack;
    h, f := Out(b, t).holder.value, Sends(p, b.nodes, t).value;
    q := Pack(c, f, h.throttle, h.cpu);
    var e := W.Encode(little, q);
    assert h.count + k == |e| ==> e[h.count..h.count + k] == e[h.count..];
  }

  /** The part of the frame the writer has written so far. */
  lemma OwnPart<V>(
      p: Params<V>, little: bool, c: Codec<V>, b: Machine<V>, t: Thread, k: nat, f: Frame<V>, q: W.Packet, h: Hold)
    requires WritesOf(p, little, c, b, t, k, f, q, h)
    ensures h.count < |W.Encode(little, q)| && Part(p, little, c, b.nodes, Some(h)) == W.Encode(little, q)[..h.count]
  {
    hide Sends, W.Encode, W.Sendable, Pack;
  }

  lemma PartWritten<V>(
      p: Params<V>, little: bool, c: Codec<V>, b: Machine<V>, s: Sys<V>, up: seq<W.Packet>, down: seq<W.Packet>,
      t: Thread, k: nat, f: Frame<V>, q: W.Packet, h: Hold, b': Machine<V>)
    requires Related(p, little, c, b, s, up, down) && WritesOf(p, little, c, b, t, k, f, q, h)
    requires h.count + k < |W.Encode(little, q)|
    requires var e, ch := W.Encode(little, q), Out(b, t);
      b' == WithOut(b, t, ch.(bytes := ch.bytes + e[h.count..h.count + k], holder := Some(h.(count := h.count + k))))
    ensures Related(p, little, c, b', s, up, down)
  {
    hide Step, ChanOk, Sends, W.Encode, W.Sendable, Pack;
    OwnPart(p, little, c, b, t, k, f, q, h);
    var e, ch, ps := W.Encode(little, q), Out(b, t), if OnClient(t) then up else down;
    ChanWrites(little, ch, ps, e, h.count, h.count + k);
    SameBytes(little, ch.(bytes := ch.bytes + e[h.count..h.count + k]), ps, Some(h.(count := h.count + k)));
  }

  lemma FrameWritten<V(!new)>(
      p: Params<V>, little: bool, c: Codec<V>, b: Machine<V>, s: Sys<V>, up: seq<W.Packet>, down: seq<W.Packet>,
      t: Thread, k: nat, f: Frame<V>, q: W.Packet, h: Hold, b': Machine<V>)
    returns (s': Sys<V>, up': seq<W.Packet>, down': seq<W.Packet>)
    requires Related(p, little, c, b, s, up, down) && WritesOf(p, little, c, b, t, k, f, q, h) && Lossless(c)
    requires Inv(p, s) && !EarlyOffload(s, t) && Step(p, b.nodes, t).Some?
    requires b' == WithOut(b, t, Out(b, t).(bytes := Out(b, t).bytes + W.Encode(little, q)[h.count..],
                                             holder := Some(Written(t)))).(nodes := Quiet(Step(p, b.nodes, t).value))
    ensures Step(p, s, t) == Some(s') && Related(p, little, c, b', s', up', down')
  {
    hide Inv, Step, ChanOk, HoldOk, Part, Sends, EarlyOffload, SentIn, Receives;
    hide W.Encode, W.Sendable, Pack, Unpack, W.View;
    OwnPart(p, little, c, b, t, k, f, q, h);
    QuietSends(p, s, t);
    OneFrame(p, s, t, f);
    QuietStep(p, s, t);
    s' := Step(p, s, t).value;
    StepInv(p, s, t, s');
    InvParts(p, s', t);
    UnpackPack(c, f, h.throttle, h.cpu);
    var ps := if OnClient(t) then up else down;
    UnpackedSnoc(c, ps, q);
    ChanSends(little, Out(b, t), ps, q, h.count);
    SameBytes(little, Out(b, t).(bytes := Out(b, t).bytes + W.Encode(little, q)[h.count..]), ps + [q],
              Some(Written(t)));
    WrittenOk(p, little, c, Quiet(s'), t);
    assert s.client.inbox + [] == s.client.inbox && s.server.inbox + [] == s.server.inbox;
    OtherSide(p, little, c, b, b.nodes, t);
    if OnClient(t) {
      up', down' := up + [q], down;
      HoldStays(p, little, c, s, t, s', false, b.down.holder);
    } else {
      up', down' := up, down + [q];
      HoldStays(p, little, c, s, t, s', true, b.up.holder);
    }
  }

  lemma WrittenOk<V>(p: Params<V>, little: bool, c: Codec<V>, s: Sys<V>, t: Thread)
    ensures HoldOk(p, little, c, s, OnClient(t), Some(Written(t))) && Part(p, little, c, s, Some(Written(t))) == []
  {
  }

  lemma OtherSide<V>(p: Params<V>, little: bool, c: Codec<V>, b: Machine<V>, s: Sys<V>, t: Thread)
    requires HoldOk(p, little, c, s, true, b.up.holder) && HoldOk(p, little, c, s, false, b.down.holder)
    ensures !OnClient(t) && b.up.holder.Some? ==> b.up.holder.value.t != t
    ensures OnClient(t) && b.down.holder.Some? ==> b.down.holder.value.t != t
  {
    hide Sends, W.Encode, W.Sendable;
  }

  // ---------- reads ----------

  lemma ReadsShape<V>(p: Params<V>, little: bool, c: Codec<V>, b: Machine<V>, t: Thread, k: nat, b': Machine<V>)
    requires Move(p, little, c, b, Reads(t, k)) == Some(b')
    ensures Receives(b.nodes, t) && !Holding(b, t)
    ensures var i := In(b, t); i.taken + k <= |i.bytes| && 0 < k <= Wanted(i.bytes[..i.taken])
    ensures var i := In(b, t);
      var next := Parsed(!OnClient(t), little, i.bytes[..i.taken + k]);
      match next
      case Incomplete => b' == WithIn(b, t, i.(taken := i.taken + k))
      case Unknown => false
      case Frame(seen, _) =>
        && Unpack<V>(c, seen).Some?
        && var f := Unpack<V>(c, seen).value;
           var alone := if OnClient(t) then WithFrames(b.nodes, [f], []) else WithFrames(b.nodes, [], [f]);
           && Step(p, alone, t).Some?
           && b' == WithIn(b, t, i.(bytes := i.bytes[i.taken + k..], taken := 0)).(nodes := Step(p, alone, t).value)
  {
    hide Step, Parsed, Wanted, Unpack;
  }

  lemma FrameRead<V>(
      p: Params<V>, little: bool, c: Codec<V>, b: Machine<V>, s: Sys<V>, up: seq<W.Packet>, down: seq<W.Packet>,
      t: Thread, b': Machine<V>, ch: Chan)
    returns (s': Sys<V>, up': seq<W.Packet>, down': seq<W.Packet>)
    requires Related(p, little, c, b, s, up, down) && Inv(p, s) && Receives(b.nodes, t) && !Holding(b, t)
    requires var ps := if OnClient(t) then down else up;
      && ps != [] && Unpack<V>(c, W.View(ps[0])).Some?
      && var f := Unpack<V>(c, W.View(ps[0])).value;
         var alone := if OnClient(t) then WithFrames(b.nodes, [f], []) else WithFrames(b.nodes, [], [f]);
         Step(p, alone, t).Some? && b' == WithIn(b, t, ch).(nodes := Step(p, alone, t).value)
    requires ch.holder == In(b, t).holder
    requires ChanOk(little, ch, if OnClient(t) then down[1..] else up[1..], Part(p, little, c, b.nodes, ch.holder))
    ensures Step(p, s, t) == Some(s') && !EarlyOffload(s, t) && Related(p, little, c, b', s', up', down')
  {
    hide Inv, Step, ChanOk, HoldOk, Part, Sends, EarlyOffload, Receives, Unpack, W.View, Unpacked;
    InvParts(p, s, t);
    QuietSends(p, s, t);
    NotEarly(s, t);
    ReaderSide(s, t);
    var ps := if OnClient(t) then down else up;
    UnpackedFirst<V>(c, ps);
    ReceiveStep(p, s, t, Unpack<V>(c, W.View(ps[0])).value, Unpacked<V>(c, ps[1..]));
    s' := Step(p, s, t).value;
    up', down' := if OnClient(t) then up else up[1..], if OnClient(t) then down[1..] else down;
    StepInv(p, s, t, s');
    InvParts(p, s', t);
    HolderSide(p, little, c, b, b.nodes, t);
    HoldStays(p, little, c, s, t, s', true, b.up.holder);
    HoldStays(p, little, c, s, t, s', false, b.down.holder);
  }

  lemma ReaderSide<V>(s: Sys<V>, t: Thread)
    requires Receives(s, t)
    ensures Side(s, t) == if OnClient(t) then s.client else s.server
  {
  }

  lemma ReadsFollows<V>(
      p: Params<V>, little: bool, c: Codec<V>, b: Machine<V>, s: Sys<V>, up: seq<W.Packet>, down: seq<W.Packet>,
      t: Thread, k: nat, b': Machine<V>)
    returns (s': Sys<V>, up': seq<W.Packet>, down': seq<W.Packet>)
    requires Related(p, little, c, b, s, up, down) && Inv(p, s) && Move(p, little, c, b, Reads(t, k)) == Some(b')
    ensures Follows(p, s, t, s') && Related(p, little, c, b', s', up', down')
  {
    hide Inv, Step, Move, ChanOk, HoldOk, Part, Sends, EarlyOffload, Receives, Unpack, W.View, Unpacked, Parsed, Wanted;
    hide W.Encode, W.Sendable;
    ReadsShape(p, little, c, b, t, k, b');
    var i, ps := In(b, t), if OnClient(t) then down else up;
    var q, count := PartOf(p, little, c, b.nodes, !OnClient(t), i.holder);
    ChanReads(!OnClient(t), little, i, ps, q, count, k);
    s', up', down' := s, up, down;
    if Parsed(!OnClient(t), little, i.bytes[..i.taken + k]).Frame? {
      UnpackedFirst<V>(c, ps);
      s', up', down' := FrameRead(p, little, c, b, s, up, down, t, b', i.(bytes := i.bytes[i.taken + k..], taken := 0));
    }
  }

  // ---------- whole runs ----------

  function Actor(a: Act): Thread { a.t }

  lemma ActFollows<V(!new)>(
      p: Params<V>, little: bool, c: Codec<V>, b: Machine<V>, s: Sys<V>, up: seq<W.Packet>, down: seq<W.Packet>,
      a: Act, b': Machine<V>)
    returns (s': Sys<V>, up': seq<W.Packet>, down': seq<W.Packet>)
    requires Related(p, little, c, b, s, up, down) && Inv(p, s) && Lossless(c)
    requires Move(p, little, c, b, a) == Some(b') && !EarlyOffload(b.nodes, Actor(a))
    ensures Follows(p, s, Actor(a), s') && Related(p, little, c, b', s', up', down')
  {
    hide Inv, Step, Move, ChanOk, HoldOk, Part, Sends, EarlyOffload, W.Encode, W.Sendable, Unpacked, Lossless;
    NotEarly(s, Actor(a));
    s', up', down' := s, up, down;
    match a
    case Local(t) => s' := LocalFollows(p, little, c, b, s, up, down, t, b');
    case Locks(t, throttle, cpu) => LocksFollows(p, little, c, b, s, up, down, t, throttle, cpu, b');
    case Writes(t, k) =>
      var f, q, h := WritesShape(p, little, c, b, t, k, b');
      if h.count + k < |W.Encode(little, q)| {
        PartWritten(p, little, c, b, s, up, down, t, k, f, q, h, b');
      } else {
        s', up', down' := FrameWritten(p, little, c, b, s, up, down, t, k, f, q, h, b');
      }
    case Unlocks(t) => UnlocksFollows(p, little, c, b, s, up, down, t, b');
    case Reads(t, k) => s', up', down' := ReadsFollows(p, little, c, b, s, up, down, t, k, b');
  }

  function Begin<V>(p: Params<V>): Machine<V> {
    Machine(Init(p), Chan([], 0, None), Chan([], 0, None))
  }

  /** A run of the machine on bytes. */
  ghost predicate ByteRun<V>(p: Params<V>, little: bool, c: Codec<V>, acts: seq<Act>, bs: seq<Machine<V>>) {
    && |bs| == |acts| + 1 && bs[0] == Begin(p)
    && forall i {:trigger acts[i]} | 0 <= i < |acts| :: Move(p, little, c, bs[i], acts[i]) == Some(bs[i + 1])
  }

  /** Client main performs the first pull. */
  ghost predicate MainFirst<V>(acts: seq<Act>, bs: seq<Machine<V>>)
    requires |bs| == |acts| + 1
  {
    forall i {:trigger acts[i]} | 0 <= i < |acts| :: !EarlyOffload(bs[i].nodes, Actor(acts[i]))
  }

  lemma Begins<V>(p: Params<V>, little: bool, c: Codec<V>)
    ensures Related(p, little, c, Begin(p), Init(p), [], [])
  {
    NoBytes(little);
  }

  lemma OneStepMore<V>(p: Params<V>, schedule: seq<Thread>, states: seq<Sys<V>>, t: Thread, s': Sys<V>)
    returns (schedule': seq<Thread>, states': seq<Sys<V>>)
    requires Execution(p, schedule, states) && MainPullsFirst(schedule, states)
    requires Follows(p, states[|schedule|], t, s')
    ensures Execution(p, schedule', states') && MainPullsFirst(schedule', states') && states'[|schedule'|] == s'
  {
    hide Step, EarlyOffload, Init;
    if s' == states[|schedule|] {
      schedule', states' := schedule, states;
    } else {
      schedule', states' := schedule + [t], states + [s'];
      forall i | 0 <= i < |schedule'|
        ensures Step(p, states'[i], schedule'[i]) == Some(states'[i + 1]) && !EarlyOffload(states'[i], schedule'[i])
      {
        assert i < |schedule| ==> schedule'[i] == schedule[i];
      }
    }
  }

  /** Every run on bytes, however writes and reads are cut up and threads interleave, follows an execution of the
      protocol on frames: its nodes are the execution's, and its streams are the frames on the way. */
  lemma {:induction false} BytesRefineFrames<V(!new)>(
      p: Params<V>, little: bool, c: Codec<V>, acts: seq<Act>, bs: seq<Machine<V>>, k: nat)
    returns (schedule: seq<Thread>, states: seq<Sys<V>>, up: seq<W.Packet>, down: seq<W.Packet>)
    requires WellFormed(p) && Lossless(c) && ByteRun(p, little, c, acts, bs) && MainFirst(acts, bs) && k <= |acts|
    ensures Execution(p, schedule, states) && MainPullsFirst(schedule, states)
    ensures Related(p, little, c, bs[k], states[|schedule|], up, down)
  {
    hide Move, Step, EarlyOffload, Init, Related, Inv, Follows, Lossless;
    if k == 0 {
      schedule, states, up, down := [], [Init(p)], [], [];
      Begins(p, little, c);
    } else {
      schedule, states, up, down := BytesRefineFrames(p, little, c, acts, bs, k - 1);
      var s, a := states[|schedule|], acts[k - 1];
      ExecutionInv(p, schedule, states, |schedule|);
      var s';
      s', up, down := ActFollows(p, little, c, bs[k - 1], s, up, down, a, bs[k]);
      schedule, states := OneStepMore(p, schedule, states, Actor(a), s');
    }
  }

  /** Nor does a sender wait for anything but the mutex: with shifted ids below 2^31, a thread that is about to send
      takes it whenever it is free. */
  lemma SendersLock<V(!new)>(
      p: Params<V>, little: bool, c: Codec<V>, acts: seq<Act>, bs: seq<Machine<V>>, k: nat, t: Thread,
      throttle: seq<Byte>, cpu: seq<Byte>)
    requires WellFormed(p) && Lossless(c) && ByteRun(p, little, c, acts, bs) && MainFirst(acts, bs) && k <= |acts|
    requires 2 * p.n <= 0x7fff_ffff && |throttle| == 4 && |cpu| == 8
    requires Sends(p, bs[k].nodes, t).Some? && Out(bs[k], t).holder.None?
    ensures Move(p, little, c, bs[k], Locks(t, throttle, cpu)).Some?
  {
    hide ByteRun, MainFirst, Lossless, ChanOk, HoldOk, Inv, Sends, W.Sendable, Pack, Step, EarlyOffload, Init;
    var schedule, states, up, down := BytesRefineFrames(p, little, c, acts, bs, k);
    var s := states[|schedule|];
    ExecutionInv(p, schedule, states, |schedule|);
    ExecutionSizes(p, schedule, states, |schedule|);
    QuietSends(p, s, t);
    SendsFit(p, c, s, t, throttle, cpu);
  }

  /** So the result holds over bytes: when all jobs are counted the client's array is the sequential loop's. */
  lemma EndToEndOnBytes<V(!new)>(
      p: Params<V>, little: bool, c: Codec<V>, acts: seq<Act>, bs: seq<Machine<V>>, k: nat)
    requires WellFormed(p) && Lossless(c) && ByteRun(p, little, c, acts, bs) && MainFirst(acts, bs) && k <= |acts|
    requires bs[k].nodes.finished == p.n
    ensures bs[k].nodes.client.arr == Theorems.Sequential(p, p.n)
  {
    hide ByteRun, MainFirst, Lossless, ChanOk, HoldOk, Execution, MainPullsFirst;
    var schedule, states, up, down := BytesRefineFrames(p, little, c, acts, bs, k);
    Final(p, schedule, states);
    Theorems.EndToEnd(p, schedule, states, states[|schedule|]);
  }

  lemma Final<V>(p: Params<V>, schedule: seq<Thread>, states: seq<Sys<V>>)
    requires WellFormed(p) && Execution(p, schedule, states) && MainPullsFirst(schedule, states)
    ensures |states| == |schedule| + 1 && Reached(p, schedule, states, states[|schedule|])
  {
    hide Step, EarlyOffload, Init;
  }
}
