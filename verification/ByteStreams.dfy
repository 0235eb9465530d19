/** The frames of MP4 on a byte stream that is written and read in pieces: what a reader asks for, what it makes of the
    bytes it has, and what is on the stream. */
module ByteStreams {
  import opened Wrappers
  import opened Protocol
  import W = Wire
  import Senders

  type Byte = W.Byte

  // ---------- senders and readers ----------

  /** How a slot's contents travel. */
  datatype Codec<!V> = Codec(enc: V -> seq<Byte>, dec: seq<Byte> -> V)

  ghost predicate Lossless<V(!new)>(c: Codec<V>) {
    forall v: V :: |c.enc(v)| == W.BODY_SIZE && c.dec(c.enc(v)) == v
  }

  /** A thread in `transfer`, `send_state` or the request to rebalance: it has written some bytes of its frame, or all
      and not yet released the mutex.  The throttle and the utilisation go with a state frame. */
  datatype Hold = Writing(t: Thread, count: nat, throttle: seq<Byte>, cpu: seq<Byte>) | Written(t: Thread)

  /** One direction of the connection: the bytes written since the last frame that was read, how many of them the
      reader has taken, and the holder of the mutex. */
  datatype Chan = Chan(bytes: seq<Byte>, taken: nat, holder: Option<Hold>)

  function Pack<V>(c: Codec<V>, f: Frame<V>, throttle: seq<Byte>, cpu: seq<Byte>): W.Packet {
    match f
    case StateMsg(num) => W.StatePacket(num, throttle, cpu)
    case Rebalance => W.RebalancePacket
    case Data(id, body) => W.DataPacket(id, c.enc(body))
    case StopMsg => W.StopPacket
  }

  function Unpack<V>(c: Codec<V>, seen: W.Seen): Option<Frame<V>> {
    match seen
    case SeenState(num, _) => Some(StateMsg(num))
    case SeenRebalance => Some(Rebalance)
    case SeenData(id, body) => Some(Data(id, c.dec(body)))
    case SeenStop => Some(StopMsg)
    case SeenNothing => None
  }

  /** How many bytes the reader asks for next, after these. */
  function Wanted(got: seq<Byte>): nat {
    if |got| < W.WORD then W.WORD - |got|
    else
      var kind := W.FromBe(got[..W.WORD]);
      if kind == W.TYPE_DATA then
        if |got| < 2 * W.WORD then 2 * W.WORD - |got|
        else if |got| < 2 * W.WORD + W.BODY_SIZE then 2 * W.WORD + W.BODY_SIZE - |got| else 0
      else if kind == W.TYPE_STATE && |got| < W.WORD + W.STATE_SIZE then W.WORD + W.STATE_SIZE - |got|
      else 0
  }

  /** What the reader makes of the bytes it has.  The client's reader gets no further than the final -1. */
  function Parsed(server: bool, little: bool, got: seq<Byte>): W.Parse {
    if !server && got == W.Encode(little, W.StopPacket) then W.Frame(W.SeenStop, [])
    else W.ParseOne(server, little, got)
  }

  // ---------- what is on a stream ----------

  function Unpacked<V>(c: Codec<V>, ps: seq<W.Packet>): (fs: seq<Frame<V>>)
    ensures |fs| <= |ps|
  {
    if ps == [] then []
    else (match Unpack(c, W.View(ps[0])) case Some(f) => [f] case None => []) + Unpacked(c, ps[1..])
  }

  /** The stream holds whole frames and the part of the next that has been written; the reader is inside the first. */
  ghost predicate ChanOk(little: bool, ch: Chan, ps: seq<W.Packet>, part: seq<Byte>) {
    && (forall q | q in ps :: W.Sendable(q))
    && ch.bytes == W.EncodeAll(little, ps) + part
    && ch.taken <= |ch.bytes| && (ps != [] ==> ch.taken < |W.Encode(little, ps[0])|)
  }

  // ---------- frames as bytes ----------

  /** The first words of a frame. */
  lemma FirstWords(little: bool, q: W.Packet)
    requires W.Sendable(q)
    ensures var e := W.Encode(little, q);
      && |e| == (match q
                 case StatePacket(_, _, _) => W.WORD + W.STATE_SIZE
                 case RebalancePacket => W.WORD
                 case DataPacket(_, _) => 2 * W.WORD + W.BODY_SIZE
                 case StopPacket => 2 * W.WORD)
      && W.FromBe(e[..W.WORD]) ==
         (if q.StatePacket? then W.TYPE_STATE else if q.RebalancePacket? then W.TYPE_REBALANCE else W.TYPE_DATA)
      && (q.DataPacket? || q.StopPacket? ==>
            W.FromBe(e[W.WORD..2 * W.WORD]) == if q.StopPacket? then -1 else q.id)
  {
    hide W.Be, W.FromBe, W.Host;
    var e := W.Encode(little, q);
    var kind := if q.StatePacket? then W.TYPE_STATE else if q.RebalancePacket? then W.TYPE_REBALANCE else W.TYPE_DATA;
    assert e[..W.WORD] == W.Be(kind);
    W.BeRoundTrip(kind);
    if q.DataPacket? || q.StopPacket? {
      var id := if q.StopPacket? then -1 else q.id;
      assert e[W.WORD..2 * W.WORD] == W.Be(id);
      W.BeRoundTrip(id);
    }
  }

  /** The reader never asks for more than the frame it is in. */
  lemma WantedFits(little: bool, q: W.Packet, k: nat)
    requires W.Sendable(q) && k < |W.Encode(little, q)|
    ensures 0 < Wanted(W.Encode(little, q)[..k]) <= |W.Encode(little, q)| - k
  {
    hide W.FromBe, W.Encode;
    FirstWords(little, q);
    var got := W.Encode(little, q)[..k];
    if k >= W.WORD { assert got[..W.WORD] == W.Encode(little, q)[..W.WORD]; }
  }

  /** It asks for the rest of the word, the record or the body it is in. */
  lemma WantsExactly(little: bool, q: W.Packet, k: nat)
    requires W.Sendable(q) && k < |W.Encode(little, q)|
    ensures k + Wanted(W.Encode(little, q)[..k]) ==
      if k < 4 then 4
      else
        match q
        case StatePacket(_, _, _) => 20
        case DataPacket(_, _) => if k < 8 then 8 else 32776
        case _ => 8
  {
    hide W.FromBe, W.Encode;
    FirstWords(little, q);
    var got := W.Encode(little, q)[..k];
    if k >= W.WORD { assert got[..W.WORD] == W.Encode(little, q)[..W.WORD]; }
  }

  /** No other frame begins like the final -1. */
  lemma OnlyStop(little: bool, q: W.Packet, k: nat)
    requires W.Sendable(q) && k <= |W.Encode(little, q)| && W.Encode(little, q)[..k] == W.Encode(little, W.StopPacket)
    ensures q.StopPacket?
  {
    hide W.FromBe, W.Encode;
    var e, stop := W.Encode(little, q), W.Encode(little, W.StopPacket);
    FirstWords(little, q);
    FirstWords(little, W.StopPacket);
    assert e[..k][..W.WORD] == e[..W.WORD] && stop[..W.WORD] == e[..W.WORD];
    if |e| >= 2 * W.WORD { assert e[..k][W.WORD..2 * W.WORD] == e[W.WORD..2 * W.WORD]; }
  }

  lemma StopPart(little: bool, k: nat)
    requires k < |W.Encode(little, W.StopPacket)|
    ensures W.ParseOne(false, little, W.Encode(little, W.StopPacket)[..k]).Incomplete?
  {
    hide W.FromBe, W.Encode;
    FirstWords(little, W.StopPacket);
    var got := W.Encode(little, W.StopPacket)[..k];
    if k >= W.WORD { assert got[..W.WORD] == W.Encode(little, W.StopPacket)[..W.WORD]; }
  }

  lemma ParsedPart(server: bool, little: bool, q: W.Packet, k: nat)
    requires W.Sendable(q) && k < |W.Encode(little, q)|
    ensures Parsed(server, little, W.Encode(little, q)[..k]).Incomplete?
  {
    hide W.ParseOne, W.Encode;
    if server || !q.StopPacket? { Senders.PartIncomplete(server, little, q, k); } else { StopPart(little, k); }
    if !server && W.Encode(little, q)[..k] == W.Encode(little, W.StopPacket) { OnlyStop(little, q, k); }
  }

  lemma ParsedWhole(server: bool, little: bool, q: W.Packet)
    requires W.Sendable(q)
    ensures Parsed(server, little, W.Encode(little, q)) == W.Frame(W.View(q), [])
  {
    hide W.ParseOne, W.Encode;
    var e := W.Encode(little, q);
    assert e + [] == e && e[..|e|] == e;
    if server || !q.StopPacket? { W.FrameRoundTrip(server, little, q, []); }
    if !server && e == W.Encode(little, W.StopPacket) { OnlyStop(little, q, |e|); }
  }

  lemma UnpackPack<V(!new)>(c: Codec<V>, f: Frame<V>, throttle: seq<Byte>, cpu: seq<Byte>)
    requires Lossless(c)
    ensures Unpack(c, W.View(Pack(c, f, throttle, cpu))) == Some(f)
  {
  }

  lemma Unpackable<V>(c: Codec<V>, q: W.Packet)
    ensures Unpack(c, W.View(q)).Some?
  {
  }

  lemma {:induction false} UnpackedSnoc<V>(c: Codec<V>, ps: seq<W.Packet>, q: W.Packet)
    ensures Unpacked(c, ps + [q]) == Unpacked(c, ps) + [Unpack(c, W.View(q)).value]
  {
    hide Unpack, W.View;
    Unpackable(c, q);
    if ps == [] {
      assert [] + [q] == [q] && [q][1..] == [];
      assert Unpacked<V>(c, []) == [];
    } else {
      assert (ps + [q])[1..] == ps[1..] + [q];
      UnpackedSnoc(c, ps[1..], q);
    }
  }

  // ---------- what becomes of a stream ----------

  lemma ChanWrites(little: bool, ch: Chan, ps: seq<W.Packet>, e: seq<Byte>, count: nat, more: nat)
    requires count <= more <= |e| && ChanOk(little, ch, ps, e[..count])
    ensures ChanOk(little, ch.(bytes := ch.bytes + e[count..more]), ps, e[..more])
  {
    hide W.Sendable, W.Encode, W.EncodeAll;
    assert e[..more] == e[..count] + e[count..more];
    var all := W.EncodeAll(little, ps);
    assert (all + e[..count]) + e[count..more] == all + (e[..count] + e[count..more]);
  }

  /** The frame is complete. */
  lemma ChanSends(little: bool, ch: Chan, ps: seq<W.Packet>, q: W.Packet, count: nat)
    requires W.Sendable(q) && count < |W.Encode(little, q)| && ChanOk(little, ch, ps, W.Encode(little, q)[..count])
    ensures ChanOk(little, ch.(bytes := ch.bytes + W.Encode(little, q)[count..]), ps + [q], [])
  {
    hide W.Sendable, W.Encode, W.EncodeAll;
    var e, all := W.Encode(little, q), W.EncodeAll(little, ps);
    Senders.EncodeSnoc(little, ps, q);
    assert e[..count] + e[count..] == e;
    assert (all + e[..count]) + e[count..] == all + e;
    assert (all + e) + [] == all + e;
    if ps == [] {
      NoBytes(little);
      assert all + e[..count] == e[..count];
      assert (ps + [q])[0] == q;
    }
  }

  lemma NoBytes(little: bool)
    ensures W.EncodeAll(little, []) == []
  {
  }

  lemma AllBytes(little: bool, ps: seq<W.Packet>)
    requires ps != [] && forall q | q in ps :: W.Sendable(q)
    ensures W.EncodeAll(little, ps) == W.Encode(little, ps[0]) + W.EncodeAll(little, ps[1..])
  {
  }

  /** The reader takes some bytes: they are a part of the frame it is in, or all of it. */
  lemma ChanReads(server: bool, little: bool, ch: Chan, ps: seq<W.Packet>, q: W.Packet, count: nat, k: nat)
    requires W.Sendable(q) && count < |W.Encode(little, q)| && ChanOk(little, ch, ps, W.Encode(little, q)[..count])
    requires ch.taken + k <= |ch.bytes| && 0 < k <= Wanted(ch.bytes[..ch.taken])
    ensures var next := Parsed(server, little, ch.bytes[..ch.taken + k]);
      || (next.Incomplete? && ChanOk(little, ch.(taken := ch.taken + k), ps, W.Encode(little, q)[..count]))
      || (&& ps != [] && next == W.Frame(W.View(ps[0]), [])
          && ChanOk(little, ch.(bytes := ch.bytes[ch.taken + k..], taken := 0), ps[1..], W.Encode(little, q)[..count]))
  {
    hide W.Sendable, W.Encode, W.EncodeAll, Parsed, Wanted, W.View;
    var part, m := W.Encode(little, q)[..count], ch.taken + k;
    if ps == [] {
      NoBytes(little);
      assert [] + part == part;
      assert part[..m] == W.Encode(little, q)[..m];
      ParsedPart(server, little, q, m);
    } else {
      var e, rest := W.Encode(little, ps[0]), W.EncodeAll(little, ps[1..]);
      AllBytes(little, ps);
      assert (e + rest) + part == e + (rest + part);
      assert ch.bytes[..ch.taken] == e[..ch.taken];
      WantedFits(little, ps[0], ch.taken);
      assert ch.bytes[..m] == e[..m];
      if m < |e| {
        ParsedPart(server, little, ps[0], m);
      } else {
        assert e[..m] == e && ch.bytes[m..] == rest + part;
        ParsedWhole(server, little, ps[0]);
        SomeBytes(little, ps[1..]);
      }
    }
  }

  /** While there are bytes to take the reader asks for some. */
  lemma ChanWants(little: bool, ch: Chan, ps: seq<W.Packet>, q: W.Packet, count: nat)
    requires W.Sendable(q) && count < |W.Encode(little, q)| && ChanOk(little, ch, ps, W.Encode(little, q)[..count])
    requires ch.taken < |ch.bytes|
    ensures 0 < Wanted(ch.bytes[..ch.taken])
  {
    hide W.Sendable, W.Encode, W.EncodeAll, Wanted;
    if ps == [] {
      NoBytes(little);
      assert ch.bytes[..ch.taken] == W.Encode(little, q)[..ch.taken];
      WantedFits(little, q, ch.taken);
    } else {
      AllBytes(little, ps);
      assert ch.bytes[..ch.taken] == W.Encode(little, ps[0])[..ch.taken];
      WantedFits(little, ps[0], ch.taken);
    }
  }

  /** There are some while a whole frame is on the stream. */
  lemma ChanHasBytes(little: bool, ch: Chan, ps: seq<W.Packet>, part: seq<Byte>)
    requires ChanOk(little, ch, ps, part) && ps != []
    ensures ch.taken < |ch.bytes|
  {
    hide W.Sendable, W.Encode, W.EncodeAll;
    AllBytes(little, ps);
  }

  lemma SomeBytes(little: bool, ps: seq<W.Packet>)
    requires forall q | q in ps :: W.Sendable(q)
    ensures ps != [] ==> |W.Encode(little, ps[0])| > 0
  {
  }

  lemma BodyFits<V(!new)>(c: Codec<V>, v: V)
    requires Lossless(c)
    ensures |c.enc(v)| == W.BODY_SIZE
  {
  }

  lemma SameBytes(little: bool, ch: Chan, ps: seq<W.Packet>, h: Option<Hold>)
    ensures forall part :: ChanOk(little, ch, ps, part) ==> ChanOk(little, ch.(holder := h), ps, part)
  {
  }

  lemma UnpackedFirst<V>(c: Codec<V>, ps: seq<W.Packet>)
    requires ps != []
    ensures Unpack<V>(c, W.View(ps[0])).Some?
    ensures Unpacked<V>(c, ps) == [Unpack(c, W.View(ps[0])).value] + Unpacked(c, ps[1..])
  {
  }
}
