/**
  The byte format of MP4's frames.  Frame types and job ids travel as 32-bit big-endian integers (Appendix B
  of RFC 791); the four-word state record and the slot contents travel as the sender's memory holds them.
 */
module Wire {

  type Byte = b: int | 0 <= b < 256

  const WORD := 4
  const STATE_SIZE := 16
  const BODY_SIZE := 4096 * 8
  const TYPE_DATA := 0
  const TYPE_STATE := -1
  const TYPE_REBALANCE := 2
  const TWO32 := 0x1_0000_0000

  predicate Int32(v: int) {
    -0x8000_0000 <= v < 0x8000_0000
  }

  /** `htonl` of a 32-bit integer, two's complement. */
  function Be(v: int): (b: seq<Byte>)
    requires Int32(v)
    ensures |b| == WORD
  {
    var u := if v < 0 then v + TWO32 else v;
    [u / 0x100 / 0x100 / 0x100, u / 0x100 / 0x100 % 0x100, u / 0x100 % 0x100, u % 0x100]
  }

  /** `(int) ntohl` */
  function FromBe(b: seq<Byte>): (v: int)
    requires |b| == WORD
    ensures Int32(v)
  {
    var u: int := ((b[0] as int * 0x100 + b[1]) * 0x100 + b[2]) * 0x100 + b[3];
    if u >= 0x8000_0000 then u - TWO32 else u
  }

  lemma BeRoundTrip(v: int)
    requires Int32(v)
    ensures FromBe(Be(v)) == v
  {
  }

  /** The value of four bytes as digits to the base 256, the most significant first. */
  function Digits(a: int, b: int, c: int, d: int): int {
    a * 16777216 + b * 65536 + c * 256 + d
  }

  /** The most significant byte comes first: the four bytes are the digits of the 32-bit pattern. */
  lemma BeDigits(v: int)
    requires Int32(v)
    ensures var b := Be(v); Digits(b[0], b[1], b[2], b[3]) == if v < 0 then v + 4294967296 else v
  {
  }

  lemma FromBeDigits(b: seq<Byte>)
    requires |b| == 4
    ensures FromBe(b) == Digits(b[0], b[1], b[2], b[3]) - if b[0] >= 128 then 4294967296 else 0
  {
  }

  /** At the first byte at which two lists of bytes differ the first one is smaller. */
  ghost predicate Before(a: seq<Byte>, b: seq<Byte>) {
    exists i | 0 <= i < |a| && i < |b| :: a[..i] == b[..i] && a[i] < b[i]
  }

  lemma DigitsOrdered(a: seq<Byte>, b: seq<Byte>)
    requires |a| == |b| == 4
    ensures Before(a, b) ==> Digits(a[0], a[1], a[2], a[3]) < Digits(b[0], b[1], b[2], b[3])
    ensures a == b || Before(a, b) || Before(b, a)
  {
    if Before(a, b) {
      var i :| 0 <= i < |a| && i < |b| && a[..i] == b[..i] && a[i] < b[i];
      assert forall j | 0 <= j < i :: a[j] == a[..i][j] && b[j] == b[..i][j];
    }
    if a != b {
      var i := if a[0] != b[0] then 0 else if a[1] != b[1] then 1 else if a[2] != b[2] then 2 else 3;
      assert a[..i] == b[..i] && a[i] != b[i];
    }
  }

  /** So integers of one sign are ordered as their bytes are, from the first byte on, and the first byte tells the
      sign. */
  lemma BeOrdered(v: int, w: int)
    requires Int32(v) && Int32(w)
    ensures (v < 0) == (w < 0) ==> (v < w <==> Before(Be(v), Be(w)))
    ensures Be(v)[0] >= 128 <==> v < 0
  {
    BeDigits(v);
    BeDigits(w);
    DigitsOrdered(Be(v), Be(w));
    DigitsOrdered(Be(w), Be(v));
    hide Be, Before;
  }

  /** An integer as the host keeps it in memory. */
  function Host(little: bool, v: int): (b: seq<Byte>)
    requires Int32(v)
    ensures |b| == WORD
  {
    var b := Be(v);
    if little then [b[3], b[2], b[1], b[0]] else b
  }

  function FromHost(little: bool, b: seq<Byte>): (v: int)
    requires |b| == WORD
    ensures Int32(v)
  {
    FromBe(if little then [b[3], b[2], b[1], b[0]] else b)
  }

  /** A little-endian host keeps the least significant byte first, any other the most significant. */
  lemma HostDigits(little: bool, v: int)
    requires Int32(v)
    ensures var h := Host(little, v);
      (if little then Digits(h[3], h[2], h[1], h[0]) else Digits(h[0], h[1], h[2], h[3])) ==
        if v < 0 then v + 4294967296 else v
  {
    BeDigits(v);
    hide Be;
  }

  // ---------- frames ----------

  /** What a thread sends: its state, a request to rebalance, a slot, or the final -1. */
  datatype Packet =
    | StatePacket(num: int, throttle: seq<Byte>, cpu: seq<Byte>)
    | RebalancePacket
    | DataPacket(id: int, body: seq<Byte>)
    | StopPacket

  predicate Sendable(p: Packet) {
    match p
    case StatePacket(num, throttle, cpu) => Int32(num) && |throttle| == 4 && |cpu| == 8
    case DataPacket(id, body) => 0 <= id && Int32(id) && |body| == BODY_SIZE
    case _ => true
  }

  function Encode(little: bool, p: Packet): seq<Byte>
    requires Sendable(p)
  {
    match p
    case StatePacket(num, throttle, cpu) => Be(TYPE_STATE) + Host(little, num) + throttle + cpu
    case RebalancePacket => Be(TYPE_REBALANCE)
    case DataPacket(id, body) => Be(TYPE_DATA) + Be(id) + body
    case StopPacket => Be(TYPE_DATA) + Be(-1)
  }

  function EncodeAll(little: bool, ps: seq<Packet>): seq<Byte>
    requires forall p | p in ps :: Sendable(p)
  {
    if ps == [] then [] else Encode(little, ps[0]) + EncodeAll(little, ps[1..])
  }

  /** The bytes of every kind of frame. */
  lemma FrameBytes(little: bool, p: Packet)
    requires Sendable(p)
    ensures var e := Encode(little, p);
      match p
      case StatePacket(num, throttle, cpu) =>
        && |e| == 20 && e[..4] == [255, 255, 255, 255]
        && e[4..8] == Host(little, num) && e[8..12] == throttle && e[12..20] == cpu
      case RebalancePacket => e == [0, 0, 0, 2]
      case DataPacket(id, body) => |e| == 32776 && e[..4] == [0, 0, 0, 0] && e[4..8] == Be(id) && e[8..] == body
      case StopPacket => e == [0, 0, 0, 0, 255, 255, 255, 255]
  {
    Headers();
    hide Be, Host;
  }

  lemma Headers()
    ensures Be(0) == [0, 0, 0, 0] && Be(2) == [0, 0, 0, 2] && Be(-1) == [255, 255, 255, 255]
  {
  }

  /** What the peer makes of a frame; the throttle field is not among it. */
  datatype Seen =
    | SeenState(num: int, cpu: seq<Byte>)
    | SeenRebalance
    | SeenData(id: int, body: seq<Byte>)
    | SeenStop
    | SeenNothing

  function View(p: Packet): Seen {
    match p
    case StatePacket(num, _, cpu) => SeenState(num, cpu)
    case RebalancePacket => SeenRebalance
    case DataPacket(id, body) => SeenData(id, body)
    case StopPacket => SeenStop
  }

  function ViewAll(ps: seq<Packet>): seq<Seen> {
    seq(|ps|, i requires 0 <= i < |ps| => View(ps[i]))
  }

  // ---------- reading a stream ----------

  /** One frame off the front of a stream: the reader needs more bytes, does not know the type, or has it. */
  datatype Parse = Incomplete | Unknown | Frame(seen: Seen, rest: seq<Byte>)

  function ParseState(little: bool, b: seq<Byte>): Parse {
    if |b| < STATE_SIZE then Incomplete
    else Frame(SeenState(FromHost(little, b[..4]), b[8..16]), b[STATE_SIZE..])
  }

  /** The server reads a body only after an id that is not negative. */
  function ServerData(b: seq<Byte>): Parse {
    if |b| < WORD then Incomplete
    else
      var id, rest := FromBe(b[..WORD]), b[WORD..];
      if id == -1 then Frame(SeenStop, rest)
      else if id < -1 then Frame(SeenNothing, rest)
      else if |rest| < BODY_SIZE then Incomplete
      else Frame(SeenData(id, rest[..BODY_SIZE]), rest[BODY_SIZE..])
  }

  /** The client reads a body after every id. */
  function ClientData(b: seq<Byte>): Parse {
    if |b| < WORD + BODY_SIZE then Incomplete
    else
      var id := FromBe(b[..WORD]);
      var body := b[WORD..][..BODY_SIZE];
      Frame(if id < 0 then SeenNothing else SeenData(id, body), b[WORD..][BODY_SIZE..])
  }

  function ParseOne(server: bool, little: bool, b: seq<Byte>): Parse {
    if |b| < WORD then Incomplete
    else
      var kind, rest := FromBe(b[..WORD]), b[WORD..];
      if kind == TYPE_DATA then (if server then ServerData(rest) else ClientData(rest))
      else if kind == TYPE_STATE then ParseState(little, rest)
      else if kind == TYPE_REBALANCE then Frame(SeenRebalance, rest)
      else Unknown
  }

  lemma ParseConsumes(server: bool, little: bool, b: seq<Byte>)
    ensures ParseOne(server, little, b).Frame? ==> |ParseOne(server, little, b).rest| < |b|
  {
  }

  /** How many bytes the frame at the front of a stream takes: the four of its type, and after a data type the id
      and a body (which the server does not read if the id is negative), after a state type the state record. */
  function Length(server: bool, b: seq<Byte>): nat
    requires |b| >= 4
  {
    if b[..4] == [0, 0, 0, 0] then
      if server && |b| >= 8 && b[4] >= 128 then 8 else 32776
    else if b[..4] == [255, 255, 255, 255] then 20
    else 4
  }

  /** A reader waits for more bytes until the whole frame is there, gives up on any type but the three, and takes
      exactly that many bytes off the stream. */
  lemma ParsesExactly(server: bool, little: bool, b: seq<Byte>)
    ensures ParseOne(server, little, b).Incomplete? <==> |b| < 4 || |b| < Length(server, b)
    ensures ParseOne(server, little, b).Unknown? <==>
      |b| >= 4 && b[..4] != [0, 0, 0, 0] && b[..4] != [255, 255, 255, 255] && b[..4] != [0, 0, 0, 2]
    ensures ParseOne(server, little, b).Frame? ==> ParseOne(server, little, b).rest == b[Length(server, b)..]
  {
    if |b| >= 4 {
      KindBytes(b[..4]);
      if |b| >= 8 {
        assert b[4..][..4] == b[4..8];
        FromBeDigits(b[4..8]);
        KindBytes(b[4..8]);
      }
    }
    hide FromBe, FromHost;
  }

  lemma KindBytes(b: seq<Byte>)
    requires |b| == 4
    ensures FromBe(b) == 0 <==> b == [0, 0, 0, 0]
    ensures FromBe(b) == -1 <==> b == [255, 255, 255, 255]
    ensures FromBe(b) == 2 <==> b == [0, 0, 0, 2]
  {
  }

  /** And what it makes of the frame. */
  lemma SeesExactly(server: bool, little: bool, b: seq<Byte>)
    requires ParseOne(server, little, b).Frame?
    ensures var seen := ParseOne(server, little, b).seen;
      if b[..4] == [0, 0, 0, 2] then seen == SeenRebalance
      else if b[..4] == [255, 255, 255, 255] then seen == SeenState(FromHost(little, b[4..8]), b[12..20])
      else if b[4] < 128 then seen == SeenData(FromBe(b[4..8]), b[8..32776])
      else if server && b[4..8] == [255, 255, 255, 255] then seen == SeenStop
      else seen == SeenNothing
  {
    ParsesExactly(server, little, b);
    KindBytes(b[..4]);
    if |b| >= 8 {
      assert b[4..][..4] == b[4..8];
      FromBeDigits(b[4..8]);
      KindBytes(b[4..8]);
    }
    hide FromBe, FromHost;
  }

  /** Every frame a reader gets out of a stream. */
  function ParseAll(server: bool, little: bool, b: seq<Byte>): seq<Seen>
    decreases |b|
  {
    ParseConsumes(server, little, b);
    match ParseOne(server, little, b)
    case Frame(seen, rest) => [seen] + ParseAll(server, little, rest)
    case _ => []
  }

  // ---------- round trip ----------

  lemma HostRoundTrip(little: bool, v: int)
    requires Int32(v)
    ensures FromHost(little, Host(little, v)) == v
  {
    var b := Be(v);
    BeRoundTrip(v);
    hide Be, FromBe;
    if little { assert [b[0], b[1], b[2], b[3]] == b; }
  }

  lemma BeOnto(b: seq<Byte>)
    requires |b| == WORD
    ensures Be(FromBe(b)) == b
  {
    var u := ((b[0] as int * 0x100 + b[1]) * 0x100 + b[2]) * 0x100 + b[3];
    assert u / 0x100 == (b[0] as int * 0x100 + b[1]) * 0x100 + b[2];
    assert u / 0x100 / 0x100 == b[0] as int * 0x100 + b[1];
    assert u / 0x100 / 0x100 / 0x100 == b[0];
  }

  /** The number of jobs in a state frame is not put in network order: between hosts of different byte
      order it survives exactly when its bytes read the same backwards. */
  lemma MixedByteOrder(little: bool, v: int)
    requires Int32(v)
    ensures FromHost(!little, Host(little, v)) == v <==> Be(v)[0] == Be(v)[3] && Be(v)[1] == Be(v)[2]
  {
    var b := Be(v);
    var swapped := [b[3], b[2], b[1], b[0]];
    BeRoundTrip(v);
    BeOnto(swapped);
    assert FromHost(!little, Host(little, v)) == FromBe(swapped) by {
      assert [swapped[3], swapped[2], swapped[1], swapped[0]] == b;
    }
    hide Be, FromBe;
    if b[0] == b[3] && b[1] == b[2] { assert swapped == b; }
  }

  /** Reading the type in front of a payload. */
  lemma KindThen(server: bool, little: bool, kind: int, payload: seq<Byte>)
    requires Int32(kind)
    ensures ParseOne(server, little, Be(kind) + payload) ==
      if kind == TYPE_DATA then (if server then ServerData(payload) else ClientData(payload))
      else if kind == TYPE_STATE then ParseState(little, payload)
      else if kind == TYPE_REBALANCE then Frame(SeenRebalance, payload)
      else Unknown
  {
    var b := Be(kind) + payload;
    assert b[..WORD] == Be(kind) && b[WORD..] == payload;
    BeRoundTrip(kind);
    hide Be, FromBe, ServerData, ClientData, ParseState;
  }

  lemma StateRoundTrip(little: bool, num: int, throttle: seq<Byte>, cpu: seq<Byte>, rest: seq<Byte>)
    requires Int32(num) && |throttle| == 4 && |cpu| == 8
    ensures ParseState(little, Host(little, num) + throttle + cpu + rest) == Frame(SeenState(num, cpu), rest)
  {
    hide Host, FromHost;
    var b := Host(little, num) + throttle + cpu + rest;
    assert b[..4] == Host(little, num) && b[8..16] == cpu && b[16..] == rest;
    HostRoundTrip(little, num);
  }

  lemma DataRoundTrip(server: bool, id: int, body: seq<Byte>, rest: seq<Byte>)
    requires 0 <= id && Int32(id) && |body| == BODY_SIZE
    ensures var b := Be(id) + body + rest;
      (if server then ServerData(b) else ClientData(b)) == Frame(SeenData(id, body), rest)
  {
    var b := Be(id) + body + rest;
    assert b[..WORD] == Be(id) && b[WORD..] == body + rest;
    assert (body + rest)[..BODY_SIZE] == body && (body + rest)[BODY_SIZE..] == rest;
    BeRoundTrip(id);
    hide Be, FromBe;
  }

  lemma StopRoundTrip(rest: seq<Byte>)
    ensures ServerData(Be(-1) + rest) == Frame(SeenStop, rest)
  {
    var b := Be(-1) + rest;
    assert b[..WORD] == Be(-1) && b[WORD..] == rest;
    BeRoundTrip(-1);
    hide Be, FromBe;
  }

  /** A frame comes off the stream as it was sent; the client's side never meets the final -1. */
  lemma FrameRoundTrip(server: bool, little: bool, p: Packet, rest: seq<Byte>)
    requires Sendable(p) && (server || !p.StopPacket?)
    ensures ParseOne(server, little, Encode(little, p) + rest) == Frame(View(p), rest)
  {
    hide Be, Host, ParseOne, ParseState, ServerData, ClientData;
    match p
    case StatePacket(num, throttle, cpu) =>
      var payload := Host(little, num) + throttle + cpu + rest;
      assert Encode(little, p) + rest == Be(TYPE_STATE) + payload;
      KindThen(server, little, TYPE_STATE, payload);
      StateRoundTrip(little, num, throttle, cpu, rest);
    case RebalancePacket => KindThen(server, little, TYPE_REBALANCE, rest);
    case DataPacket(id, body) =>
      var payload := Be(id) + body + rest;
      assert Encode(little, p) + rest == Be(TYPE_DATA) + payload;
      KindThen(server, little, TYPE_DATA, payload);
      DataRoundTrip(server, id, body, rest);
    case StopPacket =>
      assert Encode(little, p) + rest == Be(TYPE_DATA) + (Be(-1) + rest);
      KindThen(server, little, TYPE_DATA, Be(-1) + rest);
      StopRoundTrip(rest);
  }

  lemma ParseNext(server: bool, little: bool, b: seq<Byte>, seen: Seen, rest: seq<Byte>)
    requires ParseOne(server, little, b) == Frame(seen, rest)
    ensures ParseAll(server, little, b) == [seen] + ParseAll(server, little, rest)
  {
    hide ParseOne;
  }

  lemma AllSplit(little: bool, ps: seq<Packet>, rest: seq<Byte>)
    requires ps != [] && forall p | p in ps :: Sendable(p)
    ensures EncodeAll(little, ps) + rest == Encode(little, ps[0]) + (EncodeAll(little, ps[1..]) + rest)
    ensures ViewAll(ps) == [View(ps[0])] + ViewAll(ps[1..])
  {
    hide Encode, View, Sendable;
  }

  /** A reader gets the frames of a stream back in order, whatever follows them. */
  lemma {:induction false} StreamRoundTrip(server: bool, little: bool, ps: seq<Packet>, rest: seq<Byte>)
    requires forall p | p in ps :: Sendable(p) && (server || !p.StopPacket?)
    ensures ParseAll(server, little, EncodeAll(little, ps) + rest) == ViewAll(ps) + ParseAll(server, little, rest)
  {
    hide ParseOne, ParseAll, Encode, View, Sendable;
    if ps == [] {
      assert EncodeAll(little, ps) + rest == rest;
      assert ViewAll(ps) + ParseAll(server, little, rest) == ParseAll(server, little, rest);
    } else {
      hide EncodeAll, ViewAll;
      var tail := EncodeAll(little, ps[1..]) + rest;
      AllSplit(little, ps, rest);
      FrameRoundTrip(server, little, ps[0], tail);
      StreamRoundTrip(server, little, ps[1..], rest);
      ParseNext(server, little, Encode(little, ps[0]) + tail, View(ps[0]), tail);
    }
  }
}
