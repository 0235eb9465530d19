/** Over byte streams no thread of MP4 is held up that could go on over frames, except by the holder of its mutex. */
module ByteProgress {
  import opened Wrappers
  import opened Protocol
  import opened Ownership
  import opened Invariant
  import opened OffloadLoop
  import opened ByteStreams
  import opened Sending
  import opened ByteLevel
  import W = Wire

  lemma SenderSteps<V>(p: Params<V>, s: Sys<V>, t: Thread)
    requires Sends(p, s, t).Some? && !s.fault
    ensures Step(p, s, t).Some?
  {
    hide ClientStep, ServerStep, Receives;
  }

  /** Whoever holds the mutex can write the next byte of its frame, or release the mutex. */
  lemma HolderMoves<V>(
      p: Params<V>, little: bool, c: Codec<V>, b: Machine<V>, s: Sys<V>, up: seq<W.Packet>, down: seq<W.Packet>,
      t: Thread) returns (a: Act)
    requires Related(p, little, c, b, s, up, down) && Inv(p, s) && Out(b, t).holder.Some?
    ensures a == if Out(b, t).holder.value.Writing? then Writes(Out(b, t).holder.value.t, 1)
                 else Unlocks(Out(b, t).holder.value.t)
    ensures Move(p, little, c, b, a).Some?
  {
    hide Inv, Step, ChanOk, Sends, W.Encode, W.Sendable, Pack, Part;
    var h := Out(b, t).holder.value;
    a := if h.Writing? then Writes(h.t, 1) else Unlocks(h.t);
    InvParts(p, s, t);
    if h.Writing? { SenderSteps(p, b.nodes, h.t); }
  }

  /** A reader that waits can take the next byte as soon as there is one. */
  lemma ReaderMoves<V>(
      p: Params<V>, little: bool, c: Codec<V>, b: Machine<V>, s: Sys<V>, up: seq<W.Packet>, down: seq<W.Packet>,
      t: Thread)
    requires Related(p, little, c, b, s, up, down) && Inv(p, s)
    requires Receives(b.nodes, t) && !Holding(b, t) && In(b, t).taken < |In(b, t).bytes|
    ensures Move(p, little, c, b, Reads(t, 1)).Some?
  {
    hide Inv, Step, ChanOk, HoldOk, Part, Sends, Receives, Unpack, W.View, Unpacked, Parsed, Wanted;
    hide W.Encode, W.Sendable;
    var i, ps := In(b, t), if OnClient(t) then down else up;
    var q, count := PartOf(p, little, c, b.nodes, !OnClient(t), i.holder);
    ChanWants(little, i, ps, q, count);
    ChanReads(!OnClient(t), little, i, ps, q, count, 1);
    if Parsed(!OnClient(t), little, i.bytes[..i.taken + 1]).Frame? {
      UnpackedFirst<V>(c, ps);
      InvParts(p, s, t);
      QuietSends(p, s, t);
      ReaderSide(s, t);
      ReceiveStep(p, s, t, Unpack<V>(c, W.View(ps[0])).value, Unpacked<V>(c, ps[1..]));
    }
  }

  /** The act that takes a thread on, or the holder of its mutex, when the thread can make a step over frames. */
  lemma ThreadMoves<V(!new)>(
      p: Params<V>, little: bool, c: Codec<V>, b: Machine<V>, s: Sys<V>, up: seq<W.Packet>, down: seq<W.Packet>,
      t: Thread, throttle: seq<Byte>, cpu: seq<Byte>) returns (a: Act)
    requires Related(p, little, c, b, s, up, down) && Inv(p, s) && SizesFit(p, s) && Lossless(c)
    requires 2 * p.n <= 0x7fff_ffff && |throttle| == 4 && |cpu| == 8 && Step(p, s, t).Some?
    ensures Move(p, little, c, b, a).Some?
    ensures Actor(a) == t || (Out(b, t).holder.Some? && Actor(a) == Out(b, t).holder.value.t)
  {
    hide Inv, Step, ChanOk, HoldOk, Part, Sends, Receives, SentIn, W.Encode, W.Sendable, Pack, Lossless, SizesFit;
    hide Unpacked, Parsed, Wanted;
    QuietSends(p, s, t);
    if Out(b, t).holder.Some? && (Holding(b, t) || Sends(p, s, t).Some?) {
      a := HolderMoves(p, little, c, b, s, up, down, t);
    } else if Receives(s, t) {
      a := Reads(t, 1);
      InboxWaits(p, s, t);
      ReaderSide(s, t);
      var ps := if OnClient(t) then down else up;
      NothingUnpacked(c, ps);
      ChanHasBytes(little, In(b, t), ps, Part(p, little, c, b.nodes, In(b, t).holder));
      ReaderMoves(p, little, c, b, s, up, down, t);
    } else if Sends(p, s, t).Some? {
      a := Locks(t, throttle, cpu);
      SendsFit(p, c, s, t, throttle, cpu);
    } else {
      a := Local(t);
      QuietStep(p, s, t);
    }
  }

  lemma NothingUnpacked<V>(c: Codec<V>, ps: seq<W.Packet>)
    ensures ps == [] ==> Unpacked<V>(c, ps) == []
  {
  }

  lemma InboxWaits<V>(p: Params<V>, s: Sys<V>, t: Thread)
    requires Receives(s, t) && Step(p, s, t).Some?
    ensures Side(s, t).inbox != []
  {
    hide ClientReceive, ServerReceive;
  }

  /** In every run over bytes: the execution on frames that it follows, and for each thread that can make a step in it
      an act of that thread, or of the holder of the mutex on its socket. */
  lemma BytesLive<V(!new)>(
      p: Params<V>, little: bool, c: Codec<V>, acts: seq<Act>, bs: seq<Machine<V>>, k: nat, t: Thread,
      throttle: seq<Byte>, cpu: seq<Byte>)
    returns (schedule: seq<Thread>, states: seq<Sys<V>>, up: seq<W.Packet>, down: seq<W.Packet>, a: Act)
    requires WellFormed(p) && Lossless(c) && ByteRun(p, little, c, acts, bs) && MainFirst(acts, bs) && k <= |acts|
    requires 2 * p.n <= 0x7fff_ffff && |throttle| == 4 && |cpu| == 8
    ensures Execution(p, schedule, states) && MainPullsFirst(schedule, states)
    ensures Related(p, little, c, bs[k], states[|schedule|], up, down)
    ensures Step(p, states[|schedule|], t).Some? ==>
      && Move(p, little, c, bs[k], a).Some?
      && (Actor(a) == t || (Out(bs[k], t).holder.Some? && Actor(a) == Out(bs[k], t).holder.value.t))
  {
    hide MainFirst, Lossless, Related, Inv, Step, Move, EarlyOffload, Init, SizesFit;
    schedule, states, up, down := BytesRefineFrames(p, little, c, acts, bs, k);
    var s := states[|schedule|];
    ExecutionInv(p, schedule, states, |schedule|);
    ExecutionSizes(p, schedule, states, |schedule|);
    a := Local(t);
    if Step(p, s, t).Some? { a := ThreadMoves(p, little, c, bs[k], s, up, down, t, throttle, cpu); }
  }
}
