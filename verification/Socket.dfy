/**
  The socket loops of MP4/utils.c.  What each system call does is decided by a script the code cannot see:
  it moves some bytes, is interrupted by a signal, or fails.  A call beyond the script moves all it can.
 */
module Socket {
  import opened Wrappers
  import opened Wire
  import Senders

  datatype Call = Moves(most: nat) | Interrupts | Fails

  /** `errno` after a call that returned -1. */
  datatype Errno = Ok | Eintr | Other

  /** How many of the frames are results: data under an id below the number of jobs. */
  function Results(seen: seq<Seen>, jobNum: nat): nat {
    if seen == [] then 0
    else
      var last := seen[|seen| - 1];
      Results(seen[..|seen| - 1], jobNum) + if last.SeenData? && 0 <= last.id < jobNum then 1 else 0
  }

  /** Where the results stand. */
  function ResultsAt(seen: seq<Seen>, jobNum: nat): set<int> {
    set i | 0 <= i < |seen| && seen[i].SeenData? && 0 <= seen[i].id < jobNum
  }

  lemma {:induction false} ResultsCounted(seen: seq<Seen>, jobNum: nat)
    ensures Results(seen, jobNum) == |ResultsAt(seen, jobNum)|
  {
    if seen != [] {
      var k := |seen| - 1;
      ResultsCounted(seen[..k], jobNum);
      var now := if seen[k].SeenData? && 0 <= seen[k].id < jobNum then {k} else {};
      assert ResultsAt(seen, jobNum) == ResultsAt(seen[..k], jobNum) + now;
    }
  }

  class Connection {
    /** Every byte still to arrive before the peer closes, the bytes sent, and the script. */
    var incoming: seq<Byte>
    var outgoing: seq<Byte>
    var script: seq<Call>

    constructor (incoming: seq<Byte>, script: seq<Call>)
      ensures this.incoming == incoming && this.script == script && outgoing == []
    {
      this.incoming, this.script, outgoing := incoming, script, [];
    }

    /** `read`: at least one byte when there is one, at most what was asked. */
    method Read(buffer: array<Byte>, offset: nat, count: nat) returns (n: int, errno: Errno)
      requires offset + count <= buffer.Length
      modifies this, buffer
      ensures outgoing == old(outgoing)
      ensures if old(script) != [] && !old(script)[0].Moves? then
          n == -1 && incoming == old(incoming) && buffer[..] == old(buffer[..]) && script == old(script)[1..]
          && errno == (if old(script)[0].Interrupts? then Eintr else Other)
        else
          && 0 <= n <= count && n <= |old(incoming)| && (n == 0 ==> count == 0 || old(incoming) == [])
          && script == (if old(script) == [] then [] else old(script)[1..]) && errno.Ok?
          && incoming == old(incoming)[n..]
          && forall i | 0 <= i < buffer.Length ::
               buffer[i] == if offset <= i < offset + n then old(incoming)[i - offset] else old(buffer[i])
    {
      var most := count;
      if script != [] {
        var call := script[0];
        script := script[1..];
        match call
        case Interrupts => return -1, Eintr;
        case Fails => return -1, Other;
        case Moves(k) =>
          if 0 < k < count { most := k; }
      }
      n := if most <= |incoming| then most else |incoming|;
      forall i | 0 <= i < n {
        buffer[offset + i] := incoming[i];
      }
      incoming := incoming[n..];
      errno := Ok;
    }

    /** `read_all_from_socket` */
    method ReadAll(buffer: array<Byte>, count: nat) returns (r: int)
      requires count <= buffer.Length
      modifies this, buffer
      ensures outgoing == old(outgoing)
      ensures r == -1 || r == 0 || r == count
      ensures r == -1 ==> Fails in old(script)
      ensures r == 0 ==> count == 0 || (|old(incoming)| < count && incoming == [])
      ensures r == count > 0 ==>
        && count <= |old(incoming)|
        && buffer[..count] == old(incoming)[..count] && incoming == old(incoming)[count..]
      ensures buffer[count..] == old(buffer[count..])
      ensures forall c | c in script :: c in old(script)
    {
      var total := 0;
      var again := true;
      while again
        invariant 0 <= total <= count && total <= |old(incoming)|
        invariant again ==> total < count || count == 0
        invariant incoming == old(incoming)[total..] && outgoing == old(outgoing)
        invariant buffer[..total] == old(incoming)[..total]
        invariant buffer[count..] == old(buffer[count..])
        invariant forall c | c in script :: c in old(script)
        invariant !again ==> total == count
        decreases again, |script|, count - total
      {
        var n, errno := Read(buffer, total, count - total);
        if n == 0 { return 0; }
        if n == -1 && errno.Eintr? {
        } else {
          if n == -1 { return -1; }
          total := total + n;
        }
        again := total < count;
      }
      return total;
    }

    /** `get_single_value`: -2 stands for a failure. */
    method GetValue() returns (v: int)
      modifies this
      ensures outgoing == old(outgoing)
      ensures forall c | c in script :: c in old(script)
      ensures Fails !in old(script) ==>
        if |old(incoming)| < WORD then v == -2 && incoming == []
        else v == FromBe(old(incoming)[..WORD]) && incoming == old(incoming)[WORD..]
    {
      var buffer := new Byte[WORD];
      var r := ReadAll(buffer, WORD);
      if r == 0 || r == -1 { return -2; }
      v := FromBe(buffer[..WORD]);
    }

    /** A block read into fresh memory, whether or not all of it arrives. */
    method ReadBlock(count: nat) returns (block: seq<Byte>, n: int)
      requires Fails !in script && count > 0
      modifies this
      ensures |block| == count && outgoing == old(outgoing) && Fails !in script
      ensures count <= |old(incoming)| ==>
        n == count && block == old(incoming)[..count] && incoming == old(incoming)[count..]
    {
      var buffer := new Byte[count];
      n := ReadAll(buffer, count);
      assert buffer[..] == buffer[..count];
      block := buffer[..];
    }

    /** One turn of the loop in `process_client`: the type, then what belongs to it.  `None` is the return on
        a type it does not know. */
    method ServerReceive(little: bool) returns (r: Option<Seen>)
      requires Fails !in script
      modifies this
      ensures outgoing == old(outgoing) && Fails !in script
      ensures var p := ParseOne(true, little, old(incoming));
        && (p.Frame? ==> r == Some(p.seen) && incoming == p.rest)
        && (old(incoming) == [] ==> r == None && incoming == [])
    {
      var kind := GetValue();
      if kind == TYPE_DATA {
        var id := GetValue();
        if id == -1 { return Some(SeenStop); }
        if id < -1 { return Some(SeenNothing); }
        var body, n := ReadBlock(BODY_SIZE);
        r := Some(SeenData(id, body));
      } else if kind == TYPE_STATE {
        ghost var rest := incoming;
        var state, n := ReadBlock(STATE_SIZE);
        if n != STATE_SIZE { return Some(SeenNothing); }
        assert |rest| >= STATE_SIZE ==> state[..4] == rest[..4] && state[8..16] == rest[8..16];
        r := Some(SeenState(FromHost(little, state[..4]), state[8..16]));
      } else if kind == TYPE_REBALANCE {
        r := Some(SeenRebalance);
      } else {
        r := None;
      }
    }

    /** The whole loop of `process_client` on a stream of complete frames: whatever the sizes of the reads and
        however often they are interrupted, the server sees the frames that were sent. */
    method ProcessClient(little: bool, ghost sent: seq<Packet>) returns (log: seq<Seen>)
      requires forall p | p in sent :: Sendable(p)
      requires incoming == EncodeAll(little, sent) && Fails !in script
      modifies this
      ensures log == ViewAll(sent) && incoming == []
    {
      hide ParseOne, Encode, View;
      log := [];
      ghost var i := 0;
      var r: Option<Seen> := Some(SeenNothing);
      while r.Some?
        invariant 0 <= i <= |sent| && Fails !in script
        invariant incoming == EncodeAll(little, sent[i..])
        invariant log == ViewAll(sent[..i])
        invariant r.None? ==> i == |sent|
        decreases if r.Some? then 1 else 0, |sent| - i
      {
        if i < |sent| {
          assert sent[i..][1..] == sent[i + 1..];
          assert incoming == Encode(little, sent[i]) + EncodeAll(little, sent[i + 1..]);
          FrameRoundTrip(true, little, sent[i], EncodeAll(little, sent[i + 1..]));
        }
        r := ServerReceive(little);
        if r.Some? {
          log := log + [r.value];
          i := i + 1;
        }
      }
    }

    /** One turn of the loop in `read_from_server`: a body is read after every id.  `None` is a type it does not
        know, on which the loop goes on. */
    method ClientReceive(little: bool) returns (r: Option<Seen>)
      requires Fails !in script
      modifies this
      ensures outgoing == old(outgoing) && Fails !in script
      ensures var p := ParseOne(false, little, old(incoming));
        p.Frame? ==> r == Some(p.seen) && incoming == p.rest
    {
      var kind := GetValue();
      if kind == TYPE_DATA {
        var id := GetValue();
        var body, n := ReadBlock(BODY_SIZE);
        if id < 0 { return Some(SeenNothing); }
        r := Some(SeenData(id, body));
      } else if kind == TYPE_STATE {
        ghost var rest := incoming;
        var state, n := ReadBlock(STATE_SIZE);
        if n != STATE_SIZE { return Some(SeenNothing); }
        assert |rest| >= STATE_SIZE ==> state[..4] == rest[..4] && state[8..16] == rest[8..16];
        r := Some(SeenState(FromHost(little, state[..4]), state[8..16]));
      } else if kind == TYPE_REBALANCE {
        r := Some(SeenRebalance);
      } else {
        r := None;
      }
    }

    /** The loop of `read_from_server` on a stream of complete frames, as long as there are any: however the reads
        are cut up, it sees the frames in order and counts the results, and it stops reading with the result that
        makes the counter full. */
    method ReadFromServer(little: bool, jobNum: nat, jobFinished: nat, ghost sent: seq<Packet>)
      returns (log: seq<Seen>, finished: nat)
      requires forall p | p in sent :: Sendable(p) && !p.StopPacket?
      requires incoming == EncodeAll(little, sent) && Fails !in script && jobFinished <= jobNum
      modifies this
      ensures |log| <= |sent| && log == ViewAll(sent[..|log|]) && incoming == EncodeAll(little, sent[|log|..])
      ensures finished == jobFinished + Results(log, jobNum) <= jobNum
      ensures |log| < |sent| ==> finished == jobNum
      ensures forall l | 0 <= l < |log| :: jobFinished + Results(log[..l], jobNum) < jobNum
    {
      hide ParseOne, Encode, View, EncodeAll, ViewAll, Results;
      log := [];
      finished := jobFinished;
      assert sent[0..] == sent;
      NothingSeen(sent, jobNum);
      while finished != jobNum && incoming != []
        invariant |log| <= |sent| && Fails !in script
        invariant incoming == EncodeAll(little, sent[|log|..])
        invariant log == ViewAll(sent[..|log|])
        invariant finished == jobFinished + Results(log, jobNum) <= jobNum
        invariant forall l | 0 <= l < |log| :: jobFinished + Results(log[..l], jobNum) < jobNum
        decreases |sent| - |log|
      {
        ghost var i, before := |log|, log;
        NextFrame(little, sent, i);
        FrameRoundTrip(false, little, sent[i], EncodeAll(little, sent[i + 1..]));
        var r := ClientReceive(little);
        log := log + [r.value];
        ResultsSnoc(before, r.value, jobNum);
        if r.value.SeenData? && r.value.id > -1 && r.value.id < jobNum {
          finished := finished + 1;
        }
        assert log[..i] == before;
        assert forall l | 0 <= l < i :: log[..l] == before[..l];
      }
      SomethingLeft(little, sent[|log|..]);
    }

    static lemma NothingSeen(sent: seq<Packet>, jobNum: nat)
      ensures ViewAll(sent[..0]) == [] && Results([], jobNum) == 0
    {
    }

    static lemma NextFrame(little: bool, sent: seq<Packet>, i: nat)
      requires (forall p | p in sent :: Sendable(p)) && i <= |sent| && EncodeAll(little, sent[i..]) != []
      ensures i < |sent|
      ensures EncodeAll(little, sent[i..]) == Encode(little, sent[i]) + EncodeAll(little, sent[i + 1..])
      ensures ViewAll(sent[..i + 1]) == ViewAll(sent[..i]) + [View(sent[i])]
    {
      hide Encode, View;
      assert i < |sent| ==> sent[i..][1..] == sent[i + 1..];
    }

    static lemma ResultsSnoc(log: seq<Seen>, x: Seen, jobNum: nat)
      ensures Results(log + [x], jobNum) == Results(log, jobNum) + if x.SeenData? && 0 <= x.id < jobNum then 1 else 0
    {
      assert (log + [x])[..|log|] == log;
    }

    static lemma SomethingLeft(little: bool, ps: seq<Packet>)
      requires forall p | p in ps :: Sendable(p)
      ensures ps != [] ==> |EncodeAll(little, ps)| >= WORD
    {
      if ps != [] { assert |Encode(little, ps[0])| >= WORD; }
    }

    /** The client's threads write to the server's stream under the mutex: the server's loop sees their frames,
        in the order of the locks. */
    method ServeThreads(little: bool, ghost acts: seq<Senders.Act>, ghost l: Senders.Line) returns (log: seq<Seen>)
      requires Senders.After(little, acts) == Some(l) && l.holder.None?
      requires incoming == l.out && Fails !in script
      modifies this
      ensures log == ViewAll(Senders.Packets(l.log)) && incoming == []
    {
      Senders.WholeFrames(little, acts, l);
      log := ProcessClient(little, Senders.Packets(l.log));
    }

    /** The same for the server's threads and the client's loop, before the final -1. */
    method ReadThreads(
        little: bool, jobNum: nat, jobFinished: nat, ghost acts: seq<Senders.Act>, ghost l: Senders.Line)
      returns (log: seq<Seen>, finished: nat)
      requires Senders.After(little, acts) == Some(l) && l.holder.None? && StopPacket !in Senders.Packets(l.log)
      requires incoming == l.out && Fails !in script && jobFinished <= jobNum
      modifies this
      ensures var ps := Senders.Packets(l.log);
        && |log| <= |ps| && log == ViewAll(ps[..|log|])
        && finished == jobFinished + Results(log, jobNum) <= jobNum
        && (|log| < |ps| ==> finished == jobNum)
    {
      Senders.WholeFrames(little, acts, l);
      log, finished := ReadFromServer(little, jobNum, jobFinished, Senders.Packets(l.log));
    }

    /** `write`: at least one byte, at most what was asked. */
    method Write(data: seq<Byte>, offset: nat, count: nat) returns (n: int, errno: Errno)
      requires offset + count <= |data|
      modifies this
      ensures incoming == old(incoming)
      ensures if old(script) != [] && !old(script)[0].Moves? then
          n == -1 && outgoing == old(outgoing) && script == old(script)[1..]
          && errno == (if old(script)[0].Interrupts? then Eintr else Other)
        else
          && 0 <= n <= count && (n == 0 ==> count == 0) && errno.Ok?
          && script == (if old(script) == [] then [] else old(script)[1..])
          && outgoing == old(outgoing) + data[offset..offset + n]
    {
      var most := count;
      if script != [] {
        var call := script[0];
        script := script[1..];
        match call
        case Interrupts => return -1, Eintr;
        case Fails => return -1, Other;
        case Moves(k) =>
          if 0 < k < count { most := k; }
      }
      n := most;
      outgoing := outgoing + data[offset..offset + n];
      errno := Ok;
    }

    /** `write_all_to_socket` */
    method WriteAll(data: seq<Byte>) returns (r: int)
      modifies this
      ensures incoming == old(incoming)
      ensures r == -1 || r == |data|
      ensures r == -1 ==> Fails in old(script)
      ensures r == |data| ==> outgoing == old(outgoing) + data
      ensures forall c | c in script :: c in old(script)
    {
      var total := 0;
      var again := true;
      while again
        invariant 0 <= total <= |data|
        invariant again ==> total < |data| || data == []
        invariant !again ==> total == |data|
        invariant outgoing == old(outgoing) + data[..total] && incoming == old(incoming)
        invariant forall c | c in script :: c in old(script)
        decreases again, |script|, |data| - total
      {
        var n, errno := Write(data, total, |data| - total);
        if n == 0 { return 0; }
        if n == -1 && errno.Eintr? {
        } else {
          if n == -1 { return -1; }
          assert data[..total] + data[total..total + n] == data[..total + n];
          total := total + n;
        }
        again := total < |data|;
      }
      return total;
    }

    /** `send_single_value` */
    method SendValue(v: int) returns (r: int)
      requires Int32(v)
      modifies this
      ensures incoming == old(incoming) && forall c | c in script :: c in old(script)
      ensures r == WORD || (r == -1 && Fails in old(script))
      ensures r == WORD ==> outgoing == old(outgoing) + Be(v)
    {
      r := WriteAll(Be(v));
    }

    /** `transfer` of a slot, or of the final -1. */
    method Transfer(id: int, message: seq<Byte>)
      requires id == -1 || (0 <= id && Int32(id) && |message| == BODY_SIZE)
      modifies this
      ensures incoming == old(incoming)
      ensures Fails !in old(script) ==>
        && Fails !in script
        && outgoing == old(outgoing) + Encode(true, if id == -1 then StopPacket else DataPacket(id, message))
    {
      var r := SendValue(TYPE_DATA);
      r := SendValue(id);
      if id == -1 { return; }
      if r > 0 {
        r := WriteAll(message);
      }
    }

    /** `send_state` */
    method SendState(little: bool, num: int, throttle: seq<Byte>, cpu: seq<Byte>)
      requires Int32(num) && |throttle| == 4 && |cpu| == 8
      modifies this
      ensures incoming == old(incoming)
      ensures Fails !in old(script) ==>
        Fails !in script && outgoing == old(outgoing) + Encode(little, StatePacket(num, throttle, cpu))
    {
      var state := Host(little, num) + throttle + cpu;
      var r := SendValue(TYPE_STATE);
      r := WriteAll(state);
    }
  }
}
