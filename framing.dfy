/** The stream framer of dps150/protocol.py (PacketBuffer): it accumulates received bytes and
    cuts complete frames out of them. It only delimits frames; checksums are not checked here. */
module Framing {
  import opened Base
  import C = Constants
  import P = Protocol

  /** What one extraction pass finds: the frames, where each starts, and where the scan stopped. */
  datatype ScanResult = ScanResult(packets: seq<seq<byte>>, starts: seq<nat>, stop: nat)

  /** The scan of extract_packets from index i onwards. The loop runs only while i < len - 5;
      at a 0xF0 byte whose declared frame overruns the buffer it stops, otherwise it emits the
      frame and jumps past it; any other byte is skipped. */
  function Scan(buf: seq<byte>, i: nat): (r: ScanResult)
    requires i <= |buf|
    ensures |r.packets| == |r.starts| && i <= r.stop <= |buf|
    decreases |buf| - i
  {
    if i < |buf| - 5 then
      if buf[i] == C.HeaderInput then
        var packetLength := 5 + buf[i + 3] as int;
        if i + packetLength > |buf| then ScanResult([], [], i)
        else
          var rest := Scan(buf, i + packetLength);
          ScanResult([buf[i..i + packetLength]] + rest.packets, [i] + rest.starts, rest.stop)
      else Scan(buf, i + 1)
    else ScanResult([], [], i)
  }

  /** The frames one call to extract_packets returns for buffer contents buf. */
  function FramesOf(buf: seq<byte>): seq<seq<byte>> {
    Scan(buf, 0).packets
  }

  /** What the buffer holds after that call: the bytes from the stop index on, or everything
      when no frame was found. */
  function Remainder(buf: seq<byte>): seq<byte> {
    var r := Scan(buf, 0);
    if r.packets == [] then buf else buf[r.stop..]
  }

  /** A slice that looks like an inbound frame: header 0xF0 and length 5 + declared length. */
  predicate IsInboundFrame(f: seq<byte>) {
    |f| >= 5 && f[0] == C.HeaderInput && |f| == 5 + f[3] as int
  }

  class PacketBuffer {
    var buffer: seq<byte>

    constructor ()
      ensures buffer == []
    {
      buffer := [];
    }

    /** append: extends the buffer by exactly the received bytes. */
    method Append(data: seq<byte>)
      modifies this
      ensures buffer == old(buffer) + data
    {
      buffer := buffer + data;
    }

    /** clear: empties the buffer. */
    method Clear()
      modifies this
      ensures buffer == []
    {
      buffer := [];
    }

    /** extract_packets: returns the complete frames in order and drops everything before the
        stop index, but only when at least one frame was found. */
    method ExtractPackets() returns (packets: seq<seq<byte>>)
      modifies this
      ensures packets == FramesOf(old(buffer))
      ensures buffer == Remainder(old(buffer))
    {
      packets := [];
      ghost var starts: seq<nat> := [];
      var i := 0;
      while i < |buffer| - 5
        invariant i <= |buffer|
        invariant Scan(buffer, 0) == ScanResult(packets + Scan(buffer, i).packets, starts + Scan(buffer, i).starts, Scan(buffer, i).stop)
        decreases |buffer| - i
      {
        if buffer[i] == C.HeaderInput {
          // The guard already keeps i + 3 inside the buffer, so the "no length byte yet" exit never fires.
          if i + 3 >= |buffer| {
            break;
          }
          var length := buffer[i + 3];
          var packetLength := 5 + length as int;
          if i + packetLength > |buffer| {
            break;
          }
          packets := packets + [buffer[i..i + packetLength]];
          starts := starts + [i];
          i := i + packetLength;
        } else {
          i := i + 1;
        }
      }
      if |packets| > 0 {
        buffer := buffer[i..];
      }
    }
  }

  /** The frame p sits in buf at index start: it is the slice there, it starts with 0xF0 and its
      length is 5 plus its declared payload length. */
  ghost predicate FrameAt(buf: seq<byte>, start: nat, p: seq<byte>) {
    IsInboundFrame(p) && start + |p| <= |buf| && p == buf[start..start + |p|]
  }

  /** Each frame of r sits in buf, between index i and r's stop index. */
  ghost predicate FramesWithin(buf: seq<byte>, r: ScanResult, i: nat)
    requires |r.packets| == |r.starts|
  {
    forall k :: 0 <= k < |r.packets| ==>
      FrameAt(buf, r.starts[k], r.packets[k]) && i <= r.starts[k] && r.starts[k] + |r.packets[k]| <= r.stop
  }

  /** Every frame the scan returns is an inbound-looking slice of the buffer, found at or after
      the scan start and ending at or before the stop index. */
  lemma {:induction false} ScanFramesAreSlices(buf: seq<byte>, i: nat)
    requires i <= |buf|
    ensures FramesWithin(buf, Scan(buf, i), i)
    decreases |buf| - i
  {
    if i < |buf| - 5 {
      if buf[i] == C.HeaderInput {
        var packetLength := 5 + buf[i + 3] as int;
        if i + packetLength <= |buf| {
          ScanFramesAreSlices(buf, i + packetLength);
          var rest := Scan(buf, i + packetLength);
          var r := Scan(buf, i);
          assert r == ScanResult([buf[i..i + packetLength]] + rest.packets, [i] + rest.starts, rest.stop);
          forall k | 0 <= k < |r.packets|
            ensures FrameAt(buf, r.starts[k], r.packets[k]) && i <= r.starts[k] && r.starts[k] + |r.packets[k]| <= r.stop
          {
            if k == 0 {
              assert r.packets[0] == buf[i..i + packetLength] && r.starts[0] == i;
              assert r.packets[0][0] == buf[i] && r.packets[0][3] == buf[i + 3];
            } else {
              assert r.starts[k] == rest.starts[k - 1] && r.packets[k] == rest.packets[k - 1];
            }
          }
        }
      } else {
        assert Scan(buf, i) == Scan(buf, i + 1);
        ScanFramesAreSlices(buf, i + 1);
      }
    }
  }

  /** The frames of r follow each other without overlapping. */
  ghost predicate InOrder(r: ScanResult)
    requires |r.packets| == |r.starts|
  {
    forall k :: 0 <= k < |r.packets| - 1 ==> r.starts[k] + |r.packets[k]| <= r.starts[k + 1]
  }

  /** The returned frames are in buffer order and do not overlap. */
  lemma {:induction false} ScanFramesInOrder(buf: seq<byte>, i: nat)
    requires i <= |buf|
    ensures InOrder(Scan(buf, i))
    decreases |buf| - i
  {
    if i < |buf| - 5 {
      if buf[i] == C.HeaderInput {
        var packetLength := 5 + buf[i + 3] as int;
        if i + packetLength <= |buf| {
          ScanFramesInOrder(buf, i + packetLength);
          ScanFramesAreSlices(buf, i + packetLength);
          var rest := Scan(buf, i + packetLength);
          var r := Scan(buf, i);
          assert r == ScanResult([buf[i..i + packetLength]] + rest.packets, [i] + rest.starts, rest.stop);
          forall k | 0 <= k < |r.packets| - 1
            ensures r.starts[k] + |r.packets[k]| <= r.starts[k + 1]
          {
            assert r.starts[k + 1] == rest.starts[k];
            if k == 0 {
              assert FrameAt(buf, rest.starts[0], rest.packets[0]);
            } else {
              assert r.starts[k] == rest.starts[k - 1] && r.packets[k] == rest.packets[k - 1];
            }
          }
        }
      } else {
        assert Scan(buf, i) == Scan(buf, i + 1);
        ScanFramesInOrder(buf, i + 1);
      }
    }
  }

  /** The scan stops early only at a 0xF0 byte whose declared frame overruns the buffer; that
      candidate is then the first byte of what the buffer keeps. */
  lemma {:induction false} ScanStopsAtOverrun(buf: seq<byte>, i: nat)
    requires i <= |buf|
    ensures var r := Scan(buf, i);
      r.stop < |buf| - 5 ==> buf[r.stop] == C.HeaderInput && r.stop + 5 + buf[r.stop + 3] as int > |buf|
    decreases |buf| - i
  {
    if i < |buf| - 5 {
      if buf[i] == C.HeaderInput {
        var packetLength := 5 + buf[i + 3] as int;
        if i + packetLength <= |buf| {
          ScanStopsAtOverrun(buf, i + packetLength);
        }
      } else {
        ScanStopsAtOverrun(buf, i + 1);
      }
    }
  }

  /** Resynchronisation: a 0xF0 byte that the scan passed over without emitting a frame from it
      does not exist — every 0xF0 between the scan start and the stop index lies inside an emitted frame. */
  lemma {:induction false} SkippedBytesAreNoise(buf: seq<byte>, i: nat, j: nat)
    requires i <= |buf| && i <= j < Scan(buf, i).stop && buf[j] == C.HeaderInput
    ensures exists k :: 0 <= k < |Scan(buf, i).starts| &&
              Scan(buf, i).starts[k] <= j < Scan(buf, i).starts[k] + |Scan(buf, i).packets[k]|
    decreases |buf| - i
  {
    var r := Scan(buf, i);
    assert i < |buf| - 5;
    if buf[i] == C.HeaderInput {
      var packetLength := 5 + buf[i + 3] as int;
      if j < i + packetLength {
        assert r.starts[0] == i && |r.packets[0]| == packetLength;
      } else {
        SkippedBytesAreNoise(buf, i + packetLength, j);
        var rest := Scan(buf, i + packetLength);
        var k :| 0 <= k < |rest.starts| && rest.starts[k] <= j < rest.starts[k] + |rest.packets[k]|;
        assert r.starts[k + 1] == rest.starts[k] && r.packets[k + 1] == rest.packets[k];
      }
    } else {
      SkippedBytesAreNoise(buf, i + 1, j);
    }
  }

  /** Back-to-back frames. */
  function Concat(frames: seq<seq<byte>>): seq<byte> {
    if frames == [] then [] else frames[0] + Concat(frames[1..])
  }

  /** A stream of back-to-back inbound frames is cut exactly at the frame boundaries, provided the
      last frame carries a payload (a zero-payload frame at the very end is held back, see below). */
  lemma {:induction false} ScanOfFrames(buf: seq<byte>, i: nat, frames: seq<seq<byte>>)
    requires i <= |buf| && buf[i..] == Concat(frames)
    requires forall k :: 0 <= k < |frames| ==> IsInboundFrame(frames[k])
    requires frames != [] ==> |frames[|frames| - 1]| > 5
    ensures Scan(buf, i).packets == frames && Scan(buf, i).stop == |buf|
    decreases |frames|
  {
    if frames != [] {
      var f := frames[0];
      FrontFrame(buf, i, frames);
      ScanAtFrame(buf, i);
      ScanOfFrames(buf, i + |f|, frames[1..]);
      assert frames == [f] + frames[1..];
    } else {
      assert |buf| - i == 0;
    }
  }

  /** One step of the scan at a complete frame: the frame is emitted and the scan goes on after it. */
  lemma ScanAtFrame(buf: seq<byte>, i: nat)
    requires i < |buf| - 5 && buf[i] == C.HeaderInput && i + 5 + buf[i + 3] as int <= |buf|
    ensures var n := 5 + buf[i + 3] as int;
      Scan(buf, i) == ScanResult([buf[i..i + n]] + Scan(buf, i + n).packets, [i] + Scan(buf, i + n).starts, Scan(buf, i + n).stop)
  {
  }

  /** The first of a run of back-to-back frames is found where the scan stands, and the run of the
      others follows it. */
  lemma FrontFrame(buf: seq<byte>, i: nat, frames: seq<seq<byte>>)
    requires i <= |buf| && buf[i..] == Concat(frames) && frames != []
    requires forall k :: 0 <= k < |frames| ==> IsInboundFrame(frames[k])
    requires |frames[|frames| - 1]| > 5
    ensures i + |frames[0]| <= |buf| && i < |buf| - 5
    ensures buf[i] == C.HeaderInput && 5 + buf[i + 3] as int == |frames[0]|
    ensures buf[i..i + |frames[0]|] == frames[0] && buf[i + |frames[0]|..] == Concat(frames[1..])
  {
    var f := frames[0];
    var rest := Concat(frames[1..]);
    assert buf[i..] == f + rest;
    assert IsInboundFrame(f);
    assert buf[i..i + |f|] == f by {
      assert buf[i..i + |f|] == buf[i..][..|f|];
    }
    assert buf[i + |f|..] == rest by {
      assert buf[i + |f|..] == buf[i..][|f|..];
    }
    if |frames| > 1 {
      assert rest == frames[1] + Concat(frames[2..]);
      assert IsInboundFrame(frames[1]);
    }
    assert buf[i] == f[0] && buf[i + 3] == f[3];
  }

  /** A proper prefix of an inbound frame yields nothing, so the buffer keeps it unchanged. */
  lemma PrefixOfFrameYieldsNothing(f: seq<byte>, n: nat)
    requires IsInboundFrame(f) && n < |f|
    ensures FramesOf(f[..n]) == [] && Remainder(f[..n]) == f[..n]
  {
  }

  /** Quirk of the loop guard i < len - 5: a 5-byte frame with empty payload alone in the buffer
      is not emitted; it comes out once one more byte has arrived. */
  lemma LoneEmptyFrameHeldBack(command: byte, typeCode: byte, next: byte)
    ensures FramesOf(P.Frame(C.HeaderInput, command, typeCode, [])) == []
    ensures FramesOf(P.Frame(C.HeaderInput, command, typeCode, []) + [next]) == [P.Frame(C.HeaderInput, command, typeCode, [])]
  {
    var f := P.Frame(C.HeaderInput, command, typeCode, []);
    var g := f + [next];
    assert g[0] == C.HeaderInput && g[3] == 0;
    assert g[0..5] == f;
    assert Scan(g, 0) == ScanResult([f] + Scan(g, 5).packets, [0] + Scan(g, 5).starts, Scan(g, 5).stop);
  }

  /** A frame delivered in two pieces: the first extraction returns nothing and leaves the piece in
      the buffer; after the rest arrives, exactly that frame comes out and the buffer is empty. */
  lemma FrameInTwoPieces(f: seq<byte>, n: nat)
    requires IsInboundFrame(f) && |f| > 5 && n < |f|
    ensures FramesOf(f[..n]) == [] && Remainder(f[..n]) == f[..n]
    ensures FramesOf(Remainder(f[..n]) + f[n..]) == [f] && Remainder(Remainder(f[..n]) + f[n..]) == []
  {
    PrefixOfFrameYieldsNothing(f, n);
    assert f[..n] + f[n..] == f;
    assert Concat([f]) == f;
    ScanOfFrames(f, 0, [f]);
  }
}
