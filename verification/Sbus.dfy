/**
 The receiver's framers (src/drivers/receiver/sbus.c): bytes arrive one by one, in any
 chunks, and the frames found are those of a scan over the whole stream.
 */
module Sbus {
  import opened Bytes
  import Channels
  import Checksums
  import Crc8

  const FRAME := 25
  const SYNC: byte := 0x0F
  const BUFFER := 64

  /** SBUS, CRSF */
  datatype Protocol = SbusProtocol | CrsfProtocol

  // ------------------------------------------------- the offline scan

  predicate Starts(p: Protocol, b: byte) {
    match p case SbusProtocol => b == SYNC case CrsfProtocol => b == 0xC8 || b == 0xEE
  }

  /** The end byte of an SBUS frame. */
  predicate Ends(b: byte) { b == 0 || b % 16 == 4 }

  predicate LengthOk(b: byte) { 2 <= b <= 62 }

  /** Frames found, frames rejected, and what is still incomplete at the end. */
  datatype Found = Found(frames: seq<seq<byte>>, invalid: nat, rest: seq<byte>)

  function After(frame: seq<byte>, f: Found): Found { Found([frame] + f.frames, f.invalid, f.rest) }

  function Rejected(f: Found): Found { f.(invalid := f.invalid + 1) }

  /** A greedy scan: an SBUS stretch of 25 bytes that does not end well is searched again from
      its second byte; a CRSF length out of range costs two bytes. */
  function Scan(p: Protocol, stream: seq<byte>): Found
    decreases |stream|
  {
    if stream == [] then Found([], 0, [])
    else if !Starts(p, stream[0]) then Scan(p, stream[1..])
    else match p
      case SbusProtocol =>
        if |stream| < FRAME then Found([], 0, stream)
        else if Ends(stream[24]) then After(stream[..FRAME], Scan(p, stream[FRAME..]))
        else Rejected(Scan(p, stream[1..]))
      case CrsfProtocol =>
        if |stream| < 2 then Found([], 0, stream)
        else if !LengthOk(stream[1]) then Rejected(Scan(p, stream[2..]))
        else if |stream| < stream[1] as nat + 2 then Found([], 0, stream)
        else After(stream[..stream[1] as nat + 2], Scan(p, stream[stream[1] as nat + 2..]))
  }

  // ------------------------------------------------- one byte at a time

  /** What is left of a rejected stretch: from its next sync byte on. */
  function Resync(s: seq<byte>): (r: seq<byte>)
    ensures |r| <= |s| && (r != [] ==> r[0] == SYNC)
  {
    if s == [] || s[0] == SYNC then s else Resync(s[1..])
  }

  lemma ResyncAt(s: seq<byte>)
    ensures Resync(s) == if s == [] || s[0] == SYNC then s else Resync(s[1..])
  {}

  /** The incomplete frame, one byte later. */
  function Push(p: Protocol, pending: seq<byte>, b: byte): Found {
    var s := pending + [b];
    if pending == [] && !Starts(p, b) then Found([], 0, [])
    else match p
      case SbusProtocol =>
        if |s| != FRAME then Found([], 0, s)
        else if s[0] == SYNC && Ends(s[24]) then Found([s], 0, [])
        else Found([], 1, Resync(s[1..]))
      case CrsfProtocol =>
        if |s| == 2 && !LengthOk(s[1]) then Found([], 1, [])
        else if |s| >= 2 && |s| == s[1] as nat + 2 then Found([s], 0, [])
        else Found([], 0, s)
  }

  /** What can be pending between two bytes. */
  predicate Pending(p: Protocol, s: seq<byte>) {
    s != [] ==>
      && Starts(p, s[0])
      && (p == SbusProtocol ==> |s| < FRAME)
      && (p == CrsfProtocol && |s| >= 2 ==> LengthOk(s[1]) && |s| < s[1] as nat + 2)
  }

  lemma {:induction false} ScanPending(p: Protocol, stream: seq<byte>)
    ensures Pending(p, Scan(p, stream).rest)
    decreases |stream|
  {
    if stream == [] {
    } else if !Starts(p, stream[0]) {
      ScanPending(p, stream[1..]);
    } else if p == SbusProtocol {
      if |stream| >= FRAME {
        ScanPending(p, stream[FRAME..]);
        ScanPending(p, stream[1..]);
      }
    } else if |stream| >= 2 {
      ScanPending(p, stream[2..]);
      if |stream| >= stream[1] as nat + 2 { ScanPending(p, stream[stream[1] as nat + 2..]); }
    }
  }

  /** A scan of less than a frame only looks for a sync byte. */
  lemma {:induction false} ScanShort(s: seq<byte>)
    requires |s| < FRAME
    ensures Scan(SbusProtocol, s) == Found([], 0, Resync(s))
  {
    if s != [] && s[0] != SYNC { ScanShort(s[1..]); }
  }

  function Joined(a: Found, b: Found): Found { Found(a.frames + b.frames, a.invalid + b.invalid, b.rest) }

  lemma JoinLater(frame: seq<byte>, a: Found, x: Found)
    ensures Joined(After(frame, a), x) == After(frame, Joined(a, x))
    ensures Joined(Rejected(a), x) == Rejected(Joined(a, x))
    ensures After(frame, a).rest == a.rest == Rejected(a).rest
  {}

  lemma JoinFirst(s: seq<byte>, x: Found)
    ensures Joined(Found([], 0, s), x) == x
  {}

  /** The scan of one byte more is the scan, continued by that byte. */
  lemma {:induction false} ScanStep(p: Protocol, stream: seq<byte>, b: byte)
    ensures Scan(p, stream + [b]) == Joined(Scan(p, stream), Push(p, Scan(p, stream).rest, b))
    decreases |stream|
  {
    hide Starts, Ends, LengthOk, Resync, Joined, After, Rejected;
    var more := stream + [b];
    if stream == [] {
      assert more == [b] && more[1..] == [];
      FirstStep(p, b);
    } else if !Starts(p, stream[0]) {
      assert more[1..] == stream[1..] + [b];
      ScanStep(p, stream[1..], b);
    } else if p == SbusProtocol {
      if |stream| < FRAME {
        SbusStep(stream, b);
        JoinFirst(stream, Push(p, stream, b));
      } else {
        assert more[1..] == stream[1..] + [b];
        assert more[FRAME..] == stream[FRAME..] + [b] && more[..FRAME] == stream[..FRAME];
        ScanStep(p, stream[1..], b);
        ScanStep(p, stream[FRAME..], b);
        JoinLater(stream[..FRAME], Scan(p, stream[FRAME..]), Push(p, Scan(p, stream[FRAME..]).rest, b));
        JoinLater([], Scan(p, stream[1..]), Push(p, Scan(p, stream[1..]).rest, b));
      }
    } else if |stream| >= 2 && !LengthOk(stream[1]) {
      assert more[2..] == stream[2..] + [b];
      ScanStep(p, stream[2..], b);
      JoinLater([], Scan(p, stream[2..]), Push(p, Scan(p, stream[2..]).rest, b));
    } else if |stream| >= 2 && |stream| >= stream[1] as nat + 2 {
      var n := stream[1] as nat + 2;
      assert more[n..] == stream[n..] + [b] && more[..n] == stream[..n];
      ScanStep(p, stream[n..], b);
      JoinLater(stream[..n], Scan(p, stream[n..]), Push(p, Scan(p, stream[n..]).rest, b));
    } else {
      CrsfStep(stream, b);
      JoinFirst(stream, Push(p, stream, b));
    }
  }

  lemma FirstStep(p: Protocol, b: byte)
    ensures Scan(p, [b]) == Joined(Scan(p, []), Push(p, [], b))
  {
    hide Scan, Push, Joined;
    OneByte(p, [b]);
    PushOne(p, b);
    JoinFirst([], Push(p, [], b));
  }

  lemma PushOne(p: Protocol, b: byte)
    ensures Push(p, [], b) == Found([], 0, if Starts(p, b) then [b] else [])
  {
    hide Starts, Ends, LengthOk, Resync;
    assert [] + [b] == [b];
  }

  lemma OneByte(p: Protocol, s: seq<byte>)
    requires |s| == 1
    ensures Scan(p, s) == Found([], 0, if Starts(p, s[0]) then s else [])
    ensures Scan(p, []) == Found([], 0, [])
  {
    hide Starts, Ends, LengthOk;
    assert s[1..] == [];
  }

  lemma SbusStep(stream: seq<byte>, b: byte)
    requires 0 < |stream| < FRAME && Starts(SbusProtocol, stream[0])
    ensures Scan(SbusProtocol, stream) == Found([], 0, stream)
    ensures Scan(SbusProtocol, stream + [b]) == Push(SbusProtocol, stream, b)
  {
    var more := stream + [b];
    if |more| == FRAME {
      ScanShort(more[1..]);
      assert more[..FRAME] == more && more[FRAME..] == [];
    }
  }

  lemma CrsfStep(stream: seq<byte>, b: byte)
    requires stream != [] && Starts(CrsfProtocol, stream[0])
    requires |stream| >= 2 ==> LengthOk(stream[1]) && |stream| < stream[1] as nat + 2
    ensures Scan(CrsfProtocol, stream) == Found([], 0, stream)
    ensures Scan(CrsfProtocol, stream + [b]) == Push(CrsfProtocol, stream, b)
  {
    var more := stream + [b];
    if |stream| == 1 {
      assert more[2..] == [] && more[1] == b;
    }
    if LengthOk(more[1]) && |more| == more[1] as nat + 2 {
      assert more[..|more|] == more && more[|more|..] == [];
    }
  }

  /** A stretch of bytes handled one by one. */
  function Fed(p: Protocol, pending: seq<byte>, bytes: seq<byte>): Found
    decreases |bytes|
  {
    if bytes == [] then Found([], 0, pending)
    else
      var f := Push(p, pending, bytes[0]);
      Joined(f, Fed(p, f.rest, bytes[1..]))
  }

  /** Handling the stream in two pieces, wherever it is cut, is scanning it as a whole. */
  lemma {:induction false} FedIsScan(p: Protocol, before: seq<byte>, bytes: seq<byte>)
    ensures Scan(p, before + bytes) == Joined(Scan(p, before), Fed(p, Scan(p, before).rest, bytes))
    decreases |bytes|
  {
    hide Scan, Push;
    if bytes == [] {
      assert before + bytes == before;
    } else {
      ScanStep(p, before, bytes[0]);
      FedIsScan(p, before + [bytes[0]], bytes[1..]);
      assert before + bytes == (before + [bytes[0]]) + bytes[1..];
    }
  }

  // ------------------------------------------------- the driver

  function SbusMicroseconds(raw: nat): nat { 880 + (raw * 5 + 4) / 8 }

  function CrsfMicroseconds(raw: nat): nat {
    var r := if raw < 172 then 172 else if raw > 1811 then 1811 else raw;
    988 + ((r - 172) * 1024 + 819) / 1639
  }

  function Scaled(p: Protocol, raw: seq<nat>): (us: seq<nat>)
    ensures |us| == |raw|
  {
    seq(|raw|, i requires 0 <= i < |raw| => if p == SbusProtocol then SbusMicroseconds(raw[i]) else CrsfMicroseconds(raw[i]))
  }

  predicate Checked(frame: seq<byte>) {
    |frame| >= 4 && |frame| == frame[1] as nat + 2 && Crc8.Crc(frame[2..|frame| - 1]) == frame[|frame| - 1]
  }

  /** A frame that reaches the channels: SBUS without its failsafe bit, CRSF channels intact. */
  predicate Carries(p: Protocol, frame: seq<byte>) {
    match p
    case SbusProtocol => |frame| == FRAME && !Bit3(frame[23])
    case CrsfProtocol => Checked(frame) && frame[2] == 0x16 && frame[1] == 24
  }

  predicate Bit3(b: byte) { (b as nat / 8) % 2 == 1 }

  function PayloadOf(p: Protocol, frame: seq<byte>): (payload: seq<byte>)
    requires Carries(p, frame)
    ensures |payload| == 22
  {
    if p == SbusProtocol then frame[1..23] else frame[3..25]
  }

  /** The channels after a frame. */
  function Decoded(p: Protocol, frame: seq<byte>, before: seq<nat>): seq<nat> {
    if Carries(p, frame) then Scaled(p, Channels.Unpacked(PayloadOf(p, frame))) else before
  }

  /** A CRSF frame hit by one wrong byte behind its header carries nothing. */
  lemma CorruptedFrameIgnored(frame: seq<byte>, bad: seq<byte>, k: nat)
    requires Checked(frame) && |bad| == |frame| && 2 <= k < |frame| && bad[k] != frame[k]
    requires forall i :: 0 <= i < |frame| && i != k ==> bad[i] == frame[i]
    ensures !Checked(bad) && !Carries(CrsfProtocol, bad)
  {
    var n := |frame| - 1;
    if k < n {
      Crc8.AbsorbLossless();
      Checksums.SingleByteDetected(Crc8.Absorb, 0, frame[2..n], bad[2..n], k - 2);
    } else {
      assert frame[2..n] == bad[2..n];
    }
  }

  /** The channels a transmitter packs are the channels the receiver hands on. */
  lemma ChannelsArrive(p: Protocol, frame: seq<byte>, channels: seq<nat>, before: seq<nat>)
    requires |channels| == 16 && Channels.DigitsBelow(channels, 2048)
    requires Carries(p, frame) && PayloadOf(p, frame) == Channels.Packed(channels)
    ensures Decoded(p, frame, before) == Scaled(p, channels)
  {
    Channels.UnpackPacked(channels);
  }

  /** From a transmitter's sixteen channels to the craft, SBUS: sync byte, channels, flags, end byte. */
  lemma SbusFrameArrives(channels: seq<nat>, flags: byte, end: byte, before: seq<nat>)
    requires |channels| == 16 && Channels.DigitsBelow(channels, 2048)
    requires end == 0 || end % 16 == 4
    ensures var frame := [0x0F] + Channels.Packed(channels) + [flags, end];
      && Scan(SbusProtocol, frame) == Found([frame], 0, [])
      && Decoded(SbusProtocol, frame, before) ==
           if (flags as nat / 8) % 2 == 1 then before else Scaled(SbusProtocol, channels)
  {
    hide Channels.Packed, Channels.Unpacked, Scaled;
    var frame := [0x0F] + Channels.Packed(channels) + [flags, end];
    assert frame[..25] == frame && frame[25..] == [];
    assert frame[1..23] == Channels.Packed(channels);
    if !Bit3(flags) { ChannelsArrive(SbusProtocol, frame, channels, before); }
  }

  /** And CRSF: address, length 24, type 0x16, channels, and the CRC-8 of type and channels. */
  lemma CrsfFrameArrives(address: byte, channels: seq<nat>, before: seq<nat>)
    requires |channels| == 16 && Channels.DigitsBelow(channels, 2048)
    requires address == 0xC8 || address == 0xEE
    ensures var body := [0x16] + Channels.Packed(channels); var frame := [address, 24] + body + [Crc8.Crc(body)];
      && Scan(CrsfProtocol, frame) == Found([frame], 0, [])
      && Decoded(CrsfProtocol, frame, before) == Scaled(CrsfProtocol, channels)
  {
    hide Channels.Packed, Channels.Unpacked, Scaled, Crc8.Crc;
    var body := [0x16] + Channels.Packed(channels);
    var frame := [address, 24] + body + [Crc8.Crc(body)];
    assert frame[..26] == frame && frame[26..] == [];
    assert frame[2..25] == body && frame[3..25] == Channels.Packed(channels);
    ChannelsArrive(CrsfProtocol, frame, channels, before);
  }

  /** Both scalings are monotone and stay in range. */
  lemma ScaleInRange(p: Protocol, a: nat, b: nat)
    requires a <= b < 2048
    ensures var f := (r: nat) => if p == SbusProtocol then SbusMicroseconds(r) else CrsfMicroseconds(r);
      880 <= f(a) <= f(b) <= 2159
  {}

  /** SBUS: five eighths of a microsecond a step from 880 on, to the nearest microsecond. */
  lemma SbusNearest(raw: nat)
    ensures -4 < 8 * (SbusMicroseconds(raw) - 880) - 5 * raw <= 4
    ensures SbusMicroseconds(192) == 1000 && SbusMicroseconds(992) == 1500 && SbusMicroseconds(1792) == 2000
  {}

  /** CRSF: the steps 172 to 1811 are 988 to 2012 microseconds, to the nearest one, and everything outside
      counts as the end it is beyond. */
  lemma CrsfNearest(raw: nat)
    ensures raw <= 172 ==> CrsfMicroseconds(raw) == 988
    ensures 1811 <= raw ==> CrsfMicroseconds(raw) == 2012
    ensures 172 <= raw <= 1811 ==> -820 <= 1639 * (CrsfMicroseconds(raw) - 988) - 1024 * (raw - 172) <= 819
    ensures CrsfMicroseconds(992) == 1500
  {
    if 172 <= raw <= 1811 {
      var n := (raw - 172) * 1024 + 819;
      assert 1639 * (n / 1639) <= n < 1639 * (n / 1639) + 1639;
    }
  }

  lemma PushPending(p: Protocol, s: seq<byte>, b: byte)
    requires Pending(p, s)
    ensures Pending(p, Push(p, s, b).rest) && |Push(p, s, b).rest| < BUFFER && |s| < BUFFER
  {}
}
