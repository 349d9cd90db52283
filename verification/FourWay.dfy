/**
 The 4-way ESC interface parser (esc_passthrough_consume in src/protocol/esc_passthrough.c):
 frames with a checksum, found byte by byte.
 */
module FourWay {
  import opened Bytes
  import Checksums
  import Crc16

  const LOCAL_ESCAPE: byte := 0x2F
  const EXIT: byte := 0x34

  /** A frame that is carried out, or one whose checksum is wrong. */
  datatype Event = Processed(command: byte, address: nat, payload: seq<byte>) | BadCrc(command: byte, address: nat)

  /** The length byte 0 stands for 256. */
  function PayloadLength(b: byte): (n: nat)
    ensures 1 <= n <= 256
  {
    if b == 0 then 256 else b as nat
  }

  /** Escape, command, address, length, payload, checksum. */
  function Encode(command: byte, address: nat, payload: seq<byte>): (frame: seq<byte>)
    requires address < 65536 && 1 <= |payload| <= 256
    ensures |frame| == 7 + |payload|
  {
    var body := Body(command, address, payload);
    body + [(Crc16.Crc(body) / 256) as byte, (Crc16.Crc(body) % 256) as byte]
  }

  function Body(command: byte, address: nat, payload: seq<byte>): (body: seq<byte>)
    requires address < 65536 && 1 <= |payload| <= 256
    ensures |body| == 5 + |payload|
  {
    [LOCAL_ESCAPE, command, (address / 256) as byte, (address % 256) as byte, (|payload| % 256) as byte] + payload
  }

  predicate Framed(frame: seq<byte>) {
    |frame| >= 8 && frame[0] == LOCAL_ESCAPE && |frame| == 7 + PayloadLength(frame[4])
  }

  function Address(frame: seq<byte>): nat
    requires |frame| >= 4
  {
    frame[2] as nat * 256 + frame[3] as nat
  }

  function Received(frame: seq<byte>): nat
    requires Framed(frame)
  {
    frame[|frame| - 2] as nat * 256 + frame[|frame| - 1] as nat
  }

  /** What the parser does with a whole frame. */
  function EventOf(frame: seq<byte>): Event
    requires Framed(frame)
  {
    if Received(frame) == Crc16.Crc(frame[..|frame| - 2]) then
      Processed(frame[1], Address(frame), frame[5..|frame| - 2])
    else BadCrc(frame[1], Address(frame))
  }

  /** Exactly the encoded frames are carried out, with the command, address and payload encoded. */
  lemma ProcessedIsEncoded(frame: seq<byte>, command: byte, address: nat, payload: seq<byte>)
    requires Framed(frame) && address < 65536 && 1 <= |payload| <= 256
    ensures EventOf(frame) == Processed(command, address, payload) <==> frame == Encode(command, address, payload)
  {
    hide Crc16.Crc;
    var n := |frame| - 2;
    if frame == Encode(command, address, payload) {
      assert frame[..n] == Body(command, address, payload);
      assert frame[5..n] == payload;
    }
    if EventOf(frame) == Processed(command, address, payload) {
      assert frame[..n] == Body(command, address, payload) by {
        assert frame[5..n] == payload;
        Halves(frame[2], frame[3], address);
      }
      Halves(frame[n], frame[n + 1], Crc16.Crc(frame[..n]));
      assert frame == frame[..n] + [frame[n], frame[n + 1]];
    }
  }

  lemma Halves(hi: byte, lo: byte, v: nat)
    requires v == hi as nat * 256 + lo as nat
    ensures v < 65536 && (v / 256) as byte == hi && (v % 256) as byte == lo
  {}

  lemma EncodedIsFramed(command: byte, address: nat, payload: seq<byte>)
    requires address < 65536 && 1 <= |payload| <= 256
    ensures Framed(Encode(command, address, payload))
  {}

  /** One wrong byte, other than the escape and the length: the frame is answered with a checksum
      error, not carried out. */
  lemma CorruptedFrameRefused(frame: seq<byte>, bad: seq<byte>, k: nat)
    requires Framed(frame) && EventOf(frame).Processed? && |bad| == |frame| && 1 <= k < |frame| && k != 4
    requires bad[k] != frame[k] && forall i :: 0 <= i < |frame| && i != k ==> bad[i] == frame[i]
    ensures Framed(bad) && EventOf(bad) == BadCrc(bad[1], Address(bad))
  {
    hide Checksums.Fold, Crc16.Absorb;
    var n := |frame| - 2;
    if k < n {
      Crc16.AbsorbLossless();
      Checksums.SingleByteDetected(Crc16.Absorb, 0, frame[..n], bad[..n], k);
    } else {
      assert frame[..n] == bad[..n];
    }
  }

  // ------------------------------------------------- the stream

  /** Events, whether the interface is still active, and the bytes not used yet. */
  datatype Found = Found(events: seq<Event>, active: bool, rest: seq<byte>)

  predicate Leaves(e: Event) { e.Processed? && e.command == EXIT }

  /** What is pending holds an escape and less than a whole frame. */
  predicate Partial(s: seq<byte>) {
    s != [] ==> s[0] == LOCAL_ESCAPE && (|s| >= 5 ==> |s| < 7 + PayloadLength(s[4]))
  }

  /** The frames of a whole stream; after an exit command the rest belongs to someone else. */
  function Scan(stream: seq<byte>): Found
    decreases |stream|
  {
    if stream == [] then Found([], true, [])
    else if stream[0] != LOCAL_ESCAPE then Scan(stream[1..])
    else if Partial(stream) then Found([], true, stream)
    else
      var n := 7 + PayloadLength(stream[4]);
      var e := EventOf(stream[..n]);
      if Leaves(e) then Found([e], false, stream[n..])
      else
        var f := Scan(stream[n..]);
        Found([e] + f.events, f.active, f.rest)
  }

  /** One byte more. */
  function Push(active: bool, pending: seq<byte>, b: byte): Found {
    var s := pending + [b];
    if !active then Found([], false, s)
    else if pending == [] && b != LOCAL_ESCAPE then Found([], true, [])
    else if Framed(s) then Found([EventOf(s)], !Leaves(EventOf(s)), [])
    else Found([], true, s)
  }

  lemma {:induction false} ScanPartial(stream: seq<byte>)
    ensures Scan(stream).active ==> Partial(Scan(stream).rest)
    decreases |stream|
  {
    if stream != [] && stream[0] != LOCAL_ESCAPE {
      ScanPartial(stream[1..]);
    } else if stream != [] && !Partial(stream) {
      ScanPartial(stream[7 + PayloadLength(stream[4])..]);
    }
  }

  /** The parser, byte by byte, finds the frames of the scan; after a frame it looks for an escape. */
  lemma {:induction false} ScanStep(stream: seq<byte>, b: byte)
    ensures var f := Scan(stream); var p := Push(f.active, f.rest, b);
      Scan(stream + [b]) == Found(f.events + p.events, p.active, p.rest)
    decreases |stream|
  {
    hide EventOf, Leaves;
    var more := stream + [b];
    if stream == [] {
      assert more == [b] && more[1..] == [];
    } else if stream[0] != LOCAL_ESCAPE {
      assert more[1..] == stream[1..] + [b];
      ScanStep(stream[1..], b);
    } else if Partial(stream) {
      if !Partial(more) {
        assert more[..|more|] == more && more[|more|..] == [];
      }
    } else {
      var n := 7 + PayloadLength(stream[4]);
      assert more[..n] == stream[..n] && more[n..] == stream[n..] + [b];
      if !Leaves(EventOf(stream[..n])) { ScanStep(stream[n..], b); }
    }
  }

  /** An encoded frame is carried out wherever the parser is looking for an escape. */
  lemma EncodedProcessed(command: byte, address: nat, payload: seq<byte>, more: seq<byte>)
    requires address < 65536 && 1 <= |payload| <= 256
    ensures var f := Scan(more); var e := Processed(command, address, payload);
      Scan(Encode(command, address, payload) + more) ==
      if command == EXIT then Found([e], false, more) else Found([e] + f.events, f.active, f.rest)
  {
    var frame := Encode(command, address, payload);
    var stream := frame + more;
    EncodedIsFramed(command, address, payload);
    ProcessedIsEncoded(frame, command, address, payload);
    hide Encode, EventOf;
    assert stream[..|frame|] == frame && stream[|frame|..] == more;
  }

  /** Two frames byte for byte: the write of one byte 0x5A to 0x7C00, and the exit.  Numbers are big-endian,
      the checksum is that of the bytes before it, and only the exit ends the session. */
  lemma KnownFrames(more: seq<byte>)
    ensures var c := Crc16.Crc([0x2F, 0x3B, 0x7C, 0x00, 0x01, 0x5A]); var f := Scan(more);
      Scan([0x2F, 0x3B, 0x7C, 0x00, 0x01, 0x5A, (c / 256) as byte, (c % 256) as byte] + more) ==
      Found([Processed(0x3B, 0x7C00, [0x5A])] + f.events, f.active, f.rest)
    ensures var c := Crc16.Crc([0x2F, 0x34, 0x00, 0x00, 0x01, 0x00]);
      Scan([0x2F, 0x34, 0x00, 0x00, 0x01, 0x00, (c / 256) as byte, (c % 256) as byte] + more) ==
      Found([Processed(0x34, 0, [0x00])], false, more)
  {
    KnownEncodings();
    hide Scan, Encode, Crc16.Crc;
    EncodedProcessed(0x3B, 0x7C00, [0x5A], more);
    EncodedProcessed(0x34, 0, [0x00], more);
  }

  lemma KnownEncodings()
    ensures var c := Crc16.Crc([0x2F, 0x3B, 0x7C, 0x00, 0x01, 0x5A]);
      Encode(0x3B, 0x7C00, [0x5A]) == [0x2F, 0x3B, 0x7C, 0x00, 0x01, 0x5A, (c / 256) as byte, (c % 256) as byte]
    ensures var c := Crc16.Crc([0x2F, 0x34, 0x00, 0x00, 0x01, 0x00]);
      Encode(0x34, 0, [0x00]) == [0x2F, 0x34, 0x00, 0x00, 0x01, 0x00, (c / 256) as byte, (c % 256) as byte]
  {
    hide Crc16.Crc;
    assert Body(0x3B, 0x7C00, [0x5A]) == [0x2F, 0x3B, 0x7C, 0x00, 0x01, 0x5A];
    assert Body(0x34, 0, [0x00]) == [0x2F, 0x34, 0x00, 0x00, 0x01, 0x00];
  }

  /** The length byte 0 announces 256 bytes. */
  lemma LongestFrame(command: byte, address: nat, payload: seq<byte>)
    requires address < 65536 && |payload| == 256
    ensures |Encode(command, address, payload)| == 263 && Encode(command, address, payload)[4] == 0
  {}

  // ------------------------------------------------- the parser

  datatype Stage = Escape | Command | AddressHi | AddressLo | Length | Payload | CrcHi | CrcLo

  class Parser {
    var active: bool
    var stage: Stage
    var command: byte
    var addressHi: byte
    var addressLo: byte
    var lengthByte: byte
    var length: nat
    var offset: nat
    var crc: nat
    var receivedHi: byte
    const payload: array<byte>

    /** esc_passthrough_begin: the interface is active and looks for an escape. */
    constructor ()
      ensures Valid() && active && Pending() == [] && fresh(payload)
    {
      active, stage := true, Escape;
      command, addressHi, addressLo, lengthByte, receivedHi := 0, 0, 0, 0, 0;
      length, offset, crc := 0, 0, 0;
      payload := new byte[256](_ => 0);
    }

    ghost predicate Valid()
      reads this, payload
    {
      && payload.Length == 256 && offset <= length <= 256
      && (stage in {Payload, CrcHi, CrcLo} ==>
            length == PayloadLength(lengthByte) &&
            if stage == Payload then offset < length else offset == length)
      && (stage != Escape ==> crc == Crc16.Crc(Covered()))
    }

    /** The bytes under the checksum that have arrived. */
    ghost function Covered(): seq<byte>
      reads this, payload
      requires payload.Length == 256 && offset <= 256
    {
      match stage
      case Escape => []
      case Command => [LOCAL_ESCAPE]
      case AddressHi => [LOCAL_ESCAPE, command]
      case AddressLo => [LOCAL_ESCAPE, command, addressHi]
      case Length => [LOCAL_ESCAPE, command, addressHi, addressLo]
      case _ => [LOCAL_ESCAPE, command, addressHi, addressLo, lengthByte] + payload[..offset]
    }

    /** What has arrived of a frame. */
    ghost function Pending(): seq<byte>
      reads this, payload
      requires Valid()
    {
      if stage == CrcLo then Covered() + [receivedHi] else Covered()
    }

    /** esc_passthrough_consume while the interface is active. */
    method Consume(b: byte) returns (events: seq<Event>)
      requires Valid() && active
      modifies this, payload
      ensures Valid()
      ensures var p := Push(true, old(Pending()), b);
        events == p.events && active == p.active && Pending() == p.rest
    {
      hide Crc16.Absorb, Crc16.Crc, Leaves;
      events := [];
      Crc16.CrcStep(Covered(), b);
      if stage == Escape {
        if b == LOCAL_ESCAPE {
          EmptyCrc();
          assert [] + [b] == [LOCAL_ESCAPE];
          crc := Crc16.Update(0, b);
          stage := Command;
        }
        return;
      }
      if stage == CrcHi {
        receivedHi := b;
        stage := CrcLo;
        NotYet(Pending());
        return;
      }
      if stage == CrcLo {
        Whole(Covered(), receivedHi, b, command, addressHi, addressLo, lengthByte, payload[..offset]);
        var address := addressHi as nat * 256 + addressLo as nat;
        if receivedHi as nat * 256 + b as nat == crc {
          events := [Processed(command, address, payload[..length])];
          if command == EXIT { active := false; }
        } else {
          events := [BadCrc(command, address)];
        }
        LeavesOnExit(events[0]);
        stage := Escape;
        return;
      }
      Short(Covered(), b, stage, length);
      Cover(b);
    }

    /** A byte of the header or of the payload, which the checksum covers. */
    method Cover(b: byte)
      requires Valid() && stage in {Command, AddressHi, AddressLo, Length, Payload}
      modifies this, payload
      ensures Valid() && active == old(active) && Pending() == old(Pending()) + [b]
    {
      hide Crc16.Absorb, Crc16.Crc;
      Crc16.CrcStep(Covered(), b);
      crc := Crc16.Update(crc, b);
      match stage {
        case Command => command, stage := b, AddressHi;
        case AddressHi => addressHi, stage := b, AddressLo;
        case AddressLo => addressLo, stage := b, Length;
        case Length =>
          lengthByte, length, offset, stage := b, PayloadLength(b), 0, Payload;
          assert payload[..0] == [];
        case Payload =>
          payload[offset] := b;
          offset := offset + 1;
          if offset == length { stage := CrcHi; }
      }
      assert Covered() == old(Covered()) + [b];
    }
  }

  lemma EmptyCrc()
    ensures Crc16.Crc([]) == 0
  {}

  lemma NotYet(s: seq<byte>)
    requires |s| >= 5 && |s| < 7 + PayloadLength(s[4])
    ensures !Framed(s)
  {}

  /** Bytes of the header and the payload do not complete a frame. */
  lemma Short(s: seq<byte>, b: byte, stage: Stage, length: nat)
    requires stage in {Command, AddressHi, AddressLo, Length} ==> |s| < 5
    requires stage == Payload ==> |s| >= 5 && length == PayloadLength(s[4]) && |s| < 5 + length
    requires stage in {Command, AddressHi, AddressLo, Length, Payload}
    ensures !Framed(s + [b])
  {}

  lemma LeavesOnExit(e: Event)
    ensures Leaves(e) <==> e.Processed? && e.command == EXIT
  {}

  /** The second checksum byte completes the frame. */
  lemma Whole(s: seq<byte>, hi: byte, lo: byte, command: byte, addressHi: byte, addressLo: byte, lengthByte: byte,
              data: seq<byte>)
    requires s == [LOCAL_ESCAPE, command, addressHi, addressLo, lengthByte] + data && |data| == PayloadLength(lengthByte)
    ensures var frame := s + [hi] + [lo]; var address := addressHi as nat * 256 + addressLo as nat;
      && Framed(frame)
      && EventOf(frame) == if hi as nat * 256 + lo as nat == Crc16.Crc(s) then Processed(command, address, data)
                           else BadCrc(command, address)
  {
    var frame := s + [hi] + [lo];
    assert frame[..|frame| - 2] == s && frame[5..|frame| - 2] == data;
  }
}
