/**
 MSP v1 and v2 frames on the HDZero link: the sender enqueue_packet with its ring
 (src/drivers/osd/msp_displayport.c) and the parser hdzero_receive
 (src/drivers/osd/hdzero_msp.h).
 */
module HdzeroMsp {
  import opened Bytes
  import opened Checksums
  import Crc8

  const DOLLAR: byte := 0x24
  const M: byte := 0x4D
  const X: byte := 0x58
  const TO_TARGET: byte := 0x3C    // '<'
  const MAX_PAYLOAD := 64
  const GAP_US := 100_000

  // ------------------------------------------------- frames

  function XorAll(data: seq<byte>): byte { Fold(Xor, 0, data) }

  /** The running checksum of either version. */
  function Sum(v2: bool, data: seq<byte>): byte { if v2 then Crc8.Crc(data) else XorAll(data) }

  function SumStep(v2: bool, sum: byte, b: byte): byte { if v2 then Crc8.Absorb(sum, b) else Xor(sum, b) }

  lemma SumOf(v2: bool, data: seq<byte>, b: byte)
    ensures Sum(v2, []) == 0 && Sum(v2, data + [b]) == SumStep(v2, Sum(v2, data), b)
  {
    hide Crc8.Absorb, Xor, Fold;
    FoldStep(Crc8.Absorb, 0, data, b);
    FoldStep(Xor, 0, data, b);
  }

  function Header(v2: bool, flags: byte, command: nat, length: nat): seq<byte>
    requires command < 65536 && length < 65536
  {
    if v2 then [flags, (command % 256) as byte, (command / 256) as byte, (length % 256) as byte, (length / 256) as byte]
    else [(length % 256) as byte, (command % 256) as byte]
  }

  /** What enqueue_packet puts on the wire; a v1 frame has no flags and one command byte. */
  function Encode(v2: bool, direction: byte, flags: byte, command: nat, payload: seq<byte>): (frame: seq<byte>)
    requires command < 65536 && |payload| < 256
    ensures |frame| == |payload| + if v2 then 9 else 6
  {
    var body := Header(v2, flags, command, |payload|) + payload;
    [DOLLAR, if v2 then X else M, direction] + body + [Sum(v2, body)]
  }

  datatype Request = Request(v2: bool, command: nat, payload: seq<byte>)

  function HeaderBytes(v2: bool): nat { if v2 then 5 else 2 }

  predicate Headed(s: seq<byte>) {
    |s| >= 3 && s[0] == DOLLAR && (s[1] == M || s[1] == X) && s[2] == TO_TARGET && |s| >= 3 + HeaderBytes(s[1] == X)
  }

  function Command(s: seq<byte>): nat
    requires Headed(s)
  {
    if s[1] == X then s[4] as nat + 256 * s[5] as nat else s[4] as nat
  }

  function Length(s: seq<byte>): nat
    requires Headed(s)
  {
    if s[1] == X then s[6] as nat + 256 * s[7] as nat else s[3] as nat
  }

  /** The bytes of the frame that `s` begins, its checksum included. */
  function Total(s: seq<byte>): nat
    requires Headed(s)
  {
    3 + HeaderBytes(s[1] == X) + Length(s) + 1
  }

  predicate Framed(s: seq<byte>) { Headed(s) && |s| == Total(s) }

  /** A frame that is acted on: not oversized, the checksum right. */
  function RequestsOf(s: seq<byte>): seq<Request>
    requires Framed(s)
  {
    var n := |s| - 1;
    if Length(s) <= MAX_PAYLOAD && s[n] == Sum(s[1] == X, s[3..n]) then
      [Request(s[1] == X, Command(s), s[3 + HeaderBytes(s[1] == X)..n])]
    else []
  }

  /** Exactly the frames of the encoder are acted on, with their command and payload; v2 flags are ignored. */
  lemma ActedOnIsEncoded(s: seq<byte>, v2: bool, command: nat, payload: seq<byte>)
    requires Framed(s) && |payload| <= MAX_PAYLOAD && command < if v2 then 65536 else 256
    ensures RequestsOf(s) == [Request(v2, command, payload)] <==> s == Encode(v2, TO_TARGET, s[3], command, payload)
  {
    hide Encode, RequestsOf;
    if s == Encode(v2, TO_TARGET, s[3], command, payload) { EncodedGives(s, v2, command, payload); }
    if RequestsOf(s) == [Request(v2, command, payload)] { GivesEncoded(s, v2, command, payload); }
  }

  lemma EncodedGives(s: seq<byte>, v2: bool, command: nat, payload: seq<byte>)
    requires Framed(s) && |payload| <= MAX_PAYLOAD && command < if v2 then 65536 else 256
    requires s == Encode(v2, TO_TARGET, s[3], command, payload)
    ensures RequestsOf(s) == [Request(v2, command, payload)]
  {
    hide Sum;
    var n, h := |s| - 1, 3 + HeaderBytes(s[1] == X);
    assert s[3..n] == Header(v2, s[3], command, |payload|) + payload;
    assert s[h..n] == payload;
  }

  lemma GivesEncoded(s: seq<byte>, v2: bool, command: nat, payload: seq<byte>)
    requires Framed(s) && |payload| <= MAX_PAYLOAD && command < if v2 then 65536 else 256
    requires RequestsOf(s) == [Request(v2, command, payload)]
    ensures s == Encode(v2, TO_TARGET, s[3], command, payload)
  {
    hide Sum;
    var n, h := |s| - 1, 3 + HeaderBytes(s[1] == X);
    HeaderBack(s);
    assert s[3..n] == Header(v2, s[3], command, |payload|) + payload;
    assert s == [DOLLAR, s[1], TO_TARGET] + s[3..n] + [s[n]];
  }

  lemma HeaderBack(s: seq<byte>)
    requires Headed(s)
    ensures Command(s) < 65536 && Length(s) < 65536
    ensures s[3..3 + HeaderBytes(s[1] == X)] == Header(s[1] == X, s[3], Command(s), Length(s))
  {}

  lemma EncodedIsFramed(v2: bool, flags: byte, command: nat, payload: seq<byte>)
    requires command < 65536 && |payload| < 256
    ensures Framed(Encode(v2, TO_TARGET, flags, command, payload))
  {
    hide Crc8.Crc, XorAll;
  }

  // ------------------------------------------------- the stream

  datatype Found = Found(requests: seq<Request>, rest: seq<byte>)

  /** The requests in a stream: a frame that is not for the target, damaged or oversized is
      passed over, an oversized one with everything in it. */
  function Scan(s: seq<byte>): Found
    decreases |s|
  {
    if s == [] then Found([], [])
    else if s[0] != DOLLAR then Scan(s[1..])
    else if |s| < 2 then Found([], s)
    else if s[1] == DOLLAR then Scan(s[1..])
    else if s[1] != M && s[1] != X then Scan(s[2..])
    else if |s| < 3 then Found([], s)
    else if s[2] != TO_TARGET then Scan(s[3..])
    else if |s| < 3 + HeaderBytes(s[1] == X) || |s| < Total(s) then Found([], s)
    else
      var f := Scan(s[Total(s)..]);
      Found(RequestsOf(s[..Total(s)]) + f.requests, f.rest)
  }

  /** One byte more. */
  function Push(pending: seq<byte>, b: byte): Found {
    var s := pending + [b];
    if |s| == 1 && b != DOLLAR then Found([], [])
    else if |s| == 2 && b == DOLLAR then Found([], [DOLLAR])
    else if |s| == 2 && b != M && b != X then Found([], [])
    else if |s| == 3 && b != TO_TARGET then Found([], [])
    else if Framed(s) then Found(RequestsOf(s), [])
    else Found([], s)
  }

  /** The parser, byte by byte, acts on the requests of the scan. */
  lemma {:induction false} ScanStep(s: seq<byte>, b: byte)
    ensures var f := Scan(s); var p := Push(f.rest, b); Scan(s + [b]) == Found(f.requests + p.requests, p.rest)
    decreases |s|
  {
    hide RequestsOf;
    var more := s + [b];
    if s == [] {
      assert more == [b] && more[1..] == [];
    } else if s[0] != DOLLAR {
      assert more[1..] == s[1..] + [b];
      ScanStep(s[1..], b);
    } else if |s| < 2 {
      assert more[1..] == [b] && more[2..] == [] && more[1] == b && more[0] == DOLLAR;
      Single(b);
    } else if s[1] == DOLLAR {
      assert more[1..] == s[1..] + [b];
      ScanStep(s[1..], b);
    } else if s[1] != M && s[1] != X {
      assert more[2..] == s[2..] + [b];
      ScanStep(s[2..], b);
    } else if |s| < 3 {
      assert more[3..] == [] && more[2] == b;
      Unfinished(more);
    } else if s[2] != TO_TARGET {
      assert more[3..] == s[3..] + [b];
      ScanStep(s[3..], b);
    } else if Complete(s) {
      ScanStep(s[Total(s)..], b);
      CompleteStep(s, b);
    } else {
      PartStep(s, b);
    }
  }

  lemma Single(b: byte)
    ensures b == DOLLAR ==> Scan([b]) == Found([], [DOLLAR])
    ensures Scan([]) == Found([], [])
  {}

  lemma Unfinished(s: seq<byte>)
    requires |s| == 3
    ensures !Framed(s)
  {}

  /** A stream that begins with a frame for the target. */
  predicate Begun(s: seq<byte>) {
    |s| >= 3 && s[0] == DOLLAR && (s[1] == M || s[1] == X) && s[2] == TO_TARGET
  }

  predicate Complete(s: seq<byte>) { Headed(s) && |s| >= Total(s) }

  lemma ScanComplete(s: seq<byte>)
    requires Complete(s)
    ensures Scan(s) ==
      Found(RequestsOf(s[..Total(s)]) + Scan(s[Total(s)..]).requests, Scan(s[Total(s)..]).rest)
  {
    hide RequestsOf;
  }

  lemma ScanPart(s: seq<byte>)
    requires Begun(s) && !Complete(s)
    ensures Scan(s) == Found([], s)
  {}

  lemma CompleteStep(s: seq<byte>, b: byte)
    requires Complete(s)
    requires var rest := s[Total(s)..]; var f := Scan(rest); var p := Push(f.rest, b);
      Scan(rest + [b]) == Found(f.requests + p.requests, p.rest)
    ensures var f := Scan(s); var p := Push(f.rest, b); Scan(s + [b]) == Found(f.requests + p.requests, p.rest)
  {
    hide RequestsOf, Scan, Push;
    var more := s + [b];
    assert more[Total(s)..] == s[Total(s)..] + [b] && more[..Total(s)] == s[..Total(s)] && Total(more) == Total(s);
    ScanComplete(s);
    ScanComplete(more);
  }

  lemma PartStep(s: seq<byte>, b: byte)
    requires Begun(s) && !Complete(s)
    ensures var f := Scan(s); var p := Push(f.rest, b); Scan(s + [b]) == Found(f.requests + p.requests, p.rest)
  {
    hide RequestsOf, Scan;
    var more := s + [b];
    ScanPart(s);
    NearlyThere(s, b);
    if Complete(more) {
      assert more[..Total(more)] == more && more[Total(more)..] == [];
      ScanComplete(more);
      Single(b);
    } else {
      ScanPart(more);
    }
  }

  lemma NearlyThere(s: seq<byte>, b: byte)
    requires Begun(s) && !Complete(s)
    ensures Begun(s + [b]) && (Complete(s + [b]) <==> Framed(s + [b]))
  {}

  /** Nothing inside an oversized frame is acted on: the parser goes on right behind it. */
  lemma OversizedSkipped(frame: seq<byte>, more: seq<byte>)
    requires Framed(frame) && Length(frame) > MAX_PAYLOAD
    ensures Scan(frame + more) == Scan(more)
    ensures |frame| == 3 + HeaderBytes(frame[1] == X) + Length(frame) + 1
  {
    var s := frame + more;
    assert s[..|frame|] == frame && s[|frame|..] == more && Total(s) == |frame|;
    ScanComplete(s);
  }

  /** An encoded request is acted on wherever it stands between frames. */
  lemma EncodedActedOn(v2: bool, flags: byte, command: nat, payload: seq<byte>, more: seq<byte>)
    requires |payload| <= MAX_PAYLOAD && command < if v2 then 65536 else 256
    ensures Scan(Encode(v2, TO_TARGET, flags, command, payload) + more) ==
      Found([Request(v2, command, payload)] + Scan(more).requests, Scan(more).rest)
  {
    var frame := Encode(v2, TO_TARGET, flags, command, payload);
    var s := frame + more;
    EncodedIsFramed(v2, flags, command, payload);
    FlagsKept(v2, flags, command, payload);
    ActedOnIsEncoded(frame, v2, command, payload);
    hide Encode, RequestsOf;
    assert s[..|frame|] == frame && s[|frame|..] == more && Total(s) == |frame|;
    ScanComplete(s);
  }

  lemma FlagsKept(v2: bool, flags: byte, command: nat, payload: seq<byte>)
    requires |payload| <= MAX_PAYLOAD && command < if v2 then 65536 else 256
    ensures var frame := Encode(v2, TO_TARGET, flags, command, payload);
      frame == Encode(v2, TO_TARGET, frame[3], command, payload)
  {
    hide Crc8.Crc, XorAll;
  }

  /** Requests byte for byte: "$M<" with length before command, and "$X<" with flags, command and length,
      low byte first.  The sum of a v1 frame is the exclusive or of what stands between. */
  lemma KnownFrames(more: seq<byte>)
    ensures Scan([0x24, 0x4D, 0x3C, 0x01, 0x65, 0x07, 0x63] + more) ==
      Found([Request(false, 0x65, [0x07])] + Scan(more).requests, Scan(more).rest)
    ensures var c := Crc8.Crc([0x00, 0x02, 0x30, 0x01, 0x00, 0x07]);
      Scan([0x24, 0x58, 0x3C, 0x00, 0x02, 0x30, 0x01, 0x00, 0x07, c] + more) ==
      Found([Request(true, 0x3002, [0x07])] + Scan(more).requests, Scan(more).rest)
  {
    KnownEncodings();
    hide Crc8.Crc, Encode, Scan;
    EncodedActedOn(false, 0, 0x65, [0x07], more);
    EncodedActedOn(true, 0, 0x3002, [0x07], more);
  }

  lemma KnownEncodings()
    ensures Encode(false, 0x3C, 0, 0x65, [0x07]) == [0x24, 0x4D, 0x3C, 0x01, 0x65, 0x07, 0x63]
    ensures Encode(true, 0x3C, 0, 0x3002, [0x07]) ==
      [0x24, 0x58, 0x3C, 0x00, 0x02, 0x30, 0x01, 0x00, 0x07, Crc8.Crc([0x00, 0x02, 0x30, 0x01, 0x00, 0x07])]
  {
    hide Crc8.Crc;
    assert Header(false, 0, 0x65, 1) + [0x07] == [0x01, 0x65, 0x07];
    assert Header(true, 0, 0x3002, 1) + [0x07] == [0x00, 0x02, 0x30, 0x01, 0x00, 0x07];
    KnownSum();
  }

  lemma KnownSum()
    ensures XorAll([0x01, 0x65, 0x07]) == 0x63
  {
    FoldStep(Xor, 0, [], 0x01);
    FoldStep(Xor, 0, [0x01], 0x65);
    FoldStep(Xor, 0, [0x01, 0x65], 0x07);
    assert [] + [0x01 as byte] == [0x01] && [0x01] + [0x65 as byte] == [0x01, 0x65] &&
      [0x01, 0x65] + [0x07 as byte] == [0x01, 0x65, 0x07];
    hide Fold, Xor;
    KnownXors();
  }

  lemma KnownXors()
    ensures Xor(0, 0x01) == 0x01 && Xor(0x01, 0x65) == 0x64 && Xor(0x64, 0x07) == 0x63
  {
    KnownNibbles();
    hide Ones;
    assert XorBits(0, 1, 8) == 2 * (2 * (2 * (2 * XorBits(0, 0, 4)))) + 1;
    assert XorBits(0x01, 0x65, 8) == 2 * (2 * (2 * (2 * XorBits(0, 6, 4)))) + 4;
    assert XorBits(0x64, 0x07, 8) == 2 * (2 * (2 * (2 * XorBits(6, 0, 4)))) + 3;
  }

  lemma KnownNibbles()
    ensures XorBits(0, 0, 4) == 0 && XorBits(0, 6, 4) == 6 && XorBits(6, 0, 4) == 6
  {}

  /** Payloads of up to 64 bytes are acted on, longer ones are passed over. */
  lemma LongestPayload(frame: seq<byte>)
    requires Framed(frame)
    ensures Length(frame) > 64 ==> RequestsOf(frame) == []
    ensures Length(frame) <= 64 ==> |RequestsOf(frame)| == if frame[|frame| - 1] == Sum(frame[1] == X, frame[3..|frame| - 1]) then 1 else 0
  {
    hide Sum;
  }

  // ------------------------------------------------- the parser

  class Parser {
    var state: nat
    var position: nat
    var checksum: byte
    const header: array<byte>
    const payload: array<byte>
    var command: nat
    var length: nat
    var v2: bool
    var lastByteUs: nat
    ghost var skipped: seq<byte>   // an oversized frame so far

    constructor (now: nat)
      ensures Valid() && Pending() == [] && fresh(header) && fresh(payload)
    {
      header := new byte[5](_ => 0);
      payload := new byte[MAX_PAYLOAD](_ => 0);
      state, position, checksum, command, length, v2, lastByteUs := 0, 0, 0, 0, 0, false, now;
      skipped := [];
    }

    ghost predicate Valid()
      reads this, header, payload
    {
      && header.Length == 5 && payload.Length == MAX_PAYLOAD && state <= 6
      && (state == 3 ==> position < HeaderBytes(v2))
      && (state in {4, 5} ==> position <= length <= MAX_PAYLOAD && if state == 4 then position < length else position == length)
      && (3 <= state <= 5 ==> checksum == Sum(v2, Covered()))
      && (state in {4, 5} ==> HeadedBy(Start() + Covered()))
      && (state == 6 ==> Headed(skipped) && Length(skipped) > MAX_PAYLOAD && |skipped| + length + 1 == Total(skipped))
    }

    ghost predicate HeadedBy(s: seq<byte>)
      reads this
    {
      Headed(s) && Command(s) == command && Length(s) == length
    }

    ghost function Start(): seq<byte>
      reads this
    {
      [DOLLAR, if v2 then X else M, TO_TARGET]
    }

    /** The bytes under the checksum. */
    ghost function Covered(): seq<byte>
      reads this, header, payload
      requires header.Length == 5 && payload.Length == MAX_PAYLOAD
      requires position <= if state == 3 then 5 else MAX_PAYLOAD
    {
      if state == 3 then header[..position] else header[..HeaderBytes(v2)] + payload[..position]
    }

    ghost function Pending(): seq<byte>
      reads this, header, payload
      requires Valid()
    {
      match state
      case 0 => []
      case 1 => [DOLLAR]
      case 2 => [DOLLAR, if v2 then X else M]
      case 6 => skipped
      case _ => Start() + Covered()
    }

    /** hdzero_receive: a pause of more than 100 ms drops what is pending. */
    method Receive(b: byte, now: nat) returns (requests: seq<Request>)
      requires Valid()
      modifies this, header, payload
      ensures Valid() && lastByteUs == now
      ensures var before := if Sub32(now, old(lastByteUs)) > 100_000 then [] else old(Pending());
        requests == Push(before, b).requests && Pending() == Push(before, b).rest
    {
      hide Sum, SumStep, RequestsOf;
      requests := [];
      if Sub32(now, lastByteUs) > GAP_US { state := 0; }
      lastByteUs := now;
      if state < 3 {
        match state {
          case 0 => if b == DOLLAR { state := 1; }
          case 1 =>
            v2 := b == X;
            state := if b == M || b == X then 2 else if b == DOLLAR then 1 else 0;
          case 2 =>
            state := if b == TO_TARGET then 3 else 0;
            position, checksum := 0, 0;
            SumOf(v2, [], 0);
            assert header[..0] == [];
        }
      } else if state == 3 {
        requests := HeaderByte(b);
      } else if state == 4 {
        requests := PayloadByte(b);
      } else if state == 5 {
        requests := Finish(b);
      } else {
        requests := Skip(b);
      }
    }

    method HeaderByte(b: byte) returns (requests: seq<Request>)
      requires Valid() && state == 3
      modifies this, header
      ensures Valid() && lastByteUs == old(lastByteUs)
      ensures requests == Push(old(Pending()), b).requests && Pending() == Push(old(Pending()), b).rest
    {
      hide Sum, SumStep, RequestsOf;
      requests := [];
      SumOf(v2, Covered(), b);
      header[position] := b;
      position := position + 1;
      assert Covered() == old(Covered()) + [b];
      checksum := SumStep(v2, checksum, b);
      assert Start() + Covered() == old(Pending()) + [b];
      ShortHeader(old(Pending()), b);
      if position == HeaderBytes(v2) { EndHeader(); }
    }

    /** The header is complete: an oversized frame is skipped, an empty one has only its checksum left. */
    method EndHeader()
      requires header.Length == 5 && payload.Length == MAX_PAYLOAD && state == 3 && position == HeaderBytes(v2)
      requires checksum == Sum(v2, header[..position])
      modifies this
      ensures Valid() && lastByteUs == old(lastByteUs) && Pending() == old(Start() + header[..position])
    {
      hide Sum;
      ghost var s := Start() + header[..position];
      command := if v2 then header[1] as nat + 256 * header[2] as nat else header[1] as nat;
      length := if v2 then header[3] as nat + 256 * header[4] as nat else header[0] as nat;
      assert HeadedBy(s);
      position := 0;
      skipped := s;
      state := if length > MAX_PAYLOAD then 6 else if length > 0 then 4 else 5;
      assert header[..HeaderBytes(v2)] + payload[..0] == header[..HeaderBytes(v2)];
    }

    method PayloadByte(b: byte) returns (requests: seq<Request>)
      requires Valid() && state == 4
      modifies this, payload
      ensures Valid() && lastByteUs == old(lastByteUs)
      ensures requests == Push(old(Pending()), b).requests && Pending() == Push(old(Pending()), b).rest
    {
      hide Sum, SumStep, RequestsOf;
      requests := [];
      SumOf(v2, Covered(), b);
      payload[position] := b;
      position := position + 1;
      assert Covered() == old(Covered()) + [b];
      checksum := SumStep(v2, checksum, b);
      assert Start() + Covered() == old(Pending()) + [b];
      if position == length { state := 5; }
    }

    method Finish(b: byte) returns (requests: seq<Request>)
      requires Valid() && state == 5
      modifies `state
      ensures Valid()
      ensures requests == Push(old(Pending()), b).requests && Pending() == Push(old(Pending()), b).rest
    {
      hide Sum, SumStep;
      ghost var s := Pending() + [b];
      assert s[3..|s| - 1] == Covered() && s[3 + HeaderBytes(v2)..|s| - 1] == payload[..length];
      state := 0;
      requests := if b == checksum then [Request(v2, command, payload[..length])] else [];
    }

    method Skip(b: byte) returns (requests: seq<Request>)
      requires Valid() && state == 6
      modifies `state, `length, `skipped
      ensures Valid()
      ensures requests == Push(old(Pending()), b).requests && Pending() == Push(old(Pending()), b).rest
    {
      hide Sum, SumStep;
      requests := [];
      skipped := skipped + [b];
      if length != 0 { length := length - 1; } else { state := 0; }
    }
  }

  /** A header alone is never a whole frame. */
  lemma ShortHeader(s: seq<byte>, b: byte)
    requires 3 <= |s| && s[0] == DOLLAR && (s[1] == M || s[1] == X) && |s| < 3 + HeaderBytes(s[1] == X)
    ensures !Framed(s + [b])
  {}
}
