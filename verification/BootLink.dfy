/**
 The link to an ESC's bootloader (src/protocol/esc_passthrough.c): boot_send and boot_receive with
 their CRC-16, reflected polynomial 0xA001, low byte first.
 */
module BootLink {
  import opened Bytes
  import opened Checksums
  import opened Polynomials
  import opened Records
  import opened Crc16
  import SoftUart

  const REFLECTED: word := 0xA001
  const ACK_OK: byte := 0x30

  // ------------------------------------------------- crc_modbus

  /** One turn of the inner loop. */
  function Turn(crc: word): word { if crc % 2 == 1 then Xor16(crc / 2, REFLECTED) else crc / 2 }

  function Joined(crc: word, b: byte): word { Xor16(crc, b as nat) }

  /** The register after one more byte. */
  function Take(crc: word, b: byte): word { Repeat(Turn, Joined(crc, b), 8) }

  function Modbus(data: seq<byte>): word { Fold(Take, 0, data) }

  /** crc_modbus with its loop. */
  method Update(crc: word, b: byte) returns (r: word)
    ensures r == Take(crc, b)
  {
    hide Turn, Joined;
    r := Joined(crc, b);
    var bit := 0;
    while bit < 8
      invariant 0 <= bit <= 8 && r == Repeat(Turn, Joined(crc, b), bit)
    {
      r := Turn(r);
      bit := bit + 1;
    }
  }

  lemma {:induction false} TopBit(a: nat, b: nat, n: nat)
    requires a <= Ones(n) < b <= Ones(n + 1)
    ensures XorBits(a, b, n + 1) > Ones(n)
  {
    if n == 0 {
      XorBitsParity(a, b, 1);
    } else {
      TopBit(a / 2, b / 2, n - 1);
      XorBitsParity(a, b, n + 1);
    }
  }

  /** A turn that brings in the polynomial sets the top bit, any other clears it. */
  lemma TurnTop(crc: word)
    ensures Turn(crc) >= 32768 <==> crc % 2 == 1
  {
    OnesOf16();
    if crc % 2 == 1 { TopBit(crc / 2, REFLECTED, 15); }
    hide XorBits;
  }

  lemma TurnInjective(a: word, b: word)
    ensures Turn(a) == Turn(b) ==> a == b
  {
    TurnTop(a);
    TurnTop(b);
    hide Xor16;
    Xor16Cancels(REFLECTED, a / 2, b / 2);
    Xor16Cancels(a / 2, REFLECTED, a / 2);
    Xor16Cancels(b / 2, REFLECTED, b / 2);
  }

  /** A byte step loses nothing of the register and nothing of the byte. */
  lemma TakeLossless()
    ensures Lossless(Take)
  {
    hide Turn, Joined, Repeat, Take;
    forall a, b { TurnInjective(a, b); }
    forall a, b, x { TakeInjective(a, b, x, x); }
    forall a, x, y { TakeInjective(a, a, x, y); }
  }

  lemma TakeInjective(a: word, b: word, x: byte, y: byte)
    requires Injective(Turn)
    ensures Take(a, x) == Take(b, x) ==> a == b
    ensures Take(a, x) == Take(a, y) ==> x == y
  {
    hide Turn, Xor16, Repeat;
    RepeatInjective(Turn, Joined(a, x), Joined(b, x), 8);
    RepeatInjective(Turn, Joined(a, x), Joined(a, y), 8);
    Xor16Cancels(a, x as nat, y as nat);
    Xor16Cancels(x as nat, a, b);
    Xor16Cancels(a, x as nat, a);
    Xor16Cancels(b, x as nat, b);
  }

  // ------------------------------------------------- the remainder of a division

  /** x^16 + x^15 + x^2 + 1 */
  function Generators(): seq<bool> { Generator(16, {15, 2, 0}) }

  /** The register is reflected: its lowest bit is the highest coefficient. */
  function Reflected(w: word): (s: seq<bool>)
    ensures |s| == 16
  {
    LowFirst(w, 16)
  }

  function BitsOf(b: byte): seq<bool> { LowFirst(b as nat, 8) }

  lemma GeneratorBits()
    ensures Reflected(REFLECTED) == Generators()
  {
    hide LowFirst, Generators, Generator;
    LowMore(0xA001, 12);
    LowMore(0xA00, 8);
    LowEight(0xA0);
    GeneratorsAre();
  }

  lemma GeneratorsAre()
    ensures Generators() == [true, false, false, false, false, false, false, false,
                             false, false, false, false, false, true, false, true]
  {
    var g := Generators();
    assert forall i :: 0 <= i < 16 ==> g[i] == (i == 0 || i == 13 || i == 15);
  }

  lemma TurnTurns(w: word)
    ensures Reflected(Turn(w)) == Turned(Reflected(w), false, Generators())
  {
    hide XorBits, Generator;
    GeneratorBits();
    OnesOf16();
    LowZeros(w / 2, 15, 1);
    assert Zeros(1) == [false];
    if w % 2 == 1 { LowXor(w / 2, REFLECTED, 16); }
    hide LowFirst;
  }

  lemma TakeFeeds(w: word, b: byte)
    requires Turns(Reflected, Turn, Generators())
    ensures Reflected(Take(w, b)) == Fed(Reflected(w), BitsOf(b), Generators())
  {
    hide LowFirst, XorBits, Turn, Generator, Repeat;
    RepeatFeeds(Reflected, Turn, Generators(), Joined(w, b), 8);
    LowXor(w, b as nat, 16);
    EightOnes();
    LowZeros(b as nat, 8, 8);
    Spread(Reflected(w), BitsOf(b), Generators());
  }

  /** The checksum is the remainder of the data, each byte lowest bit first and sixteen zeros behind, by
      x^16 + x^15 + x^2 + 1. */
  lemma ModbusIsRemainder(data: seq<byte>)
    ensures Reflected(Modbus(data)) == Remainder(Dividend(Zeros(16), Message(BitsOf, data)), Generators())
  {
    hide LowFirst, Turn, Take, Generator, Remainder;
    forall w { TurnTurns(w); }
    forall w, b { TakeFeeds(w, b); }
    LowZero(16);
    FoldDivides(Reflected, BitsOf, Take, Generators(), 0, data);
  }

  // ------------------------------------------------- blocks

  function Low(w: word): byte { (w % 256) as byte }

  function High(w: word): byte { (w / 256) as byte }

  /** The bytes of a block on the line. */
  function Block(data: seq<byte>, withCrc: bool): seq<byte> {
    if withCrc then data + [Low(Modbus(data)), High(Modbus(data))] else data
  }

  /** boot_send */
  method Send(data: seq<byte>, withCrc: bool) returns (sent: seq<byte>)
    ensures sent == Block(data, withCrc)
  {
    hide Take;
    var crc: word := 0;
    sent := [];
    var i := 0;
    while i < |data|
      invariant 0 <= i <= |data| && sent == data[..i] && crc == Modbus(data[..i])
    {
      sent := sent + [data[i]];
      assert data[..i + 1][..i] == data[..i];
      crc := Update(crc, data[i]);
      i := i + 1;
    }
    assert data[..|data|] == data;
    if withCrc { sent := sent + [Low(crc), High(crc)]; }
  }

  /** What boot_read_byte gives the i-th time; beyond the end of the answer it times out. */
  function Read(line: seq<Option<byte>>, i: nat): Option<byte> { if i < |line| then line[i] else None }

  ghost predicate Delivers(line: seq<Option<byte>>, bytes: seq<byte>) {
    forall i :: 0 <= i < |bytes| ==> Read(line, i) == Some(bytes[i])
  }

  /** An answer: the block and the acknowledgement. */
  function Answer(data: seq<byte>, connected: bool): seq<byte> { Block(data, connected) + [ACK_OK] }

  /** boot_receive: exactly the answers that boot_send's format gives are taken. */
  method Receive(line: seq<Option<byte>>, length: nat, connected: bool) returns (data: Option<seq<byte>>)
    ensures data.Some? ==> |data.value| == length && Delivers(line, Answer(data.value, connected))
    ensures forall d :: |d| == length && Delivers(line, Answer(d, connected)) ==> data == Some(d)
  {
    hide Take;
    var crc: word := 0;
    var bytes: seq<byte> := [];
    while |bytes| < length
      invariant |bytes| <= length && crc == Modbus(bytes) && Delivers(line, bytes)
    {
      var r := Read(line, |bytes|);
      if r == None {
        forall d | |d| == length && Delivers(line, Answer(d, connected)) ensures false {
          DataRead(line, d, connected, |bytes|);
        }
        return None;
      }
      crc := Update(crc, r.value);
      assert (bytes + [r.value])[..|bytes|] == bytes;
      bytes := bytes + [r.value];
    }
    forall d | |d| == length && Delivers(line, Answer(d, connected)) ensures d == bytes {
      forall i | 0 <= i < length ensures d[i] == bytes[i] { DataRead(line, d, connected, i); }
    }
    var ok := AckIs(line, |bytes|, crc, connected);
    Tail(line, bytes, connected);
    data := if ok then Some(bytes) else None;
  }

  /** The checksum bytes, if any, and the acknowledgement behind `n` bytes. */
  predicate Confirmed(line: seq<Option<byte>>, n: nat, crc: word, connected: bool) {
    if connected then
      Read(line, n) == Some(Low(crc)) && Read(line, n + 1) == Some(High(crc)) && Read(line, n + 2) == Some(ACK_OK)
    else Read(line, n) == Some(ACK_OK)
  }

  method AckIs(line: seq<Option<byte>>, n: nat, crc: word, connected: bool) returns (ok: bool)
    ensures ok == Confirmed(line, n, crc, connected)
  {
    if connected {
      var lo, hi, ack := Read(line, n), Read(line, n + 1), Read(line, n + 2);
      if lo == None || hi == None || ack == None { return false; }
      HalvesOf(crc, lo.value, hi.value);
      return crc == lo.value as nat + 256 * hi.value as nat && ack.value == ACK_OK;
    }
    ok := Read(line, n) == Some(ACK_OK);
  }

  lemma HalvesOf(crc: word, lo: byte, hi: byte)
    ensures crc == lo as nat + 256 * hi as nat <==> lo == Low(crc) && hi == High(crc)
  {}

  lemma AnswerAt(data: seq<byte>, connected: bool)
    ensures var a, n := Answer(data, connected), |data|;
      && (forall i :: 0 <= i < n ==> i < |a| && a[i] == data[i])
      && |a| == (if connected then n + 3 else n + 1) && a[|a| - 1] == ACK_OK
      && (connected ==> a[n] == Low(Modbus(data)) && a[n + 1] == High(Modbus(data)))
  {
    hide Modbus, Low, High;
  }

  lemma DataRead(line: seq<Option<byte>>, data: seq<byte>, connected: bool, i: nat)
    requires Delivers(line, Answer(data, connected)) && i < |data|
    ensures Read(line, i) == Some(data[i])
  {
    AnswerAt(data, connected);
    hide Modbus, Answer;
    assert Read(line, i) == Some(Answer(data, connected)[i]);
  }

  lemma Tail(line: seq<Option<byte>>, bytes: seq<byte>, connected: bool)
    requires Delivers(line, bytes)
    ensures Confirmed(line, |bytes|, Modbus(bytes), connected) <==> Delivers(line, Answer(bytes, connected))
  {
    hide Modbus, Low, High, Answer;
    AnswerAt(bytes, connected);
    var n, a := |bytes|, Answer(bytes, connected);
    if Delivers(line, a) {
      assert Read(line, n) == Some(a[n]);
      if connected { assert Read(line, n + 1) == Some(a[n + 1]) && Read(line, n + 2) == Some(a[n + 2]); }
    }
  }

  /** Answers to the same question that differ somewhere differ in at least two bytes. */
  lemma SecondDifference(data: seq<byte>, other: seq<byte>, k: nat) returns (j: nat)
    requires |other| == |data| && k < |data| + 3 && Answer(other, true)[k] != Answer(data, true)[k]
    ensures j < |data| + 3 && j != k && Answer(other, true)[j] != Answer(data, true)[j]
  {
    hide Fold, Take, Answer, Low, High;
    AnswerAt(data, true);
    AnswerAt(other, true);
    var n := |data|;
    if i :| 0 <= i < n && i != k && other[i] != data[i] {
      j := i;
    } else {
      assert other != data;
      TakeLossless();
      SingleByteDetected(Take, 0, data, other, k);
      HalvesOf(Modbus(data), Low(Modbus(other)), High(Modbus(other)));
      HalvesOf(Modbus(other), Low(Modbus(other)), High(Modbus(other)));
      j := if Low(Modbus(other)) != Low(Modbus(data)) then n else n + 1;
    }
  }

  /** One wrong byte in an answer: no data of that length are taken from it. */
  lemma CorruptedAnswerRefused(line: seq<Option<byte>>, data: seq<byte>, k: nat, wrong: byte, other: seq<byte>)
    requires k < |data| + 3 && wrong != Answer(data, true)[k] && Read(line, k) == Some(wrong)
    requires forall i :: 0 <= i < |data| + 3 && i != k ==> Read(line, i) == Some(Answer(data, true)[i])
    requires |other| == |data|
    ensures !Delivers(line, Answer(other, true))
  {
    hide Modbus, Answer;
    AnswerAt(data, true);
    AnswerAt(other, true);
    var j := k;
    if Answer(other, true)[k] == wrong { j := SecondDifference(data, other, k); }
    assert Read(line, j) != Some(Answer(other, true)[j]);
  }

  /** Answers byte for byte: low byte of the checksum first, the acknowledgement 0x30 last; before the
      connection, when there is no checksum, it stands alone behind the data. */
  lemma KnownAnswers(data: seq<byte>)
    ensures Answer(data, false) == data + [0x30]
    ensures var c := Modbus(data); Answer(data, true) == data + [(c % 256) as byte, (c / 256) as byte, 0x30]
    ensures Modbus([]) == 0
  {
    hide Take;
  }

  /** The reads of a sender's bytes, each noticed `late` ticks after its start bit. */
  function Wire(bytes: seq<byte>, late: seq<nat>): (line: seq<Option<byte>>)
    requires |late| == |bytes|
    ensures |line| == |bytes|
  {
    seq(|bytes|, i requires 0 <= i < |bytes| =>
      var r := SoftUart.Received(SoftUart.Bits(SoftUart.Word(bytes[i])), late[i]);
      if r.Some? then Some((r.value % 256) as byte) else None)
  }

  /** From boot_send to boot_receive, bit by bit over the line: the answer arrives. */
  lemma AnswerArrives(data: seq<byte>, connected: bool, late: seq<nat>)
    requires |late| == |Answer(data, connected)| && forall i :: 0 <= i < |late| ==> late[i] < 13
    ensures Delivers(Wire(Answer(data, connected), late), Answer(data, connected))
  {
    hide SoftUart.Received, SoftUart.Bits, SoftUart.Word, Answer;
    var a := Answer(data, connected);
    forall i | 0 <= i < |a| ensures Read(Wire(a, late), i) == Some(a[i]) {
      SoftUart.ByteArrives(a[i], late[i]);
    }
  }
}
