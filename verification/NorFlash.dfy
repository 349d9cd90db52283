/**
 The dataflash chip and the layout of the two-bank flight log on it
 (src/storage/blackbox_flash.c).  A page program ANDs bytes into the array, a
 block erase sets 64 KiB to 0xFF, and removing power part-way through a program
 leaves a prefix of its bytes programmed.
 */
module NorFlash {
  import opened Bytes
  import opened Records

  const BLANK: byte := 255
  const PAGE := 256
  const HEADER_BYTES := 256
  const ERASE_BLOCK := 65536
  const HEADER_PROGRAM := 148        // 20 bytes of fields and the metadata
  const HEADER_MAGIC := 0x42424646
  const HEADER_VERSION := 8
  const HEADER_VALID: byte := 0xA5
  const COUNT_OFFSET := 12
  const NONE := 255                  // retained_bank when there is no flight

  datatype Flight = Flight(id: nat, flag: byte, metadata: Metadata, records: seq<Record>)

  /** The operation the chip is executing. */
  datatype Command = Idle | Program(addr: nat, data: seq<byte>) | Erase(block: nat)

  predicate Geometry(image: seq<byte>, bank: nat) {
    0 < bank <= 0x80_0000 && bank % 65536 == 0 && |image| == 2 * bank
  }

  predicate Fits(image: seq<byte>, c: Command) {
    match c
    case Idle => true
    case Program(addr, data) => addr + |data| <= |image|
    case Erase(block) => block + ERASE_BLOCK <= |image|
  }

  function AndAll(cells: seq<byte>, data: seq<byte>): (r: seq<byte>)
    requires |cells| == |data|
    ensures |r| == |data|
  {
    if |data| == 0 then [] else [And(cells[0], data[0])] + AndAll(cells[1..], data[1..])
  }

  lemma {:induction false} AndAllBlank(cells: seq<byte>, data: seq<byte>)
    requires |cells| == |data| && forall i :: 0 <= i < |cells| ==> cells[i] == BLANK
    ensures AndAll(cells, data) == data
  {
    if |data| > 0 {
      AndOnes(data[0]);
      AndAllBlank(cells[1..], data[1..]);
    }
  }

  function Programmed(image: seq<byte>, addr: nat, data: seq<byte>): (r: seq<byte>)
    requires addr + |data| <= |image|
    ensures |r| == |image|
  {
    image[..addr] + AndAll(image[addr..addr + |data|], data) + image[addr + |data|..]
  }

  function Erased(image: seq<byte>, block: nat): (r: seq<byte>)
    ensures |r| == |image|
  {
    seq(|image|, i requires 0 <= i < |image| =>
      if block <= i < block + ERASE_BLOCK then BLANK else image[i])
  }

  /** The array after power is removed once `k` bytes of `c` are in; an erase is atomic. */
  function Cut(image: seq<byte>, c: Command, k: nat): (r: seq<byte>)
    requires Fits(image, c)
    ensures |r| == |image|
  {
    match c
    case Idle => image
    case Program(addr, data) => Programmed(image, addr, Prefix(data, k))
    case Erase(block) => if k == 0 then image else Erased(image, block)
  }

  function Completed(image: seq<byte>, c: Command): (r: seq<byte>)
    requires Fits(image, c)
    ensures |r| == |image|
  {
    Cut(image, c, PAGE)
  }

  // ---------------------------------------------------------------- layout

  function Base(bank: nat, b: nat): nat { if b == 0 then 0 else bank }

  function MaxRecords(bank: nat): int { (bank - HEADER_BYTES) / 60 }

  predicate HeaderValid(image: seq<byte>, bank: nat, b: nat)
    requires Geometry(image, bank) && b <= 1
  {
    var h := Base(bank, b);
    Decode32(image, h) == HEADER_MAGIC && Decode32(image, h + 4) == HEADER_VERSION &&
    Decode16(image, h + 18) == RECORD_BYTES && image[h + 17] == HEADER_VALID &&
    Decode32(image, h + COUNT_OFFSET) <= MaxRecords(bank)
  }

  function FlightId(image: seq<byte>, bank: nat, b: nat): nat
    requires Geometry(image, bank)
  {
    Decode32(image, Base(bank, b) + 8)
  }

  /** The bank blackbox_sd_init retains. */
  function Selected(image: seq<byte>, bank: nat): nat
    requires Geometry(image, bank)
  {
    var valid0 := HeaderValid(image, bank, 0);
    var valid1 := HeaderValid(image, bank, 1);
    if valid0 || valid1 then
      if valid1 && (!valid0 || FlightId(image, bank, 1) > FlightId(image, bank, 0)) then 1 else 0
    else NONE
  }

  /** `data` is stored at address `at`. */
  predicate At(image: seq<byte>, at: nat, data: seq<byte>)
    requires at + |data| <= |image|
  {
    forall i :: at <= i < at + |data| ==> image[i] == data[i - at]
  }

  predicate BlankFrom(image: seq<byte>, from: nat, to: nat)
    requires to <= |image|
  {
    forall i :: from <= i < to ==> image[i] == BLANK
  }

  predicate HeaderBlank(image: seq<byte>, bank: nat, b: nat)
    requires Geometry(image, bank)
  {
    BlankFrom(image, Base(bank, b), Base(bank, b) + HEADER_BYTES)
  }

  predicate BankBlank(image: seq<byte>, bank: nat, b: nat)
    requires Geometry(image, bank)
  {
    BlankFrom(image, Base(bank, b), Base(bank, b) + bank)
  }

  /** Where the header page is blank, so is all of the bank. */
  predicate Clean(image: seq<byte>, bank: nat, b: nat)
    requires Geometry(image, bank)
  {
    HeaderBlank(image, bank, b) ==> BankBlank(image, bank, b)
  }

  /** The bytes of the records, one record after the other. */
  function Stream(records: seq<Record>): (r: seq<byte>)
    ensures |r| == 60 * |records|
  {
    if |records| == 0 then [] else Stream(records[..|records| - 1]) + records[|records| - 1]
  }

  lemma {:induction false} StreamConcat(a: seq<Record>, c: seq<Record>)
    ensures Stream(a + c) == Stream(a) + Stream(c)
  {
    var n := |c| - 1;
    if n < 0 {
      assert a + c == a;
    } else {
      StreamConcat(a, c[..n]);
      assert (a + c)[..|a| + n] == a + c[..n];
    }
  }

  lemma {:induction false} StreamByte(records: seq<Record>, j: nat, i: nat)
    requires j < |records| && i < RECORD_BYTES
    ensures 60 * j + i < |Stream(records)| && Stream(records)[60 * j + i] == records[j][i]
  {
    var n := |records| - 1;
    if j < n { StreamByte(records[..n], j, i); }
  }

  predicate HeaderIs(image: seq<byte>, bank: nat, b: nat, id: nat, count: nat, flag: byte, metadata: Metadata)
    requires Geometry(image, bank) && b <= 1
  {
    var h := Base(bank, b);
    HeaderValid(image, bank, b) && FlightId(image, bank, b) == id &&
    Decode32(image, h + COUNT_OFFSET) == count && image[h + 16] == flag &&
    At(image, h + 20, metadata)
  }

  /** Bank `b` stores flight `f`, complete and committed. */
  predicate Holds(image: seq<byte>, bank: nat, b: nat, f: Flight)
    requires Geometry(image, bank) && b <= 1
  {
    var a := Base(bank, b) + HEADER_BYTES;
    HeaderIs(image, bank, b, f.id, |f.records|, f.flag, f.metadata) &&
    At(image, a, Stream(f.records))
  }

  function RecordAt(image: seq<byte>, bank: nat, b: nat, j: nat): Record
    requires Geometry(image, bank) && j < MaxRecords(bank)
  {
    var a := Base(bank, b) + HEADER_BYTES + j * RECORD_BYTES;
    image[a..a + RECORD_BYTES]
  }

  function FlightAt(image: seq<byte>, bank: nat, b: nat): Flight
    requires Geometry(image, bank) && b <= 1 && HeaderValid(image, bank, b)
  {
    var h := Base(bank, b);
    Flight(FlightId(image, bank, b), image[h + 16], image[h + 20..h + HEADER_PROGRAM],
           seq(Decode32(image, h + COUNT_OFFSET),
               j requires 0 <= j < Decode32(image, h + COUNT_OFFSET) => RecordAt(image, bank, b, j)))
  }

  /** The committed flight that bank `b` stores, if any. */
  function Content(image: seq<byte>, bank: nat, b: nat): Option<Flight>
    requires Geometry(image, bank) && b <= 1
  {
    if HeaderValid(image, bank, b) then Some(FlightAt(image, bank, b)) else None
  }

  /** The flight that a restart finds on the chip. */
  function Found(image: seq<byte>, bank: nat): Option<Flight>
    requires Geometry(image, bank)
  {
    var b := Selected(image, bank);
    if b == NONE then None else Content(image, bank, b)
  }

  /** A flight with id `x` in bank `b` is retained over one with id `y` in the other bank. */
  predicate Outranks(b: nat, x: nat, y: nat) {
    if b == 1 then x > y else x >= y
  }

  lemma AtConcat(image: seq<byte>, a: nat, x: seq<byte>, y: seq<byte>)
    requires a + |x| + |y| <= |image|
    ensures At(image, a, x + y) <==> At(image, a, x) && At(image, a + |x|, y)
  {
    var xy := x + y;
    if At(image, a, xy) {
      forall i | a + |x| <= i < a + |x| + |y| ensures image[i] == y[i - (a + |x|)] {
        assert image[i] == xy[i - a];
      }
    }
  }

  lemma {:induction false} RecordsAtStream(image: seq<byte>, a: nat, records: seq<Record>)
    requires a + 60 * |records| <= |image|
    ensures At(image, a, Stream(records)) <==>
            forall j :: 0 <= j < |records| ==> At(image, a + j * RECORD_BYTES, records[j])
  {
    var n := |records| - 1;
    if n >= 0 {
      var front := records[..n];
      RecordsAtStream(image, a, front);
      AtConcat(image, a, Stream(front), records[n]);
      assert forall j :: 0 <= j < n ==> front[j] == records[j];
    }
  }

  lemma AtSlice(image: seq<byte>, at: nat, data: seq<byte>)
    requires at + |data| <= |image|
    ensures At(image, at, data) <==> image[at..at + |data|] == data
  {
    if image[at..at + |data|] == data {
      forall i | at <= i < at + |data| ensures image[i] == data[i - at] {
        assert image[at..at + |data|][i - at] == image[i];
      }
    }
  }

  lemma RecordIsRecordAt(image: seq<byte>, bank: nat, b: nat, j: nat, r: Record)
    requires Geometry(image, bank) && j < MaxRecords(bank)
    ensures At(image, Base(bank, b) + HEADER_BYTES + j * RECORD_BYTES, r) <==> r == RecordAt(image, bank, b, j)
  {
    AtSlice(image, Base(bank, b) + HEADER_BYTES + j * RECORD_BYTES, r);
  }

  lemma HoldsIsFlightAt(image: seq<byte>, bank: nat, b: nat, f: Flight)
    requires Geometry(image, bank) && b <= 1
    ensures Holds(image, bank, b, f) <==> HeaderValid(image, bank, b) && f == FlightAt(image, bank, b)
  {
    hide Stream, Decode16;
    if HeaderValid(image, bank, b) && |f.records| == Decode32(image, Base(bank, b) + COUNT_OFFSET) {
      var g := FlightAt(image, bank, b);
      var a := Base(bank, b) + HEADER_BYTES;
      AtSlice(image, Base(bank, b) + 20, f.metadata);
      RecordsAtStream(image, a, f.records);
      forall j | 0 <= j < |f.records|
        ensures At(image, a + j * RECORD_BYTES, f.records[j]) <==> f.records[j] == g.records[j]
      {
        RecordIsRecordAt(image, bank, b, j, f.records[j]);
      }
    }
  }

  // ------------------------------------------------- what a bank holds while recording

  /** Byte `i` of the header page that begin_recording programs. */
  function HeaderByte(id: nat, metadata: Metadata, i: nat): byte
    requires id < WORD && i < HEADER_PROGRAM
  {
    if i < 2 then 0x46 else if i < 4 then 0x42
    else if i == 4 then 8 else if i < 8 then 0
    else if i < 12 then Encode32(id)[i - 8]
    else if i < 18 then BLANK
    else if i == 18 then 60 else if i == 19 then 0
    else metadata[i - 20]
  }

  function HeaderData(id: nat, metadata: Metadata): (r: seq<byte>)
    requires id < WORD
    ensures |r| == HEADER_PROGRAM
  {
    seq(HEADER_PROGRAM, i requires 0 <= i < HEADER_PROGRAM => HeaderByte(id, metadata, i))
  }

  function FinalData(count: nat, flag: byte): (r: seq<byte>)
    requires count < WORD
    ensures |r| == 6
  {
    Encode32(count) + [flag, HEADER_VALID]
  }

  /** The header is programmed without its count, flag and valid bytes; `pos` bytes
      of the record stream are on the chip and the rest of the bank is blank. */
  predicate Partial(image: seq<byte>, bank: nat, b: nat, id: nat, metadata: Metadata,
                    stream: seq<byte>, pos: nat)
    requires Geometry(image, bank)
  {
    var h := Base(bank, b);
    id < WORD && pos <= |stream| && HEADER_BYTES + |stream| <= bank &&
    At(image, h, HeaderData(id, metadata)) &&
    BlankFrom(image, h + HEADER_PROGRAM, h + HEADER_BYTES) &&
    At(image, h + HEADER_BYTES, stream[..pos]) &&
    BlankFrom(image, h + HEADER_BYTES + pos, h + bank)
  }

  predicate SameBank(a: seq<byte>, c: seq<byte>, bank: nat, b: nat)
    requires Geometry(a, bank) && Geometry(c, bank)
  {
    forall i :: Base(bank, b) <= i < Base(bank, b) + bank ==> a[i] == c[i]
  }

  lemma SameBankKeeps(a: seq<byte>, c: seq<byte>, bank: nat, b: nat)
    requires Geometry(a, bank) && Geometry(c, bank) && b <= 1 && SameBank(a, c, bank, b)
    ensures Content(a, bank, b) == Content(c, bank, b)
    ensures Clean(a, bank, b) == Clean(c, bank, b)
    ensures BankBlank(a, bank, b) == BankBlank(c, bank, b)
  {
    SameContent(a, c, bank, b);
    var h := Base(bank, b);
    assert BankBlank(a, bank, b) ==> forall i :: h <= i < h + bank ==> c[i] == BLANK;
    assert HeaderBlank(a, bank, b) ==> forall i :: h <= i < h + HEADER_BYTES ==> c[i] == BLANK;
    hide Content;
  }

  lemma SameContent(a: seq<byte>, c: seq<byte>, bank: nat, b: nat)
    requires Geometry(a, bank) && Geometry(c, bank) && b <= 1 && SameBank(a, c, bank, b)
    ensures Content(a, bank, b) == Content(c, bank, b)
  {
    var h := Base(bank, b);
    assert a[h + 17] == c[h + 17];
    if HeaderValid(a, bank, b) {
      assert a[h + 20..h + HEADER_PROGRAM] == c[h + 20..h + HEADER_PROGRAM];
      forall j: nat | j < MaxRecords(bank)
        ensures RecordAt(a, bank, b, j) == RecordAt(c, bank, b, j)
      {
        var at := h + HEADER_BYTES + j * RECORD_BYTES;
        assert a[at..at + RECORD_BYTES] == c[at..at + RECORD_BYTES];
      }
      assert FlightAt(a, bank, b).records == FlightAt(c, bank, b).records;
    }
  }

  /** Whether bank `b` contains every byte that command `c` touches. */
  predicate Inside(image: seq<byte>, bank: nat, b: nat, c: Command)
    requires Geometry(image, bank)
  {
    match c
    case Idle => true
    case Program(addr, data) => Base(bank, b) <= addr && addr + |data| <= Base(bank, b) + bank
    case Erase(block) => Base(bank, b) <= block && block + ERASE_BLOCK <= Base(bank, b) + bank
  }

  lemma CutInside(image: seq<byte>, bank: nat, b: nat, c: Command, k: nat)
    requires Geometry(image, bank) && b <= 1 && Fits(image, c) && Inside(image, bank, b, c)
    ensures SameBank(image, Cut(image, c, k), bank, 1 - b)
  {}

  // ------------------------------------------------- torn and completed operations

  /** `after` is `image` with `data` stored at `addr` and nothing else changed. */
  predicate Stored(image: seq<byte>, after: seq<byte>, addr: nat, data: seq<byte>)
    requires addr + |data| <= |image|
  {
    |after| == |image| && At(after, addr, data) &&
    forall i :: 0 <= i < |image| && !(addr <= i < addr + |data|) ==> after[i] == image[i]
  }

  function Prefix(data: seq<byte>, k: nat): seq<byte> { if k < |data| then data[..k] else data }

  /** Programming blank cells, however torn, stores exactly a prefix of the data. */
  lemma BlankProgram(image: seq<byte>, addr: nat, data: seq<byte>, k: nat)
    requires addr + |data| <= |image| && BlankFrom(image, addr, addr + |data|)
    ensures Stored(image, Cut(image, Program(addr, data), k), addr, Prefix(data, k))
  {
    var d := Prefix(data, k);
    AndAllBlank(image[addr..addr + |d|], d);
    Spliced(image, addr, d);
  }

  lemma Spliced(image: seq<byte>, addr: nat, d: seq<byte>)
    requires addr + |d| <= |image|
    ensures Stored(image, image[..addr] + d + image[addr + |d|..], addr, d)
  {}

  lemma TornPage(image: seq<byte>, after: seq<byte>, bank: nat, b: nat, data: seq<byte>, k: nat)
    requires Geometry(image, bank) && b <= 1 && BankBlank(image, bank, b)
    requires |data| == HEADER_PROGRAM && data[0] == 0x46 && data[17] == BLANK
    requires Stored(image, after, Base(bank, b), Prefix(data, k))
    ensures !HeaderValid(after, bank, b) && Clean(after, bank, b)
  {
    var h := Base(bank, b);
    assert after[h + 17] == BLANK;
    if k == 0 {
      assert forall i :: h <= i < h + bank ==> after[i] == BLANK;
    } else {
      assert after[h] == 0x46;
    }
  }

  lemma HeaderTorn(image: seq<byte>, bank: nat, b: nat, id: nat, metadata: Metadata, k: nat)
    requires Geometry(image, bank) && b <= 1 && id < WORD && BankBlank(image, bank, b)
    ensures var c := Program(Base(bank, b), HeaderData(id, metadata));
      && Content(Cut(image, c, k), bank, b) == None
      && Clean(Cut(image, c, k), bank, b)
      && (HEADER_PROGRAM <= k ==> Partial(Cut(image, c, k), bank, b, id, metadata, [], 0))
  {
    var h := Base(bank, b);
    var after := Cut(image, Program(h, HeaderData(id, metadata)), k);
    BlankProgram(image, h, HeaderData(id, metadata), k);
    TornPage(image, after, bank, b, HeaderData(id, metadata), k);
  }

  lemma PartialUnselected(image: seq<byte>, bank: nat, b: nat, id: nat, metadata: Metadata,
                          stream: seq<byte>, pos: nat)
    requires Geometry(image, bank) && b <= 1 && Partial(image, bank, b, id, metadata, stream, pos)
    ensures Content(image, bank, b) == None && Clean(image, bank, b)
  {
    var h := Base(bank, b);
    assert image[h + 17] == BLANK && image[h] == 0x46;
  }

  /** A stored piece of the stream extends what is on the chip. */
  lemma RecordStored(image: seq<byte>, after: seq<byte>, bank: nat, b: nat, id: nat, metadata: Metadata,
                     stream: seq<byte>, pos: nat, data: seq<byte>)
    requires Geometry(image, bank) && b <= 1 && Partial(image, bank, b, id, metadata, stream, pos)
    requires pos + |data| <= |stream| && data == stream[pos..pos + |data|]
    requires Stored(image, after, Base(bank, b) + HEADER_BYTES + pos, data)
    ensures Partial(after, bank, b, id, metadata, stream, pos + |data|)
  {
    var h := Base(bank, b);
    assert stream[..pos + |data|] == stream[..pos] + data;
    AtConcat(after, h + HEADER_BYTES, stream[..pos], data);
  }

  /** A record program, however torn, stores a prefix of its bytes and leaves the header as it was. */
  lemma RecordTorn(image: seq<byte>, after: seq<byte>, bank: nat, b: nat, id: nat, metadata: Metadata,
                   stream: seq<byte>, pos: nat, data: seq<byte>, k: nat)
    requires Geometry(image, bank) && b <= 1 && Partial(image, bank, b, id, metadata, stream, pos)
    requires pos + |data| <= |stream| && data == stream[pos..pos + |data|]
    requires after == Cut(image, Program(Base(bank, b) + HEADER_BYTES + pos, data), k)
    ensures Partial(after, bank, b, id, metadata, stream, pos + |Prefix(data, k)|)
  {
    hide HeaderData, HeaderByte, At, Stored, Cut;
    var d := Prefix(data, k);
    assert d == stream[pos..pos + |d|];
    BlankProgram(image, Base(bank, b) + HEADER_BYTES + pos, data, k);
    RecordStored(image, after, bank, b, id, metadata, stream, pos, d);
  }

  // ------------------------------------------------- the commit

  /** A header page with its count, flag and valid bytes filled in reads back as a valid header. */
  lemma ReadHeader(image: seq<byte>, bank: nat, b: nat, id: nat, count: nat, flag: byte, metadata: Metadata)
    requires Geometry(image, bank) && b <= 1 && id < WORD && count <= MaxRecords(bank)
    requires At(image, Base(bank, b) + COUNT_OFFSET, FinalData(count, flag))
    requires var h := Base(bank, b);
      forall i | h <= i < h + HEADER_PROGRAM && !(h + 12 <= i < h + 18) ::
        image[i] == HeaderByte(id, metadata, i - h)
    ensures HeaderIs(image, bank, b, id, count, flag, metadata)
  {
    var h := Base(bank, b);
    var final := FinalData(count, flag);
    assert image[h + 12] == final[0] && image[h + 13] == final[1] && image[h + 14] == final[2];
    assert image[h + 15] == final[3] && image[h + 16] == final[4] && image[h + 17] == final[5];
    EncodedAt(image, h + 12, count);
    EncodedAt(image, h + 8, id);
    assert Decode32(image, h) == HEADER_MAGIC;
  }

  lemma EncodedAt(image: seq<byte>, at: nat, v: nat)
    requires at + 4 <= |image| && v < WORD
    requires var e := Encode32(v);
      image[at] == e[0] && image[at + 1] == e[1] && image[at + 2] == e[2] && image[at + 3] == e[3]
    ensures Decode32(image, at) == v
  {}

  /** The header page once `data`, a prefix of the commit bytes, is stored in it. */
  lemma FinalPage(image: seq<byte>, after: seq<byte>, bank: nat, b: nat, id: nat, metadata: Metadata,
                  count: nat, flag: byte, data: seq<byte>)
    requires Geometry(image, bank) && b <= 1 && count <= MaxRecords(bank) && id < WORD
    requires At(image, Base(bank, b), HeaderData(id, metadata))
    requires data <= FinalData(count, flag)
    requires Stored(image, after, Base(bank, b) + COUNT_OFFSET, data)
    ensures Clean(after, bank, b)
    ensures |data| < 6 ==> !HeaderValid(after, bank, b)
    ensures |data| == 6 ==> HeaderIs(after, bank, b, id, count, flag, metadata)
  {
    var h := Base(bank, b);
    assert after[h] == image[h] == 0x46;
    if |data| < 6 {
      assert after[h + 17] == image[h + 17] == BLANK;
    } else {
      ReadHeader(after, bank, b, id, count, flag, metadata);
    }
  }

  lemma PartialPage(image: seq<byte>, bank: nat, b: nat, id: nat, metadata: Metadata, stream: seq<byte>, pos: nat)
    requires Geometry(image, bank) && b <= 1 && Partial(image, bank, b, id, metadata, stream, pos)
    ensures At(image, Base(bank, b), HeaderData(id, metadata))
    ensures BlankFrom(image, Base(bank, b) + COUNT_OFFSET, Base(bank, b) + COUNT_OFFSET + 6)
  {}

  lemma StreamKept(image: seq<byte>, after: seq<byte>, bank: nat, b: nat, id: nat, metadata: Metadata,
                   stream: seq<byte>, data: seq<byte>)
    requires Geometry(image, bank) && b <= 1 && Partial(image, bank, b, id, metadata, stream, |stream|)
    requires |data| <= 6 && Stored(image, after, Base(bank, b) + COUNT_OFFSET, data)
    ensures At(after, Base(bank, b) + HEADER_BYTES, stream)
  {
    hide HeaderData;
    assert stream[..|stream|] == stream;
  }

  /** The commit: the flight becomes valid exactly when its last byte is in. */
  lemma FinalTorn(image: seq<byte>, after: seq<byte>, bank: nat, b: nat, id: nat, metadata: Metadata,
                  records: seq<Record>, flag: byte, k: nat)
    requires Geometry(image, bank) && b <= 1 && |records| <= MaxRecords(bank)
    requires Partial(image, bank, b, id, metadata, Stream(records), 60 * |records|)
    requires after == Cut(image, Program(Base(bank, b) + COUNT_OFFSET, FinalData(|records|, flag)), k)
    ensures Clean(after, bank, b)
    ensures Content(after, bank, b) == if k < 6 then None else Some(Flight(id, flag, metadata, records))
  {
    hide Stored, At, Stream, Clean, BlankFrom, Cut, FlightAt, HeaderData, FinalData, Decode32, Decode16;
    var data := FinalData(|records|, flag);
    PartialPage(image, bank, b, id, metadata, Stream(records), |Stream(records)|);
    BlankProgram(image, Base(bank, b) + COUNT_OFFSET, data, k);
    FinalPage(image, after, bank, b, id, metadata, |records|, flag, Prefix(data, k));
    StreamKept(image, after, bank, b, id, metadata, Stream(records), Prefix(data, k));
    if 6 <= k {
      HoldsIsFlightAt(after, bank, b, Flight(id, flag, metadata, records));
    }
  }

  /** Erasing a bank backwards keeps "blank header, blank bank" after every block. */
  lemma EraseTorn(image: seq<byte>, bank: nat, b: nat, block: nat, k: nat)
    requires Geometry(image, bank) && b <= 1 && Clean(image, bank, b)
    requires Base(bank, b) <= block && block + ERASE_BLOCK <= Base(bank, b) + bank
    requires block == Base(bank, b) || Base(bank, b) + ERASE_BLOCK <= block
    requires BlankFrom(image, block + ERASE_BLOCK, Base(bank, b) + bank)
    ensures Clean(Cut(image, Erase(block), k), bank, b)
    ensures 0 < k ==> BlankFrom(Cut(image, Erase(block), k), block, Base(bank, b) + bank)
    ensures block == Base(bank, b) && 0 < k ==> Content(Cut(image, Erase(block), k), bank, b) == None
    ensures var was, now := Content(image, bank, b), Content(Cut(image, Erase(block), k), bank, b);
      now.Some? ==> was.Some? && now.value.id == was.value.id
  {
    var h := Base(bank, b);
    var after := Cut(image, Erase(block), k);
    if 0 < k && block != h {
      assert forall i :: h <= i < h + HEADER_BYTES ==> image[i] == after[i];
      assert forall i :: h <= i < h + bank && image[i] == BLANK ==> after[i] == BLANK;
    } else if 0 < k {
      assert after[h + 17] == BLANK;
    }
  }

  /** What a restart finds, told from what the two banks store. */
  lemma FoundIn(image: seq<byte>, bank: nat, b: nat)
    requires Geometry(image, bank) && b <= 1
    requires var mine, other := Content(image, bank, b), Content(image, bank, 1 - b);
      other.Some? ==> mine.Some? && Outranks(b, mine.value.id, other.value.id)
    ensures Found(image, bank) == Content(image, bank, b)
    ensures Selected(image, bank) == if Content(image, bank, b).Some? then b else NONE
  {}
}
