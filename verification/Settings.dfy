/**
 The flight settings of src/storage/flight_settings.c: the 252-byte structure as its bytes,
 its validator, saving to flash, and loading at start-up.  The board is one with a UART mask
 and a selectable receiver UART.
 */
module Settings {
  import opened Crc32
  import Fnv

  const SIZE := 252
  const V27_PREFIX := 248            // offsetof(flight_settings_t, osd_video_mode)
  const MAGIC: bv32 := 0x46344643
  const VERSION: bv32 := 28
  const NAME := 180                  // offsetof(flight_settings_t, osd_pilot_name)
  const NAME_BYTES := 13

  type Payload = p: seq<octet> | |p| == SIZE witness seq(SIZE, _ => 0)

  datatype Board = Board(uarts: set<bv32>, crsf: bool)

  /** The k-th 32-bit field. */
  function Word(p: Payload, k: nat): bv32
    requires k < 63
  {
    (p[4 * k] as bv32) | ((p[4 * k + 1] as bv32) << 8) | ((p[4 * k + 2] as bv32) << 16) | ((p[4 * k + 3] as bv32) << 24)
  }

  // ------------------------------------------------- validators

  /** A float field is finite and between two positive bounds, all given by their bit patterns. */
  predicate Between(w: bv32, low: bv32, high: bv32) { low <= w <= high }

  /** The same from zero on, minus zero included. */
  predicate UpTo(w: bv32, high: bv32) { w <= high || w == 0x80000000 }

  /** At most 180 degrees either way. */
  predicate AngleValid(w: bv32) { w & 0x7FFFFFFF <= 0x43340000 }

  predicate GainsValid(p: Payload, k: nat)
    requires k + 2 < 63
  {
    Word(p, k) <= 2000 && Word(p, k + 1) <= 2000 && Word(p, k + 2) <= 5000
  }

  /** 100 to 1200 degrees per second, expo up to 0.9. */
  predicate RatesValid(p: Payload) {
    Between(Word(p, 15), 0x42C80000, 0x44960000) && Between(Word(p, 16), 0x42C80000, 0x44960000) &&
    Between(Word(p, 17), 0x42C80000, 0x44960000) && UpTo(Word(p, 18), 0x3F666666)
  }

  predicate FeedforwardValid(p: Payload) { Word(p, 19) <= 1000 && Word(p, 20) <= 1000 && Word(p, 21) <= 1000 }

  /** Gyro 50 to 250 Hz, D term 20 to 200 Hz and not above the gyro, boost up to 50 %. */
  predicate FiltersValid(p: Payload) {
    Between(Word(p, 34), 0x42480000, 0x437A0000) && Between(Word(p, 35), 0x41A00000, 0x43480000) &&
    Word(p, 35) <= Word(p, 34) && UpTo(Word(p, 57), 0x42480000)
  }

  predicate RangeValid(channel: bv32, low: bv32, high: bv32) {
    4 <= channel < 16 && 900 <= low && high <= 2100 && low < high
  }

  predicate ReceiverValid(board: Board, p: Payload) {
    Word(p, 61) in board.uarts && 1 <= Word(p, 61) <= 8 && Word(p, 24) <= 1 && Word(p, 36) <= 1 && (board.crsf || Word(p, 36) == 0) &&
    RangeValid(Word(p, 25), Word(p, 26), Word(p, 27)) && RangeValid(Word(p, 28), Word(p, 29), Word(p, 30))
  }

  datatype UartStatus = UartOk | Unavailable | ReceiverConflict

  /** flight_settings_vtx_uart_status */
  function VtxUartStatus(board: Board, p: Payload): UartStatus {
    var port := Word(p, 50);
    if Word(p, 49) == 0 then if 1 <= port <= 8 then UartOk else Unavailable
    else if !(port in board.uarts && 1 <= port <= 8) then Unavailable
    else if port == Word(p, 61) then ReceiverConflict
    else UartOk
  }

  predicate VtxValid(board: Board, p: Payload) {
    VtxUartStatus(board, p) == UartOk && Word(p, 49) <= 3 && Word(p, 51) <= 1 && Word(p, 52) < 6 && Word(p, 53) < 8 &&
    1 <= Word(p, 54) <= 2000 && Word(p, 55) <= 1 && Word(p, 56) < 480
  }

  predicate LoopRate(hz: bv32) { hz == 8000 || hz == 16000 }

  predicate NameCharacter(c: octet) { c == 32 || c == 45 || 48 <= c <= 57 || 65 <= c <= 90 }

  /** The pilot name ends within its field. */
  predicate NameEnds(p: Payload) { exists k :: NAME <= k < NAME + NAME_BYTES && p[k] == 0 }

  predicate LayoutValid(p: Payload) {
    && Word(p, 39) < 32 && NameEnds(p)
    && (forall k :: 40 <= k < 45 ==> Word(p, k) < 480)
    && (forall k :: NAME <= k < NAME + NAME_BYTES && (forall j :: NAME <= j <= k ==> p[j] != 0) ==> NameCharacter(p[k]))
  }

  predicate MiscValid(p: Payload) {
    Word(p, 62) <= 2 && Word(p, 59) <= 1 && Word(p, 60) < 480 && Word(p, 31) <= 1 && Word(p, 32) <= 8 && Word(p, 33) <= 1 &&
    UpTo(Word(p, 22), 0x3F800000) && UpTo(Word(p, 23), 0x42C80000) &&
    AngleValid(Word(p, 10)) && AngleValid(Word(p, 11)) && AngleValid(Word(p, 12)) && Word(p, 13) <= 1 &&
    Between(Word(p, 14), 0x3F800000, 0x41200000) && Word(p, 9) in {0, 3, 4} &&
    Between(Word(p, 38), 0x3F000000, 0x3FC00000)
  }

  /** What flight_settings_set and flight_settings_init check. */
  predicate Valid(board: Board, p: Payload) {
    GainsValid(p, 0) && GainsValid(p, 3) && GainsValid(p, 6) && RatesValid(p) && FeedforwardValid(p) && FiltersValid(p) &&
    ReceiverValid(board, p) && VtxValid(board, p) && LoopRate(Word(p, 37)) && LoopRate(Word(p, 58)) &&
    Word(p, 58) <= Word(p, 37) && LayoutValid(p) && MiscValid(p)
  }

  /** Receiver and video transmitter never share a UART. */
  lemma UartsApart(board: Board, p: Payload)
    requires Valid(board, p) && Word(p, 49) != 0
    ensures Word(p, 50) != Word(p, 61) && Word(p, 50) in board.uarts && Word(p, 61) in board.uarts
  {
    hide Word, GainsValid, RatesValid, FeedforwardValid, FiltersValid, LayoutValid, MiscValid, LoopRate, RangeValid;
  }

  // ------------------------------------------------- flash

  /** The little-endian bytes of the magic number and of a version below 256. */
  function Head(version: bv32): seq<octet>
    requires version < 256
  {
    [0x43, 0x46, 0x34, 0x46, version as octet, 0, 0, 0]
  }

  /** settings_record_t */
  datatype Record = Record(magic: bv32, version: bv32, payload: Payload, checksum: bv32)

  function Checksum(version: bv32, data: seq<octet>): bv32
    requires version < 256
  {
    Fnv.Hash(Fnv.START, Head(version) + data)
  }

  /** The checksum loop over a record. */
  method ComputeChecksum(version: bv32, data: seq<octet>) returns (hash: bv32)
    requires version < 256
    ensures hash == Checksum(version, data)
  {
    hash := Fnv.Run(Fnv.START, Head(version) + data);
  }

  datatype Store = Store(board: Board, defaults: Payload, live: Payload, saved: bool, flash: Record)

  /** flight_settings_set */
  function Set(s: Store, p: Payload): Store {
    if Valid(s.board, p) then s.(live := p, saved := false) else s
  }

  /** flight_settings_save; a failed save leaves whatever it leaves in flash. */
  function Save(s: Store, ok: bool, left: Record): Store {
    s.(flash := if ok then Record(MAGIC, VERSION, s.live, Checksum(VERSION, s.live)) else left, saved := ok)
  }

  /** A version 27 record: the prefix before the video mode, then its checksum. */
  predicate Version27(r: Record) {
    r.magic == MAGIC && r.version == 27 && Word(r.payload, 62) == Checksum(27, r.payload[..V27_PREFIX])
  }

  function Migrated(s: Store): Payload { s.flash.payload[..V27_PREFIX] + s.defaults[V27_PREFIX..] }

  predicate Current(s: Store) {
    s.flash.magic == MAGIC && s.flash.version == VERSION &&
    s.flash.checksum == Checksum(VERSION, s.flash.payload) && Valid(s.board, s.flash.payload)
  }

  /** flight_settings_init for versions 27 and 28; anything else gives the defaults. */
  function Init(s: Store): Store {
    var reset := s.(live := s.defaults, saved := false);
    if Version27(s.flash) then Set(reset, Migrated(s))
    else if Current(s) then s.(live := s.flash.payload, saved := true)
    else reset
  }

  /** Flash holds settings that pass the validator, in this format or, migrated, in the one before. */
  predicate Offers(s: Store) { Current(s) || (Version27(s.flash) && Valid(s.board, Migrated(s))) }

  /** The settings that start up are valid unless flash offers none and the defaults of the board are not. */
  lemma InitValid(s: Store)
    ensures Valid(s.board, Init(s).live) <==> Offers(s) || Valid(s.board, s.defaults)
    ensures Init(s).live in {s.flash.payload, Migrated(s), s.defaults}
    ensures Init(s).saved <==> Current(s)
    ensures Init(s).saved ==> Init(s).live == s.flash.payload
  {
    hide Valid, Version27;
    VersionsApart(s);
  }

  /** The two formats have different version numbers. */
  lemma VersionsApart(s: Store)
    ensures !(Current(s) && Version27(s.flash))
  {
    hide Valid, Checksum, Word;
  }

  /** Settings that were saved are the settings that start up. */
  lemma SaveThenInit(s: Store, left: Record)
    requires Valid(s.board, s.live)
    ensures Init(Save(s, true, left)).live == s.live && Init(Save(s, true, left)).saved
  {
    hide Valid, Checksum, Word;
  }

  /** A version 27 record keeps its fields and takes the video mode from the defaults. */
  lemma MigrationKeeps(s: Store, k: nat)
    requires Version27(s.flash) && Valid(s.board, Migrated(s)) && k < 63
    ensures Init(s).live == Migrated(s) && !Init(s).saved
    ensures Word(Init(s).live, k) == if k < 62 then Word(s.flash.payload, k) else Word(s.defaults, 62)
  {
    hide Valid, Version27;
  }
}
