/**
 The SD card flight log of src/storage/blackbox_sd.c as a state machine: the card as
 sectors, the queue of blocks, the catalog of the twenty newest flights, and the sector
 write that runs by DMA while calls keep arriving.

 A block is what the checksum and the magic number of a sector vouch for; `Junk` is any
 sector that fails them.  `Tick` and `Probe` carry what the card answers.
 */
module SdModel {
  import opened Bytes
  import opened Records

  const QUEUE_BLOCKS := 32
  const BLOCK_RECORDS := 8
  const DATA_OFFSET := 2048
  const CATALOG_SECTOR := 2047
  const CATALOG_FLIGHTS := 20

  /** A metadata block has no records. */
  datatype Block = Block(flightId: nat, sequence: nat, stopFlag: byte, records: seq<Record>, payload: seq<byte>)

  datatype Entry = Entry(id: nat, start: nat, blocks: nat, count: nat, stopFlag: byte) {
    function End(): nat { start + blocks }
  }

  /** What a flight stands for: the metadata of its start and its records. */
  datatype Content = Content(metadata: Metadata, records: seq<Record>) {
    function Plus(more: seq<Record>): Content { Content(metadata, records + more) }
  }

  datatype Catalog = Catalog(generation: nat, nextSector: nat, nextId: nat, entries: seq<Entry>)

  datatype Sector = Junk | Data(block: Block) | Index(catalog: Catalog)

  datatype Phase = Absent | Ready | Recording | Error
  datatype Write = WriteIdle | WriteDma | WriteResponse | WriteBusy

  datatype Reply = Nothing | Accepted | Rejected

  /** What a write that did not finish has left in its sector. */
  datatype Outcome = Old | New | Torn

  /** Card detect, whether a write can be started, its deadline, the end of its DMA, the
      data response token, the end of its busy phase, and what a failure leaves behind. */
  datatype Tick = Tick(present: bool, begins: bool, expired: bool, dmaDone: bool, reply: Reply,
                       released: bool, outcome: Outcome)

  datatype Probe = Probe(present: bool, initOk: bool, readOk: bool)

  datatype State = State(
    card: seq<Sector>,
    // the driver
    phase: Phase, enabled: bool, nextSector: nat, flightId: nat, sequence: nat, dropped: nat,
    catalog: Catalog, start: nat, blocks: nat, count: nat,
    pending: bool, writingCatalog: bool, write: Write, queue: seq<Block>, current: Block,
    cache: Sector, cacheSector: nat, cacheValid: bool,
    layoutValid: bool, layoutId: nat, layoutBlocks: nat,
    // history
    metadata: Metadata,           // given when this flight began
    kept: seq<Record>,            // records of this flight that entered the queue
    offered: seq<Record>,         // records appended to this flight
    fates: seq<bool>,             // of its closed blocks: queued, or dropped for want of room
    droppedBefore: nat,           // the drop counter when the flight began
    flights: seq<Content>,        // the flights in `catalog`
    stored: seq<Content>,         // and the flights in the catalog on the card
    sent: Sector,                 // what the running write was started with
    wiped: bool,                  // a clear has not reached the card yet
    lost: bool,                   // the catalog on the card could not be read, and memory began without it
    damaged: nat,                 // so many of its flights, from the first, have been written over since
    tainted: nat                  // and so many of the flights in `catalog` had been when it was read
  ) {
    predicate Engaged() { phase == Recording || queue != [] }

    /** The sector from which on the driver may still write. */
    function Floor(): nat { if Engaged() then start else nextSector }

    predicate Live() { phase == Ready || phase == Recording || write != WriteIdle }

    predicate Resting() { phase == Ready && write == WriteIdle && queue == [] && !pending }

    /** What the DMA reads: the catalog or the oldest queued block. */
    function Source(): Sector {
      if writingCatalog then Index(catalog) else if queue == [] then Junk else Data(queue[0])
    }

    function Target(): nat { if writingCatalog then CATALOG_SECTOR else nextSector }

    function Flight(): Content { Content(metadata, kept) }

    function OwnEntry(flag: byte): Entry { Entry(flightId, start, blocks, count, flag) }
  }

  const EMPTY_BLOCK := Block(0, 0, 0, [], [])
  const EMPTY_CATALOG := Catalog(0, DATA_OFFSET, 1, [])

  predicate Loadable(s: Sector, size: nat) {
    s.Index? && |s.catalog.entries| <= CATALOG_FLIGHTS && DATA_OFFSET <= s.catalog.nextSector < size &&
    s.catalog.nextId != 0
  }

  predicate CardOf(card: seq<Sector>) { 3072 < |card| < WORD }

  // ------------------------------------------------- starting and finishing a sector write

  /** queue first, then the catalog */
  function BeginWrite(s: State, t: Tick): State {
    if s.queue != [] then BeginData(s, t) else if s.pending then BeginCatalog(s, t) else s
  }

  function BeginData(s: State, t: Tick): State
    requires s.queue != []
  {
    var ok := s.nextSector < |s.card| && t.begins;
    s.(phase := if ok then s.phase else Error, enabled := ok && s.enabled,
       write := if ok then WriteDma else s.write, writingCatalog := !ok && s.writingCatalog,
       sent := if ok then Data(s.queue[0]) else s.sent)
  }

  function BeginCatalog(s: State, t: Tick): State {
    var c := s.catalog.(nextSector := s.nextSector);
    s.(catalog := c, phase := if t.begins then s.phase else Error, enabled := t.begins && s.enabled,
       write := if t.begins then WriteDma else s.write, writingCatalog := t.begins || s.writingCatalog,
       sent := if t.begins then Index(c) else s.sent)
  }

  /** The sector of the running write after a failure or a power cut. */
  function After(s: State, o: Outcome): seq<Sector>
    requires CardOf(s.card) && (s.write != WriteIdle ==> s.Target() < |s.card|)
  {
    if s.write == WriteIdle || o == Old then s.card
    else s.card[s.Target() := if o == New then s.Source() else Junk]
  }

  predicate CatalogGoes(s: State, o: Outcome) { s.write != WriteIdle && s.writingCatalog && o == New }

  function StoredAfter(s: State, o: Outcome): seq<Content> {
    if CatalogGoes(s, o) then s.flights else s.stored
  }

  /** How many flights begin at sector `x` or before it. */
  function Reach(entries: seq<Entry>, x: nat): (r: nat)
    ensures r <= |entries| && forall i :: r <= i < |entries| ==> x < entries[i].start
  {
    if entries == [] then 0
    else if entries[|entries| - 1].start <= x then |entries|
    else Reach(entries[..|entries| - 1], x)
  }

  /** The flights that the card lists. */
  function CardEntries(card: seq<Sector>): seq<Entry>
    requires CardOf(card)
  {
    if card[CATALOG_SECTOR].Index? then card[CATALOG_SECTOR].catalog.entries else []
  }

  /** The flights that are written over once sector `x` is. */
  function Worn(s: State, x: nat): nat
    requires CardOf(s.card)
  {
    var reach := Reach(CardEntries(s.card), x);
    if s.lost && s.damaged < reach then reach else s.damaged
  }

  function DamagedAfter(s: State, o: Outcome): nat
    requires CardOf(s.card)
  {
    if s.write == WriteIdle || o == Old then s.damaged
    else if !s.writingCatalog then Worn(s, s.nextSector)
    else if o == New then s.tainted else s.damaged
  }

  function WriteFailed(s: State, o: Outcome): State
    requires CardOf(s.card) && (s.write != WriteIdle ==> s.Target() < |s.card|)
  {
    s.(card := After(s, o), stored := StoredAfter(s, o), damaged := DamagedAfter(s, o),
       lost := s.lost && !CatalogGoes(s, o), write := WriteIdle, phase := Error, enabled := false)
  }

  function CatalogDone(s: State): State
    requires CardOf(s.card)
  {
    s.(card := s.card[CATALOG_SECTOR := s.Source()], stored := s.flights, write := WriteIdle,
       writingCatalog := false, pending := false, wiped := false, lost := false, damaged := s.tainted)
  }

  function DataDone(s: State): State
    requires CardOf(s.card) && s.queue != [] && s.nextSector < |s.card|
  {
    s.(card := s.card[s.nextSector := s.Source()], write := WriteIdle, queue := s.queue[1..],
       nextSector := s.nextSector + 1, damaged := Worn(s, s.nextSector))
  }

  /** What the rest of the driver relies on: indices in range, one writer, the DMA source untouched. */
  predicate Shape(s: State) {
    && CardOf(s.card) && DATA_OFFSET <= s.nextSector <= |s.card|
    && |s.queue| <= QUEUE_BLOCKS && |s.current.records| < BLOCK_RECORDS
    && |s.catalog.entries| <= CATALOG_FLIGHTS && |s.flights| == |s.catalog.entries|
    && s.flightId < WORD && s.catalog.nextId < WORD && DATA_OFFSET <= s.catalog.nextSector <= s.nextSector && s.count < WORD && s.dropped < WORD
    && (s.phase == Recording ==> !s.pending && s.flightId == s.catalog.nextId)
    && (s.write != WriteIdle ==> s.Target() < |s.card| && s.sent == s.Source() && WriterOf(s))
  }

  predicate WriterOf(s: State) {
    if s.writingCatalog then s.pending && s.queue == [] && s.catalog.nextSector == s.nextSector
    else s.queue != []
  }

  function WriteDone(s: State): State
    requires Shape(s) && s.write != WriteIdle
  {
    if s.writingCatalog then CatalogDone(s) else DataDone(s)
  }

  /** The running write moves on, possibly through several phases in one update. */
  function Advance(s: State, t: Tick): State
    requires Shape(s) && s.write != WriteIdle
  {
    if t.expired then WriteFailed(s, t.outcome)
    else if s.write == WriteDma && !t.dmaDone then s
    else if s.write != WriteBusy && t.reply == Nothing then s.(write := WriteResponse)
    else if s.write != WriteBusy && t.reply == Rejected then WriteFailed(s, t.outcome)
    else if !t.released then s.(write := WriteBusy)
    else WriteDone(s)
  }

  function Update(s: State, t: Tick): State
    requires Shape(s)
  {
    if !t.present then s.(phase := Absent, enabled := false)
    else if s.phase != Ready && s.phase != Recording then s
    else if s.write == WriteIdle then BeginWrite(s, t)
    else Advance(s, t)
  }

  // ------------------------------------------------- recording

  /** queue_metadata on an empty queue; without metadata the driver stays ready. */
  function Begin(s: State, metadata: Option<Metadata>): State {
    var some := metadata.Some?;
    s.(flightId := s.catalog.nextId, start := s.nextSector, count := 0, current := EMPTY_BLOCK,
       cacheValid := false, layoutValid := false,
       sequence := if some then 1 else 0, blocks := if some then 1 else 0,
       queue := if some then [Block(s.catalog.nextId, 0, 0, [], metadata.value)] else s.queue,
       phase := if some then Recording else s.phase,
       metadata := if some then metadata.value else s.metadata, kept := [], offered := [], fates := [], droppedBefore := s.dropped)
  }

  function Start(s: State, metadata: Option<Metadata>): State {
    if !s.enabled || !s.Resting() then s
    else if s.nextSector >= |s.card| then s.(phase := Error, enabled := false)
    else Begin(s, metadata)
  }

  /** A record goes into the block being filled. */
  function Fill(s: State, r: Record): Block {
    if s.current.records == [] then s.current.(flightId := s.flightId, records := [r])
    else s.current.(records := s.current.records + [r])
  }

  /** queue_current with room: the block gets its sequence number only now. */
  function Push(s: State, b: Block): State {
    s.(queue := s.queue + [b.(sequence := s.sequence)], sequence := Add32(s.sequence, 1),
       blocks := Add32(s.blocks, 1), count := Add32(s.count, |b.records|), current := EMPTY_BLOCK,
       kept := s.kept + b.records, fates := s.fates + [true])
  }

  /** queue_current without room: the block and its records are dropped. */
  function Drop(s: State, b: Block): State {
    s.(dropped := Add32(s.dropped, |b.records|), current := EMPTY_BLOCK, fates := s.fates + [false])
  }

  function QueueCurrent(s: State, b: Block): State {
    if |b.records| == 0 then s.(current := b)
    else if |s.queue| >= QUEUE_BLOCKS then Drop(s, b)
    else Push(s, b)
  }

  function Append(s: State, r: Record): State {
    if s.phase != Recording then s
    else
      var b := Fill(s, r);
      var more := s.(offered := s.offered + [r]);
      if |b.records| < BLOCK_RECORDS then more.(current := b) else QueueCurrent(more, b)
  }

  /** append_catalog_entry: the oldest of twenty flights makes room. */
  function AppendEntry(s: State, flag: byte): State {
    var full := |s.catalog.entries| >= CATALOG_FLIGHTS;
    s.(catalog := Catalog(Add32(s.catalog.generation, 1), s.catalog.nextSector, Add32(s.flightId, 1),
                          (if full then s.catalog.entries[1..] else s.catalog.entries) + [s.OwnEntry(flag)]),
       flights := (if full && |s.flights| > 0 then s.flights[1..] else s.flights) + [s.Flight()],
       tainted := if full && s.tainted > 0 then s.tainted - 1 else s.tainted, pending := true, phase := Ready)
  }

  function Stop(s: State, flag: byte, retain: bool): State {
    if s.phase != Recording then s
    else if !retain then s.(current := EMPTY_BLOCK, phase := Ready)
    else
      var q := QueueCurrent(s, s.current.(stopFlag := flag));
      if q.count > 0 then AppendEntry(q, flag) else q.(phase := Ready)
  }

  function Clear(s: State): State {
    if s.phase != Ready || s.write != WriteIdle || s.queue != [] then s
    else s.(catalog := EMPTY_CATALOG.(generation := Add32(s.catalog.generation, 1)),
            nextSector := DATA_OFFSET, flightId := 0, dropped := 0, pending := true,
            cacheValid := false, layoutValid := false, flights := [], tainted := 0, wiped := true)
  }

  function Enable(s: State, value: bool): State { s.(enabled := value && s.phase == Ready) }

  // ------------------------------------------------- finding the card again

  /** The fields a probe resets, and load_catalog once the card answers. */
  function Reload(s: State, p: Probe): State
    requires CardOf(s.card)
  {
    var stored := s.card[CATALOG_SECTOR];
    var load := p.initOk && p.readOk && Loadable(stored, |s.card|);
    s.(queue := [], pending := false, writingCatalog := false, cacheValid := false, layoutValid := false,
       current := EMPTY_BLOCK, phase := if p.initOk then Ready else Error,
       catalog := if load then stored.catalog else if p.initOk then EMPTY_CATALOG else s.catalog,
       nextSector := if load then stored.catalog.nextSector else if p.initOk then DATA_OFFSET else s.nextSector,
       flightId := if p.initOk && !load then 0 else s.flightId,
       flights := if load then s.stored else if p.initOk then [] else s.flights,
       tainted := if load then s.damaged else if p.initOk then 0 else s.tainted,
       wiped := false, lost := if p.initOk then !p.readOk && Loadable(stored, |s.card|) else s.lost)
  }

  function Reprobe(s: State, p: Probe): State
    requires CardOf(s.card)
  {
    if s.phase == Recording || s.write != WriteIdle then s
    else if !p.present then s.(phase := Absent, enabled := false)
    else Reload(s, p)
  }

  /** Memory at power-on: the card, the flights its catalog stands for, and how many of them are damaged. */
  function Zeroed(card: seq<Sector>, stored: seq<Content>, damaged: nat): State {
    State(card, Absent, false, DATA_OFFSET, 0, 0, 0, EMPTY_CATALOG, DATA_OFFSET, 0, 0, false, false, WriteIdle, [],
          EMPTY_BLOCK, Junk, 0, false, false, 0, 0, seq(METADATA_BYTES, _ => 0), [], [], [], 0, [], stored, Junk, false, false,
          damaged, 0)
  }

  /** Memory is lost; the sector being written is left old, new or torn. */
  function PowerOff(s: State, o: Outcome): State
    requires Shape(s)
  {
    Zeroed(After(s, o), StoredAfter(s, o), DamagedAfter(s, o))
  }

  /** blackbox_sd_init after power-on. */
  function Init(s: State, p: Probe): State
    requires CardOf(s.card)
  {
    if !p.present then s else Reload(s, p)
  }

  datatype Event =
    | Updated(t: Tick)
    | Started(metadata: Option<Metadata>)
    | Appended(r: Record)
    | Stopped(flag: byte, retain: bool)
    | Cleared
    | Enabled(value: bool)
    | Probed(p: Probe)
    | PowerCycled(o: Outcome, p: Probe)

  function Step(s: State, e: Event): State
    requires Shape(s)
  {
    match e
    case Updated(t) => Update(s, t)
    case Started(metadata) => Start(s, metadata)
    case Appended(r) => Append(s, r)
    case Stopped(flag, retain) => Stop(s, flag, retain)
    case Cleared => Clear(s)
    case Enabled(value) => Enable(s, value)
    case Probed(p) => Reprobe(s, p)
    case PowerCycled(o, p) => CutShape(s, o); Init(PowerOff(s, o), p)
  }

  lemma CutShape(s: State, o: Outcome)
    requires Shape(s)
    ensures CardOf(PowerOff(s, o).card) && |PowerOff(s, o).card| == |s.card|
  {}
}
