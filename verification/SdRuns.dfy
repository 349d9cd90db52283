/**
 Whole runs of the SD log (src/storage/blackbox_sd.c): writes in the right order, an
 untouched DMA source, flights that survive a power cut, and reading records back.
 */
module SdRuns {
  import opened Bytes
  import opened Records
  import opened SdModel
  import opened SdSafety

  // ------------------------------------------------- order of writes

  /** A catalog write starts only when every block it lists is on the card, but for flights that were
      damaged before the catalog was read. */
  lemma CatalogAfterBlocks(s: State, t: Tick)
    requires Sound(s) && s.write == WriteIdle
    requires Update(s, t).write != WriteIdle && Update(s, t).writingCatalog
    ensures var u := Update(s, t);
      && u.queue == [] && u.sent == Index(u.catalog) && u.card == s.card
      && Ranges(u.catalog, u.catalog.nextSector) && |u.flights| == |u.catalog.entries|
      && u.tainted <= |u.flights| && forall i :: u.tainted <= i < |u.flights| ==> StoredOn(u.card, u.catalog.entries[i], u.flights[i])
  {
    UpdateSound(s, t);
    CatalogListsStored(Update(s, t));
    hide Sound, StoredOn, Ranges;
  }

  /** A data write starts at the sector behind everything that is catalogued. */
  lemma DataBehindCatalog(s: State, t: Tick)
    requires Sound(s) && s.write == WriteIdle
    requires Update(s, t).write != WriteIdle && !Update(s, t).writingCatalog
    ensures var u := Update(s, t);
      && s.queue != [] && u.sent == Data(s.queue[0]) && u.Target() == s.nextSector < |s.card|
      && (forall i :: 0 <= i < |s.flights| && !Draining(s, i) ==> s.catalog.entries[i].End() <= s.nextSector)
      && (!s.lost && !s.wiped && Loadable(s.card[CATALOG_SECTOR], |s.card|) ==>
            s.card[CATALOG_SECTOR].catalog.nextSector <= s.nextSector)
  {
    hide StoredOn, Part, BlocksOn, Ranges;
  }

  /** While a sector write runs, no call changes what its DMA reads or where it goes. */
  lemma DmaUntouched(s: State, e: Event)
    requires Sound(s) && s.write != WriteIdle && !e.PowerCycled?
    requires Step(s, e).write != WriteIdle
    ensures Step(s, e).sent == s.sent == Step(s, e).Source() && Step(s, e).Target() == s.Target()
  {
    StepSound(s, e);
    SourceHeld(s);
    SourceHeld(Step(s, e));
    WriterHeld(s, e);
    hide Sound, Step;
  }

  predicate SameWrite(s: State, u: State) {
    u.sent == s.sent && u.nextSector == s.nextSector && u.writingCatalog == s.writingCatalog
  }

  lemma WriterHeld(s: State, e: Event)
    requires Sound(s) && s.write != WriteIdle && !e.PowerCycled? && Step(s, e).write != WriteIdle
    ensures SameWrite(s, Step(s, e))
  {
    assert Shape(s);
    hide Sound, Shape, Update, Append, Stop, Reload, Begin;
    match e {
      case Updated(t) => UpdateHeld(s, t);
      case Appended(r) => AppendHeld(s, r);
      case Stopped(flag, retain) => StopHeld(s, flag, retain);
      case _ =>
    }
  }

  lemma UpdateHeld(s: State, t: Tick)
    requires Shape(s) && s.write != WriteIdle && Update(s, t).write != WriteIdle
    ensures SameWrite(s, Update(s, t))
  {
    hide Shape, WriteFailed, WriteDone, BeginWrite, SameWrite, After;
    FinishedIdle(s, t.outcome);
    PhasesHeld(s);
  }

  lemma PhasesHeld(s: State)
    ensures SameWrite(s, s) && SameWrite(s, s.(write := WriteResponse)) && SameWrite(s, s.(write := WriteBusy))
    ensures SameWrite(s, s.(phase := Absent, enabled := false))
  {}

  lemma FinishedIdle(s: State, o: Outcome)
    requires Shape(s) && s.write != WriteIdle
    ensures WriteFailed(s, o).write == WriteIdle && WriteDone(s).write == WriteIdle
  {}

  lemma QueueHeld(s: State, b: Block)
    ensures SameWrite(s, QueueCurrent(s, b))
  {
    assert SameWrite(s, Push(s, b)) && SameWrite(s, Drop(s, b));
    hide Push, Drop;
  }

  lemma AppendHeld(s: State, r: Record)
    ensures SameWrite(s, Append(s, r))
  {
    hide QueueCurrent, Fill;
    QueueHeld(s.(offered := s.offered + [r]), Fill(s, r));
  }

  lemma StopHeld(s: State, flag: byte, retain: bool)
    ensures SameWrite(s, Stop(s, flag, retain))
  {
    var q := QueueCurrent(s, s.current.(stopFlag := flag));
    QueueHeld(s, s.current.(stopFlag := flag));
    assert SameWrite(q, AppendEntry(q, flag));
    hide QueueCurrent, AppendEntry;
  }

  lemma SourceHeld(s: State)
    requires Sound(s) && s.write != WriteIdle
    ensures s.sent == s.Source()
  {}

  // ------------------------------------------------- reading a record back

  /** The first catalog entry of flight `id`. */
  function Find(entries: seq<Entry>, id: nat): (x: nat)
    ensures x <= |entries|
    ensures x < |entries| ==> entries[x].id == id
    ensures forall i :: 0 <= i < x ==> entries[i].id != id
  {
    if entries == [] then 0 else if entries[0].id == id then 0 else 1 + Find(entries[1..], id)
  }

  /** Catalogued ids are distinct, even where the 32-bit id wraps around. */
  lemma DistinctIds(c: Catalog, limit: nat, i: nat, j: nat)
    requires Ranges(c, limit) && |c.entries| <= CATALOG_FLIGHTS && i < j < |c.entries|
    ensures c.entries[i].id != c.entries[j].id
  {
    IdsApart(c.nextId, |c.entries| - i, |c.entries| - j);
  }

  lemma IdsApart(x: nat, a: nat, b: nat)
    requires a != b && a <= 20 && b <= 20
    ensures Sub32(x, a) != Sub32(x, b)
  {}

  predicate MetadataBlock(s: Sector, id: nat) { s.Data? && s.block.flightId == id && s.block.records == [] }

  /** read_sector through the cache; a failed read leaves the cache alone. */
  function Fetch(s: State, sector: nat, ok: bool): State {
    if s.cacheValid && s.cacheSector == sector then s
    else if ok && sector < |s.card| then s.(cache := s.card[sector], cacheValid := true, cacheSector := sector)
    else s
  }

  predicate Fetched(s: State, sector: nat) { s.cacheValid && s.cacheSector == sector }

  /** The checks on a record block, and record `r` of the flight in it. */
  function Slot(cache: Sector, id: nat, block: nat, r: nat): Option<Record> {
    if !cache.Data? || cache.block.flightId != id || cache.block.sequence < block ||
       |cache.block.records| > BLOCK_RECORDS || r % 8 >= |cache.block.records| then None
    else Some(cache.block.records[r % 8])
  }

  datatype Got = Got(state: State, record: Option<Record>)

  /** blackbox_sd_get_record; `ok1` and `ok2` tell whether a read of the first and of the
      record block succeeds if it is needed. */
  function GetRecord(s: State, id: nat, r: nat, ok1: bool, ok2: bool): Got {
    var x := Find(s.catalog.entries, id);
    if !s.Resting() || x == |s.catalog.entries| || r >= s.catalog.entries[x].count then Got(s, None)
    else
      var e := s.catalog.entries[x];
      var first := Fetch(s, e.start, ok1);
      var block := (if MetadataBlock(first.cache, id) then 1 else 0) + r / 8;
      if !Fetched(first, e.start) then Got(first, None)
      else if block >= e.blocks then Got(first, None)
      else
        var second := Fetch(first, e.start + block, ok2);
        if !Fetched(second, e.start + block) then Got(second, None)
        else Got(second, Slot(second.cache, id, block, r))
  }

  lemma FetchSound(s: State, sector: nat, ok: bool)
    requires Sound(s) && s.Resting() && DATA_OFFSET <= sector < |s.card|
    ensures var f := Fetch(s, sector, ok);
      Sound(f) && f.Resting() && f == s.(cache := f.cache, cacheValid := f.cacheValid, cacheSector := f.cacheSector)
    ensures Fetched(Fetch(s, sector, ok), sector) ==> Fetch(s, sector, ok).cache == s.card[sector]
    ensures ok ==> Fetched(Fetch(s, sector, ok), sector)
  {
    hide Part, BlocksOn, StoredOn, Loadable, Survivors;
  }

  /** At rest every flight of the catalog is on the card, unless it was damaged before the catalog was read. */
  lemma RestingStored(s: State, x: nat)
    requires Sound(s) && s.Resting() && s.tainted <= x < |s.catalog.entries|
    ensures |s.flights| == |s.catalog.entries| && StoredOn(s.card, s.catalog.entries[x], s.flights[x])
    ensures DATA_OFFSET <= s.catalog.entries[x].start
  {
    hide Part, BlocksOn, StoredOn, Loadable, Survivors;
  }

  /** Record `r` of a stored flight sits in block 1 + r/8, slot r%8. */
  lemma RecordPlace(card: seq<Sector>, e: Entry, c: Content, r: nat)
    requires StoredOn(card, e, c) && r < |c.records|
    ensures 1 + r / 8 < e.blocks && e.start + 1 + r / 8 < |card|
    ensures MetadataBlock(card[e.start], e.id) && card[e.start].block.payload == c.metadata
    ensures Slot(card[e.start + 1 + r / 8], e.id, 1 + r / 8, r) == Some(c.records[r])
    ensures card[e.start + 1 + r / 8].Data? && |card[e.start + 1 + r / 8].block.records| <= 8
    ensures |card[e.start + 1 + r / 8].block.records| == Share(|c.records|, 1 + r / 8)
    ensures card[e.start + 1 + r / 8].block.sequence == 1 + r / 8
  {
    assert BlockOn(card, e.start, 0, e.id, c);
    assert BlockOn(card, e.start, 1 + r / 8, e.id, c);
    assert r == 8 * (r / 8) + r % 8;
  }

  /** The records of a flight that can be asked for. */
  function Count(s: State, x: nat): nat
    requires x < |s.flights|
  {
    |s.flights[x].records| % WORD
  }

  /** What get_record returns is the record, and with successful reads it returns every one. */
  lemma GetRecordReturns(s: State, id: nat, r: nat, ok1: bool, ok2: bool)
    requires Sound(s) && s.Resting() && s.tainted <= Find(s.catalog.entries, id)
    ensures var x, g := Find(s.catalog.entries, id), GetRecord(s, id, r, ok1, ok2);
      && Sound(g.state) && |s.flights| == |s.catalog.entries|
      && g.state == s.(cache := g.state.cache, cacheValid := g.state.cacheValid, cacheSector := g.state.cacheSector)
      && (x == |s.flights| || r >= Count(s, x) ==> g.record == None)
      && (x < |s.flights| && r < Count(s, x) ==> g.record in [None, Some(s.flights[x].records[r])])
      && (x < |s.flights| && r < Count(s, x) && ok1 && ok2 ==> g.record == Some(s.flights[x].records[r]))
  {
    hide Sound, StoredOn, Find, GetRecord;
    var x := Find(s.catalog.entries, id);
    FlightCount(s, x);
    if x < |s.catalog.entries| && r < s.catalog.entries[x].count {
      RecordReturned(s, id, x, r, ok1, ok2);
    } else {
      NothingReturned(s, id, r, ok1, ok2);
    }
  }

  lemma NothingReturned(s: State, id: nat, r: nat, ok1: bool, ok2: bool)
    requires var x := Find(s.catalog.entries, id); x == |s.catalog.entries| || r >= s.catalog.entries[x].count
    ensures GetRecord(s, id, r, ok1, ok2) == Got(s, None)
  {}

  lemma RecordReturned(s: State, id: nat, x: nat, r: nat, ok1: bool, ok2: bool)
    requires Sound(s) && s.Resting() && x == Find(s.catalog.entries, id) && s.tainted <= x < |s.catalog.entries| == |s.flights|
    requires r < s.catalog.entries[x].count <= |s.flights[x].records|
    ensures var g, y := GetRecord(s, id, r, ok1, ok2), Some(s.flights[x].records[r]);
      && Sound(g.state) && (g.record == None || g.record == y) && (ok1 && ok2 ==> g.record == y)
      && g.state == s.(cache := g.state.cache, cacheValid := g.state.cacheValid, cacheSector := g.state.cacheSector)
  {
    hide Sound, StoredOn, Slot, MetadataBlock, Fetch, Find, Share;
    var e := s.catalog.entries[x];
    RestingStored(s, x);
    RecordPlace(s.card, e, s.flights[x], r);
    FetchSound(s, e.start, ok1);
    FetchSound(Fetch(s, e.start, ok1), e.start + 1 + r / 8, ok2);
  }

  lemma FlightCount(s: State, x: nat)
    requires Sound(s) && s.Resting() && s.tainted <= x
    ensures |s.flights| == |s.catalog.entries|
    ensures x < |s.flights| ==> s.catalog.entries[x].count == Count(s, x) <= |s.flights[x].records|
  {
    if x < |s.flights| { RestingStored(s, x); }
  }

  /** A record that entered the catalog is found under its flight's id. */
  lemma FindEntry(s: State, x: nat)
    requires Sound(s) && s.Resting() && x < |s.catalog.entries|
    ensures Find(s.catalog.entries, s.catalog.entries[x].id) == x
  {
    hide Part, BlocksOn, StoredOn, Loadable, Survivors, Sub32;
    var y := Find(s.catalog.entries, s.catalog.entries[x].id);
    if y < x { DistinctIds(s.catalog, s.nextSector, y, x); }
  }

  // ------------------------------------------------- reading the metadata back

  datatype Info = Info(state: State, payload: Option<seq<byte>>)

  /** blackbox_sd_get_metadata, up to the decoding of the payload.  The sector goes to the cache even if it
      turns out to be something else; only then does the cache not know it. */
  function GetMetadata(s: State, id: nat, ok: bool): Info {
    var x := Find(s.catalog.entries, id);
    if !s.Resting() || x == |s.catalog.entries| || !ok || s.catalog.entries[x].start >= |s.card| then Info(s, None)
    else
      var sector := s.catalog.entries[x].start;
      var read := s.(cache := s.card[sector]);
      if !MetadataBlock(s.card[sector], id) then Info(read, None)
      else Info(read.(cacheValid := true, cacheSector := sector), Some(s.card[sector].block.payload))
  }

  /** What get_metadata returns was given when the flight began. */
  lemma GetMetadataReturns(s: State, id: nat, ok: bool)
    requires Sound(s) && s.Resting() && s.tainted <= Find(s.catalog.entries, id)
    ensures var x, g := Find(s.catalog.entries, id), GetMetadata(s, id, ok);
      && Sound(g.state) && |s.flights| == |s.catalog.entries|
      && g.payload == if x < |s.flights| && ok then Some(s.flights[x].metadata) else None
  {
    var x := Find(s.catalog.entries, id);
    FlightCount(s, x);
    if x < |s.catalog.entries| {
      RestingStored(s, x);
      EntryRecords(s.card, s.catalog.entries[x], s.flights[x]);
      RecordPlace(s.card, s.catalog.entries[x], s.flights[x], 0);
      CacheSound(s, s.catalog.entries[x].start);
    }
    hide Sound, StoredOn;
  }

  lemma EntryRecords(card: seq<Sector>, e: Entry, c: Content)
    requires StoredOn(card, e, c)
    ensures c.records != [] && e.start < |card|
  {
    assert BlockOn(card, e.start, 0, e.id, c);
  }

  lemma CacheSound(s: State, sector: nat)
    requires Sound(s) && s.Resting() && DATA_OFFSET <= sector < |s.card|
    ensures Sound(s.(cache := s.card[sector], cacheValid := true, cacheSector := sector))
  {
    hide Part, BlocksOn, StoredOn, Loadable, Survivors;
  }

  // ------------------------------------------------- reading several records

  datatype Batch = Batch(state: State, records: seq<Record>)

  function Least(a: int, b: int): int { if a < b then a else b }

  /** How many of the records of flight `e` a batch from record `r` holds. */
  function BatchSize(e: Entry, records: seq<Record>, r: nat, capacity: nat): int {
    Least(Least(Share(|records|, 1 + r / 8) - r % 8, capacity), e.count - r)
  }

  /** The first block is read once per flight to see where its records begin. */
  function Layout(s: State, e: Entry, ok: bool): State {
    if s.layoutValid && s.layoutId == e.id then s
    else if ok && e.start < |s.card| then
      s.(cache := s.card[e.start], cacheValid := true, cacheSector := e.start, layoutValid := true,
         layoutId := e.id, layoutBlocks := if MetadataBlock(s.card[e.start], e.id) then 1 else 0)
    else s
  }

  /** blackbox_sd_get_records; `ok1` and `ok2` tell whether the reads succeed, retries included. */
  function GetRecords(s: State, id: nat, r: nat, capacity: nat, ok1: bool, ok2: bool): Batch {
    var x := Find(s.catalog.entries, id);
    if capacity == 0 || !s.Resting() || x == |s.catalog.entries| || r >= s.catalog.entries[x].count then Batch(s, [])
    else
      var e := s.catalog.entries[x];
      var known := Layout(s, e, ok1);
      var block := known.layoutBlocks + r / 8;
      if !known.layoutValid || known.layoutId != id || block >= e.blocks then Batch(known, [])
      else
        var read := Fetch(known, e.start + block, ok2);
        if !Fetched(read, e.start + block) || Slot(read.cache, id, block, r) == None then Batch(read, [])
        else
          var all := read.cache.block.records;
          var n := Least(Least(|all| - r % 8, capacity), e.count - r);
          Batch(read, all[r % 8..r % 8 + n])
  }

  lemma LayoutSound(s: State, x: nat, ok: bool)
    requires Sound(s) && s.Resting() && s.tainted <= x < |s.catalog.entries|
    ensures var e := s.catalog.entries[x]; var l := Layout(s, e, ok);
      && Sound(l) && l.Resting() && l.card == s.card && l.catalog == s.catalog
      && l.tainted == s.tainted && (ok ==> l.layoutValid && l.layoutId == e.id)
      && (l.layoutValid && l.layoutId == e.id ==> l.layoutBlocks == 1)
  {
    RestingStored(s, x);
    RecordPlace(s.card, s.catalog.entries[x], s.flights[x], 0);
    OneEntry(s, x);
    hide Part, BlocksOn, StoredOn, Loadable, Survivors;
  }

  /** No other entry has the flight's id. */
  lemma OneEntry(s: State, x: nat)
    requires Sound(s) && s.Resting() && x < |s.catalog.entries|
    ensures forall i :: 0 <= i < |s.catalog.entries| && s.catalog.entries[i].id == s.catalog.entries[x].id ==> i == x
  {
    hide Part, BlocksOn, StoredOn, Loadable, Survivors, Sub32;
    forall i | 0 <= i < |s.catalog.entries| && i != x
      ensures s.catalog.entries[i].id != s.catalog.entries[x].id
    {
      if i < x { DistinctIds(s.catalog, s.nextSector, i, x); } else { DistinctIds(s.catalog, s.nextSector, x, i); }
    }
  }

  lemma BatchPlace(card: seq<Sector>, e: Entry, c: Content, r: nat, n: nat)
    requires StoredOn(card, e, c) && 0 < n && r + n <= |c.records| && r % 8 + n <= Share(|c.records|, 1 + r / 8)
    ensures e.start + 1 + r / 8 < |card| && card[e.start + 1 + r / 8].Data?
    ensures r % 8 + n <= |card[e.start + 1 + r / 8].block.records|
    ensures card[e.start + 1 + r / 8].block.records[r % 8..r % 8 + n] == c.records[r..r + n]
  {
    assert BlockOn(card, e.start, 1 + r / 8, e.id, c);
  }

  /** A batch is a stretch of the flight, cut off by the capacity, the block or the flight's end. */
  lemma GetRecordsReturns(s: State, id: nat, r: nat, capacity: nat, ok1: bool, ok2: bool)
    requires Sound(s) && s.Resting() && s.tainted <= Find(s.catalog.entries, id)
    ensures var x, b := Find(s.catalog.entries, id), GetRecords(s, id, r, capacity, ok1, ok2);
      && |s.flights| == |s.catalog.entries| && Sound(b.state)
      && (x == |s.flights| || r >= Count(s, x) || capacity == 0 ==> b.records == [])
      && (x < |s.flights| && r < Count(s, x) && capacity > 0 ==>
            var all := s.flights[x].records;
            var n := BatchSize(s.catalog.entries[x], all, r, capacity);
            && 0 < n <= |all| - r && b.records in [[], all[r..r + n]]
            && (ok1 && ok2 ==> b.records == all[r..r + n]))
  {
    hide Sound, StoredOn, MetadataBlock, Fetch, Layout, Slot, Share, Least;
    var x := Find(s.catalog.entries, id);
    FlightCount(s, x);
    if x < |s.catalog.entries| && r < s.catalog.entries[x].count && capacity > 0 {
      var e, all := s.catalog.entries[x], s.flights[x].records;
      LayoutSound(s, x, ok1);
      RestingStored(s, x);
      RecordPlace(s.card, e, s.flights[x], r);
      FetchSound(Layout(s, e, ok1), e.start + 1 + r / 8, ok2);
      BatchFits(e, all, r, capacity);
      BatchPlace(s.card, e, s.flights[x], r, BatchSize(e, all, r, capacity));
    }
  }

  lemma BatchFits(e: Entry, records: seq<Record>, r: nat, capacity: nat)
    requires r < e.count <= |records| && capacity > 0
    ensures var n := BatchSize(e, records, r, capacity);
      0 < n <= |records| - r && r % 8 + n <= Share(|records|, 1 + r / 8)
  {}

  lemma BatchWithin(e: Entry, records: seq<Record>, r: nat, capacity: nat)
    ensures r + BatchSize(e, records, r, capacity) <= e.count
  {}

  /** A batch holds what reading record by record returns. */
  lemma BatchIsRepeatedGet(s: State, id: nat, r: nat, capacity: nat, ok1: bool, ok2: bool, j: nat)
    requires Sound(s) && s.Resting() && s.tainted <= Find(s.catalog.entries, id)
    requires j < |GetRecords(s, id, r, capacity, ok1, ok2).records|
    ensures GetRecord(s, id, r + j, true, true).record == Some(GetRecords(s, id, r, capacity, ok1, ok2).records[j])
  {
    hide Sound, GetRecord, GetRecords, BatchSize;
    GetRecordsReturns(s, id, r, capacity, ok1, ok2);
    var x := Find(s.catalog.entries, id);
    FlightCount(s, x);
    var all := s.flights[x].records;
    var n := BatchSize(s.catalog.entries[x], all, r, capacity);
    BatchWithin(s.catalog.entries[x], all, r, capacity);
    GetRecordReturns(s, id, r + j, true, true);
    assert all[r..r + n][j] == all[r + j];
  }

  // ------------------------------------------------- power cuts

  /** After a power cut the flights found are those of the catalog on the card, with their metadata and
      all their records, but for those that have been written over; a torn catalog sector reads as no
      catalog. */
  lemma CrashKeepsFlights(s: State, o: Outcome)
    requires Sound(s)
    ensures var u := Step(s, PowerCycled(o, Probe(true, true, true)));
      var top := After(s, o)[CATALOG_SECTOR];
      && Sound(u) && u.Resting() && !u.lost && u.card == After(s, o)
      && (Loadable(top, |s.card|) ==>
            u.catalog == top.catalog && u.flights == StoredAfter(s, o) && u.tainted == DamagedAfter(s, o))
      && (!Loadable(top, |s.card|) ==> u.catalog.entries == [])
      && |u.flights| == |u.catalog.entries|
      && (forall x :: u.tainted <= x < |u.flights| ==> StoredOn(u.card, u.catalog.entries[x], u.flights[x]))
  {
    var u := Step(s, PowerCycled(o, Probe(true, true, true)));
    StepSound(s, PowerCycled(o, Probe(true, true, true)));
    Reloaded(s, o);
    FlightCount(u, u.tainted);
    forall x | u.tainted <= x < |u.flights|
      ensures StoredOn(u.card, u.catalog.entries[x], u.flights[x])
    {
      RestingStored(u, x);
    }
    hide *;
  }

  lemma Reloaded(s: State, o: Outcome)
    requires Sound(s)
    ensures var u := Step(s, PowerCycled(o, Probe(true, true, true)));
      var top := After(s, o)[CATALOG_SECTOR];
      && u.Resting() && !u.lost && u.card == After(s, o)
      && (Loadable(top, |s.card|) ==>
            u.catalog == top.catalog && u.flights == StoredAfter(s, o) && u.tainted == DamagedAfter(s, o))
      && (!Loadable(top, |s.card|) ==> u.catalog.entries == [])
  {
    hide FlightOk, CountOk, CatalogOk, CardOk, CacheOk, SyncOk;
  }

  /** No flight is damaged, on the card or in memory, and the catalog is known. */
  predicate Unharmed(s: State) { s.damaged == 0 && s.tainted == 0 && !s.lost }

  /** Only a driver that began without the catalog writes over its flights, and only a probe or a restart
      makes one. */
  lemma DamageNeedsLoss(s: State, e: Event)
    requires Sound(s) && Unharmed(s)
    ensures Step(s, e).damaged == 0 && Step(s, e).tainted == 0
    ensures e.Probed? || e.PowerCycled? || Unharmed(Step(s, e))
  {
    assert Shape(s);
    hide Sound, Shape, Update, Append, Stop, Reload, PowerOff, Begin;
    match e {
      case Updated(t) => UpdateHarmless(s, t);
      case Appended(r) => AppendHarmless(s, r);
      case Stopped(flag, retain) => StopHarmless(s, flag, retain);
      case Probed(p) => ReloadHarmless(s, p);
      case PowerCycled(o, p) =>
        PowerHarmless(s, o);
        ReloadHarmless(PowerOff(s, o), p);
      case Started(metadata) => BeginHarmless(s, metadata);
      case _ =>
    }
  }

  lemma UpdateHarmless(s: State, t: Tick)
    requires Shape(s) && Unharmed(s)
    ensures Unharmed(Update(s, t))
  {
    hide Shape, WriteFailed, WriteDone, BeginWrite, Unharmed;
    WaitHarmless(s);
    if s.write == WriteIdle { BeginWriteHarmless(s, t); } else { FinishHarmless(s, t.outcome); }
  }

  lemma WaitHarmless(s: State)
    requires Unharmed(s)
    ensures Unharmed(s.(write := WriteResponse)) && Unharmed(s.(write := WriteBusy))
    ensures Unharmed(s.(phase := Absent, enabled := false))
  {}

  lemma BeginWriteHarmless(s: State, t: Tick)
    requires Unharmed(s)
    ensures Unharmed(BeginWrite(s, t))
  {
    hide BeginCatalog;
    assert Unharmed(BeginCatalog(s, t)) by { CatalogHarmless(s, t); }
  }

  lemma CatalogHarmless(s: State, t: Tick)
    requires Unharmed(s)
    ensures Unharmed(BeginCatalog(s, t))
  {}

  lemma FinishHarmless(s: State, o: Outcome)
    requires Shape(s) && Unharmed(s) && s.write != WriteIdle
    ensures Unharmed(WriteFailed(s, o)) && Unharmed(WriteDone(s))
  {
    hide Reach, After;
  }

  lemma AppendHarmless(s: State, r: Record)
    requires Unharmed(s)
    ensures Unharmed(Append(s, r))
  {
    QueueKeeps(s.(offered := s.offered + [r]), Fill(s, r));
    hide QueueCurrent, Fill;
  }

  lemma StopHarmless(s: State, flag: byte, retain: bool)
    requires Unharmed(s)
    ensures Unharmed(Stop(s, flag, retain))
  {
    QueueKeeps(s, s.current.(stopFlag := flag));
    hide QueueCurrent;
  }

  lemma BeginHarmless(s: State, metadata: Option<Metadata>)
    requires Unharmed(s)
    ensures Unharmed(Begin(s, metadata))
  {}

  lemma ReloadHarmless(s: State, p: Probe)
    requires CardOf(s.card) && Unharmed(s)
    ensures Reload(s, p).damaged == 0 && Reload(s, p).tainted == 0
  {}

  lemma PowerHarmless(s: State, o: Outcome)
    requires Shape(s) && Unharmed(s)
    ensures Unharmed(PowerOff(s, o)) && CardOf(PowerOff(s, o).card)
  {
    CutShape(s, o);
    hide Reach, After, Shape;
  }

  /** The card answers, and so does its catalog sector. */
  predicate Reads(p: Probe) { p.present && p.initOk && p.readOk }

  /** Whether load_catalog would take the catalog of a resting driver from the card again. */
  predicate Reloads(s: State, p: Probe) { Reads(p) && s.catalog.nextSector < |s.card| && s.catalog.nextId != 0 }

  predicate SameFlights(s: State, u: State) { u.catalog.entries == s.catalog.entries && u.flights == s.flights }

  /** A restart at rest, whatever the card answers, finds the same flights exactly when there are none,
      or the catalog is read and it neither reports a full card nor an id that has wrapped to zero; after
      a catalog that could not be read, exactly when it cannot be read again or lists nothing. */
  lemma RestartKeeps(s: State, p: Probe)
    requires Sound(s) && s.Resting()
    ensures SameFlights(s, Step(s, PowerCycled(Old, p))) <==>
            if s.lost then !Reads(p) || s.stored == [] else s.catalog.entries == [] || Reloads(s, p)
    ensures SameFlights(s, Step(s, PowerCycled(Old, p))) ==> Step(s, PowerCycled(Old, p)).tainted == s.tainted
  {
    hide Sound, Step, StoredOn;
    RestartFacts(s);
    Restarted(s, p);
  }

  /** A restart finds what is on the card. */
  lemma Restarted(s: State, p: Probe)
    requires Sound(s) && s.Resting()
    ensures var u, top := Step(s, PowerCycled(Old, p)), s.card[CATALOG_SECTOR];
      if Reads(p) && Loadable(top, |s.card|) then
        u.catalog == top.catalog && u.flights == s.stored && u.tainted == s.damaged && |u.flights| == |u.catalog.entries|
      else u.catalog.entries == [] && u.flights == [] && u.tainted == 0
  {
    RestartFacts(s);
    hide FlightOk, CountOk, CatalogOk, CardOk, CacheOk, SyncOk;
  }

  /** A probe at rest keeps the catalog exactly in the same cases, or if the card does not come up. */
  lemma ReprobeKeeps(s: State, p: Probe)
    requires Sound(s) && s.Resting()
    ensures SameFlights(s, Reprobe(s, p)) <==>
            if s.lost then !Reads(p) || s.stored == [] else s.catalog.entries == [] || !p.present || !p.initOk || Reloads(s, p)
  {
    RestartFacts(s);
    assert CardOf(s.card);
    hide FlightOk, CountOk, CatalogOk, CardOk, CacheOk, SyncOk;
  }

  lemma RestartFacts(s: State)
    requires Sound(s) && s.Resting()
    ensures After(s, Old) == s.card && StoredAfter(s, Old) == s.stored && DamagedAfter(s, Old) == s.damaged
    ensures |s.flights| == |s.catalog.entries| && s.tainted <= |s.flights|
    ensures |s.catalog.entries| <= CATALOG_FLIGHTS && (s.catalog.entries != [] ==> DATA_OFFSET <= s.catalog.nextSector)
    ensures var top := s.card[CATALOG_SECTOR];
      && (Loadable(top, |s.card|) ==> |s.stored| == |top.catalog.entries| && s.damaged <= |s.stored|)
      && if s.lost then s.catalog.entries == [] && s.flights == [] && Loadable(top, |s.card|)
         else (top == Index(s.catalog) && s.stored == s.flights && s.damaged == s.tainted) ||
              (s.catalog.entries == [] && s.flights == [] && !Loadable(top, |s.card|))
  {
    hide Part, BlocksOn, StoredOn, Survivors;
  }

  // ------------------------------------------------- a retained flight, from stop to read-back

  /** Nothing fails; the card may still be busy with any phase of a write. */
  predicate Fair(t: Tick) { t.present && t.begins && !t.expired && t.reply != Rejected }

  /** The card has got on with the phase that the driver waits for. */
  predicate Moves(s: State, t: Tick) {
    match s.write
    case WriteIdle => true
    case WriteDma => t.dmaDone
    case WriteResponse => t.reply == Accepted
    case WriteBusy => t.released
  }

  /** Phases left until the driver rests: four a sector, less those of the running write. */
  function Work(s: State): int {
    4 * |s.queue| + (if s.pending then 4 else 0) -
    match s.write { case WriteIdle => 0 case WriteDma => 1 case WriteResponse => 2 case WriteBusy => 3 }
  }

  predicate Stopping(s: State) { s.phase == Ready && s.nextSector + |s.queue| <= |s.card| }

  predicate Drains(s: State, u: State) {
    && Stopping(u) && Work(u) < Work(s) && SameFlights(s, u) && u.tainted == s.tainted && u.enabled == s.enabled
    && u.nextSector + |u.queue| == s.nextSector + |s.queue| && u.catalog.nextId == s.catalog.nextId && |u.card| == |s.card|
    && (u.lost ==> s.lost && (s.pending ==> u.pending))
  }

  /** An update waits while the card has not got on, rests when nothing is left, and otherwise makes progress. */
  lemma UpdateDrains(s: State, t: Tick)
    requires Sound(s) && Stopping(s) && Fair(t)
    ensures Shape(s)
    ensures if Work(s) == 0 || !Moves(s, t) then Update(s, t) == s else Drains(s, Update(s, t))
  {
    hide FlightOk, CountOk, CatalogOk, CardOk, CacheOk, SyncOk, BeginData, BeginCatalog, Advance, Drains, Work;
    NoWork(s);
    if s.write != WriteIdle {
      AdvanceDrains(s, t);
    } else if s.queue != [] {
      BeginDrains(s, t);
    } else if s.pending {
      CatalogDrains(s, t);
    }
  }

  lemma AdvanceDrains(s: State, t: Tick)
    requires Shape(s) && Stopping(s) && Fair(t) && s.write != WriteIdle
    ensures Work(s) > 0 && if Moves(s, t) then Drains(s, Advance(s, t)) else Advance(s, t) == s
  {
    DoneDrains(s);
    WaitDrains(s);
    assert s.queue != [] || s.pending;
    hide Shape, DataDone, CatalogDone, Drains, Stopping;
  }

  /** The next phase of the same write. */
  lemma WaitDrains(s: State)
    requires Shape(s) && Stopping(s)
    ensures s.write == WriteDma ==> Drains(s, s.(write := WriteResponse))
    ensures s.write == WriteDma || s.write == WriteResponse ==> Drains(s, s.(write := WriteBusy))
    ensures s.write == WriteResponse ==> s.(write := WriteResponse) == s
    ensures s.write == WriteBusy ==> s.(write := WriteBusy) == s
  {
    hide Shape;
  }

  lemma DoneDrains(s: State)
    requires Shape(s) && Stopping(s) && s.write != WriteIdle
    ensures s.writingCatalog ==> Drains(s, CatalogDone(s))
    ensures !s.writingCatalog ==> Drains(s, DataDone(s))
  {}

  lemma BeginDrains(s: State, t: Tick)
    requires Shape(s) && Stopping(s) && Fair(t) && s.write == WriteIdle && s.queue != []
    ensures Drains(s, BeginData(s, t))
  {}

  lemma CatalogDrains(s: State, t: Tick)
    requires Shape(s) && Stopping(s) && Fair(t) && s.write == WriteIdle && s.queue == [] && s.pending
    ensures Drains(s, BeginCatalog(s, t))
  {}

  lemma NoWork(s: State)
    requires Sound(s) && Stopping(s)
    ensures Work(s) >= 0 && (Work(s) == 0 <==> s.Resting())
  {
    hide FlightOk, CountOk, CatalogOk, CardOk, CacheOk, SyncOk;
  }

  function Updates(ticks: seq<Tick>): (events: seq<Event>)
    ensures |events| == |ticks|
  {
    seq(|ticks|, i requires 0 <= i < |ticks| => Updated(ticks[i]))
  }

  predicate AllFair(ticks: seq<Tick>) { forall t :: t in ticks ==> Fair(t) }

  /** How many updates of the run find that the card has got on. */
  function Moved(s: State, ticks: seq<Tick>): nat
    requires Sound(s)
    decreases |ticks|
  {
    if ticks == [] then 0
    else
      StepSound(s, Updated(ticks[0]));
      (if Moves(s, ticks[0]) then 1 else 0) + Moved(Update(s, ticks[0]), ticks[1..])
  }

  /** The driver comes to rest as soon as the card has got on as often as Work() says, however often
      it was found busy in between, and stays there. */
  lemma {:induction false} Drained(s: State, ticks: seq<Tick>)
    requires Sound(s) && Stopping(s) && AllFair(ticks) && Moved(s, ticks) >= Work(s)
    ensures var u := Run(s, Updates(ticks));
      && Sound(u) && u.Resting() && SameFlights(s, u) && u.tainted == s.tainted && u.enabled == s.enabled
      && u.nextSector == s.nextSector + |s.queue| && u.catalog.nextId == s.catalog.nextId && |u.card| == |s.card|
      && (u.lost ==> s.lost && !s.pending)
    decreases |ticks|
  {
    hide Sound, Update, Work, Stopping, Fair, Moves;
    NoWork(s);
    if ticks != [] {
      assert Fair(ticks[0]);
      UpdateDrains(s, ticks[0]);
      StepSound(s, Updated(ticks[0]));
      assert Updates(ticks)[1..] == Updates(ticks[1..]);
      Drained(Update(s, ticks[0]), ticks[1..]);
    }
  }

  /** What a retaining stop enters in the catalog. */
  lemma StopEnters(s: State, flag: byte)
    requires Sound(s) && s.phase == Recording && Stop(s, flag, true).count > 0
    ensures var q := Stop(s, flag, true);
      && Sound(q) && q.phase == Ready && q.tainted < |q.flights| && q.flights[|q.flights| - 1] == Content(s.metadata, q.kept)
      && |q.flights| == |q.catalog.entries|
      && q.catalog.entries[|q.flights| - 1] == Entry(s.flightId, s.start, q.blocks, q.count, flag)
      && q.count == |q.kept| % WORD && 8 * |q.fates| <= |s.offered| + 7 && q.kept == Survivors(s.offered, q.fates)
      && q.dropped == (s.droppedBefore + |s.offered| - |q.kept|) % WORD
  {
    hide Sound, Stop, Survivors, QueueCurrent;
    StopSound(s, flag, true);
    StopAccount(s, flag);
    StopEntry(s, flag);
  }

  /** The last block of a flight holds what the closed ones have left of the records offered. */
  lemma StopsBlock(s: State, b: Block)
    requires Sound(s) && s.phase == Recording && b.records == s.current.records && b.flightId == s.current.flightId
    ensures b.records != [] ==> Closing(s, b) && |s.fates| + 1 == (|s.offered| + 7) / 8
    ensures b.records == [] ==> Accounted(s.(current := b)) && |s.fates| == (|s.offered| + 7) / 8
  {
    hide Base, Survivors;
    SoundBlock(s);
  }

  lemma SoundBlock(s: State)
    requires Sound(s)
    ensures |s.current.records| < BLOCK_RECORDS
  {
    hide FlightOk, CountOk, CatalogOk, CardOk, CacheOk, SyncOk;
  }

  lemma QueueCounts(s: State, b: Block)
    requires b.records != []
    ensures var q := QueueCurrent(s, b); q.offered == s.offered && |q.fates| == |s.fates| + 1 && q.phase == s.phase
  {
    hide Push, Drop;
    BlockCounts(s, b);
  }

  lemma BlockCounts(s: State, b: Block)
    ensures Push(s, b).offered == s.offered && |Push(s, b).fates| == |s.fates| + 1 && Push(s, b).phase == s.phase
    ensures Drop(s, b).offered == s.offered && |Drop(s, b).fates| == |s.fates| + 1 && Drop(s, b).phase == s.phase
  {}

  lemma StopAccount(s: State, flag: byte)
    requires Sound(s) && s.phase == Recording
    ensures var q := QueueCurrent(s, s.current.(stopFlag := flag));
      Accounted(q) && q.offered == s.offered && |q.fates| == (|s.offered| + 7) / 8 && q.phase == Recording
    ensures Base(QueueCurrent(s, s.current.(stopFlag := flag)))
  {
    hide Base, Survivors, Push, Drop, Accounted;
    var b := s.current.(stopFlag := flag);
    StopsBlock(s, b);
    if b.records == [] {
      EmptyCurrent(s, b);
    } else {
      QueueSound(s, b);
      QueueCounts(s, b);
    }
  }

  /** What append_catalog_entry leaves of the state it finds. */
  lemma EntryEnters(c: State, flag: byte)
    requires |c.flights| == |c.catalog.entries| <= CATALOG_FLIGHTS
    ensures var q := AppendEntry(c, flag);
      && q.phase == Ready && |q.flights| == |q.catalog.entries| > 0 && (c.tainted <= |c.flights| ==> q.tainted < |q.flights|)
      && q.flights[|q.flights| - 1] == Content(c.metadata, q.kept) && q.kept == c.kept && q.count == c.count
      && q.catalog.entries[|q.flights| - 1] == Entry(c.flightId, c.start, q.blocks, q.count, flag)
      && q.offered == c.offered && q.fates == c.fates && q.dropped == c.dropped && q.droppedBefore == c.droppedBefore
  {}

  lemma QueueKeeps(s: State, b: Block)
    ensures var c := QueueCurrent(s, b);
      c.flightId == s.flightId && c.start == s.start && c.metadata == s.metadata && c.droppedBefore == s.droppedBefore
      && c.lost == s.lost && c.damaged == s.damaged && c.tainted == s.tainted
  {
    assert Push(s, b).flightId == s.flightId && Drop(s, b).flightId == s.flightId;
  }

  lemma StopEntry(s: State, flag: byte)
    requires Sound(s) && s.phase == Recording && Stop(s, flag, true).count > 0
    ensures var q, c := Stop(s, flag, true), QueueCurrent(s, s.current.(stopFlag := flag));
      && q.phase == Ready && q.tainted < |q.flights| && |q.flights| == |q.catalog.entries| > 0
      && q.flights[|q.flights| - 1] == Content(s.metadata, q.kept) && q.count == |q.kept| % WORD
      && q.catalog.entries[|q.flights| - 1] == Entry(s.flightId, s.start, q.blocks, q.count, flag)
      && q.offered == c.offered && q.fates == c.fates && q.droppedBefore == s.droppedBefore
      && (Accounted(c) ==> Accounted(q))
  {
    hide QueueCurrent, Base, CountOk, Survivors, AppendEntry;
    var b := s.current.(stopFlag := flag);
    var c := QueueCurrent(s, b);
    StopAccount(s, flag);
    QueueKeeps(s, b);
    ClosedCount(c);
    EntryEnters(c, flag);
  }

  lemma ClosedCount(c: State)
    requires Base(c) && c.phase == Recording
    ensures c.count == |c.kept| % WORD && c.tainted <= |c.flights| == |c.catalog.entries| <= CATALOG_FLIGHTS
  {
    hide Part, BlocksOn, StoredOn, CardOk, CacheOk, SyncOk;
  }

  /** From a retaining stop to the reader: the records offered, less the blocks that found the
      queue full, come back one by one under the flight's id. */
  lemma RetainedFlightReadable(s: State, flag: byte, q: State, ticks: seq<Tick>, r: nat)
    requires Sound(s) && s.phase == Recording && q == Stop(s, flag, true) && q.count > 0
    requires Stopping(q) && Sound(q) && AllFair(ticks) && Moved(q, ticks) >= Work(q) && r < |q.kept| % WORD
    ensures 8 * |q.fates| <= |s.offered| + 7 && q.kept == Survivors(s.offered, q.fates) && r < |q.kept|
    ensures q.dropped == (s.droppedBefore + |s.offered| - |q.kept|) % WORD
    ensures GetRecord(Run(q, Updates(ticks)), s.flightId, r, true, true).record == Some(q.kept[r])
  {
    hide Sound, Stop, Run, GetRecord, Stopping, Survivors, Work, Moved, AllFair;
    StopEnters(s, flag);
    Drained(q, ticks);
    var u := Run(q, Updates(ticks));
    FindEntry(u, |u.flights| - 1);
    GetRecordReturns(u, s.flightId, r, true, true);
  }

  // ------------------------------------------------- a catalog that could not be read

  /** The records in the first `k` record blocks. */
  function Head(records: seq<Record>, k: nat): seq<Record> { if 8 * k <= |records| then records[..8 * k] else records }

  /** Two flights agree in their first `j` blocks, the metadata block included. */
  predicate Agree(a: Content, c: Content, j: nat) {
    j > 0 ==> a.metadata == c.metadata && Head(a.records, j - 1) == Head(c.records, j - 1)
  }

  lemma HeadStep(records: seq<Record>, k: nat)
    requires k > 0 && 0 < Share(|records|, k)
    ensures 8 * (k - 1) + Share(|records|, k) <= |records|
    ensures Head(records, k) == Head(records, k - 1) + records[8 * (k - 1)..8 * (k - 1) + Share(|records|, k)]
  {}

  lemma SamePiece(b: Block, id: nat, k: nat, a: Content, c: Content)
    requires k > 0 && Part(b, id, k, a) && Part(b, id, k, c)
    ensures Share(|a.records|, k) == Share(|c.records|, k)
    ensures 8 * (k - 1) + Share(|a.records|, k) <= |a.records| && 8 * (k - 1) + Share(|a.records|, k) <= |c.records|
    ensures a.records[8 * (k - 1)..8 * (k - 1) + Share(|a.records|, k)] == c.records[8 * (k - 1)..8 * (k - 1) + Share(|a.records|, k)]
  {
    var from, n := 8 * (k - 1), Share(|a.records|, k);
    var x, y := a.records[from..from + n], c.records[from..from + n];
    forall j | 0 <= j < n
      ensures x[j] == y[j]
    {
      assert b.records[j] == a.records[from + j] == c.records[from + j];
    }
  }

  /** Blocks that belong to both flights hold what they agree in. */
  lemma {:induction false} BothAgree(card: seq<Sector>, start: nat, j: nat, id: nat, a: Content, c: Content)
    requires BlocksOn(card, start, j, id, a) && BlocksOn(card, start, j, id, c)
    ensures Agree(a, c, j)
  {
    hide Part, Share, Head;
    if j > 0 {
      var k := j - 1;
      assert BlockOn(card, start, k, id, a) && BlockOn(card, start, k, id, c);
      BothAgree(card, start, k, id, a, c);
      if k > 0 {
        SamePiece(card[start + k].block, id, k, a, c);
        PieceFits(card[start + k].block, id, k, a);
        PieceFits(card[start + k].block, id, k, c);
        HeadStep(a.records, k);
        HeadStep(c.records, k);
      } else {
        FirstAgrees(card[start].block, id, a, c);
      }
    }
  }

  lemma PieceFits(b: Block, id: nat, k: nat, c: Content)
    requires k > 0 && Part(b, id, k, c)
    ensures 0 < Share(|c.records|, k)
  {}

  lemma FirstAgrees(b: Block, id: nat, a: Content, c: Content)
    requires Part(b, id, 0, a) && Part(b, id, 0, c)
    ensures Agree(a, c, 1)
  {}

  /** A block of one flight is a block of every flight that agrees with it so far. */
  lemma AgreePart(b: Block, id: nat, k: nat, a: Content, c: Content, j: nat)
    requires Part(b, id, k, a) && Agree(a, c, j) && k < j <= BlocksOf(|c.records|)
    ensures Part(b, id, k, c)
  {
    if k > 0 {
      var x, y := Head(a.records, j - 1), Head(c.records, j - 1);
      assert |x| == |y| && Share(|a.records|, k) == Share(|c.records|, k);
      forall i | 0 <= i < |b.records|
        ensures b.records[i] == c.records[8 * (k - 1) + i]
      {
        assert x[8 * (k - 1) + i] == y[8 * (k - 1) + i];
      }
    }
  }

  /** What is left of a flight once `n` blocks of another one, with id 1, have been written from the first
      data sector on. */
  predicate Spared(e: Entry, c: Content, n: nat, other: Content) {
    || DATA_OFFSET + n <= e.start
    || (e.start == DATA_OFFSET && e.id == 1 && Agree(other, c, if n < e.blocks then n else e.blocks))
  }

  lemma SparedExactly(card: seq<Sector>, after: seq<Sector>, e: Entry, c: Content, n: nat, other: Content)
    requires StoredOn(card, e, c) && DATA_OFFSET <= e.start && |after| == |card|
    requires BlocksOn(after, DATA_OFFSET, n, 1, other)
    requires forall i :: DATA_OFFSET + n <= i < |card| ==> after[i] == card[i]
    ensures StoredOn(after, e, c) <==> Spared(e, c, n, other)
  {
    hide Part, Agree, BlocksOf;
    var j := if n < e.blocks then n else e.blocks;
    if StoredOn(after, e, c) && e.start < DATA_OFFSET + n {
      EntryBlocks(e, c, card);
      assert BlockOn(after, e.start, 0, e.id, c) && BlockOn(after, DATA_OFFSET, e.start - DATA_OFFSET, 1, other);
      PartNames(after[e.start].block, e.id, 0, c);
      PartNames(after[e.start].block, 1, e.start - DATA_OFFSET, other);
      BothAgree(after, DATA_OFFSET, j, 1, other, c);
    }
    if Spared(e, c, n, other) {
      forall k | 0 <= k < e.blocks
        ensures BlockOn(after, e.start, k, e.id, c)
      {
        assert BlockOn(card, e.start, k, e.id, c);
        if e.start + k < DATA_OFFSET + n {
          assert BlockOn(after, DATA_OFFSET, k, 1, other);
          AgreePart(after[DATA_OFFSET + k].block, 1, k, other, c, j);
        }
      }
    }
  }

  lemma PartNames(b: Block, id: nat, k: nat, c: Content)
    requires Part(b, id, k, c)
    ensures b.flightId == id && b.sequence == k
  {}

  lemma EntryBlocks(e: Entry, c: Content, card: seq<Sector>)
    requires StoredOn(card, e, c)
    ensures 0 < e.blocks == BlocksOf(|c.records|)
  {}

  /** Calls while a flight is recorded and written out. */
  predicate Flying(e: Event) { e.Updated? || e.Appended? || e.Stopped? || e.Enabled? }

  /** A driver that began without the catalog records its first flight: what is on the card of it, and what
      is left of the rest. */
  predicate Overwriting(card: seq<Sector>, u: State, m: Metadata) {
    && u.start == DATA_OFFSET <= u.nextSector && u.flightId == 1 && u.metadata == m && |u.card| == |card|
    && BlocksOn(u.card, DATA_OFFSET, u.nextSector - DATA_OFFSET, 1, u.Flight())
    && (forall i :: u.nextSector <= i < |card| ==> u.card[i] == card[i])
  }

  predicate Lost(u: State) { u.lost && u.Live() }

  /** A call leaves the card and the flight's place alone. */
  predicate SamePlace(s: State, u: State) {
    && u.card == s.card && u.start == s.start && u.nextSector == s.nextSector && u.flightId == s.flightId
    && u.metadata == s.metadata
  }

  lemma KeptPlace(card: seq<Sector>, s: State, u: State, m: Metadata)
    requires Overwriting(card, s, m) && SamePlace(s, u) && u.kept == s.kept
    ensures Overwriting(card, u, m)
  {
    hide BlocksOn;
  }

  /** Records that enter the queue leave the blocks on the card as they are. */
  lemma GrownPlace(card: seq<Sector>, s: State, u: State, m: Metadata)
    requires Overwriting(card, s, m) && SamePlace(s, u) && Sound(u) && u.Live() && u.Engaged()
    ensures Overwriting(card, u, m)
  {
    hide Part, BlocksOn, StoredOn, Loadable, CatalogOk, CardOk, CacheOk, SyncOk, CountOk;
  }

  /** What a call does to the flight, as far as its place on the card goes. */
  predicate Grows(s: State, u: State) {
    SamePlace(s, u) && (u.kept == s.kept || u.queue != []) && u.lost == s.lost && u.phase == s.phase && u.write == s.write
  }

  lemma QueueGrows(s: State, b: Block)
    ensures Grows(s, QueueCurrent(s, b))
  {
    hide Push, Drop, Grows;
    PushGrows(s, b);
    DropGrows(s, b);
    CurrentGrows(s, b);
  }

  lemma PushGrows(s: State, b: Block)
    ensures Grows(s, Push(s, b))
  {}

  lemma DropGrows(s: State, b: Block)
    ensures Grows(s, Drop(s, b))
  {}

  lemma CurrentGrows(s: State, b: Block)
    ensures Grows(s, s.(current := b))
  {}

  lemma AppendOverwrites(card: seq<Sector>, s: State, r: Record, m: Metadata)
    requires Sound(s) && Overwriting(card, s, m)
    ensures Lost(Append(s, r)) ==> Overwriting(card, Append(s, r), m)
  {
    hide Sound, Overwriting, QueueCurrent, Fill;
    AppendSound(s, r);
    AppendPlace(s, r);
    var u := Append(s, r);
    if u.kept == s.kept { KeptPlace(card, s, u, m); } else if u.Live() { GrownPlace(card, s, u, m); }
  }

  lemma AppendPlace(s: State, r: Record)
    ensures var u := Append(s, r); SamePlace(s, u) && (u.kept == s.kept || u.Engaged()) && u.Live() == s.Live() && u.lost == s.lost
  {
    hide QueueCurrent, Fill;
    QueueGrows(s.(offered := s.offered + [r]), Fill(s, r));
  }

  lemma StopOverwrites(card: seq<Sector>, s: State, flag: byte, retain: bool, m: Metadata)
    requires Sound(s) && Overwriting(card, s, m)
    ensures Lost(Stop(s, flag, retain)) ==> Overwriting(card, Stop(s, flag, retain), m)
  {
    hide Sound, Overwriting, Stop;
    StopSound(s, flag, retain);
    StopPlace(s, flag, retain);
    var u := Stop(s, flag, retain);
    if u.kept == s.kept { KeptPlace(card, s, u, m); } else if u.Live() { GrownPlace(card, s, u, m); }
  }

  lemma StopPlace(s: State, flag: byte, retain: bool)
    ensures var u := Stop(s, flag, retain);
      SamePlace(s, u) && (u.kept == s.kept || u.Engaged()) && (u.Live() ==> s.Live()) && u.lost == s.lost
  {
    hide QueueCurrent, AppendEntry, SamePlace, Grows;
    var q := QueueCurrent(s, s.current.(stopFlag := flag));
    QueueGrows(s, s.current.(stopFlag := flag));
    GrowsFacts(s, q);
    EntryPlace(q, flag);
    ReadyPlace(s);
    ReadyPlace(q);
    PlaceOn(s, q, Stop(s, flag, retain));
  }

  lemma GrowsFacts(s: State, u: State)
    requires Grows(s, u)
    ensures SamePlace(s, u) && (u.kept == s.kept || u.queue != []) && u.lost == s.lost && u.phase == s.phase && u.write == s.write
  {}

  lemma PlaceOn(s: State, q: State, u: State)
    requires SamePlace(s, q)
    ensures SamePlace(q, u) ==> SamePlace(s, u)
    ensures SamePlace(s, s)
  {}

  lemma ReadyPlace(q: State)
    ensures SamePlace(q, q.(phase := Ready)) && SamePlace(q, q.(current := EMPTY_BLOCK, phase := Ready))
  {}

  lemma EntryPlace(q: State, flag: byte)
    ensures var u := AppendEntry(q, flag); SamePlace(q, u) && u.kept == q.kept && u.queue == q.queue && u.lost == q.lost
  {}

  /** The next block lands behind those that are there. */
  lemma DataOverwrites(card: seq<Sector>, s: State, m: Metadata)
    requires Sound(s) && s.Live() && Overwriting(card, s, m) && s.write != WriteIdle && !s.writingCatalog
    ensures Overwriting(card, DataDone(s), m)
  {
    FlightKept(s, s.nextSector, s.Source());
    assert Part(s.queue[0], s.flightId, s.nextSector - s.start, s.Flight());
    var d := DataDone(s);
    assert BlockOn(d.card, DATA_OFFSET, s.nextSector - DATA_OFFSET, 1, d.Flight());
    assert BlocksOn(d.card, DATA_OFFSET, s.nextSector - DATA_OFFSET, 1, d.Flight());
    hide Part, StoredOn, Loadable, CatalogOk, CardOk, CacheOk, CountOk, SyncOk;
  }

  lemma UpdateOverwrites(card: seq<Sector>, s: State, t: Tick, m: Metadata)
    requires Sound(s) && s.Live() && Overwriting(card, s, m)
    ensures Lost(Update(s, t)) ==> Overwriting(card, Update(s, t), m)
  {
    assert Shape(s);
    hide Sound, Shape, Overwriting, BeginWrite, Advance;
    if s.write == WriteIdle {
      BeginPlace(s, t);
    } else {
      AdvancePlace(s, t);
      if !s.writingCatalog { DataOverwrites(card, s, m); }
    }
    PhasePlace(s);
    var u := Update(s, t);
    if SamePlace(s, u) && u.kept == s.kept { KeptPlace(card, s, u, m); }
  }

  lemma PhasePlace(s: State)
    ensures var u := s.(phase := Absent, enabled := false); SamePlace(s, u) && u.kept == s.kept
    ensures SamePlace(s, s)
  {}

  lemma BeginPlace(s: State, t: Tick)
    ensures var u := BeginWrite(s, t); SamePlace(s, u) && u.kept == s.kept
  {
    hide BeginData, BeginCatalog, SamePlace;
    PhasePlace(s);
    if s.queue != [] { DataPlace(s, t); }
    CatalogPlace(s, t);
  }

  lemma DataPlace(s: State, t: Tick)
    requires s.queue != []
    ensures var u := BeginData(s, t); SamePlace(s, u) && u.kept == s.kept
  {}

  lemma CatalogPlace(s: State, t: Tick)
    ensures var u := BeginCatalog(s, t); SamePlace(s, u) && u.kept == s.kept
  {}

  /** The write that runs goes on, fails for good, commits the catalog, or puts the block in place. */
  lemma AdvancePlace(s: State, t: Tick)
    requires Sound(s) && s.write != WriteIdle
    ensures var u := Advance(s, t);
      || (SamePlace(s, u) && u.kept == s.kept) || !Lost(u) || (!s.writingCatalog && u == DataDone(s))
  {
    assert Shape(s);
    hide Sound, Shape, WriteFailed, DataDone, CatalogDone;
    FailFound(s, t.outcome);
    WritePlace(s);
  }

  lemma FailFound(s: State, o: Outcome)
    requires Shape(s)
    ensures !Lost(WriteFailed(s, o)) && !Lost(CatalogDone(s))
  {
    hide After, Reach;
  }

  lemma WritePlace(s: State)
    ensures var u := s.(write := WriteResponse); SamePlace(s, u) && u.kept == s.kept
    ensures var u := s.(write := WriteBusy); SamePlace(s, u) && u.kept == s.kept
    ensures SamePlace(s, s)
  {}

  lemma StepOverwrites(card: seq<Sector>, s: State, e: Event, m: Metadata)
    requires Sound(s) && s.Live() && Overwriting(card, s, m) && Flying(e)
    ensures Lost(Step(s, e)) ==> Overwriting(card, Step(s, e), m)
  {
    assert Shape(s);
    hide Sound, Shape, Overwriting, Update, Append, Stop;
    match e {
      case Updated(t) => UpdateOverwrites(card, s, t, m);
      case Appended(r) => AppendOverwrites(card, s, r, m);
      case Stopped(flag, retain) => StopOverwrites(card, s, flag, retain, m);
      case Enabled(value) => EnablePlace(s, value); KeptPlace(card, s, Enable(s, value), m);
    }
  }

  lemma EnablePlace(s: State, value: bool)
    ensures var u := Enable(s, value); SamePlace(s, u) && u.kept == s.kept
  {}

  /** What has failed, or has been committed, stays so. */
  lemma FoundStays(s: State, e: Event)
    requires Sound(s) && !Lost(s) && Flying(e)
    ensures !Lost(Step(s, e))
  {
    assert Shape(s);
    hide Sound, Shape, Append, Stop, Update;
    match e {
      case Appended(r) => AppendPlace(s, r);
      case Stopped(flag, retain) => StopPlace(s, flag, retain);
      case Updated(t) => UpdateFound(s, t);
      case _ =>
    }
  }

  lemma UpdateFound(s: State, t: Tick)
    requires Shape(s) && !Lost(s)
    ensures !Lost(Update(s, t))
  {
    hide Shape, BeginWrite, WriteFailed, WriteDone, Lost;
    if s.write == WriteIdle { BeginFound(s, t); } else { WriteFound(s, t.outcome); }
    AbsentFound(s);
  }

  lemma AbsentFound(s: State)
    requires !Lost(s)
    ensures !Lost(s.(phase := Absent, enabled := false))
  {}

  lemma BeginFound(s: State, t: Tick)
    requires !Lost(s) && s.write == WriteIdle
    ensures s.phase == Ready || s.phase == Recording ==> !Lost(BeginWrite(s, t))
  {
    hide BeginData, BeginCatalog;
    if s.queue != [] { DataFound(s, t); }
    CatalogFound(s, t);
  }

  lemma DataFound(s: State, t: Tick)
    requires s.queue != []
    ensures BeginData(s, t).lost == s.lost
  {}

  lemma CatalogFound(s: State, t: Tick)
    ensures BeginCatalog(s, t).lost == s.lost
  {}

  lemma WriteFound(s: State, o: Outcome)
    requires Shape(s) && s.write != WriteIdle && !Lost(s)
    ensures !Lost(WriteFailed(s, o)) && !Lost(WriteDone(s))
    ensures !Lost(s.(write := WriteResponse)) && !Lost(s.(write := WriteBusy))
  {
    hide After, Reach;
  }

  lemma {:induction false} RunOverwrites(card: seq<Sector>, s: State, events: seq<Event>, m: Metadata)
    requires Sound(s) && (Lost(s) ==> Overwriting(card, s, m)) && forall e :: e in events ==> Flying(e)
    ensures Lost(Run(s, events)) ==> Overwriting(card, Run(s, events), m)
    decreases |events|
  {
    assert Shape(s);
    hide Sound, Shape, Step, Overwriting, Lost, Flying;
    if events != [] {
      assert Flying(events[0]);
      StepSound(s, events[0]);
      if Lost(s) { LostLives(s); StepOverwrites(card, s, events[0], m); } else { FoundStays(s, events[0]); }
      RunOverwrites(card, Step(s, events[0]), events[1..], m);
    }
  }

  lemma LostLives(s: State)
    requires Lost(s)
    ensures s.Live()
  {}

  /** The driver after a probe that could not read a good catalog, and the start of a flight. */
  function Misread(s: State, m: Metadata): (u: State)
    requires Sound(s) && s.phase != Recording && s.write == WriteIdle
    ensures Sound(u)
  {
    var p := Reprobe(s, Probe(true, true, false));
    ReprobeSound(s, Probe(true, true, false));
    EnableSound(p, true);
    StartSound(Enable(p, true), Some(m));
    Start(Enable(p, true), Some(m))
  }

  lemma MisreadBegins(s: State, m: Metadata)
    requires Sound(s) && s.phase != Recording && s.write == WriteIdle && Loadable(s.card[CATALOG_SECTOR], |s.card|)
    ensures var u := Misread(s, m);
      && Lost(u) && Overwriting(s.card, u, m) && u.phase == Recording && u.kept == [] && u.nextSector == DATA_OFFSET
      && u.card == s.card && u.stored == s.stored && u.damaged == s.damaged
  {
    hide FlightOk, CountOk, CatalogOk, CardOk, CacheOk, SyncOk;
  }

  lemma ListedStored(s: State, x: nat)
    requires Sound(s) && Loadable(s.card[CATALOG_SECTOR], |s.card|) && s.damaged <= x < |s.stored|
    ensures CardOf(s.card) && |s.stored| == |CardEntries(s.card)|
    ensures StoredOn(s.card, CardEntries(s.card)[x], s.stored[x]) && DATA_OFFSET <= CardEntries(s.card)[x].start
  {
    hide FlightOk, CountOk, CatalogOk, CacheOk, SyncOk, StoredOn;
  }

  /** The next flight after a probe that could not read a good catalog, however it goes: once `n` of its
      blocks are on the card, exactly those flights that the card still lists are intact that start
      behind them, or that start in the first data sector with id 1 and agree with it as far as they are
      written over. */
  lemma MisreadOverwrites(s: State, m: Metadata, events: seq<Event>, x: nat)
    requires Sound(s) && s.phase != Recording && s.write == WriteIdle && Loadable(s.card[CATALOG_SECTOR], |s.card|)
    requires (forall e :: e in events ==> Flying(e)) && Lost(Run(Misread(s, m), events))
    requires s.damaged <= x < |s.stored|
    ensures CardOf(s.card) && |s.stored| == |CardEntries(s.card)|
    ensures var u, e := Run(Misread(s, m), events), CardEntries(s.card)[x];
      && DATA_OFFSET <= u.nextSector
      && (StoredOn(u.card, e, s.stored[x]) <==> Spared(e, s.stored[x], u.nextSector - DATA_OFFSET, Content(m, u.kept)))
  {
    hide Sound, StoredOn, Spared, Run, Misread, Loadable, Flying, Lost;
    MisreadBegins(s, m);
    ListedStored(s, x);
    RunOverwrites(s.card, Misread(s, m), events, m);
    var u := Run(Misread(s, m), events);
    SparedExactly(s.card, u.card, CardEntries(s.card)[x], s.stored[x], u.nextSector - DATA_OFFSET, u.Flight());
  }
}
