/**
 What every call sequence keeps on the SD card (src/storage/blackbox_sd.c): the layout of
 a flight in consecutive sectors, disjoint flights in the catalog, a catalog on the card
 that never lists a block the card does not have, and an untouched DMA source.
 */
module SdSafety {
  import opened Bytes
  import opened Records
  import opened SdModel

  // ------------------------------------------------- the layout of a flight

  /** Records in block `k` of a flight of `n` records: block 0 holds the metadata. */
  function Share(n: nat, k: nat): int
    requires k > 0
  {
    if n - 8 * (k - 1) < 8 then n - 8 * (k - 1) else 8
  }

  /** Block `k` of flight `id`: sequence number `k`; block 0 holds the metadata, and record r sits in block 1 + r/8, slot r%8. */
  predicate Part(b: Block, id: nat, k: nat, c: Content) {
    && b.flightId == id && b.sequence == k
    && if k == 0 then b.records == [] && b.payload == c.metadata
       else
         && 0 < Share(|c.records|, k) && |b.records| == Share(|c.records|, k)
         && forall j :: 0 <= j < |b.records| ==> b.records[j] == c.records[8 * (k - 1) + j]
  }

  /** Sector `start + k` of the card is block `k`. */
  predicate BlockOn(card: seq<Sector>, start: nat, k: nat, id: nat, c: Content) {
    start + k < |card| && card[start + k].Data? && Part(card[start + k].block, id, k, c)
  }

  /** The first `n` blocks of the flight are on the card. */
  predicate BlocksOn(card: seq<Sector>, start: nat, n: int, id: nat, c: Content) {
    forall k :: 0 <= k < n ==> BlockOn(card, start, k, id, c)
  }

  function BlocksOf(n: nat): nat { 1 + (n + 7) / 8 }

  /** The flight of a catalog entry is on the card, block after block. */
  predicate StoredOn(card: seq<Sector>, e: Entry, c: Content) {
    && e.blocks == BlocksOf(|c.records|) && e.count == |c.records| % WORD && 0 < e.count
    && BlocksOn(card, e.start, e.blocks, e.id, c)
  }

  /** Catalogued sector ranges follow each other below `limit`; ids are consecutive. */
  predicate Ranges(c: Catalog, limit: nat) {
    && (forall i :: 0 <= i < |c.entries| ==>
          DATA_OFFSET <= c.entries[i].start && 2 <= c.entries[i].blocks && c.entries[i].End() <= limit &&
          c.entries[i].id == Sub32(c.nextId, |c.entries| - i))
    && forall i, j :: 0 <= i < j < |c.entries| ==> c.entries[i].End() <= c.entries[j].start
  }

  // ------------------------------------------------- the invariant

  predicate FlightOk(s: State) {
    s.Live() && s.Engaged() ==>
      && s.start + s.blocks == s.nextSector + |s.queue| && DATA_OFFSET <= s.start <= s.nextSector
      && s.blocks == BlocksOf(|s.kept|) && s.count == |s.kept| % WORD
      && (forall j :: 0 <= j < |s.queue| ==> Part(s.queue[j], s.flightId, s.nextSector + j - s.start, s.Flight()))
      && BlocksOn(s.card, s.start, s.nextSector - s.start, s.flightId, s.Flight())
  }

  /** Block `k` of the records offered to a flight; the last block may be short. */
  function Chunk(offered: seq<Record>, k: nat): seq<Record>
    requires 8 * k <= |offered|
  {
    if 8 * k + 8 <= |offered| then offered[8 * k..8 * k + 8] else offered[8 * k..]
  }

  /** What is left of the records offered when the blocks marked false are taken out. */
  function Survivors(offered: seq<Record>, fates: seq<bool>): seq<Record>
    requires 8 * |fates| <= |offered| + 7
  {
    var n := |fates| - 1;
    if n < 0 then []
    else Survivors(offered, fates[..n]) + if fates[n] then Chunk(offered, n) else []
  }

  function Covered(offered: seq<Record>, fates: seq<bool>): nat {
    if 8 * |fates| <= |offered| then 8 * |fates| else |offered|
  }

  /** Every record offered is in a queued block, in a dropped and counted block, or in the open block. */
  predicate Accounted(s: State) {
    && 8 * |s.fates| <= |s.offered| + 7 && s.kept == Survivors(s.offered, s.fates)
    && |s.kept| <= Covered(s.offered, s.fates)
    && s.dropped == (s.droppedBefore + Covered(s.offered, s.fates) - |s.kept|) % WORD
  }

  predicate CountOk(s: State) {
    s.phase == Recording ==>
      && |s.kept| % 8 == 0 && s.sequence == s.blocks && Accounted(s)
      && 8 * |s.fates| <= |s.offered| && s.current.records == s.offered[8 * |s.fates|..]
      && (s.current.records != [] ==> s.current.flightId == s.flightId)
  }

  /** Entry `i` belongs to the flight whose last blocks are still queued. */
  predicate Draining(s: State, i: nat)
    requires i < |s.catalog.entries| == |s.flights|
  {
    s.phase != Recording && s.queue != [] && i == |s.flights| - 1 &&
    s.catalog.entries[i] == s.OwnEntry(s.catalog.entries[i].stopFlag) && s.flights[i] == s.Flight() && s.count > 0
  }

  predicate CatalogOk(s: State) {
    s.Live() ==>
      && |s.catalog.entries| == |s.flights| && s.tainted <= |s.flights| && Ranges(s.catalog, s.nextSector + |s.queue|)
      && (forall i :: 0 <= i < |s.catalog.entries| && !Draining(s, i) ==>
            s.catalog.entries[i].End() <= s.Floor() &&
            (s.tainted <= i ==> StoredOn(s.card, s.catalog.entries[i], s.flights[i])))
  }

  /** The catalog on the card, if a start would load it, lists only flights that are there. */
  predicate CardOk(s: State)
    requires CardOf(s.card)
  {
    var top := s.card[CATALOG_SECTOR];
    Loadable(top, |s.card|) ==>
      && |s.stored| == |top.catalog.entries| && s.damaged <= |s.stored| && top.catalog.nextId < WORD
      && Ranges(top.catalog, top.catalog.nextSector)
      && (forall i :: s.damaged <= i < |s.stored| ==> StoredOn(s.card, top.catalog.entries[i], s.stored[i]))
      && (!s.lost && s.Live() && !s.wiped ==> top.catalog.nextSector <= s.Floor())
  }

  predicate CacheOk(s: State) {
    && (s.wiped && s.Live() ==> s.pending && s.queue == [])
    && (s.cacheValid ==> !s.Engaged() && DATA_OFFSET <= s.cacheSector < |s.card| && s.cache == s.card[s.cacheSector])
    && (s.layoutValid ==> !s.Engaged())
    && (s.layoutValid ==>
          forall i :: s.tainted <= i < |s.catalog.entries| && s.catalog.entries[i].id == s.layoutId ==> s.layoutBlocks == 1)
  }

  /** With no commit owed, memory and card agree on the catalog, if it could be read. */
  predicate SyncOk(s: State)
    requires CardOf(s.card)
  {
    s.Live() && !s.pending ==>
      if s.lost then s.catalog.entries == [] && s.flights == [] && Loadable(s.card[CATALOG_SECTOR], |s.card|)
      else
        || (s.card[CATALOG_SECTOR] == Index(s.catalog) && s.stored == s.flights && s.damaged == s.tainted)
        || (s.catalog.entries == [] && s.flights == [] && !Loadable(s.card[CATALOG_SECTOR], |s.card|))
  }

  predicate Base(s: State) {
    Shape(s) && FlightOk(s) && CatalogOk(s) && CardOk(s) && CacheOk(s) && SyncOk(s)
  }

  predicate Sound(s: State) { Base(s) && CountOk(s) }

  // ------------------------------------------------- writing a sector

  lemma BeginDataSound(s: State, t: Tick)
    requires Sound(s) && s.write == WriteIdle && s.queue != [] && (s.phase == Ready || s.phase == Recording)
    ensures Sound(BeginData(s, t))
  {
    hide StoredOn, Part, BlocksOn, Loadable;
  }

  lemma BeginCatalogSound(s: State, t: Tick)
    requires Sound(s) && s.write == WriteIdle && s.queue == [] && s.pending && s.phase == Ready
    ensures Sound(BeginCatalog(s, t))
  {
    hide StoredOn, Part, BlocksOn, Loadable;
  }

  lemma PhaseSound(s: State, w: Write)
    requires Sound(s) && s.write != WriteIdle && w != WriteIdle
    ensures Sound(s.(write := w))
  {
    hide StoredOn, Part, BlocksOn, Loadable;
  }

  lemma AbsentSound(s: State)
    requires Sound(s)
    ensures Sound(s.(phase := Absent, enabled := false))
  {
    hide StoredOn, Part, BlocksOn, Loadable;
  }

  lemma EnableSound(s: State, value: bool)
    requires Sound(s)
    ensures Sound(Enable(s, value))
  {
    hide StoredOn, Part, BlocksOn, Loadable;
  }

  /** Writing elsewhere leaves blocks alone. */
  lemma BlocksKept(card: seq<Sector>, x: nat, v: Sector, start: nat, n: int, id: nat, c: Content)
    requires BlocksOn(card, start, n, id, c) && x < |card| && (x < start || start + n <= x)
    ensures BlocksOn(card[x := v], start, n, id, c)
  {
    hide Part;
    var after := card[x := v];
    forall k | 0 <= k < n
      ensures BlockOn(after, start, k, id, c)
    {
      assert BlockOn(card, start, k, id, c);
    }
  }

  lemma StoredKept(card: seq<Sector>, x: nat, v: Sector, e: Entry, c: Content)
    requires StoredOn(card, e, c) && x < |card| && (x < e.start || e.End() <= x)
    ensures StoredOn(card[x := v], e, c)
  {
    hide BlocksOn;
    BlocksKept(card, x, v, e.start, e.blocks, e.id, c);
  }

  /** One sector outside every catalogued range changes. */
  lemma CatalogKept(c: Catalog, flights: seq<Content>, limit: nat, card: seq<Sector>, x: nat, v: Sector)
    requires |flights| == |c.entries| && Ranges(c, limit) && x < |card| && (x == CATALOG_SECTOR || limit <= x)
    ensures forall i :: 0 <= i < |flights| && StoredOn(card, c.entries[i], flights[i]) ==>
              StoredOn(card[x := v], c.entries[i], flights[i])
  {
    hide StoredOn;
    forall i | 0 <= i < |flights| && StoredOn(card, c.entries[i], flights[i])
      ensures StoredOn(card[x := v], c.entries[i], flights[i])
    {
      StoredKept(card, x, v, c.entries[i], flights[i]);
    }
  }

  /** Entries that are complete below the floor, one sector from there on changes. */
  lemma EntriesKept(s: State, x: nat, v: Sector)
    requires Sound(s) && s.Live() && x < |s.card| && (x == CATALOG_SECTOR || s.Floor() <= x)
    ensures forall i :: s.tainted <= i < |s.flights| && !Draining(s, i) ==>
              StoredOn(s.card[x := v], s.catalog.entries[i], s.flights[i])
  {
    hide StoredOn, Part, BlocksOn, Loadable;
    forall i | s.tainted <= i < |s.flights| && !Draining(s, i)
      ensures StoredOn(s.card[x := v], s.catalog.entries[i], s.flights[i])
    {
      StoredKept(s.card, x, v, s.catalog.entries[i], s.flights[i]);
    }
  }

  lemma TopKept(s: State, x: nat, v: Sector)
    requires Sound(s) && s.Live() && !s.wiped && x < |s.card| && x != CATALOG_SECTOR && s.Floor() <= x
    requires Loadable(s.card[CATALOG_SECTOR], |s.card|)
    ensures s.card[CATALOG_SECTOR].Index?
    ensures var top := s.card[CATALOG_SECTOR];
      |s.stored| == |top.catalog.entries| && Worn(s, x) <= |s.stored| &&
      forall i :: Worn(s, x) <= i < |s.stored| ==> StoredOn(s.card[x := v], top.catalog.entries[i], s.stored[i])
  {
    assert s.card[CATALOG_SECTOR].Index?;
    hide StoredOn, BlocksOn, Loadable;
    var top := s.card[CATALOG_SECTOR];
    forall i | Worn(s, x) <= i < |s.stored|
      ensures StoredOn(s.card[x := v], top.catalog.entries[i], s.stored[i])
    {
      StoredKept(s.card, x, v, top.catalog.entries[i], s.stored[i]);
    }
  }

  lemma FlightKept(s: State, x: nat, v: Sector)
    requires Sound(s) && s.Live() && s.Engaged() && x < |s.card| && (x == CATALOG_SECTOR || s.nextSector <= x)
    ensures s.start <= s.nextSector
    ensures BlocksOn(s.card[x := v], s.start, s.nextSector - s.start, s.flightId, s.Flight())
  {
    hide BlocksOn, StoredOn, Loadable;
    BlocksKept(s.card, x, v, s.start, s.nextSector - s.start, s.flightId, s.Flight());
  }

  /** The oldest queued block lands on the card. */
  lemma DataDoneFlight(s: State)
    requires Sound(s) && s.write != WriteIdle && !s.writingCatalog
    ensures FlightOk(DataDone(s))
  {
    hide Part, StoredOn, Loadable, CatalogOk, CardOk, CacheOk, CountOk, SyncOk;
    FlightKept(s, s.nextSector, s.Source());
    assert Part(s.queue[0], s.flightId, s.nextSector - s.start, s.Flight());
    assert BlockOn(DataDone(s).card, s.start, s.nextSector - s.start, s.flightId, s.Flight());
  }

  lemma DataDoneCatalog(s: State)
    requires Sound(s) && s.write != WriteIdle && !s.writingCatalog
    ensures CatalogOk(DataDone(s))
  {
    DataDoneFlight(s);
    var d := DataDone(s);
    EntriesKept(s, s.nextSector, s.Source());
    if s.queue[1..] == [] { LastStored(s); }
    hide Part, StoredOn, BlocksOn, Loadable, CardOk, CacheOk, CountOk;
    assert forall i :: 0 <= i < |s.flights| && Draining(s, i) && d.queue != [] ==> Draining(d, i);
  }

  /** With its last block the flight that drains is stored. */
  lemma LastStored(s: State)
    requires Sound(s) && s.write != WriteIdle && !s.writingCatalog && |s.queue| == 1
    ensures forall i :: 0 <= i < |s.flights| && Draining(s, i) ==>
      StoredOn(DataDone(s).card, s.catalog.entries[i], s.flights[i]) && s.catalog.entries[i].End() == s.nextSector + 1
  {
    FlightKept(s, s.nextSector, s.Source());
    assert Part(s.queue[0], s.flightId, s.nextSector - s.start, s.Flight());
    hide Part, Loadable, CardOk, CacheOk, CountOk;
    assert BlockOn(DataDone(s).card, s.start, s.nextSector - s.start, s.flightId, s.Flight());
  }

  lemma DataDoneSound(s: State)
    requires Sound(s) && s.write != WriteIdle && !s.writingCatalog
    ensures Sound(DataDone(s))
  {
    DataDoneFlight(s);
    DataDoneCatalog(s);
    if Loadable(s.card[CATALOG_SECTOR], |s.card|) && !s.wiped { TopKept(s, s.nextSector, s.Source()); }
    hide Part, StoredOn, BlocksOn, Loadable, FlightOk, CatalogOk;
    assert FlightFacts(s) by { DataFacts(s); }
  }

  predicate FlightFacts(s: State) { s.start <= s.nextSector && DATA_OFFSET <= s.start }

  lemma DataFacts(s: State)
    requires Sound(s) && s.Live() && s.Engaged()
    ensures FlightFacts(s)
  {
    hide Part, StoredOn, BlocksOn, Loadable, CatalogOk, CardOk;
  }

  // ------------------------------------------------- the catalog write

  /** Nothing drains while the catalog is written: every flight it lists is on the card. */
  lemma CatalogListsStored(s: State)
    requires Sound(s) && s.write != WriteIdle && s.writingCatalog
    ensures s.Source() == Index(s.catalog) && s.sent == s.Source()
    ensures Ranges(s.catalog, s.catalog.nextSector) && |s.flights| == |s.catalog.entries|
    ensures forall i :: s.tainted <= i < |s.flights| ==> StoredOn(s.card, s.catalog.entries[i], s.flights[i])
  {
    hide StoredOn, Part, BlocksOn, Loadable, FlightOk, CardOk;
  }

  /** The same once the catalog sector holds anything else. */
  lemma CatalogStays(s: State, v: Sector)
    requires Sound(s) && s.write != WriteIdle && s.writingCatalog
    ensures forall i :: s.tainted <= i < |s.flights| ==>
              StoredOn(s.card[CATALOG_SECTOR := v], s.catalog.entries[i], s.flights[i])
  {
    CatalogListsStored(s);
    CatalogKept(s.catalog, s.flights, s.catalog.nextSector, s.card, CATALOG_SECTOR, v);
    hide StoredOn;
  }

  lemma CatalogDoneSound(s: State)
    requires Sound(s) && s.write != WriteIdle && s.writingCatalog
    ensures Sound(CatalogDone(s))
  {
    CatalogListsStored(s);
    CatalogStays(s, s.Source());
    hide StoredOn, Part, BlocksOn;
  }

  lemma WriteDoneSound(s: State)
    requires Sound(s) && s.write != WriteIdle
    ensures Sound(WriteDone(s))
  {
    hide Sound, CatalogDone, DataDone;
    if s.writingCatalog { CatalogDoneSound(s); } else { DataDoneSound(s); }
  }

  /** Whatever an unfinished write leaves in its sector, the catalog on the card stays true. */
  lemma AfterCard(s: State, o: Outcome)
    requires Sound(s)
    ensures var u := PowerOff(s, o); CardOf(u.card) && |u.card| == |s.card| && CardOk(u)
  {
    if s.write != WriteIdle && o != Old {
      if s.writingCatalog { AfterCatalog(s, o); } else { AfterData(s, o); }
    } else {
      hide StoredOn, Part, BlocksOn, Ranges, Loadable;
    }
  }

  lemma AfterCatalog(s: State, o: Outcome)
    requires Sound(s) && s.write != WriteIdle && s.writingCatalog && o != Old
    ensures var u := PowerOff(s, o); CardOf(u.card) && |u.card| == |s.card| && CardOk(u)
  {
    CatalogListsStored(s);
    CatalogStays(s, s.Source());
    hide StoredOn, Part, BlocksOn, Ranges;
  }

  lemma AfterData(s: State, o: Outcome)
    requires Sound(s) && s.write != WriteIdle && !s.writingCatalog && o != Old
    ensures var u := PowerOff(s, o); CardOf(u.card) && |u.card| == |s.card| && CardOk(u)
  {
    DataFacts(s);
    if Loadable(s.card[CATALOG_SECTOR], |s.card|) {
      TopKept(s, s.nextSector, if o == New then s.Source() else Junk);
    }
    hide StoredOn, Part, BlocksOn, Ranges, Loadable, FlightOk, CatalogOk;
  }

  lemma WriteFailedSound(s: State, o: Outcome)
    requires Sound(s) && s.write != WriteIdle
    ensures Sound(WriteFailed(s, o))
  {
    AfterCard(s, o);
    hide StoredOn, Part, BlocksOn, Ranges, Loadable;
  }

  lemma AdvanceSound(s: State, t: Tick)
    requires Sound(s) && s.write != WriteIdle
    ensures Sound(Advance(s, t))
  {
    hide Sound, WriteFailed, WriteDone;
    WriteFailedSound(s, t.outcome);
    PhaseSound(s, WriteResponse);
    PhaseSound(s, WriteBusy);
    WriteDoneSound(s);
  }

  lemma UpdateSound(s: State, t: Tick)
    requires Sound(s)
    ensures Sound(Update(s, t))
  {
    hide Sound, Advance, BeginData, BeginCatalog;
    if !t.present { AbsentSound(s); }
    else if s.phase == Ready || s.phase == Recording {
      if s.write != WriteIdle { AdvanceSound(s, t); }
      else if s.queue != [] { BeginDataSound(s, t); }
      else if s.pending {
        PendingReady(s);
        BeginCatalogSound(s, t);
      }
    }
  }

  lemma PendingReady(s: State)
    requires Sound(s) && s.pending
    ensures s.phase != Recording
  {
    hide FlightOk, CountOk, CatalogOk, CardOk, CacheOk;
  }

  // ------------------------------------------------- recording

  lemma BeginSound(s: State, metadata: Option<Metadata>)
    requires Sound(s) && s.Resting() && s.nextSector < |s.card|
    ensures Sound(Begin(s, metadata))
  {
    hide StoredOn, BlockOn, Loadable;
  }

  lemma FullSound(s: State)
    requires Sound(s) && s.Resting()
    ensures Sound(s.(phase := Error, enabled := false))
  {
    hide StoredOn, Part, BlocksOn, Loadable;
  }

  lemma StartSound(s: State, metadata: Option<Metadata>)
    requires Sound(s)
    ensures Sound(Start(s, metadata))
  {
    hide Sound, Begin;
    if s.Resting() {
      if s.nextSector >= |s.card| { FullSound(s); } else { BeginSound(s, metadata); }
    }
  }

  /** A longer list of kept records leaves full blocks as they are. */
  lemma PartGrows(b: Block, id: nat, k: nat, c: Content, more: seq<Record>)
    requires Part(b, id, k, c) && |c.records| % 8 == 0
    ensures Part(b, id, k, c.Plus(more))
  {
    if k > 0 { assert 8 * k <= |c.records|; }
  }

  lemma BlocksGrow(card: seq<Sector>, start: nat, n: int, id: nat, c: Content, more: seq<Record>)
    requires BlocksOn(card, start, n, id, c) && |c.records| % 8 == 0
    ensures BlocksOn(card, start, n, id, c.Plus(more))
  {
    hide Part;
    forall k | 0 <= k < n
      ensures BlockOn(card, start, k, id, c.Plus(more))
    {
      assert BlockOn(card, start, k, id, c);
      PartGrows(card[start + k].block, id, k, c, more);
    }
  }

  /** The block that is queued next is the next block of the flight. */
  lemma NextPart(b: Block, id: nat, c: Content)
    requires b.flightId == id && |c.records| % 8 == 0 && 0 < |b.records| <= 8 && b.sequence == BlocksOf(|c.records|)
    ensures Part(b, id, b.sequence, c.Plus(b.records))
    ensures BlocksOf(|c.records + b.records|) == b.sequence + 1
  {}

  /** `b` is the open block of a flight that is recorded, ready to be queued. */
  predicate Closing(s: State, b: Block) {
    && s.phase == Recording && |s.kept| % 8 == 0 && s.sequence == s.blocks
    && b.flightId == s.flightId && 0 < |b.records| <= BLOCK_RECORDS
    && 8 * |s.fates| + |b.records| == |s.offered| && b.records == s.offered[8 * |s.fates|..] && Accounted(s)
  }

  lemma AddMod(x: int, n: nat)
    ensures Add32(x % WORD, n) == (x + n) % WORD
  {}

  lemma AddSmall(x: nat, n: nat)
    requires x + n < WORD
    ensures Add32(x, n) == x + n
  {}

  /** Block numbers stay far below the wrap: a flight has no more blocks than card and queue hold. */
  lemma FlightSize(s: State)
    requires Base(s) && s.phase == Recording
    ensures s.blocks + 1 < WORD && s.blocks == BlocksOf(|s.kept|) && s.count == |s.kept| % WORD
  {
    hide Part, BlocksOn, StoredOn, Loadable, CardOk, CacheOk, CatalogOk;
  }

  /** The flight's fields once `b` is queued. */
  lemma PushCounts(s: State, b: Block)
    requires Base(s) && Closing(s, b) && |s.queue| < QUEUE_BLOCKS
    ensures Push(s, b).blocks == s.blocks + 1 == BlocksOf(|s.kept + b.records|)
    ensures Push(s, b).count == |s.kept + b.records| % WORD
    ensures |b.records| == BLOCK_RECORDS ==> Push(s, b).sequence == s.sequence + 1
  {
    hide Base, Accounted, Part, Add32;
    FlightSize(s);
    NextPart(b.(sequence := s.sequence), s.flightId, s.Flight());
    AddSmall(s.blocks, 1);
    AddMod(|s.kept|, |b.records|);
  }

  lemma PushParts(s: State, b: Block)
    requires Base(s) && Closing(s, b) && |s.queue| < QUEUE_BLOCKS
    ensures s.start <= s.nextSector
    ensures forall j :: 0 <= j <= |s.queue| ==>
      Part(Push(s, b).queue[j], s.flightId, s.nextSector + j - s.start, s.Flight().Plus(b.records))
  {
    hide Part, BlocksOn, StoredOn, Loadable, CardOk, CacheOk, CatalogOk, Accounted;
    NextPart(b.(sequence := s.sequence), s.flightId, s.Flight());
    forall j | 0 <= j < |s.queue|
      ensures Part(s.queue[j], s.flightId, s.nextSector + j - s.start, s.Flight().Plus(b.records))
    {
      PartGrows(s.queue[j], s.flightId, s.nextSector + j - s.start, s.Flight(), b.records);
    }
  }

  lemma PushFlight(s: State, b: Block)
    requires Base(s) && Closing(s, b) && |s.queue| < QUEUE_BLOCKS
    ensures FlightOk(Push(s, b))
  {
    hide Part, BlocksOn, StoredOn, Loadable, CardOk, CacheOk, CatalogOk, BlocksOf, Add32;
    PushCounts(s, b);
    PushParts(s, b);
    BlocksGrow(s.card, s.start, s.nextSector - s.start, s.flightId, s.Flight(), b.records);
  }

  lemma PushBase(s: State, b: Block)
    requires Base(s) && Closing(s, b) && |s.queue| < QUEUE_BLOCKS
    ensures Base(Push(s, b))
  {
    PushFlight(s, b);
    hide Part, BlocksOn, StoredOn, Loadable, FlightOk;
  }

  lemma DropBase(s: State, b: Block)
    requires Base(s) && Closing(s, b)
    ensures Base(Drop(s, b))
  {
    hide Part, BlocksOn, StoredOn, Loadable, Survivors;
  }

  lemma SurvivorsClose(offered: seq<Record>, fates: seq<bool>, fate: bool)
    requires 8 * |fates| < |offered| <= 8 * |fates| + 8
    ensures Survivors(offered, fates + [fate]) ==
      Survivors(offered, fates) + if fate then offered[8 * |fates|..] else []
  {
    assert (fates + [fate])[..|fates|] == fates;
    assert Chunk(offered, |fates|) == offered[8 * |fates|..];
  }

  /** One more block is closed: queued, or dropped and counted. */
  lemma PushAccount(s: State, b: Block)
    requires Closing(s, b)
    ensures Accounted(Push(s, b))
    ensures |b.records| == BLOCK_RECORDS && Push(s, b).blocks == Push(s, b).sequence ==> CountOk(Push(s, b))
  {
    hide Survivors;
    SurvivorsClose(s.offered, s.fates, true);
  }

  lemma DropAccount(s: State, b: Block)
    requires Closing(s, b)
    ensures Accounted(Drop(s, b))
    ensures |b.records| == BLOCK_RECORDS ==> CountOk(Drop(s, b))
  {
    hide Survivors, Add32;
    SurvivorsClose(s.offered, s.fates, false);
    AddMod(s.droppedBefore + Covered(s.offered, s.fates) - |s.kept|, |b.records|);
  }

  lemma QueueSound(s: State, b: Block)
    requires Base(s) && Closing(s, b)
    ensures Base(QueueCurrent(s, b)) && Accounted(QueueCurrent(s, b))
    ensures |b.records| == BLOCK_RECORDS ==> Sound(QueueCurrent(s, b))
  {
    hide Base, Accounted, CountOk, Push, Drop;
    assert |b.records| > 0 && s.sequence == s.blocks;
    if |s.queue| < QUEUE_BLOCKS {
      PushBase(s, b);
      PushCounts(s, b);
      PushAccount(s, b);
    } else {
      DropBase(s, b);
      DropAccount(s, b);
    }
  }

  /** A record offered does not change what has been closed. */
  lemma {:induction false} SurvivorsKept(offered: seq<Record>, r: Record, fates: seq<bool>)
    requires 8 * |fates| <= |offered|
    ensures Survivors(offered + [r], fates) == Survivors(offered, fates)
  {
    var n := |fates| - 1;
    if n >= 0 {
      SurvivorsKept(offered, r, fates[..n]);
      assert Chunk(offered + [r], n) == Chunk(offered, n);
    }
  }

  lemma FillAccount(s: State, r: Record)
    requires CountOk(s) && s.phase == Recording && |s.current.records| < BLOCK_RECORDS
    ensures Closing(s.(offered := s.offered + [r]), Fill(s, r))
    ensures |Fill(s, r).records| < BLOCK_RECORDS ==> CountOk(s.(offered := s.offered + [r]).(current := Fill(s, r)))
  {
    hide Survivors;
    SurvivorsKept(s.offered, r, s.fates);
    assert (s.offered + [r])[8 * |s.fates|..] == s.offered[8 * |s.fates|..] + [r];
  }

  lemma FillSound(s: State, r: Record)
    requires Sound(s) && s.phase == Recording
    ensures var more := s.(offered := s.offered + [r]); Base(more)
    ensures |Fill(s, r).records| < BLOCK_RECORDS ==> Base(s.(offered := s.offered + [r]).(current := Fill(s, r)))
    ensures |s.current.records| < BLOCK_RECORDS
  {
    hide Part, BlocksOn, StoredOn, Loadable, CountOk;
  }

  lemma AppendSound(s: State, r: Record)
    requires Sound(s)
    ensures Sound(Append(s, r))
  {
    hide Base, CountOk, QueueCurrent;
    if s.phase == Recording {
      FillSound(s, r);
      FillAccount(s, r);
      if |Fill(s, r).records| == BLOCK_RECORDS {
        QueueSound(s.(offered := s.offered + [r]), Fill(s, r));
      }
    }
  }

  // ------------------------------------------------- stopping

  /** The flight is entered in the catalog. */
  lemma EntrySound(s: State, flag: byte)
    requires Base(s) && s.phase == Recording && s.count > 0
    ensures Sound(AppendEntry(s, flag))
  {
    EntryCatalog(s, flag);
    hide Part, BlocksOn, StoredOn, Loadable, CatalogOk;
  }

  /** Ids stay consecutive when the next one is taken. */
  lemma NextId(id: nat, k: nat)
    requires id < WORD
    ensures Sub32(Add32(id, 1), k + 1) == Sub32(id, k) && Sub32(Add32(id, 1), 1) == id
  {}

  lemma RangesGrow(c: Catalog, e: Entry, limit: nat, generation: nat)
    requires c.nextId < WORD && e.id == c.nextId && e.blocks >= 2 && e.End() <= limit && DATA_OFFSET <= e.start
    requires Ranges(c, e.start)
    ensures Ranges(Catalog(generation, c.nextSector, Add32(c.nextId, 1), c.entries + [e]), limit)
  {
    NextId(c.nextId, 0);
    forall i | 0 <= i < |c.entries|
      ensures c.entries[i].id == Sub32(Add32(c.nextId, 1), |c.entries| + 1 - i)
    {
      NextId(c.nextId, |c.entries| - i);
    }
    hide Sub32, Add32;
  }

  lemma RangesDrop(c: Catalog, limit: nat)
    requires Ranges(c, limit) && c.entries != []
    ensures Ranges(c.(entries := c.entries[1..]), limit)
  {}

  lemma EntryRanges(s: State, flag: byte)
    requires Base(s) && s.phase == Recording && s.count > 0
    ensures Ranges(AppendEntry(s, flag).catalog, s.nextSector + |s.queue|)
  {
    hide Ranges, Base, Add32;
    EntryFacts(s);
    var c := s.catalog;
    var kept := if |c.entries| >= CATALOG_FLIGHTS then c.(entries := c.entries[1..]) else c;
    if |c.entries| >= CATALOG_FLIGHTS { RangesDrop(c, s.start); }
    RangesGrow(kept, s.OwnEntry(flag), s.nextSector + |s.queue|, Add32(c.generation, 1));
  }

  lemma EntryFacts(s: State)
    requires Base(s) && s.phase == Recording && s.count > 0
    ensures Ranges(s.catalog, s.start) && s.blocks >= 2 && s.start + s.blocks <= s.nextSector + |s.queue|
    ensures s.catalog.nextId < WORD && s.flightId == s.catalog.nextId && DATA_OFFSET <= s.start
  {
    hide Part, BlocksOn, StoredOn, Loadable, CardOk, CacheOk;
  }

  lemma EntryCatalog(s: State, flag: byte)
    requires Base(s) && s.phase == Recording && s.count > 0
    ensures CatalogOk(AppendEntry(s, flag))
  {
    EntryRanges(s, flag);
    hide Part, BlocksOn, Loadable, CardOk, CacheOk, Ranges;
  }

  lemma CloseSound(s: State)
    requires Base(s) && s.phase == Recording
    ensures Sound(s.(phase := Ready))
    ensures Sound(s.(current := EMPTY_BLOCK, phase := Ready))
  {
    hide Part, BlocksOn, StoredOn, Loadable;
  }

  lemma EmptyCurrent(s: State, b: Block)
    requires Sound(s) && s.phase == Recording && b.records == []
    ensures Base(s.(current := b))
  {
    hide Part, BlocksOn, StoredOn, Loadable;
  }

  lemma StopSound(s: State, flag: byte, retain: bool)
    requires Sound(s)
    ensures Sound(Stop(s, flag, retain))
  {
    if s.phase == Recording {
      CloseSound(s);
      var b := s.current.(stopFlag := flag);
      if b.records == [] {
        EmptyCurrent(s, b);
      } else {
        QueueSound(s, b);
      }
      var q := QueueCurrent(s, b);
      assert q.phase == Recording;
      CloseSound(q);
      if q.count > 0 { EntrySound(q, flag); }
    }
    hide Base, CountOk, AppendEntry, QueueCurrent;
  }

  lemma ClearSound(s: State)
    requires Sound(s)
    ensures Sound(Clear(s))
  {
    hide Part, BlocksOn, StoredOn, Loadable;
  }

  // ------------------------------------------------- finding the card

  lemma ReloadSound(s: State, p: Probe)
    requires CardOf(s.card) && CardOk(s) && s.write == WriteIdle && s.phase != Recording
    requires s.dropped < WORD && s.count < WORD && s.flightId < WORD && s.catalog.nextId < WORD
    requires DATA_OFFSET <= s.catalog.nextSector <= s.nextSector
    requires |s.flights| == |s.catalog.entries| <= CATALOG_FLIGHTS && DATA_OFFSET <= s.nextSector <= |s.card|
    ensures Sound(Reload(s, p))
  {
    hide Part, BlocksOn, StoredOn;
  }

  lemma ReprobeSound(s: State, p: Probe)
    requires Sound(s)
    ensures Sound(Reprobe(s, p))
  {
    hide Reload;
    if s.phase != Recording && s.write == WriteIdle {
      AbsentSound(s);
      if p.present { ReloadSound(s, p); }
    }
    hide Part, BlocksOn, StoredOn, Loadable;
  }

  lemma PowerCycleSound(s: State, o: Outcome, p: Probe)
    requires Sound(s)
    ensures CardOf(PowerOff(s, o).card) && Sound(Init(PowerOff(s, o), p))
  {
    AfterCard(s, o);
    var u := PowerOff(s, o);
    if p.present { ReloadSound(u, p); } else { OffSound(s, o); }
    hide *;
  }

  lemma OffSound(s: State, o: Outcome)
    requires Sound(s)
    ensures Sound(PowerOff(s, o))
  {
    AfterCard(s, o);
    hide Part, BlocksOn, StoredOn, Loadable, After;
  }

  /** A chip as some run left it, before blackbox_sd_init. */
  lemma ZeroedSound(card: seq<Sector>, stored: seq<Content>, damaged: nat)
    requires CardOf(card) && CardOk(Zeroed(card, stored, damaged))
    ensures Sound(Zeroed(card, stored, damaged))
  {
    hide Part, BlocksOn, StoredOn, Loadable;
  }

  // ------------------------------------------------- every run

  lemma StepSound(s: State, e: Event)
    requires Sound(s)
    ensures Sound(Step(s, e))
  {
    match e {
      case Updated(t) => UpdateSound(s, t);
      case Started(metadata) => StartSound(s, metadata);
      case Appended(r) => AppendSound(s, r);
      case Stopped(flag, retain) => StopSound(s, flag, retain);
      case Cleared => ClearSound(s);
      case Enabled(value) => EnableSound(s, value);
      case Probed(p) => ReprobeSound(s, p);
      case PowerCycled(o, p) => PowerCycleSound(s, o, p);
    }
    hide Base, CountOk, Update, Start, Append, Stop, Clear, Enable, Reprobe, Init, PowerOff;
  }

  function Run(s: State, events: seq<Event>): State
    requires Sound(s)
    decreases |events|
  {
    if events == [] then s
    else
      StepSound(s, events[0]);
      Run(Step(s, events[0]), events[1..])
  }

  lemma {:induction false} RunSound(s: State, events: seq<Event>)
    requires Sound(s)
    ensures Sound(Run(s, events))
    decreases |events|
  {
    assert Shape(s);
    hide Sound, Step;
    if events != [] {
      StepSound(s, events[0]);
      RunSound(Step(s, events[0]), events[1..]);
    }
  }
}
