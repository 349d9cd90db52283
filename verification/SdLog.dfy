/**
 The driver of src/storage/blackbox_sd.c with its ring of blocks, its catalog table and
 the payload of the open block updated in place.  The scalar static variables are the
 fields of the state `v`; every method is proved against the step of SdModel that it
 implements, and against the invariant that every call sequence keeps.
 */
module SdLog {
  import opened Bytes
  import opened Records
  import opened Rings
  import M = SdModel
  import S = SdSafety
  import R = SdRuns

  class Log {
    var v: M.State
    const queue: array<M.Block>
    var queueRead: nat
    var queueWrite: nat
    var queueCount: nat
    const entries: array<M.Entry>
    var entryCount: nat
    const payload: array<Record>
    var payloadCount: nat
    ghost var dmaSlot: nat   // the ring slot a data write reads from

    ghost predicate Valid()
      reads this, queue, entries, payload
    {
      S.Sound(v) && Tables() && PayloadAt(v.current.records)
    }

    ghost predicate Tables()
      reads this, queue, entries
    {
      && Holding(queue[..], queueRead, queueWrite, queueCount, v.queue)
      && EntriesAt(v.catalog.entries) && (Sending() ==> dmaSlot == queueRead)
    }

    ghost predicate EntriesAt(list: seq<M.Entry>)
      reads this, entries
    {
      entries.Length == M.CATALOG_FLIGHTS && entryCount <= 20 && entries[..entryCount] == list
    }

    ghost predicate PayloadAt(records: seq<Record>)
      reads this, payload
    {
      payload.Length == M.BLOCK_RECORDS && payloadCount <= 8 && payload[..payloadCount] == records
    }

    /** A block is on its way from the ring to the card. */
    ghost predicate Sending()
      reads this
    {
      v.write != M.WriteIdle && !v.writingCatalog
    }

    /** Power-on with a card in the slot, as an earlier run left it. */
    constructor (card: seq<M.Sector>, stored: seq<M.Content>, damaged: nat)
      requires M.CardOf(card) && S.CardOk(M.Zeroed(card, stored, damaged))
      ensures Valid() && v.card == card && v.stored == stored
      ensures fresh(queue) && fresh(entries) && fresh(payload)
    {
      S.ZeroedSound(card, stored, damaged);
      v := M.Zeroed(card, stored, damaged);
      queue := new M.Block[M.QUEUE_BLOCKS](_ => M.EMPTY_BLOCK);
      entries := new M.Entry[M.CATALOG_FLIGHTS](_ => M.Entry(0, 0, 0, 0, 0));
      payload := new Record[M.BLOCK_RECORDS];
      queueRead, queueWrite, queueCount, entryCount, payloadCount := 0, 0, 0, 0, 0;
      new;
      HoldingNone(queue[..]);
    }

    /** queue_current for a block with records. */
    method QueueBlock(b: M.Block)
      requires Tables() && |b.records| > 0 && (Sending() ==> v.queue != [])
      modifies this, queue
      ensures Tables() && v == M.QueueCurrent(old(v), b) && payloadCount == 0 && v.current.records == []
      ensures old(Sending()) ==> Sending() && dmaSlot == old(dmaSlot) && queue[dmaSlot] == old(queue[dmaSlot])
    {
      hide Holding;
      HoldingFacts(queue[..], queueRead, queueWrite, queueCount, v.queue);
      payloadCount := 0;
      if queueCount >= M.QUEUE_BLOCKS {
        v := M.Drop(v, b);
        return;
      }
      if queueCount > 0 { RingApart(queue[..], queueRead, queueWrite, v.queue); }
      RingPush(queue[..], queueRead, queueWrite, v.queue, b.(sequence := v.sequence));
      queue[queueWrite] := b.(sequence := v.sequence);
      queueWrite := (queueWrite + 1) % M.QUEUE_BLOCKS;
      queueCount := queueCount + 1;
      v := M.Push(v, b);
    }

    /** The record goes into the payload of the open block. */
    method FillBlock(r: Record) returns (b: M.Block)
      requires PayloadAt(v.current.records) && payloadCount < M.BLOCK_RECORDS
      modifies `payloadCount, payload
      ensures b == M.Fill(v, r) && PayloadAt(b.records) && payloadCount == |b.records|
    {
      payload[payloadCount] := r;
      payloadCount := payloadCount + 1;
      b := M.Block(if payloadCount == 1 then v.flightId else v.current.flightId, v.current.sequence,
                   v.current.stopFlag, payload[..payloadCount], v.current.payload);
    }

    /** blackbox_sd_append */
    method Append(r: Record)
      requires Valid()
      modifies this, queue, payload
      ensures Valid() && v == M.Append(old(v), r)
      ensures old(Sending()) ==> Sending() && dmaSlot == old(dmaSlot) && queue[dmaSlot] == old(queue[dmaSlot])
    {
      hide Holding, S.Sound, M.QueueCurrent, M.Fill;
      S.AppendSound(v, r);
      SendingFacts(v);
      if v.phase != M.Recording { return; }
      var b := FillBlock(r);
      v := v.(offered := v.offered + [r]);
      if payloadCount >= M.BLOCK_RECORDS {
        QueueBlock(b);
      } else {
        v := v.(current := b);
      }
    }

    /** The memmove of append_catalog_entry: the oldest of twenty entries makes room. */
    method Slide()
      requires EntriesAt(v.catalog.entries)
      modifies `entryCount, entries
      ensures EntriesAt(Room(v.catalog.entries)) && entryCount < M.CATALOG_FLIGHTS
    {
      if entryCount >= M.CATALOG_FLIGHTS {
        forall i | 0 <= i < M.CATALOG_FLIGHTS - 1 { entries[i] := entries[i + 1]; }
        entryCount := M.CATALOG_FLIGHTS - 1;
      }
    }

    /** append_catalog_entry */
    method AppendEntry(flag: byte)
      requires Tables() && |v.flights| == |v.catalog.entries|
      modifies this, entries
      ensures Tables() && v == M.AppendEntry(old(v), flag) && payloadCount == old(payloadCount)
      ensures dmaSlot == old(dmaSlot)
    {
      hide Holding, M.AppendEntry, Room;
      EntryTable(v, flag);
      EntryKeeps(v, flag);
      Slide();
      entries[entryCount] := v.OwnEntry(flag);
      entryCount := entryCount + 1;
      assert entries[..entryCount] == Room(v.catalog.entries) + [v.OwnEntry(flag)];
      assert queue[..] == old(queue[..]);
      v := M.AppendEntry(v, flag);
    }

    /** blackbox_sd_stop */
    method Stop(flag: byte, retain: bool)
      requires Valid()
      modifies this, queue, entries
      ensures Valid() && v == M.Stop(old(v), flag, retain)
      ensures old(Sending()) ==> Sending() && dmaSlot == old(dmaSlot) && queue[dmaSlot] == old(queue[dmaSlot])
    {
      hide Holding, S.Sound, M.QueueCurrent, M.AppendEntry;
      S.StopSound(v, flag, retain);
      SendingFacts(v);
      if v.phase != M.Recording { return; }
      if !retain {
        payloadCount := 0;
        v := v.(current := M.EMPTY_BLOCK, phase := M.Ready);
        return;
      }
      StopSizes(v, flag);
      if payloadCount > 0 {
        QueueBlock(v.current.(stopFlag := flag));
      } else {
        v := v.(current := v.current.(stopFlag := flag));
      }
      if v.count > 0 {
        EntryKeeps(v, flag);
        AppendEntry(flag);
      } else {
        v := v.(phase := M.Ready);
      }
    }

    /** queue_metadata and the rest of a start on a card at rest. */
    method Begin(metadata: Option<Metadata>)
      requires Tables() && v.Resting()
      modifies this, queue
      ensures Tables() && v == M.Begin(old(v), metadata) && PayloadAt([])
      requires payload.Length == M.BLOCK_RECORDS
    {
      hide Holding;
      HoldingFacts(queue[..], queueRead, queueWrite, queueCount, v.queue);
      payloadCount := 0;
      if metadata.Some? {
        var block := M.Block(v.catalog.nextId, 0, 0, [], metadata.value);
        RingPush(queue[..], queueRead, queueWrite, v.queue, block);
        queue[queueWrite] := block;
        queueWrite := (queueWrite + 1) % M.QUEUE_BLOCKS;
        queueCount := queueCount + 1;
        assert v.queue + [block] == [block];
      }
      v := M.Begin(v, metadata);
    }

    /** blackbox_sd_start */
    method Start(metadata: Option<Metadata>)
      requires Valid()
      modifies this, queue
      ensures Valid() && v == M.Start(old(v), metadata)
    {
      hide Holding, S.Sound, M.Begin;
      S.StartSound(v, metadata);
      SendingFacts(v);
      BeginEmpty(v, metadata);
      if !v.enabled || !v.Resting() { return; }
      if v.nextSector >= |v.card| {
        v := v.(phase := M.Error, enabled := false);
        return;
      }
      Begin(metadata);
    }

    /** blackbox_sd_clear */
    method Clear() returns (ok: bool)
      requires Valid()
      modifies this
      ensures Valid() && v == M.Clear(old(v))
      ensures ok <==> old(v.phase == M.Ready && v.write == M.WriteIdle && v.queue == [])
    {
      hide Holding, S.Sound;
      S.ClearSound(v);
      HoldingFacts(queue[..], queueRead, queueWrite, queueCount, v.queue);
      if v.phase != M.Ready || v.write != M.WriteIdle || queueCount != 0 { return false; }
      entryCount := 0;
      v := M.Clear(v);
      ok := true;
    }

    /** blackbox_sd_set_enabled */
    method SetEnabled(value: bool)
      requires Valid()
      modifies this
      ensures Valid() && v == M.Enable(old(v), value)
    {
      hide Holding, S.Sound;
      S.EnableSound(v, value);
      v := v.(enabled := value && v.phase == M.Ready);
    }

    /** load_catalog and the resets around it. */
    method Reload(p: M.Probe)
      requires Valid() && v.phase != M.Recording && v.write == M.WriteIdle && p.present
      modifies this, entries
      ensures Valid() && v == M.Reload(old(v), p)
    {
      hide Holding, S.Sound;
      S.ReprobeSound(v, p);
      SendingFacts(v);
      HoldingFacts(queue[..], queueRead, queueWrite, queueCount, v.queue);
      queueRead, queueWrite, queueCount, payloadCount := 0, 0, 0, 0;
      HoldingNone(queue[..]);
      if p.initOk {
        var stored := v.card[M.CATALOG_SECTOR];
        if p.readOk && M.Loadable(stored, |v.card|) {
          entryCount := |stored.catalog.entries|;
          forall i | 0 <= i < entryCount { entries[i] := stored.catalog.entries[i]; }
          assert entries[..entryCount] == stored.catalog.entries;
        } else {
          entryCount := 0;
        }
      }
      assert queue[..] == old(queue[..]);
      v := M.Reload(v, p);
    }

    /** blackbox_sd_probe */
    method Reprobe(p: M.Probe)
      requires Valid()
      modifies this, entries
      ensures Valid() && v == M.Reprobe(old(v), p)
    {
      hide Holding, S.Sound, M.Reload;
      S.ReprobeSound(v, p);
      SendingFacts(v);
      if v.phase == M.Recording || v.write != M.WriteIdle { return; }
      if !p.present {
        v := v.(phase := M.Absent, enabled := false);
        return;
      }
      Reload(p);
    }

    /** A sector write has finished: the catalog is committed, or the oldest block leaves the ring. */
    method WriteDone()
      requires Valid() && v.write != M.WriteIdle
      modifies this
      ensures Valid() && v == M.WriteDone(old(v))
    {
      hide Holding, S.Sound, M.CatalogDone, M.DataDone;
      S.WriteDoneSound(v);
      SendingFacts(v);
      DoneKeeps(v);
      if v.writingCatalog {
        v := M.CatalogDone(v);
      } else {
        HoldingFacts(queue[..], queueRead, queueWrite, queueCount, v.queue);
        RingPop(queue[..], queueRead, queueWrite, v.queue);
        queueRead := (queueRead + 1) % M.QUEUE_BLOCKS;
        queueCount := queueCount - 1;
        v := M.DataDone(v);
      }
    }

    /** The oldest block, or once there is none the catalog, is handed to the DMA. */
    method BeginWrite(t: M.Tick)
      requires Valid() && v.write == M.WriteIdle && (v.phase == M.Ready || v.phase == M.Recording)
      modifies this
      ensures Valid() && v == M.BeginWrite(old(v), t)
      ensures Sending() ==> v.sent == M.Data(queue[dmaSlot])
    {
      hide Holding, S.Sound, M.BeginData, M.BeginCatalog;
      HoldingFacts(queue[..], queueRead, queueWrite, queueCount, v.queue);
      BeginKeeps(v, t);
      if queueCount > 0 {
        SlotFirst(queueRead);
        SlotEntry(queue[..], queueRead, queueWrite, v.queue, 0, queueRead);
        dmaSlot := queueRead;
        S.BeginDataSound(v, t);
        v := M.BeginData(v, t);
      } else if v.pending {
        S.PendingReady(v);
        S.BeginCatalogSound(v, t);
        v := M.BeginCatalog(v, t);
      }
    }

    /** blackbox_sd_update */
    method Update(t: M.Tick)
      requires Valid()
      modifies this
      ensures Valid() && v == M.Update(old(v), t)
    {
      hide Holding, S.Sound, M.BeginWrite, M.WriteDone, M.WriteFailed;
      S.UpdateSound(v, t);
      SendingFacts(v);
      if !t.present {
        v := v.(phase := M.Absent, enabled := false);
        return;
      }
      if v.phase != M.Ready && v.phase != M.Recording { return; }
      if v.write == M.WriteIdle {
        BeginWrite(t);
        return;
      }
      FailKeeps(v, t.outcome);
      if t.expired {
        v := M.WriteFailed(v, t.outcome);
        return;
      }
      if v.write == M.WriteDma && !t.dmaDone { return; }
      if v.write != M.WriteBusy {
        if t.reply == M.Nothing {
          v := v.(write := M.WriteResponse);
          return;
        }
        if t.reply == M.Rejected {
          v := M.WriteFailed(v, t.outcome);
          return;
        }
      }
      if !t.released {
        v := v.(write := M.WriteBusy);
      } else {
        WriteDone();
      }
    }

    /** read_sector through the cache. */
    method Fetch(sector: nat, ok: bool) returns (fetched: bool)
      requires Valid() && v.Resting() && M.DATA_OFFSET <= sector < |v.card|
      modifies `v
      ensures Valid() && v == R.Fetch(old(v), sector, ok) && fetched == R.Fetched(v, sector)
    {
      hide Holding, S.Sound;
      R.FetchSound(v, sector, ok);
      if !v.cacheValid || v.cacheSector != sector {
        if !ok { return false; }
        v := v.(cache := v.card[sector], cacheValid := true, cacheSector := sector);
      }
      fetched := true;
    }

    /** blackbox_sd_get_record */
    method GetRecord(id: nat, r: nat, ok1: bool, ok2: bool) returns (record: Option<Record>)
      requires Valid()
      modifies `v
      ensures Valid() && v == R.GetRecord(old(v), id, r, ok1, ok2).state
      ensures record == R.GetRecord(old(v), id, r, ok1, ok2).record
    {
      hide Holding, S.Sound, R.Find, R.Fetch, R.Slot;
      HoldingFacts(queue[..], queueRead, queueWrite, queueCount, v.queue);
      if v.phase != M.Ready || v.write != M.WriteIdle || queueCount != 0 || v.pending { return None; }
      var x := FindFlight(id);
      if x == entryCount || r >= entries[x].count { return None; }
      var e := entries[x];
      EntryBounds(v, x);
      R.FetchSound(v, e.start, ok1);
      var first := Fetch(e.start, ok1);
      if !first { return None; }
      var block := (if R.MetadataBlock(v.cache, id) then 1 else 0) + r / M.BLOCK_RECORDS;
      if block >= e.blocks { return None; }
      var second := Fetch(e.start + block, ok2);
      if !second { return None; }
      record := R.Slot(v.cache, id, block, r);
    }

    /** blackbox_sd_get_metadata */
    method GetMetadata(id: nat, ok: bool) returns (bytes: Option<seq<byte>>)
      requires Valid()
      modifies `v
      ensures Tables() && PayloadAt(v.current.records)
      ensures old(v.tainted <= R.Find(v.catalog.entries, id) || !v.Resting()) ==> Valid()
      ensures v == R.GetMetadata(old(v), id, ok).state && bytes == R.GetMetadata(old(v), id, ok).payload
    {
      hide Holding, S.Sound, R.Find;
      HoldingFacts(queue[..], queueRead, queueWrite, queueCount, v.queue);
      if v.phase != M.Ready || v.write != M.WriteIdle || queueCount != 0 || v.pending { return None; }
      var x := FindFlight(id);
      if v.tainted <= x { R.GetMetadataReturns(v, id, ok); }
      if x == entryCount || !ok { return None; }
      var sector := entries[x].start;
      EntryBounds(v, x);
      v := v.(cache := v.card[sector]);
      if !R.MetadataBlock(v.cache, id) { return None; }
      bytes := Some(v.cache.block.payload);
      v := v.(cacheValid := true, cacheSector := sector);
    }

    /** The search of blackbox_sd_get_record for the flight's entry. */
    method FindFlight(id: nat) returns (x: nat)
      requires Valid()
      ensures x == R.Find(v.catalog.entries, id)
    {
      hide Holding, S.Sound;
      x := 0;
      while x < entryCount && entries[x].id != id
        invariant x <= entryCount
        invariant forall i :: 0 <= i < x ==> v.catalog.entries[i].id != id
      {
        x := x + 1;
      }
    }
  }

  lemma SendingFacts(v: M.State)
    requires S.Sound(v)
    ensures v.write != M.WriteIdle && !v.writingCatalog ==> v.queue != []
    ensures |v.current.records| < M.BLOCK_RECORDS && |v.flights| == |v.catalog.entries|
    ensures M.Shape(v)
  {}

  lemma StopSizes(v: M.State, flag: byte)
    requires S.Sound(v) && v.phase == M.Recording
    ensures var b := v.current.(stopFlag := flag); var q := M.QueueCurrent(v, b);
      && q.current.records == [] && |q.flights| == |q.catalog.entries|
      && (b.records == [] ==> q == v.(current := b))
  {
    hide S.Sound, M.QueueCurrent;
    SendingFacts(v);
    QueueSizes(v, v.current.(stopFlag := flag));
  }

  lemma QueueSizes(v: M.State, b: M.Block)
    ensures var q := M.QueueCurrent(v, b);
      && (b.records == [] ==> q == v.(current := b))
      && (b.records != [] ==> q.current.records == [] && q.flights == v.flights && q.catalog == v.catalog)
  {
    hide M.Push, M.Drop;
    BlockSizes(v, b);
  }

  lemma BlockSizes(v: M.State, b: M.Block)
    ensures var p := M.Push(v, b); p.current.records == [] && p.flights == v.flights && p.catalog == v.catalog
    ensures var d := M.Drop(v, b); d.current.records == [] && d.flights == v.flights && d.catalog == v.catalog
  {}

  function Room(list: seq<M.Entry>): seq<M.Entry> { if |list| >= M.CATALOG_FLIGHTS then list[1..] else list }

  lemma EntryTable(q: M.State, flag: byte)
    ensures M.AppendEntry(q, flag).catalog.entries == Room(q.catalog.entries) + [q.OwnEntry(flag)]
    ensures M.AppendEntry(q, flag).queue == q.queue
  {}

  lemma EntryKeeps(q: M.State, flag: byte)
    ensures var e := M.AppendEntry(q, flag);
      e.current == q.current && e.write == q.write && e.writingCatalog == q.writingCatalog
  {}

  lemma BeginEmpty(s: M.State, metadata: Option<Metadata>)
    ensures M.Begin(s, metadata).current.records == []
  {}

  lemma DoneKeeps(s: M.State)
    requires M.Shape(s) && s.write != M.WriteIdle
    ensures s.writingCatalog ==> Keeps(s, M.CatalogDone(s)) && M.CatalogDone(s).queue == s.queue
    ensures !s.writingCatalog ==> Keeps(s, M.DataDone(s)) && M.DataDone(s).queue == s.queue[1..]
    ensures s.writingCatalog ==> M.CatalogDone(s).write == M.WriteIdle
    ensures !s.writingCatalog ==> M.DataDone(s).write == M.WriteIdle
  {}

  /** The catalog and the open block are as they were. */
  predicate Keeps(s: M.State, d: M.State) { d.catalog == s.catalog && d.current == s.current }

  lemma BeginKeeps(s: M.State, t: M.Tick)
    ensures s.queue != [] ==> Keeps(s, M.BeginData(s, t)) && M.BeginData(s, t).queue == s.queue
    ensures s.queue != [] && M.BeginData(s, t).write != s.write ==> M.BeginData(s, t).sent == M.Data(s.queue[0])
    ensures M.BeginCatalog(s, t).queue == s.queue && M.BeginCatalog(s, t).current == s.current
    ensures M.BeginCatalog(s, t).catalog.entries == s.catalog.entries
    ensures M.BeginCatalog(s, t).write != s.write ==> M.BeginCatalog(s, t).writingCatalog
  {}

  lemma FailKeeps(s: M.State, o: M.Outcome)
    requires M.Shape(s)
    ensures var d := M.WriteFailed(s, o);
      d.queue == s.queue && d.catalog == s.catalog && d.current == s.current && d.write == M.WriteIdle
  {}

  lemma EntryBounds(s: M.State, x: nat)
    requires S.Sound(s) && s.Resting() && x < |s.catalog.entries|
    ensures M.DATA_OFFSET <= s.catalog.entries[x].start && 2 <= s.catalog.entries[x].blocks
    ensures s.catalog.entries[x].End() <= |s.card|
  {
    hide S.Part, S.BlocksOn, S.StoredOn, M.Loadable;
  }
}
