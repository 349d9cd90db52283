/**
 The flights that the SD log forgets (src/storage/blackbox_sd.c): all of them after the user's clear, at
 once for the reader and for every restart once the catalog is written, and the one that a stop does not retain;
 and the flights that never begin because the log is disabled.
 */
module SdClear {
  import opened Bytes
  import opened Records
  import opened SdModel
  import opened SdSafety
  import opened SdRuns

  /** The driver takes the clear. */
  predicate Accepts(s: State) { s.phase == Ready && s.write == WriteIdle && s.queue == [] }

  /** No flight can be read. */
  ghost predicate Unreadable(s: State) {
    && s.catalog.entries == [] && s.flights == []
    && (forall id, r, ok1, ok2 :: GetRecord(s, id, r, ok1, ok2).record == None)
    && (forall id, r, n, ok1, ok2 :: GetRecords(s, id, r, n, ok1, ok2).records == [])
    && (forall id, ok :: GetMetadata(s, id, ok).payload == None)
  }

  lemma EmptyUnreadable(s: State)
    requires s.catalog.entries == [] && s.flights == []
    ensures Unreadable(s)
  {
    forall id, r, ok1, ok2 ensures GetRecord(s, id, r, ok1, ok2).record == None { assert Find([], id) == 0; }
    forall id, r, n, ok1, ok2 ensures GetRecords(s, id, r, n, ok1, ok2).records == [] { assert Find([], id) == 0; }
  }

  lemma ClearEmpties(s: State)
    requires Sound(s) && Accepts(s)
    ensures var u := Clear(s);
      && Sound(u) && Stopping(u) && u.pending && Work(u) == 4 && u.catalog.entries == [] && u.flights == []
      && u.nextSector == DATA_OFFSET && u.catalog.nextId == 1 && u.queue == [] && u.enabled == s.enabled && u.dropped == 0
      && u.card == s.card
  {
    ClearSound(s);
    hide FlightOk, CountOk, CatalogOk, CardOk, CacheOk, SyncOk;
  }

  /** After an accepted clear nothing can be read; once the four phases of the catalog write are over, however
      long the card takes for each, neither a restart nor a probe finds a flight, and the next flight has id 1
      and starts at the first data sector. */
  lemma ClearForgets(s: State, ticks: seq<Tick>, p: Probe, m: Metadata)
    requires Sound(s) && Accepts(s) && Sound(Clear(s)) && AllFair(ticks) && Moved(Clear(s), ticks) >= 4
    ensures Unreadable(Clear(s))
    ensures var u := Run(Clear(s), Updates(ticks));
      && Sound(u) && u.Resting() && Unreadable(u) && Unreadable(Step(u, PowerCycled(Old, p))) && Unreadable(Reprobe(u, p))
      && (s.enabled ==> var f := Start(u, Some(m)); f.phase == Recording && f.flightId == 1 && f.start == DATA_OFFSET)
  {
    hide Sound, Clear, Run, Step, Reprobe, Start, Moved, Work, Stopping, AllFair, Unreadable;
    ClearEmpties(s);
    EmptyUnreadable(Clear(s));
    Drained(Clear(s), ticks);
    var u := Run(Clear(s), Updates(ticks));
    EmptyUnreadable(u);
    HasShape(u);
    RestEmpty(u, p);
    EmptyUnreadable(Step(u, PowerCycled(Old, p)));
    EmptyUnreadable(Reprobe(u, p));
    if s.enabled { NextFlight(u, m); }
  }

  /** A driver that lists nothing, at rest, finds nothing when it looks again. */
  lemma RestEmpty(u: State, p: Probe)
    requires Sound(u) && u.Resting() && !u.lost && u.catalog.entries == [] && u.flights == []
    ensures var v := Step(u, PowerCycled(Old, p)); v.catalog.entries == [] && v.flights == []
    ensures Reprobe(u, p).catalog.entries == [] && Reprobe(u, p).flights == []
  {
    hide Sound, Step, Reprobe;
    RestartFacts(u);
    RestartKeeps(u, p);
    ReprobeFinds(u, p);
  }

  lemma ReprobeFinds(u: State, p: Probe)
    requires Sound(u) && u.Resting() && !u.lost && u.catalog.entries == [] && u.flights == []
    ensures Reprobe(u, p).catalog.entries == [] && Reprobe(u, p).flights == []
  {
    RestartFacts(u);
    hide FlightOk, CountOk, CatalogOk, CardOk, CacheOk, SyncOk;
  }

  lemma NextFlight(u: State, m: Metadata)
    requires Sound(u) && u.Resting() && u.enabled && u.catalog.nextId == 1 && u.nextSector == DATA_OFFSET
    ensures var f := Start(u, Some(m)); f.phase == Recording && f.flightId == 1 && f.start == DATA_OFFSET
  {
    hide FlightOk, CountOk, CatalogOk, CardOk, CacheOk, SyncOk;
  }

  /** A stop that does not retain, or that has nothing to retain: the flight is not entered, and after the
      blocks that were queued the driver comes to rest with the flights it had. */
  lemma DiscardedNotEntered(s: State, flag: byte, retain: bool, ticks: seq<Tick>)
    requires Sound(s) && s.phase == Recording && (retain ==> Stop(s, flag, true).count == 0)
    requires var q := Stop(s, flag, retain); Sound(q) && Stopping(q) && AllFair(ticks) && Moved(q, ticks) >= Work(q)
    ensures var u := Run(Stop(s, flag, retain), Updates(ticks));
      u.Resting() && u.catalog.entries == s.catalog.entries && u.flights == s.flights && u.catalog.nextId == s.flightId
  {
    hide Sound, Stop, Run, Stopping, Work, Moved, AllFair;
    DiscardKeeps(s, flag, retain);
    assert Unentered(s, Stop(s, flag, retain));
    Drained(Stop(s, flag, retain), ticks);
  }

  predicate Unentered(s: State, q: State) { q.catalog == s.catalog && q.flights == s.flights && !q.pending }

  lemma DiscardKeeps(s: State, flag: byte, retain: bool)
    requires Sound(s) && s.phase == Recording && (retain ==> Stop(s, flag, true).count == 0)
    ensures Unentered(s, Stop(s, flag, retain)) && s.catalog.nextId == s.flightId
  {
    hide QueueCurrent, AppendEntry, Unentered;
    RecordingFacts(s);
    if retain {
      var b := s.current.(stopFlag := flag);
      EntryCounts(QueueCurrent(s, b), flag);
      BlockUnentered(s, b);
      ReadyUnentered(s, QueueCurrent(s, b));
    } else {
      DropUnentered(s);
    }
  }

  lemma RecordingFacts(s: State)
    requires Sound(s) && s.phase == Recording
    ensures !s.pending && s.catalog.nextId == s.flightId
  {
    hide FlightOk, CountOk, CatalogOk, CardOk, CacheOk, SyncOk;
  }

  lemma EntryCounts(q: State, flag: byte)
    ensures AppendEntry(q, flag).count == q.count
  {}

  lemma DropUnentered(s: State)
    requires !s.pending
    ensures Unentered(s, s.(current := EMPTY_BLOCK, phase := Ready))
  {}

  lemma ReadyUnentered(s: State, q: State)
    requires Unentered(s, q)
    ensures Unentered(s, q.(phase := Ready))
  {}

  lemma BlockUnentered(s: State, b: Block)
    requires !s.pending
    ensures Unentered(s, QueueCurrent(s, b))
  {
    hide Push, Drop;
    PushUnentered(s, b);
    LossUnentered(s, b);
  }

  lemma PushUnentered(s: State, b: Block)
    requires !s.pending
    ensures Unentered(s, Push(s, b))
  {}

  lemma LossUnentered(s: State, b: Block)
    requires !s.pending
    ensures Unentered(s, Drop(s, b))
  {}

  lemma HasShape(u: State)
    requires Sound(u)
    ensures Shape(u)
  {}

  /** A start begins a flight exactly on an enabled, resting driver with room on the card; on a full card it is an
      error, and anywhere else it does nothing. */
  lemma StartExactly(s: State, m: Metadata)
    requires Shape(s) && s.phase != Recording
    ensures var u, full := Start(s, Some(m)), s.nextSector == |s.card|;
      && (u.phase == Recording <==> s.enabled && s.Resting() && !full)
      && (s.enabled && s.Resting() && full ==> u.phase == Error && !u.enabled)
      && (!(s.enabled && s.Resting()) ==> u == s)
      && (u.phase == Recording ==> u.flightId == s.catalog.nextId && u.start == s.nextSector && u.metadata == m)
  {}

  /** While nobody enables the log, nothing that happens makes it record: probes and power cuts included. */
  lemma {:induction false} SilentWhileDisabled(s: State, events: seq<Event>)
    requires Sound(s) && !s.enabled && s.phase != Recording && Enabled(true) !in events
    ensures var u := Run(s, events); !u.enabled && u.phase != Recording
    decreases |events|
  {
    hide Sound, Step;
    if events != [] {
      StepSound(s, events[0]);
      HasShape(s);
      SilentStep(s, events[0]);
      SilentWhileDisabled(Step(s, events[0]), events[1..]);
    }
  }

  lemma SilentStep(s: State, e: Event)
    requires Shape(s) && !s.enabled && s.phase != Recording && e != Enabled(true)
    ensures var u := Step(s, e); !u.enabled && u.phase != Recording
  {
    hide After, StoredAfter, DamagedAfter, Worn, AppendEntry, QueueCurrent, Shape;
    if e.Updated? { SilentUpdate(s, e.t); }
    if e.PowerCycled? { CutShape(s, e.o); }
    hide Update;
  }

  predicate Silent(s: State) { !s.enabled && s.phase != Recording }

  lemma SilentUpdate(s: State, t: Tick)
    requires Shape(s) && Silent(s)
    ensures Silent(Update(s, t))
  {
    if s.write == WriteIdle { SilentBegin(s, t); } else { SilentAdvance(s, t); }
    hide BeginWrite, Advance, Shape;
  }

  lemma SilentBegin(s: State, t: Tick)
    requires Silent(s)
    ensures Silent(BeginWrite(s, t))
  {}

  lemma SilentAdvance(s: State, t: Tick)
    requires Shape(s) && s.write != WriteIdle && Silent(s)
    ensures Silent(Advance(s, t))
  {
    SilentDone(s);
    if t.expired || t.reply == Rejected { SilentFailure(s, t.outcome); }
    hide WriteFailed, WriteDone;
  }

  lemma SilentDone(s: State)
    requires Shape(s) && s.write != WriteIdle && Silent(s)
    ensures Silent(WriteDone(s))
  {
    hide Worn;
  }

  lemma SilentFailure(s: State, o: Outcome)
    requires CardOf(s.card) && (s.write != WriteIdle ==> s.Target() < |s.card|) && Silent(s)
    ensures Silent(WriteFailed(s, o))
  {
    hide After, StoredAfter, DamagedAfter;
  }
}
