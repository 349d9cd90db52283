/**
 A run of the SD log (src/storage/blackbox_sd.c) from start-up that loses a flight: two flights
 are recorded, a probe cannot read the catalog, and the next flight writes over the first one.
 */
module SdReach {
  import opened Bytes
  import opened Records
  import opened SdModel
  import opened SdSafety
  import opened SdRuns

  /** Nothing fails, and no phase takes a second update. */
  predicate Swift(t: Tick) { Fair(t) && t.dmaDone && t.reply == Accepted && t.released }

  function Repeated(t: Tick, n: nat): (ticks: seq<Tick>)
    ensures |ticks| == n
  {
    seq(n, _ => t)
  }

  lemma {:induction false} AllMove(s: State, t: Tick, n: nat)
    requires Sound(s) && Swift(t)
    ensures AllFair(Repeated(t, n)) && Moved(s, Repeated(t, n)) == n
    decreases n
  {
    assert Shape(s);
    hide Sound, Shape, Update;
    if n > 0 {
      StepSound(s, Updated(t));
      AllMove(Update(s, t), t, n - 1);
      assert Repeated(t, n)[1..] == Repeated(t, n - 1);
    }
  }

  /** Ready for a flight of one record. */
  predicate Waits(s: State) {
    Sound(s) && s.Resting() && s.enabled && s.nextSector + 2 <= |s.card| && |s.catalog.entries| < CATALOG_FLIGHTS
  }

  /** A flight of one record: the start, the record and a retaining stop. */
  function Flown(m: Metadata, r: Record, flag: byte): seq<Event> { [Started(Some(m)), Appended(r), Stopped(flag, true)] }

  /** What these calls leave, `a` being the state the flight began in. */
  predicate Closed(a: State, q: State, m: Metadata, r: Record, flag: byte) {
    && q.phase == Ready && q.write == WriteIdle && q.enabled == a.enabled && q.card == a.card && q.stored == a.stored
    && q.nextSector == a.nextSector == q.start && q.flightId == a.catalog.nextId && q.metadata == m && q.kept == [r]
    && |q.queue| == 2 && q.lost == a.lost && q.damaged == a.damaged && q.tainted == a.tainted && q.pending
    && q.catalog.entries == a.catalog.entries + [Entry(a.catalog.nextId, a.nextSector, 2, 1, flag)]
    && q.flights == a.flights + [Content(m, [r])] && q.catalog.nextId == Add32(a.catalog.nextId, 1)
  }

  lemma FlightCloses(a: State, m: Metadata, r: Record, flag: byte)
    requires Sound(a) && a.Resting() && a.enabled && a.nextSector < |a.card| && |a.catalog.entries| < CATALOG_FLIGHTS
    ensures var q := Stop(Append(Start(a, Some(m)), r), flag, true); Sound(q) && Closed(a, q, m, r, flag)
  {
    StartSound(a, Some(m));
    AppendSound(Start(a, Some(m)), r);
    StopSound(Append(Start(a, Some(m)), r), flag, true);
    assert |a.flights| == |a.catalog.entries|;
    hide Sound, Add32;
    assert [] + [r] == [r];
    assert Add32(0, 1) == 1 && Add32(1, 1) == 2 by { AddSmall(0, 1); AddSmall(1, 1); }
  }

  lemma RunOne(s: State, e: Event, more: seq<Event>)
    requires Sound(s)
    ensures Sound(Step(s, e)) && Run(s, [e] + more) == Run(Step(s, e), more) && Run(s, [e]) == Step(s, e)
  {
    StepSound(s, e);
    assert ([e] + more)[1..] == more && [e][1..] == [];
    hide Sound, Step;
  }

  lemma {:induction false} RunBoth(s: State, a: seq<Event>, b: seq<Event>)
    requires Sound(s)
    ensures Sound(Run(s, a)) && Run(s, a + b) == Run(Run(s, a), b)
    decreases |a|
  {
    assert Shape(s);
    hide Sound, Shape, Step;
    if a == [] {
      assert a + b == b;
    } else {
      StepSound(s, a[0]);
      RunBoth(Step(s, a[0]), a[1..], b);
      assert (a + b)[1..] == a[1..] + b;
    }
  }

  lemma SoundShape(s: State)
    requires Sound(s)
    ensures Shape(s)
  {}

  lemma RunFlown(s: State, m: Metadata, r: Record, flag: byte)
    requires Sound(s)
    ensures Run(s, Flown(m, r, flag)) == Stop(Append(Start(s, Some(m)), r), flag, true)
  {
    hide Sound, Start, Append, Stop;
    RunOne(s, Started(Some(m)), [Appended(r), Stopped(flag, true)]);
    SoundShape(s);
    var a := Step(s, Started(Some(m)));
    RunOne(a, Appended(r), [Stopped(flag, true)]);
    SoundShape(a);
    SoundShape(Step(a, Appended(r)));
    RunOne(Step(a, Appended(r)), Stopped(flag, true), []);
  }

  /** The flight is on the card and in the catalog. */
  predicate Recorded(a: State, u: State, m: Metadata, r: Record, flag: byte) {
    && Sound(u) && u.Resting() && u.enabled == a.enabled && u.nextSector == a.nextSector + 2 && |u.card| == |a.card|
    && u.catalog.entries == a.catalog.entries + [Entry(a.catalog.nextId, a.nextSector, 2, 1, flag)]
    && u.flights == a.flights + [Content(m, [r])] && u.catalog.nextId == Add32(a.catalog.nextId, 1) && u.tainted == a.tainted
  }

  /** From rest, a flight of one record and enough updates. */
  lemma FlightRecorded(s: State, m: Metadata, r: Record, flag: byte, t: Tick) returns (events: seq<Event>)
    requires Waits(s) && Swift(t)
    ensures Sound(s) && Recorded(s, Run(s, events), m, r, flag)
  {
    hide Sound, Run, Work, Moved, Repeated, AllFair, Start, Append, Stop;
    FlightCloses(s, m, r, flag);
    RunFlown(s, m, r, flag);
    var q := Run(s, Flown(m, r, flag));
    NoWork(q);
    var ticks := Repeated(t, Work(q));
    AllMove(q, t, Work(q));
    Drained(q, ticks);
    events := Flown(m, r, flag) + Updates(ticks);
    RunBoth(s, Flown(m, r, flag), Updates(ticks));
  }

  // ------------------------------------------------- two flights, a misread, and a third

  const GOOD := Probe(true, true, true)
  const UNREAD := Probe(true, true, false)

  /** Start-up on a card without a catalog, and the switch that enables the log. */
  function StartUp(card: seq<Sector>): State
    requires CardOf(card)
  {
    Enable(Init(Zeroed(card, [], 0), GOOD), true)
  }

  lemma StartsUp(card: seq<Sector>)
    requires CardOf(card) && !Loadable(card[CATALOG_SECTOR], |card|)
    ensures var s := StartUp(card);
      && Sound(s) && s.Resting() && s.enabled && s.card == card && s.nextSector == DATA_OFFSET && s.catalog == EMPTY_CATALOG
      && s.flights == [] && s.tainted == 0
  {
    hide FlightOk, CountOk, CatalogOk, CacheOk, SyncOk, Part, BlocksOn, StoredOn;
    ZeroedSound(card, [], 0);
    assert Sound(Init(Zeroed(card, [], 0), GOOD)) by { ReloadSound(Zeroed(card, [], 0), GOOD); }
    EnableSound(Init(Zeroed(card, [], 0), GOOD), true);
  }

  /** Two flights are catalogued, side by side. */
  predicate TwoFlights(s: State, m1: Metadata, r1: Record, m2: Metadata, r2: Record, flag: byte) {
    && Sound(s) && s.Resting() && s.enabled && s.nextSector == DATA_OFFSET + 4 && 3072 < |s.card|
    && s.catalog.entries == [Entry(1, DATA_OFFSET, 2, 1, flag), Entry(2, DATA_OFFSET + 2, 2, 1, flag)]
    && s.flights == [Content(m1, [r1]), Content(m2, [r2])] && s.catalog.nextId == 3 && s.tainted == 0
  }

  lemma TwoAreRecorded(card: seq<Sector>, m1: Metadata, r1: Record, m2: Metadata, r2: Record, flag: byte, t: Tick)
    returns (events: seq<Event>)
    requires CardOf(card) && !Loadable(card[CATALOG_SECTOR], |card|) && Swift(t)
    ensures Sound(StartUp(card)) && TwoFlights(Run(StartUp(card), events), m1, r1, m2, r2, flag)
  {
    hide Sound, Run, StartUp, Swift, Add32;
    StartsUp(card);
    AddSmall(1, 1);
    AddSmall(2, 1);
    var s := StartUp(card);
    var first := FlightRecorded(s, m1, r1, flag, t);
    var u := Run(s, first);
    var second := FlightRecorded(u, m2, r2, flag, t);
    events := first + second;
    RunBoth(s, first, second);
  }

  /** What a restart would find at rest. */
  lemma TwoOnCard(s: State, m1: Metadata, r1: Record, m2: Metadata, r2: Record, flag: byte)
    requires TwoFlights(s, m1, r1, m2, r2, flag)
    ensures CardOf(s.card) && Loadable(s.card[CATALOG_SECTOR], |s.card|) && s.stored == s.flights && s.damaged == 0
    ensures CardEntries(s.card) == s.catalog.entries
  {
    RestartFacts(s);
    hide FlightOk, CountOk, CatalogOk, CardOk, CacheOk, SyncOk;
  }

  /** The probe that cannot read the catalog: the next flight will begin at the first data sector. */
  lemma MisreadRests(s: State)
    requires Sound(s) && s.phase == Ready && s.write == WriteIdle && Loadable(s.card[CATALOG_SECTOR], |s.card|)
    ensures var p := Enable(Reprobe(s, UNREAD), true);
      && Sound(p) && p.Resting() && p.enabled && p.nextSector == DATA_OFFSET && p.catalog == EMPTY_CATALOG && p.card == s.card
      && p.damaged == s.damaged && p.stored == s.stored && p.lost
  {
    ReprobeSound(s, UNREAD);
    EnableSound(Reprobe(s, UNREAD), true);
    hide FlightOk, CountOk, CatalogOk, CardOk, CacheOk, SyncOk;
  }

  /** One queued block goes to the card, in two updates. */
  lemma BlockWritten(q: State, t: Tick)
    requires Sound(q) && q.phase == Ready && q.write == WriteIdle && q.queue != [] && q.nextSector < |q.card| && Swift(t)
    ensures Sound(Update(q, t)) && Sound(Update(Update(q, t), t)) && var u := Update(Update(q, t), t);
      && u.phase == Ready && u.write == WriteIdle && u.queue == q.queue[1..] && u.nextSector == q.nextSector + 1
      && u.card == q.card[q.nextSector := Data(q.queue[0])] && u.lost == q.lost && u.stored == q.stored && u.kept == q.kept
      && u.damaged == Worn(q, q.nextSector) && u.flightId == q.flightId
  {
    UpdateSound(q, t);
    UpdateSound(Update(q, t), t);
    hide FlightOk, CountOk, CatalogOk, CardOk, CacheOk, SyncOk, Reach;
  }

  /** Both blocks of the third flight are on the card. */
  predicate ThirdWritten(s: State, v: State, m: Metadata, r: Record) {
    && Sound(v) && v.write == WriteIdle && v.stored == s.stored && |v.card| == |s.card| && CardOf(s.card)
    && v.card[CATALOG_SECTOR] == s.card[CATALOG_SECTOR] && v.damaged == Reach(CardEntries(s.card), DATA_OFFSET + 1)
    && BlocksOn(v.card, DATA_OFFSET, 2, 1, Content(m, [r]))
    && v.card[DATA_OFFSET + 2..] == s.card[DATA_OFFSET + 2..]
  }

  lemma ThirdIsWritten(s: State, q: State, m: Metadata, r: Record, flag: byte, t: Tick)
    requires Sound(s) && Sound(q) && Swift(t) && CardOf(s.card) && s.damaged == 0 && q.lost
    requires Closed(Enable(Reprobe(s, UNREAD), true), q, m, r, flag) && q.card == s.card && q.nextSector == DATA_OFFSET
    requires q.flightId == 1 && q.stored == s.stored && q.damaged == 0
    ensures ThirdWritten(s, Run(q, Updates([t, t, t, t])), m, r)
  {
    hide Sound, Update, Reach, Part, Closed, Reprobe;
    SoundShape(q);
    ClosedQueue(s, q, m, r, flag);
    QueuedParts(q);
    BlockWritten(q, t);
    SoundShape(Update(q, t));
    var u := Update(Update(q, t), t);
    SoundShape(u);
    BlockWritten(u, t);
    SoundShape(Update(u, t));
    ReachGrows(CardEntries(s.card), DATA_OFFSET, DATA_OFFSET + 1);
    var v := Update(Update(u, t), t);
    RunFour(q, t);
    assert BlockOn(v.card, DATA_OFFSET, 0, 1, Content(m, [r])) && BlockOn(v.card, DATA_OFFSET, 1, 1, Content(m, [r]));
  }

  lemma ClosedQueue(s: State, q: State, m: Metadata, r: Record, flag: byte)
    requires Sound(s) && Closed(Enable(Reprobe(s, UNREAD), true), q, m, r, flag)
    ensures q.phase == Ready && q.write == WriteIdle && |q.queue| == 2 && q.start == q.nextSector && q.Flight() == Content(m, [r])
  {
    SoundShape(s);
    hide Sound, Reprobe;
  }

  lemma {:induction false} ReachGrows(entries: seq<Entry>, x: nat, y: nat)
    requires x <= y
    ensures Reach(entries, x) <= Reach(entries, y)
  {
    if entries != [] { ReachGrows(entries[..|entries| - 1], x, y); }
  }

  lemma QueuedParts(q: State)
    requires Sound(q) && q.Live() && |q.queue| == 2 && q.nextSector == q.start
    ensures Part(q.queue[0], q.flightId, 0, q.Flight()) && Part(q.queue[1], q.flightId, 1, q.Flight())
  {
    hide Part, BlocksOn, StoredOn, CatalogOk, CardOk, CacheOk, SyncOk;
  }

  lemma RunFour(q: State, t: Tick)
    requires Sound(q)
    ensures Sound(Update(q, t)) && Sound(Update(Update(q, t), t)) && Sound(Update(Update(Update(q, t), t), t))
    ensures Run(q, Updates([t, t, t, t])) == Update(Update(Update(Update(q, t), t), t), t)
  {
    hide Sound, Update;
    var e := Updated(t);
    assert Updates([t, t, t, t]) == [e, e, e, e];
    SoundShape(q);
    RunOne(q, e, [e, e, e]);
    SoundShape(Update(q, t));
    RunOne(Update(q, t), e, [e, e]);
    SoundShape(Update(Update(q, t), t));
    RunOne(Update(Update(q, t), t), e, [e]);
    SoundShape(Update(Update(Update(q, t), t), t));
    RunOne(Update(Update(Update(q, t), t), t), e, []);
  }

  /** The calls of the third flight, up to a power cut before its catalog is written. */
  function Third(m: Metadata, r: Record, flag: byte, t: Tick): seq<Event> {
    [Probed(UNREAD), Enabled(true)] + (Flown(m, r, flag) + Updates([t, t, t, t]))
  }

  lemma ThirdOverwrites(s: State, m1: Metadata, r1: Record, m2: Metadata, r2: Record, m: Metadata, r: Record, flag: byte, t: Tick)
    requires TwoFlights(s, m1, r1, m2, r2, flag) && Swift(t)
    ensures ThirdWritten(s, Run(s, Third(m, r, flag, t)), m, r)
  {
    hide Sound, Run, Start, Append, Stop, Reprobe, ThirdWritten, Reach, Part, BlocksOn;
    TwoOnCard(s, m1, r1, m2, r2, flag);
    MisreadRests(s);
    SoundShape(s);
    var p := Enable(Reprobe(s, UNREAD), true);
    ReprobeSound(s, UNREAD);
    SoundShape(Reprobe(s, UNREAD));
    RunOne(s, Probed(UNREAD), [Enabled(true)]);
    RunOne(Reprobe(s, UNREAD), Enabled(true), []);
    FlightCloses(p, m, r, flag);
    RunFlown(p, m, r, flag);
    var q := Run(p, Flown(m, r, flag));
    ThirdIsWritten(s, q, m, r, flag, t);
    RunBoth(p, Flown(m, r, flag), Updates([t, t, t, t]));
    assert [Probed(UNREAD)] + [Enabled(true)] == [Probed(UNREAD), Enabled(true)];
    RunBoth(s, [Probed(UNREAD), Enabled(true)], Flown(m, r, flag) + Updates([t, t, t, t]));
  }

  /** The restart lists both flights again, and knows the second one to be whole. */
  lemma RestartLists(s: State, v: State, m1: Metadata, r1: Record, m2: Metadata, r2: Record, m: Metadata, r: Record, flag: byte)
    requires TwoFlights(s, m1, r1, m2, r2, flag) && ThirdWritten(s, v, m, r)
    ensures var u := Step(v, PowerCycled(Old, GOOD));
      && Sound(u) && u.Resting() && u.catalog.entries == s.catalog.entries && u.flights == s.flights && u.tainted == 1
      && u.card == v.card
  {
    TwoOnCard(s, m1, r1, m2, r2, flag);
    CrashKeepsFlights(v, Old);
    WornOne(s.catalog.entries);
    hide Sound, Step, Reach, BlocksOn;
  }

  lemma WornOne(entries: seq<Entry>)
    requires |entries| == 2 && entries[0].start == DATA_OFFSET && entries[1].start == DATA_OFFSET + 2
    ensures Reach(entries, DATA_OFFSET + 1) == 1
  {
    assert entries[..1][0].start == DATA_OFFSET;
  }

  /** From start-up on a card without a catalog: two flights are recorded, a probe cannot read the catalog,
      and a third flight of one record is written out before power goes.  The restart lists the first two;
      the record it returns for the first is that of the third, and the second is whole. */
  lemma MisreadLosesFlight(card: seq<Sector>, m1: Metadata, r1: Record, m2: Metadata, r2: Record, m3: Metadata, r3: Record,
                           flag: byte, t: Tick) returns (events: seq<Event>)
    requires CardOf(card) && !Loadable(card[CATALOG_SECTOR], |card|) && Swift(t)
    ensures Sound(StartUp(card))
    ensures var u := Run(StartUp(card), events);
      && Sound(u) && u.Resting() && u.flights == [Content(m1, [r1]), Content(m2, [r2])]
      && u.catalog.entries == [Entry(1, DATA_OFFSET, 2, 1, flag), Entry(2, DATA_OFFSET + 2, 2, 1, flag)]
      && GetRecord(u, 1, 0, true, true).record == Some(r3)
      && GetRecord(u, 2, 0, true, true).record == Some(r2)
  {
    hide Sound, Run, Third, Step, StartUp, ThirdWritten, GetRecord;
    StartsUp(card);
    var both := TwoAreRecorded(card, m1, r1, m2, r2, flag, t);
    var s := Run(StartUp(card), both);
    var third := Third(m3, r3, flag, t);
    ThirdOverwrites(s, m1, r1, m2, r2, m3, r3, flag, t);
    var v := Run(s, third);
    RunSound(s, third);
    SoundShape(v);
    RestartLists(s, v, m1, r1, m2, r2, m3, r3, flag);
    RunBoth(StartUp(card), both, third);
    RunOne(v, PowerCycled(Old, GOOD), []);
    RunBoth(StartUp(card), both + third, [PowerCycled(Old, GOOD)]);
    events := both + third + [PowerCycled(Old, GOOD)];
    FirstReads(s, v, m3, r3, flag);
    SecondReads(Step(v, PowerCycled(Old, GOOD)), m1, r1, m2, r2, flag);
  }

  /** What the reader is given for the first flight. */
  lemma FirstReads(s: State, v: State, m: Metadata, r: Record, flag: byte)
    requires ThirdWritten(s, v, m, r)
    ensures Sound(Step(v, PowerCycled(Old, GOOD))) && var u := Step(v, PowerCycled(Old, GOOD));
      u.Resting() && u.catalog.entries != [] && u.catalog.entries[0] == Entry(1, DATA_OFFSET, 2, 1, flag) && u.card == v.card ==>
        GetRecord(u, 1, 0, true, true).record == Some(r)
  {
    assert BlockOn(v.card, DATA_OFFSET, 0, 1, Content(m, [r])) && BlockOn(v.card, DATA_OFFSET, 1, 1, Content(m, [r]));
    CacheEmpty(v);
  }

  lemma CacheEmpty(v: State)
    requires Sound(v)
    ensures Sound(Step(v, PowerCycled(Old, GOOD))) && !Step(v, PowerCycled(Old, GOOD)).cacheValid
  {
    StepSound(v, PowerCycled(Old, GOOD));
    hide Sound;
  }

  lemma SecondReads(u: State, m1: Metadata, r1: Record, m2: Metadata, r2: Record, flag: byte)
    requires Sound(u) && u.Resting() && u.tainted == 1 && u.flights == [Content(m1, [r1]), Content(m2, [r2])]
    requires u.catalog.entries == [Entry(1, DATA_OFFSET, 2, 1, flag), Entry(2, DATA_OFFSET + 2, 2, 1, flag)]
    ensures GetRecord(u, 2, 0, true, true).record == Some(r2)
  {
    assert Find(u.catalog.entries, 2) == 1;
    GetRecordReturns(u, 2, 0, true, true);
    hide Sound, GetRecord;
  }
}
