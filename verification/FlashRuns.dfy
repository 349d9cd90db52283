/**
 What the two-bank flight log guarantees over whole runs: crash safety with any
 number of power cuts, NOR discipline, the record stream, reading back at rest and
 after a failure, progress of a stop to a readable flight, and the account of
 accepted and dropped records.
 */
module FlashRuns {
  import opened Bytes
  import opened NorFlash
  import opened Records
  import opened FlashModel
  import opened FlashSafety

  // ------------------------------------------------- crash safety over runs

  /** No event clears the log by hand, and none misuses the driver. */
  predicate Proper(s: State, events: seq<Event>)
    requires Shape(s)
    decreases |events|
  {
    events != [] ==>
      events[0] != Cleared && !Misuse(s, events[0]) &&
      (StepShape(s, events[0]); Proper(Step(s, events[0]), events[1..]))
  }

  function LastCommit(s: State, first: Option<Flight>): Option<Flight> {
    if s.history == [] then first else Some(s.history[|s.history| - 1])
  }

  /** The starts of a run: each takes at most one flight id. */
  function Starts(events: seq<Event>): nat {
    if events == [] then 0 else Begins(events[0]) + Starts(events[1..])
  }

  lemma {:induction false} RunTraced(s: State, events: seq<Event>, first: Option<Flight>, bound: nat)
    requires Shape(s) && Sound(s) && !s.clearing && Traced(s, first, bound)
    requires Proper(s, events) && 0 < bound && bound + Starts(events) < WORD
    ensures var u := Run(s, events);
      && Shape(u) && Sound(u) && !u.clearing && Traced(u, first, bound + Starts(events))
    decreases |events|
  {
    hide Shape, Sound, Traced, Step, Misuse;
    if events != [] {
      StepShape(s, events[0]);
      StepSound(s, events[0]);
      StepTraced(s, events[0], first, bound);
      RunTraced(Step(s, events[0]), events[1..], first, bound + Begins(events[0]));
    }
  }

  /** A chip whose blank headers mean blank banks, as the factory and every run leave it. */
  lemma PoweredUp(s: State, p: Probe, bound: nat)
    requires Resting(s) && BothClean(s.image, s.bank) && s.history == []
    requires Found(s.image, s.bank).Some? ==> Found(s.image, s.bank).value.id < bound
    requires 0 < bound < WORD
    ensures var u := Init(s, p);
      Shape(u) && Sound(u) && !u.clearing && Traced(u, Found(s.image, s.bank), bound)
  {
    InitSound(s, p);
    InitDriver(s, p);
    InitTraced(s, p, Found(s.image, s.bank), bound);
    hide Shape, Sound, Traced, Init, Found;
  }

  /** The first id that is free at power-up. */
  function FreeId(s: State): nat
    requires Resting(s)
  {
    var f := First(s);
    if f.Some? then f.value.id + 1 else 1
  }

  /** From power-up, through any run with any number of restarts and power cuts, however long, as
      long as the ids that its starts take do not wrap around: a power
      cut at any byte of any operation leaves a chip on which the next restart finds the
      most recently committed flight, complete. */
  lemma CrashSafety(s: State, p: Probe, events: seq<Event>, k: nat)
    requires Resting(s) && BothClean(s.image, s.bank) && s.history == []
    requires FreeId(s) + Starts(events) < WORD
    requires Shape(Init(s, p)) && Proper(Init(s, p), events)
    ensures var u := Run(Init(s, p), events);
      && Shape(u) && Fits(u.image, u.flying)
      && u.committed == LastCommit(u, First(s))
      && Found(Cut(u.image, u.flying, k), u.bank) ==
         if u.op == FinalOp && 6 <= k then Some(u.NewFlight()) else LastCommit(u, First(s))
  {
    hide Shape, Sound, Run, Init, Found, Traced, Cut, Proper, FreeId, Starts, BothClean, LastCommit, Resting;
    RunFromPowerUp(s, p, events);
    TracedCut(Run(Init(s, p), events), k, First(s), FreeId(s) + Starts(events));
  }

  /** The flight that is on the chip at power-up. */
  function First(s: State): Option<Flight>
    requires Resting(s)
  {
    Found(s.image, s.bank)
  }

  lemma RunFromPowerUp(s: State, p: Probe, events: seq<Event>)
    requires Resting(s) && BothClean(s.image, s.bank) && s.history == []
    requires FreeId(s) + Starts(events) < WORD
    requires Shape(Init(s, p)) && Proper(Init(s, p), events)
    ensures var u := Run(Init(s, p), events);
      Shape(u) && Sound(u) && !u.clearing && Traced(u, First(s), FreeId(s) + Starts(events))
  {
    hide Shape, Sound, Run, Init, Found, Traced, Proper, Starts;
    PoweredUp(s, p, FreeId(s));
    RunTraced(Init(s, p), events, First(s), FreeId(s));
  }

  lemma TracedCut(u: State, k: nat, first: Option<Flight>, bound: nat)
    requires Shape(u) && Sound(u) && !u.clearing && Traced(u, first, bound)
    ensures Fits(u.image, u.flying) && u.committed == LastCommit(u, first)
    ensures Found(Cut(u.image, u.flying, k), u.bank) ==
            if u.op == FinalOp && 6 <= k then Some(u.NewFlight()) else LastCommit(u, first)
  {
    hide Shape, Sound, Cut, Found, Traced, NewOutranks;
    ShapeFacts(u);
    SoundFacts(u);
    TracedFacts(u, first, bound);
    CutFound(u, k);
    if u.op == FinalOp { CommitOutranks(u, first, bound); }
  }

  lemma TracedFacts(u: State, first: Option<Flight>, bound: nat)
    requires Traced(u, first, bound)
    ensures u.committed == LastCommit(u, first) && !u.shadowed
  {}

  // ------------------------------------------------- NOR discipline and the record stream

  /** Every program stays in one page of a bank that is not retained, and touches only
      blank cells, so the chip stores exactly the intended bytes. */
  lemma NorDiscipline(s: State, k: nat)
    requires Shape(s) && Sound(s) && s.flying.Program?
    ensures var c := s.flying;
      && c.addr + |c.data| <= |s.image|
      && c.addr / 256 == (c.addr + |c.data| - 1) / 256
      && Base(s.bank, s.writeBank) <= c.addr && c.addr + |c.data| <= Base(s.bank, s.writeBank) + s.bank
      && s.writeBank != s.retained
      && BlankFrom(s.image, c.addr, c.addr + |c.data|)
      && Stored(s.image, Cut(s.image, c, k), c.addr, Prefix(c.data, k))
  {
    hide Shape, Sound, Cut, Stored, BlankFrom;
    ProgramPlace(s);
    ProgramBlank(s);
    BlankProgram(s.image, s.flying.addr, s.flying.data, k);
  }

  lemma ProgramPlace(s: State)
    requires Shape(s) && s.flying.Program?
    ensures var c := s.flying;
      && c.addr + |c.data| <= |s.image|
      && c.addr / 256 == (c.addr + |c.data| - 1) / 256
      && Base(s.bank, s.writeBank) <= c.addr && c.addr + |c.data| <= Base(s.bank, s.writeBank) + s.bank
  {
    hide Sound;
    assert Base(s.bank, s.writeBank) % 256 == 0;
  }

  /** Nothing is programmed over, and nothing into the bank that is retained. */
  lemma ProgramBlank(s: State)
    requires Shape(s) && Sound(s) && s.flying.Program?
    ensures s.flying.addr + |s.flying.data| <= |s.image| && BlankFrom(s.image, s.flying.addr, s.flying.addr + |s.flying.data|)
    ensures s.writeBank != s.retained
  {
    hide Content, Clean, Found;
    ProgramPlace(s);
    if s.op == FinalOp {
      PartialPage(s.image, s.bank, s.writeBank, s.flightId, s.metadata, Stream(s.accepted), s.Pos());
    }
  }

  /** While a flight is recorded, the programmed part of its bank followed by the queued
      bytes is the stream of accepted records. */
  lemma StreamOnChip(s: State)
    requires Shape(s) && Sound(s) && s.recording && s.Live()
    ensures var a := Base(s.bank, s.writeBank) + HEADER_BYTES;
      && a + s.Pos() <= |s.image| && s.offset <= |Stream(s.queue)|
      && s.image[a..a + s.Pos()] + Stream(s.queue)[s.offset..] == Stream(s.accepted)
  {
    hide Shape, Sound, Stream, State.Pos;
    PrefixOnChip(s);
    QueueIsRest(s);
    var stream := Stream(s.accepted);
    assert stream == stream[..s.Pos()] + stream[s.Pos()..];
  }

  /** The queued bytes are the rest of the stream. */
  lemma QueueIsRest(s: State)
    requires Shape(s) && Sound(s) && s.recording
    ensures s.offset <= |Stream(s.queue)| && s.Pos() <= |Stream(s.accepted)|
    ensures Stream(s.queue)[s.offset..] == Stream(s.accepted)[s.Pos()..]
  {
    hide Shape, Sound, Stream;
    LedgerFacts(s);
    RestOf(s.accepted, s.recordCount, s.offset, s.queue);
  }

  lemma RestOf(records: seq<Record>, n: nat, offset: nat, queue: seq<Record>)
    requires n <= |records| && queue == records[n..] && offset <= 60 * |queue|
    ensures offset <= |Stream(queue)| && 60 * n + offset <= |Stream(records)|
    ensures Stream(queue)[offset..] == Stream(records)[60 * n + offset..]
  {
    hide Stream;
    QueuePiece(records, n, offset, 60 * |queue|);
    ToTheEnd(Stream(queue), offset, 60 * |queue|);
    ToTheEnd(Stream(records), 60 * n + offset, 60 * |records|);
  }

  lemma ToTheEnd(data: seq<byte>, from: nat, n: nat)
    requires from <= n == |data|
    ensures data[from..n] == data[from..]
  {}

  lemma LedgerFacts(s: State)
    requires Shape(s) && Sound(s) && s.recording
    ensures s.recordCount + |s.queue| == |s.accepted| && s.queue == s.accepted[s.recordCount..] && s.offset <= 60 * |s.queue|
  {
    hide CommandShape, OnChip, BothClean, ClearSound, RetainedSound, StoppedSound;
  }

  lemma PrefixOnChip(s: State)
    requires Shape(s) && Sound(s) && s.recording && s.Live()
    ensures var a := Base(s.bank, s.writeBank) + HEADER_BYTES;
      && a + s.Pos() <= |s.image| && s.Pos() <= |Stream(s.accepted)|
      && s.image[a..a + s.Pos()] == Stream(s.accepted)[..s.Pos()]
  {
    hide Content, Clean, Found, BankBlank, HeaderData, Stream;
    if s.op != HeaderOp {
      AtSlice(s.image, Base(s.bank, s.writeBank) + HEADER_BYTES, Stream(s.accepted)[..s.Pos()]);
    }
  }

  /** Reading back: record `i` of the newest committed flight, and nothing else. */
  lemma GetRecordReturns(s: State, id: nat, i: nat)
    requires Shape(s) && Sound(s) && s.Live() && !s.clearing
    ensures GetRecord(s, id, i, true) ==
      if !s.Busy() && s.committed.Some? && s.committed.value.id == id && i < |s.committed.value.records|
      then Some(s.committed.value.records[i]) else None
  {
    hide Clean, Found, BankBlank, Partial, HeaderValid, CommandShape, RecordAt, IdleSound;
  }

  // ------------------------------------------------- reading back after a failure

  function ReadFrom(f: Option<Flight>, id: nat, i: nat): Option<Record> {
    if f.Some? && f.value.id == id && i < |f.value.records| then Some(f.value.records[i]) else None
  }

  /** The retained bank holds `f`; without a retained bank there is none. */
  predicate Shelved(s: State, f: Option<Flight>)
    requires Geometry(s.image, s.bank)
  {
    if s.retained == NONE then f == None else s.retained <= 1 && f.Some? && Content(s.image, s.bank, s.retained) == f
  }

  /** After a failure: busy for good, or `f` can be read. */
  predicate Halted(s: State, f: Option<Flight>) {
    Shape(s) && s.available && s.phase == Error && s.op == NoOp && (s.Busy() || Shelved(s, f))
  }

  lemma LiveShelved(s: State)
    requires Shape(s) && Sound(s) && s.Live() && !s.clearing
    ensures Shelved(s, s.committed)
  {
    hide CommandShape, Content, Clean;
  }

  /** A program that fails leaves the retained bank alone. */
  lemma FailHalts(s: State, k: nat)
    requires Shape(s) && Sound(s) && s.op != NoOp && !s.clearing
    ensures Halted(Fail(s, k), s.committed)
  {
    hide Content, Clean, Cut, Found, BankBlank, Partial, HeaderData, FinalData;
    FailShape(s, k);
    CutOther(s, k);
  }

  lemma BeginStops(s: State, t: Tick)
    requires Resting(s) && s.Live() && !Begin(s, t).Live()
    ensures var u := Begin(s, t);
      !(t.wren && t.sent) && u.phase == Error && u.op == NoOp && u.available && u.retained == s.retained && u.bank == s.bank
  {
    hide Shape, Cut, HeaderData;
  }

  lemma SpareWritten(s: State)
    requires Resting(s) && s.Live() && Sound(s) && !s.recording && !s.erasing && !s.clearing
    ensures s.writeBank != s.retained && s.writeBank <= 1 && Geometry(s.image, s.bank) && s.nextId < WORD
  {
    hide CommandShape, BothClean, RetainedSound, BankBlank, BlankFrom;
  }

  lemma BeginHalts(s: State, t: Tick)
    requires Resting(s) && s.Live() && Sound(s) && !s.recording && !s.erasing && !s.clearing
    requires !Begin(s, t).Live()
    ensures Halted(Begin(s, t), s.committed)
  {
    hide Shape, Sound, Begin, Content, Cut, HeaderData, State.Busy;
    LiveShelved(s);
    SpareWritten(s);
    BeginShape(s, t);
    assert Geometry(Begin(s, t).image, s.bank) by { BeginStops(s, t); ShapeFacts(Begin(s, t)); }
    BeginStops(s, t);
    BeginFails(s, t);
    ShapeFacts(Begin(s, t));
    var c := Program(Base(s.bank, s.writeBank), HeaderData(s.nextId, s.metadata));
    CutInside(s.image, s.bank, s.writeBank, c, if t.wren then t.torn else 0);
    SameBankKeeps(s.image, Begin(s, t).image, s.bank, 1 - s.writeBank);
  }

  predicate Stuck(u: State) { u.Busy() && u.phase == Error && u.available && u.op == NoOp }

  lemma LaunchStops(s: State, op: Operation, c: Command, t: Tick)
    requires Fits(s.image, c) && s.Live() && s.op == NoOp && s.Busy() && !Launch(s, op, c, t).Live()
    ensures Stuck(Launch(s, op, c, t))
  {
    hide Cut;
  }

  lemma FinalStops(s: State, t: Tick)
    requires s.recordCount < WORD && Fits(s.image, FinalCommand(s)) && s.Live() && !LaunchFinal(s, t).Live()
    ensures Stuck(LaunchFinal(s, t))
  {
    hide Cut, FinalCommand;
  }

  /** A failed start of the next operation leaves something to do for good. */
  lemma StartNextHalts(s: State, t: Tick)
    requires Resting(s) && s.Live() && !StartNext(s, t).Live()
    ensures Stuck(StartNext(s, t))
  {
    if s.erasing { LaunchStops(s, EraseOp, Erase(s.eraseAddress), t); }
    else if |s.queue| > 0 { LaunchStops(s, RecordOp, RecordCommand(s), t); }
    else if s.finalise && s.retain { FinalStops(s, t); }
    hide Launch, LaunchFinal, RecordCommand, Stuck;
  }

  lemma EraseDoneHalts(s: State, t: Tick)
    requires Shape(s) && Sound(s) && s.op == EraseOp && !s.clearing && !EraseDone(s, t).Live()
    ensures Halted(EraseDone(s, t), s.committed)
  {
    assert !s.recording;
    hide Shape, Sound, Begin, EraseNext, Halted;
    EraseLives(s);
    EraseFinishedShape(s);
    EraseFinishedSound(s);
    BeginHalts(EraseFinished(s), t);
  }

  lemma EraseLives(s: State)
    requires Shape(s) && s.op == EraseOp
    ensures EraseFinished(s).Live() && EraseNext(s).Live()
  {}

  lemma CompleteLives(s: State, t: Tick)
    requires Shape(s) && s.op != NoOp && s.op != EraseOp
    ensures Complete(s, t).Live()
  {
    hide Completed, HeaderBlank, FinalData, HeaderData;
  }

  lemma ProceedHalts(s: State, t: Tick)
    requires Shape(s) && Sound(s) && s.op != NoOp && !s.clearing && !Proceed(s, t).Live()
    ensures Shape(Proceed(s, t)) && Halted(Proceed(s, t), s.committed)
  {
    CompleteShape(s, t);
    CompleteLive(s, t);
    ProceedShape(s, t);
    var c := Complete(s, t);
    hide Shape, Sound, Complete, StartNext, Shelved, EraseDone;
    if c.Live() {
      StartNextHalts(c, t);
    } else {
      if s.op != EraseOp { CompleteLives(s, t); }
      assert c == EraseDone(s, t) by { EraseCompletes(s, t); }
      EraseDoneHalts(s, t);
      StartNextRests(c, t);
    }
  }

  lemma EraseCompletes(s: State, t: Tick)
    requires Shape(s) && s.op == EraseOp
    ensures Complete(s, t) == EraseDone(s, t)
  {}

  lemma UpdateHalts(s: State, t: Tick)
    requires Shape(s) && Sound(s) && s.Live() && !s.clearing && !Update(s, t).Live()
    ensures Halted(Update(s, t), s.committed)
  {
    UpdateShape(s, t);
    hide Shape, Sound, Fail, Proceed, StartNext, Shelved;
    if s.op == NoOp {
      StartNextHalts(s, t);
    } else if t.busy {
      FailHalts(s, t.torn);
    } else {
      ProceedHalts(s, t);
    }
  }

  lemma StartHalts(s: State, metadata: Option<Metadata>, t: Tick)
    requires Shape(s) && Sound(s) && s.Live() && !s.clearing && !Start(s, metadata, t).Live()
    ensures Halted(Start(s, metadata, t), s.committed)
  {
    StartBegins(s, metadata, t);
    var u := s.(metadata := metadata.value, startPending := false);
    hide Shape, Sound, Begin, Start;
    BeginHalts(u, t);
  }

  /** Only a start at rest can fail. */
  lemma StartBegins(s: State, metadata: Option<Metadata>, t: Tick)
    requires Shape(s) && Sound(s) && s.Live() && !Start(s, metadata, t).Live()
    ensures metadata.Some?
    ensures var u := s.(metadata := metadata.value, startPending := false);
      Resting(u) && Sound(u) && !u.recording && !u.erasing && Start(s, metadata, t) == Begin(u, t)
  {
    hide Content, Clean, Begin, BankBlank, BlankFrom, Partial;
  }

  predicate SameShelf(s: State, u: State) {
    && u.image == s.image && u.bank == s.bank && u.retained == s.retained && u.phase == s.phase
    && u.available == s.available && u.op == s.op
    && u.erasing == s.erasing && (s.finalise ==> u.finalise) && |s.queue| <= |u.queue|
  }

  lemma HaltedIdles(s: State, e: Event)
    requires Shape(s) && s.available && s.phase == Error && s.op == NoOp && !e.Cleared? && !e.PowerCycled?
    ensures SameShelf(s, Step(s, e))
  {
    hide Shape, Init, PowerOff, Clear, StartNext, Proceed, Fail, Begin;
    match e {
      case Appended(r) => IdleAppend(s, r);
      case Stopped(flag, keep) => IdleStop(s, flag, keep);
      case _ =>
    }
  }

  lemma IdleAppend(s: State, r: Record)
    requires Shape(s)
    ensures SameShelf(s, Append(s, r))
  {
    ShapeFacts(s);
    hide Shape, HasRoom, SameShelf, Enqueue, Add32;
    SameQueued(s, r);
    SameDropped(s);
  }

  lemma SameQueued(s: State, r: Record)
    ensures SameShelf(s, Enqueue(s, r))
  {}

  lemma SameDropped(s: State)
    ensures SameShelf(s, s) && SameShelf(s, s.(dropped := Add32(s.dropped, 1)))
  {
    hide Add32;
  }

  lemma IdleStop(s: State, flag: byte, keep: bool)
    ensures SameShelf(s, Stop(s, flag, keep))
  {}

  /** Nothing but a clear or a restart gets a driver out of the error phase. */
  lemma HaltedStays(s: State, e: Event, f: Option<Flight>)
    requires Halted(s, f) && !e.Cleared? && !e.PowerCycled?
    ensures Halted(Step(s, e), f)
  {
    StepShape(s, e);
    HaltedIdles(s, e);
    ShapeFacts(s);
    ShapeFacts(Step(s, e));
    hide Shape, Content, Step;
  }

  lemma {:induction false} HaltedRun(s: State, events: seq<Event>, f: Option<Flight>)
    requires Halted(s, f) && forall e :: e in events ==> !e.Cleared? && !e.PowerCycled?
    ensures Halted(Run(s, events), f)
    decreases |events|
  {
    assert Shape(s);
    hide Halted, Step, Shape;
    if events != [] {
      HaltedStays(s, events[0], f);
      HaltedRun(Step(s, events[0]), events[1..], f);
    }
  }

  lemma ShelvedRead(s: State, f: Option<Flight>, id: nat, i: nat)
    requires Geometry(s.image, s.bank) && Shelved(s, f)
    ensures GetRecord(s, id, i, true) == if s.Busy() then None else ReadFrom(f, id, i)
  {
    hide HeaderValid, RecordAt;
  }

  /** A driver that has failed still reads the flight that was retained then, unless it stays busy. */
  lemma FailedStillReads(s: State, e: Event, events: seq<Event>, id: nat, i: nat)
    requires Shape(s) && Sound(s) && s.Live() && !s.clearing
    requires (e.Updated? || e.Started?) && !Step(s, e).Live()
    requires forall x :: x in events ==> !x.Cleared? && !x.PowerCycled?
    ensures Shape(Step(s, e)) && var u := Run(Step(s, e), events);
      && Shape(u) && u.phase == Error
      && GetRecord(u, id, i, true) == if u.Busy() then None else ReadFrom(s.committed, id, i)
  {
    hide Sound, Update, Start, Run, State.Busy, GetRecord, ReadFrom;
    StepShape(s, e);
    if e.Updated? { UpdateHalts(s, e.t); } else { StartHalts(s, e.metadata, e.t); }
    HaltedRun(Step(s, e), events, s.committed);
    var u := Run(Step(s, e), events);
    ShapeFacts(u);
    if u.Busy() { BusyReadsNothing(u, id, i); } else { ShelvedRead(u, s.committed, id, i); }
  }

  lemma BusyReadsNothing(s: State, id: nat, i: nat)
    requires Geometry(s.image, s.bank) && s.Busy()
    ensures GetRecord(s, id, i, true) == None
  {}

  // ------------------------------------------------- a stop drains

  function EraseWork(s: State): int {
    if !s.erasing then 0
    else
      2 * ((s.eraseAddress - Base(s.bank, s.eraseBank)) / 65536 + 1) - (if s.op == EraseOp then 1 else 0) +
      (if s.clearSecond && s.eraseBank == 0 then 2 * (s.bank / 65536) else 0)
  }

  /** An upper bound on the updates that find the chip ready until the driver rests. */
  function Work(s: State): int {
    var erase := 2 * (s.bank / 65536);
    if !s.recording then EraseWork(s) + if s.finalise then erase + 2 else 0
    else if s.op == FinalOp then erase + 2 + if s.finalise then erase + 2 else 0
    else 2 * erase + 6 + 2 * s.QueuedBytes() + if s.op == NoOp || s.op == HeaderOp then 1 else 0
  }

  /** A stop was requested, and no start waits. */
  predicate Draining(s: State) {
    s.Live() && !s.startPending && (s.recording ==> s.finalise || s.op == FinalOp)
  }

  /** The flight that is retained once the driver rests: the one of a retaining stop, or the
      one that is retained already. */
  function Due(s: State): Option<Flight> {
    if s.recording && s.op == FinalOp then Some(s.NewFlight())
    else if s.recording && s.retain then Some(Flight(s.flightId, s.stopFlag, s.metadata, s.accepted))
    else s.committed
  }

  predicate Drains(s: State, u: State) {
    Draining(u) && Due(u) == Due(s) && Work(u) < Work(s) && u.enabled == s.enabled
  }

  lemma StartNextDrains(s: State, t: Tick)
    requires Resting(s) && Sound(s) && Draining(s) && s.Busy() && t.Works()
    ensures Drains(s, StartNext(s, t))
  {
    hide Content, Clean, Found, BankBlank, BlankFrom, Partial, Stream, HeaderData, FinalData, Cut;
    if s.erasing { assert Drains(s, StartErase(s, t)); }
    else if |s.queue| > 0 { assert Drains(s, StartRecord(s, t)); }
    else if s.retain { assert Drains(s, LaunchFinal(s, t)); }
    else { assert Drains(s, Discard(s)); }
  }

  lemma RecordDoneDrains(s: State)
    requires Shape(s) && Sound(s) && s.op == RecordOp && Draining(s)
    ensures Drains(s, RecordDone(s))
  {
    hide Content, Clean, Found, BankBlank, Partial, Stream, Completed;
  }

  lemma FinalDoneDrains(s: State, t: Tick)
    requires Shape(s) && Sound(s) && s.op == FinalOp && Draining(s)
    ensures Drains(s, FinalDone(s, t))
  {
    hide Content, Clean, Found, BankBlank, HeaderBlank, Partial, Stream, Completed, FinalData;
  }

  lemma EraseDoneDrains(s: State, t: Tick)
    requires Shape(s) && Sound(s) && s.op == EraseOp && Draining(s)
    ensures Drains(s, EraseDone(s, t))
  {
    hide Content, Clean, Found, BankBlank, BlankFrom, Partial, Stream, Erased, Begin;
    if MoreBlocks(s) { assert Drains(s, EraseNext(s)); } else { assert Drains(s, EraseFinished(s)); }
  }

  lemma HeaderDoneDrains(s: State)
    requires Shape(s) && Sound(s) && s.op == HeaderOp && Draining(s)
    ensures var c := HeaderDone(s); Draining(c) && Due(c) == Due(s) && Work(c) == Work(s) && c.Busy() && c.op == NoOp && c.enabled == s.enabled
  {
    hide Content, Clean, Found, BankBlank, Partial, Stream, Completed;
  }

  /** One update that finds the operation complete makes progress. */
  lemma ProceedDrains(s: State, t: Tick)
    requires Shape(s) && Sound(s) && s.op != NoOp && Draining(s) && t.Works()
    ensures Drains(s, Proceed(s, t))
  {
    hide Shape, Sound, HeaderDone, RecordDone, FinalDone, EraseDone, StartNext, Draining, Due, Work;
    match s.op {
      case HeaderOp => HeaderDoneDrains(s);
      case RecordOp => RecordDoneDrains(s);
      case FinalOp => FinalDoneDrains(s, t);
      case EraseOp => EraseDoneDrains(s, t);
    }
    CompleteShape(s, t);
    CompleteSound(s, t);
    var c := Complete(s, t);
    if c.op == NoOp {
      if c.Busy() { StartNextDrains(c, t); } else { StartNextRests(c, t); }
    }
  }

  lemma StartNextRests(s: State, t: Tick)
    requires Resting(s) && !s.Busy()
    ensures StartNext(s, t) == s
  {}

  /** An update waits while the chip is at work, rests when there is nothing to do, and otherwise makes progress. */
  lemma UpdateDrains(s: State, t: Tick)
    requires Shape(s) && Sound(s) && Draining(s) && t.Works()
    ensures if !s.Busy() || (s.op != NoOp && t.busy) then Update(s, t) == s else Drains(s, Update(s, t))
  {
    hide Shape, Sound, Proceed, StartNext, Work, Due;
    if s.op == NoOp {
      if s.Busy() { StartNextDrains(s, t); } else { StartNextRests(s, t); }
    } else if !t.busy {
      ProceedDrains(s, t);
    }
  }

  lemma WorkLeft(s: State)
    requires Shape(s) && Sound(s) && Draining(s)
    ensures s.Busy() ==> Work(s) > 0
    ensures !s.Busy() ==> !s.recording && s.committed == Due(s) && Work(s) == 0
  {
    hide Content, Clean, Found, BankBlank, BlankFrom, Partial, Stream;
  }

  function Ticks(ticks: seq<Tick>): (events: seq<Event>)
    ensures |events| == |ticks|
  {
    seq(|ticks|, i requires 0 <= i < |ticks| => Updated(ticks[i]))
  }

  predicate AllWork(ticks: seq<Tick>) { forall t :: t in ticks ==> t.Works() }

  /** How many of the updates find the chip ready. */
  function Answered(ticks: seq<Tick>): nat {
    if ticks == [] then 0 else (if ticks[0].busy then 0 else 1) + Answered(ticks[1..])
  }

  /** Once a stop is requested, the driver comes to rest as soon as as many updates as Work() says
      have found the chip ready, whatever it was doing, and however often it is found busy. */
  lemma {:induction false} Drained(s: State, ticks: seq<Tick>)
    requires Shape(s) && Sound(s) && Draining(s) && AllWork(ticks) && Answered(ticks) >= Work(s)
    ensures var u := Run(s, Ticks(ticks));
      && Shape(u) && Sound(u) && u.Live() && !u.Busy() && !u.recording && u.committed == Due(s)
      && !u.startPending && u.enabled == s.enabled
    decreases |ticks|
  {
    hide Shape, Sound, Update, Work, Due, State.Busy;
    WorkLeft(s);
    if ticks != [] {
      assert ticks[0].Works();
      UpdateShape(s, ticks[0]);
      UpdateSound(s, ticks[0]);
      UpdateDrains(s, ticks[0]);
      assert Ticks(ticks)[1..] == Ticks(ticks[1..]);
      Drained(Update(s, ticks[0]), ticks[1..]);
    }
  }

  /** What a stop retains: this flight if it has records and is to be kept, or is being committed
      already, and the flight retained before in every other case. */
  function Retained(s: State, flag: byte, keep: bool): Option<Flight> {
    if s.op == FinalOp then Some(s.NewFlight())
    else if keep && s.accepted != [] then Some(Flight(s.flightId, flag, s.metadata, s.accepted))
    else s.committed
  }

  /** After a stop has drained, get_record(id, i) returns the i-th accepted record of the flight it
      retains, for every id and i, and nothing else; a stop that does not retain leaves the flight
      retained before readable. */
  lemma StoppedFlightIsReadable(s: State, flag: byte, keep: bool, ticks: seq<Tick>, id: nat, i: nat)
    requires Shape(s) && Sound(s) && s.recording && s.Live() && !Misuse(s, Stopped(flag, keep))
    requires AllWork(ticks) && Answered(ticks) >= Work(Stop(s, flag, keep))
    ensures Shape(Stop(s, flag, keep))
    ensures var u := Run(Stop(s, flag, keep), Ticks(ticks));
      && !u.Busy() && u.committed == Retained(s, flag, keep)
      && (Shape(u) ==> GetRecord(u, id, i, true) == ReadFrom(Retained(s, flag, keep), id, i))
  {
    var stopped := Stop(s, flag, keep);
    StopDue(s, flag, keep);
    hide Shape, Sound, Run, Work, Stop, Retained, Misuse;
    Drained(stopped, ticks);
    var u := Run(stopped, Ticks(ticks));
    RestingNotClearing(u);
    GetRecordReturns(u, id, i);
  }

  lemma StopDue(s: State, flag: byte, keep: bool)
    requires Shape(s) && Sound(s) && s.recording && s.Live() && !Misuse(s, Stopped(flag, keep))
    ensures var u := Stop(s, flag, keep); Shape(u) && Sound(u) && Draining(u) && Due(u) == Retained(s, flag, keep)
  {
    StopShape(s, flag, keep);
    StopSound(s, flag, keep);
    hide Content, Clean, Found, BankBlank, Partial, Stream;
  }

  lemma RestingNotClearing(s: State)
    requires Shape(s) && Sound(s) && !s.Busy()
    ensures !s.clearing
  {}

  // ------------------------------------------------- accepted or counted as dropped

  function Offered(events: seq<Event>): nat {
    if events == [] then 0 else (if events[0].Appended? then 1 else 0) + Offered(events[1..])
  }

  /** Any call but a stop, with any answer of the chip, while the power stays on. */
  predicate Feeding(e: Event) { !e.Stopped? && !e.PowerCycled? }

  /** A flight is being recorded, and nobody has asked for its end. */
  predicate Fed(s: State) { Accepting(s) && s.op != FinalOp && s.available }

  /** The flight is the same. */
  predicate SameFlight(s: State, u: State) {
    u.flightId == s.flightId && u.metadata == s.metadata && u.committed == s.committed && u.bank == s.bank
  }

  predicate Feeds(s: State, u: State) {
    Fed(u) && u.accepted == s.accepted && u.dropped == s.dropped && SameFlight(s, u)
  }

  /** While a flight is recorded, starts, clears and probes are ignored. */
  lemma IgnoredFeeds(s: State, e: Event)
    requires Shape(s) && Sound(s) && Fed(s) && (e.Started? || e.Cleared? || e.Enabled? || e.Probed?)
    ensures Feeds(s, Step(s, e))
  {
    hide CommandShape, OnChip, BothClean, ClearSound, RetainedSound, StoppedSound, Begin;
  }

  lemma UpdateFeeds(s: State, t: Tick)
    requires Shape(s) && Sound(s) && Fed(s)
    ensures Feeds(s, Update(s, t))
  {
    hide Content, Clean, Found, BankBlank, BlankFrom, Partial, Stream, Completed, Cut, HeaderData;
    if s.Live() && s.op == NoOp {
      StartNextFeeds(s, t);
    } else if s.Live() && !t.busy {
      var c := Complete(s, t);
      if s.op == HeaderOp {
        HeaderDoneSound(s);
        assert c == HeaderDone(s);
      } else {
        RecordDoneSound(s);
        assert c == RecordDone(s);
      }
      hide Complete, RecordDone, HeaderDone;
      StartNextFeeds(c, t);
    }
  }

  lemma StartNextFeeds(s: State, t: Tick)
    requires Resting(s) && Sound(s) && s.Live() && Fed(s)
    ensures Feeds(s, StartNext(s, t))
  {
    hide Content, Clean, Found, BankBlank, BlankFrom, Partial, Stream, Cut, HeaderData;
    if |s.queue| > 0 { assert StartNext(s, t) == StartRecord(s, t); }
  }

  /** Of `n` records offered between `s` and `u`, each is accepted, in order, or counted as dropped. */
  predicate Accounts(s: State, u: State, n: nat) {
    && s.accepted <= u.accepted && |u.accepted| <= |s.accepted| + n
    && u.dropped == Add32(s.dropped, |s.accepted| + n - |u.accepted|)
  }

  /** One call: a record is accepted or counted, everything else leaves the account alone. */
  lemma StepFeeds(s: State, e: Event)
    requires Shape(s) && Sound(s) && Fed(s) && Feeding(e)
    ensures var u := Step(s, e);
      && Shape(u) && Sound(u) && Fed(u) && SameFlight(s, u)
      && (if !e.Appended? then u.accepted == s.accepted && u.dropped == s.dropped
          else if HasRoom(s) then u.accepted == s.accepted + [e.r] && u.dropped == s.dropped
          else u.accepted == s.accepted && u.dropped == Add32(s.dropped, 1))
  {
    StepShape(s, e);
    FedUsesWell(s, e);
    StepSound(s, e);
    hide Shape, Sound, Update, Append, Start, Clear, Enable, Init, Fed, HasRoom, Add32, Misuse;
    match e {
      case Updated(t) => FedUpdate(s, t);
      case Appended(r) => AppendFeeds(s, r);
      case _ => IgnoredFeeds(s, e);
    }
  }

  lemma FedUsesWell(s: State, e: Event)
    requires Shape(s) && Fed(s) && Feeding(e)
    ensures !Misuse(s, e)
  {}

  lemma FedUpdate(s: State, t: Tick)
    requires Shape(s) && Sound(s) && Fed(s)
    ensures var u := Update(s, t); Fed(u) && u.accepted == s.accepted && u.dropped == s.dropped && SameFlight(s, u)
  {
    UpdateFeeds(s, t);
  }

  /** Conservation: while a flight is recorded and not being stopped, every offered record is
      accepted, in order, or counted as dropped, whatever is called and even if the chip is busy
      or fails. */
  lemma {:induction false} OfferedIsAcceptedOrDropped(s: State, events: seq<Event>)
    requires Shape(s) && Sound(s) && Fed(s) && s.dropped < WORD
    requires forall e :: e in events ==> Feeding(e)
    ensures Accounts(s, Run(s, events), Offered(events))
    decreases |events|
  {
    hide Shape, Sound, Step, Fed, HasRoom, Add32, Accounts, Feeding;
    if events == [] {
      AccountsNone(s);
    } else {
      assert Feeding(events[0]);
      StepFeeds(s, events[0]);
      DropCount(s.dropped, 0);
      OfferedIsAcceptedOrDropped(Step(s, events[0]), events[1..]);
      AccountsStep(s, Step(s, events[0]), Run(s, events), Offered(events[1..]));
    }
  }

  lemma AccountsNone(s: State)
    requires s.dropped < WORD
    ensures Accounts(s, s, 0)
  {}

  lemma AccountsStep(s: State, m: State, u: State, n: nat)
    requires Accounts(m, u, n) && s.dropped < WORD
    ensures m.accepted == s.accepted && m.dropped == s.dropped ==> Accounts(s, u, n)
    ensures |m.accepted| == |s.accepted| + 1 && s.accepted <= m.accepted && m.dropped == s.dropped ==> Accounts(s, u, n + 1)
    ensures m.accepted == s.accepted && m.dropped == Add32(s.dropped, 1) ==> Accounts(s, u, n + 1)
  {
    DropCount(s.dropped, |s.accepted| + n + 1 - |u.accepted|);
    hide Add32;
  }

  lemma DropCount(dropped: nat, n: int)
    requires dropped < WORD
    ensures Add32(dropped, 0) == dropped && Add32(dropped, 1) < WORD
    ensures Add32(Add32(dropped, 1), n - 1) == Add32(dropped, n)
  {}

  lemma AppendFeeds(s: State, r: Record)
    requires Shape(s) && Sound(s) && Fed(s)
    ensures var u := Append(s, r);
      && Shape(u) && Sound(u) && Fed(u) && SameFlight(s, u)
      && (if HasRoom(s) then u.accepted == s.accepted + [r] && u.dropped == s.dropped
          else u.accepted == s.accepted && u.dropped == Add32(s.dropped, 1))
  {
    AppendShape(s, r);
    AppendSound(s, r);
    ShapeFacts(s);
    hide Shape, Sound;
  }

  function RoomOf(s: State): int {
    var bank, ring := MaxRecords(s.bank) - s.recordCount - |s.queue|, QUEUE_RECORDS - |s.queue|;
    if bank < ring then bank else ring
  }

  /** How many records the queue still takes if none leaves it. */
  function Room(s: State): nat
    requires Shape(s)
  {
    ShapeGeometry(s);
    RoomOf(s)
  }

  /** The chip stays busy. */
  predicate Stalled(e: Event) { e.Appended? || (e.Updated? && e.t.busy && !e.t.expired) }

  /** While the chip is busy the queue fills: exactly the first Room() records are accepted, and
      each one after that is dropped and counted. */
  lemma {:induction false} QueueFills(s: State, events: seq<Event>)
    requires Shape(s) && Sound(s) && Fed(s) && s.op != NoOp && s.dropped < WORD
    requires forall e :: e in events ==> Stalled(e)
    ensures var u, n, room := Run(s, events), Offered(events), Room(s);
      && |u.accepted| == |s.accepted| + (if n < room then n else room)
      && u.dropped == Add32(s.dropped, if n < room then 0 else n - room)
    decreases |events|
  {
    hide Shape, Sound, Update, Append, Fed, HasRoom, Add32, Room;
    DropCount(s.dropped, Offered(events) - Room(s));
    if events != [] {
      var e := events[0];
      assert Stalled(e);
      StepShape(s, e);
      if e.Updated? {
        StallWaits(s, e.t);
      } else {
        AppendFeeds(s, e.r);
        AppendRoom(s, e.r);
      }
      QueueFills(Step(s, e), events[1..]);
    }
  }

  lemma StallWaits(s: State, t: Tick)
    requires Shape(s) && s.op != NoOp && t.busy && !t.expired
    ensures Update(s, t) == s
  {}

  lemma AppendRoom(s: State, r: Record)
    requires Shape(s) && Fed(s)
    ensures Shape(Append(s, r)) && Append(s, r).op == s.op
    ensures Room(Append(s, r)) == if Room(s) > 0 then Room(s) - 1 else 0
    ensures HasRoom(s) <==> Room(s) > 0
  {
    AppendShape(s, r);
    ShapeGeometry(s);
    assert RoomOf(Enqueue(s, r)) == RoomOf(s) - 1;
    hide Shape, MaxRecords;
  }

  /** It does fill: of 33 records offered while the header of a flight is being programmed, the
      last is dropped. */
  lemma ThirtyThirdIsDropped(s: State, events: seq<Event>)
    requires Shape(s) && Sound(s) && Fed(s) && s.op == HeaderOp && s.accepted == [] && s.dropped == 0
    requires (forall e :: e in events ==> Stalled(e)) && Offered(events) == 33
    ensures |Run(s, events).accepted| == 32 && Run(s, events).dropped == 1
  {
    hide Shape, Sound, Run, Room, Add32;
    RoomAtStart(s);
    QueueFills(s, events);
  }

  lemma RoomAtStart(s: State)
    requires Shape(s) && Sound(s) && s.recording && s.accepted == []
    ensures Room(s) == 32 && Add32(0, 1) == 1
  {
    ShapeGeometry(s);
    LedgerFacts(s);
    hide Shape, Sound;
  }
}
