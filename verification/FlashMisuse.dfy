/**
 Calls that arrive while the two-bank flight log (src/storage/blackbox_flash.c) commits a flight:
 exactly which of them lose the flight, and which leave a spare bank that only looks erased.
 */
module FlashMisuse {
  import opened Bytes
  import opened NorFlash
  import opened Records
  import opened FlashModel
  import opened FlashSafety
  import opened FlashRuns

  /** Two updates for each block of a bank. */
  function EraseUpdates(bank: nat): nat { 2 * (bank / 65536) }

  // ------------------------------------------------- erasing a bank

  /** Bank `b` is being erased, whatever else is waiting. */
  predicate ErasingBank(s: State, b: nat) {
    && Shape(s) && s.Live() && s.erasing && s.op == EraseOp && s.eraseBank == b
    && !s.recording && !s.startPending && !s.clearSecond
    && BlankFrom(s.image, s.eraseAddress + ERASE_BLOCK, Base(s.bank, b) + s.bank)
  }

  /** What waits for the end of the erasure stays as it is, and so does the other bank. */
  predicate SameJob(s: State, u: State, b: nat)
    requires Geometry(s.image, s.bank) && b <= 1
  {
    && u.bank == s.bank && Geometry(u.image, s.bank) && SameBank(s.image, u.image, s.bank, 1 - b)
    && u.recording == s.recording && u.finalise == s.finalise && u.retain == s.retain && u.retained == s.retained
    && u.recordCount == s.recordCount && u.offset == s.offset && u.queue == s.queue
    && u.startPending == s.startPending && u.clearSecond == s.clearSecond
  }

  /** An erasure that is prepared is launched. */
  lemma EraseLaunches(s: State, b: nat, t: Tick)
    requires Resting(s) && s.Live() && s.erasing && s.eraseBank == b && t.Works()
    requires !s.recording && !s.startPending && !s.clearSecond
    requires BlankFrom(s.image, s.eraseAddress + ERASE_BLOCK, Base(s.bank, b) + s.bank)
    ensures var u := StartNext(s, t); ErasingBank(u, b) && SameJob(s, u, b) && u.eraseAddress == s.eraseAddress
  {
    StartEraseShape(s, t);
    hide CommandShape, Cut;
  }

  lemma EraseGoesOn(s: State, b: nat, t: Tick)
    requires ErasingBank(s, b) && t.Works() && !t.busy && s.eraseAddress > Base(s.bank, b)
    ensures var u := Update(s, t); ErasingBank(u, b) && SameJob(s, u, b) && EraseWork(u) < EraseWork(s)
  {
    EraseNextShape(s);
    EraseNextSame(s);
    BlockErased(s, b);
    var n := NextInBank(s);
    assert EraseDone(s, t) == n;
    EraseLaunches(n, b, t);
    OneBlockLess(s, StartNext(n, t), b);
    hide Shape, StartNext, EraseDone, NextInBank, EraseWork, SameBank, BlankFrom;
  }

  lemma BlockErased(s: State, b: nat)
    requires ErasingBank(s, b) && s.eraseAddress > Base(s.bank, b)
    ensures var n := NextInBank(s);
      && n.eraseAddress + ERASE_BLOCK == s.eraseAddress && Resting(n) && n.Live() && SameJob(s, n, b)
      && BlankFrom(n.image, s.eraseAddress, Base(s.bank, b) + s.bank)
  {
    EraseNextShape(s);
    EraseNextSame(s);
    hide CommandShape, EraseNext;
  }

  lemma OneBlockLess(s: State, u: State, b: nat)
    requires ErasingBank(s, b) && ErasingBank(u, b) && u.bank == s.bank && u.eraseAddress + ERASE_BLOCK == s.eraseAddress
    ensures EraseWork(u) < EraseWork(s)
  {
    hide CommandShape;
  }

  lemma EraseEnds(s: State, b: nat, t: Tick)
    requires ErasingBank(s, b) && t.Works() && !t.busy && s.eraseAddress == Base(s.bank, b)
    ensures var e := EraseFinished(s);
      && Resting(e) && e.Live() && Update(s, t) == StartNext(e, t)
      && SameJob(s, e, b) && e.writeBank == b && e.phase == Ready && !e.erasing && BankBlank(e.image, e.bank, b)
  {
    EraseFinishedShape(s);
    assert !MoreBlocks(s);
    hide CommandShape, StartNext;
  }

  // ------------------------------------------------- the commit completes

  /** The commit of a sound state, with whatever calls have come since. */
  predicate Late(s: State, a: State)
    requires Shape(s) && s.op == FinalOp
  {
    && Shape(a) && a.op == FinalOp && a.image == s.image && a.bank == s.bank && a.flying == s.flying
    && a.writeBank == s.writeBank && a.retained == s.retained && a.recordCount == s.recordCount
    && a.offset == 0 && !a.erasing && !a.startPending && !a.clearSecond && a.recording && a.phase == Recording
  }

  /** The flight's bank holds it, and the other one is the next to be recorded. */
  predicate Holding(s: State, w: nat, f: Flight) {
    && Shape(s) && s.Live() && w <= 1 && !s.recording && !s.startPending && !s.clearSecond && s.retained == w
    && Content(s.image, s.bank, w) == Some(f)
  }

  lemma CommitFacts(s: State)
    requires Shape(s) && Sound(s) && s.op == FinalOp
    ensures s.recording && s.queue == [] && 0 < s.recordCount < WORD && s.writeBank <= 1 && Late(s, s)
    ensures s.retained == NONE || s.retained == 1 - s.writeBank
    ensures Fits(s.image, s.flying)
    ensures var after := Completed(s.image, s.flying);
      && Geometry(after, s.bank) && Content(after, s.bank, s.writeBank) == Some(s.NewFlight())
      && Clean(after, s.bank, 1 - s.writeBank)
  {
    hide Shape, Sound, Content, Clean, Found, Cut, Late, OnChip, Ledger, BothClean, BankBlank, State.NewFlight;
    CommitLedger(s);
    CutOther(s, PAGE);
    CutRecording(s, PAGE);
  }

  lemma CommitLedger(s: State)
    requires Shape(s) && Sound(s) && s.op == FinalOp
    ensures s.recording && s.queue == [] && 0 < s.recordCount < WORD && s.writeBank <= 1 && Late(s, s)
    ensures s.retained == NONE || s.retained == 1 - s.writeBank
    ensures Fits(s.image, s.flying) && Geometry(s.image, s.bank) && BothClean(s.image, s.bank) && OnChip(s) && Ledger(s)
  {
    ShapeFacts(s);
    hide Content, Clean, Found, Partial, Stream, FinalData, HeaderData, BankBlank;
  }

  /** The state once the commit is complete: the spare bank is blank, or about to be erased. */
  predicate AfterCommit(a: State, d: State, f: Flight) {
    && Holding(d, a.writeBank, f) && Resting(d) && d.bank == a.bank
    && d.finalise == a.finalise && d.retain == a.retain && d.queue == a.queue && d.recordCount == a.recordCount && d.offset == 0
    && (if d.erasing then d.eraseBank == 1 - a.writeBank && d.eraseAddress == Base(a.bank, 1 - a.writeBank) + a.bank - ERASE_BLOCK
        else d.writeBank == 1 - a.writeBank && d.phase == Ready && BankBlank(d.image, d.bank, d.writeBank))
  }

  function Finished(a: State, t: Tick): (d: State)
    requires Shape(a) && a.op == FinalOp
    ensures Resting(d) && d.Live()
  {
    FinalDoneShape(a, t);
    FinalDoneKeeps(a, t);
    FinalDone(a, t)
  }

  lemma UpdateFinishes(a: State, t: Tick)
    requires Shape(a) && a.op == FinalOp && !t.busy
    ensures Update(a, t) == StartNext(Finished(a, t), t)
  {
    hide StartNext, FinalDone, CommandShape, Completed, HeaderBlank;
  }

  lemma CommitCompletes(s: State, a: State, t: Tick)
    requires Shape(s) && Sound(s) && s.op == FinalOp && Late(s, a) && t.Works() && !t.busy
    ensures AfterCommit(a, Finished(a, t), s.NewFlight())
  {
    CommitFacts(s);
    BlankBanks(Completed(s.image, s.flying), s.bank);
    hide Sound, Content, Clean, Completed, FinalData, HeaderData, BankBlank;
  }

  // ------------------------------------------------- calls during the commit

  /** Any call but a restart: records, stops, and what the driver ignores while it records.  Updates
      find the chip busy. */
  predicate Call(e: Event) { !e.PowerCycled? && (e.Updated? ==> e.t.busy && !e.t.expired) }

  /** Whether the last of the stops retains. */
  function LastStop(calls: seq<Event>): Option<bool> {
    if calls == [] then None
    else if LastStop(calls[1..]).Some? then LastStop(calls[1..])
    else if calls[0].Stopped? then Some(calls[0].keep) else None
  }

  /** The records offered before the first stop, as many as there is room for. */
  function Taken(calls: seq<Event>, stopped: bool, room: int): seq<Record> {
    if calls == [] then []
    else if calls[0].Appended? && !stopped && room > 0 then [calls[0].r] + Taken(calls[1..], stopped, room - 1)
    else Taken(calls[1..], stopped || calls[0].Stopped?, room)
  }

  /** What one call does to the commit in flight. */
  predicate Takes(a: State, u: State, e: Event) {
    && u.finalise == (a.finalise || e.Stopped?) && u.retain == (if e.Stopped? then e.keep else a.retain)
    && u.queue == (if e.Appended? && !a.finalise && RoomOf(a) > 0 then a.queue + [e.r] else a.queue)
    && u.recordCount == a.recordCount && u.bank == a.bank
  }

  lemma CallTakes(s: State, a: State, e: Event)
    requires Shape(s) && s.op == FinalOp && Late(s, a) && 0 < s.recordCount && Call(e)
    ensures Late(s, Step(a, e)) && Takes(a, Step(a, e), e)
  {
    hide Shape, Late, Takes, Update, Start, Append, Stop, Clear, Enable, Init, Add32;
    match e {
      case Appended(r) => AppendTaken(s, a, r);
      case Stopped(flag, keep) => StopTaken(s, a, flag, keep);
      case Enabled => EnableTaken(s, a);
      case _ => CallIgnored(s, a, e);
    }
  }

  lemma AppendTaken(s: State, a: State, r: Record)
    requires Shape(s) && s.op == FinalOp && Late(s, a)
    ensures Late(s, Append(a, r)) && Takes(a, Append(a, r), Appended(r))
  {
    AppendShape(a, r);
    ShapeFacts(a);
    LateQueued(s, a, r);
    LateDropped(s, a);
    RoomIsRoom(a);
    hide Shape, Late, Add32, RoomOf, HasRoom, Enqueue;
  }

  lemma RoomIsRoom(a: State)
    requires Geometry(a.image, a.bank)
    ensures HasRoom(a) <==> RoomOf(a) > 0
  {
    hide MaxRecords;
  }

  lemma LateQueued(s: State, a: State, r: Record)
    requires Shape(s) && s.op == FinalOp && Late(s, a)
    ensures Shape(Enqueue(a, r)) ==> Late(s, Enqueue(a, r))
    ensures var u := Enqueue(a, r);
      u.queue == a.queue + [r] && u.finalise == a.finalise && u.retain == a.retain && u.recordCount == a.recordCount && u.bank == a.bank
  {
    hide Shape;
  }

  lemma LateDropped(s: State, a: State)
    requires Shape(s) && s.op == FinalOp && Late(s, a)
    ensures var u := a.(dropped := Add32(a.dropped, 1)); Shape(u) ==> Late(s, u)
    ensures a.recording
  {
    hide Shape, Add32;
  }

  lemma StopTaken(s: State, a: State, flag: byte, keep: bool)
    requires Shape(s) && s.op == FinalOp && Late(s, a) && 0 < s.recordCount
    ensures Late(s, Stop(a, flag, keep)) && Takes(a, Stop(a, flag, keep), Stopped(flag, keep))
  {
    StopShape(a, flag, keep);
    hide Shape;
  }

  lemma EnableTaken(s: State, a: State)
    requires Shape(s) && s.op == FinalOp && Late(s, a)
    ensures Late(s, Enable(a)) && Takes(a, Enable(a), Enabled)
  {
    EnableShape(a);
    hide Shape;
  }

  lemma CallIgnored(s: State, a: State, e: Event)
    requires Shape(s) && s.op == FinalOp && Late(s, a) && Call(e) && (e.Updated? || e.Started? || e.Cleared? || e.Probed?)
    ensures Step(a, e) == a && Late(s, a) && Takes(a, a, e)
  {
    ShapeFacts(a);
    hide Shape, Init, Begin, Proceed, StartNext, Fail;
  }

  lemma {:induction false} CallsTake(s: State, a: State, calls: seq<Event>)
    requires Shape(s) && s.op == FinalOp && Late(s, a) && 0 < s.recordCount && forall e :: e in calls ==> Call(e)
    ensures Shape(a) && Late(s, Run(a, calls)) && TakesAll(a, Run(a, calls), calls)
    decreases |calls|
  {
    hide Shape, Step, Late, Takes, TakesAll, Call;
    LateFacts(s, a);
    if calls == [] {
      TakesNone(a);
    } else {
      assert Call(calls[0]);
      CallTakes(s, a, calls[0]);
      CallsTake(s, Step(a, calls[0]), calls[1..]);
      TakesOn(a, Step(a, calls[0]), Run(a, calls), calls);
    }
  }

  predicate TakesAll(a: State, u: State, calls: seq<Event>) {
    && u.finalise == (a.finalise || LastStop(calls).Some?)
    && u.retain == (if LastStop(calls).Some? then LastStop(calls).value else a.retain)
    && u.queue == a.queue + Taken(calls, a.finalise, RoomOf(a))
  }

  lemma TakesNone(a: State)
    ensures TakesAll(a, a, [])
  {
    assert a.queue + [] == a.queue;
  }

  lemma TakesOn(a: State, m: State, u: State, calls: seq<Event>)
    requires calls != [] && Takes(a, m, calls[0]) && TakesAll(m, u, calls[1..])
    ensures TakesAll(a, u, calls)
  {
    RoomLeft(a, m, calls[0]);
    hide RoomOf;
  }

  lemma RoomLeft(a: State, u: State, e: Event)
    requires Takes(a, u, e)
    ensures RoomOf(u) == if e.Appended? && !a.finalise && RoomOf(a) > 0 then RoomOf(a) - 1 else RoomOf(a)
  {
    hide MaxRecords;
  }

  // ------------------------------------------------- a stop during the commit

  /** A commit programmed behind a header that is blank makes no flight of it. */
  lemma CommitOfBlankBank(image: seq<byte>, bank: nat, o: nat, data: seq<byte>)
    requires Geometry(image, bank) && o <= 1 && image[Base(bank, o)] == BLANK && |data| == 6
    ensures var c := Program(Base(bank, o) + COUNT_OFFSET, data);
      && Fits(image, c)
      && Content(Completed(image, c), bank, o) == None
      && Content(Completed(image, c), bank, 1 - o) == Content(image, bank, 1 - o)
  {
    hide Content, Cut, SameBank, Clean;
    var c := Program(Base(bank, o) + COUNT_OFFSET, data);
    ProgramElsewhere(image, c, Base(bank, o));
    CutInside(image, bank, o, c, PAGE);
    SameBankKeeps(image, Completed(image, c), bank, 1 - o);
    NoMagic(Completed(image, c), bank, o);
  }

  lemma NoMagic(image: seq<byte>, bank: nat, b: nat)
    requires Geometry(image, bank) && b <= 1 && image[Base(bank, b)] == BLANK
    ensures Content(image, bank, b) == None
  {}

  /** The stop's driver writes the records out behind the header of the spare bank, which is blank. */
  predicate Flushing(s: State, w: nat) {
    && Flushable(s, w) && s.op == RecordOp
  }

  predicate Flushable(s: State, w: nat) {
    && Shape(s) && s.Live() && w <= 1 && !s.recording && !s.startPending && !s.clearSecond
    && s.finalise && s.retained == w && s.writeBank == 1 - w && !s.erasing && s.image[Base(s.bank, 1 - w)] == BLANK
  }

  /** The program in flight stays behind the header. */
  lemma FlushFlying(s: State, w: nat)
    requires Flushing(s, w)
    ensures Geometry(s.image, s.bank) && w <= 1 && Fits(s.image, s.flying) && s.flying.Program?
    ensures Inside(s.image, s.bank, 1 - w, s.flying) && Base(s.bank, 1 - w) + HEADER_BYTES <= s.flying.addr
    ensures 0 < |s.flying.data| <= s.QueuedBytes()
  {}

  lemma ProgramElsewhere(image: seq<byte>, c: Command, i: nat)
    requires Fits(image, c) && c.Program? && i < |image| && i < c.addr
    ensures |Completed(image, c)| == |image| && Completed(image, c)[i] == image[i]
  {}

  lemma FlushDone(s: State, w: nat)
    requires Flushing(s, w)
    ensures var c := RecordDone(s);
      && Flushable(c, w) && Resting(c) && c.retain == s.retain && c.bank == s.bank && c.QueuedBytes() < s.QueuedBytes()
      && Geometry(s.image, s.bank) && w <= 1 && SameBank(s.image, c.image, s.bank, w)
  {
    assert Shape(s);
    FlushFlying(s, w);
    ProgramElsewhere(s.image, s.flying, Base(s.bank, 1 - w));
    CutInside(s.image, s.bank, 1 - w, s.flying, PAGE);
    RecordDoneShape(s);
    hide Shape, Completed, SameBank, Cut;
    WholeRecords(s.offset + |s.flying.data|, |s.queue|);
    RecordDoneIs(s, (s.offset + |s.flying.data|) / 60, (s.offset + |s.flying.data|) % 60);
  }

  /** The next piece of the records goes out. */
  lemma FlushNext(d: State, w: nat, t: Tick)
    requires Flushable(d, w) && Resting(d) && d.queue != [] && t.Works()
    ensures var u := StartNext(d, t);
      && Flushing(u, w) && u.retain == d.retain && u.image == d.image && u.bank == d.bank && u.QueuedBytes() == d.QueuedBytes()
  {
    StartRecordShape(d, t);
    StartRecordSteps(d, t);
    hide Shape, RecordCommand, Stream;
  }

  /** The driver goes on to commit the spare bank, and erases the flight's bank after that. */
  predicate Doomed(s: State, w: nat) {
    && Shape(s) && s.Live() && w <= 1 && !s.recording && !s.startPending && !s.clearSecond
    && if s.finalise then s.retain && s.retained == w && (ErasingBank(s, 1 - w) || Flushing(s, w))
       else if s.op == FinalOp then
         s.queue == [] && s.retained == w && s.writeBank == 1 - w && !s.erasing && s.image[Base(s.bank, 1 - w)] == BLANK
       else
         && s.queue == [] && s.retained == 1 - w && Content(s.image, s.bank, 1 - w) == None
         && if s.erasing then ErasingBank(s, w) else s.op == NoOp && BankBlank(s.image, s.bank, w)
  }

  function DoomWork(s: State): int {
    if s.finalise then EraseWork(s) + s.QueuedBytes() + EraseUpdates(s.bank)
    else if s.op == FinalOp then EraseUpdates(s.bank)
    else EraseWork(s)
  }

  /** The second commit, of the blank bank, is launched. */
  lemma CommitsSpare(e: State, w: nat, t: Tick)
    requires Flushable(e, w) && Resting(e) && e.retain && e.queue == [] && t.Works()
    ensures var u := StartNext(e, t); Doomed(u, w) && DoomWork(u) == EraseUpdates(e.bank) && u.bank == e.bank
  {
    LaunchFinalShape(e, t);
    hide FinalData, Cut;
    assert StartNext(e, t) == LaunchFinal(e, t);
  }

  /** Nothing is erased any more: the records go out, or the second commit is launched. */
  lemma DoomGoesOn(d: State, w: nat, t: Tick)
    requires Flushable(d, w) && Resting(d) && d.retain && t.Works()
    ensures var u := StartNext(d, t);
      Doomed(u, w) && DoomWork(u) == d.QueuedBytes() + EraseUpdates(d.bank) && u.bank == d.bank
  {
    DrySize(d);
    hide Shape, StartNext, EraseUpdates, Content, BankBlank;
    if d.queue == [] {
      CommitsSpare(d, w, t);
    } else {
      FlushNext(d, w, t);
      FlushingWork(StartNext(d, t), w);
    }
  }

  lemma DrySize(d: State)
    requires Shape(d)
    ensures d.queue == [] ==> d.QueuedBytes() == 0
    ensures 0 <= d.QueuedBytes() <= 60 * QUEUE_RECORDS
  {}

  lemma FlushingWork(u: State, w: nat)
    requires Flushing(u, w) && u.retain
    ensures Doomed(u, w) && DoomWork(u) == u.QueuedBytes() + EraseUpdates(u.bank)
  {
    hide Shape, EraseUpdates, Content;
  }

  lemma StopStarts(s: State, a: State, t: Tick)
    requires Shape(s) && Sound(s) && s.op == FinalOp && Late(s, a) && a.finalise && a.retain
    requires t.Works() && !t.busy
    ensures var u := Update(a, t);
      Doomed(u, s.writeBank) && DoomWork(u) < Enough(s.bank) && u.bank == s.bank
  {
    hide Shape, Sound, Late, Finished, Update, Content, Clean, Completed, StartNext, BankBlank, SameBank, EraseWork;
    LateSpare(s);
    CommitCompletes(s, a, t);
    LateFacts(s, a);
    UpdateFinishes(a, t);
    DrySize(a);
    var d := Finished(a, t);
    if d.erasing {
      NothingToErase(d);
      EraseLaunches(d, 1 - s.writeBank, t);
      BlocksLeft(StartNext(d, t));
    } else {
      BlankFlushable(d, s.writeBank);
      DoomGoesOn(d, s.writeBank, t);
    }
  }

  lemma LateSpare(s: State)
    requires Shape(s) && Sound(s) && s.op == FinalOp
    ensures Late(s, s) && s.writeBank <= 1 && Geometry(s.image, s.bank)
  {
    CommitLedger(s);
    hide Sound, Late;
  }

  lemma BlankFlushable(d: State, w: nat)
    requires Resting(d) && d.Live() && w <= 1 && !d.recording && !d.startPending && !d.clearSecond
    requires d.finalise && d.retained == w && d.writeBank == 1 - w && !d.erasing && BankBlank(d.image, d.bank, 1 - w)
    ensures Flushable(d, w)
  {}

  lemma NothingToErase(d: State)
    requires Shape(d) && d.erasing && d.eraseAddress == Base(d.bank, d.eraseBank) + d.bank - ERASE_BLOCK
    ensures Geometry(d.image, d.bank) && d.eraseAddress + ERASE_BLOCK == Base(d.bank, d.eraseBank) + d.bank
    ensures BlankFrom(d.image, d.eraseAddress + ERASE_BLOCK, Base(d.bank, d.eraseBank) + d.bank)
  {}

  /** All blocks of the bank are still to be erased, the first one is under way. */
  lemma BlocksLeft(u: State)
    requires ErasingBank(u, u.eraseBank) && u.eraseAddress == Base(u.bank, u.eraseBank) + u.bank - ERASE_BLOCK
    ensures EraseWork(u) == EraseUpdates(u.bank) - 1
  {
    hide CommandShape;
  }

  lemma BankHasBlocks(s: State)
    requires Shape(s)
    ensures EraseUpdates(s.bank) > 0
  {
    hide CommandShape;
  }

  lemma DoomStep(s: State, w: nat, t: Tick)
    requires Doomed(s, w) && t.Works() && !t.busy && s.op != NoOp
    ensures Doomed(Update(s, t), w) && DoomWork(Update(s, t)) < DoomWork(s) && Update(s, t).bank == s.bank
  {
    if s.finalise && s.erasing { DoomErasesSpare(s, w, t); }
    else if s.finalise { DoomFlushes(s, w, t); }
    else if s.op == FinalOp { DoomCommits(s, w, t); }
    else { DoomErasesFlight(s, w, t); }
    hide *;
  }

  lemma DoomErasesSpare(s: State, w: nat, t: Tick)
    requires Doomed(s, w) && t.Works() && !t.busy && s.finalise && s.erasing
    ensures Doomed(Update(s, t), w) && DoomWork(Update(s, t)) < DoomWork(s) && Update(s, t).bank == s.bank
  {
    DoomErasing(s, w);
    EraseLeft(s, 1 - w);
    hide Shape, Update, StartNext, EraseFinished, EraseWork, Content, BankBlank;
    if s.eraseAddress > Base(s.bank, 1 - w) {
      EraseGoesOn(s, 1 - w, t);
    } else {
      EraseEnds(s, 1 - w, t);
      BlankFlushable(EraseFinished(s), w);
      DoomGoesOn(EraseFinished(s), w, t);
    }
  }

  lemma DoomErasing(s: State, w: nat)
    requires Doomed(s, w) && s.finalise && s.erasing
    ensures ErasingBank(s, 1 - w) && s.retained == w && s.retain && Geometry(s.image, s.bank) && w <= 1
  {
    hide CommandShape, Content;
  }

  lemma DoomFlushes(s: State, w: nat, t: Tick)
    requires Doomed(s, w) && t.Works() && !t.busy && s.finalise && !s.erasing
    ensures Doomed(Update(s, t), w) && DoomWork(Update(s, t)) < DoomWork(s) && Update(s, t).bank == s.bank
  {
    assert Flushing(s, w) && Shape(s);
    FlushDone(s, w);
    RecordFinishes(s, t);
    hide Shape, Update, StartNext, RecordDone, Content, SameBank, BankBlank;
    DoomGoesOn(RecordDone(s), w, t);
  }

  lemma EraseLeft(s: State, b: nat)
    requires ErasingBank(s, b)
    ensures s.eraseAddress >= Base(s.bank, b) && EraseWork(s) >= 1 && b <= 1
  {
    hide CommandShape;
  }

  lemma DoomCommits(s: State, w: nat, t: Tick)
    requires Doomed(s, w) && t.Works() && !t.busy && !s.finalise && s.op == FinalOp
    ensures Doomed(Update(s, t), w) && DoomWork(Update(s, t)) < DoomWork(s) && Update(s, t).bank == s.bank
  {
    hide Shape, Update, StartNext, Finished, Completed, Content, SameBank, EraseWork, BankBlank;
    DoomFinal(s, w);
    CommitFlying(s);
    CommitOfBlankBank(s.image, s.bank, 1 - w, s.flying.data);
    SecondCommit(s, t);
    UpdateFinishes(s, t);
    var d := Finished(s, t);
    NothingToErase(d);
    EraseLaunches(d, w, t);
    BlocksLeft(StartNext(d, t));
    SameBankKeeps(d.image, StartNext(d, t).image, s.bank, 1 - w);
  }

  lemma DoomFinal(s: State, w: nat)
    requires Doomed(s, w) && !s.finalise && s.op == FinalOp
    ensures Shape(s) && Geometry(s.image, s.bank) && w <= 1 && s.retained == w && s.writeBank == 1 - w
    ensures s.image[Base(s.bank, 1 - w)] == BLANK && s.queue == [] && !s.startPending && !s.clearSecond
  {
    hide CommandShape, Content;
  }

  lemma CommitFlying(s: State)
    requires Shape(s) && s.op == FinalOp
    ensures s.flying.Program? && s.flying.addr == Base(s.bank, s.writeBank) + COUNT_OFFSET && |s.flying.data| == 6
  {}

  /** Completing a commit when another bank is retained has that bank erased. */
  lemma SecondCommit(c: State, t: Tick)
    requires Shape(c) && c.op == FinalOp && c.writeBank <= 1 && c.retained == 1 - c.writeBank
    ensures var d := Finished(c, t);
      && d.erasing && d.eraseBank == 1 - c.writeBank && d.retained == c.writeBank
      && d.eraseAddress == Base(c.bank, d.eraseBank) + c.bank - ERASE_BLOCK
      && d.bank == c.bank && Fits(c.image, c.flying) && d.image == Completed(c.image, c.flying) && !d.recording
      && d.queue == c.queue && d.finalise == c.finalise && d.startPending == c.startPending && d.clearSecond == c.clearSecond
  {
    ShapeFacts(c);
    hide Completed, CommandShape;
  }

  lemma DoomErasesFlight(s: State, w: nat, t: Tick)
    requires Doomed(s, w) && t.Works() && !t.busy && !s.finalise && s.op == EraseOp
    ensures Doomed(Update(s, t), w) && DoomWork(Update(s, t)) < DoomWork(s) && Update(s, t).bank == s.bank
  {
    hide Shape, Update, StartNext, EraseFinished, EraseWork, Content, SameBank, BankBlank;
    EraseLeft(s, w);
    DoomGeometry(s, w);
    if s.eraseAddress > Base(s.bank, w) {
      EraseGoesOn(s, w, t);
      SameBankKeeps(s.image, Update(s, t).image, s.bank, 1 - w);
    } else {
      EraseEnds(s, w, t);
      SameBankKeeps(s.image, EraseFinished(s).image, s.bank, 1 - w);
      NothingLeft(EraseFinished(s), t);
    }
  }

  lemma DoomGeometry(s: State, w: nat)
    requires Doomed(s, w)
    ensures Geometry(s.image, s.bank)
  {
    hide CommandShape;
  }

  lemma NothingLeft(e: State, t: Tick)
    requires Resting(e) && !e.erasing && e.queue == [] && !e.finalise
    ensures StartNext(e, t) == e && EraseWork(e) == 0
  {}

  lemma DoomLeft(s: State, w: nat)
    requires Doomed(s, w)
    ensures DoomWork(s) >= 0 && (DoomWork(s) == 0 ==> s.op == NoOp)
    ensures s.op == NoOp ==> !s.Busy() && Found(s.image, s.bank) == None
  {
    BankHasBlocks(s);
    if s.erasing { EraseLeft(s, s.eraseBank); }
    if s.op == NoOp {
      BlankContent(s.image, s.bank, w);
      FoundIn(s.image, s.bank, 0);
    }
    hide CommandShape, Content, Found, BankBlank, Selected;
  }

  lemma UpdateRests(s: State, t: Tick)
    requires Shape(s) && !s.Busy()
    ensures Update(s, t) == s
  {}

  lemma {:induction false} DoomRuns(s: State, w: nat, ticks: seq<Tick>)
    requires Doomed(s, w) && AllWork(ticks) && Answered(ticks) >= DoomWork(s)
    ensures var u := Run(s, Ticks(ticks)); Doomed(u, w) && u.op == NoOp && u.bank == s.bank
    decreases |ticks|
  {
    assert Shape(s);
    hide Shape, Update, Doomed, DoomWork;
    DoomLeft(s, w);
    if ticks != [] {
      var t := ticks[0];
      assert t.Works();
      assert Ticks(ticks)[1..] == Ticks(ticks[1..]);
      UpdateShape(s, t);
      if s.op == NoOp {
        UpdateRests(s, t);
      } else if t.busy {
        StallWaits(s, t);
      } else {
        DoomStep(s, w, t);
      }
      DoomRuns(Update(s, t), w, ticks[1..]);
    }
  }

  /** The updates that find the chip ready which are always enough after a commit. */
  function Enough(bank: nat): nat { 2 * EraseUpdates(bank) + 60 * QUEUE_RECORDS + 4 }

  /** The commit is waited for; then the run goes on as `DoomRuns` says. */
  lemma {:induction false} RetainingStopLoses(s: State, a: State, ticks: seq<Tick>)
    requires Shape(s) && Sound(s) && s.op == FinalOp && Late(s, a) && a.finalise && a.retain
    requires AllWork(ticks) && Answered(ticks) >= Enough(s.bank)
    ensures var u := Run(a, Ticks(ticks)); Shape(u) && !u.Busy() && u.bank == s.bank && Found(u.image, u.bank) == None
    decreases |ticks|
  {
    hide Shape, Sound, Update, Doomed, DoomWork, Found, EraseUpdates;
    LateFacts(s, a);
    hide Late;
    var t := ticks[0];
    assert t.Works();
    assert Ticks(ticks)[1..] == Ticks(ticks[1..]);
    UpdateShape(a, t);
    if t.busy {
      StallWaits(a, t);
      RetainingStopLoses(s, a, ticks[1..]);
    } else {
      StopStarts(s, a, t);
      DoomRuns(Update(a, t), s.writeBank, ticks[1..]);
      DoomLeft(Run(a, Ticks(ticks)), s.writeBank);
      DoomedShape(Run(a, Ticks(ticks)), s.writeBank);
    }
  }

  lemma LateFacts(s: State, a: State)
    requires Shape(s) && s.op == FinalOp && Late(s, a)
    ensures Shape(a) && a.op == FinalOp && EraseUpdates(s.bank) > 0 && a.bank == s.bank && a.writeBank == s.writeBank <= 1
  {
    BankHasBlocks(s);
  }

  lemma DoomedShape(u: State, w: nat)
    requires Doomed(u, w)
    ensures Shape(u)
  {}

  // ------------------------------------------------- a stop that does not retain

  /** The records go to the spare bank, which is then erased again: the flight stays where it is. */
  predicate Sparing(s: State, w: nat, f: Flight) {
    && Holding(s, w, f)
    && if s.finalise then !s.retain && (ErasingBank(s, 1 - w) || Flushing(s, w))
       else s.queue == [] && if !s.erasing then s.op == NoOp && s.writeBank == 1 - w && BankBlank(s.image, s.bank, 1 - w)
                             else ErasingBank(s, 1 - w) || Discarded(s, 1 - w)
  }

  /** The erasure of a bank is prepared. */
  predicate Discarded(s: State, b: nat) {
    && Resting(s) && s.Live() && b <= 1 && s.erasing && s.eraseBank == b && !s.recording && !s.startPending && !s.clearSecond
    && s.eraseAddress == Base(s.bank, b) + s.bank - ERASE_BLOCK
  }

  function SpareWork(s: State): int {
    if s.finalise then EraseWork(s) + s.QueuedBytes() + EraseUpdates(s.bank) + 1 else EraseWork(s)
  }

  lemma SpareGoesOn(d: State, w: nat, f: Flight, t: Tick)
    requires Flushable(d, w) && Resting(d) && !d.retain && Holding(d, w, f) && t.Works()
    ensures var u := StartNext(d, t);
      Sparing(u, w, f) && SpareWork(u) < d.QueuedBytes() + EraseUpdates(d.bank) + 2 && u.bank == d.bank
  {
    DrySize(d);
    if d.queue == [] {
      DiscardsSpare(d, w, f, t);
    } else {
      FlushNext(d, w, t);
      SpareFlushes(d, StartNext(d, t), w, f);
    }
    hide Shape, StartNext, EraseUpdates, Content, BankBlank;
  }

  lemma DiscardsSpare(d: State, w: nat, f: Flight, t: Tick)
    requires Flushable(d, w) && Resting(d) && !d.retain && Holding(d, w, f) && d.queue == []
    ensures var u := StartNext(d, t); Sparing(u, w, f) && SpareWork(u) == EraseUpdates(d.bank) && u.bank == d.bank
  {
    DiscardShape(d);
    assert StartNext(d, t) == Discard(d);
    hide CommandShape, Content;
  }

  lemma SpareFlushes(d: State, u: State, w: nat, f: Flight)
    requires Holding(d, w, f) && Flushing(u, w) && !u.retain && u.image == d.image && u.bank == d.bank
    requires u.QueuedBytes() == d.QueuedBytes()
    ensures Sparing(u, w, f) && SpareWork(u) == d.QueuedBytes() + EraseUpdates(d.bank) + 1
  {
    hide Shape, EraseUpdates, Content;
  }

  lemma SpareStep(s: State, w: nat, f: Flight, t: Tick)
    requires Sparing(s, w, f) && t.Works() && (s.op == NoOp ==> s.erasing) && (t.busy ==> s.op == NoOp)
    ensures Sparing(Update(s, t), w, f) && SpareWork(Update(s, t)) < SpareWork(s) && Update(s, t).bank == s.bank
  {
    if s.op == NoOp { SpareLaunches(s, w, f, t); }
    else if s.erasing { SpareErases(s, w, f, t); }
    else { SpareFlush(s, w, f, t); }
    hide *;
  }

  lemma SpareLaunches(s: State, w: nat, f: Flight, t: Tick)
    requires Sparing(s, w, f) && t.Works() && s.op == NoOp && s.erasing
    ensures Sparing(Update(s, t), w, f) && SpareWork(Update(s, t)) < SpareWork(s) && Update(s, t).bank == s.bank
  {
    SpareErasing(s, w, f);
    NothingToErase(s);
    UpdateStarts(s, t);
    hide Shape, Update, StartNext, Content, SameBank, BankBlank;
    EraseLaunches(s, 1 - w, t);
    SameBankKeeps(s.image, StartNext(s, t).image, s.bank, w);
    WaitingWork(s);
    BlocksLeft(StartNext(s, t));
  }

  lemma SpareErasing(s: State, w: nat, f: Flight)
    requires Sparing(s, w, f) && s.op == NoOp && s.erasing
    ensures Discarded(s, 1 - w) && !s.finalise && s.queue == [] && Geometry(s.image, s.bank)
  {
    hide CommandShape, Content;
  }

  lemma UpdateStarts(s: State, t: Tick)
    requires Resting(s) && s.Live()
    ensures Update(s, t) == StartNext(s, t)
  {
    hide Shape, StartNext;
  }

  lemma WaitingWork(s: State)
    requires Discarded(s, s.eraseBank)
    ensures EraseWork(s) == EraseUpdates(s.bank)
  {
    hide CommandShape;
  }

  lemma SpareErases(s: State, w: nat, f: Flight, t: Tick)
    requires Sparing(s, w, f) && t.Works() && !t.busy && s.op != NoOp && s.erasing
    ensures Sparing(Update(s, t), w, f) && SpareWork(Update(s, t)) < SpareWork(s) && Update(s, t).bank == s.bank
  {
    hide Shape, Update, StartNext, EraseFinished, EraseWork, Content, SameBank, BankBlank, Sparing, SpareWork;
    SpareBank(s, w, f);
    EraseLeft(s, 1 - w);
    if s.eraseAddress > Base(s.bank, 1 - w) { SpareErasesOn(s, w, f, t); } else { SpareErased(s, w, f, t); }
  }

  lemma SpareErasesOn(s: State, w: nat, f: Flight, t: Tick)
    requires Sparing(s, w, f) && t.Works() && !t.busy && s.op != NoOp && s.erasing && s.bank > 0
    requires w <= 1 && s.eraseAddress > Base(s.bank, 1 - w)
    ensures Sparing(Update(s, t), w, f) && SpareWork(Update(s, t)) < SpareWork(s) && Update(s, t).bank == s.bank
  {
    hide Shape, Update, EraseWork, Content, SameBank, BankBlank, EraseUpdates;
    SpareBank(s, w, f);
    HoldingFacts(s, w, f);
    EraseGoesOn(s, 1 - w, t);
    SameBankKeeps(s.image, Update(s, t).image, s.bank, w);
  }

  lemma SpareErased(s: State, w: nat, f: Flight, t: Tick)
    requires Sparing(s, w, f) && t.Works() && !t.busy && s.op != NoOp && s.erasing
    requires w <= 1 && s.eraseAddress == Base(s.bank, 1 - w)
    ensures Sparing(Update(s, t), w, f) && SpareWork(Update(s, t)) < SpareWork(s) && Update(s, t).bank == s.bank
  {
    hide Shape, Update, StartNext, EraseFinished, EraseWork, Content, SameBank, BankBlank, EraseUpdates;
    SpareBank(s, w, f);
    HoldingFacts(s, w, f);
    EraseLeft(s, 1 - w);
    DrySize(s);
    EraseEnds(s, 1 - w, t);
    var e := EraseFinished(s);
    SameBankKeeps(s.image, e.image, s.bank, w);
    if e.finalise {
      BlankFlushable(e, w);
      SpareGoesOn(e, w, f, t);
    } else {
      NothingLeft(e, t);
    }
  }

  lemma SpareBank(s: State, w: nat, f: Flight)
    requires Sparing(s, w, f) && s.op != NoOp && s.erasing
    ensures ErasingBank(s, 1 - w) && (s.finalise ==> !s.retain) && (!s.finalise ==> s.queue == [])
    ensures Holding(s, w, f) && w <= 1 && s.bank > 0
  {
    hide CommandShape, Content;
  }

  lemma SpareFlush(s: State, w: nat, f: Flight, t: Tick)
    requires Sparing(s, w, f) && t.Works() && !t.busy && s.op != NoOp && !s.erasing
    ensures Sparing(Update(s, t), w, f) && SpareWork(Update(s, t)) < SpareWork(s) && Update(s, t).bank == s.bank
  {
    assert Flushing(s, w) && Shape(s) && Holding(s, w, f) && s.finalise && !s.retain;
    FlushDone(s, w);
    RecordFinishes(s, t);
    hide Shape, Update, StartNext, RecordDone, Content, SameBank, BankBlank;
    SameBankKeeps(s.image, RecordDone(s).image, s.bank, w);
    SpareGoesOn(RecordDone(s), w, f, t);
  }

  lemma SpareLeft(s: State, w: nat, f: Flight)
    requires Sparing(s, w, f)
    ensures Shape(s) && Geometry(s.image, s.bank) && w <= 1
    ensures SpareWork(s) >= 0 && (SpareWork(s) == 0 <==> s.op == NoOp && !s.erasing)
    ensures s.op == NoOp && !s.erasing ==> !s.Busy() && BankBlank(s.image, s.bank, 1 - w)
  {
    BankHasBlocks(s);
    DrySize(s);
    if s.op == EraseOp { EraseLeft(s, 1 - w); } else if s.erasing { WaitingWork(s); }
    hide CommandShape, Content, BankBlank;
  }

  lemma {:induction false} SpareRuns(s: State, w: nat, f: Flight, ticks: seq<Tick>)
    requires Sparing(s, w, f) && AllWork(ticks) && Answered(ticks) >= SpareWork(s)
    ensures Shape(s) && var u := Run(s, Ticks(ticks)); Sparing(u, w, f) && u.op == NoOp && !u.erasing && u.bank == s.bank
    decreases |ticks|
  {
    hide Shape, Update, Sparing, SpareWork;
    SpareLeft(s, w, f);
    if ticks != [] {
      var t := ticks[0];
      assert t.Works();
      assert Ticks(ticks)[1..] == Ticks(ticks[1..]);
      UpdateShape(s, t);
      if s.op == NoOp && !s.erasing {
        UpdateRests(s, t);
      } else if t.busy && s.op != NoOp {
        StallWaits(s, t);
      } else {
        SpareStep(s, w, f, t);
      }
      SpareRuns(Update(s, t), w, f, ticks[1..]);
    }
  }

  lemma DiscardStarts(s: State, a: State, t: Tick)
    requires Shape(s) && Sound(s) && s.op == FinalOp && Late(s, a) && a.finalise && !a.retain
    requires t.Works() && !t.busy
    ensures var u := Update(a, t);
      Sparing(u, s.writeBank, s.NewFlight()) && SpareWork(u) < Enough(s.bank) && u.bank == s.bank
  {
    hide Shape, Sound, Late, Finished, Update, Content, Clean, Completed, StartNext, BankBlank, SameBank, EraseWork;
    LateSpare(s);
    CommitCompletes(s, a, t);
    LateFacts(s, a);
    UpdateFinishes(a, t);
    DrySize(a);
    var d := Finished(a, t);
    if d.erasing {
      NothingToErase(d);
      EraseLaunches(d, 1 - s.writeBank, t);
      BlocksLeft(StartNext(d, t));
      SameBankKeeps(d.image, StartNext(d, t).image, d.bank, s.writeBank);
    } else {
      BlankFlushable(d, s.writeBank);
      SpareGoesOn(d, s.writeBank, s.NewFlight(), t);
    }
  }

  lemma {:induction false} DiscardingStopKeeps(s: State, a: State, ticks: seq<Tick>)
    requires Shape(s) && Sound(s) && s.op == FinalOp && Late(s, a) && a.finalise && !a.retain
    requires AllWork(ticks) && Answered(ticks) >= Enough(s.bank)
    ensures var u := Run(a, Ticks(ticks));
      Sparing(u, s.writeBank, s.NewFlight()) && u.op == NoOp && !u.erasing && u.bank == s.bank
    decreases |ticks|
  {
    hide Shape, Sound, Update, Sparing, SpareWork, EraseUpdates;
    LateFacts(s, a);
    var t := ticks[0];
    assert t.Works();
    assert Ticks(ticks)[1..] == Ticks(ticks[1..]);
    UpdateShape(a, t);
    if t.busy {
      StallWaits(a, t);
      DiscardingStopKeeps(s, a, ticks[1..]);
    } else {
      hide Late;
      DiscardStarts(s, a, t);
      SpareRuns(Update(a, t), s.writeBank, s.NewFlight(), ticks[1..]);
    }
  }

  lemma SparedOnChip(u: State, w: nat, f: Flight)
    requires Sparing(u, w, f) && u.op == NoOp && !u.erasing
    ensures Shape(u) && Geometry(u.image, u.bank) && w <= 1 && !u.Busy() && Holding(u, w, f)
    ensures Found(u.image, u.bank) == Some(f) && HeaderBlank(u.image, u.bank, 1 - w) && Clean(u.image, u.bank, 1 - w)
  {
    SpareLeft(u, w, f);
    BlankContent(u.image, u.bank, 1 - w);
    FoundIn(u.image, u.bank, w);
    hide Shape, Content, Found, Selected;
  }

  // ------------------------------------------------- records during the commit

  /** Of `total` bytes that start at `from`, those that fill pages. */
  function PageBytes(from: nat, total: nat): (p: nat)
    ensures p <= total
  {
    var room := PAGE - from % PAGE;
    if total < room then 0 else room + (total - room) / PAGE * PAGE
  }

  /** Whole pages are programmed, and what is left does not fill the next one. */
  lemma PagesFilled(from: nat, p: nat, total: nat)
    requires p == 0 || PageRoom(from + p) == PAGE
    requires p <= total && total - p < PageRoom(from + p)
    ensures p == PageBytes(from, total)
  {}

  /** The spare bank is being erased while the records wait. */
  predicate Waiting(s: State, w: nat, f: Flight, n: nat, rs: seq<Record>) {
    Holding(s, w, f) && ErasingBank(s, 1 - w) && !s.finalise && s.queue == rs && s.offset == 0 && s.recordCount == n
  }

  /** How many bytes of the records are on the chip. */
  function Spilt(s: State, n: nat): int { 60 * (s.recordCount - n) + s.offset }

  /** Bank `o` is blank but for `p` bytes of the stream from `at` on. */
  predicate Stained(image: seq<byte>, bank: nat, o: nat, at: nat, stream: seq<byte>, p: nat)
    requires Geometry(image, bank) && o <= 1
  {
    && Base(bank, o) + HEADER_BYTES <= at && p <= |stream| && at + |stream| <= Base(bank, o) + bank
    && BlankFrom(image, Base(bank, o), at) && At(image, at, stream[..p]) && BlankFrom(image, at + p, Base(bank, o) + bank)
  }

  /** The bytes from `a` to the end of its page. */
  function PageRoom(a: int): (r: nat)
    ensures 1 <= r <= PAGE
  {
    PAGE - a % 256
  }

  function SpillAt(s: State, n: nat): nat { Base(s.bank, s.writeBank) + HEADER_BYTES + 60 * n }

  /** Of the records, `count - n` and a piece of the next have gone to bank `o`, page by page; the others are queued. */
  predicate Gone(image: seq<byte>, bank: nat, o: nat, count: nat, offset: nat, queue: seq<Record>, n: nat, rs: seq<Record>)
    requires Geometry(image, bank) && o <= 1
  {
    var at := Base(bank, o) + HEADER_BYTES + 60 * n;
    && n <= count <= n + |rs| && queue == rs[count - n..]
    && Stained(image, bank, o, at, Stream(rs), 60 * (count - n) + offset)
    && (60 * (count - n) + offset == 0 || PageRoom(at + (60 * (count - n) + offset)) == PAGE)
  }

  /** The records go behind the blank header of the spare bank. */
  predicate Spilling(s: State, w: nat, f: Flight, n: nat, rs: seq<Record>) {
    && Holding(s, w, f) && !s.finalise && !s.erasing && s.writeBank == 1 - w
    && Gone(s.image, s.bank, s.writeBank, s.recordCount, s.offset, s.queue, n, rs)
  }

  /** What is programmed next: the rest of the page, if the records fill it. */
  predicate PageFlying(s: State, n: nat, rs: seq<Record>) {
    var p, len := Spilt(s, n), PageRoom(s.RecordAddress());
    if s.op == NoOp then 60 * |rs| - p < len
    else s.op == RecordOp && 0 <= p && p + len <= |Stream(rs)| &&
         s.flying == Program(s.RecordAddress(), Stream(rs)[p..p + len])
  }

  predicate Spills(s: State, w: nat, f: Flight, n: nat, rs: seq<Record>) {
    Spilling(s, w, f, n, rs) && PageFlying(s, n, rs)
  }

  lemma SpillFacts(s: State, w: nat, f: Flight, n: nat, rs: seq<Record>)
    requires Spilling(s, w, f, n, rs)
    ensures Geometry(s.image, s.bank) && s.Live() && s.offset < 60 && |Stream(rs)| == 60 * |rs| && w <= 1
    ensures s.QueuedBytes() == 60 * |rs| - Spilt(s, n) >= 0 && s.RecordAddress() == SpillAt(s, n) + Spilt(s, n)
    ensures s.queue == [] ==> Spilt(s, n) == 60 * |rs|
  {
    hide CommandShape, Content, Stream, Stained, PageRoom;
  }

  /** The next page program, of the queued bytes. */
  lemma PageOfQueue(s: State)
    requires Resting(s) && s.Live() && s.queue != [] && s.QueuedBytes() >= PageRoom(s.RecordAddress())
    ensures s.offset + PageRoom(s.RecordAddress()) <= |Stream(s.queue)|
    ensures RecordCommand(s) == Program(s.RecordAddress(), Stream(s.queue)[s.offset..s.offset + PageRoom(s.RecordAddress())])
  {
    RecordCommandIs(s);
    hide Shape, Stream, RecordCommand;
  }

  /** The same, of all the records. */
  lemma SpillPiece(s: State, w: nat, f: Flight, n: nat, rs: seq<Record>, len: nat)
    requires Spilling(s, w, f, n, rs) && Resting(s) && s.queue != [] && s.QueuedBytes() >= PageRoom(s.RecordAddress())
    requires len == PageRoom(s.RecordAddress())
    ensures 0 <= Spilt(s, n) && Spilt(s, n) + len <= |Stream(rs)|
    ensures RecordCommand(s) == Program(s.RecordAddress(), Stream(rs)[Spilt(s, n)..Spilt(s, n) + len])
  {
    hide Shape, Stream, Content, Stained, RecordCommand, PageRoom, State.RecordAddress;
    SpillFacts(s, w, f, n, rs);
    PageOfQueue(s);
    QueuePiece(rs, s.recordCount - n, s.offset, s.offset + len);
  }

  /** Whatever is in flight, the chip and the queue are as before. */
  lemma SpillLaunched(s: State, c: Command, w: nat, f: Flight, n: nat, rs: seq<Record>)
    requires Spilling(s, w, f, n, rs) && Shape(s.(flying := c, op := RecordOp))
    ensures Spilling(s.(flying := c, op := RecordOp), w, f, n, rs)
  {
    hide Shape, Content, Gone;
  }

  lemma SpillNext(s: State, w: nat, f: Flight, n: nat, rs: seq<Record>, t: Tick)
    requires Spilling(s, w, f, n, rs) && Resting(s) && t.Works()
    ensures var u := StartNext(s, t); Spills(u, w, f, n, rs) && Spilt(u, n) == Spilt(s, n) && u.bank == s.bank
  {
    hide Shape, Stream, Holding, Gone, RecordCommand, PageRoom, StartRecord, State.RecordAddress, State.QueuedBytes;
    SpillFacts(s, w, f, n, rs);
    if s.queue != [] {
      StartRecordShape(s, t);
      PageStarts(s, t);
      if s.QueuedBytes() >= PageRoom(s.RecordAddress()) {
        SpillPiece(s, w, f, n, rs, PageRoom(s.RecordAddress()));
        SpillLaunched(s, RecordCommand(s), w, f, n, rs);
        SameAddress(s, RecordCommand(s));
      }
    }
  }

  lemma SameAddress(s: State, c: Command)
    ensures s.(flying := c, op := RecordOp).RecordAddress() == s.RecordAddress()
  {}

  lemma PageStarts(s: State, t: Tick)
    requires Resting(s) && s.Live() && s.queue != [] && !s.finalise && t.Works()
    ensures StartRecord(s, t) == if s.QueuedBytes() < PageRoom(s.RecordAddress()) then s
                                 else s.(flying := RecordCommand(s), op := RecordOp)
  {
    StartRecordSteps(s, t);
    hide Shape, RecordCommand, StartRecord;
  }

  lemma SpillFlying(s: State, w: nat, f: Flight, n: nat, rs: seq<Record>)
    requires Spills(s, w, f, n, rs) && s.op == RecordOp
    ensures Geometry(s.image, s.bank) && w <= 1 && s.writeBank == 1 - w && 0 <= Spilt(s, n)
    ensures Stained(s.image, s.bank, 1 - w, SpillAt(s, n), Stream(rs), Spilt(s, n))
    ensures Content(s.image, s.bank, w) == Some(f) && Fits(s.image, s.flying) && s.flying.Program?
    ensures var p, c := Spilt(s, n), s.flying;
      && c.addr == SpillAt(s, n) + p == s.RecordAddress() && |c.data| == PageRoom(c.addr) && p + |c.data| <= |Stream(rs)| == 60 * |rs|
      && c.data == Stream(rs)[p..p + |c.data|]
  {
    hide Shape, Stream, Content, Gone, PageRoom, Stained, State.RecordAddress;
    SpillFacts(s, w, f, n, rs);
    GoneStained(s, w, f, n, rs);
    ShapeFacts(s);
  }

  lemma GoneStained(s: State, w: nat, f: Flight, n: nat, rs: seq<Record>)
    requires Spilling(s, w, f, n, rs)
    ensures Shape(s) && Geometry(s.image, s.bank) && w <= 1 && 0 <= Spilt(s, n)
    ensures Stained(s.image, s.bank, 1 - w, SpillAt(s, n), Stream(rs), Spilt(s, n))
  {
    hide Holding, Stream, Stained, PageRoom;
    HoldingFacts(s, w, f);
  }

  lemma SpillStores(s: State, w: nat, f: Flight, n: nat, rs: seq<Record>)
    requires Spills(s, w, f, n, rs) && s.op == RecordOp
    ensures Fits(s.image, s.flying) && Geometry(Completed(s.image, s.flying), s.bank) && s.flying.Program? && w <= 1
    ensures 0 <= Spilt(s, n) && var after := Completed(s.image, s.flying);
      && Stained(after, s.bank, 1 - w, SpillAt(s, n), Stream(rs), Spilt(s, n) + |s.flying.data|)
      && Content(after, s.bank, w) == Some(f)
  {
    hide Shape, Spills, Content, Cut, Stream, SameBank, Clean, BankBlank, Stained, SpillAt, Spilt, Base;
    SpillFlying(s, w, f, n, rs);
    var at, p, c := SpillAt(s, n), Spilt(s, n), s.flying;
    StainedBlank(s.image, s.bank, 1 - w, at, Stream(rs), p, c.addr, c.addr + |c.data|);
    BlankProgram(s.image, c.addr, c.data, PAGE);
    CutInside(s.image, s.bank, 1 - w, c, PAGE);
    SameBankKeeps(s.image, Completed(s.image, c), s.bank, w);
    StainGrows(s.image, Completed(s.image, c), s.bank, 1 - w, at, Stream(rs), p, c.data);
  }

  lemma StainedBlank(image: seq<byte>, bank: nat, o: nat, at: nat, stream: seq<byte>, p: nat, from: nat, to: nat)
    requires Geometry(image, bank) && o <= 1 && Stained(image, bank, o, at, stream, p) && at + p <= from <= to <= at + |stream|
    ensures BlankFrom(image, from, to) && Base(bank, o) <= from && to <= Base(bank, o) + bank
  {}

  lemma StainGrows(image: seq<byte>, after: seq<byte>, bank: nat, o: nat, at: nat, stream: seq<byte>, p: nat, data: seq<byte>)
    requires Geometry(image, bank) && o <= 1 && Stained(image, bank, o, at, stream, p)
    requires p + |data| <= |stream| && data == stream[p..p + |data|] && Stored(image, after, at + p, data)
    ensures Stained(after, bank, o, at, stream, p + |data|)
  {
    forall i | at <= i < at + p + |data| ensures after[i] == stream[..p + |data|][i - at] {
      if i < at + p { assert image[i] == stream[..p][i - at]; } else { assert after[i] == data[i - (at + p)]; }
    }
  }

  lemma SpillDone(s: State, w: nat, f: Flight, n: nat, rs: seq<Record>)
    requires Spills(s, w, f, n, rs) && s.op == RecordOp
    ensures var c := RecordDone(s); Spilling(c, w, f, n, rs) && Resting(c) && Spilt(c, n) > Spilt(s, n) && c.bank == s.bank
  {
    assert Shape(s);
    SpillFacts(s, w, f, n, rs);
    SpillFlying(s, w, f, n, rs);
    hide Content, Completed, Shape, Stream, Stained, RecordDone, PageFlying, Spilling, Base;
    WholeRecords(s.offset + |s.flying.data|, |s.queue|);
    SpillReleased(s, w, f, n, rs, (s.offset + |s.flying.data|) / 60, (s.offset + |s.flying.data|) % 60);
  }

  /** The same, with the released records counted. */
  lemma SpillReleased(s: State, w: nat, f: Flight, n: nat, rs: seq<Record>, released: nat, offset: nat)
    requires Spills(s, w, f, n, rs) && s.op == RecordOp && s.flying.Program? && offset < 60 && released <= |s.queue|
    requires 60 * released + offset == s.offset + |s.flying.data|
    ensures var c := RecordDone(s); Spilling(c, w, f, n, rs) && Resting(c) && Spilt(c, n) > Spilt(s, n) && c.bank == s.bank
  {
    hide Content, Completed, Shape, Stream, Stained, RecordDone, Spills, Spilling, SpillAt, Base, State.RecordAddress;
    SpillParts(s, w, f, n, rs);
    SpillStores(s, w, f, n, rs);
    RecordDoneShape(s);
    RecordDoneIs(s, released, offset);
    SpillFlying(s, w, f, n, rs);
    SpillMoves(s, RecordDone(s), w, f, n, rs, released, |s.flying.data|);
  }

  lemma SpillParts(s: State, w: nat, f: Flight, n: nat, rs: seq<Record>)
    requires Spills(s, w, f, n, rs)
    ensures Spilling(s, w, f, n, rs) && Shape(s)
  {}

  /** `len` more bytes of the records are on the chip, up to the end of the page. */
  lemma SpillMoves(s: State, c: State, w: nat, f: Flight, n: nat, rs: seq<Record>, released: nat, len: nat)
    requires Spilling(s, w, f, n, rs) && Shape(c) && released <= |s.queue| && len == PageRoom(s.RecordAddress())
    requires c.phase == s.phase && c.available == s.available && c.recording == s.recording && c.erasing == s.erasing
    requires c.startPending == s.startPending && c.clearSecond == s.clearSecond && c.retained == s.retained
    requires c.finalise == s.finalise && c.writeBank == s.writeBank && c.bank == s.bank
    requires c.recordCount == s.recordCount + released && c.queue == s.queue[released..]
    requires 60 * released + c.offset == s.offset + len
    requires Geometry(c.image, c.bank) && Content(c.image, c.bank, w) == Some(f)
    requires Stained(c.image, s.bank, 1 - w, SpillAt(s, n), Stream(rs), Spilt(s, n) + len)
    ensures Spilling(c, w, f, n, rs) && Spilt(c, n) == Spilt(s, n) + len
  {
    hide Content, Shape, Stream, Stained, PageRoom, Gone;
    SpillFacts(s, w, f, n, rs);
    GoneMoves(s.image, c.image, s.bank, 1 - w, s.recordCount, s.offset, s.queue, n, rs, released, c.offset, len);
  }

  /** Some more of the records are gone. */
  lemma GoneMoves(image: seq<byte>, after: seq<byte>, bank: nat, o: nat, count: nat, offset: nat, queue: seq<Record>, n: nat,
                  rs: seq<Record>, released: nat, rest: nat, len: nat)
    requires Geometry(image, bank) && Geometry(after, bank) && o <= 1 && Gone(image, bank, o, count, offset, queue, n, rs)
    requires released <= |queue| && 60 * released + rest == offset + len
    requires var at := Base(bank, o) + HEADER_BYTES + 60 * n; var p := 60 * (count - n) + offset;
      len == PageRoom(at + p) && Stained(after, bank, o, at, Stream(rs), p + len)
    ensures Gone(after, bank, o, count + released, rest, queue[released..], n, rs)
  {
    hide Stream, Stained, PageRoom;
    var at := Base(bank, o) + HEADER_BYTES + 60 * n;
    PageEnds(at + (60 * (count - n) + offset));
    assert rs[count - n..][released..] == rs[count - n + released..];
  }

  lemma PageEnds(a: nat)
    ensures PageRoom(a + PageRoom(a)) == PAGE
  {}

  lemma WholeRecords(bytes: nat, queued: nat)
    ensures 60 * (bytes / 60) + bytes % 60 == bytes && bytes % 60 < 60
    ensures bytes <= 60 * queued ==> bytes / 60 <= queued
  {}

  function SpillWork(s: State, n: nat, rs: seq<Record>): int {
    if s.erasing then EraseWork(s) + 60 * |rs| else if s.op == NoOp then 0 else 60 * |rs| - Spilt(s, n)
  }

  predicate Leaks(s: State, w: nat, f: Flight, n: nat, rs: seq<Record>) {
    if s.erasing then Waiting(s, w, f, n, rs) else Spills(s, w, f, n, rs)
  }

  lemma LeakErases(s: State, w: nat, f: Flight, n: nat, rs: seq<Record>, t: Tick)
    requires Waiting(s, w, f, n, rs) && t.Works() && !t.busy
    ensures var u := Update(s, t);
      Leaks(u, w, f, n, rs) && SpillWork(u, n, rs) < SpillWork(s, n, rs) && u.bank == s.bank
  {
    hide Shape, Update, StartNext, EraseFinished, EraseWork, Content, SameBank, BankBlank, Stained, Stream;
    EraseLeft(s, 1 - w);
    HoldingFacts(s, w, f);
    if s.eraseAddress > Base(s.bank, 1 - w) {
      EraseGoesOn(s, 1 - w, t);
      SameBankKeeps(s.image, Update(s, t).image, s.bank, w);
    } else {
      EraseEnds(s, 1 - w, t);
      SameBankKeeps(s.image, EraseFinished(s).image, s.bank, w);
      var e := EraseFinished(s);
      SpillBegins(e, w, f, n, rs);
      SpillNext(e, w, f, n, rs, t);
      SpillLeft(Update(s, t), w, f, n, rs);
    }
  }

  lemma HoldingFacts(s: State, w: nat, f: Flight)
    requires Holding(s, w, f)
    ensures Geometry(s.image, s.bank) && w <= 1 && Shape(s)
  {}

  lemma SpillBegins(e: State, w: nat, f: Flight, n: nat, rs: seq<Record>)
    requires Holding(e, w, f) && !e.finalise && !e.erasing && e.writeBank == 1 - w && e.offset == 0
    requires e.recordCount == n && e.queue == rs && BankBlank(e.image, e.bank, 1 - w)
    ensures Spilling(e, w, f, n, rs) && Spilt(e, n) == 0
  {
    ShapeGeometry(e);
    assert rs[0..] == rs;
    hide Shape, Content, Stream;
  }

  lemma SpillLeft(u: State, w: nat, f: Flight, n: nat, rs: seq<Record>)
    requires Spills(u, w, f, n, rs)
    ensures !u.erasing && 0 <= SpillWork(u, n, rs) <= 60 * |rs| - Spilt(u, n)
    ensures SpillWork(u, n, rs) == 0 <==> u.op == NoOp
    ensures u.op == NoOp || u.op == RecordOp
  {
    SpillFacts(u, w, f, n, rs);
    hide Shape, Content, Stream, Stained;
  }

  lemma LeakSpills(s: State, w: nat, f: Flight, n: nat, rs: seq<Record>, t: Tick)
    requires Spills(s, w, f, n, rs) && s.op == RecordOp && t.Works() && !t.busy
    ensures var u := Update(s, t);
      Leaks(u, w, f, n, rs) && SpillWork(u, n, rs) < SpillWork(s, n, rs) && u.bank == s.bank
  {
    SpillParts(s, w, f, n, rs);
    SpillDone(s, w, f, n, rs);
    RecordFinishes(s, t);
    hide Shape, Update, StartNext, RecordDone, Content, Stained, Stream, Spilling, PageFlying, Spilt;
    SpillNext(RecordDone(s), w, f, n, rs, t);
    SpillLeft(s, w, f, n, rs);
    SpillLeft(Update(s, t), w, f, n, rs);
  }

  lemma RecordFinishes(s: State, t: Tick)
    requires Shape(s) && s.op == RecordOp && !t.busy
    ensures Resting(RecordDone(s)) && RecordDone(s).Live() && Update(s, t) == StartNext(RecordDone(s), t)
  {
    RecordDoneShape(s);
    hide CommandShape, Completed, StartNext;
  }

  lemma SpillRests(s: State, w: nat, f: Flight, n: nat, rs: seq<Record>, t: Tick)
    requires Spills(s, w, f, n, rs) && s.op == NoOp
    ensures Shape(s) && Update(s, t) == s
  {
    SpillFacts(s, w, f, n, rs);
    hide CommandShape, Content, Stained, Stream;
  }

  lemma {:induction false} LeakRuns(s: State, w: nat, f: Flight, n: nat, rs: seq<Record>, ticks: seq<Tick>)
    requires Shape(s) && Leaks(s, w, f, n, rs) && AllWork(ticks) && Answered(ticks) >= SpillWork(s, n, rs)
    ensures var u := Run(s, Ticks(ticks)); Spills(u, w, f, n, rs) && u.op == NoOp && u.bank == s.bank
    decreases |ticks|
  {
    hide Shape, Update, Waiting, Spills, SpillWork;
    LeakFacts(s, w, f, n, rs);
    if ticks != [] {
      var t := ticks[0];
      assert t.Works();
      assert Ticks(ticks)[1..] == Ticks(ticks[1..]);
      UpdateShape(s, t);
      if s.op == NoOp {
        SpillRests(s, w, f, n, rs, t);
      } else if t.busy {
        StallWaits(s, t);
      } else if s.erasing {
        LeakErases(s, w, f, n, rs, t);
      } else {
        LeakSpills(s, w, f, n, rs, t);
      }
      LeakRuns(Update(s, t), w, f, n, rs, ticks[1..]);
    }
  }

  lemma LeakFacts(s: State, w: nat, f: Flight, n: nat, rs: seq<Record>)
    requires Leaks(s, w, f, n, rs)
    ensures SpillWork(s, n, rs) >= 0 && (SpillWork(s, n, rs) == 0 <==> s.op == NoOp)
    ensures s.op == NoOp || s.op == RecordOp || s.op == EraseOp
    ensures s.op == NoOp || s.op == RecordOp ==> !s.erasing
    ensures s.op == EraseOp ==> s.erasing
  {
    hide Spills;
    if s.erasing { EraseLeft(s, s.eraseBank); } else { SpillLeft(s, w, f, n, rs); }
  }

  lemma {:induction false} LeakWaits(s: State, a: State, rs: seq<Record>, ticks: seq<Tick>)
    requires Shape(s) && Sound(s) && s.op == FinalOp && Late(s, a) && !a.finalise && a.queue == rs
    requires AllWork(ticks) && Answered(ticks) >= Enough(s.bank)
    ensures var u := Run(a, Ticks(ticks));
      Spills(u, s.writeBank, s.NewFlight(), s.recordCount, rs) && u.op == NoOp && u.bank == s.bank
    decreases |ticks|
  {
    hide Shape, Sound, Update, Leaks, Spills, SpillWork, EraseUpdates;
    LateFacts(s, a);
    var t := ticks[0];
    assert t.Works();
    assert Ticks(ticks)[1..] == Ticks(ticks[1..]);
    UpdateShape(a, t);
    if t.busy {
      StallWaits(a, t);
      LeakWaits(s, a, rs, ticks[1..]);
    } else {
      hide Late;
      LeakStarts(s, a, rs, t);
      LeakRuns(Update(a, t), s.writeBank, s.NewFlight(), s.recordCount, rs, ticks[1..]);
    }
  }

  lemma LeakStarts(s: State, a: State, rs: seq<Record>, t: Tick)
    requires Shape(s) && Sound(s) && s.op == FinalOp && Late(s, a) && !a.finalise && a.queue == rs
    requires t.Works() && !t.busy
    ensures var u := Update(a, t);
      && Leaks(u, s.writeBank, s.NewFlight(), s.recordCount, rs) && u.bank == s.bank
      && SpillWork(u, s.recordCount, rs) < Enough(s.bank)
  {
    CommitLedger(s);
    CommitCompletes(s, a, t);
    UpdateFinishes(a, t);
    BankHasBlocks(s);
    ShapeGeometry(a);
    var d := Finished(a, t);
    assert d.recordCount == s.recordCount && d.queue == rs && d.bank == s.bank;
    hide Shape, Sound, Finished, Update, StartNext, Leaks, SpillWork, AfterCommit, Late, EraseUpdates;
    LeakFrom(a, d, s.NewFlight(), rs, t);
  }

  lemma LeakFrom(a: State, d: State, f: Flight, rs: seq<Record>, t: Tick)
    requires a.writeBank <= 1 && AfterCommit(a, d, f) && !d.finalise && d.queue == rs && t.Works()
    ensures var u := StartNext(d, t);
      && Leaks(u, a.writeBank, f, d.recordCount, rs) && u.bank == d.bank
      && SpillWork(u, d.recordCount, rs) <= if d.erasing then EraseUpdates(d.bank) - 1 + 60 * |rs| else 60 * |rs|
  {
    var w, n := a.writeBank, d.recordCount;
    hide Shape, Content, StartNext, BankBlank, SameBank, EraseWork, Spills;
    if d.erasing {
      NothingToErase(d);
      EraseLaunches(d, 1 - w, t);
      BlocksLeft(StartNext(d, t));
      SameBankKeeps(d.image, StartNext(d, t).image, d.bank, w);
    } else {
      SpillBegins(d, w, f, n, rs);
      SpillNext(d, w, f, n, rs, t);
      SpillLeft(StartNext(d, t), w, f, n, rs);
    }
  }

  /** How much of the records ends up on the chip. */
  function Leaked(n: nat, rs: seq<Record>): (p: nat)
    ensures p <= |Stream(rs)|
  {
    PageBytes(60 * n, 60 * |rs|)
  }

  lemma SpillEnds(u: State, w: nat, f: Flight, n: nat, rs: seq<Record>)
    requires Spills(u, w, f, n, rs) && u.op == NoOp
    ensures Shape(u) && Geometry(u.image, u.bank) && w <= 1 && Spilt(u, n) == Leaked(n, rs)
    ensures u.Busy() <==> Leaked(n, rs) < 60 * |rs|
  {
    hide Spills, Shape, PageBytes, SpillAt, Spilt, PageRoom, State.Busy;
    SpillQuiet(u, w, f, n, rs);
    SpillAligned(u, n);
    PagesFilled(SpillAt(u, n), Spilt(u, n), 60 * |rs|);
    SamePages(SpillAt(u, n), 60 * n, 60 * |rs|);
    SpillIdle(u, w, f, n, rs);
  }

  lemma SpillQuiet(u: State, w: nat, f: Flight, n: nat, rs: seq<Record>)
    requires Spills(u, w, f, n, rs) && u.op == NoOp
    ensures Shape(u) && Geometry(u.image, u.bank) && w <= 1 && 0 <= Spilt(u, n) <= 60 * |rs|
    ensures Spilt(u, n) == 0 || PageRoom(SpillAt(u, n) + Spilt(u, n)) == PAGE
    ensures 60 * |rs| - Spilt(u, n) < PageRoom(SpillAt(u, n) + Spilt(u, n))
  {
    hide Holding, Stream, Stained, PageRoom, Gone, Shape, Spilt, SpillAt, State.RecordAddress, State.QueuedBytes;
    SpillFacts(u, w, f, n, rs);
    GoneStained(u, w, f, n, rs);
    GoneAligned(u, w, f, n, rs);
  }

  lemma GoneAligned(s: State, w: nat, f: Flight, n: nat, rs: seq<Record>)
    requires Spilling(s, w, f, n, rs)
    ensures Spilt(s, n) <= 60 * |rs| && (Spilt(s, n) == 0 || PageRoom(SpillAt(s, n) + Spilt(s, n)) == PAGE)
  {
    SpillFacts(s, w, f, n, rs);
    hide Holding, Stream, Stained, PageRoom;
  }

  lemma SpillIdle(u: State, w: nat, f: Flight, n: nat, rs: seq<Record>)
    requires Spills(u, w, f, n, rs) && u.op == NoOp
    ensures Shape(u) && (u.Busy() <==> Spilt(u, n) < 60 * |rs|)
  {
    SpillFacts(u, w, f, n, rs);
    GoneStained(u, w, f, n, rs);
    IdleBusy(u);
    hide Shape, Holding, Gone, Stream, Stained, PageRoom, State.Busy;
  }

  lemma IdleBusy(u: State)
    requires Shape(u) && u.op == NoOp && !u.erasing && !u.finalise
    ensures u.Busy() <==> 0 < u.QueuedBytes()
  {
    hide CommandShape;
  }

  lemma SpillAligned(u: State, n: nat)
    requires Shape(u)
    ensures SpillAt(u, n) % PAGE == (60 * n) % PAGE
  {
    ShapeGeometry(u);
    hide Shape;
    if u.writeBank == 0 { WholePages(60 * n, 1); } else { WholePages(60 * n, u.bank / 256 + 1); }
  }

  lemma WholePages(a: nat, q: nat)
    ensures (256 * q + a) % 256 == a % 256
  {}

  lemma SamePages(a: nat, b: nat, total: nat)
    requires a % PAGE == b % PAGE
    ensures PageBytes(a, total) == PageBytes(b, total)
  {}

  predicate AllBlank(data: seq<byte>, p: nat)
    requires p <= |data|
  {
    forall k :: 0 <= k < p ==> data[k] == BLANK
  }

  lemma StainClean(image: seq<byte>, bank: nat, o: nat, at: nat, stream: seq<byte>, p: nat)
    requires Geometry(image, bank) && o <= 1 && Stained(image, bank, o, at, stream, p)
    ensures HeaderBlank(image, bank, o) && Content(image, bank, o) == None
    ensures Clean(image, bank, o) <==> AllBlank(stream, p)
  {
    assert image[Base(bank, o)] == BLANK;
    NoMagic(image, bank, o);
    hide Content;
    if Clean(image, bank, o) {
      forall i | 0 <= i < p ensures stream[i] == BLANK { assert image[at + i] == stream[..p][at + i - at]; }
    }
  }

  /** What the reader gets at rest from the retained bank. */
  lemma HeldReadable(u: State, w: nat, f: Flight, id: nat, i: nat)
    requires Holding(u, w, f)
    ensures Shape(u) && GetRecord(u, id, i, true) == if u.Busy() then None else ReadFrom(Some(f), id, i)
  {
    hide CommandShape, HeaderValid, RecordAt;
  }

  // ------------------------------------------------- whatever is called during the commit

  /** The commit in flight after any calls: what has been asked for, and what has been queued. */
  lemma LateCalls(s: State, calls: seq<Event>)
    requires Shape(s) && Sound(s) && s.op == FinalOp && forall e :: e in calls ==> Call(e)
    ensures var a := Run(s, calls);
      && Late(s, a) && a.finalise == (s.finalise || LastStop(calls).Some?)
      && (LastStop(calls).Some? ==> a.retain == LastStop(calls).value) && (s.finalise ==> !s.retain)
      && (LastStop(calls).None? ==> a.retain == s.retain) && a.queue == Queued(s, calls)
  {
    hide Shape, Sound, Late, RoomOf, Taken, Run, LastStop, Call;
    LedgerStop(s);
    CallsTake(s, s, calls);
    EmptyFront(s.queue, Taken(calls, s.finalise, RoomOf(s)));
  }

  lemma EmptyFront(a: seq<Record>, c: seq<Record>)
    ensures a == [] ==> a + c == c
  {}

  lemma LedgerStop(s: State)
    requires Shape(s) && Sound(s) && s.op == FinalOp
    ensures Late(s, s) && 0 < s.recordCount && s.queue == [] && (s.finalise ==> !s.retain)
  {
    CommitLedger(s);
    hide Shape, Sound, Late, OnChip, BothClean;
  }

  /** The records that are queued for the spare bank. */
  function Queued(s: State, calls: seq<Event>): seq<Record> { Taken(calls, s.finalise, RoomOf(s)) }

  predicate Stops(s: State, calls: seq<Event>) { s.finalise || LastStop(calls).Some? }

  lemma {:induction false} RunShape(s: State, events: seq<Event>)
    requires Shape(s)
    ensures Shape(Run(s, events))
    decreases |events|
  {
    hide Shape, Step;
    if events != [] {
      StepShape(s, events[0]);
      RunShape(Step(s, events[0]), events[1..]);
    }
  }

  /** The calls, and then updates only. */
  function Afterwards(s: State, calls: seq<Event>, ticks: seq<Tick>): State
    requires Shape(s)
  {
    RunShape(s, calls);
    Run(Run(s, calls), Ticks(ticks))
  }

  /** Whatever is called during a commit, on top of any retained flight or none: once the driver has
      nothing left to do the newly committed flight is found if and only if the last stop, if any, does
      not retain. */
  lemma StopDuringCommit(s: State, calls: seq<Event>, ticks: seq<Tick>)
    requires Shape(s) && Sound(s) && s.op == FinalOp && forall e :: e in calls ==> Call(e)
    requires AllWork(ticks) && Answered(ticks) >= Enough(s.bank)
    ensures var u := Afterwards(s, calls, ticks);
      && Geometry(u.image, s.bank)
      && (Found(u.image, s.bank) == Some(s.NewFlight()) <==> LastStop(calls) != Some(true))
      && (LastStop(calls) == Some(true) ==> !u.Busy() && Found(u.image, s.bank) == None)
  {
    hide Shape, Sound, Run, Late, Found, LastStop, Queued, Enough, AllWork, Stream, State.Busy;
    LateCalls(s, calls);
    var a := Run(s, calls);
    if LastStop(calls) == Some(true) {
      RunShape(s, calls);
      RetainingStopLoses(s, a, ticks);
      ShapeFacts(Afterwards(s, calls, ticks));
    } else {
      CallsLeave(s, calls, ticks);
    }
  }

  /** What calls without a retaining stop leave on the chip. */
  predicate Leaves(s: State, u: State, stopped: bool, rs: seq<Record>)
    requires Shape(s)
  {
    && Shape(u) && u.bank == s.bank && Geometry(u.image, s.bank) && s.writeBank <= 1
    && Holding(u, s.writeBank, s.NewFlight())
    && Found(u.image, s.bank) == Some(s.NewFlight()) && HeaderBlank(u.image, s.bank, 1 - s.writeBank)
    && (Clean(u.image, s.bank, 1 - s.writeBank) <==> stopped || AllBlank(Stream(rs), Leaked(s.recordCount, rs)))
    && (u.Busy() <==> !stopped && Leaked(s.recordCount, rs) < 60 * |rs|)
  }

  lemma CallsLeave(s: State, calls: seq<Event>, ticks: seq<Tick>)
    requires Shape(s) && Sound(s) && s.op == FinalOp && forall e :: e in calls ==> Call(e)
    requires LastStop(calls) != Some(true) && AllWork(ticks) && Answered(ticks) >= Enough(s.bank)
    ensures Leaves(s, Afterwards(s, calls, ticks), Stops(s, calls), Queued(s, calls))
  {
    hide Shape, Sound, Run, Late, Found, LastStop, Queued, Enough, AllWork, Stream, State.Busy;
    hide Sparing, Spills, Content, Clean, HeaderBlank, AllBlank, Leaked, Holding;
    LateCalls(s, calls);
    LateFacts(s, s) by { CommitLedger(s); }
    var a := Run(s, calls);
    var u := Afterwards(s, calls, ticks);
    if Stops(s, calls) {
      DiscardingStopKeeps(s, a, ticks);
      SparedOnChip(u, s.writeBank, s.NewFlight());
    } else {
      LeakWaits(s, a, Queued(s, calls), ticks);
      LeftOnChip(u, s.writeBank, s.NewFlight(), s.recordCount, Queued(s, calls));
      SpillHolds(u, s.writeBank, s.NewFlight(), s.recordCount, Queued(s, calls));
    }
  }

  /** Whatever is called during a commit but a retaining stop: the committed flight stays on the chip and
      the spare bank gets a blank header.  After a stop the whole spare bank is blank; without one it
      is blank if and only if the bytes of the accepted records up to the last page they fill all are,
      and the flight can be read if and only if the records end with a page. */
  lemma AppendDuringCommit(s: State, calls: seq<Event>, ticks: seq<Tick>, id: nat, i: nat)
    requires Shape(s) && Sound(s) && s.op == FinalOp && forall e :: e in calls ==> Call(e)
    requires LastStop(calls) != Some(true) && AllWork(ticks) && Answered(ticks) >= Enough(s.bank)
    ensures var u, rs := Afterwards(s, calls, ticks), Queued(s, calls);
      && Geometry(u.image, s.bank) && s.writeBank <= 1 && u.bank == s.bank
      && Found(u.image, s.bank) == Some(s.NewFlight()) && HeaderBlank(u.image, s.bank, 1 - s.writeBank)
      && (Clean(u.image, s.bank, 1 - s.writeBank) <==> Stops(s, calls) || AllBlank(Stream(rs), Leaked(s.recordCount, rs)))
      && (u.Busy() <==> !Stops(s, calls) && Leaked(s.recordCount, rs) < 60 * |rs|)
      && GetRecord(u, id, i, true) == if u.Busy() then None else ReadFrom(Some(s.NewFlight()), id, i)
  {
    hide Shape, Sound, Run, Stream, Content, Found, Clean, HeaderBlank, GetRecord, State.Busy, ReadFrom, Leaked, AllBlank;
    hide AllWork, Enough, Holding, LastStop, Queued, Stops;
    CallsLeave(s, calls, ticks);
    HeldReadable(Afterwards(s, calls, ticks), s.writeBank, s.NewFlight(), id, i);
  }

  lemma SpillHolds(u: State, w: nat, f: Flight, n: nat, rs: seq<Record>)
    requires Spills(u, w, f, n, rs)
    ensures Holding(u, w, f)
  {}

  lemma LeftOnChip(u: State, w: nat, f: Flight, n: nat, rs: seq<Record>)
    requires Spills(u, w, f, n, rs) && u.op == NoOp
    ensures Shape(u) && Geometry(u.image, u.bank) && w <= 1
    ensures Found(u.image, u.bank) == Some(f) && HeaderBlank(u.image, u.bank, 1 - w)
    ensures Clean(u.image, u.bank, 1 - w) <==> AllBlank(Stream(rs), Leaked(n, rs))
    ensures u.Busy() <==> Leaked(n, rs) < 60 * |rs|
  {
    hide Shape, Stream, Content, Found, Clean, HeaderBlank, State.Busy, Leaked, Stained, Selected;
    SpillEnds(u, w, f, n, rs);
    StainClean(u.image, u.bank, 1 - w, SpillAt(u, n), Stream(rs), Spilt(u, n));
    FoundIn(u.image, u.bank, w);
  }

  // ------------------------------------------------- power cuts on the way to rest

  /** A flight in the other bank, if any is left, is outranked. */
  predicate Outranked(image: seq<byte>, bank: nat, w: nat, f: Flight)
    requires Geometry(image, bank) && w <= 1
  {
    var other := Content(image, bank, 1 - w);
    other.Some? ==> Outranks(w, f.id, other.value.id)
  }

  /** Bank `w` holds the flight, and nothing that is done to the other bank makes it a better one. */
  predicate Kept(s: State, w: nat, f: Flight) {
    && Holding(s, w, f) && Outranked(s.image, s.bank, w, f) && !(s.finalise && s.retain)
    && (s.op == NoOp || s.op == EraseOp || s.op == RecordOp) && (s.op == RecordOp ==> !s.erasing)
    && if s.erasing then s.eraseBank == 1 - w else s.writeBank == 1 - w && s.image[Base(s.bank, 1 - w)] == BLANK
  }

  lemma KeptFacts(s: State, w: nat, f: Flight)
    requires Kept(s, w, f)
    ensures Shape(s) && s.Live() && Geometry(s.image, s.bank) && w <= 1 && Fits(s.image, s.flying)
    ensures Content(s.image, s.bank, w) == Some(f) && Outranked(s.image, s.bank, w, f)
    ensures s.op != NoOp ==> Inside(s.image, s.bank, 1 - w, s.flying) && (s.op == EraseOp || s.op == RecordOp)
    ensures s.op == NoOp ==> s.flying == Idle
    ensures s.op == EraseOp ==> s.flying == Erase(s.eraseAddress) && s.erasing && s.eraseBank == 1 - w
    ensures s.op == RecordOp ==> s.flying.Program? && Base(s.bank, 1 - w) < s.flying.addr && s.image[Base(s.bank, 1 - w)] == BLANK
  {
    FlyingFits(s);
    hide Content, Outranked;
  }

  /** Erasing a block makes no flight: the header stays as it is, or becomes blank. */
  lemma ErasedContent(image: seq<byte>, bank: nat, b: nat, block: nat, k: nat)
    requires Geometry(image, bank) && b <= 1 && Fits(image, Erase(block)) && Inside(image, bank, b, Erase(block))
    requires (block - Base(bank, b)) % 65536 == 0
    ensures var was, now := Content(image, bank, b), Content(Cut(image, Erase(block), k), bank, b);
      now.Some? ==> was.Some? && now.value.id == was.value.id
    ensures block == Base(bank, b) && 0 < k ==> Cut(image, Erase(block), k)[Base(bank, b)] == BLANK
  {
    var h, after := Base(bank, b), Cut(image, Erase(block), k);
    if 0 < k && block == h {
      NoMagic(after, bank, b);
    } else {
      assert block != h ==> h + HEADER_BYTES <= block;
      assert forall i :: h <= i < h + HEADER_BYTES ==> after[i] == image[i];
    }
  }

  /** Power may go at any byte: the flight is found. */
  lemma KeptCut(s: State, w: nat, f: Flight, k: nat)
    requires Kept(s, w, f)
    ensures Fits(s.image, s.flying) && Geometry(Cut(s.image, s.flying, k), s.bank) && w <= 1
    ensures var after := Cut(s.image, s.flying, k);
      && Content(after, s.bank, w) == Some(f) && Outranked(after, s.bank, w, f) && Found(after, s.bank) == Some(f)
      && (s.op == RecordOp || (s.op == EraseOp && s.eraseAddress == Base(s.bank, 1 - w) && 0 < k) ==>
            after[Base(s.bank, 1 - w)] == BLANK)
  {
    hide Kept, Content, Cut, SameBank, Found, Selected, Clean, BankBlank;
    KeptFacts(s, w, f);
    var after := Cut(s.image, s.flying, k);
    if s.op == NoOp {
      CutIdle(s.image, k);
    } else {
      CutInside(s.image, s.bank, 1 - w, s.flying, k);
      SameBankKeeps(s.image, after, s.bank, w);
      if s.op == EraseOp {
        KeptAligned(s, w, f);
        ErasedContent(s.image, s.bank, 1 - w, s.eraseAddress, k);
      } else {
        CutElsewhere(s.image, s.flying, k, Base(s.bank, 1 - w));
        NoMagic(after, s.bank, 1 - w);
      }
    }
    FoundIn(after, s.bank, w);
  }

  lemma CutIdle(image: seq<byte>, k: nat)
    ensures Cut(image, Idle, k) == image
  {}

  lemma CutElsewhere(image: seq<byte>, c: Command, k: nat, i: nat)
    requires Fits(image, c) && c.Program? && i < |image| && i < c.addr
    ensures Cut(image, c, k)[i] == image[i]
  {}

  lemma KeptAligned(s: State, w: nat, f: Flight)
    requires Kept(s, w, f) && s.op == EraseOp
    ensures (s.eraseAddress - Base(s.bank, 1 - w)) % 65536 == 0
  {
    hide Content, Outranked;
  }

  lemma KeptNext(s: State, w: nat, f: Flight, t: Tick)
    requires Kept(s, w, f) && Resting(s) && t.Works()
    ensures Kept(StartNext(s, t), w, f) && StartNext(s, t).bank == s.bank
  {
    hide Content, Outranked, Kept, Launch, Discard, CommandShape, RecordCommand, Holding;
    KeptFacts(s, w, f);
    if s.erasing {
      StartEraseShape(s, t);
      KeptLaunches(s, w, f, EraseOp, Erase(s.eraseAddress), t);
    } else if s.queue != [] {
      StartRecordShape(s, t);
      StartRecordSteps(s, t);
      if StartRecord(s, t) != s { KeptLaunches(s, w, f, RecordOp, RecordCommand(s), t); }
    } else if s.finalise {
      DiscardShape(s);
      KeptDiscards(s, w, f);
    }
  }

  lemma KeptLaunches(s: State, w: nat, f: Flight, op: Operation, c: Command, t: Tick)
    requires Kept(s, w, f) && t.Works() && Fits(s.image, c) && Shape(Launch(s, op, c, t))
    requires op == if s.erasing then EraseOp else RecordOp
    ensures Kept(Launch(s, op, c, t), w, f) && Launch(s, op, c, t).bank == s.bank
  {
    hide Shape, Content, Outranked, Cut;
  }

  lemma KeptDiscards(s: State, w: nat, f: Flight)
    requires Kept(s, w, f) && Resting(s) && !s.erasing && s.finalise && Shape(Discard(s))
    ensures !s.retain && Kept(Discard(s), w, f) && Discard(s).bank == s.bank
  {
    hide CommandShape, Content, Outranked;
  }

  lemma KeptErases(s: State, w: nat, f: Flight, t: Tick)
    requires Kept(s, w, f) && s.op == EraseOp
    ensures Kept(EraseDone(s, t), w, f) && Resting(EraseDone(s, t)) && EraseDone(s, t).bank == s.bank
  {
    hide Shape, Content, Outranked, Begin, Found, Cut, EraseNext, EraseFinished;
    KeptFacts(s, w, f);
    EraseImages(s);
    KeptCut(s, w, f, PAGE);
    if MoreBlocks(s) {
      EraseNextShape(s);
      EraseNextSame(s);
      BlockKept(s, EraseNext(s), w, f);
    } else {
      EraseFinishedShape(s);
      BankKept(s, EraseFinished(s), w, f);
    }
  }

  lemma EraseImages(s: State)
    requires Shape(s) && s.op == EraseOp
    ensures Fits(s.image, s.flying) && EraseNext(s).bank == s.bank == EraseFinished(s).bank
    ensures EraseNext(s).image == Cut(s.image, s.flying, PAGE) == EraseFinished(s).image
    ensures !MoreBlocks(s) ==> s.eraseAddress == Base(s.bank, s.eraseBank)
  {
    hide Erased;
  }

  lemma BlockKept(s: State, c: State, w: nat, f: Flight)
    requires Kept(s, w, f) && s.op == EraseOp && MoreBlocks(s) && Shape(c) && c == NextInBank(s)
    requires Geometry(c.image, c.bank) && Content(c.image, c.bank, w) == Some(f) && Outranked(c.image, c.bank, w, f)
    ensures Kept(c, w, f) && Resting(c)
  {
    KeptFacts(s, w, f);
    hide Shape, Content, Outranked, Erased;
  }

  lemma BankKept(s: State, c: State, w: nat, f: Flight)
    requires Kept(s, w, f) && s.op == EraseOp && Shape(c) && c == EraseFinished(s) && c.Live()
    requires Geometry(c.image, c.bank) && Content(c.image, c.bank, w) == Some(f) && Outranked(c.image, c.bank, w, f)
    requires c.image[Base(s.bank, 1 - w)] == BLANK
    ensures Kept(c, w, f) && Resting(c)
  {
    KeptFacts(s, w, f);
    hide Shape, Content, Outranked, Erased;
  }

  lemma KeptRecords(s: State, w: nat, f: Flight)
    requires Kept(s, w, f) && s.op == RecordOp
    ensures Kept(RecordDone(s), w, f) && Resting(RecordDone(s)) && RecordDone(s).bank == s.bank
  {
    KeptFacts(s, w, f);
    KeptCut(s, w, f, PAGE);
    RecordDoneShape(s);
    hide Shape, Content, Outranked, Found, Cut;
  }

  lemma KeptUpdate(s: State, w: nat, f: Flight, t: Tick)
    requires Kept(s, w, f) && t.Works()
    ensures Shape(s) && Kept(Update(s, t), w, f) && Update(s, t).bank == s.bank
  {
    hide Shape, Kept, StartNext, EraseDone, RecordDone, Content, Outranked;
    KeptFacts(s, w, f);
    if s.op == NoOp {
      KeptNext(s, w, f, t);
    } else if !t.busy {
      if s.op == EraseOp {
        KeptErases(s, w, f, t);
        KeptNext(EraseDone(s, t), w, f, t);
      } else {
        KeptRecords(s, w, f);
        KeptNext(RecordDone(s), w, f, t);
      }
    }
  }

  lemma {:induction false} KeptRuns(s: State, w: nat, f: Flight, ticks: seq<Tick>)
    requires Kept(s, w, f) && AllWork(ticks)
    ensures Shape(s) && Kept(Run(s, Ticks(ticks)), w, f) && Run(s, Ticks(ticks)).bank == s.bank
    decreases |ticks|
  {
    hide Shape, Kept, Update;
    KeptFacts(s, w, f);
    if ticks != [] {
      assert ticks[0].Works();
      assert Ticks(ticks)[1..] == Ticks(ticks[1..]);
      KeptUpdate(s, w, f, ticks[0]);
      KeptRuns(Update(s, ticks[0]), w, f, ticks[1..]);
    }
  }

  /** The newly committed flight outranks the one retained before. */
  lemma KeptStarts(s: State, a: State, t: Tick)
    requires Shape(s) && Sound(s) && s.op == FinalOp && NewOutranks(s) && Late(s, a) && !(a.finalise && a.retain)
    requires t.Works() && !t.busy
    ensures Shape(a) && Kept(Update(a, t), s.writeBank, s.NewFlight()) && Update(a, t).bank == s.bank
  {
    hide Shape, Sound, Late, Finished, Update, Content, StartNext, BankBlank, Outranked, NewOutranks, SameBank;
    LateFacts(s, a);
    CommitCompletes(s, a, t);
    UpdateFinishes(a, t);
    CommitOutranked(s);
    LateImage(s, a, t);
    if !Finished(a, t).erasing { BlankByte(Finished(a, t)); }
    KeptNext(Finished(a, t), s.writeBank, s.NewFlight(), t);
  }

  lemma LateImage(s: State, a: State, t: Tick)
    requires Shape(s) && s.op == FinalOp && Late(s, a)
    ensures Shape(a) && Fits(s.image, s.flying) && Finished(a, t).image == Completed(s.image, s.flying)
  {
    ShapeFacts(a);
    FinalDoneSteps(a, t);
    hide CommandShape, Completed, FinalDone;
  }

  lemma CommitOutranked(s: State)
    requires Shape(s) && Sound(s) && s.op == FinalOp && NewOutranks(s)
    ensures Fits(s.image, s.flying) && Geometry(Completed(s.image, s.flying), s.bank) && s.writeBank <= 1
    ensures Outranked(Completed(s.image, s.flying), s.bank, s.writeBank, s.NewFlight())
  {
    hide Shape, Sound, Content, Clean, Cut, BankBlank, OnChip, Ledger, BothClean, Late, State.NewFlight;
    CommitLedger(s);
    CutOther(s, PAGE);
    RetainedIs(s);
    NewIs(s);
  }

  lemma NewIs(s: State)
    ensures s.NewFlight().id == s.flightId
  {}

  lemma RetainedIs(s: State)
    requires Shape(s) && Sound(s) && s.op == FinalOp
    ensures Geometry(s.image, s.bank) && s.writeBank <= 1
    ensures var other := Content(s.image, s.bank, 1 - s.writeBank); other.Some? ==> other == s.committed
  {
    hide Shape, Sound, Content, Late, OnChip, Ledger, BothClean, SpareSound;
    CommitLedger(s);
    CommitClears(s);
    ShapeFacts(s);
    RetainedHolds(s);
  }

  lemma RetainedHolds(s: State)
    requires Shape(s) && Sound(s) && s.Live() && !s.clearing
    ensures RetainedSound(s)
  {
    hide Shape, RetainedSound, BothClean, Ledger, OnChip, IdleSound;
  }

  lemma BlankByte(d: State)
    requires Geometry(d.image, d.bank) && d.writeBank <= 1 && BankBlank(d.image, d.bank, d.writeBank)
    ensures d.image[Base(d.bank, d.writeBank)] == BLANK
  {}

  /** The commit is in flight, or the flight is kept. */
  predicate OnTheWay(s: State, u: State)
    requires Shape(s) && s.op == FinalOp
  {
    if u.op == FinalOp then Late(s, u) && !(u.finalise && u.retain)
    else u.bank == s.bank && Kept(u, s.writeBank, s.NewFlight())
  }

  lemma {:induction false} LateRuns(s: State, a: State, ticks: seq<Tick>)
    requires Shape(s) && Sound(s) && s.op == FinalOp && NewOutranks(s) && Late(s, a) && !(a.finalise && a.retain)
    requires AllWork(ticks)
    ensures Shape(a) && OnTheWay(s, Run(a, Ticks(ticks)))
    decreases |ticks|
  {
    hide Shape, Sound, Late, Update, Kept, NewOutranks;
    LateFacts(s, a);
    if ticks != [] {
      var t := ticks[0];
      assert t.Works();
      assert Ticks(ticks)[1..] == Ticks(ticks[1..]);
      if t.busy {
        StallWaits(a, t);
        LateRuns(s, a, ticks[1..]);
      } else {
        KeptStarts(s, a, t);
        KeptRuns(Update(a, t), s.writeBank, s.NewFlight(), ticks[1..]);
        KeptOp(Run(a, Ticks(ticks)), s.writeBank, s.NewFlight());
      }
    }
  }

  lemma KeptOp(u: State, w: nat, f: Flight)
    requires Kept(u, w, f)
    ensures u.op != FinalOp
  {}

  lemma LateCut(s: State, u: State, k: nat)
    requires Shape(s) && Sound(s) && s.op == FinalOp && NewOutranks(s) && !s.shadowed && Late(s, u)
    ensures Fits(u.image, u.flying) && Geometry(Cut(u.image, u.flying, k), s.bank)
    ensures Found(Cut(u.image, u.flying, k), s.bank) == AfterCut(s, k)
  {
    CommitClears(s);
    CutFound(s, k);
    hide Shape, Sound, Cut, Found, NewOutranks;
  }

  lemma CommitClears(s: State)
    requires Shape(s) && Sound(s) && s.op == FinalOp
    ensures !s.clearing
  {
    CommitLedger(s);
    hide Shape, Sound, OnChip, BothClean;
  }

  /** Whatever is called during a commit but a retaining stop, and whenever power goes after that, at
      any byte: the restart finds the newly committed flight, or, before the valid byte of the commit,
      the one retained before. */
  lemma CutDuringCommit(s: State, calls: seq<Event>, ticks: seq<Tick>, k: nat)
    requires Shape(s) && Sound(s) && s.op == FinalOp && NewOutranks(s) && !s.shadowed
    requires (forall e :: e in calls ==> Call(e)) && LastStop(calls) != Some(true) && AllWork(ticks)
    ensures var u := Afterwards(s, calls, ticks);
      && Fits(u.image, u.flying) && Geometry(Cut(u.image, u.flying, k), s.bank)
      && Found(Cut(u.image, u.flying, k), s.bank) ==
         if u.op == FinalOp && k < 6 then s.committed else Some(s.NewFlight())
  {
    hide Shape, Sound, Run, Late, Found, Cut, Kept, NewOutranks, Content, LastStop, Queued, AllWork;
    LateCalls(s, calls);
    var a := Run(s, calls);
    LateRuns(s, a, ticks);
    var u := Afterwards(s, calls, ticks);
    if u.op == FinalOp {
      LateCut(s, u, k);
    } else {
      KeptCut(u, s.writeBank, s.NewFlight(), k);
    }
  }
}
