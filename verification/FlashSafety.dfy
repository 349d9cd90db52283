/**
 Crash safety of the dual-bank flight log: an invariant of every step, and the
 theorem that a restart after a power cut at any point finds the newest
 committed flight with all its records.
 */
module FlashSafety {
  import opened Bytes
  import opened NorFlash
  import opened Records
  import opened FlashModel

  // ------------------------------------------------- the invariant

  predicate BothClean(image: seq<byte>, bank: nat)
    requires Geometry(image, bank)
  {
    Clean(image, bank, 0) && Clean(image, bank, 1)
  }

  /** The queue is the tail of the accepted records, and the flight's bank is not in use otherwise. */
  predicate Ledger(s: State)
    requires Shape(s)
  {
    && s.recordCount <= |s.accepted| && s.queue == s.accepted[s.recordCount..]
    && s.writeBank != s.retained && !s.erasing && !s.startPending && !s.clearing
    && (s.finalise && s.retain ==> s.op != FinalOp && |s.accepted| > 0)
    && (s.op == FinalOp ==> s.queue == [] && |s.accepted| > 0)
    && (s.Live() ==> s.phase == Recording)
  }

  /** The accepted records are on the chip up to Pos(), and what is in flight continues them. */
  predicate OnChip(s: State)
    requires Shape(s)
  {
    && (if s.op == HeaderOp then s.Pos() == 0 && BankBlank(s.image, s.bank, s.writeBank)
        else Partial(s.image, s.bank, s.writeBank, s.flightId, s.metadata, Stream(s.accepted), s.Pos()))
    && (s.op == RecordOp ==>
          s.Pos() + |s.flying.data| <= |Stream(s.accepted)| &&
          s.flying.data == Stream(s.accepted)[s.Pos()..s.Pos() + |s.flying.data|])
  }

  predicate IdleSound(s: State)
    requires Shape(s)
  {
    && s.queue == [] && !(s.finalise && s.retain) && (s.op == NoOp || s.op == EraseOp)
    && (!s.erasing ==> !s.startPending)
    && (s.Live() && !s.erasing ==>
          s.phase == Ready && s.writeBank != s.retained && BankBlank(s.image, s.bank, s.writeBank))
    && (s.erasing ==>
          s.eraseBank != s.retained && (s.Live() ==> s.phase == Initializing) &&
          BlankFrom(s.image, s.eraseAddress + ERASE_BLOCK, Base(s.bank, s.eraseBank) + s.bank))
  }

  /** While a clear runs nothing is retained, and the first bank is done before the second. */
  predicate ClearSound(s: State)
    requires Shape(s)
  {
    if s.clearing then
      s.erasing && s.retained == NONE && s.committed == None &&
      (if s.eraseBank == 0 then s.clearSecond else !s.clearSecond && BankBlank(s.image, s.bank, 0))
    else !s.clearSecond
  }

  /** The bank that is not retained stores at most a flight that is being erased. */
  predicate SpareSound(s: State, spare: Option<Flight>, b: nat)
    requires b <= 1
  {
    spare.Some? ==>
      s.erasing && s.eraseBank == b && s.committed.Some? &&
      (!s.shadowed ==> Outranks(1 - b, s.committed.value.id, spare.value.id))
  }

  predicate RetainedSound(s: State)
    requires Shape(s)
  {
    if s.retained == NONE then
      s.committed == None && Content(s.image, s.bank, 0) == None && Content(s.image, s.bank, 1) == None
    else
      s.committed.Some? && Content(s.image, s.bank, s.retained) == s.committed &&
      SpareSound(s, Content(s.image, s.bank, 1 - s.retained), 1 - s.retained)
  }

  predicate StoppedSound(s: State)
    requires Shape(s)
  {
    !s.shadowed ==> Found(s.image, s.bank) == s.committed
  }

  predicate Sound(s: State)
    requires Shape(s)
  {
    && BothClean(s.image, s.bank)
    && (if s.recording then Ledger(s) && (s.Live() ==> OnChip(s)) else IdleSound(s))
    && ClearSound(s)
    && (!s.clearing ==> if s.Live() then RetainedSound(s) else StoppedSound(s))
  }

  // ------------------------------------------------- cutting the operation in flight

  function ActiveBank(s: State): nat { if s.recording then s.writeBank else s.eraseBank }

  /** The newest committed flight if power goes once `k` bytes of the operation are in. */
  function AfterCut(s: State, k: nat): Option<Flight> {
    if s.op == FinalOp && 6 <= k then Some(s.NewFlight()) else s.committed
  }

  /** A restart will not be misled: no older flight outranks the newest commit. */
  predicate Unshadowed(s: State, k: nat) {
    if s.op == FinalOp && 6 <= k then NewOutranks(s) else !s.shadowed
  }

  lemma FlyingFits(s: State)
    requires Shape(s)
    ensures Fits(s.image, s.flying)
    ensures s.op != NoOp ==>
      Inside(s.image, s.bank, if s.op == EraseOp then s.eraseBank else s.writeBank, s.flying)
  {}

  lemma CutRecording(s: State, k: nat)
    requires Shape(s) && s.op != NoOp && s.op != EraseOp && s.recording && Ledger(s) && OnChip(s)
    ensures Fits(s.image, s.flying)
    ensures Clean(Cut(s.image, s.flying, k), s.bank, s.writeBank)
    ensures Content(Cut(s.image, s.flying, k), s.bank, s.writeBank) ==
            if s.op == FinalOp && 6 <= k then Some(s.NewFlight()) else None
  {
    hide Content, Clean, Cut, Stream, HeaderData, FinalData, BankBlank, Partial;
    var after := Cut(s.image, s.flying, k);
    match s.op {
      case HeaderOp => HeaderTorn(s.image, s.bank, s.writeBank, s.flightId, s.metadata, k);
      case RecordOp =>
        var data := s.flying.data;
        RecordTorn(s.image, after, s.bank, s.writeBank, s.flightId, s.metadata, Stream(s.accepted), s.Pos(), data, k);
        PartialUnselected(after, s.bank, s.writeBank, s.flightId, s.metadata, Stream(s.accepted),
                          s.Pos() + |Prefix(data, k)|);
      case FinalOp => FinalTorn(s.image, after, s.bank, s.writeBank, s.flightId, s.metadata, s.accepted, s.finalFlag, k);
    }
  }

  lemma CutErasing(s: State, k: nat)
    requires Shape(s) && s.op == EraseOp && !s.recording && IdleSound(s) && BothClean(s.image, s.bank)
    ensures Fits(s.image, s.flying)
    ensures Clean(Cut(s.image, s.flying, k), s.bank, s.eraseBank)
    ensures BlankFrom(Cut(s.image, s.flying, k), s.eraseAddress + ERASE_BLOCK, Base(s.bank, s.eraseBank) + s.bank)
    ensures var was, now := Content(s.image, s.bank, s.eraseBank), Content(Cut(s.image, s.flying, k), s.bank, s.eraseBank);
      now.Some? ==> was.Some? && now.value.id == was.value.id
  {
    hide Content, Clean;
    EraseTorn(s.image, s.bank, s.eraseBank, s.eraseAddress, k);
  }

  lemma CutOther(s: State, k: nat)
    requires Shape(s) && Sound(s) && s.op != NoOp
    ensures Fits(s.image, s.flying)
    ensures var after := Cut(s.image, s.flying, k);
      && Clean(after, s.bank, 1 - ActiveBank(s))
      && Content(after, s.bank, 1 - ActiveBank(s)) == Content(s.image, s.bank, 1 - ActiveBank(s))
      && (BankBlank(s.image, s.bank, 1 - ActiveBank(s)) ==> BankBlank(after, s.bank, 1 - ActiveBank(s)))
  {
    hide Content, Clean, Cut, BankBlank, Partial, Found, HeaderData, FinalData;
    FlyingFits(s);
    CutInside(s.image, s.bank, ActiveBank(s), s.flying, k);
    SameBankKeeps(s.image, Cut(s.image, s.flying, k), s.bank, 1 - ActiveBank(s));
  }

  /** Crash safety: whatever is cut short, a restart finds the newest committed flight. */
  lemma CutFound(s: State, k: nat)
    requires Shape(s) && Sound(s)
    ensures Fits(s.image, s.flying)
    ensures BothClean(Cut(s.image, s.flying, k), s.bank)
    ensures !s.clearing && Unshadowed(s, k) ==> Found(Cut(s.image, s.flying, k), s.bank) == AfterCut(s, k)
  {
    hide Content, Clean, Found, Selected, Programmed, Erased, BankBlank, Partial, HeaderData, FinalData;
    FlyingFits(s);
    var after := Cut(s.image, s.flying, k);
    if s.op == NoOp {
      if s.Live() && !s.clearing && !s.shadowed {
        FoundIn(s.image, s.bank, if s.retained == NONE then 0 else s.retained);
      }
    } else {
      CutOther(s, k);
      if s.recording { CutRecording(s, k); } else { CutErasing(s, k); }
      if !s.clearing && Unshadowed(s, k) {
        FoundIn(after, s.bank, if s.op == FinalOp && 6 <= k then s.writeBank else 1 - ActiveBank(s));
      }
    }
  }

  /** The condition is exact: a commit that an older flight outranks is not the one found. */
  lemma CutShadowed(s: State, k: nat)
    requires Shape(s) && Sound(s) && s.op == FinalOp && 6 <= k
    ensures Fits(s.image, s.flying)
    ensures Found(Cut(s.image, s.flying, k), s.bank) == AfterCut(s, k) <==>
            NewOutranks(s) || s.committed == Some(s.NewFlight())
    ensures !NewOutranks(s) ==> Found(Cut(s.image, s.flying, k), s.bank) == s.committed
  {
    hide Content, Clean, Cut, Found, Selected, BankBlank, Partial, HeaderData, FinalData;
    FlyingFits(s);
    CutFound(s, k);
    if !NewOutranks(s) {
      CutOther(s, k);
      CutRecording(s, k);
      FoundIn(Cut(s.image, s.flying, k), s.bank, 1 - s.writeBank);
    }
  }

  // ------------------------------------------------- the invariant is kept by every step

  lemma CutNothing(image: seq<byte>, c: Command)
    requires Fits(image, c)
    ensures Cut(image, c, 0) == image
  {}

  lemma FailSound(s: State, k: nat)
    requires Shape(s) && Sound(s) && s.op != NoOp
    ensures Shape(Fail(s, k)) && Sound(Fail(s, k))
  {
    hide Content, Clean, Cut, Found, BankBlank, Partial, HeaderData, FinalData;
    FailShape(s, k);
    CutFound(s, k);
    CutOther(s, k);
    if !s.recording { CutErasing(s, k); }
  }

  lemma LaunchFails(s: State, op: Operation, c: Command, t: Tick)
    requires Resting(s) && Fits(s.image, c) && (op == RecordOp || op == EraseOp) && !(t.wren && t.sent)
    ensures Launch(s, op, c, t) == Fail(s.(flying := c, op := op), if t.wren then t.torn else 0)
  {
    hide Cut;
    CutNothing(s.image, c);
  }

  /** A record or erase operation that is launched: as if it had started, and failed if it did not. */
  lemma LaunchSound(s: State, op: Operation, c: Command, t: Tick)
    requires Resting(s) && Fits(s.image, c) && (op == RecordOp || op == EraseOp)
    requires Shape(s.(flying := c, op := op)) && Sound(s.(flying := c, op := op))
    ensures Shape(Launch(s, op, c, t)) && Sound(Launch(s, op, c, t))
  {
    var started := s.(flying := c, op := op);
    if t.wren && t.sent {
      hide Shape, Sound;
      assert Launch(s, op, c, t) == started;
    } else {
      LaunchFails(s, op, c, t);
      hide Shape, Sound, Launch, Fail;
      FailSound(started, if t.wren then t.torn else 0);
    }
  }

  lemma StartEraseSound(s: State, t: Tick)
    requires Resting(s) && s.Live() && Sound(s) && s.erasing
    ensures Shape(StartErase(s, t)) && Sound(StartErase(s, t))
  {
    hide Content, Clean, Found, BankBlank, BlankFrom, Partial, Launch;
    LaunchSound(s, EraseOp, Erase(s.eraseAddress), t);
  }

  lemma LaunchFinalSound(s: State, t: Tick)
    requires Resting(s) && s.Live() && Sound(s) && s.queue == [] && s.finalise && s.retain
    ensures Shape(LaunchFinal(s, t)) && Sound(LaunchFinal(s, t))
  {
    hide Content, Clean, Found, BankBlank, Partial, Cut, FinalData, HeaderData;
    LaunchFinalShape(s, t);
    CutNothing(s.image, FinalCommand(s));
    var started := s.(flying := FinalCommand(s), op := FinalOp, finalFlag := s.stopFlag, finalise := false);
    assert Shape(started) && Sound(started);
    var k := if t.wren then t.torn else 0;
    FailSound(started, k);
    assert LaunchFinal(s, t) == if t.wren && t.sent then started else Fail(started, k).(finalise := true);
  }

  lemma DiscardSound(s: State)
    requires Resting(s) && s.Live() && Sound(s) && Quiet(s.(finalise := false)) && s.finalise && !s.retain
    ensures Shape(Discard(s)) && Sound(Discard(s))
  {
    hide Content, Clean, Found, BankBlank, Partial;
    DiscardShape(s);
  }

  /** A piece of the queued bytes is a piece of the accepted stream. */
  lemma QueuePiece(records: seq<Record>, n: nat, from: nat, to: nat)
    requires n <= |records| && from <= to <= 60 * (|records| - n)
    ensures |Stream(records[n..])| == 60 * (|records| - n)
    ensures Stream(records[n..])[from..to] == Stream(records)[60 * n + from..60 * n + to]
  {
    StreamConcat(records[..n], records[n..]);
    assert records[..n] + records[n..] == records;
    hide Stream;
  }

  lemma StartRecordSound(s: State, t: Tick)
    requires Resting(s) && s.Live() && Sound(s) && |s.queue| > 0
    ensures Shape(StartRecord(s, t)) && Sound(StartRecord(s, t))
  {
    hide Content, Clean, Found, BankBlank, Partial, Stream, Launch;
    if s.QueuedBytes() < 256 - s.RecordAddress() % 256 && !s.finalise {
      return;
    }
    QueuePiece(s.accepted, s.recordCount, s.offset, s.offset + NextLength(s));
    LaunchSound(s, RecordOp, RecordCommand(s), t);
  }

  lemma PartialExtends(image: seq<byte>, bank: nat, b: nat, id: nat, metadata: Metadata,
                       was: seq<byte>, now: seq<byte>, pos: nat)
    requires Geometry(image, bank) && b <= 1 && Partial(image, bank, b, id, metadata, was, pos)
    requires was <= now && HEADER_BYTES + |now| <= bank
    ensures Partial(image, bank, b, id, metadata, now, pos)
  {
    assert now[..pos] == was[..pos];
  }

  lemma HeaderDoneSound(s: State)
    requires Shape(s) && Sound(s) && s.op == HeaderOp
    ensures Shape(HeaderDone(s)) && Sound(HeaderDone(s))
  {
    hide Content, Clean, Cut, Found, BankBlank, Partial, Stream, HeaderData;
    HeaderDoneShape(s);
    CutFound(s, PAGE);
    CutOther(s, PAGE);
    CutRecording(s, PAGE);
    HeaderTorn(s.image, s.bank, s.writeBank, s.flightId, s.metadata, PAGE);
    PartialExtends(Completed(s.image, s.flying), s.bank, s.writeBank, s.flightId, s.metadata,
                   [], Stream(s.accepted), 0);
  }

  lemma RecordDoneSound(s: State)
    requires Shape(s) && Sound(s) && s.op == RecordOp
    ensures Shape(RecordDone(s)) && Sound(RecordDone(s))
  {
    hide Content, Clean, Cut, Found, BankBlank, Partial, Stream;
    RecordDoneShape(s);
    CutFound(s, PAGE);
    CutOther(s, PAGE);
    CutRecording(s, PAGE);
    RecordTorn(s.image, Completed(s.image, s.flying), s.bank, s.writeBank, s.flightId, s.metadata,
               Stream(s.accepted), s.Pos(), s.flying.data, PAGE);
    var bytes := s.offset + |s.flying.data|;
    assert s.accepted[s.recordCount..][bytes / 60..] == s.accepted[s.recordCount + bytes / 60..];
    assert RecordDone(s).Pos() == s.Pos() + |s.flying.data|;
  }

  lemma FinalDoneSound(s: State, t: Tick)
    requires Shape(s) && Sound(s) && s.op == FinalOp
    ensures Shape(FinalDone(s, t)) && Sound(FinalDone(s, t))
  {
    hide Content, Clean, Cut, Found, Partial, Stream, FinalData;
    FinalDoneShape(s, t);
    CutFound(s, PAGE);
    CutOther(s, PAGE);
    CutRecording(s, PAGE);
    assert Clean(Completed(s.image, s.flying), s.bank, 1 - s.writeBank);
    BlankBanks(Completed(s.image, s.flying), s.bank);
  }

  lemma BlankBanks(image: seq<byte>, bank: nat)
    requires Geometry(image, bank)
    ensures Clean(image, bank, 0) && HeaderBlank(image, bank, 0) ==> BankBlank(image, bank, 0)
    ensures Clean(image, bank, 1) && HeaderBlank(image, bank, 1) ==> BankBlank(image, bank, 1)
  {}

  lemma EraseNextSound(s: State)
    requires Shape(s) && Sound(s) && s.op == EraseOp && MoreBlocks(s)
    ensures Shape(EraseNext(s)) && Sound(EraseNext(s))
  {
    hide Content, Clean, Found, Partial, Stream;
    EraseNextShape(s);
    CutFound(s, 1);
    CutOther(s, 1);
    CutErasing(s, 1);
    EraseTorn(s.image, s.bank, s.eraseBank, s.eraseAddress, 1);
  }

  lemma BlankContent(image: seq<byte>, bank: nat, b: nat)
    requires Geometry(image, bank) && b <= 1 && BankBlank(image, bank, b)
    ensures Content(image, bank, b) == None
  {
    assert image[Base(bank, b) + 17] == BLANK;
  }

  lemma EraseFinishedSound(s: State)
    requires Shape(s) && Sound(s) && s.op == EraseOp && !MoreBlocks(s)
    ensures Shape(EraseFinished(s)) && Sound(EraseFinished(s))
  {
    hide Content, Clean, Found, Partial, Stream;
    EraseFinishedShape(s);
    CutFound(s, 1);
    CutOther(s, 1);
    CutErasing(s, 1);
    EraseTorn(s.image, s.bank, s.eraseBank, s.eraseAddress, 1);
    var image := EraseFinished(s).image;
    assert BankBlank(image, s.bank, s.eraseBank);
    BlankContent(image, s.bank, s.eraseBank);
    if s.clearing { BlankContent(image, s.bank, 0); }
  }

  lemma BeginFails(s: State, t: Tick)
    requires Resting(s) && s.Live() && !s.erasing && !(t.wren && t.sent)
    ensures var c := Program(Base(s.bank, s.writeBank), HeaderData(s.nextId, s.metadata));
      && Fits(s.image, c)
      && Begin(s, t).image == Cut(s.image, c, if t.wren then t.torn else 0)
  {
    hide Cut, HeaderData;
    CutNothing(s.image, Program(Base(s.bank, s.writeBank), HeaderData(s.nextId, s.metadata)));
  }

  /** A flight begins on a blank bank that is not retained. */
  lemma BeginSound(s: State, t: Tick)
    requires Resting(s) && s.Live() && Sound(s) && !s.recording && !s.erasing && !s.startPending
    ensures Shape(Begin(s, t)) && Sound(Begin(s, t))
  {
    hide Content, Clean, Cut, Found, Partial, Stream, BankBlank, HeaderData, Selected;
    BeginShape(s, t);
    if t.wren && t.sent {
      return;
    }
    BeginFails(s, t);
    var k := if t.wren then t.torn else 0;
    var c := Program(Base(s.bank, s.writeBank), HeaderData(s.nextId, s.metadata));
    HeaderTorn(s.image, s.bank, s.writeBank, s.nextId, s.metadata, k);
    CutInside(s.image, s.bank, s.writeBank, c, k);
    SameBankKeeps(s.image, Cut(s.image, c, k), s.bank, 1 - s.writeBank);
    FoundIn(Cut(s.image, c, k), s.bank, 1 - s.writeBank);
  }

  lemma EraseDoneSound(s: State, t: Tick)
    requires Shape(s) && Sound(s) && s.op == EraseOp
    ensures Shape(EraseDone(s, t)) && Sound(EraseDone(s, t))
  {
    assert !s.recording;
    hide Shape, Sound, Begin, EraseNext;
    if MoreBlocks(s) {
      EraseNextSound(s);
    } else {
      EraseFinishedShape(s);
      EraseFinishedSound(s);
      if s.startPending { BeginSound(EraseFinished(s), t); }
    }
  }

  lemma CompleteSound(s: State, t: Tick)
    requires Shape(s) && Sound(s) && s.op != NoOp
    ensures Shape(Complete(s, t)) && Sound(Complete(s, t))
  {
    hide Shape, Sound, HeaderDone, RecordDone, FinalDone, EraseDone;
    match s.op {
      case HeaderOp => HeaderDoneSound(s);
      case RecordOp => RecordDoneSound(s);
      case FinalOp => FinalDoneSound(s, t);
      case EraseOp => EraseDoneSound(s, t);
    }
  }

  lemma StartNextSound(s: State, t: Tick)
    requires Resting(s) && Sound(s) && (s.Live() || Quiet(s))
    ensures Shape(StartNext(s, t)) && Sound(StartNext(s, t))
  {
    hide Shape, Sound, StartErase, StartRecord, LaunchFinal, Discard;
    if s.erasing { StartEraseSound(s, t); }
    else if |s.queue| > 0 { StartRecordSound(s, t); }
    else if s.finalise && s.retain { LaunchFinalSound(s, t); }
    else if s.finalise { DiscardSound(s); }
  }

  lemma UpdateSound(s: State, t: Tick)
    requires Shape(s) && Sound(s)
    ensures Shape(Update(s, t)) && Sound(Update(s, t))
  {
    hide Shape, Sound, Proceed, StartNext, Fail;
    if s.Live() {
      if s.op == NoOp { StartNextSound(s, t); }
      else if t.busy { FailSound(s, t.torn); }
      else { ProceedSound(s, t); }
    }
  }

  lemma ProceedSound(s: State, t: Tick)
    requires Shape(s) && Sound(s) && s.op != NoOp
    ensures Shape(Proceed(s, t)) && Sound(Proceed(s, t))
  {
    hide Shape, Sound, Complete, StartNext;
    CompleteShape(s, t);
    CompleteLive(s, t);
    CompleteSound(s, t);
    var c := Complete(s, t);
    if c.op == NoOp { StartNextSound(c, t); }
  }

  lemma StartSound(s: State, metadata: Option<Metadata>, t: Tick)
    requires Shape(s) && Sound(s)
    ensures Shape(Start(s, metadata, t)) && Sound(Start(s, metadata, t))
  {
    hide Content, Clean, Found, Partial, Stream, BankBlank, HeaderData, BlankFrom, Begin;
    StartShape(s, metadata, t);
    if s.enabled && s.phase == Ready && !s.erasing && s.writeBank != s.retained {
      if metadata.Some? && s.op == NoOp {
        var u := s.(metadata := metadata.value, startPending := false);
        assert Shape(u) && Sound(u);
        BeginSound(u, t);
      }
    }
  }

  lemma EnqueueSound(s: State, r: Record)
    requires Shape(s) && Sound(s) && Accepting(s) && HasRoom(s) && s.op != FinalOp
    ensures Shape(Enqueue(s, r)) && Sound(Enqueue(s, r))
  {
    hide Content, Clean, Found, Partial, Stream, BankBlank, HeaderData, BlankFrom;
    EnqueueShape(s, r);
    StreamConcat(s.accepted, [r]);
    if s.Live() && s.op != HeaderOp {
      PartialExtends(s.image, s.bank, s.writeBank, s.flightId, s.metadata,
                     Stream(s.accepted), Stream(s.accepted + [r]), s.Pos());
    }
  }

  lemma DropSound(s: State)
    requires Shape(s) && Sound(s)
    ensures Shape(s.(dropped := Add32(s.dropped, 1))) && Sound(s.(dropped := Add32(s.dropped, 1)))
  {
    hide Content, Clean, Found, Partial, Stream, BankBlank, HeaderData, BlankFrom, CommandShape, Geometry, Shape;
    DropShape(s);
  }

  lemma AppendSound(s: State, r: Record)
    requires Shape(s) && Sound(s) && !Misuse(s, Appended(r))
    ensures Shape(Append(s, r)) && Sound(Append(s, r))
  {
    ShapeFacts(s);
    DropSound(s);
    hide Shape, Sound, Enqueue;
    if Accepting(s) && HasRoom(s) { EnqueueSound(s, r); }
  }

  lemma StopSound(s: State, flag: byte, retain: bool)
    requires Shape(s) && Sound(s) && !Misuse(s, Stopped(flag, retain))
    ensures Shape(Stop(s, flag, retain)) && Sound(Stop(s, flag, retain))
  {
    hide Content, Clean, Found, Partial, Stream, BankBlank, HeaderData, FinalData, BlankFrom;
    StopShape(s, flag, retain);
    if s.recording {
      return;
    }
  }

  lemma ClearKeepsSound(s: State)
    requires Shape(s) && Sound(s)
    ensures Shape(Clear(s)) && Sound(Clear(s))
  {
    hide Content, Clean, Found, Partial, Stream, HeaderData;
    ClearShape(s);
  }

  lemma EnableKeepsSound(s: State)
    requires Shape(s) && Sound(s)
    ensures Shape(Enable(s)) && Sound(Enable(s))
  {
    hide Content, Clean, Found, Partial, Stream, BankBlank, HeaderData, FinalData, BlankFrom;
    EnableShape(s);
  }

  lemma SelectedContent(image: seq<byte>, bank: nat)
    requires Geometry(image, bank)
    ensures var r := Selected(image, bank);
      if r == NONE then Found(image, bank) == None && Content(image, bank, 0) == None && Content(image, bank, 1) == None
      else
        r <= 1 && Found(image, bank) == Content(image, bank, r) && Found(image, bank).Some? &&
        (Content(image, bank, 1 - r).Some? ==>
          Outranks(r, Found(image, bank).value.id, Content(image, bank, 1 - r).value.id))
  {
    hide Decode32, Decode16;
  }

  lemma InitSound(s: State, p: Probe)
    requires Resting(s) && BothClean(s.image, s.bank)
    ensures Shape(Init(s, p)) && Sound(Init(s, p))
  {
    InitShape(s, p);
    BlankBanks(s.image, s.bank);
    SelectedContent(s.image, s.bank);
    hide Clean, Content, Found, Selected, FlightId, HeaderBlank, Decode32;
  }

  lemma PowerCycleSound(s: State, k: nat, p: Probe)
    requires Shape(s) && Sound(s)
    ensures Resting(PowerOff(s, k))
    ensures var u := Init(PowerOff(s, k), p);
      && Shape(u) && Sound(u)
      && (!s.clearing && Unshadowed(s, k) ==> u.committed == AfterCut(s, k))
  {
    PowerOffShape(s, k);
    CutFound(s, k);
    InitSound(PowerOff(s, k), p);
    hide Sound, Shape, Cut, Found;
  }

  lemma ProbeSound(s: State, p: Probe)
    requires Shape(s) && Sound(s) && !s.available
    ensures Shape(Init(s, p)) && Sound(Init(s, p))
  {
    InitSound(s, p);
  }

  // ------------------------------------------------- flight ids and the history of commits

  /** The newest commit is the last of the history (or the flight found at first), and
      flight ids grow and, the one that a deferred start will take included, stay below `bound`,
      so that nothing outranks it. */
  predicate Traced(s: State, first: Option<Flight>, bound: nat) {
    && s.committed == (if s.history == [] then first else Some(s.history[|s.history| - 1]))
    && !s.shadowed
    && (s.committed.Some? ==> s.committed.value.id < bound)
    && (s.Live() ==>
          s.nextId + (if s.startPending then 1 else 0) <= bound && (s.committed.Some? ==> s.committed.value.id < s.nextId) &&
          (s.recording ==>
            s.flightId < s.nextId && (s.committed.Some? ==> s.committed.value.id < s.flightId)))
  }

  /** `u` is a later state, traced, with nothing cleared in between. */
  predicate Follows(s: State, u: State, first: Option<Flight>, bound: nat) {
    Traced(u, first, bound) && (!s.clearing ==> !u.clearing)
  }

  lemma CommitOutranks(s: State, first: Option<Flight>, bound: nat)
    requires Traced(s, first, bound) && s.recording && s.Live()
    ensures NewOutranks(s)
  {}

  lemma FailTraced(s: State, k: nat, first: Option<Flight>, bound: nat)
    requires Shape(s) && (s.op == FinalOp ==> s.recording) && s.op != NoOp && Traced(s, first, bound)
    ensures Follows(s, Fail(s, k), first, bound)
  {
    FlyingFits(s);
    assert s.Live();
    if s.op == FinalOp { CommitOutranks(s, first, bound); }
    hide Shape, Cut, NewOutranks;
  }

  lemma LaunchTraced(s: State, op: Operation, c: Command, t: Tick, first: Option<Flight>, bound: nat)
    requires Fits(s.image, c) && Traced(s, first, bound)
    ensures Follows(s, Launch(s, op, c, t), first, bound)
  {
    hide Cut;
  }

  lemma LaunchFinalTraced(s: State, t: Tick, first: Option<Flight>, bound: nat)
    requires s.recording && s.Live() && Traced(s, first, bound)
    requires s.recordCount < WORD && Fits(s.image, FinalCommand(s))
    ensures Follows(s, LaunchFinal(s, t), first, bound)
  {
    hide Cut, FinalCommand;
  }

  lemma BeginTraced(s: State, t: Tick, first: Option<Flight>, bound: nat)
    requires Resting(s) && s.Live() && Traced(s, first, bound) && s.nextId < bound < WORD && !s.erasing && !s.startPending
    ensures Follows(s, Begin(s, t), first, bound)
  {
    hide Cut, HeaderData, CommandShape;
  }

  lemma EraseDoneTraced(s: State, t: Tick, first: Option<Flight>, bound: nat)
    requires Shape(s) && Sound(s) && s.op == EraseOp && Traced(s, first, bound) && bound < WORD
    ensures Follows(s, EraseDone(s, t), first, bound)
  {
    assert Follows(s, EraseFinished(s), first, bound);
    assert Follows(s, EraseNext(s), first, bound);
    EraseFinishedShape(s);
    hide Shape, Sound, EraseFinished, EraseNext, Begin;
    if !MoreBlocks(s) && s.startPending {
      BeginTraced(EraseFinished(s), t, first, bound);
    }
  }

  lemma FinalDoneTraced(s: State, t: Tick, first: Option<Flight>, bound: nat)
    requires Shape(s) && s.op == FinalOp && s.recording && Traced(s, first, bound)
    ensures Follows(s, FinalDone(s, t), first, bound)
  {
    hide Geometry, CommandShape, Completed, HeaderBlank;
  }

  lemma HeaderDoneTraced(s: State, first: Option<Flight>, bound: nat)
    requires Shape(s) && s.op == HeaderOp && Traced(s, first, bound)
    ensures Follows(s, HeaderDone(s), first, bound)
  {
    hide Completed, CommandShape;
  }

  lemma RecordDoneTraced(s: State, first: Option<Flight>, bound: nat)
    requires Shape(s) && s.op == RecordOp && Traced(s, first, bound)
    ensures Follows(s, RecordDone(s), first, bound)
  {
    hide Completed;
  }

  lemma StartNextTraced(s: State, t: Tick, first: Option<Flight>, bound: nat)
    requires Resting(s) && Sound(s) && Traced(s, first, bound) && (s.Live() || Quiet(s))
    ensures Follows(s, StartNext(s, t), first, bound)
  {
    assert s.finalise && s.retain ==> s.recording;
    if s.erasing {
      LaunchTraced(s, EraseOp, Erase(s.eraseAddress), t, first, bound);
    } else if |s.queue| > 0 {
      LaunchTraced(s, RecordOp, RecordCommand(s), t, first, bound);
    } else if s.finalise && s.retain {
      LaunchFinalTraced(s, t, first, bound);
    } else if s.finalise {
      DiscardTraced(s, first, bound);
    }
    hide Shape, Sound, Launch, LaunchFinal, Discard, Traced, RecordCommand;
  }

  lemma DiscardTraced(s: State, first: Option<Flight>, bound: nat)
    requires Shape(s) && s.Live() && Traced(s, first, bound)
    ensures Follows(s, Discard(s), first, bound)
  {
    hide Shape;
  }

  lemma CompleteTraced(s: State, t: Tick, first: Option<Flight>, bound: nat)
    requires Shape(s) && Sound(s) && s.op != NoOp && Traced(s, first, bound) && bound < WORD
    ensures Follows(s, Complete(s, t), first, bound)
  {
    assert s.op == FinalOp ==> s.recording;
    match s.op {
      case HeaderOp => HeaderDoneTraced(s, first, bound);
      case RecordOp => RecordDoneTraced(s, first, bound);
      case FinalOp => FinalDoneTraced(s, t, first, bound);
      case EraseOp => EraseDoneTraced(s, t, first, bound);
    }
    hide Shape, Sound, HeaderDone, RecordDone, FinalDone, EraseDone, Follows;
  }

  lemma UpdateTraced(s: State, t: Tick, first: Option<Flight>, bound: nat)
    requires Shape(s) && Sound(s) && Traced(s, first, bound) && bound < WORD
    ensures Follows(s, Update(s, t), first, bound)
  {
    SoundFacts(s);
    ShapeFacts(s);
    hide Shape, Sound, Proceed, StartNext, Fail, Traced, Follows;
    SelfTraced(s, first, bound);
    if s.Live() {
      if s.op == NoOp {
        StartNextTraced(s, t, first, bound);
      } else if t.busy {
        FailTraced(s, t.torn, first, bound);
      } else {
        ProceedTraced(s, t, first, bound);
      }
    }
  }

  lemma ProceedTraced(s: State, t: Tick, first: Option<Flight>, bound: nat)
    requires Shape(s) && Sound(s) && s.op != NoOp && Traced(s, first, bound) && bound < WORD
    ensures Follows(s, Proceed(s, t), first, bound)
  {
    hide Shape, Sound, Complete, StartNext, Traced, Follows;
    CompleteShape(s, t);
    CompleteLive(s, t);
    CompleteSound(s, t);
    CompleteTraced(s, t, first, bound);
    var c := Complete(s, t);
    FollowsOn(s, c, c, first, bound);
    if c.op == NoOp {
      StartNextTraced(c, t, first, bound);
      FollowsOn(s, c, StartNext(c, t), first, bound);
    }
  }

  lemma FollowsOn(s: State, c: State, u: State, first: Option<Flight>, bound: nat)
    requires Follows(s, c, first, bound)
    ensures Traced(c, first, bound) && (Follows(c, u, first, bound) ==> Follows(s, u, first, bound))
  {}

  lemma SelfTraced(s: State, first: Option<Flight>, bound: nat)
    requires Traced(s, first, bound)
    ensures Follows(s, s, first, bound)
  {}

  lemma StartTraced(s: State, metadata: Option<Metadata>, t: Tick, first: Option<Flight>, bound: nat)
    requires Shape(s) && Sound(s) && Traced(s, first, bound) && bound + 1 < WORD
    ensures Follows(s, Start(s, metadata, t), first, bound + 1)
  {
    ShapeFacts(s);
    hide Shape, Sound, Begin, Defer, Traced;
    TracedLater(s, first, bound);
    if s.phase == Ready && !s.erasing && metadata.Some? && s.op == NoOp {
      var u := s.(metadata := metadata.value, startPending := false);
      ReadyTraced(s, metadata.value, first, bound);
      BeginTraced(u, t, first, bound + 1);
    }
    DeferTraced(s, metadata, first, bound);
  }

  lemma ReadyTraced(s: State, metadata: Metadata, first: Option<Flight>, bound: nat)
    requires Resting(s) && Traced(s, first, bound)
    ensures var u := s.(metadata := metadata, startPending := false);
      Resting(u) && Traced(u, first, bound + 1) && (s.Live() ==> u.nextId < bound + 1)
  {}

  lemma TracedLater(s: State, first: Option<Flight>, bound: nat)
    requires Traced(s, first, bound)
    ensures Traced(s, first, bound + 1)
  {}

  lemma DeferTraced(s: State, metadata: Option<Metadata>, first: Option<Flight>, bound: nat)
    requires Traced(s, first, bound)
    ensures Follows(s, Defer(s, metadata), first, bound + 1) && Traced(s, first, bound + 1)
  {}

  lemma InitTraced(s: State, p: Probe, first: Option<Flight>, bound: nat)
    requires Resting(s) && 0 < bound < WORD
    requires Found(s.image, s.bank) == if s.history == [] then first else Some(s.history[|s.history| - 1])
    requires Found(s.image, s.bank).Some? ==> Found(s.image, s.bank).value.id < bound
    ensures Traced(Init(s, p), first, bound)
  {
    hide Content, Found, Selected, FlightId, HeaderBlank, Decode32, Init, CommandShape;
    SelectedContent(s.image, s.bank);
    FoundId(s.image, s.bank);
    InitDriver(s, p);
  }

  lemma InitDriver(s: State, p: Probe)
    requires Resting(s)
    ensures var u := Init(s, p);
      && u.committed == Found(s.image, s.bank) && u.history == s.history && !u.recording && !u.shadowed
      && !u.clearing && !u.startPending
      && (u.Live() ==> u.nextId == if Selected(s.image, s.bank) == NONE then 1
                                   else Add32(FlightId(s.image, s.bank, Selected(s.image, s.bank)), 1))
  {
    hide Found, Selected, FlightId, HeaderBlank, Decode32;
  }

  lemma FoundId(image: seq<byte>, bank: nat)
    requires Geometry(image, bank)
    ensures Selected(image, bank) != NONE ==>
      Found(image, bank).Some? && Found(image, bank).value.id == FlightId(image, bank, Selected(image, bank))
  {}

  lemma PowerOffTraced(s: State, k: nat)
    requires Shape(s)
    ensures var off := PowerOff(s, k);
      && off.bank == s.bank && Fits(s.image, s.flying) && off.image == Cut(s.image, s.flying, k)
      && off.history == s.history + (if s.op == FinalOp && 6 <= k then [s.NewFlight()] else [])
  {
    hide Cut;
  }

  lemma PowerCycleTraced(s: State, k: nat, p: Probe, first: Option<Flight>, bound: nat)
    requires Shape(s) && Sound(s) && !s.clearing && Traced(s, first, bound) && 0 < bound < WORD
    ensures Resting(PowerOff(s, k))
    ensures Traced(Init(PowerOff(s, k), p), first, bound) && !Init(PowerOff(s, k), p).clearing
  {
    ShapeFacts(s);
    SoundFacts(s);
    hide Found, Cut, Sound, Shape, PowerOff, Init, NewOutranks;
    PowerOffShape(s, k);
    PowerOffTraced(s, k);
    CutFound(s, k);
    if s.op == FinalOp { CommitOutranks(s, first, bound); }
    InitDriver(PowerOff(s, k), p);
    InitTraced(PowerOff(s, k), p, first, bound);
  }

  lemma StopTraced(s: State, flag: byte, keep: bool, first: Option<Flight>, bound: nat)
    requires Traced(s, first, bound)
    ensures Traced(Stop(s, flag, keep), first, bound) && Stop(s, flag, keep).clearing == s.clearing
  {}

  lemma EnableTraced(s: State, first: Option<Flight>, bound: nat)
    requires Traced(s, first, bound)
    ensures Traced(Enable(s), first, bound) && Enable(s).clearing == s.clearing
  {}

  lemma AppendTraced(s: State, r: Record, first: Option<Flight>, bound: nat)
    requires Shape(s) && Traced(s, first, bound)
    ensures Traced(Append(s, r), first, bound) && Append(s, r).clearing == s.clearing
  {
    ShapeFacts(s);
    SelfTraced(s, first, bound);
    EnqueueTraced(s, r, first, bound);
    DropTraced(s, first, bound);
    hide Shape, Enqueue, Traced, HasRoom;
  }

  lemma EnqueueTraced(s: State, r: Record, first: Option<Flight>, bound: nat)
    requires Traced(s, first, bound)
    ensures Traced(Enqueue(s, r), first, bound) && Enqueue(s, r).clearing == s.clearing
  {}

  lemma DropTraced(s: State, first: Option<Flight>, bound: nat)
    requires Traced(s, first, bound)
    ensures Traced(s.(dropped := Add32(s.dropped, 1)), first, bound)
  {}

  /** A start takes at most one flight id, at once or when the erasure under way is over. */
  function Begins(e: Event): nat { if e.Started? then 1 else 0 }

  lemma StepTraced(s: State, e: Event, first: Option<Flight>, bound: nat)
    requires Shape(s) && Sound(s) && !s.clearing && Traced(s, first, bound)
    requires e != Cleared && 0 < bound && bound + Begins(e) < WORD
    ensures Traced(Step(s, e), first, bound + Begins(e)) && !Step(s, e).clearing
  {
    hide Shape, Sound, Update, Start, Append, Stop, Enable, Init, PowerOff, Traced, Follows;
    ShapeFacts(s);
    match e {
      case Updated(t) =>
        UpdateTraced(s, t, first, bound);
        FollowsTraced(s, Update(s, t), first, bound);
      case Started(metadata, t) =>
        StartTraced(s, metadata, t, first, bound);
        FollowsTraced(s, Start(s, metadata, t), first, bound + 1);
      case Appended(r) => AppendTraced(s, r, first, bound);
      case Stopped(flag, keep) => StopTraced(s, flag, keep, first, bound);
      case Enabled => EnableTraced(s, first, bound);
      case Probed(p) =>
        if !s.available {
          ProbeTraced(s, p, first, bound);
          FollowsTraced(s, Init(s, p), first, bound);
        }
      case PowerCycled(k, p) => PowerCycleTraced(s, k, p, first, bound);
    }
  }

  lemma FollowsTraced(s: State, u: State, first: Option<Flight>, bound: nat)
    requires Follows(s, u, first, bound)
    ensures Traced(u, first, bound) && (!s.clearing ==> !u.clearing)
  {}

  lemma ProbeTraced(s: State, p: Probe, first: Option<Flight>, bound: nat)
    requires Shape(s) && Sound(s) && !s.available && !s.clearing && Traced(s, first, bound) && 0 < bound < WORD
    ensures Follows(s, Init(s, p), first, bound)
  {
    assert Found(s.image, s.bank) == s.committed;
    InitTraced(s, p, first, bound);
    hide Shape, Sound, Found;
  }

  // ------------------------------------------------- every step of every run

  /** A record or a retaining stop that arrives while the commit is in flight. */
  predicate Misuse(s: State, e: Event)
    requires Shape(s)
  {
    match e
    case Appended(r) => s.op == FinalOp && Accepting(s) && HasRoom(s)
    case Stopped(flag, keep) => s.op == FinalOp && s.recording && keep && s.recordCount + |s.queue| > 0
    case _ => false
  }

  lemma ShapeFacts(s: State)
    requires Shape(s)
    ensures Geometry(s.image, s.bank) && Fits(s.image, s.flying)
    ensures s.op != NoOp ==> s.Live()
    ensures s.phase == Ready || s.phase == Recording ==> s.available
  {}

  lemma SoundFacts(s: State)
    requires Shape(s) && Sound(s)
    ensures s.op == FinalOp || (s.finalise && s.retain) ==> s.recording
    ensures s.recording ==> !s.erasing
  {}

  /** Every step of every run keeps the invariant. */
  lemma StepSound(s: State, e: Event)
    requires Shape(s) && Sound(s) && !Misuse(s, e)
    ensures Shape(Step(s, e)) && Sound(Step(s, e))
  {
    hide Shape, Sound, Misuse, Update, Start, Append, Stop, Clear, Enable, Init, PowerOff;
    match e {
      case Updated(t) => UpdateSound(s, t);
      case Started(metadata, t) => StartSound(s, metadata, t);
      case Appended(r) => AppendSound(s, r);
      case Stopped(flag, keep) => StopSound(s, flag, keep);
      case Cleared => ClearKeepsSound(s);
      case Enabled => EnableKeepsSound(s);
      case Probed(p) => if !s.available { ProbeSound(s, p); }
      case PowerCycled(k, p) => PowerCycleSound(s, k, p);
    }
  }
}
