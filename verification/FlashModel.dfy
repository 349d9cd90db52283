/**
 The dual-bank flight log of src/storage/blackbox_flash.c as a state machine.

 A state holds the chip (`image`, `flying`), the driver's variables with the
 record queue as a sequence, and the history that the properties speak of.  Calls
 into the bus become inputs: a `Tick` tells what the status register, the
 write-enable check and the transfer of one update reported.
 */
module FlashModel {
  import opened Bytes
  import opened NorFlash
  import opened Records

  const QUEUE_RECORDS := 32

  datatype Phase = Unsupported | Initializing | Ready | Recording | Error
  datatype Operation = NoOp | HeaderOp | RecordOp | FinalOp | EraseOp

  /** The chip is busy, the deadline has passed, write enable latched, the transfer
      went through, how many bytes a failed operation has left on the chip, and
      whether a read works. */
  datatype Tick = Tick(busy: bool, expired: bool, wren: bool, sent: bool, torn: nat, readOk: bool) {
    /** Nothing fails: the chip may still be busy, for as long as the deadline allows. */
    predicate Works() { wren && sent && (busy ==> !expired) }
  }

  /** What the chip reports during blackbox_sd_init: reset, identification, header reads. */
  datatype Probe = Probe(resetOk: bool, idOk: bool, headersOk: bool)

  datatype State = State(
    // the chip
    bank: nat, image: seq<byte>, flying: Command,
    // the driver
    phase: Phase, available: bool, enabled: bool, recording: bool, finalise: bool, retain: bool,
    op: Operation, erasing: bool, clearSecond: bool, startPending: bool,
    retained: nat, writeBank: nat, eraseBank: nat, eraseAddress: nat,
    nextId: nat, recordCount: nat, offset: nat, queue: seq<Record>, dropped: nat,
    stopFlag: byte, metadata: Metadata,
    // history
    accepted: seq<Record>,      // records accepted since this flight began
    flightId: nat,              // its id
    finalFlag: byte,            // the stop flag being committed
    committed: Option<Flight>,  // the newest flight whose commit is on the chip
    history: seq<Flight>,       // every commit, in order
    clearing: bool,             // a user clear has not finished
    shadowed: bool              // an older flight outranks the newest commit until it is erased
  ) {
    predicate Live() { available && phase != Error }

    function Pos(): nat { 60 * recordCount + offset }

    function RecordAddress(): nat { Base(bank, writeBank) + HEADER_BYTES + 60 * recordCount + offset }

    function NewFlight(): Flight { Flight(flightId, finalFlag, metadata, accepted) }

    function QueuedBytes(): int { 60 * |queue| - offset }

    predicate Busy() { erasing || op != NoOp || finalise || |queue| > 0 }
  }

  /** A restart would prefer the flight being recorded, once committed, to the retained one. */
  predicate NewOutranks(s: State) {
    s.committed.Some? ==> Outranks(s.writeBank, s.flightId, s.committed.value.id)
  }

  // ------------------------------------------------- steps of the driver

  /** fail() once `k` bytes of the operation in flight are in. */
  function Fail(s: State, k: nat): State
    requires Fits(s.image, s.flying)
  {
    var commit := s.op == FinalOp && 6 <= k;
    s.(image := Cut(s.image, s.flying, k), flying := Idle, op := NoOp, phase := Error,
       committed := if commit then Some(s.NewFlight()) else s.committed,
       history := if commit then s.history + [s.NewFlight()] else s.history,
       shadowed := if commit then !NewOutranks(s) else s.shadowed)
  }

  /** start_program() or start_erase() of a record or an erase, then `operation = op` or fail(). */
  function Launch(s: State, op: Operation, c: Command, t: Tick): State
    requires Fits(s.image, c)
  {
    var ok := t.wren && t.sent;
    s.(image := if ok || !t.wren then s.image else Cut(s.image, c, t.torn),
       flying := if ok then c else Idle, op := if ok then op else NoOp,
       phase := if ok then s.phase else Error)
  }

  function FinalCommand(s: State): Command
    requires s.recordCount < WORD
  {
    Program(Base(s.bank, s.writeBank) + COUNT_OFFSET, FinalData(s.recordCount, s.stopFlag))
  }

  /** The commit: count, flag and valid byte, the valid byte last. */
  function LaunchFinal(s: State, t: Tick): State
    requires s.recordCount < WORD && Fits(s.image, FinalCommand(s))
  {
    var ok := t.wren && t.sent;
    var commit := t.wren && !t.sent && 6 <= t.torn;
    var flight := Flight(s.flightId, s.stopFlag, s.metadata, s.accepted);
    s.(image := if ok || !t.wren then s.image else Cut(s.image, FinalCommand(s), t.torn),
       flying := if ok then FinalCommand(s) else Idle, op := if ok then FinalOp else NoOp,
       phase := if ok then s.phase else Error, finalFlag := s.stopFlag, finalise := !ok,
       committed := if commit then Some(flight) else s.committed,
       history := if commit then s.history + [flight] else s.history,
       shadowed := if commit then !NewOutranks(s) else s.shadowed)
  }

  function Prepare(s: State, b: nat): State
    requires s.bank >= ERASE_BLOCK
  {
    s.(erasing := true, eraseBank := b, eraseAddress := Base(s.bank, b) + s.bank - ERASE_BLOCK,
       phase := Initializing)
  }

  function Begin(s: State, t: Tick): State
    requires Shape(s)
  {
    var ok := t.wren && t.sent;
    var c := Program(Base(s.bank, s.writeBank), HeaderData(s.nextId, s.metadata));
    s.(image := if ok || !t.wren then s.image else Cut(s.image, c, t.torn),
       flying := if ok then c else Idle, op := if ok then HeaderOp else NoOp,
       phase := if ok then Recording else Error, recording := ok || s.recording,
       nextId := Add32(s.nextId, 1), recordCount := 0, dropped := 0, queue := [], offset := 0, finalise := false,
       accepted := [], flightId := s.nextId)
  }

  /** The last block of a bank is erased and no other bank follows. */
  function EraseFinished(s: State): State {
    s.(image := Erased(s.image, s.eraseAddress), flying := Idle, op := NoOp, erasing := false,
       writeBank := s.eraseBank, phase := Ready, startPending := false, clearing := false, shadowed := false)
  }

  /** Whether another block follows: in this bank, or in the second bank of a clear. */
  predicate MoreBlocks(s: State) {
    s.eraseAddress > Base(s.bank, s.eraseBank) || (s.clearSecond && s.eraseBank == 0)
  }

  function EraseNext(s: State): State
    requires Shape(s) && s.op == EraseOp
  {
    var same := s.eraseAddress > Base(s.bank, s.eraseBank);
    s.(image := Erased(s.image, s.eraseAddress), flying := Idle, op := NoOp,
       clearSecond := same && s.clearSecond, eraseBank := if same then s.eraseBank else 1,
       eraseAddress := if same then s.eraseAddress - ERASE_BLOCK else 2 * s.bank - ERASE_BLOCK,
       phase := if same then s.phase else Initializing)
  }

  function EraseDone(s: State, t: Tick): State
    requires Shape(s) && s.op == EraseOp
  {
    if MoreBlocks(s) then EraseNext(s)
    else if s.startPending then
      EraseFinishedShape(s);
      Begin(EraseFinished(s), t)
    else EraseFinished(s)
  }

  lemma EraseFinishedShape(s: State)
    requires Shape(s) && s.op == EraseOp
    ensures Resting(EraseFinished(s)) && EraseFinished(s).Live() && !EraseFinished(s).erasing
  {}

  lemma EraseNextShape(s: State)
    requires Shape(s) && s.op == EraseOp && MoreBlocks(s)
    ensures Shape(EraseNext(s))
  {}

  /** `n` programmed bytes leave the queue, record by record. */
  function RecordDone(s: State): State
    requires Shape(s) && s.op == RecordOp
  {
    var bytes := s.offset + |s.flying.data|;
    s.(image := Completed(s.image, s.flying), flying := Idle, op := NoOp,
       recordCount := s.recordCount + bytes / 60, offset := bytes % 60, queue := s.queue[bytes / 60..])
  }

  /** The state after a commit once the bank that is prepared, if any, is known. */
  function Retaining(s: State, prepare: bool, next: nat): State
    requires Shape(s) && s.op == FinalOp && next <= 1
  {
    s.(image := Completed(s.image, s.flying), flying := Idle, op := NoOp, recording := false,
       retained := s.writeBank, committed := Some(s.NewFlight()),
       history := s.history + [s.NewFlight()], shadowed := !NewOutranks(s),
       phase := if prepare then Initializing else Ready, erasing := s.erasing || prepare,
       eraseBank := if prepare then next else s.eraseBank,
       eraseAddress := if prepare then Base(s.bank, next) + s.bank - ERASE_BLOCK else s.eraseAddress,
       writeBank := if prepare then s.writeBank else next)
  }

  function FinalDone(s: State, t: Tick): State
    requires Shape(s) && s.op == FinalOp
  {
    var previous := s.retained <= 1 && s.retained != s.writeBank;
    var next := if previous then s.retained else 1 - s.writeBank;
    var blank := HeaderBlank(Completed(s.image, s.flying), s.bank, next);
    Retaining(s, previous || !(t.readOk && blank), next)
  }

  function HeaderDone(s: State): State
    requires Shape(s)
  {
    s.(image := Completed(s.image, s.flying), flying := Idle, op := NoOp)
  }

  /** The bytes of the next page program. */
  function NextLength(s: State): int
    requires Shape(s)
  {
    var room := PAGE - s.RecordAddress() % 256;
    if s.QueuedBytes() < room then s.QueuedBytes() else room
  }

  function StartErase(s: State, t: Tick): State
    requires Shape(s) && s.erasing
  {
    Launch(s, EraseOp, Erase(s.eraseAddress), t)
  }

  function RecordCommand(s: State): Command
    requires Shape(s) && |s.queue| > 0
  {
    Program(s.RecordAddress(), Stream(s.queue)[s.offset..s.offset + NextLength(s)])
  }

  function StartRecord(s: State, t: Tick): State
    requires Shape(s) && |s.queue| > 0
  {
    if s.QueuedBytes() < 256 - s.RecordAddress() % 256 && !s.finalise then s
    else Launch(s, RecordOp, RecordCommand(s), t)
  }

  /** A flight that is not retained: its bank is erased again. */
  function Discard(s: State): State
    requires Shape(s)
  {
    s.(finalise := false, recording := false, erasing := true, eraseBank := s.writeBank,
       eraseAddress := Base(s.bank, s.writeBank) + s.bank - ERASE_BLOCK, phase := Initializing)
  }

  function StartNext(s: State, t: Tick): State
    requires Shape(s) && s.op == NoOp
  {
    if s.erasing then StartErase(s, t)
    else if |s.queue| > 0 then StartRecord(s, t)
    else if s.finalise then
      if s.retain then LaunchFinal(s, t) else Discard(s)
    else s
  }

  function Complete(s: State, t: Tick): State
    requires Shape(s)
  {
    match s.op
    case NoOp => s
    case HeaderOp => HeaderDone(s)
    case RecordOp => RecordDone(s)
    case FinalOp => FinalDone(s, t)
    case EraseOp => EraseDone(s, t)
  }

  /** Indices in range, and the operation in flight is the one the driver believes in. */
  predicate Shape(s: State) {
    && Geometry(s.image, s.bank) && (s.retained <= 1 || s.retained == NONE) && s.writeBank <= 1 && s.eraseBank <= 1
    && |s.queue| <= QUEUE_RECORDS && s.recordCount + |s.queue| <= MaxRecords(s.bank)
    && s.offset < RECORD_BYTES && (s.offset > 0 ==> |s.queue| > 0)
    && s.flightId < WORD && s.nextId < WORD
    && (s.op != NoOp ==> s.Live()) && (s.phase == Ready || s.phase == Recording ==> s.available)
    && (s.erasing ==>
          Base(s.bank, s.eraseBank) <= s.eraseAddress &&
          s.eraseAddress + ERASE_BLOCK <= Base(s.bank, s.eraseBank) + s.bank &&
          (s.eraseAddress - Base(s.bank, s.eraseBank)) % 65536 == 0)
    && CommandShape(s)
  }

  predicate CommandShape(s: State)
    requires Geometry(s.image, s.bank) && s.flightId < WORD && s.recordCount <= MaxRecords(s.bank)
  {
    match s.op
    case NoOp => s.flying == Idle
    case HeaderOp => s.flying == Program(Base(s.bank, s.writeBank), HeaderData(s.flightId, s.metadata)) &&
                     s.recording && !s.erasing && s.phase == Recording
    case RecordOp =>
      && s.flying.Program? && s.flying.addr == s.RecordAddress()
      && 0 < |s.flying.data| <= s.QueuedBytes() && s.flying.addr % 256 + |s.flying.data| <= PAGE
    case FinalOp =>
      s.flying == Program(Base(s.bank, s.writeBank) + COUNT_OFFSET, FinalData(s.recordCount, s.finalFlag))
    case EraseOp => s.erasing && s.flying == Erase(s.eraseAddress)
  }

  function Update(s: State, t: Tick): State
    requires Shape(s)
  {
    if !s.Live() then s
    else if s.op == NoOp then StartNext(s, t)
    else if t.busy then (if t.expired then Fail(s, t.torn) else s)
    else Proceed(s, t)
  }

  /** The operation in flight is complete; the next one may start. */
  function Proceed(s: State, t: Tick): State
    requires Shape(s)
  {
    var c := Complete(s, t);
    CompleteShape(s, t);
    if c.op != NoOp then c else StartNext(c, t)
  }

  /** A start during an erase is remembered. */
  function Defer(s: State, metadata: Option<Metadata>): State {
    s.(startPending := true, metadata := if metadata.Some? then metadata.value else s.metadata)
  }

  /** In phase Ready nothing is in flight unless a call came during a commit; a start on top
      of an operation is not modelled. */
  function Start(s: State, metadata: Option<Metadata>, t: Tick): State
    requires Shape(s)
  {
    if s.enabled && s.phase == Ready && !s.erasing && s.writeBank != s.retained then
      if metadata == None || s.op != NoOp then s
      else Begin(s.(metadata := metadata.value, startPending := false), t)
    else if s.enabled && s.erasing && s.writeBank != s.retained then Defer(s, metadata)
    else s
  }

  /** Whether a record offered now would be looked at. */
  predicate Accepting(s: State) { s.recording && !s.finalise }

  predicate HasRoom(s: State)
    requires Geometry(s.image, s.bank)
  {
    s.recordCount + |s.queue| < MaxRecords(s.bank) && |s.queue| < QUEUE_RECORDS
  }

  function Enqueue(s: State, r: Record): State {
    s.(queue := s.queue + [r], accepted := s.accepted + [r])
  }

  function Append(s: State, r: Record): State
    requires Shape(s)
  {
    if !Accepting(s) then s
    else if !HasRoom(s) then s.(dropped := Add32(s.dropped, 1))
    else Enqueue(s, r)
  }

  function RequestStop(s: State, flag: byte, retain: bool): State {
    var keep := retain && s.recordCount + |s.queue| > 0;
    s.(stopFlag := flag, retain := keep, finalise := true)
  }

  function Stop(s: State, flag: byte, retain: bool): State {
    if s.recording then RequestStop(s, flag, retain) else s.(startPending := false)
  }

  function ClearAll(s: State): State
    requires s.bank >= ERASE_BLOCK
  {
    s.(retained := NONE, recordCount := 0, nextId := 1, clearSecond := true, erasing := true, eraseBank := 0,
       eraseAddress := s.bank - ERASE_BLOCK, phase := Initializing,
       committed := None, clearing := true, shadowed := false)
  }

  function Clear(s: State): State
    requires Shape(s)
  {
    if s.recording || s.Busy() then s else ClearAll(s)
  }

  function Enable(s: State): State { s.(enabled := s.available) }

  /** Power goes once `k` bytes of the operation in flight are in; memory is lost. */
  function PowerOff(s: State, k: nat): State
    requires Shape(s)
  {
    State(s.bank, Cut(s.image, s.flying, k), Idle, Unsupported, false, false, false, false, false,
          NoOp, false, false, false, 0, 0, 0, 0, 0, 0, 0, [], 0, 0, seq(METADATA_BYTES, _ => 0),
          [], 0, 0, None, s.history + (if s.op == FinalOp && 6 <= k then [s.NewFlight()] else []),
          false, false)
  }

  /** The driver's variables at power-on, before blackbox_sd_init. */
  function Zeroed(bank: nat, image: seq<byte>): (s: State)
    requires Geometry(image, bank)
    ensures Resting(s) && s.queue == []
  {
    State(bank, image, Idle, Unsupported, false, false, false, false, false,
          NoOp, false, false, false, 0, 0, 0, 0, 0, 0, 0, [], 0, 0, seq(METADATA_BYTES, _ => 0),
          [], 0, 0, None, [], false, false)
  }

  predicate Resting(s: State) { Shape(s) && s.op == NoOp }

  function Init(s: State, p: Probe): State
    requires Resting(s)
  {
    var ok := p.resetOk && p.idOk && p.headersOk;
    var r := if ok then Selected(s.image, s.bank) else NONE;
    var found := r != NONE;
    var other := if r == 0 then 1 else 0;
    var candidate := if !found && !HeaderBlank(s.image, s.bank, 0) && HeaderBlank(s.image, s.bank, 1) then 1
                     else other;
    var blank := HeaderBlank(s.image, s.bank, candidate);
    s.(phase := if !ok then Error else if blank then Ready else Initializing,
       available := p.resetOk && p.idOk, enabled := true, recording := false, finalise := false,
       clearSecond := false, startPending := false, queue := [], offset := 0, dropped := 0,
       retained := r,
       nextId := if !ok then s.nextId else if found then Add32(FlightId(s.image, s.bank, r), 1) else 1,
       recordCount := if !ok then s.recordCount
                      else if found then Decode32(s.image, Base(s.bank, r) + COUNT_OFFSET) else 0,
       stopFlag := if found then s.image[Base(s.bank, r) + 16] else s.stopFlag,
       writeBank := if ok && blank then candidate else s.writeBank,
       erasing := ok && !blank, eraseBank := if ok && !blank then candidate else s.eraseBank,
       eraseAddress := if ok && !blank then Base(s.bank, candidate) + s.bank - ERASE_BLOCK else s.eraseAddress,
       committed := Found(s.image, s.bank), clearing := false, shadowed := false)
  }

  // ------------------------------------------------- shape is kept by every step

  lemma ShapeGeometry(s: State)
    requires Shape(s)
    ensures Geometry(s.image, s.bank) && s.writeBank <= 1 && s.recordCount + |s.queue| <= MaxRecords(s.bank)
    ensures |s.queue| <= QUEUE_RECORDS && s.offset < 60 && s.offset <= 60 * |s.queue| && Fits(s.image, s.flying)
  {}

  lemma RecordFlying(s: State)
    requires Shape(s) && s.op == RecordOp
    ensures s.flying.Program? && 0 < |s.flying.data| <= s.QueuedBytes()
  {}

  function NextInBank(s: State): State
    requires Shape(s) && s.op == EraseOp && s.eraseAddress > Base(s.bank, s.eraseBank)
  {
    s.(image := Erased(s.image, s.eraseAddress), flying := Idle, op := NoOp,
       eraseAddress := s.eraseAddress - ERASE_BLOCK)
  }

  /** prepare_bank(1) in the middle of a clear. */
  function SecondBank(s: State): State
    requires Shape(s) && s.op == EraseOp
  {
    s.(image := Erased(s.image, s.eraseAddress), flying := Idle, op := NoOp, clearSecond := false,
       eraseBank := 1, eraseAddress := s.bank + s.bank - ERASE_BLOCK, phase := Initializing)
  }

  lemma EraseNextSame(s: State)
    requires Shape(s) && s.op == EraseOp && s.eraseAddress > Base(s.bank, s.eraseBank)
    ensures EraseNext(s) == NextInBank(s)
  {
    hide Erased, HeaderData, FinalData;
  }

  lemma EraseNextSecond(s: State)
    requires Shape(s) && s.op == EraseOp && s.eraseAddress == Base(s.bank, s.eraseBank)
    ensures EraseNext(s) == SecondBank(s)
  {
    hide Erased, HeaderData, FinalData;
  }

  lemma EraseNextKeeps(s: State)
    requires Shape(s) && s.op == EraseOp
    ensures EraseNext(s).queue == s.queue && EraseNext(s).op == NoOp
  {}

  function Committed(s: State): State
    requires Shape(s) && s.op == FinalOp
  {
    s.(image := Completed(s.image, s.flying), flying := Idle, op := NoOp, recording := false,
       retained := s.writeBank, phase := Ready, committed := Some(s.NewFlight()),
       history := s.history + [s.NewFlight()], shadowed := !NewOutranks(s))
  }

  function OtherBank(s: State, t: Tick): State
    requires Geometry(s.image, s.bank) && s.retained <= 1
  {
    if t.readOk && HeaderBlank(s.image, s.bank, 1 - s.retained) then s.(writeBank := 1 - s.retained)
    else Prepare(s, 1 - s.retained)
  }

  /** The commit done step by step, as the source does it. */
  lemma FinalDoneSteps(s: State, t: Tick)
    requires Shape(s) && s.op == FinalOp
    ensures Geometry(Committed(s).image, s.bank) && s.writeBank <= 1
    ensures FinalDone(s, t) ==
      if s.retained <= 1 && s.retained != s.writeBank then Prepare(Committed(s), s.retained)
      else OtherBank(Committed(s), t)
  {
    hide FinalDone, Committed, OtherBank;
    CommittedShape(s);
    if s.retained <= 1 && s.retained != s.writeBank { FinalDonePrevious(s, t); } else { FinalDoneOther(s, t); }
  }

  lemma PrepareCommitted(s: State, next: nat)
    requires Shape(s) && s.op == FinalOp && next <= 1
    ensures s.bank >= ERASE_BLOCK && Prepare(Committed(s), next) == Retaining(s, true, next)
  {
    CommittedShape(s);
    hide Shape, NewOutranks, HeaderData, FinalData, Completed, CommandShape;
  }

  lemma MoveCommitted(s: State, next: nat)
    requires Shape(s) && s.op == FinalOp && next <= 1
    ensures Committed(s).(writeBank := next) == Retaining(s, false, next)
  {
    CommittedShape(s);
    hide Shape, NewOutranks, HeaderData, FinalData, Completed, CommandShape;
  }

  lemma FinalDonePrevious(s: State, t: Tick)
    requires Shape(s) && s.op == FinalOp && s.retained <= 1 && s.retained != s.writeBank
    ensures FinalDone(s, t) == Prepare(Committed(s), s.retained)
  {
    CommittedShape(s);
    PrepareCommitted(s, s.retained);
    hide Shape, Committed, Prepare, Retaining, NewOutranks, HeaderData, FinalData, HeaderBlank, Completed, CommandShape;
  }

  lemma FinalDoneOther(s: State, t: Tick)
    requires Shape(s) && s.op == FinalOp && !(s.retained <= 1 && s.retained != s.writeBank)
    ensures Geometry(Committed(s).image, s.bank) && s.writeBank <= 1
    ensures FinalDone(s, t) == OtherBank(Committed(s), t)
  {
    hide Shape, Committed, Prepare, Retaining, HeaderBlank, Completed, FinalDone, OtherBank;
    CommittedShape(s);
    FinalDoneRetains(s, t);
    OtherBankRetains(s, t);
  }

  /** Whether the spare bank has to be erased before it is recorded. */
  predicate Prepares(s: State, t: Tick)
    requires Shape(s) && s.op == FinalOp
  {
    ShapeGeometry(s);
    CommittedShape(s);
    !(t.readOk && HeaderBlank(Completed(s.image, s.flying), s.bank, 1 - s.writeBank))
  }

  lemma FinalDoneRetains(s: State, t: Tick)
    requires Shape(s) && s.op == FinalOp && !(s.retained <= 1 && s.retained != s.writeBank)
    ensures s.writeBank <= 1 && FinalDone(s, t) == Retaining(s, Prepares(s, t), 1 - s.writeBank)
  {
    CommittedShape(s);
    hide Retaining, HeaderBlank, Completed, Shape;
  }

  lemma OtherBankRetains(s: State, t: Tick)
    requires Shape(s) && s.op == FinalOp
    ensures Geometry(Committed(s).image, s.bank) && s.writeBank <= 1 && Committed(s).retained == s.writeBank
    ensures OtherBank(Committed(s), t) == Retaining(s, Prepares(s, t), 1 - s.writeBank)
  {
    hide Shape, Committed, Prepare, Retaining, HeaderBlank, Completed;
    CommittedShape(s);
    CommittedKeeps(s);
    PrepareCommitted(s, 1 - s.writeBank);
    MoveCommitted(s, 1 - s.writeBank);
  }

  lemma CommittedKeeps(s: State)
    requires Shape(s) && s.op == FinalOp
    ensures Committed(s).retained == s.writeBank && Committed(s).bank == s.bank
    ensures Committed(s).image == Completed(s.image, s.flying)
  {
    hide Completed;
  }

  lemma FinalDoneKeeps(s: State, t: Tick)
    requires Shape(s) && s.op == FinalOp
    ensures FinalDone(s, t).queue == s.queue && FinalDone(s, t).op == NoOp
  {}

  lemma CommittedShape(s: State)
    requires Shape(s) && s.op == FinalOp
    ensures Geometry(Committed(s).image, s.bank) && s.writeBank <= 1 && s.bank >= ERASE_BLOCK
    ensures Geometry(Completed(s.image, s.flying), s.bank)
  {}

  lemma RestingIdle(s: State)
    requires Resting(s)
    ensures s.flying == Idle && s.nextId < WORD && |s.metadata| == METADATA_BYTES
  {}

  lemma FinalFits(s: State)
    requires Resting(s)
    ensures s.recordCount < WORD && Fits(s.image, FinalCommand(s))
  {}

  lemma EraseFacts(s: State)
    requires Shape(s) && s.op == EraseOp
    ensures s.bank >= ERASE_BLOCK && s.eraseBank <= 1 && s.eraseAddress >= Base(s.bank, s.eraseBank)
    ensures s.eraseAddress > Base(s.bank, s.eraseBank) ==> s.eraseAddress >= ERASE_BLOCK
  {}

  lemma FailShape(s: State, k: nat)
    requires Shape(s) && s.op != NoOp
    ensures Shape(Fail(s, k))
  {}

  lemma BeginShape(s: State, t: Tick)
    requires Resting(s) && s.Live() && !s.erasing
    ensures Shape(Begin(s, t))
    ensures Begin(s, t).op == NoOp ==> Begin(s, t).queue == [] && !Begin(s, t).finalise && !Begin(s, t).erasing
  {}

  lemma EraseDoneShape(s: State, t: Tick)
    requires Shape(s) && s.op == EraseOp
    ensures Shape(EraseDone(s, t))
  {
    hide Shape, Begin, EraseNext, EraseFinished;
    EraseFinishedShape(s);
    if MoreBlocks(s) {
      EraseNextShape(s);
    } else if s.startPending {
      BeginShape(EraseFinished(s), t);
    }
  }

  lemma RecordDoneShape(s: State)
    requires Shape(s) && s.op == RecordOp
    ensures Shape(RecordDone(s)) && RecordDone(s).Live()
  {
    hide Completed;
  }

  lemma FinalDoneShape(s: State, t: Tick)
    requires Shape(s) && s.op == FinalOp
    ensures Shape(FinalDone(s, t)) && FinalDone(s, t).Live()
  {
    hide HeaderData, FinalData, Completed, HeaderBlank;
  }

  lemma HeaderDoneShape(s: State)
    requires Shape(s) && s.op == HeaderOp
    ensures Shape(HeaderDone(s)) && HeaderDone(s).Live()
  {
    hide Completed;
  }

  lemma CompleteShape(s: State, t: Tick)
    requires Shape(s)
    ensures Shape(Complete(s, t))
  {
    hide Shape, EraseDone, RecordDone, FinalDone, HeaderDone;
    match s.op {
      case NoOp =>
      case HeaderOp => HeaderDoneShape(s);
      case RecordOp => RecordDoneShape(s);
      case FinalOp => FinalDoneShape(s, t);
      case EraseOp => EraseDoneShape(s, t);
    }
  }

  lemma StartEraseShape(s: State, t: Tick)
    requires Resting(s) && s.Live() && s.erasing
    ensures Shape(StartErase(s, t))
  {
    hide Cut;
  }

  lemma StartRecordShape(s: State, t: Tick)
    requires Resting(s) && s.Live() && |s.queue| > 0
    ensures Shape(StartRecord(s, t))
  {
    hide Cut;
  }

  lemma LaunchFinalShape(s: State, t: Tick)
    requires Resting(s) && s.Live()
    ensures Shape(LaunchFinal(s, t))
  {
    hide FinalData, Cut;
  }

  /** Nothing is left to start: the case of a failed header program. */
  predicate Quiet(s: State) { !s.erasing && s.queue == [] && !s.finalise }

  lemma StartNextShape(s: State, t: Tick)
    requires Resting(s) && (s.Live() || Quiet(s))
    ensures Shape(StartNext(s, t))
  {
    hide StartErase, StartRecord, LaunchFinal, CommandShape;
    if s.erasing { StartEraseShape(s, t); }
    else if |s.queue| > 0 { StartRecordShape(s, t); }
    else if s.finalise && s.retain { LaunchFinalShape(s, t); }
    else if s.finalise { DiscardShape(s); }
  }

  lemma DiscardShape(s: State)
    requires Resting(s)
    ensures Shape(Discard(s))
  {}

  lemma CompleteLive(s: State, t: Tick)
    requires Shape(s) && s.op != NoOp
    ensures Complete(s, t).Live() || Quiet(Complete(s, t))
  {
    hide Shape, RecordDone, EraseDone, FinalDone, HeaderDone;
    match s.op {
      case HeaderOp => HeaderDoneShape(s);
      case RecordOp => RecordDoneShape(s);
      case FinalOp => FinalDoneShape(s, t);
      case EraseOp => EraseDoneLive(s, t);
    }
  }

  lemma EraseDoneLive(s: State, t: Tick)
    requires Shape(s) && s.op == EraseOp
    ensures EraseDone(s, t).Live() || Quiet(EraseDone(s, t))
  {
    hide Begin, EraseFinished;
    EraseFinishedShape(s);
    if !MoreBlocks(s) && s.startPending { BeginShape(EraseFinished(s), t); }
  }

  lemma UpdateShape(s: State, t: Tick)
    requires Shape(s)
    ensures Shape(Update(s, t))
  {
    hide Shape, Proceed, StartNext, Fail;
    if s.Live() {
      if s.op == NoOp { StartNextShape(s, t); }
      else if t.busy { FailShape(s, t.torn); }
      else { ProceedShape(s, t); }
    }
  }

  lemma ProceedShape(s: State, t: Tick)
    requires Shape(s) && s.op != NoOp
    ensures Shape(Proceed(s, t))
  {
    hide Shape, Complete, StartNext;
    CompleteShape(s, t);
    CompleteLive(s, t);
    var c := Complete(s, t);
    if c.op == NoOp { StartNextShape(c, t); }
  }

  lemma InitShape(s: State, p: Probe)
    requires Resting(s)
    ensures Shape(Init(s, p))
  {
    hide Found, HeaderBlank, FlightId;
  }

  lemma StartShape(s: State, metadata: Option<Metadata>, t: Tick)
    requires Shape(s)
    ensures Shape(Start(s, metadata, t))
  {
    assert s.erasing ==> Shape(Defer(s, metadata));
    hide HeaderData, Begin, Defer;
    if s.phase == Ready && !s.erasing && metadata.Some? && s.op == NoOp {
      BeginShape(s.(metadata := metadata.value, startPending := false), t);
    }
  }

  lemma EnqueueShape(s: State, r: Record)
    requires Shape(s) && HasRoom(s)
    ensures Shape(Enqueue(s, r))
  {
    hide HeaderData, FinalData;
  }

  lemma DropShape(s: State)
    requires Shape(s)
    ensures Shape(s.(dropped := Add32(s.dropped, 1)))
  {
    hide HeaderData, FinalData;
  }

  lemma AppendShape(s: State, r: Record)
    requires Shape(s)
    ensures Shape(Append(s, r))
  {
    assert Geometry(s.image, s.bank);
    hide Shape, Enqueue;
    DropShape(s);
    if HasRoom(s) { EnqueueShape(s, r); }
  }

  lemma ClearShape(s: State)
    requires Shape(s)
    ensures Shape(Clear(s))
  {}

  lemma EnableShape(s: State)
    requires Shape(s)
    ensures Shape(Enable(s))
  {
    hide HeaderData, FinalData, Geometry;
  }

  lemma PowerOffShape(s: State, k: nat)
    requires Shape(s)
    ensures Resting(PowerOff(s, k))
  {
    hide Cut;
  }

  lemma RequestStopShape(s: State, flag: byte, retain: bool)
    requires Shape(s)
    ensures Shape(RequestStop(s, flag, retain))
  {
    hide HeaderData, FinalData, Geometry;
  }

  lemma CancelStartShape(s: State)
    requires Shape(s)
    ensures Shape(s.(startPending := false))
  {
    hide HeaderData, FinalData, Geometry;
  }

  lemma StopShape(s: State, flag: byte, retain: bool)
    requires Shape(s)
    ensures Shape(Stop(s, flag, retain))
  {
    hide Shape, RequestStop;
    RequestStopShape(s, flag, retain);
    CancelStartShape(s);
  }

  // ------------------------------------------------- the steps in the order of the source

  lemma StartRecordSteps(s: State, t: Tick)
    requires Resting(s) && s.Live() && |s.queue| > 0
    ensures Fits(s.image, RecordCommand(s))
    ensures StartRecord(s, t) ==
      if s.QueuedBytes() < 256 - s.RecordAddress() % 256 && !s.finalise then s
      else Launch(s, RecordOp, RecordCommand(s), t)
  {
    hide Launch;
  }

  lemma RecordCommandIs(s: State)
    requires Resting(s) && s.Live() && |s.queue| > 0
    ensures 0 < s.QueuedBytes() && s.offset < RECORD_BYTES && Geometry(s.image, s.bank)
    ensures RecordCommand(s) == Program(s.RecordAddress(), Stream(s.queue)[s.offset..s.offset +
      if s.QueuedBytes() < PAGE - s.RecordAddress() % 256 then s.QueuedBytes() else PAGE - s.RecordAddress() % 256])
  {}

  /** blackbox_sd_init when the chip does not answer as it should. */
  function Unusable(s: State, found: bool): State
    requires Shape(s)
  {
    s.(phase := Error, available := found, enabled := true, recording := false, finalise := false,
       clearSecond := false, startPending := false, queue := [], offset := 0, dropped := 0,
       retained := NONE, erasing := false, committed := Found(s.image, s.bank), clearing := false, shadowed := false)
  }

  /** blackbox_sd_init once both headers are read and the bank to record into is chosen. */
  function Usable(s: State, retained: nat, nextId: nat, count: nat, flag: byte, candidate: nat, blank: bool): State
    requires Shape(s) && candidate <= 1
  {
    s.(phase := if blank then Ready else Initializing, available := true, enabled := true, recording := false,
       finalise := false, clearSecond := false, startPending := false, queue := [], offset := 0, dropped := 0,
       retained := retained, nextId := nextId, recordCount := count, stopFlag := flag,
       writeBank := if blank then candidate else s.writeBank,
       erasing := !blank, eraseBank := if blank then s.eraseBank else candidate,
       eraseAddress := if blank then s.eraseAddress else Base(s.bank, candidate) + s.bank - ERASE_BLOCK,
       committed := Found(s.image, s.bank), clearing := false, shadowed := false)
  }

  lemma InitKeeps(s: State, p: Probe)
    requires Resting(s)
    ensures Init(s, p).queue == [] && Init(s, p).op == NoOp
  {}

  lemma InitFails(s: State, p: Probe)
    requires Resting(s) && !(p.resetOk && p.idOk && p.headersOk)
    ensures Init(s, p) == Unusable(s, p.resetOk && p.idOk)
  {
    hide Shape, Found, HeaderBlank;
  }

  lemma InitWorks(s: State, p: Probe, retained: nat, candidate: nat)
    requires Resting(s) && p.resetOk && p.idOk && p.headersOk
    requires retained == Selected(s.image, s.bank)
    requires candidate == if retained == NONE then (if HeaderBlank(s.image, s.bank, 0) then 0
                                                    else if HeaderBlank(s.image, s.bank, 1) then 1 else 0)
                          else if retained == 0 then 1 else 0
    ensures Init(s, p) == Usable(s, retained,
      if retained == NONE then 1 else Add32(FlightId(s.image, s.bank, retained), 1),
      if retained == NONE then 0 else Decode32(s.image, Base(s.bank, retained) + COUNT_OFFSET),
      if retained == NONE then s.stopFlag else s.image[Base(s.bank, retained) + 16],
      candidate, HeaderBlank(s.image, s.bank, candidate))
  {
    assert Geometry(s.image, s.bank) && retained in [0, 1, NONE];
    hide Shape, Found, HeaderBlank, HeaderValid, FlightId, Selected, Decode32;
    if HeaderBlank(s.image, s.bank, candidate) {
    } else {
    }
  }

  lemma RecordDoneIs(s: State, released: nat, offset: nat)
    requires Shape(s) && s.op == RecordOp && offset < RECORD_BYTES && released <= |s.queue|
    requires RECORD_BYTES * released + offset == s.offset + |s.flying.data|
    ensures RecordDone(s) == s.(image := Completed(s.image, s.flying), flying := Idle, op := NoOp,
      recordCount := s.recordCount + released, offset := offset, queue := s.queue[released..])
  {
    RecordFlying(s);
    hide Completed, HeaderData, FinalData, Shape;
    assert (s.offset + |s.flying.data|) / 60 == released && (s.offset + |s.flying.data|) % 60 == offset;
  }

  lemma FailKeeps(s: State, k: nat)
    requires Shape(s)
    ensures Fail(s, k).queue == s.queue && Fail(s, k).op == NoOp
  {}

  lemma ProceedSteps(s: State, t: Tick)
    requires Shape(s) && s.op != NoOp
    ensures Shape(Complete(s, t)) && (Complete(s, t).Live() || Quiet(Complete(s, t)))
    ensures Proceed(s, t) == if Complete(s, t).op != NoOp then Complete(s, t) else StartNext(Complete(s, t), t)
  {
    hide Shape, Complete, StartNext;
    CompleteShape(s, t);
    CompleteLive(s, t);
  }

  lemma StartNextSteps(s: State, t: Tick)
    requires Resting(s) && (s.Live() || Quiet(s))
    ensures s.erasing ==> Fits(s.image, Erase(s.eraseAddress)) && s.Live()
    ensures s.queue != [] || s.finalise ==> s.Live()
  {}

  lemma LaunchKeeps(s: State, op: Operation, c: Command, t: Tick)
    requires Fits(s.image, c) && s.op == NoOp
    ensures Launch(s, op, c, t).queue == s.queue
    ensures Launch(s, op, c, t).op in [op, NoOp]
    ensures op != NoOp && Launch(s, op, c, t).op == op ==> Launch(s, op, c, t).flying == c
  {}

  lemma LaunchFinalKeeps(s: State, t: Tick)
    requires s.recordCount < WORD && Fits(s.image, FinalCommand(s)) && s.op == NoOp
    ensures LaunchFinal(s, t).queue == s.queue && LaunchFinal(s, t).op in [FinalOp, NoOp]
  {}

  // ------------------------------------------------- reading a record back

  /** blackbox_sd_get_record: `readOk` tells whether the two reads succeed. */
  function GetRecord(s: State, id: nat, index: nat, readOk: bool): Option<Record>
    requires Geometry(s.image, s.bank)
  {
    if s.retained > 1 || s.Busy() || !readOk then None
    else if !HeaderValid(s.image, s.bank, s.retained) || FlightId(s.image, s.bank, s.retained) != id ||
            index >= Decode32(s.image, Base(s.bank, s.retained) + COUNT_OFFSET) then None
    else Some(RecordAt(s.image, s.bank, s.retained, index))
  }

  // ------------------------------------------------- runs

  datatype Event =
    | Updated(t: Tick)
    | Started(metadata: Option<Metadata>, t: Tick)
    | Appended(r: Record)
    | Stopped(flag: byte, keep: bool)
    | Cleared
    | Enabled                          // blackbox_sd_set_enabled, whatever its argument
    | Probed(p: Probe)                 // blackbox_sd_probe
    | PowerCycled(k: nat, p: Probe)    // power goes with k bytes in, and blackbox_sd_init runs again

  function Step(s: State, e: Event): State
    requires Shape(s)
  {
    match e
    case Updated(t) => Update(s, t)
    case Started(metadata, t) => Start(s, metadata, t)
    case Appended(r) => Append(s, r)
    case Stopped(flag, keep) => Stop(s, flag, keep)
    case Cleared => Clear(s)
    case Enabled => Enable(s)
    case Probed(p) => if s.available then s else Init(s, p)
    case PowerCycled(k, p) => PowerOffShape(s, k); Init(PowerOff(s, k), p)
  }

  lemma StepShape(s: State, e: Event)
    requires Shape(s)
    ensures Shape(Step(s, e))
  {
    assert s.op != NoOp ==> s.available;
    hide Shape, Update, Start, Append, Stop, Clear, Enable, Init, PowerOff;
    match e {
      case Updated(t) => UpdateShape(s, t);
      case Started(metadata, t) => StartShape(s, metadata, t);
      case Appended(r) => AppendShape(s, r);
      case Stopped(flag, keep) => StopShape(s, flag, keep);
      case Cleared => ClearShape(s);
      case Enabled => EnableShape(s);
      case Probed(p) => if !s.available { InitShape(s, p); }
      case PowerCycled(k, p) =>
        PowerOffShape(s, k);
        InitShape(PowerOff(s, k), p);
    }
  }

  function Run(s: State, events: seq<Event>): State
    requires Shape(s)
    decreases |events|
  {
    if events == [] then s
    else
      StepShape(s, events[0]);
      Run(Step(s, events[0]), events[1..])
  }
}
