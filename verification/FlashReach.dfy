/**
 Runs of the two-bank flight log (src/storage/blackbox_flash.c) that reach the states the exact
 conditions speak of: a commit in flight, on an empty chip, on top of a retained flight, and
 past the last flight id.
 */
module FlashReach {
  import opened Bytes
  import opened NorFlash
  import opened Records
  import opened FlashModel
  import opened FlashSafety
  import opened FlashRuns
  import opened FlashMisuse

  /** At rest and ready for a flight. */
  predicate Waits(s: State) {
    Resting(s) && Sound(s) && s.phase == Ready && s.enabled && !s.erasing && !s.Busy() && !s.recording && !s.startPending
  }

  /** One record long. */
  function Flown(m: Metadata, r: Record, flag: byte, t: Tick): seq<Event> {
    [Started(Some(m), t), Appended(r), Stopped(flag, true), Updated(t), Updated(t)]
  }

  /** The flight has begun. */
  predicate Begun(s: State, u: State) {
    && Shape(u) && Sound(u) && u.op == HeaderOp && u.recording && !u.finalise && u.queue == [] && u.recordCount == 0
    && u.offset == 0 && u.accepted == [] && u.flightId == s.nextId && u.committed == s.committed && u.retained == s.retained
    && u.enabled && u.bank == s.bank
  }

  lemma FlightBegins(s: State, m: Metadata, t: Tick)
    requires Waits(s) && t.Works()
    ensures Begun(s, Step(s, Started(Some(m), t)))
  {
    StepShape(s, Started(Some(m), t));
    StepSound(s, Started(Some(m), t));
    hide CommandShape, OnChip, BothClean, ClearSound, RetainedSound, StoppedSound, Cut, HeaderData;
  }

  /** The record is queued, and the stop requested. */
  predicate Asked(s: State, u: State, r: Record) {
    && Shape(u) && Sound(u) && u.op == HeaderOp && u.recording && u.finalise && u.retain && u.queue == [r] && u.recordCount == 0
    && u.offset == 0 && u.accepted == [r] && u.flightId == s.nextId && u.committed == s.committed && u.retained == s.retained
    && u.enabled && u.bank == s.bank
  }

  /** The first record of a flight finds room. */
  lemma RecordFits(s: State, a: State, r: Record)
    requires Begun(s, a)
    ensures Shape(a) && Append(a, r) == Enqueue(a, r) && [] + [r] == [r]
  {
    hide Sound, Enqueue;
    ShapeGeometry(a);
    hide Shape;
  }

  lemma FlightStops(s: State, a: State, r: Record, flag: byte)
    requires Begun(s, a)
    ensures Shape(Step(a, Appended(r))) && Asked(s, Step(Step(a, Appended(r)), Stopped(flag, true)), r)
  {
    hide Shape, Sound;
    RecordFits(s, a, r);
    AppendShape(a, r);
    AppendSound(a, r);
    var b := Append(a, r);
    StopShape(b, flag, true);
    StopSound(b, flag, true);
    StopAsks(b, flag);
  }

  lemma StopAsks(b: State, flag: byte)
    requires b.recording && b.recordCount + |b.queue| > 0
    ensures Stop(b, flag, true) == b.(stopFlag := flag, retain := true, finalise := true)
  {}

  /** The record is being programmed. */
  predicate Written(s: State, u: State, r: Record) {
    && Shape(u) && Sound(u) && u.op == RecordOp && u.recording && u.finalise && u.retain && u.queue == [r] && u.recordCount == 0
    && u.offset == 0 && u.accepted == [r] && u.flightId == s.nextId && u.committed == s.committed && u.retained == s.retained
    && u.enabled && u.bank == s.bank && u.flying.Program? && |u.flying.data| == 60
  }

  lemma RecordWritten(s: State, c: State, r: Record, t: Tick)
    requires Asked(s, c, r) && t.Works() && !t.busy
    ensures Written(s, Update(c, t), r)
  {
    hide Shape, Sound, Completed, RecordCommand, HeaderDone, StartNext, Update;
    UpdateShape(c, t);
    UpdateSound(c, t);
    HeaderDoneShape(c);
    HeaderFinishes(c, t);
    RecordStarts(HeaderDone(c), t);
  }

  lemma HeaderFinishes(c: State, t: Tick)
    requires Shape(c) && c.op == HeaderOp && !t.busy
    ensures var h := HeaderDone(c);
      && Resting(h) && h.Live() && Update(c, t) == StartNext(h, t) && h.recording && !h.erasing
      && h.finalise == c.finalise && h.retain == c.retain && h.queue == c.queue && h.recordCount == c.recordCount
      && h.offset == c.offset && h.accepted == c.accepted && h.flightId == c.flightId && h.committed == c.committed
      && h.retained == c.retained && h.enabled == c.enabled && h.bank == c.bank
  {
    HeaderDoneShape(c);
    hide Completed, StartNext, HeaderData;
  }

  /** One record is less than a page. */
  lemma RecordStarts(h: State, t: Tick)
    requires Resting(h) && h.Live() && !h.erasing && h.finalise && |h.queue| == 1 && h.offset == 0 && h.recordCount == 0 && t.Works()
    ensures var u := StartNext(h, t);
      && u.op == RecordOp && u.flying.Program? && |u.flying.data| == 60 && u == h.(flying := u.flying, op := RecordOp)
  {
    hide Shape, RecordCommand, Stream;
    ShapeFacts(h);
    RecordCommandIs(h);
    StartRecordSteps(h, t);
    BankAligned(h);
  }

  lemma BankAligned(h: State)
    requires Shape(h)
    ensures Base(h.bank, h.writeBank) % 256 == 0
  {}

  /** The commit of one record is in flight. */
  predicate Committing(s: State, u: State, r: Record) {
    && Shape(u) && Sound(u) && u.op == FinalOp && u.accepted == [r] && u.flightId == s.nextId
    && u.committed == s.committed && u.retained == s.retained && u.enabled && u.bank == s.bank
  }

  lemma CommitStarts(s: State, d: State, r: Record, t: Tick)
    requires Written(s, d, r) && t.Works() && !t.busy
    ensures Committing(s, Update(d, t), r)
  {
    hide Shape, Sound, Completed, RecordDone, StartNext, Update;
    UpdateShape(d, t);
    UpdateSound(d, t);
    RecordDoneShape(d);
    RecordDoneIs(d, 1, 0);
    SoundFacts(d);
    assert d.queue[1..] == [];
    RecordFinishes(d, t);
    FinalStarts(RecordDone(d), t);
  }

  lemma FinalStarts(c: State, t: Tick)
    requires Resting(c) && c.Live() && !c.erasing && c.finalise && c.retain && c.queue == [] && t.Works()
    ensures var u := StartNext(c, t);
      && u.op == FinalOp && u.accepted == c.accepted && u.flightId == c.flightId && u.committed == c.committed
      && u.retained == c.retained && u.enabled == c.enabled && u.bank == c.bank
  {
    hide FinalCommand, Cut;
  }

  /** From rest, five calls lead to a commit. */
  lemma ReachesCommit(s: State, m: Metadata, r: Record, flag: byte, t: Tick)
    requires Waits(s) && t.Works() && !t.busy
    ensures Shape(s) && Committing(s, Run(s, Flown(m, r, flag, t)), r)
  {
    hide Shape, Sound, Update, Start, Append, Stop, Waits, Committing;
    WaitsShape(s);
    FlightBegins(s, m, t);
    var a := Step(s, Started(Some(m), t));
    FlightStops(s, a, r, flag);
    var c := Step(Step(a, Appended(r)), Stopped(flag, true));
    RecordWritten(s, c, r, t);
    CommitStarts(s, Update(c, t), r, t);
    RunFive(s, Started(Some(m), t), Appended(r), Stopped(flag, true), Updated(t), Updated(t));
  }

  lemma WaitsShape(s: State)
    requires Waits(s)
    ensures Shape(s)
  {}

  lemma RunFive(s: State, a: Event, b: Event, c: Event, d: Event, e: Event)
    requires Shape(s)
    ensures var s1 := Step(s, a); Shape(s1) && var s2 := Step(s1, b); Shape(s2) && var s3 := Step(s2, c);
      Shape(s3) && var s4 := Step(s3, d); Shape(s4) && Run(s, [a, b, c, d, e]) == Step(s4, e)
  {
    hide Shape, Step;
    RunOne(s, a, [b, c, d, e]);
    RunOne(Step(s, a), b, [c, d, e]);
    RunOne(Step(Step(s, a), b), c, [d, e]);
    RunOne(Step(Step(Step(s, a), b), c), d, [e]);
    RunOne(Step(Step(Step(Step(s, a), b), c), d), e, []);
  }

  lemma RunOne(s: State, e: Event, more: seq<Event>)
    requires Shape(s)
    ensures Shape(Step(s, e)) && Run(s, [e] + more) == Run(Step(s, e), more)
    ensures Run(Step(s, e), []) == Step(s, e)
  {
    hide Shape, Step;
    StepShape(s, e);
    assert ([e] + more)[1..] == more;
  }

  // ------------------------------------------------- from power-up

  /** A chip as the factory delivers it, before blackbox_sd_init. */
  predicate Blank(s: State) {
    Resting(s) && s.history == [] && BankBlank(s.image, s.bank, 0) && BankBlank(s.image, s.bank, 1)
  }

  predicate Answers(p: Probe) { p.resetOk && p.idOk && p.headersOk }

  lemma BlankWaits(s: State, p: Probe)
    requires Blank(s) && Answers(p)
    ensures Waits(Init(s, p)) && Init(s, p).retained == NONE && Init(s, p).committed == None
  {
    hide Shape, Sound, Content, BankBlank, Found, Selected, Clean;
    ShapeFacts(s);
    BlankContent(s.image, s.bank, 0);
    BlankContent(s.image, s.bank, 1);
    FoundIn(s.image, s.bank, 0);
    BlankIsClean(s.image, s.bank, 0);
    BlankIsClean(s.image, s.bank, 1);
    InitSound(s, p);
    InitWorks(s, p, NONE, 0);
  }

  lemma BlankIsClean(image: seq<byte>, bank: nat, b: nat)
    requires Geometry(image, bank) && b <= 1 && BankBlank(image, bank, b)
    ensures Clean(image, bank, b) && HeaderBlank(image, bank, b)
  {}

  /** A chip with a flight, and the other bank ready for the next. */
  lemma FlightWaits(s: State, p: Probe, b: nat)
    requires Resting(s) && s.history == [] && BothClean(s.image, s.bank) && Answers(p) && b <= 1
    requires Selected(s.image, s.bank) == b && HeaderBlank(s.image, s.bank, 1 - b)
    ensures var u := Init(s, p);
      Waits(u) && u.retained == b && u.committed == Found(s.image, s.bank) && u.nextId == Add32(FlightId(s.image, s.bank, b), 1)
  {
    hide Shape, Sound, Content, BothClean, HeaderBlank, Found, Selected, Clean, FlightId, Decode32, Add32;
    ShapeFacts(s);
    InitSound(s, p);
    InitWorks(s, p, b, 1 - b);
  }

  /** Once the commit has drained the driver waits for the next flight. */
  lemma CommitRests(s: State, ticks: seq<Tick>)
    requires Shape(s) && Sound(s) && s.op == FinalOp && s.enabled && AllWork(ticks) && Answered(ticks) >= Work(s)
    ensures var u := Run(s, Ticks(ticks)); Waits(u) && u.committed == Some(s.NewFlight()) && u.retained != NONE
  {
    hide Shape, Sound, Run, Work, State.Busy;
    CommitDrains(s);
    Drained(s, ticks);
    RestWaits(Run(s, Ticks(ticks)));
  }

  lemma CommitDrains(s: State)
    requires Shape(s) && Sound(s) && s.op == FinalOp
    ensures Draining(s) && Due(s) == Some(s.NewFlight())
  {
    CommitLedger(s);
    ShapeFacts(s);
    hide Shape, Sound, OnChip, BothClean;
  }

  lemma RestWaits(u: State)
    requires Shape(u) && Sound(u) && u.Live() && !u.Busy() && !u.recording && !u.startPending && u.enabled
    ensures Waits(u) && (u.committed.Some? ==> u.retained != NONE)
  {
    RestingNotClearing(u);
    hide CommandShape, Content, BothClean;
  }

  lemma {:induction false} RunBoth(s: State, a: seq<Event>, b: seq<Event>)
    requires Shape(s)
    ensures Shape(Run(s, a)) && Run(s, a + b) == Run(Run(s, a), b)
    decreases |a|
  {
    hide Shape, Step;
    if a == [] {
      assert a + b == b;
    } else {
      StepShape(s, a[0]);
      RunBoth(Step(s, a[0]), a[1..], b);
      assert (a + b)[1..] == a[1..] + b;
    }
  }

  /** A blank chip: the first commit is reached, with nothing retained yet. */
  lemma ReachesFirstCommit(s: State, p: Probe, m: Metadata, r: Record, flag: byte, t: Tick)
    requires Blank(s) && Answers(p) && t.Works() && !t.busy
    ensures Shape(Init(s, p))
    ensures var u := Run(Init(s, p), Flown(m, r, flag, t));
      Shape(u) && Sound(u) && u.op == FinalOp && u.enabled && u.retained == NONE && u.committed == None
  {
    hide Blank, Waits, Init, Run, Shape, Sound;
    assert Resting(s) by { BlankRests(s); }
    BlankWaits(s, p);
    ReachesCommit(Init(s, p), m, r, flag, t);
  }

  lemma BlankRests(s: State)
    requires Blank(s)
    ensures Resting(s)
  {}

  function Repeated(t: Tick, n: nat): (ticks: seq<Tick>)
    ensures |ticks| == n
  {
    seq(n, _ => t)
  }

  lemma {:induction false} AllAnswered(t: Tick, n: nat)
    requires t.Works() && !t.busy
    ensures AllWork(Repeated(t, n)) && Answered(Repeated(t, n)) == n
  {
    if n > 0 {
      AllAnswered(t, n - 1);
      assert Repeated(t, n)[1..] == Repeated(t, n - 1);
    }
  }

  /** And a second one, on top of the first flight. */
  lemma ReachesSecondCommit(s: State, p: Probe, m: Metadata, r: Record, flag: byte, t: Tick) returns (events: seq<Event>)
    requires Blank(s) && Answers(p) && t.Works() && !t.busy
    ensures Shape(Init(s, p))
    ensures var u := Run(Init(s, p), events);
      Shape(u) && Sound(u) && u.op == FinalOp && u.retained != NONE && u.committed.Some? && u.committed.value.records == [r]
  {
    hide Blank, Waits, Init, Run, Shape, Sound, Work, Repeated, AllWork, Answered;
    BlankRests(s);
    ReachesFirstCommit(s, p, m, r, flag, t);
    BlankWaits(s, p);
    ReachesCommit(Init(s, p), m, r, flag, t);
    var first, flown := Init(s, p), Flown(m, r, flag, t);
    var u := Run(first, flown);
    var n: nat := if Work(u) < 0 then 0 else Work(u);
    var ticks := Repeated(t, n);
    AllAnswered(t, n);
    CommitRests(u, ticks);
    var v := Run(u, Ticks(ticks));
    ReachesCommit(v, m, r, flag, t);
    events := flown + (Ticks(ticks) + flown);
    RunBoth(first, flown, Ticks(ticks) + flown);
    RunBoth(u, Ticks(ticks), flown);
  }

  /** A chip whose flight has the last id: the next flight is committed, whole, and the restart finds the
      old one. */
  lemma LastIdShadows(s: State, p: Probe, b: nat, m: Metadata, r: Record, flag: byte, t: Tick)
    requires Resting(s) && s.history == [] && BothClean(s.image, s.bank) && Answers(p) && b <= 1 && t.Works() && !t.busy
    requires Selected(s.image, s.bank) == b && HeaderBlank(s.image, s.bank, 1 - b) && FlightId(s.image, s.bank, b) == WORD - 1
    ensures Shape(Init(s, p))
    ensures var u := Run(Init(s, p), Flown(m, r, flag, t));
      && Shape(u) && Sound(u) && u.op == FinalOp && Fits(u.image, u.flying)
      && Found(Cut(u.image, u.flying, 6), u.bank) == Found(s.image, s.bank) != Some(u.NewFlight())
  {
    hide Waits, Init, Run, Shape, Sound, BothClean, Found, Selected, HeaderBlank, FlightId, Cut;
    ShapeFacts(s);
    FlightWaits(s, p, b);
    ReachesCommit(Init(s, p), m, r, flag, t);
    var u := Run(Init(s, p), Flown(m, r, flag, t));
    FoundId(s.image, s.bank);
    CutShadowed(u, 6);
  }
}
