/**
 From a start to the flight on the chip (src/storage/blackbox_flash.c): a flight carries the metadata
 of its start and the flag of its stop, and a start during an erasure begins when that is over.
 */
module FlashStart {
  import opened Bytes
  import opened NorFlash
  import opened Records
  import opened FlashModel
  import opened FlashSafety
  import opened FlashRuns
  import opened FlashMisuse
  import opened FlashReach
  import opened FlashClear

  // ------------------------------------------------- what a flight carries

  lemma StartCarries(s: State, m: Metadata, t: Tick)
    requires Waits(s) && t.Works()
    ensures var a := Start(s, Some(m), t);
      && Shape(a) && Sound(a) && Fed(a) && a.flightId == s.nextId && a.metadata == m && a.committed == s.committed
      && a.accepted == [] && a.bank == s.bank
  {
    FlightBegins(s, m, t);
    BegunFed(s, Start(s, Some(m), t));
    hide Shape, Sound, Begin;
  }

  lemma BegunFed(s: State, a: State)
    requires Begun(s, a)
    ensures Fed(a)
  {
    hide Sound;
  }

  lemma {:induction false} FedRun(s: State, events: seq<Event>)
    requires Shape(s) && Sound(s) && Fed(s) && forall e :: e in events ==> Feeding(e)
    ensures var u := Run(s, events); Shape(u) && Sound(u) && Fed(u) && SameFlight(s, u)
    decreases |events|
  {
    hide Shape, Sound, Step, Fed, Feeding, HasRoom;
    if events != [] {
      assert Feeding(events[0]);
      StepFeeds(s, events[0]);
      FedRun(Step(s, events[0]), events[1..]);
    }
  }

  /** From a start at rest, through any calls but a stop, to a retaining stop that has drained: the flight
      found is the one with the next id, the metadata of the start, the flag of the stop and every
      record accepted. */
  lemma FlightCarries(s: State, m: Metadata, t: Tick, events: seq<Event>, flag: byte, ticks: seq<Tick>)
    requires Waits(s) && t.Works() && forall e :: e in events ==> Feeding(e)
    requires Shape(Start(s, Some(m), t)) && var b := Run(Start(s, Some(m), t), events);
      b.Live() && b.accepted != [] && AllWork(ticks) && Answered(ticks) >= Work(Stop(b, flag, true))
    ensures var b := Run(Start(s, Some(m), t), events);
      Shape(b) && Shape(Stop(b, flag, true)) && var u := Run(Stop(b, flag, true), Ticks(ticks));
      Geometry(u.image, u.bank) && !u.Busy() && Found(u.image, u.bank) == Some(Flight(s.nextId, flag, m, b.accepted))
  {
    hide Shape, Sound, Run, Work, Stop, Start, Found, Fed, Feeding, State.Busy, Waits;
    WaitsShape(s);
    StartCarries(s, m, t);
    FedRun(Start(s, Some(m), t), events);
    var b := Run(Start(s, Some(m), t), events);
    StopCarries(b, flag, ticks);
  }

  lemma StopCarries(b: State, flag: byte, ticks: seq<Tick>)
    requires Shape(b) && Sound(b) && Fed(b) && b.Live() && b.accepted != []
    requires AllWork(ticks) && Answered(ticks) >= Work(Stop(b, flag, true))
    ensures Shape(Stop(b, flag, true)) && var u := Run(Stop(b, flag, true), Ticks(ticks));
      && Shape(u) && Geometry(u.image, u.bank) && !u.Busy()
      && Found(u.image, u.bank) == Some(Flight(b.flightId, flag, b.metadata, b.accepted))
  {
    hide Shape, Sound, Run, Work, Stop, Found, State.Busy;
    StopDue(b, flag, true);
    Drained(Stop(b, flag, true), ticks);
    var u := Run(Stop(b, flag, true), Ticks(ticks));
    ShapeFacts(u);
    RestsFound(u, Flight(b.flightId, flag, b.metadata, b.accepted));
  }

  lemma RestsFound(u: State, f: Flight)
    requires Shape(u) && Sound(u) && u.Live() && !u.Busy() && !u.recording && u.committed == Some(f)
    ensures Geometry(u.image, u.bank) && Found(u.image, u.bank) == Some(f)
  {
    FoundIn(u.image, u.bank, u.retained);
    hide Content, Found, Selected, Clean, BankBlank, CommandShape;
  }

  // ------------------------------------------------- a start during an erasure

  /** A bank is being erased, or about to be, and no flight is recorded. */
  predicate Erases(s: State) {
    && Shape(s) && Sound(s) && s.Live() && s.erasing && !s.recording && (s.op == NoOp || s.op == EraseOp)
  }

  /** The start is remembered if and only if the driver is enabled and does not count the bank it writes
      to as retained, which it does while it erases the bank retained before. */
  lemma DeferredExactly(s: State, m: Metadata, t: Tick)
    requires Erases(s)
    ensures var u := Start(s, Some(m), t);
      && Erases(u) && ClearWork(u) == ClearWork(s) && u.nextId == s.nextId && u.committed == s.committed && u.bank == s.bank
      && (if s.enabled && s.writeBank != s.retained then u.startPending && u.metadata == m else u == s)
  {
    StartShape(s, Some(m), t);
    StartSound(s, Some(m), t);
    hide CommandShape, BothClean, RetainedSound, StoppedSound, BankBlank, BlankFrom, Begin;
  }

  /** A flight is being recorded that began with the pending start. */
  predicate Began(s: State, u: State) {
    && Shape(u) && Sound(u) && u.Live() && Fed(u) && u.flightId == s.nextId && u.metadata == s.metadata && u.accepted == []
    && u.committed == s.committed && u.bank == s.bank
  }

  predicate SameStart(s: State, u: State) {
    u.startPending == s.startPending && u.nextId == s.nextId && u.metadata == s.metadata && u.committed == s.committed && u.bank == s.bank
  }

  lemma PendingLaunches(s: State, t: Tick)
    requires Erases(s) && s.op == NoOp && t.Works()
    ensures var u := Update(s, t); Erases(u) && SameStart(s, u) && ClearWork(u) < ClearWork(s)
  {
    UpdateShape(s, t);
    UpdateSound(s, t);
    hide Shape, Sound, Cut;
  }

  lemma PendingGoesOn(s: State, t: Tick)
    requires Erases(s) && s.op == EraseOp && MoreBlocks(s) && t.Works() && !t.busy
    ensures var u := Update(s, t); Erases(u) && SameStart(s, u) && ClearWork(u) < ClearWork(s)
  {
    UpdateShape(s, t);
    UpdateSound(s, t);
    EraseNextShape(s);
    hide Shape, Sound, Erased;
  }

  lemma PendingBegins(s: State, t: Tick)
    requires Erases(s) && s.op == EraseOp && !MoreBlocks(s) && s.startPending && t.Works() && !t.busy
    ensures Began(s, Update(s, t))
  {
    UpdateShape(s, t);
    UpdateSound(s, t);
    EraseFinishedShape(s);
    hide CommandShape, Sound, Erased, HeaderData, Cut;
  }

  lemma BeganWaits(s: State, u: State, t: Tick)
    requires Began(s, u) && t.Works()
    ensures Began(s, Update(u, t))
  {
    hide Shape, Sound, Update, Fed;
    UpdateShape(u, t);
    UpdateSound(u, t);
    UpdateFeeds(u, t);
    FedLives(u, t);
  }

  lemma FedLives(u: State, t: Tick)
    requires Shape(u) && Sound(u) && Fed(u) && u.Live() && t.Works()
    ensures Update(u, t).Live()
  {
    FedNotErasing(u);
    if u.op == NoOp {
      StartNextLives(u, t);
    } else if !t.busy {
      CompleteShape(u, t);
      CompleteLives(u, t);
      if Complete(u, t).op == NoOp { StartNextLives(Complete(u, t), t); }
    }
    hide Shape, Sound, Fed, Complete, StartNext;
  }

  lemma FedNotErasing(u: State)
    requires Shape(u) && Sound(u) && Fed(u)
    ensures u.op != EraseOp
  {
    hide Found, BankBlank, BlankFrom, Stream, Content, Clean;
  }

  lemma StartNextLives(c: State, t: Tick)
    requires Resting(c) && c.Live() && t.Works()
    ensures StartNext(c, t).Live()
  {
    hide Launch, LaunchFinal, Discard, RecordCommand, Shape, State.Live;
    if c.erasing {
      LaunchFits(c);
      LaunchLives(c, EraseOp, Erase(c.eraseAddress), t);
    } else if |c.queue| > 0 {
      LaunchFits(c);
      LaunchLives(c, RecordOp, RecordCommand(c), t);
    } else if c.finalise && c.retain {
      FinalLives(c, t);
    } else if c.finalise {
      DiscardLives(c);
    }
  }

  lemma LaunchFits(c: State)
    requires Resting(c)
    ensures c.erasing ==> Fits(c.image, Erase(c.eraseAddress))
    ensures |c.queue| > 0 ==> Fits(c.image, RecordCommand(c))
  {
    hide Stream;
  }

  lemma LaunchLives(c: State, op: Operation, command: Command, t: Tick)
    requires c.Live() && t.Works() && Fits(c.image, command)
    ensures Launch(c, op, command, t).Live()
  {
    hide Cut;
  }

  lemma FinalLives(c: State, t: Tick)
    requires Shape(c) && c.Live() && t.Works() && c.finalise && c.queue == []
    ensures LaunchFinal(c, t).Live()
  {
    hide Cut, CommandShape;
  }

  lemma DiscardLives(c: State)
    requires Shape(c) && c.Live()
    ensures Discard(c).Live()
  {
    hide CommandShape;
  }

  lemma ErasesFacts(s: State)
    requires Erases(s)
    ensures Shape(s) && ClearWork(s) > 0 && (s.op == NoOp || s.op == EraseOp)
  {
    hide CommandShape, Sound;
  }

  lemma {:induction false} PendingRuns(s: State, ticks: seq<Tick>)
    requires Erases(s) && s.startPending && AllWork(ticks) && Answered(ticks) >= ClearWork(s)
    ensures Shape(s) && Began(s, Run(s, Ticks(ticks)))
    decreases |ticks|
  {
    hide Shape, Sound, Update, ClearWork, Erases, MoreBlocks, Began;
    ErasesFacts(s);
    var t := ticks[0];
    assert t.Works();
    assert Ticks(ticks)[1..] == Ticks(ticks[1..]);
    if s.op == NoOp {
      PendingLaunches(s, t);
      PendingRuns(Update(s, t), ticks[1..]);
      BeganOn(s, Update(s, t), Run(s, Ticks(ticks)));
    } else if t.busy {
      StallWaits(s, t);
      PendingRuns(s, ticks[1..]);
    } else if MoreBlocks(s) {
      PendingGoesOn(s, t);
      PendingRuns(Update(s, t), ticks[1..]);
      BeganOn(s, Update(s, t), Run(s, Ticks(ticks)));
    } else {
      PendingBegins(s, t);
      BeganRuns(s, Update(s, t), ticks[1..]);
    }
  }

  lemma BeganOn(s: State, m: State, u: State)
    requires SameStart(s, m) && Began(m, u)
    ensures Began(s, u)
  {}

  lemma {:induction false} BeganRuns(s: State, u: State, ticks: seq<Tick>)
    requires Began(s, u) && AllWork(ticks)
    ensures Shape(u) && Began(s, Run(u, Ticks(ticks)))
    decreases |ticks|
  {
    hide Shape, Sound, Update, Began;
    BeganShape(s, u);
    if ticks != [] {
      assert ticks[0].Works();
      assert Ticks(ticks)[1..] == Ticks(ticks[1..]);
      BeganWaits(s, u, ticks[0]);
      BeganRuns(s, Update(u, ticks[0]), ticks[1..]);
    }
  }

  lemma BeganShape(s: State, u: State)
    requires Began(s, u)
    ensures Shape(u)
  {}

  // ------------------------------------------------- without a pending start

  /** No flight is recorded, and none waits. */
  predicate Unstarted(s: State) { Shape(s) && Sound(s) && s.Live() && !s.recording && !s.startPending }

  lemma UnstartedStays(s: State, t: Tick)
    requires Unstarted(s) && t.Works()
    ensures Unstarted(Update(s, t))
  {
    hide Shape, Sound, StartNext, EraseNext, EraseFinished, Complete, Update;
    UpdateShape(s, t);
    UpdateSound(s, t);
    UnstartedOps(s);
    if s.op == NoOp {
      NextUnstarted(s, t);
    } else if !t.busy {
      EraseUnstarted(s, t);
    }
    UpdateCases(s, t);
  }

  lemma UnstartedOps(s: State)
    requires Unstarted(s)
    ensures (s.op == NoOp || s.op == EraseOp) && s.queue == [] && !(s.finalise && s.retain)
  {
    hide Shape, BothClean, RetainedSound, StoppedSound, BankBlank, BlankFrom;
  }

  /** Neither recording nor pending, and not failed. */
  predicate Still(s: State) { s.Live() && !s.recording && !s.startPending }

  lemma NextUnstarted(s: State, t: Tick)
    requires Resting(s) && Still(s) && s.queue == [] && !(s.finalise && s.retain) && t.Works()
    ensures Still(StartNext(s, t))
  {
    hide Shape, Cut;
  }

  lemma EraseUnstarted(s: State, t: Tick)
    requires Shape(s) && s.op == EraseOp && Still(s) && s.queue == [] && !(s.finalise && s.retain) && t.Works()
    ensures var c := EraseDone(s, t); Resting(c) && Still(c) && Still(StartNext(c, t))
  {
    EraseFinishedShape(s);
    if MoreBlocks(s) { EraseNextShape(s); }
    ErasedStill(s);
    hide Shape, EraseNext, EraseFinished, StartNext;
    NextUnstarted(EraseDone(s, t), t);
  }

  lemma ErasedStill(s: State)
    requires Shape(s) && s.op == EraseOp && Still(s)
    ensures var n := EraseNext(s); Still(n) && n.op == NoOp && n.queue == s.queue && n.finalise == s.finalise && n.retain == s.retain
    ensures var e := EraseFinished(s); Still(e) && e.queue == s.queue && e.finalise == s.finalise && e.retain == s.retain
  {
    hide Erased;
  }

  lemma UpdateCases(s: State, t: Tick)
    requires Shape(s) && s.Live() && (s.op == NoOp || s.op == EraseOp) && t.Works() && !s.startPending
    ensures Update(s, t) == if s.op == NoOp then StartNext(s, t) else if t.busy then s
                            else (EraseFinishedShape(s); CompleteShape(s, t); StartNext(EraseDone(s, t), t))
  {
    EraseKeepsIdle(s, t);
    hide Shape, StartNext, EraseDone;
  }

  lemma EraseKeepsIdle(s: State, t: Tick)
    requires Shape(s) && !s.startPending
    ensures s.op == EraseOp ==> EraseDone(s, t).op == NoOp
  {}

  lemma {:induction false} UnstartedRuns(s: State, ticks: seq<Tick>)
    requires Unstarted(s) && AllWork(ticks)
    ensures Shape(s) && Unstarted(Run(s, Ticks(ticks)))
    decreases |ticks|
  {
    hide Shape, Sound, Update;
    if ticks != [] {
      assert ticks[0].Works();
      assert Ticks(ticks)[1..] == Ticks(ticks[1..]);
      UnstartedStays(s, ticks[0]);
      UnstartedRuns(Update(s, ticks[0]), ticks[1..]);
    }
  }

  /** A start during an erasure: once the blocks have been found erased its flight is being recorded, with
      the next id and the metadata given, if and only if the driver is enabled and the bank that it
      writes to is not the one retained; otherwise the start is forgotten. */
  lemma StartDuringErase(s: State, m: Metadata, t: Tick, ticks: seq<Tick>)
    requires Erases(s) && !s.startPending && AllWork(ticks) && Answered(ticks) >= ClearWork(s)
    ensures Shape(s) && Shape(Start(s, Some(m), t)) && var u := Run(Start(s, Some(m), t), Ticks(ticks));
      && Shape(u) && (u.recording <==> s.enabled && s.writeBank != s.retained)
      && (u.recording ==> u.flightId == s.nextId && u.metadata == m && u.accepted == [] && Accepting(u))
  {
    hide Shape, Sound, Run, Start, Update, ClearWork;
    DeferredExactly(s, m, t);
    ErasesFacts(Start(s, Some(m), t));
    if s.enabled && s.writeBank != s.retained {
      PendingRuns(Start(s, Some(m), t), ticks);
    } else {
      UnstartedRuns(s, ticks);
    }
  }
}
