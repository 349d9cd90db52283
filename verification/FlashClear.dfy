/**
 The user's clear of the two-bank flight log (blackbox_sd_clear in
 src/storage/blackbox_flash.c): once its erasures are over, nothing of any flight is left.
 */
module FlashClear {
  import opened Bytes
  import opened NorFlash
  import opened Records
  import opened FlashModel
  import opened FlashSafety
  import opened FlashRuns

  /** The blocks of one bank. */
  function Blocks(bank: nat): nat { bank / 65536 }

  /** The blocks that are still to be erased, and one update to launch the first. */
  function ClearWork(s: State): int {
    if !s.erasing then 0
    else
      (s.eraseAddress - Base(s.bank, s.eraseBank)) / 65536 + 1 + (if s.op == NoOp then 1 else 0) +
      (if s.clearSecond && s.eraseBank == 0 then Blocks(s.bank) else 0)
  }

  /** Nothing is retained, and both banks are blank or being made so. */
  predicate Wiping(s: State) {
    && Shape(s) && Sound(s) && s.Live() && Emptied(s)
    && (s.op == NoOp || s.op == EraseOp)
    && if s.erasing then s.clearing else s.op == NoOp && s.phase == Ready && BothBlank(s.image, s.bank)
  }

  predicate BothBlank(image: seq<byte>, bank: nat) {
    Geometry(image, bank) && BankBlank(image, bank, 0) && BankBlank(image, bank, 1)
  }

  /** What the driver remembers of flights: nothing. */
  predicate Emptied(s: State) {
    && s.nextId == 1 && s.retained == NONE && s.committed == None && s.recordCount == 0 && s.queue == []
    && !s.recording && !s.finalise && !s.startPending
  }

  lemma ClearBegins(s: State)
    requires Shape(s) && Sound(s) && s.available && !s.recording && !s.Busy()
    ensures var u := Clear(s);
      Wiping(u) && u.erasing && u.op == NoOp && u.bank == s.bank && ClearWork(u) == 2 * Blocks(s.bank) + 1
      && u.enabled == s.enabled
  {
    ClearShape(s);
    ClearKeepsSound(s);
    hide CommandShape, BothClean, RetainedSound, StoppedSound, BankBlank, BlankFrom;
  }

  /** A block is erased, and the next one launched. */
  lemma NextBlock(s: State, t: Tick)
    requires Wiping(s) && s.op == EraseOp && MoreBlocks(s) && t.Works() && !t.busy
    ensures var u := Update(s, t); Wiping(u) && ClearWork(u) < ClearWork(s) && u.bank == s.bank && u.enabled == s.enabled
  {
    UpdateShape(s, t);
    UpdateSound(s, t);
    EraseNextShape(s);
    hide Shape, Sound, Erased, BothBlank;
  }

  /** The last block of the second bank is erased. */
  lemma LastBlock(s: State, t: Tick)
    requires Wiping(s) && s.op == EraseOp && !MoreBlocks(s) && t.Works() && !t.busy
    ensures var u := Update(s, t); Wiping(u) && ClearWork(u) < ClearWork(s) && u.bank == s.bank && u.enabled == s.enabled
  {
    hide Sound, Shape, BothBlank, BankBlank, Erased, StartNext;
    UpdateShape(s, t);
    UpdateSound(s, t);
    EraseFinishedShape(s);
    LastBlank(s);
    LastIs(s, t);
  }

  lemma LastIs(s: State, t: Tick)
    requires Wiping(s) && s.op == EraseOp && !MoreBlocks(s) && !t.busy
    ensures Update(s, t) == EraseFinished(s) && ClearWork(s) > 0
  {
    EraseFinishedShape(s);
    hide CommandShape, Sound, Erased, BothBlank;
  }

  lemma LastBlank(s: State)
    requires Wiping(s) && s.op == EraseOp && !MoreBlocks(s)
    ensures BothBlank(EraseFinished(s).image, s.bank)
  {
    FirstBlank(s);
    EraseFinishedSound(s);
    EraseFinishedShape(s);
    FlyingFits(s);
    CutInside(s.image, s.bank, 1, s.flying, PAGE);
    SameBankKeeps(s.image, Completed(s.image, s.flying), s.bank, 0);
    hide BothClean, RetainedSound, StoppedSound, BankBlank, Erased;
  }

  lemma FirstBlank(s: State)
    requires Wiping(s) && s.op == EraseOp && !MoreBlocks(s)
    ensures Geometry(s.image, s.bank) && s.eraseBank == 1 && BankBlank(s.image, s.bank, 0)
  {
    hide BothClean, RetainedSound, StoppedSound, BankBlank;
  }

  lemma WipeLaunches(s: State, t: Tick)
    requires Wiping(s) && s.op == NoOp && s.erasing && t.Works()
    ensures var u := Update(s, t); Wiping(u) && ClearWork(u) < ClearWork(s) && u.bank == s.bank && u.enabled == s.enabled
  {
    UpdateShape(s, t);
    UpdateSound(s, t);
    hide Shape, Sound, BothBlank, Cut;
  }

  lemma WipeLeft(s: State)
    requires Wiping(s)
    ensures ClearWork(s) >= 0 && (ClearWork(s) == 0 <==> !s.erasing) && (!s.erasing ==> !s.Busy())
    ensures s.erasing || s.op == NoOp
  {
    hide CommandShape, Sound, BothBlank;
  }

  lemma {:induction false} Wiped(s: State, ticks: seq<Tick>)
    requires Wiping(s) && AllWork(ticks) && Answered(ticks) >= ClearWork(s)
    ensures Shape(s) && var u := Run(s, Ticks(ticks)); Wiping(u) && !u.erasing && u.bank == s.bank && u.enabled == s.enabled
    decreases |ticks|
  {
    hide Shape, Sound, Update, BothBlank, ClearWork, Wiping, MoreBlocks;
    WipeLeft(s);
    WipeShape(s);
    if ticks != [] {
      var t := ticks[0];
      assert t.Works();
      assert Ticks(ticks)[1..] == Ticks(ticks[1..]);
      if !s.erasing {
        Idles(s, t);
      } else if s.op == NoOp {
        WipeLaunches(s, t);
      } else if t.busy {
        StallWaits(s, t);
      } else if MoreBlocks(s) {
        NextBlock(s, t);
      } else {
        LastBlock(s, t);
      }
      Wiped(Update(s, t), ticks[1..]);
    }
  }

  lemma WipeShape(s: State)
    requires Wiping(s)
    ensures Shape(s) && Sound(s) && (s.op == NoOp || s.op == EraseOp)
  {}

  lemma Idles(s: State, t: Tick)
    requires Shape(s) && !s.Busy()
    ensures Update(s, t) == s
  {}

  /** An accepted clear, with the chip found busy any number of times: once each block of both banks has
      been found erased, both are blank, nothing can be read, no restart finds a flight, and
      the next flight has id 1. */
  lemma ClearErases(s: State, ticks: seq<Tick>, k: nat, id: nat, i: nat, m: Metadata, t: Tick)
    requires Shape(s) && Sound(s) && s.available && !s.recording && !s.Busy()
    requires AllWork(ticks) && Answered(ticks) >= 2 * Blocks(s.bank) + 1
    ensures Shape(Clear(s)) && var u := Run(Clear(s), Ticks(ticks));
      && Shape(u) && Sound(u) && u.phase == Ready && !u.Busy() && u.bank == s.bank
      && BothBlank(u.image, u.bank) && Fits(u.image, u.flying)
      && Found(Cut(u.image, u.flying, k), u.bank) == None && GetRecord(u, id, i, true) == None
      && (s.enabled && t.Works() ==> Start(u, Some(m), t).recording && Start(u, Some(m), t).flightId == 1)
  {
    hide Shape, Sound, Run, Update, Clear, Start, Wiping, ClearWork, BothBlank, Found, Cut;
    ClearBegins(s);
    WipeShape(Clear(s));
    Wiped(Clear(s), ticks);
    var u := Run(Clear(s), Ticks(ticks));
    NothingLeft(u, k, id, i);
    StartsAgain(u, m, t);
  }

  lemma NothingLeft(u: State, k: nat, id: nat, i: nat)
    requires Wiping(u) && !u.erasing
    ensures Shape(u) && Sound(u) && u.phase == Ready && !u.Busy() && BothBlank(u.image, u.bank) && Fits(u.image, u.flying)
    ensures Found(Cut(u.image, u.flying, k), u.bank) == None && GetRecord(u, id, i, true) == None
  {
    WipeLeft(u);
    BlankContent(u.image, u.bank, 0);
    BlankContent(u.image, u.bank, 1);
    FoundIn(u.image, u.bank, 0);
    hide CommandShape, Sound, Content, Found, Selected, BankBlank;
  }

  lemma StartsAgain(u: State, m: Metadata, t: Tick)
    requires Wiping(u) && !u.erasing
    ensures Shape(u) && (u.enabled && t.Works() ==> Start(u, Some(m), t).recording && Start(u, Some(m), t).flightId == 1)
  {
    hide CommandShape, BothClean, Content, BankBlank, HeaderData, Cut;
  }
}
