/**
 The loop's clocks: loop_deadline_recover and loop_period_advance (src/app/loop_deadline.h), and
 the deadline and task lines of src/app/main.c.  Words are 32-bit; the run theorems speak of
 the true, unwrapped times behind them.
 */
module Scheduler {
  import opened Bytes

  const HALF := 0x8000_0000

  lemma Division(a: nat, b: nat)
    requires b > 0
    ensures (a / b) * b + a % b == a && 0 <= a % b < b && a / b >= 0
  {}

  /** The quotient is the only one. */
  lemma QuotientIs(a: nat, b: nat, q: nat, r: nat)
    requires a == q * b + r && r < b
    ensures a / b == q && a % b == r
  {
    Division(a, b);
    var p := a / b;
    if p < q { Gap(p, q, b); } else if p > q { Gap(q, p, b); }
  }

  lemma Gap(p: nat, q: nat, b: nat)
    requires p < q
    ensures p * b + b <= q * b
  {
    Distribute(p + 1, q - p - 1, b);
    Distribute(p, 1, b);
    Product(q - p - 1, b);
  }

  lemma Product(a: nat, b: nat)
    ensures 0 <= a * b
  {}

  // ------------------------------------------------- the deadline

  /** loop_deadline_recover: a deadline in the future stands; any other moves on by the whole periods
      that are over, each of them counted, and ends less than a period behind the clock. */
  method Recover(deadline: nat, now: nat, period: nat, missedSlots: nat)
    returns (next: nat, missed: nat, ghost skipped: nat)
    requires deadline < WORD && now < WORD && 0 < period < HALF && missedSlots < WORD
    ensures next == Add32(deadline, skipped * period) && missed == Add32(missedSlots, skipped)
    ensures var late := Sub32(now, deadline);
      if late >= HALF then skipped == 0
      else skipped * period <= late < skipped * period + period && Sub32(now, next) == late - skipped * period
    ensures next == Recovered(deadline, now, period) && missed == Add32(missedSlots, Skipped(deadline, now, period))
  {
    next, missed, skipped := deadline, missedSlots, 0;
    var late := Sub32(now, deadline);
    if late < HALF && late >= period {
      Division(late, period);
      skipped := late / period;
      var whole := late / period;
      missed := Add32(missed, whole);
      next := Add32(next, whole * period);
    }
    Behind(deadline, now, skipped * period);
  }

  lemma Behind(deadline: nat, now: nat, moved: nat)
    requires deadline < WORD && now < WORD && moved <= Sub32(now, deadline)
    ensures Sub32(now, Add32(deadline, moved)) == Sub32(now, deadline) - moved && Add32(deadline, 0) == deadline
  {}

  /** Whole slots that have been missed. */
  function Skipped(deadline: nat, now: nat, period: nat): nat
    requires period > 0
  {
    var late := Sub32(now, deadline);
    Division(late, period);
    if late < HALF && late >= period then late / period else 0
  }

  function Recovered(deadline: nat, now: nat, period: nat): nat
    requires period > 0
  {
    Add32(deadline, Skipped(deadline, now, period) * period)
  }

  /** The same on true times. */
  function TrueSkipped(d: nat, t: nat, period: nat): nat
    requires period > 0
  {
    if t >= d then (Division(t - d, period); (t - d) / period) else 0
  }

  lemma SubTrue(d: nat, t: nat)
    requires d <= t < d + HALF || t < d <= t + HALF
    ensures d <= t ==> Sub32(t % WORD, d % WORD) == t - d
    ensures t < d ==> Sub32(t % WORD, d % WORD) >= HALF
  {}

  lemma AddTrue(d: nat, n: nat)
    ensures Add32(d % WORD, n) == (d + n) % WORD
  {}

  /** Within half a wrap of each other, the words behave as the true times. */
  lemma RecoverTrue(d: nat, t: nat, period: nat)
    requires 0 < period < HALF && (d <= t < d + HALF || t < d <= t + HALF)
    ensures Skipped(d % WORD, t % WORD, period) == TrueSkipped(d, t, period)
    ensures Recovered(d % WORD, t % WORD, period) == (d + TrueSkipped(d, t, period) * period) % WORD
    ensures t < d + TrueSkipped(d, t, period) * period + period
  {
    hide Sub32, Add32;
    SubTrue(d, t);
    AddTrue(d, TrueSkipped(d, t, period) * period);
    if t >= d {
      Division(t - d, period);
      if t - d < period { QuotientIs(t - d, period, 0, t - d); }
    }
  }

  datatype Clock = Clock(deadline: nat, missed: nat)

  /** One main_loop_step: the next slot, and whole missed slots are dropped. */
  function LoopStep(c: Clock, now: nat, period: nat): Clock
    requires period > 0
  {
    var next := Add32(c.deadline, period);
    Clock(Recovered(next, now, period), Add32(c.missed, Skipped(next, now, period)))
  }

  /** The run of a loop: `times` are the true times at the end of each step. */
  function RunWords(c: Clock, times: seq<nat>, period: nat): Clock
    requires period > 0
    decreases |times|
  {
    if times == [] then c else RunWords(LoopStep(c, times[0] % WORD, period), times[1..], period)
  }

  /** The true slot after each step, counted from the start. */
  function SlotAfter(start: nat, slot: nat, t: nat, period: nat): nat
    requires period > 0
  {
    var next := start + (slot + 1) * period;
    slot + 1 + TrueSkipped(next, t, period)
  }

  function Slots(start: nat, slot: nat, times: seq<nat>, period: nat): nat
    requires period > 0
    decreases |times|
  {
    if times == [] then slot else Slots(start, SlotAfter(start, slot, times[0], period), times[1..], period)
  }

  /** Every step ends within half a wrap of the slot it aims at. */
  predicate Close(start: nat, slot: nat, times: seq<nat>, period: nat)
    requires period > 0
    decreases |times|
  {
    times == [] ||
    var next := start + (slot + 1) * period;
    (next <= times[0] < next + HALF || times[0] < next <= times[0] + HALF) &&
    Close(start, SlotAfter(start, slot, times[0], period), times[1..], period)
  }

  /** The deadline keeps its phase: it is the start plus a whole number of periods, one for each
      step and one for each missed slot, and it ends less than a period behind the clock. */
  lemma {:induction false} PhaseKept(start: nat, slot: nat, missed: nat, times: seq<nat>, period: nat)
    requires 0 < period < HALF && Close(start, slot, times, period)
    ensures var c := RunWords(Clock((start + slot * period) % WORD, missed % WORD), times, period);
      var end := Slots(start, slot, times, period);
      && end >= slot + |times|
      && c.deadline == (start + end * period) % WORD && c.missed == (missed + (end - slot - |times|)) % WORD
      && (times != [] ==> times[|times| - 1] < start + end * period + period)
    decreases |times|
  {
    if times != [] {
      hide Recovered, Skipped, TrueSkipped;
      var next := start + (slot + 1) * period;
      var skipped := TrueSkipped(next, times[0], period);
      StepTrue(start, slot, missed, times[0], period);
      PhaseKept(start, slot + 1 + skipped, missed + skipped, times[1..], period);
      if |times| == 1 { OneStep(start, slot, times[0], period); }
    }
  }

  lemma StepTrue(start: nat, slot: nat, missed: nat, t: nat, period: nat)
    requires 0 < period < HALF
    requires var next := start + (slot + 1) * period; next <= t < next + HALF || t < next <= t + HALF
    ensures var end := SlotAfter(start, slot, t, period);
      LoopStep(Clock((start + slot * period) % WORD, missed % WORD), t % WORD, period) ==
      Clock((start + end * period) % WORD, (missed + (end - slot - 1)) % WORD)
  {
    hide Recovered, Skipped, TrueSkipped, Add32;
    var next := start + (slot + 1) * period;
    var skipped := TrueSkipped(next, t, period);
    AddTrue(start + slot * period, period);
    Distribute(slot, 1, period);
    RecoverTrue(next, t, period);
    Distribute(slot + 1, skipped, period);
    AddTrue(missed, skipped);
  }

  lemma Distribute(a: nat, b: nat, p: nat)
    ensures (a + b) * p == a * p + b * p
  {}

  lemma OneStep(start: nat, slot: nat, t: nat, period: nat)
    requires 0 < period < HALF
    requires var next := start + (slot + 1) * period; next <= t < next + HALF || t < next <= t + HALF
    ensures t < start + SlotAfter(start, slot, t, period) * period + period
  {
    hide TrueSkipped;
    var next := start + (slot + 1) * period;
    RecoverTrue(next, t, period);
    Distribute(slot + 1, TrueSkipped(next, t, period), period);
  }

  // ------------------------------------------------- tasks

  /** A periodic task of the main loop. */
  class Task {
    var phase: nat
    const rate: nat

    constructor (r: nat)
      ensures phase == 0 && rate == r
    {
      phase, rate := 0, r;
    }

    /** task_due */
    method Due(loopHz: nat) returns (due: bool)
      requires phase < loopHz && rate <= loopHz
      modifies this
      ensures phase < loopHz && old(phase) + rate == (if due then loopHz else 0) + phase
      ensures phase == DuePhase(old(phase), rate, loopHz) && due == IsDue(old(phase), rate, loopHz)
    {
      phase := phase + rate;
      if phase < loopHz { return false; }
      phase := phase - loopHz;
      due := true;
    }
  }

  predicate IsDue(phase: nat, rate: nat, loopHz: nat) { phase + rate >= loopHz }

  function DuePhase(phase: nat, rate: nat, loopHz: nat): nat {
    if IsDue(phase, rate, loopHz) then phase + rate - loopHz else phase + rate
  }

  /** How often a task fires in `n` calls. */
  function Fired(phase: nat, rate: nat, loopHz: nat, n: nat): nat
    decreases n
  {
    if n == 0 then 0
    else (if IsDue(phase, rate, loopHz) then 1 else 0) + Fired(DuePhase(phase, rate, loopHz), rate, loopHz, n - 1)
  }

  function PhaseAfter(phase: nat, rate: nat, loopHz: nat, n: nat): nat
    decreases n
  {
    if n == 0 then phase else PhaseAfter(DuePhase(phase, rate, loopHz), rate, loopHz, n - 1)
  }

  lemma {:induction false} FiredSum(phase: nat, rate: nat, loopHz: nat, n: nat)
    requires phase < loopHz && rate <= loopHz
    ensures PhaseAfter(phase, rate, loopHz, n) < loopHz
    ensures phase + n * rate == Fired(phase, rate, loopHz, n) * loopHz + PhaseAfter(phase, rate, loopHz, n)
    decreases n
  {
    if n > 0 {
      FiredSum(DuePhase(phase, rate, loopHz), rate, loopHz, n - 1);
      Distribute(n - 1, 1, rate);
      Distribute(1, Fired(DuePhase(phase, rate, loopHz), rate, loopHz, n - 1), loopHz);
    }
  }

  /** A task at most as fast as the loop fires exactly as often as its rate says, rounded down. */
  lemma FiresAtRate(phase: nat, rate: nat, loopHz: nat, n: nat)
    requires phase < loopHz && rate <= loopHz
    ensures Fired(phase, rate, loopHz, n) == (phase + n * rate) / loopHz
    ensures PhaseAfter(phase, rate, loopHz, n) == (phase + n * rate) % loopHz
  {
    hide Fired, PhaseAfter;
    FiredSum(phase, rate, loopHz, n);
    QuotientIs(phase + n * rate, loopHz, Fired(phase, rate, loopHz, n), PhaseAfter(phase, rate, loopHz, n));
  }

  // ------------------------------------------------- fractional periods

  /** loop_period_advance: the whole microseconds of `slots` periods of 1/hz, and what is left of them.
      Nothing is lost: microseconds and remainder add up to the exact time. */
  method Advance(hz: nat, slots: nat, remainder: nat) returns (us: nat, rest: nat, ghost q: nat)
    requires 0 < hz < WORD && slots < WORD && remainder < hz
    ensures q * hz + rest == slots * 1000000 + remainder && rest < hz && us == q % WORD
    ensures q == AdvanceBy(hz, slots, remainder) && rest == RestAfter(hz, slots, remainder)
  {
    var numerator := slots * 1000000 + remainder;
    Division(numerator, hz);
    rest := numerator % hz;
    q := numerator / hz;
    us := (numerator / hz) % WORD;
  }

  function AdvanceBy(hz: nat, slots: nat, remainder: nat): nat
    requires hz > 0
  {
    Division(slots * 1000000 + remainder, hz);
    (slots * 1000000 + remainder) / hz
  }

  function RestAfter(hz: nat, slots: nat, remainder: nat): (r: nat)
    requires hz > 0
    ensures r < hz
  {
    Division(slots * 1000000 + remainder, hz);
    (slots * 1000000 + remainder) % hz
  }

  function Total(parts: seq<nat>): nat
    decreases |parts|
  {
    if parts == [] then 0 else parts[0] + Total(parts[1..])
  }

  /** The microseconds of several advances, one after the other. */
  function AdvanceAll(hz: nat, parts: seq<nat>, remainder: nat): nat
    requires hz > 0
    decreases |parts|
  {
    if parts == [] then 0
    else AdvanceBy(hz, parts[0], remainder) + AdvanceAll(hz, parts[1..], RestAfter(hz, parts[0], remainder))
  }

  function RestAll(hz: nat, parts: seq<nat>, remainder: nat): nat
    requires hz > 0
    decreases |parts|
  {
    if parts == [] then remainder else RestAll(hz, parts[1..], RestAfter(hz, parts[0], remainder))
  }

  /** However the slots are split, the same microseconds pass and the same remainder is left. */
  lemma {:induction false} AnySplit(hz: nat, parts: seq<nat>, remainder: nat)
    requires hz > 0 && remainder < hz
    ensures AdvanceAll(hz, parts, remainder) == AdvanceBy(hz, Total(parts), remainder)
    ensures RestAll(hz, parts, remainder) == RestAfter(hz, Total(parts), remainder)
    decreases |parts|
  {
    if parts == [] {
      QuotientIs(remainder, hz, 0, remainder);
    } else {
      var rest := RestAfter(hz, parts[0], remainder);
      AnySplit(hz, parts[1..], rest);
      TwoParts(hz, parts[0], Total(parts[1..]), remainder);
    }
  }

  lemma TwoParts(hz: nat, a: nat, b: nat, remainder: nat)
    requires hz > 0
    ensures var rest := RestAfter(hz, a, remainder);
      && AdvanceBy(hz, a + b, remainder) == AdvanceBy(hz, a, remainder) + AdvanceBy(hz, b, rest)
      && RestAfter(hz, a + b, remainder) == RestAfter(hz, b, rest)
  {
    Division(a * 1000000 + remainder, hz);
    var rest := RestAfter(hz, a, remainder);
    Division(b * 1000000 + rest, hz);
    Distribute(AdvanceBy(hz, a, remainder), AdvanceBy(hz, b, rest), hz);
    QuotientIs((a + b) * 1000000 + remainder, hz, AdvanceBy(hz, a, remainder) + AdvanceBy(hz, b, rest),
               RestAfter(hz, b, rest));
  }

  /** A second is a second: `hz` slots of 1/hz are exactly one million microseconds. */
  lemma WholeSecond(hz: nat, parts: seq<nat>)
    requires hz > 0 && Total(parts) == hz
    ensures AdvanceAll(hz, parts, 0) == 1000000 && RestAll(hz, parts, 0) == 0
  {
    AnySplit(hz, parts, 0);
    QuotientIs(hz * 1000000, hz, 1000000, 0);
  }
}
