/**
 The short flight log in RAM and the MCU's flash (src/storage/flight_log.c): a ring of the
 newest samples on a fixed time grid, saved once after the flight and found again at start-up.
 */
module FlightLogRing {
  import opened Bytes
  import opened Records
  import opened Crc32
  import Checksums
  import Fnv
  import Scheduler

  const RATE_HZ := 500
  const PERIOD_US := 2000
  const PERSIST_DELAY_US := 200_000
  const SATURATED := 65535

  /** A record: when it was taken, the eviction count it carries, and its other bytes. */
  datatype Sample = Sample(timeUs: nat, overwritten: nat, body: seq<octet>)

  // ------------------------------------------------- the chained checksum

  /** The record as it lies in memory, with its reserved byte. */
  function Image(s: Sample): seq<octet> { Word(s.timeUs) + s.body + Half(s.overwritten) + [0] }

  function Word(n: nat): seq<octet> {
    [(n % 256) as octet, (n / 256 % 256) as octet, (n / 65536 % 256) as octet, (n / 16777216 % 256) as octet]
  }

  function Half(n: nat): seq<octet> { [(n % 256) as octet, (n / 256 % 256) as octet] }

  function Images(log: seq<Sample>): seq<octet> {
    if log == [] then [] else Images(log[..|log| - 1]) + Image(log[|log| - 1])
  }

  // ------------------------------------------------- the ring

  /** Index arithmetic of a ring of `capacity` cells. */
  function Wrap(i: nat, capacity: nat): nat { if i < capacity then i else i - capacity }

  lemma WrapIsModulo(i: nat, capacity: nat)
    requires capacity > 0 && i < 2 * capacity
    ensures i % capacity == Wrap(i, capacity) && Wrap(i, capacity) < capacity
  {
    if i < capacity { Scheduler.QuotientIs(i, capacity, 0, i); }
    else { Scheduler.QuotientIs(i, capacity, 1, i - capacity); }
  }

  function Least(a: nat, b: nat): nat { if a < b then a else b }

  /** The newest `capacity` samples, oldest first. */
  function Newest(taken: seq<Sample>, capacity: nat): (log: seq<Sample>)
    ensures |log| == Least(|taken|, capacity)
  {
    taken[|taken| - Least(|taken|, capacity)..]
  }

  /** The count the source keeps of samples that are gone. */
  function Evicted(taken: nat, capacity: nat): nat { if taken <= capacity then 0 else Least(taken - capacity, SATURATED) }

  /** Samples kept and samples counted as evicted are all that were taken, until the count saturates at 65535. */
  lemma EvictionCount(taken: seq<Sample>, capacity: nat)
    ensures |taken| <= capacity + 65535 ==> |Newest(taken, capacity)| + Evicted(|taken|, capacity) == |taken|
    ensures capacity + 65535 <= |taken| ==> Evicted(|taken|, capacity) == 65535
    ensures |Newest(taken, capacity)| <= capacity
  {}

  function Oldest(count: nat, capacity: nat, writeIndex: nat): nat { if count == capacity then writeIndex else 0 }

  /** The cells hold `log`, oldest first. */
  ghost predicate Holds(cells: seq<Sample>, writeIndex: nat, log: seq<Sample>) {
    && 0 < |cells| && writeIndex < |cells| && |log| <= |cells|
    && (|log| < |cells| ==> writeIndex == |log|)
    && forall i :: 0 <= i < |log| ==> cells[Wrap(Oldest(|log|, |cells|, writeIndex) + i, |cells|)] == log[i]
  }

  /** Storing a sample keeps the newest ones: there is room ... */
  lemma StoreFits(cells: seq<Sample>, writeIndex: nat, log: seq<Sample>, s: Sample)
    requires Holds(cells, writeIndex, log) && |log| < |cells|
    ensures Holds(cells[writeIndex := s], Wrap(writeIndex + 1, |cells|), log + [s])
  {
    var after := cells[writeIndex := s];
    forall i | 0 <= i < |log| + 1 ensures after[Wrap(0 + i, |cells|)] == (log + [s])[i] {
      if i < |log| { assert cells[Wrap(Oldest(|log|, |cells|, writeIndex) + i, |cells|)] == log[i]; }
    }
  }

  /** ... or the oldest goes. */
  lemma StoreEvicts(cells: seq<Sample>, writeIndex: nat, log: seq<Sample>, s: Sample)
    requires Holds(cells, writeIndex, log) && |log| == |cells|
    ensures Holds(cells[writeIndex := s], Wrap(writeIndex + 1, |cells|), log[1..] + [s])
  {
    var after, next := cells[writeIndex := s], Wrap(writeIndex + 1, |cells|);
    forall i | 0 <= i < |log| ensures after[Wrap(next + i, |cells|)] == (log[1..] + [s])[i] {
      if i + 1 < |log| { assert cells[Wrap(Oldest(|log|, |cells|, writeIndex) + (i + 1), |cells|)] == log[i + 1]; }
    }
  }

  lemma NewestGrows(taken: seq<Sample>, capacity: nat, s: Sample)
    requires capacity > 0
    ensures Newest(taken + [s], capacity) ==
      if |Newest(taken, capacity)| < capacity then Newest(taken, capacity) + [s] else Newest(taken, capacity)[1..] + [s]
  {}

  lemma Empty(cells: seq<Sample>)
    requires 0 < |cells|
    ensures Holds(cells, 0, Newest([], |cells|)) && Newest([], |cells|) == []
  {}

  // ------------------------------------------------- the time grid

  /** The next slot of the grid after `now`. */
  function NextSlot(next: nat, now: nat): nat
    requires next <= now
  {
    next + ((now - next) / PERIOD_US + 1) * PERIOD_US
  }

  /** Samples of a run that asks at the true times `times`: only the first at or after each slot. */
  function Accepted(next: nat, times: seq<nat>): seq<nat>
    decreases |times|
  {
    if times == [] then []
    else if times[0] < next then Accepted(next, times[1..])
    else [times[0]] + Accepted(NextSlot(next, times[0]), times[1..])
  }

  function SlotOf(start: nat, t: nat): nat
    requires start <= t
  {
    (t - start) / PERIOD_US
  }

  lemma SlotAtLeast(start: nat, n: nat, t: nat)
    requires start + n * PERIOD_US <= t
    ensures n <= SlotOf(start, t)
  {}

  lemma SlotExactly(start: nat, m: nat, t: nat)
    requires start + m * PERIOD_US <= t
    ensures SlotOf(start, t) == m + (t - (start + m * PERIOD_US)) / PERIOD_US
    ensures NextSlot(start + m * PERIOD_US, t) == start + (SlotOf(start, t) + 1) * PERIOD_US
  {}

  /** The accepted times come in slot order, one to a slot, none before slot `m`. */
  ghost predicate OneToASlot(start: nat, m: nat, accepted: seq<nat>) {
    && (forall k :: 0 <= k < |accepted| ==> start <= accepted[k] && m <= SlotOf(start, accepted[k]))
    && forall j, k :: 0 <= j < k < |accepted| ==> SlotOf(start, accepted[j]) < SlotOf(start, accepted[k])
  }

  lemma OneMore(start: nat, m: nat, first: nat, rest: seq<nat>)
    requires start <= first && m <= SlotOf(start, first) && OneToASlot(start, SlotOf(start, first) + 1, rest)
    ensures OneToASlot(start, m, [first] + rest)
  {
    hide SlotOf;
  }

  /** No two samples lie in one slot of the grid that begins with the flight. */
  lemma {:induction false} DistinctSlots(start: nat, m: nat, times: seq<nat>)
    ensures OneToASlot(start, m, Accepted(start + m * PERIOD_US, times))
    decreases |times|
  {
    hide SlotOf, NextSlot, OneToASlot;
    var next := start + m * PERIOD_US;
    if times == [] {
      NoSamples(start, m);
    } else if times[0] < next {
      DistinctSlots(start, m, times[1..]);
      assert Accepted(next, times) == Accepted(next, times[1..]);
    } else {
      SlotExactly(start, m, times[0]);
      SlotAtLeast(start, m, times[0]);
      DistinctSlots(start, SlotOf(start, times[0]) + 1, times[1..]);
      OneMore(start, m, times[0], Accepted(NextSlot(next, times[0]), times[1..]));
    }
  }

  lemma NoSamples(start: nat, m: nat)
    ensures OneToASlot(start, m, [])
  {}

  ghost predicate Served(start: nat, t: nat, accepted: seq<nat>) {
    exists k :: 0 <= k < |accepted| && start <= accepted[k] <= t && SlotOf(start, accepted[k]) == SlotOf(start, t)
  }

  ghost predicate Ordered(times: seq<nat>) { forall i :: 0 < i < |times| ==> times[i - 1] <= times[i] }

  /** No slot in which a call falls is left out: a sample of it, no later than the call, is accepted. */
  lemma {:induction false} EverySlotServed(start: nat, m: nat, times: seq<nat>, i: nat)
    requires Ordered(times) && i < |times| && start + m * PERIOD_US <= times[i]
    ensures Served(start, times[i], Accepted(start + m * PERIOD_US, times))
    decreases |times|
  {
    hide SlotOf, NextSlot;
    var next := start + m * PERIOD_US;
    GridStep(next, times);
    if times[0] < next {
      EverySlotServed(start, m, times[1..], i - 1);
    } else {
      SlotExactly(start, m, times[0]);
      FirstNotAfter(times, i);
      var s := SlotOf(start, times[0]);
      if SlotOf(start, times[i]) == s {
        assert Accepted(next, times)[0] == times[0];
      } else {
        SlotLater(start, times[0], times[i]);
        EverySlotServed(start, s + 1, times[1..], i - 1);
        ServedBehind(start, times[i], times[0], Accepted(NextSlot(next, times[0]), times[1..]));
      }
    }
  }

  lemma ServedBehind(start: nat, t: nat, first: nat, rest: seq<nat>)
    requires Served(start, t, rest)
    ensures Served(start, t, [first] + rest)
  {
    hide SlotOf;
    var k :| 0 <= k < |rest| && start <= rest[k] <= t && SlotOf(start, rest[k]) == SlotOf(start, t);
    assert ([first] + rest)[k + 1] == rest[k];
  }

  lemma {:induction false} FirstNotAfter(times: seq<nat>, i: nat)
    requires Ordered(times) && i < |times|
    ensures times[0] <= times[i]
  {
    if i > 0 { FirstNotAfter(times, i - 1); }
  }

  lemma SlotLater(start: nat, a: nat, b: nat)
    requires start <= a <= b && SlotOf(start, a) != SlotOf(start, b)
    ensures start + (SlotOf(start, a) + 1) * PERIOD_US <= b
  {}

  /** 500 samples to the second: slots begin every two milliseconds. */
  lemma SlotsOfASecond(start: nat, t: nat)
    requires start <= t
    ensures SlotOf(start, t + 1_000_000) == SlotOf(start, t) + 500
    ensures SlotOf(start, start + 1_999) == 0 && SlotOf(start, start + 2_000) == 1
  {}

  /** The words of the driver follow the true times while they are less than half a wrap apart. */
  lemma SlotWords(next: nat, now: nat)
    requires next <= now < next + 0x8000_0000
    ensures Sub32(now % WORD, next % WORD) == now - next
    ensures Add32(next % WORD, (Sub32(now % WORD, next % WORD) / PERIOD_US + 1) * PERIOD_US) == NextSlot(next, now) % WORD
  {
    Scheduler.SubTrue(next, now);
    Scheduler.AddTrue(next, ((now - next) / PERIOD_US + 1) * PERIOD_US);
    hide Sub32, Add32;
  }

  lemma EarlyWords(next: nat, now: nat)
    requires now < next <= now + PERIOD_US
    ensures Sub32(now % WORD, next % WORD) >= 0x8000_0000
  {
    Scheduler.SubTrue(now, next);
  }

  lemma ClockWord(now: nat)
    ensures now % WORD < WORD
  {}

  lemma GridStep(next: nat, times: seq<nat>)
    requires times != []
    ensures times[0] < next ==> Accepted(next, times) == Accepted(next, times[1..])
    ensures next <= times[0] ==> Accepted(next, times) == [times[0]] + Accepted(NextSlot(next, times[0]), times[1..])
    ensures next <= times[0] ==> times[0] <= NextSlot(next, times[0]) <= times[0] + PERIOD_US
  {}

  lemma GridEnds(next: nat)
    ensures Accepted(next, []) == []
  {}

  // ------------------------------------------------- flash

  /** The log in flash: its header fields and the records behind it. */
  datatype Flash = Flash(valid: bool, count: nat, rateHz: nat, checksum: bv32, log: seq<Sample>)

  function Saved(log: seq<Sample>): Flash { Flash(true, |log|, RATE_HZ, Fnv.Hash(Fnv.START, Images(log)), log) }

  /** What flight_log_init accepts. */
  predicate Loadable(f: Flash, capacity: nat) {
    f.valid && 0 < f.count <= capacity && f.rateHz == RATE_HZ && f.count <= |f.log| &&
    Fnv.Hash(Fnv.START, Images(f.log[..f.count])) == f.checksum
  }

  /** A flight and the marker of its end: the last sample again, changed by `mark`. */
  ghost predicate Marked(taken: seq<Sample>, now: nat, mark: seq<octet> -> seq<octet>, after: seq<Sample>, capacity: nat)
    requires taken != []
  {
    after == taken + [Sample(now, Evicted(|taken| + 1, capacity), mark(taken[|taken| - 1].body))]
  }

  class Log {
    const records: array<Sample>
    var writeIndex: nat
    var recordCount: nat
    var nextLogUs: nat
    var overwritten: nat
    var recording: bool
    var qualified: bool
    var inhibited: bool
    var usingFlash: bool
    var preserved: nat
    var persistPending: bool
    var persistRequestedUs: nat
    var flash: Flash
    ghost var taken: seq<Sample>   // every sample of the flight in RAM

    /** Memory at power-on; flight_log_init follows. */
    constructor (capacity: nat, f: Flash)
      requires capacity > 0
      ensures Valid() && flash == f && records.Length == capacity && recordCount == 0 && fresh(records)
    {
      hide Loadable, Holds, Newest;
      records := new Sample[capacity](_ => Sample(0, 0, []));
      writeIndex, recordCount, nextLogUs, overwritten, preserved, persistRequestedUs := 0, 0, 0, 0, 0, 0;
      recording, qualified, inhibited, usingFlash, persistPending := false, false, false, false, false;
      flash, taken := f, [];
      new;
      Empty(records[..]);
    }

    ghost predicate Valid()
      reads this, records
    {
      && 0 < records.Length
      && (usingFlash ==> Loadable(flash, records.Length) && recordCount == flash.count && !recording)
      && (!usingFlash ==> InRam())
      && (recording && preserved > 0 ==> Loadable(flash, records.Length) && preserved == flash.count)
      && (persistPending ==> !recording && !usingFlash && recordCount > 0)
    }

    /** RAM holds the newest samples of the flight, and the eviction count is exact until it saturates. */
    ghost predicate InRam()
      reads this, records
    {
      && Holds(records[..], writeIndex, Newest(taken, records.Length)) && recordCount == Least(|taken|, records.Length)
      && overwritten == Evicted(|taken|, records.Length)
    }

    /** The log that is offered to a reader. */
    ghost function Stored(): seq<Sample>
      reads this, records
      requires Valid()
    {
      if usingFlash then flash.log[..flash.count] else Newest(taken, records.Length)
    }

    /** ram_record */
    method RamRecord(index: nat) returns (s: Sample)
      requires Valid() && !usingFlash && index < recordCount
      ensures s == Newest(taken, records.Length)[index]
    {
      var oldest := Oldest(recordCount, records.Length, writeIndex);
      WrapIsModulo(oldest + index, records.Length);
      s := records[(oldest + index) % records.Length];
    }

    /** A sample goes into the cell of the oldest one. */
    method Store(timeUs: nat, body: seq<octet>)
      requires 0 < records.Length && InRam()
      modifies `writeIndex, `recordCount, `overwritten, `taken, records
      ensures InRam() && |taken| == |old(taken)| + 1 && taken[..|old(taken)|] == old(taken)
      ensures taken[|old(taken)|] == Sample(timeUs, Evicted(|old(taken)| + 1, records.Length), body)
      ensures recordCount > 0
    {
      hide Holds, Newest;
      var capacity := records.Length;
      if recordCount == capacity && overwritten < SATURATED { overwritten := overwritten + 1; }
      var s := Sample(timeUs, overwritten, body);
      NewestGrows(taken, capacity, s);
      if |Newest(taken, capacity)| < capacity {
        StoreFits(records[..], writeIndex, Newest(taken, capacity), s);
      } else {
        StoreEvicts(records[..], writeIndex, Newest(taken, capacity), s);
      }
      WriteIndexBelow(records[..], writeIndex, Newest(taken, capacity));
      WrapIsModulo(writeIndex + 1, capacity);
      records[writeIndex] := s;
      writeIndex := (writeIndex + 1) % capacity;
      if recordCount < capacity { recordCount := recordCount + 1; }
      taken := taken + [s];
    }

    /** flight_log_set_inhibited */
    method SetInhibited(value: bool)
      requires Valid()
      modifies `inhibited, `recording
      ensures Valid() && inhibited == value && recording == (old(recording) && !value) && Stored() == old(Stored())
    {
      hide Holds, Newest, Loadable;
      inhibited := value;
      if value { recording := false; }
    }

    /** The ring is empty. */
    method EmptyRam()
      requires 0 < records.Length
      modifies `writeIndex, `recordCount, `overwritten, `usingFlash, `taken
      ensures InRam() && !usingFlash && recordCount == 0 && taken == [] && Newest(taken, records.Length) == []
    {
      hide Holds, Newest;
      writeIndex, recordCount, overwritten, usingFlash, taken := 0, 0, 0, false, [];
      Empty(records[..]);
    }

    /** flight_log_start */
    method Start(now: nat)
      requires Valid() && now < WORD
      modifies this
      ensures Valid() && flash == old(flash) && inhibited == old(inhibited)
      ensures inhibited ==> recording == old(recording) && Stored() == old(Stored())
      ensures !inhibited ==> recording && taken == [] && Stored() == [] && nextLogUs == now && !qualified
      ensures !inhibited ==> preserved == if old(usingFlash) then |old(Stored())| else 0
    {
      hide Holds, Newest, Loadable;
      if inhibited { return; }
      if usingFlash { CountFits(flash, records.Length); }
      preserved := if usingFlash then recordCount else 0;
      persistPending, nextLogUs, qualified, recording := false, now, false, true;
      EmptyRam();
    }

    /** flight_log_record, as far as the ring goes: a throttle above 1 % makes it a flight. */
    method Record(now: nat, throttled: bool, body: seq<octet>)
      requires Valid() && now < WORD && nextLogUs < WORD
      modifies this, records
      ensures Valid() && flash == old(flash) && recording == old(recording) && preserved == old(preserved)
      ensures inhibited == old(inhibited)
      ensures nextLogUs < WORD
      ensures var due := recording && !inhibited && Sub32(now, old(nextLogUs)) < 0x8000_0000;
        && qualified == (old(qualified) || (recording && !inhibited && throttled))
        && (!due ==> taken == old(taken) && nextLogUs == old(nextLogUs))
        && (due ==> taken == old(taken) + [Sample(now, Evicted(|old(taken)| + 1, records.Length), body)])
        && (due ==> nextLogUs == Add32(old(nextLogUs), (Sub32(now, old(nextLogUs)) / PERIOD_US + 1) * PERIOD_US))
    {
      hide Holds, Newest, Loadable;
      if !recording || inhibited { return; }
      if !qualified && throttled { qualified := true; }
      if Sub32(now, nextLogUs) >= 0x8000_0000 { return; }
      nextLogUs := Add32(nextLogUs, (Sub32(now, nextLogUs) / PERIOD_US + 1) * PERIOD_US);
      Store(now, body);
      assert taken == taken[..|old(taken)|] + [taken[|old(taken)|]];
    }

    /** A flight that never took off gives the stored log back. */
    method Discard()
      requires Valid() && recording
      modifies this
      ensures Valid() && !recording && !persistPending && flash == old(flash)
      ensures Stored() == if old(preserved) > 0 then flash.log[..flash.count] else []
    {
      hide Holds, Loadable, Newest;
      recording, persistPending, writeIndex := false, false, 0;
      recordCount, usingFlash := preserved, preserved > 0;
      if !usingFlash {
        overwritten, taken := 0, [];
        Empty(records[..]);
      }
    }

    /** The event that ended the flight: the last sample again with another time and `mark` applied. */
    method Marker(now: nat, mark: seq<octet> -> seq<octet>)
      requires Valid() && recording && recordCount > 0
      modifies `writeIndex, `recordCount, `overwritten, `taken, records
      ensures InRam() && recordCount > 0 && |old(taken)| > 0
      ensures Marked(old(taken), now, mark, taken, records.Length)
    {
      hide Holds, Loadable;
      var last := RamRecord(recordCount - 1);
      NewestEnds(taken, records.Length);
      hide Newest;
      Store(now, mark(last.body));
      assert taken == taken[..|old(taken)|] + [taken[|old(taken)|]];
    }

    /** flight_log_stop. `mark` is what the marker changes in the body. */
    method Stop(now: nat, mark: seq<octet> -> seq<octet>)
      requires Valid()
      modifies this, records
      ensures Valid() && !recording && flash == old(flash)
      ensures !old(recording) ==> Stored() == old(Stored()) && persistPending == old(persistPending)
      ensures old(recording && !qualified) ==> !persistPending
      ensures old(recording && !qualified) ==> Stored() == if old(preserved) > 0 then flash.log[..flash.count] else []
      ensures old(recording && qualified) ==> persistPending == (|old(taken)| > 0) && !usingFlash
      ensures old(recording && qualified) && |old(taken)| > 0 ==> Marked(old(taken), now, mark, taken, records.Length)
    {
      hide Holds, Loadable, Newest, Evicted;
      if !recording { return; }
      if !qualified { Discard(); return; }
      if recordCount > 0 {
        Marker(now, mark);
        persistPending, persistRequestedUs := true, now;
      }
      recording := false;
    }

    /** flight_log_get */
    method Get(index: nat) returns (s: Option<Sample>)
      requires Valid()
      ensures s == if recording || index >= |Stored()| then None else Some(Stored()[index])
    {
      hide Holds;
      if recording || index >= recordCount { return None; }
      if usingFlash { return Some(flash.log[index]); }
      var r := RamRecord(index);
      s := Some(r);
    }

    /** The checksum loop, record by record. */
    method ChainedHash() returns (hash: bv32)
      requires Valid() && !usingFlash
      ensures hash == Fnv.Hash(Fnv.START, Images(Newest(taken, records.Length)))
    {
      hide Holds, Checksums.Fold, Fnv.Step, Image;
      ghost var log := Newest(taken, records.Length);
      hash := Fnv.START;
      NoData();
      var i := 0;
      while i < recordCount
        invariant 0 <= i <= recordCount == |log| && hash == Fnv.Hash(Fnv.START, Images(log[..i]))
      {
        var r := RamRecord(i);
        Checksums.Chained(Fnv.Step, Fnv.START, Images(log[..i]), Image(r));
        assert log[..i + 1][..i] == log[..i];
        hash := Fnv.Run(hash, Image(r));
        i := i + 1;
      }
      assert log[..|log|] == log;
    }

    /** flight_log_persist_if_ready; a failed program leaves whatever it leaves. */
    method PersistIfReady(now: nat, ok: bool, left: Flash)
      requires Valid()
      modifies this
      ensures Valid() && recording == old(recording)
      ensures var ready := old(persistPending) && Sub32(now, old(persistRequestedUs)) >= 200_000;
        && (!ready ==> flash == old(flash) && usingFlash == old(usingFlash) && taken == old(taken))
        && (ready ==> !persistPending && usingFlash == ok)
        && (ready ==> flash == if ok then Saved(old(Newest(taken, records.Length))) else left)
      ensures Stored() == old(Stored())
    {
      hide Holds, Fnv.Hash;
      if !persistPending || recording || Sub32(now, persistRequestedUs) < PERSIST_DELAY_US { return; }
      var hash := ChainedHash();
      var log := Collect();
      flash := if ok then Flash(true, recordCount, RATE_HZ, hash, log) else left;
      assert log[..|log|] == log;
      persistPending, usingFlash := false, ok;
    }

    /** The loop that programs the records. */
    method Collect() returns (log: seq<Sample>)
      requires Valid() && !usingFlash
      ensures log == Newest(taken, records.Length)
    {
      hide Holds;
      log := [];
      var i := 0;
      while i < recordCount
        invariant 0 <= i <= recordCount && log == Newest(taken, records.Length)[..i]
      {
        var r := RamRecord(i);
        log := log + [r];
        i := i + 1;
      }
    }

    /** flight_log_init */
    method Init(now: nat)
      requires 0 < records.Length && now < WORD
      modifies this
      ensures Valid() && !recording && flash == old(flash) && nextLogUs == now && !inhibited
      ensures Stored() == if Loadable(flash, records.Length) then flash.log[..flash.count] else []
    {
      hide Loadable, Holds, Newest;
      nextLogUs, recording, inhibited, persistPending, qualified := now, false, false, false, false;
      preserved, persistRequestedUs := 0, 0;
      EmptyRam();
      if Loadable(flash, records.Length) {
        CountFits(flash, records.Length);
        recordCount, usingFlash := flash.count, true;
      }
    }
  }

  lemma NewestEnds(taken: seq<Sample>, capacity: nat)
    requires capacity > 0 && taken != []
    ensures var log := Newest(taken, capacity); log != [] && log[|log| - 1] == taken[|taken| - 1]
  {}

  lemma CountFits(f: Flash, capacity: nat)
    requires Loadable(f, capacity)
    ensures f.count <= |f.log| && f.count <= capacity
  {
    hide Fnv.Hash, Images;
  }

  lemma NoData()
    ensures Fnv.Hash(Fnv.START, Images([])) == Fnv.START
  {}

  lemma WriteIndexBelow(cells: seq<Sample>, writeIndex: nat, log: seq<Sample>)
    requires Holds(cells, writeIndex, log)
    ensures writeIndex < |cells|
  {}

  /** A log that was saved is found again at start-up, record for record. */
  lemma SavedIsLoadable(log: seq<Sample>, capacity: nat)
    requires 0 < |log| <= capacity
    ensures Loadable(Saved(log), capacity) && Saved(log).log[..Saved(log).count] == log
  {
    assert log[..|log|] == log;
    hide Fnv.Hash, Images;
  }

  /** Calls at true times, less than half a wrap of the clock apart. */
  ghost predicate Spaced(start: nat, times: seq<nat>) {
    forall i :: 0 <= i < |times| ==> Previous(start, times, i) <= times[i] < Previous(start, times, i) + 0x8000_0000
  }

  function Previous(start: nat, times: seq<nat>, i: nat): nat
    requires i <= |times|
  {
    if i == 0 then start else times[i - 1]
  }

  lemma AllServed(start: nat, times: seq<nat>)
    requires Spaced(start, times)
    ensures forall i :: 0 <= i < |times| ==> Served(start, times[i], Accepted(start, times))
  {
    hide Served, Accepted;
    forall i | 0 <= i < |times| ensures Served(start, times[i], Accepted(start, times)) {
      NotBefore(start, times, i);
      EverySlotServed(start, 0, times, i);
    }
  }

  lemma {:induction false} NotBefore(start: nat, times: seq<nat>, i: nat)
    requires Spaced(start, times) && i < |times|
    ensures start <= times[i]
  {
    if i > 0 {
      NotBefore(start, times, i - 1);
      assert Previous(start, times, i) <= times[i];
    }
  }

  /** A flight of any calls of flight_log_record: the ring takes exactly one sample for each slot of the
      grid of true times in which a call falls. */
  method Fly(l: Log, start: nat, times: seq<nat>, throttled: seq<bool>, bodies: seq<seq<octet>>)
    requires l.Valid() && l.recording && !l.inhibited && l.taken == [] && l.nextLogUs == start % WORD
    requires Spaced(start, times) && |throttled| == |bodies| == |times|
    modifies l, l.records
    ensures l.Valid() && l.recording
    ensures var accepted := Accepted(start, times);
      && |l.taken| == |accepted| && OneToASlot(start, 0, accepted)
      && (forall k :: 0 <= k < |accepted| ==> l.taken[k].timeUs == accepted[k] % WORD)
      && forall i :: 0 <= i < |times| ==> Served(start, times[i], accepted)
  {
    hide Accepted, OneToASlot, Served, Holds, Loadable, Newest, Add32, Sub32, NextSlot;
    DistinctSlots(start, 0, times);
    AllServed(start, times);
    ghost var next, done := start, [];
    var i := 0;
    assert times[0..] == times;
    while i < |times|
      invariant 0 <= i <= |times| && l.Valid() && l.recording && !l.inhibited && l.nextLogUs == next % WORD
      invariant Previous(start, times, i) <= next <= Previous(start, times, i) + PERIOD_US
      invariant Accepted(start, times) == done + Accepted(next, times[i..])
      invariant |l.taken| == |done| && forall k :: 0 <= k < |done| ==> l.taken[k].timeUs == done[k] % WORD
    {
      GridStep(next, times[i..]);
      assert times[i..][1..] == times[i + 1..];
      ClockWord(times[i]);
      l.Record(times[i] % WORD, throttled[i], bodies[i]);
      if next <= times[i] {
        SlotWords(next, times[i]);
        done, next := done + [times[i]], NextSlot(next, times[i]);
      } else {
        EarlyWords(next, times[i]);
      }
      i := i + 1;
    }
    GridEnds(next);
  }

  /** Saved and switched off and on again: the reader sees the same log. */
  method SaveAndRestart(l: Log, now: nat, left: Flash, later: nat) returns (ghost before: seq<Sample>)
    requires l.Valid() && l.persistPending && Sub32(now, l.persistRequestedUs) >= 200_000 && later < WORD
    modifies l
    ensures before == old(l.Stored()) && l.Valid() && l.Stored() == before && |before| > 0
  {
    hide Fnv.Hash, Holds, Images;
    before := l.Stored();
    SavedIsLoadable(before, l.records.Length);
    l.PersistIfReady(now, true, left);
    l.Init(later);
  }
}
