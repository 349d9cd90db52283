/**
 The difference framebuffer of src/drivers/osd/osd_framebuffer.h: a published screen reaches the
 chip one character at a time, by bounded scans, and only where it differs.
 */
module OsdFramebuffer {
  import opened Records

  const CELLS := 480
  const SCAN_BUDGET := 16

  type Screen = s: seq<char> | |s| == CELLS witness seq(CELLS, _ => ' ')

  datatype Write = Write(position: nat, character: char)

  datatype State = State(displayed: Screen, desired: Screen, cursor: nat, remaining: nat)

  /** Cells behind the cursor are as desired; with nothing remaining, all are. */
  predicate Inv(s: State) {
    && s.remaining <= CELLS && (s.remaining > 0 ==> s.cursor == CELLS - s.remaining)
    && forall i :: 0 <= i < CELLS - s.remaining ==> s.displayed[i] == s.desired[i]
  }

  function Reset(): State { State(seq(CELLS, _ => ' '), seq(CELLS, _ => ' '), 0, 0) }

  function Published(s: State, screen: Screen): State { s.(desired := screen, cursor := 0, remaining := CELLS) }

  datatype Scan = Scan(state: State, write: Option<Write>, scanned: nat)

  /** The scan loop with `budget` cells left. */
  function ScanFrom(s: State, budget: nat): (r: Scan)
    requires Inv(s)
    ensures r.scanned <= budget
    decreases budget
  {
    if budget == 0 || s.remaining == 0 then Scan(s, None, 0)
    else
      var cell := s.cursor;
      var next := s.(cursor := s.cursor + 1, remaining := s.remaining - 1);
      if s.displayed[cell] != s.desired[cell] then
        Scan(next.(displayed := s.displayed[cell := s.desired[cell]]), Some(Write(cell, s.desired[cell])), 1)
      else
        var r := ScanFrom(next, budget - 1);
        r.(scanned := r.scanned + 1)
  }

  /** osd_framebuffer_next */
  function NextScan(s: State): Scan
    requires Inv(s)
  {
    ScanFrom(s, SCAN_BUDGET)
  }

  /** What the chip shows after a write. */
  function Drawn(screen: Screen, w: Option<Write>): Screen {
    if w.Some? && w.value.position < CELLS then screen[w.value.position := w.value.character] else screen
  }

  /** Cells from `from` on that still have to be written. */
  function Differences(s: State, from: nat): nat
    requires from <= CELLS
    decreases CELLS - from
  {
    if from == CELLS then 0
    else (if s.displayed[from] != s.desired[from] then 1 else 0) + Differences(s, from + 1)
  }

  function Pending(s: State): nat
    requires s.remaining <= CELLS
  {
    Differences(s, CELLS - s.remaining)
  }

  /** One call: at most one write, what is displayed is what the chip shows, and the scan goes on
      by the whole budget unless it writes. */
  lemma {:induction false} ScanSteps(s: State, budget: nat)
    requires Inv(s)
    ensures var r := ScanFrom(s, budget);
      && Inv(r.state) && r.state.desired == s.desired && r.state.displayed == Drawn(s.displayed, r.write)
      && r.state.remaining == s.remaining - r.scanned
      && (r.write == None ==> Pending(r.state) == Pending(s) && (r.state.remaining == 0 || r.scanned == budget))
      && (r.write.Some? ==> Pending(r.state) + 1 == Pending(s) && r.scanned > 0)
    decreases budget
  {
    if budget > 0 && s.remaining > 0 {
      if s.displayed[s.cursor] != s.desired[s.cursor] {
        ScanWrites(s, budget);
      } else {
        ScanPasses(s);
        var next := s.(cursor := s.cursor + 1, remaining := s.remaining - 1);
        hide Inv, Pending, Drawn;
        ScanSteps(next, budget - 1);
      }
    }
  }

  lemma ScanWrites(s: State, budget: nat)
    requires Inv(s) && budget > 0 && s.remaining > 0 && s.displayed[s.cursor] != s.desired[s.cursor]
    ensures var r := ScanFrom(s, budget);
      && Inv(r.state) && r.state.desired == s.desired && r.state.displayed == Drawn(s.displayed, r.write)
      && r.state.remaining == s.remaining - r.scanned && r.write.Some? && r.scanned == 1
      && Pending(r.state) + 1 == Pending(s)
  {
    SameBehind(s, ScanFrom(s, budget).state, s.cursor + 1);
  }

  lemma ScanPasses(s: State)
    requires Inv(s) && s.remaining > 0 && s.displayed[s.cursor] == s.desired[s.cursor]
    ensures var next := s.(cursor := s.cursor + 1, remaining := s.remaining - 1);
      Inv(next) && Pending(next) == Pending(s)
  {
    SameBehind(s, s.(cursor := s.cursor + 1, remaining := s.remaining - 1), s.cursor + 1);
  }

  lemma {:induction false} SameBehind(s: State, u: State, from: nat)
    requires from <= CELLS && u.desired == s.desired
    requires forall i :: from <= i < CELLS ==> u.displayed[i] == s.displayed[i]
    ensures Differences(u, from) == Differences(s, from)
    decreases CELLS - from
  {
    if from < CELLS { SameBehind(s, u, from + 1); }
  }

  lemma {:induction false} PendingAtMost(s: State, from: nat)
    requires from <= CELLS
    ensures Differences(s, from) <= CELLS - from
    decreases CELLS - from
  {
    if from < CELLS { PendingAtMost(s, from + 1); }
  }

  /** A bound on the calls that are still needed. */
  function Needed(s: State): nat
    requires s.remaining <= CELLS
  {
    Pending(s) + (s.remaining + 15) / 16
  }

  /** After `n` calls, the chip's screen. */
  function After(s: State, n: nat): State
    requires Inv(s)
    decreases n
  {
    if n == 0 then s
    else
      ScanSteps(s, SCAN_BUDGET);
      After(NextScan(s).state, n - 1)
  }

  function Shown(s: State, screen: Screen, n: nat): Screen
    requires Inv(s)
    decreases n
  {
    if n == 0 then screen
    else
      ScanSteps(s, SCAN_BUDGET);
      Shown(NextScan(s).state, Drawn(screen, NextScan(s).write), n - 1)
  }

  lemma {:induction false} Progress(s: State, n: nat)
    requires Inv(s)
    ensures var u := After(s, n);
      && Inv(u) && u.desired == s.desired && Shown(s, s.displayed, n) == u.displayed
      && (n >= s.remaining || n >= Needed(s) ==> u.remaining == 0)
    decreases n
  {
    hide NextScan, Drawn, Differences;
    if n > 0 {
      NextStep(s);
      Progress(NextScan(s).state, n - 1);
    } else {
      NoneNeeded(s);
    }
  }

  lemma NoneNeeded(s: State)
    requires Inv(s)
    ensures Needed(s) == 0 ==> s.remaining == 0
  {}

  lemma NextStep(s: State)
    requires Inv(s)
    ensures var u := NextScan(s).state;
      && Inv(u) && u.desired == s.desired && u.displayed == Drawn(s.displayed, NextScan(s).write)
      && (s.remaining > 0 ==> u.remaining < s.remaining && Needed(u) < Needed(s)) && u.remaining <= s.remaining
      && (s.remaining == 0 ==> u.remaining == 0)
  {
    hide Differences, Drawn;
    ScanSteps(s, SCAN_BUDGET);
  }

  /** After the last screen is published, as many calls as cells differ, and 30 more, show exactly
      that screen; 480 calls always do.  It does not matter what was shown or half shown before. */
  lemma ShowsLastScreen(s: State, screen: Screen, n: nat)
    requires Inv(s) && (n >= 480 || n >= Differences(Published(s, screen), 0) + 30)
    ensures Inv(Published(s, screen)) && Shown(Published(s, screen), s.displayed, n) == screen
  {
    var p := Published(s, screen);
    Progress(p, n);
    var u := After(p, n);
    assert u.displayed == u.desired;
  }

  // ------------------------------------------------- the buffers in place

  class Framebuffer {
    const displayed: array<char>
    const desired: array<char>
    var cursor: nat
    var remaining: nat
    ghost var screen: Screen   // what the chip shows

    /** osd_framebuffer_reset with a blank chip */
    constructor ()
      ensures Valid() && fresh(displayed) && fresh(desired)
    {
      displayed := new char[CELLS](_ => ' ');
      desired := new char[CELLS](_ => ' ');
      cursor, remaining, screen := 0, 0, seq(CELLS, _ => ' ');
    }

    ghost predicate Sized()
      reads this
    {
      displayed.Length == CELLS && desired.Length == CELLS && displayed != desired
    }

    /** The buffer always knows what the chip shows. */
    ghost predicate Valid()
      reads this, displayed, desired
    {
      Sized() && Inv(Value()) && displayed[..] == screen
    }

    ghost function Value(): State
      requires Sized()
      reads this, displayed, desired
    {
      State(displayed[..], desired[..], cursor, remaining)
    }

    /** osd_framebuffer_publish */
    method Publish(s: Screen)
      requires Valid()
      modifies this, desired
      ensures Valid() && Value() == Published(old(Value()), s) && screen == old(screen)
    {
      forall i | 0 <= i < CELLS { desired[i] := s[i]; }
      assert desired[..] == s;
      cursor, remaining := 0, CELLS;
    }

    /** osd_framebuffer_next: at most one write, and at most sixteen cells looked at. */
    method Next() returns (w: Option<Write>, scanned: nat)
      requires Valid()
      modifies this, displayed
      ensures Valid() && scanned <= 16 && screen == Drawn(old(screen), w)
      ensures Scan(Value(), w, scanned) == NextScan(old(Value()))
    {
      hide Drawn, ScanFrom, Inv;
      ScanSteps(Value(), SCAN_BUDGET);
      scanned := 0;
      ghost var goal := ScanFrom(Value(), SCAN_BUDGET);
      while scanned < SCAN_BUDGET && remaining != 0
        invariant 0 <= scanned <= SCAN_BUDGET && Sized() && Inv(Value()) && screen == displayed[..] == old(screen)
        invariant goal == Later(ScanFrom(Value(), SCAN_BUDGET - scanned), scanned)
      {
        ScanUnfolds(Value(), SCAN_BUDGET - scanned);
        var cell := cursor;
        cursor, remaining := cursor + 1, remaining - 1;
        scanned := scanned + 1;
        if displayed[cell] != desired[cell] {
          w := Some(Write(cell, desired[cell]));
          displayed[cell] := desired[cell];
          screen := Drawn(screen, w);
          return;
        }
      }
      ScanStops(Value(), SCAN_BUDGET - scanned);
      w := None;
      NothingDrawn(screen);
    }
  }

  function Later(r: Scan, n: nat): Scan { r.(scanned := r.scanned + n) }

  lemma ScanUnfolds(s: State, budget: nat)
    requires Inv(s) && budget > 0 && s.remaining > 0
    ensures s.cursor < CELLS
    ensures var next := s.(cursor := s.cursor + 1, remaining := s.remaining - 1);
      if s.displayed[s.cursor] != s.desired[s.cursor] then
        ScanFrom(s, budget) ==
          Scan(next.(displayed := s.displayed[s.cursor := s.desired[s.cursor]]),
               Some(Write(s.cursor, s.desired[s.cursor])), 1)
      else Inv(next) && ScanFrom(s, budget) == Later(ScanFrom(next, budget - 1), 1)
  {}

  lemma ScanStops(s: State, budget: nat)
    requires Inv(s) && (budget == 0 || s.remaining == 0)
    ensures ScanFrom(s, budget) == Scan(s, None, 0)
  {}

  lemma NothingDrawn(screen: Screen)
    ensures Drawn(screen, None) == screen
  {}
}
