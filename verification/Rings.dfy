/** The 32-slot rings of queued records and blocks: read index, write index and count. */
module Rings {
  /** The `count` items of a ring that starts at slot `read`. */
  function Ring<T>(cells: seq<T>, read: nat, count: nat): (r: seq<T>)
    requires |cells| == 32
  {
    seq(count, j requires 0 <= j < count => cells[(read + j) % 32])
  }

  /** The ring with the given indices holds `items`, oldest first. */
  ghost predicate Holding<T>(cells: seq<T>, read: nat, write: nat, count: nat, items: seq<T>) {
    && |cells| == 32 && read < 32 && write == (read + count) % 32
    && count == |items| && items == Ring(cells, read, count)
  }

  lemma HoldingFacts<T>(cells: seq<T>, read: nat, write: nat, count: nat, items: seq<T>)
    requires Holding(cells, read, write, count, items)
    ensures |cells| == 32 && read < 32 && write < 32 && count == |items|
  {}

  lemma RingPush<T>(cells: seq<T>, read: nat, write: nat, items: seq<T>, r: T)
    requires Holding(cells, read, write, |items|, items) && |items| < 32
    ensures write < 32
    ensures Holding(cells[write := r], read, (write + 1) % 32, |items| + 1, items + [r])
  {
    var more := Ring(cells[write := r], read, |items| + 1);
    forall j | 0 <= j < |items|
      ensures more[j] == items[j]
    {
      assert (read + j) % 32 != (read + |items|) % 32;
    }
  }

  /** A slot is free: the next write does not hit the oldest item. */
  lemma RingApart<T>(cells: seq<T>, read: nat, write: nat, items: seq<T>)
    requires Holding(cells, read, write, |items|, items) && 0 < |items| < 32
    ensures read != write && cells[read] == items[0]
  {}

  lemma RingPop<T>(cells: seq<T>, read: nat, write: nat, items: seq<T>)
    requires Holding(cells, read, write, |items|, items) && 0 < |items|
    ensures Holding(cells, (read + 1) % 32, write, |items| - 1, items[1..])
  {
    var rest := Ring(cells, (read + 1) % 32, |items| - 1);
    forall j | 0 <= j < |items| - 1
      ensures rest[j] == items[1 + j]
    {
      assert ((read + 1) % 32 + j) % 32 == (read + 1 + j) % 32;
    }
  }

  /** Slot `index` holds the j-th item from the front. */
  predicate Slot(read: nat, j: nat, index: int) { index == (read + j) % 32 }

  lemma SlotFirst(read: nat)
    requires read < 32
    ensures Slot(read, 0, read)
  {}

  lemma SlotEntry<T>(cells: seq<T>, read: nat, write: nat, items: seq<T>, j: nat, index: int)
    requires Holding(cells, read, write, |items|, items) && j < |items| && Slot(read, j, index)
    ensures 0 <= index < |cells| && cells[index] == items[j]
    ensures Slot(read, j + 1, (index + 1) % 32)
  {}

  lemma HoldingNone<T>(cells: seq<T>)
    requires |cells| == 32
    ensures Holding(cells, 0, 0, 0, [])
  {
    assert Ring(cells, 0, 0) == [];
  }
}
