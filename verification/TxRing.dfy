/**
 The transmit ring of src/drivers/osd/msp_displayport.c: 512 cells, 511 of them usable.
 Packets go in whole or not at all; one byte leaves per call.
 */
module TxRing {
  import opened Bytes
  import H = HdzeroMsp

  const SIZE := 512

  /** The bytes queued between `tail` and `head`. */
  ghost predicate Queued(cells: seq<byte>, head: nat, tail: nat, bytes: seq<byte>) {
    && |cells| == SIZE && head < SIZE && tail < SIZE && |bytes| < SIZE && head == (tail + |bytes|) % SIZE
    && forall i :: 0 <= i < |bytes| ==> cells[(tail + i) % SIZE] == bytes[i]
  }

  function Used(head: nat, tail: nat): nat
    requires head < SIZE && tail < SIZE
  {
    (head - tail) % SIZE
  }

  lemma UsedIs(cells: seq<byte>, head: nat, tail: nat, bytes: seq<byte>)
    requires Queued(cells, head, tail, bytes)
    ensures Used(head, tail) == |bytes| && head < SIZE && tail < SIZE && |cells| == SIZE
    ensures (head + 1) % SIZE == tail <==> |bytes| == SIZE - 1
    ensures tail == head <==> bytes == []
    ensures bytes != [] ==> cells[tail] == bytes[0]
  {
    if bytes != [] { assert (tail + 0) % SIZE == tail; }
  }

  lemma PushByte(cells: seq<byte>, head: nat, tail: nat, bytes: seq<byte>, b: byte)
    requires Queued(cells, head, tail, bytes) && |bytes| < SIZE - 1
    ensures Queued(cells[head := b], (head + 1) % SIZE, tail, bytes + [b])
  {
    var after := cells[head := b];
    forall i | 0 <= i < |bytes| + 1
      ensures after[(tail + i) % SIZE] == (bytes + [b])[i]
    {
      if i < |bytes| { assert (tail + i) % SIZE != (tail + |bytes|) % SIZE; }
    }
  }

  lemma PopByte(cells: seq<byte>, head: nat, tail: nat, bytes: seq<byte>)
    requires Queued(cells, head, tail, bytes) && bytes != []
    ensures Queued(cells, head, (tail + 1) % SIZE, bytes[1..])
  {
    forall i | 0 <= i < |bytes| - 1
      ensures cells[((tail + 1) % SIZE + i) % SIZE] == bytes[1..][i]
    {
      assert ((tail + 1) % SIZE + i) % SIZE == (tail + (i + 1)) % SIZE;
    }
  }

  function Concat(packets: seq<seq<byte>>): seq<byte> {
    if packets == [] then [] else Concat(packets[..|packets| - 1]) + packets[|packets| - 1]
  }

  class Ring {
    const buffer: array<byte>
    var head: nat
    var tail: nat
    var full: bool                      // the status says that the queue was full
    ghost var contents: seq<byte>
    ghost var sent: seq<byte>           // what has left for the wire
    ghost var packets: seq<seq<byte>>   // the packets accepted, oldest first

    constructor ()
      ensures Valid() && contents == [] && sent == [] && packets == [] && fresh(buffer)
    {
      buffer := new byte[SIZE](_ => 0);
      head, tail, full, contents, sent, packets := 0, 0, false, [], [], [];
    }

    /** Everything accepted has been sent or is queued, in order. */
    ghost predicate Valid()
      reads this, buffer
    {
      Queued(buffer[..], head, tail, contents) && sent + contents == Concat(packets)
    }

    /** enqueue_byte */
    method EnqueueByte(b: byte) returns (ok: bool)
      requires Queued(buffer[..], head, tail, contents)
      modifies this, buffer
      ensures Queued(buffer[..], head, tail, contents) && sent == old(sent) && packets == old(packets) && full == old(full)
      ensures ok == (|old(contents)| < SIZE - 1) && contents == if ok then old(contents) + [b] else old(contents)
    {
      hide Queued;
      UsedIs(buffer[..], head, tail, contents);
      var next := (head + 1) % SIZE;
      if next == tail { return false; }
      PushByte(buffer[..], head, tail, contents, b);
      buffer[head] := b;
      head := next;
      contents := contents + [b];
      ok := true;
    }

    /** Several bytes, each taken into the checksum. */
    method EnqueueSummed(v2: bool, data: seq<byte>, start: byte, ghost before: seq<byte>) returns (sum: byte)
      requires Queued(buffer[..], head, tail, contents) && |contents| + |data| < SIZE && start == H.Sum(v2, before)
      modifies this, buffer
      ensures Queued(buffer[..], head, tail, contents) && contents == old(contents) + data
      ensures sum == H.Sum(v2, before + data) && sent == old(sent) && packets == old(packets) && full == old(full)
    {
      hide Queued, H.Sum, H.SumStep;
      sum := start;
      var i := 0;
      assert before + data[..0] == before && contents + data[..0] == contents;
      while i < |data|
        invariant 0 <= i <= |data| && Queued(buffer[..], head, tail, contents) && contents == old(contents) + data[..i]
        invariant sum == H.Sum(v2, before + data[..i])
        invariant sent == old(sent) && packets == old(packets) && full == old(full)
      {
        H.SumOf(v2, before + data[..i], data[i]);
        assert before + data[..i + 1] == before + data[..i] + [data[i]];
        var ok := EnqueueByte(data[i]);
        sum := H.SumStep(v2, sum, data[i]);
        i := i + 1;
      }
      assert data[..|data|] == data;
    }

    /** The three bytes that open a packet. */
    method EnqueueStart(v2: bool, direction: byte)
      requires Queued(buffer[..], head, tail, contents) && |contents| + 3 < SIZE
      modifies this, buffer
      ensures Queued(buffer[..], head, tail, contents) && sent == old(sent) && packets == old(packets)
      ensures contents == old(contents) + [H.DOLLAR, if v2 then H.X else H.M, direction]
    {
      hide Queued;
      var _ := EnqueueByte(H.DOLLAR);
      var _ := EnqueueByte(if v2 then H.X else H.M);
      var _ := EnqueueByte(direction);
    }

    /** Header, payload and checksum. */
    method EnqueueBody(v2: bool, command: nat, payload: seq<byte>)
      requires command < 65536 && |payload| < 256
      requires Queued(buffer[..], head, tail, contents) && |contents| + |payload| + H.HeaderBytes(v2) + 1 < SIZE
      modifies this, buffer
      ensures Queued(buffer[..], head, tail, contents) && sent == old(sent) && packets == old(packets)
      ensures var body := H.Header(v2, 0, command, |payload|) + payload;
        contents == old(contents) + body + [H.Sum(v2, body)]
    {
      hide Queued, H.Sum;
      H.SumOf(v2, [], 0);
      var header := H.Header(v2, 0, command, |payload|);
      assert [] + header == header;
      var sum := EnqueueSummed(v2, header, 0, []);
      sum := EnqueueSummed(v2, payload, sum, header);
      var _ := EnqueueByte(sum);
    }

    /** enqueue_packet: the whole packet, or nothing and the status says so. */
    method EnqueuePacket(v2: bool, direction: byte, command: nat, payload: seq<byte>) returns (ok: bool)
      requires Valid() && command < 65536 && |payload| < 256
      modifies this, buffer
      ensures Valid() && sent == old(sent) && full == !ok
      ensures ok == (|old(contents)| + |payload| + (if v2 then 9 else 6) <= 511)
      ensures packets == old(packets) + if ok then [H.Encode(v2, direction, 0, command, payload)] else []
    {
      hide Queued, H.Sum, Concat, H.Header;
      UsedIs(buffer[..], head, tail, contents);
      if SIZE - 1 - Used(head, tail) < |payload| + (if v2 then 9 else 6) {
        full := true;
        return false;
      }
      EnqueueStart(v2, direction);
      EnqueueBody(v2, command, payload);
      full := false;
      ghost var packet := H.Encode(v2, direction, 0, command, payload);
      packets := packets + [packet];
      assert contents == old(contents) + packet;
      ConcatStep(old(packets), packet);
      ok := true;
    }

    /** The drain in msp_displayport_process: one byte when the transmitter is free. */
    method Drain(ready: bool) returns (out: seq<byte>)
      requires Valid()
      modifies this
      ensures Valid() && packets == old(packets) && sent == old(sent) + out
      ensures contents == if ready && old(contents) != [] then old(contents)[1..] else old(contents)
    {
      hide Queued, Concat;
      UsedIs(buffer[..], head, tail, contents);
      if tail == head || !ready { return []; }
      PopByte(buffer[..], head, tail, contents);
      out := [buffer[tail]];
      tail := (tail + 1) % SIZE;
      sent := sent + out;
      contents := contents[1..];
    }
  }

  lemma ConcatStep(packets: seq<seq<byte>>, p: seq<byte>)
    ensures Concat(packets + [p]) == Concat(packets) + p
  {
    assert (packets + [p])[..|packets|] == packets;
  }

  /** Whatever the pace of the drain, what is on the wire is the first `n` packets, whole and in
      order, and at most the beginning of the next one. */
  lemma {:induction false} WholePacketsInOrder(packets: seq<seq<byte>>, sent: seq<byte>) returns (n: nat)
    requires sent <= Concat(packets)
    ensures n <= |packets| && Concat(packets[..n]) <= sent
    ensures if n == |packets| then sent == Concat(packets) else sent < Concat(packets[..n + 1])
    decreases |packets|
  {
    n := |packets|;
    assert packets[..n] == packets;
    if sent != Concat(packets) {
      n := n - 1;
      var front := packets[..n];
      if !(Concat(front) <= sent) {
        Prefixes(sent, Concat(front), packets[n]);
        n := WholePacketsInOrder(front, sent);
        assert front[..n] == packets[..n];
        if n < |front| { assert front[..n + 1] == packets[..n + 1]; }
      }
    }
  }

  lemma Prefixes(s: seq<byte>, a: seq<byte>, b: seq<byte>)
    requires s <= a + b
    ensures s <= a || a <= s
  {}
}
