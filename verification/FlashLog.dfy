/**
 The driver of src/storage/blackbox_flash.c with its ring of records and its page
 buffer updated in place.  The scalar static variables are the fields of the state
 `v`; `v.queue` is what the ring holds.  Every method is proved against the step of
 FlashModel that it implements.
 */
module FlashLog {
  import opened Bytes
  import opened NorFlash
  import opened Records
  import opened Rings
  import M = FlashModel

  lemma HeaderFits(image: seq<byte>, bank: nat, b: nat, id: nat, metadata: Metadata)
    requires Geometry(image, bank) && b <= 1 && id < WORD
    ensures Fits(image, Program(Base(bank, b), HeaderData(id, metadata)))
  {}

  class Log {
    var v: M.State
    const queue: array<Record>
    var queueRead: nat
    var queueWrite: nat
    var queueCount: nat
    const programBuffer: array<byte>
    var programLength: nat

    ghost predicate Valid()
      reads this, queue
    {
      M.Shape(v) && RingValid() && (v.op == M.RecordOp ==> programLength == |v.flying.data|)
    }

    ghost predicate RingValid()
      reads this, queue
    {
      programBuffer.Length == PAGE && RingAt(v.queue)
    }

    /** The ring holds `records`, oldest first. */
    ghost predicate RingAt(records: seq<Record>)
      reads this, queue
    {
      Holding(queue[..], queueRead, queueWrite, queueCount, records)
    }

    /** Power-on: the static variables are zero and the ring is empty. */
    constructor (bank: nat, image: seq<byte>)
      requires Geometry(image, bank)
      ensures Valid() && v == M.Zeroed(bank, image) && fresh(queue) && fresh(programBuffer)
    {
      v := M.Zeroed(bank, image);
      queue := new Record[M.QUEUE_RECORDS];
      programBuffer := new byte[PAGE];
      queueRead, queueWrite, queueCount, programLength := 0, 0, 0, 0;
      new;
      HoldingNone(queue[..]);
    }

    /** blackbox_sd_append */
    method Append(r: Record)
      requires Valid()
      modifies this, queue
      ensures Valid() && v == M.Append(old(v), r)
    {
      hide M.Shape, Holding;
      M.ShapeGeometry(v);
      M.DropShape(v);
      if M.HasRoom(v) { M.EnqueueShape(v, r); }
      HoldingFacts(queue[..], queueRead, queueWrite, queueCount, v.queue);
      if !v.recording || v.finalise { return; }
      var maximum := (v.bank - HEADER_BYTES) / RECORD_BYTES;
      if v.recordCount + queueCount >= maximum || queueCount >= M.QUEUE_RECORDS {
        v := v.(dropped := Add32(v.dropped, 1));
        return;
      }
      RingPush(queue[..], queueRead, queueWrite, v.queue, r);
      queue[queueWrite] := r;
      queueWrite := (queueWrite + 1) % M.QUEUE_RECORDS;
      queueCount := queueCount + 1;
      v := M.Enqueue(v, r);
    }

    /** blackbox_sd_stop */
    method Stop(flag: byte, retain: bool)
      requires Valid()
      modifies this
      ensures Valid() && v == M.Stop(old(v), flag, retain)
    {
      hide M.Shape, Holding;
      M.StopShape(v, flag, retain);
      HoldingFacts(queue[..], queueRead, queueWrite, queueCount, v.queue);
      if !v.recording {
        v := v.(startPending := false);
        return;
      }
      var keep := retain && v.recordCount + queueCount > 0;
      v := v.(stopFlag := flag, retain := keep, finalise := true);
    }

    /** `consumed` programmed bytes leave the ring: whole records are released, a record that is
        only partly on the chip stays at the front. */
    method Release(programmed: nat) returns (released: nat, offset: nat)
      requires RingAt(v.queue) && v.offset < RECORD_BYTES && v.offset + programmed <= RECORD_BYTES * |v.queue|
      modifies `queueRead, `queueCount
      ensures offset < RECORD_BYTES && RECORD_BYTES * released + offset == v.offset + programmed
      ensures released <= |v.queue| && RingAt(v.queue[released..])
    {
      hide Holding;
      HoldingFacts(queue[..], queueRead, queueWrite, queueCount, v.queue);
      var consumed: nat := programmed;
      assert v.queue[0..] == v.queue;
      released, offset := 0, v.offset;
      while consumed > 0 && queueCount > 0
        invariant released <= |v.queue| && queueCount == |v.queue| - released && RingAt(v.queue[released..])
        invariant offset < RECORD_BYTES && RECORD_BYTES * released + offset + consumed == v.offset + programmed
      {
        var remaining := RECORD_BYTES - offset;
        if consumed < remaining {
          offset := offset + consumed;
          consumed := 0;
          break;
        }
        consumed := consumed - remaining;
        offset := 0;
        RingPop(queue[..], queueRead, queueWrite, v.queue[released..]);
        queueRead := (queueRead + 1) % M.QUEUE_RECORDS;
        queueCount := queueCount - 1;
        released := released + 1;
        assert v.queue[released - 1..][1..] == v.queue[released..];
      }
    }

    /** A page program has completed. */
    method RecordCompleted()
      requires Valid() && v.op == M.RecordOp
      modifies this
      ensures Valid() && v == M.RecordDone(old(v))
    {
      hide M.Shape, Holding, Completed, Geometry, M.RecordDone;
      M.RecordDoneShape(v);
      M.ShapeGeometry(v);
      M.RecordFlying(v);
      var released, offset := Release(programLength);
      programLength := 0;
      M.RecordDoneIs(v, released, offset);
      v := v.(image := Completed(v.image, v.flying), flying := Idle, op := M.NoOp,
              recordCount := v.recordCount + released, offset := offset, queue := v.queue[released..]);
    }

    /** The next bytes of the queue are copied, record by record, into the page buffer. */
    method FillBuffer(length: nat)
      requires RingAt(v.queue) && programBuffer.Length == PAGE && v.offset < RECORD_BYTES
      requires 0 < length <= PAGE && v.offset + length <= 60 * |v.queue|
      modifies programBuffer
      ensures programBuffer[..length] == Stream(v.queue)[v.offset..v.offset + length]
    {
      hide Stream, Holding, Slot;
      HoldingFacts(queue[..], queueRead, queueWrite, queueCount, v.queue);
      SlotFirst(queueRead);
      var copied: nat, index, sourceOffset: nat := 0, queueRead, v.offset;
      ghost var records, j: nat := v.queue, 0;
      ghost var wanted := Stream(records)[v.offset..v.offset + length];
      while copied < length
        invariant copied <= length && Slot(queueRead, j, index) && sourceOffset < 60
        invariant copied < length ==> 60 * j + sourceOffset == v.offset + copied
        invariant forall i :: 0 <= i < copied ==> programBuffer[i] == wanted[i]
      {
        var chunk := RECORD_BYTES - sourceOffset;
        if chunk > length - copied { chunk := length - copied; }
        SlotEntry(queue[..], queueRead, queueWrite, records, j, index);
        Copy(queue[index], sourceOffset, copied, chunk);
        forall i | copied <= i < copied + chunk
          ensures wanted[i] == programBuffer[i]
        {
          StreamByte(records, j, sourceOffset + i - copied);
        }
        copied := copied + chunk;
        sourceOffset := 0;
        index := (index + 1) % M.QUEUE_RECORDS;
        j := j + 1;
      }
    }

    /** memcpy of part of a record into the page buffer. */
    method Copy(record: Record, from: nat, at: nat, n: nat)
      requires from + n <= RECORD_BYTES && at + n <= programBuffer.Length
      modifies programBuffer
      ensures forall i :: 0 <= i < at ==> programBuffer[i] == old(programBuffer[i])
      ensures forall i :: at <= i < at + n ==> programBuffer[i] == record[from + i - at]
    {
      forall i | at <= i < at + n { programBuffer[i] := record[from + i - at]; }
    }

    /** header_erased */
    method HeaderErased(b: nat) returns (blank: bool)
      requires Geometry(v.image, v.bank) && b <= 1
      ensures blank == HeaderBlank(v.image, v.bank, b)
    {
      var h := Base(v.bank, b);
      var i := 0;
      while i < HEADER_BYTES
        invariant 0 <= i <= HEADER_BYTES && BlankFrom(v.image, h, h + i)
      {
        if v.image[h + i] != BLANK { return false; }
        i := i + 1;
      }
      blank := true;
    }

    /** start_program and start_erase with the caller's `operation = op` or `fail()`. */
    method Launch(op: M.Operation, c: Command, t: M.Tick) returns (ok: bool)
      requires Fits(v.image, c) && v.op == M.NoOp && v.flying == Idle && op != M.NoOp
      modifies `v
      ensures v == M.Launch(old(v), op, c, t) && ok == (v.op == op)
    {
      if !t.wren {
        v := v.(phase := M.Error);
        return false;
      }
      if !t.sent {
        v := v.(image := Cut(v.image, c, t.torn), phase := M.Error);
        return false;
      }
      v := v.(flying := c, op := op);
      ok := true;
    }

    /** begin_recording */
    method BeginRecording(t: M.Tick)
      requires Valid() && M.Resting(v) && v.Live() && !v.erasing
      modifies this
      ensures Valid() && v == M.Begin(old(v), t)
    {
      hide M.Shape, Holding, HeaderData, Geometry;
      M.BeginShape(v, t);
      M.ShapeGeometry(v);
      M.RestingIdle(v);
      HoldingFacts(queue[..], queueRead, queueWrite, queueCount, v.queue);
      HoldingNone(queue[..]);
      HeaderFits(v.image, v.bank, v.writeBank, v.nextId, v.metadata);
      var header := HeaderData(v.nextId, v.metadata);
      v := v.(flightId := v.nextId, nextId := Add32(v.nextId, 1), accepted := [],
              recordCount := 0, dropped := 0, queue := [], offset := 0, finalise := false);
      queueRead, queueWrite, queueCount, programLength := 0, 0, 0, 0;
      var ok := Launch(M.HeaderOp, Program(Base(v.bank, v.writeBank), header), t);
      if ok {
        v := v.(recording := true, phase := M.Recording);
      }
    }

    /** One block has been erased and another follows, in this bank or in the second bank of a clear. */
    method NextBlock()
      requires Valid() && v.op == M.EraseOp && M.MoreBlocks(v)
      modifies this
      ensures Valid() && v == M.EraseNext(old(v))
    {
      hide M.Shape, Holding, Geometry, M.CommandShape, M.EraseNext, M.NextInBank, M.SecondBank;
      M.EraseNextShape(v);
      M.ShapeGeometry(v);
      M.EraseFacts(v);
      M.EraseNextKeeps(v);
      if v.eraseAddress > Base(v.bank, v.eraseBank) { M.EraseNextSame(v); } else { M.EraseNextSecond(v); }
      if v.eraseAddress > Base(v.bank, v.eraseBank) {
        v := M.NextInBank(v);
      } else {
        v := M.SecondBank(v);
      }
    }

    /** An erase has completed: the next block, or the bank is ready and a deferred start runs. */
    method EraseCompleted(t: M.Tick)
      requires Valid() && v.op == M.EraseOp
      modifies this
      ensures Valid() && v == M.EraseDone(old(v), t)
    {
      hide M.Shape, Holding, Geometry, M.CommandShape, Erased, M.EraseNext, M.Begin;
      M.ShapeGeometry(v);
      M.EraseFacts(v);
      if !M.MoreBlocks(v) { M.EraseFinishedShape(v); }
      if v.eraseAddress > Base(v.bank, v.eraseBank) || (v.clearSecond && v.eraseBank == 0) {
        NextBlock();
        return;
      }
      var start := v.startPending;
      v := v.(image := Erased(v.image, v.eraseAddress), flying := Idle, op := M.NoOp, erasing := false,
              writeBank := v.eraseBank, phase := M.Ready, startPending := false, clearing := false,
              shadowed := false);
      if start {
        BeginRecording(t);
      }
    }

    /** The commit is on the chip: its bank is the retained one. */
    method RetainBank()
      requires M.Shape(v) && v.op == M.FinalOp
      modifies `v
      ensures v == M.Committed(old(v))
    {
      hide M.Shape, Completed, M.NewOutranks;
      M.CommittedShape(v);
      M.ShapeGeometry(v);
      var s := v;
      v := s.(image := Completed(s.image, s.flying), flying := Idle, op := M.NoOp, recording := false,
              retained := s.writeBank, phase := M.Ready, committed := Some(s.NewFlight()),
              history := s.history + [s.NewFlight()], shadowed := !M.NewOutranks(s));
    }

    /** A commit has completed. */
    method FinalCompleted(t: M.Tick)
      requires Valid() && v.op == M.FinalOp
      modifies this
      ensures Valid() && v == M.FinalDone(old(v), t)
    {
      hide M.Shape, Holding, M.Committed, M.OtherBank, M.FinalDone, M.Prepare, Geometry;
      M.FinalDoneShape(v, t);
      M.CommittedShape(v);
      M.FinalDoneSteps(v, t);
      M.FinalDoneKeeps(v, t);
      M.CommittedKeeps(v);
      var previous, current := v.retained, v.writeBank;
      RetainBank();
      if previous <= 1 && previous != current {
        v := M.Prepare(v, previous);
        return;
      }
      NextBank(t);
    }

    /** The first retained flight: the other bank is recorded next, erased first if it has to be. */
    method NextBank(t: M.Tick)
      requires Geometry(v.image, v.bank) && v.retained <= 1
      modifies `v
      ensures v == M.OtherBank(old(v), t)
    {
      var candidate := if v.retained == 0 then 1 else 0;
      var blank := HeaderErased(candidate);
      if t.readOk && blank {
        v := v.(writeBank := candidate);
      } else {
        v := M.Prepare(v, candidate);
      }
    }

    /** The bytes of the next page program, gathered in the page buffer. */
    method LoadPage() returns (c: Command)
      requires Valid() && M.Resting(v) && v.Live() && |v.queue| > 0
      modifies `programLength, programBuffer
      ensures RingAt(v.queue) && c == M.RecordCommand(v) && programLength == |c.data|
    {
      hide M.Shape, Holding, Geometry, M.RecordCommand, Stream;
      M.RecordCommandIs(v);
      HoldingFacts(queue[..], queueRead, queueWrite, queueCount, v.queue);
      var address := v.RecordAddress();
      var pageRemaining := PAGE - address % 256;
      var queuedBytes := queueCount * RECORD_BYTES - v.offset;
      programLength := if queuedBytes < pageRemaining then queuedBytes else pageRemaining;
      FillBuffer(programLength);
      c := Program(address, programBuffer[..programLength]);
    }

    /** The next page program, unless a page is not full yet and the flight goes on. */
    method StartRecord(t: M.Tick)
      requires Valid() && M.Resting(v) && v.Live() && |v.queue| > 0
      modifies this, programBuffer
      ensures Valid() && v == M.StartRecord(old(v), t)
    {
      hide M.Shape, Holding, Geometry, M.StartRecord, M.Launch, M.RecordCommand;
      M.StartRecordShape(v, t);
      M.StartRecordSteps(v, t);
      M.RestingIdle(v);
      M.LaunchKeeps(v, M.RecordOp, M.RecordCommand(v), t);
      HoldingFacts(queue[..], queueRead, queueWrite, queueCount, v.queue);
      if queueCount * RECORD_BYTES - v.offset < PAGE - v.RecordAddress() % 256 && !v.finalise { return; }
      var command := LoadPage();
      var ok := Launch(M.RecordOp, command, t);
    }

    /** blackbox_sd_update */
    method Update(t: M.Tick)
      requires Valid()
      modifies this, programBuffer
      ensures Valid() && v == M.Update(old(v), t)
    {
      hide M.Shape, Holding, M.Fail, M.Proceed, M.StartNext;
      M.UpdateShape(v, t);
      if !v.available || v.phase == M.Error { return; }
      if v.op != M.NoOp {
        M.ShapeGeometry(v);
        if t.busy {
          if t.expired {
            M.FailKeeps(v, t.torn);
            v := M.Fail(v, t.torn);
          }
          return;
        }
        M.ProceedSteps(v, t);
        CompleteOperation(t);
        if v.op != M.NoOp { return; }
      }
      StartNext(t);
    }

    /** What the completed operation changes. */
    method CompleteOperation(t: M.Tick)
      requires Valid() && v.op != M.NoOp
      modifies this
      ensures Valid() && v == M.Complete(old(v), t)
    {
      hide M.Shape, Holding, M.EraseDone, M.RecordDone, M.FinalDone, Completed, Geometry;
      M.ShapeGeometry(v);
      match v.op {
        case EraseOp => EraseCompleted(t);
        case RecordOp => RecordCompleted();
        case FinalOp => FinalCompleted(t);
        case HeaderOp =>
          M.HeaderDoneShape(v);
          v := v.(image := Completed(v.image, v.flying), flying := Idle, op := M.NoOp);
      }
    }

    /** The next operation: an erase, a page program, the commit, or the erase of a discarded flight. */
    method StartNext(t: M.Tick)
      requires Valid() && M.Resting(v) && (v.Live() || M.Quiet(v))
      modifies this, programBuffer
      ensures Valid() && v == M.StartNext(old(v), t)
    {
      hide M.Shape, Holding, Geometry, M.StartRecord, M.Launch, M.LaunchFinal, M.FinalCommand;
      M.StartNextShape(v, t);
      M.StartNextSteps(v, t);
      M.ShapeGeometry(v);
      M.RestingIdle(v);
      HoldingFacts(queue[..], queueRead, queueWrite, queueCount, v.queue);
      if v.erasing {
        M.LaunchKeeps(v, M.EraseOp, Erase(v.eraseAddress), t);
        var ok := Launch(M.EraseOp, Erase(v.eraseAddress), t);
      } else if queueCount > 0 {
        StartRecord(t);
      } else if v.finalise {
        if !v.retain {
          v := M.Discard(v);
        } else {
          M.FinalFits(v);
          M.LaunchFinalKeeps(v, t);
          LaunchCommit(t);
        }
      }
    }

    /** The commit: count, flag and valid byte in one program, the valid byte last. */
    method LaunchCommit(t: M.Tick)
      requires M.Resting(v) && v.Live()
      modifies `v
      ensures v == M.LaunchFinal(old(v), t)
    {
      hide M.Shape, Geometry, M.NewOutranks, FinalData;
      M.ShapeGeometry(v);
      M.RestingIdle(v);
      var s := v;
      var c := Program(Base(s.bank, s.writeBank) + COUNT_OFFSET, FinalData(s.recordCount, s.stopFlag));
      if !t.wren {
        v := s.(phase := M.Error, finalFlag := s.stopFlag, finalise := true);
      } else if !t.sent {
        var commit := 6 <= t.torn;
        var flight := Flight(s.flightId, s.stopFlag, s.metadata, s.accepted);
        v := s.(image := Cut(s.image, c, t.torn), phase := M.Error, finalFlag := s.stopFlag, finalise := true,
                committed := if commit then Some(flight) else s.committed,
                history := if commit then s.history + [flight] else s.history,
                shadowed := if commit then !M.NewOutranks(s) else s.shadowed);
      } else {
        v := s.(flying := c, op := M.FinalOp, finalFlag := s.stopFlag, finalise := false);
      }
    }

    /** blackbox_sd_start */
    method Start(metadata: Option<Metadata>, t: M.Tick)
      requires Valid()
      modifies this
      ensures Valid() && v == M.Start(old(v), metadata, t)
    {
      hide Holding, M.Begin, Geometry, HeaderData, FinalData;
      M.StartShape(v, metadata, t);
      if !v.enabled || v.phase != M.Ready || v.erasing || v.writeBank == v.retained {
        if v.enabled && v.erasing && v.writeBank != v.retained {
          v := M.Defer(v, metadata);
        }
        return;
      }
      if metadata == None || v.op != M.NoOp { return; }
      v := v.(metadata := metadata.value, startPending := false);
      BeginRecording(t);
    }

    /** blackbox_sd_set_enabled: the argument is ignored. */
    method SetEnabled(value: bool)
      requires Valid()
      modifies `v
      ensures Valid() && v == M.Enable(old(v))
    {
      hide M.Shape, Holding;
      M.EnableShape(v);
      v := v.(enabled := v.available);
    }

    /** blackbox_sd_clear */
    method Clear() returns (ok: bool)
      requires Valid()
      modifies this
      ensures Valid() && v == M.Clear(old(v)) && (ok <==> !old(v).recording && !old(v).Busy())
    {
      hide M.Shape, Holding, Geometry;
      M.ClearShape(v);
      M.ShapeGeometry(v);
      HoldingFacts(queue[..], queueRead, queueWrite, queueCount, v.queue);
      if v.recording || v.erasing || v.op != M.NoOp || v.finalise || queueCount > 0 { return false; }
      v := v.(retained := NONE, recordCount := 0, nextId := 1, clearSecond := true,
              committed := None, clearing := true, shadowed := false);
      v := M.Prepare(v, 0);
      ok := true;
    }

    /** blackbox_sd_init */
    method Init(p: M.Probe)
      requires Valid() && M.Resting(v)
      modifies this
      ensures Valid() && v == M.Init(old(v), p)
    {
      hide M.Shape, Holding, HeaderBlank, HeaderValid, Found, FlightId, M.Init, M.Usable, M.Unusable;
      M.InitShape(v, p);
      M.InitKeeps(v, p);
      M.ShapeGeometry(v);
      M.RestingIdle(v);
      HoldingFacts(queue[..], queueRead, queueWrite, queueCount, v.queue);
      HoldingNone(queue[..]);
      queueRead, queueWrite, queueCount, programLength := 0, 0, 0, 0;
      if !p.resetOk || !p.idOk || !p.headersOk {
        M.InitFails(v, p);
        v := M.Unusable(v, p.resetOk && p.idOk);
        return;
      }
      var valid0, valid1 := HeaderValid(v.image, v.bank, 0), HeaderValid(v.image, v.bank, 1);
      var retained, nextId, count, flag := NONE, 1, 0, v.stopFlag;
      if valid0 || valid1 {
        retained := if valid1 && (!valid0 || FlightId(v.image, v.bank, 1) > FlightId(v.image, v.bank, 0)) then 1 else 0;
        nextId := Add32(FlightId(v.image, v.bank, retained), 1);
        count := Decode32(v.image, Base(v.bank, retained) + COUNT_OFFSET);
        flag := v.image[Base(v.bank, retained) + 16];
      }
      var blank0 := HeaderErased(0);
      var blank1 := HeaderErased(1);
      var candidate := if retained == 0 then 1 else 0;
      if retained > 1 {
        if blank0 { candidate := 0; } else if blank1 { candidate := 1; }
      }
      M.InitWorks(v, p, retained, candidate);
      v := M.Usable(v, retained, nextId, count, flag, candidate, if candidate == 0 then blank0 else blank1);
    }

    /** blackbox_sd_get_record; `readOk` tells whether the two reads succeed. */
    method GetRecord(id: nat, index: nat, readOk: bool) returns (r: Option<Record>)
      requires Valid()
      ensures r == M.GetRecord(v, id, index, readOk)
    {
      hide M.Shape, Holding, FlightId, RecordAt;
      M.ShapeGeometry(v);
      HoldingFacts(queue[..], queueRead, queueWrite, queueCount, v.queue);
      if v.retained > 1 || v.erasing || v.op != M.NoOp || v.finalise || queueCount > 0 { return None; }
      if !readOk { return None; }
      if !HeaderValid(v.image, v.bank, v.retained) || FlightId(v.image, v.bank, v.retained) != id ||
         index >= Decode32(v.image, Base(v.bank, v.retained) + COUNT_OFFSET) { return None; }
      r := Some(RecordAt(v.image, v.bank, v.retained, index));
    }
  }
}
