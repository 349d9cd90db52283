/**
 The static variables and buffers of src/drivers/vtx/vtx_smartaudio.c updated in place, against
 the specification in SmartAudio.
 */
module SmartAudioPort {
  import opened Bytes
  import Crc8
  import S = SmartAudio

  class Port {
    const target: S.Target
    var phase: S.Phase
    var status: S.Status
    const tx: array<byte>
    var txSize: nat
    var txPosition: nat
    const rx: array<byte>
    var rxPosition: nat
    var attempts: nat
    var changes: nat
    var command: byte
    var deadline: nat
    ghost var commands: nat
    ghost var report: seq<byte>

    /** vtx_smartaudio_init with settings that are accepted */
    constructor (t: S.Target, now: nat)
      ensures Valid() && S.Inv(Value()) && Value() == S.Init(t, now) && fresh(tx) && fresh(rx)
    {
      target, phase, status := t, S.StartDelay, S.Initializing;
      tx := new byte[8](_ => 0);
      rx := new byte[S.BUFFER](_ => 0);
      txSize, txPosition, rxPosition, attempts, changes, command := 0, 0, 0, 0, 0, 0;
      deadline := Add32(now, 1000);
      commands, report := 0, [];
      new;
      S.InitInv(t, now);
    }

    ghost predicate Valid()
      reads this
    {
      tx.Length == 8 && rx.Length == S.BUFFER && txSize <= 8 && rxPosition <= S.BUFFER
    }

    ghost function Value(): S.State
      requires Valid()
      reads this, tx, rx
    {
      S.State(target, phase, status, tx[..txSize], txPosition, rx[..rxPosition], attempts, changes, command, deadline,
              commands, report)
    }

    method Fail(reason: S.Status)
      requires Valid()
      modifies `phase, `status
      ensures Valid() && Value() == S.Fail(old(Value()), reason)
    {
      phase, status := S.Failed, reason;
    }

    /** The bytes of a command, in the transmit buffer. */
    method BuildFrame(code: byte, payload: seq<byte>)
      requires Valid() && code < 128 && |payload| <= 1
      modifies tx
      ensures tx[..6 + |payload|] == S.Frame(code, payload)
    {
      hide Crc8.Crc;
      var n := |payload|;
      tx[0], tx[1], tx[2], tx[3], tx[4] := 0, 0xAA, 0x55, code * 2 + 1, n as byte;
      if n != 0 { tx[5] := payload[0]; }
      assert tx[1..5 + n] == [0xAA, 0x55, code * 2 + 1, n as byte] + payload;
      var sum := Crc8.Compute(tx[1..5 + n]);
      tx[5 + n] := sum;
    }

    /** send_command */
    method SendCommand(code: byte, payload: seq<byte>, t: S.Tick)
      requires Valid() && code < 128 && |payload| <= 1
      modifies this, tx
      ensures Valid() && Value() == S.Send(old(Value()), code, payload, t)
    {
      hide S.Frame;
      BuildFrame(code, payload);
      txSize, txPosition, rxPosition, command := 6 + |payload|, 0, 0, code;
      assert rx[..0] == [];
      commands := commands + 1;
      if !t.switchOk {
        phase, status := S.Failed, S.UartError;
        return;
      }
      phase, deadline := S.Transmitting, Add32(t.now, 100);
    }

    method ScheduleQuery(t: S.Tick)
      requires Valid()
      modifies `phase, `deadline
      ensures Valid() && Value() == S.ScheduleQuery(old(Value()), t)
    {
      phase, deadline := S.QueryDelay, Add32(t.now, 200);
    }

    /** `++changes` and a correction, unless twenty have not helped. */
    method Change(code: byte, value: byte, t: S.Tick)
      requires Valid() && code < 128
      modifies this, tx
      ensures Valid() && Value() == S.Change(old(Value()), code, value, t)
    {
      hide S.Frame;
      changes := changes + 1;
      if changes > S.MAX_ATTEMPTS {
        Fail(S.NotConfirmed);
      } else {
        SendCommand(code, [value], t);
      }
    }

    /** The loop over the power levels a version 2.1 device lists. */
    method Offered(r: seq<byte>, count: nat) returns (supported: bool)
      requires 11 + count <= |r|
      ensures supported <==> exists i :: 11 <= i < 11 + count && r[i] == target.dbm
    {
      supported := false;
      var i := 0;
      while i < count
        invariant 0 <= i <= count
        invariant supported <==> exists j :: 11 <= j < 11 + i && r[j] == target.dbm
      {
        if r[11 + i] == target.dbm { supported := true; }
        i := i + 1;
      }
    }

    /** The loop over the four power levels of older devices. */
    method LegacyLevel(version: byte) returns (level: int)
      ensures level == S.LegacyPower(target.power, version)
    {
      var powers := [25, 200, 500, 800];
      var dac := [7, 16, 25, 40];
      var index := 0;
      while index < 4 && powers[index] != target.power
        invariant 0 <= index <= 4
        invariant forall j :: 0 <= j < index ==> powers[j] != target.power
      {
        index := index + 1;
      }
      if index == 4 {
        assert powers[0] == 25 && powers[1] == 200 && powers[2] == 500 && powers[3] == 800;
        return -1;
      }
      level := if version == 1 then dac[index] else index;
    }

    /** The power level to have and the one reported. */
    method Levels(r: seq<byte>) returns (p: S.Power)
      requires |r| >= 10
      ensures p == S.PowerOf(target, r, |r| - 5)
    {
      var size := |r| - 5;
      if r[2] == 17 {
        if size < 8 { return S.Unsupported; }
        var count := (r[10] as nat + 1) % 256;
        if count > size - 7 || count > S.BUFFER - 11 { return S.Unsupported; }
        var supported := Offered(r, count);
        if !supported { return S.Unsupported; }
        p := S.Levels(target.dbm, r[9]);
      } else {
        var level := LegacyLevel(r[2]);
        if level < 0 { return S.Unsupported; }
        p := S.Levels(level as byte, r[5]);
      }
    }

    /** process_settings */
    method ProcessSettings(r: seq<byte>, t: S.Tick)
      requires Valid() && |r| >= 5
      modifies this, tx
      ensures Valid() && Value() == S.Process(old(Value()), r, t)
    {
      hide S.PowerOf, S.Change;
      if |r| - 5 < 5 || !S.KnownVersion(r[2]) { return; }
      attempts, report := 0, r;
      if r[4] != target.channel || r[6] as nat % 2 != 0 || r[7] as nat * 256 + r[8] as nat != target.frequency {
        Change(3, target.channel, t);
        return;
      }
      var p := Levels(r);
      match p {
        case Unsupported => Fail(S.UnsupportedPower);
        case Levels(wanted, actual) =>
          if actual != wanted {
            Change(2, if r[2] == 17 then S.WithTopBit(wanted) else wanted, t);
          } else {
            status, phase := S.Applied, S.Done;
          }
      }
    }

    /** receive */
    method Receive(b: byte, t: S.Tick)
      requires Valid() && S.Inv(Value())
      modifies this, tx, rx
      ensures Valid() && Value() == S.Receive(old(Value()), b, t)
    {
      hide Crc8.Crc, S.Process, S.Confirmed;
      ghost var was := rx[..rxPosition];
      if rxPosition == 0 {
        if b == 0xAA {
          rx[0] := b;
          rxPosition := 1;
        }
        assert rx[..rxPosition] == if b == 0xAA then was + [b] else [];
        return;
      }
      if rxPosition == 1 && b != 0x55 {
        rxPosition := if b == 0xAA then 1 else 0;
        assert rx[..rxPosition] == if b == 0xAA then was else [];
        return;
      }
      rx[rxPosition] := b;
      rxPosition := rxPosition + 1;
      assert rx[..rxPosition] == was + [b];
      if rxPosition < 4 { return; }
      var length := rx[3] as nat;
      if length > S.BUFFER - 5 {
        rxPosition := 0;
        assert rx[..0] == [];
        return;
      }
      var frame := rx[..rxPosition];
      var ends := rxPosition >= 5 && (rxPosition == length + 4 || rxPosition == length + 5);
      if ends {
        var sum := Crc8.Compute(frame[2..rxPosition - 1]);
        ends := sum == b;
      }
      assert ends == S.ResponseEnds(frame);
      if ends {
        rxPosition := 0;
        assert rx[..0] == [];
        if command == 1 { ProcessSettings(frame, t); } else if frame[2] == command { ScheduleQuery(t); }
      } else if rxPosition >= length + 5 {
        rxPosition := 0;
        assert rx[..0] == [];
      }
    }

    /** The bounded receive loop. */
    method ReceiveAll(bytes: seq<byte>, t: S.Tick)
      requires Valid() && S.Inv(Value()) && phase == S.WaitResponse
      modifies this, tx, rx
      ensures Valid() && Value() == S.ReceiveAll(old(Value()), bytes, t)
    {
      hide S.Inv, S.Receive;
      var i := 0;
      assert bytes[0..] == bytes;
      while i < |bytes| && phase == S.WaitResponse
        invariant 0 <= i <= |bytes| && Valid() && (phase == S.WaitResponse ==> S.Inv(Value()))
        invariant S.ReceiveAll(Value(), bytes[i..], t) == S.ReceiveAll(old(Value()), bytes, t)
      {
        S.ReceiveWithin(Value(), bytes[i], t);
        assert bytes[i..][1..] == bytes[i + 1..];
        Receive(bytes[i], t);
        i := i + 1;
      }
    }

    /** vtx_smartaudio_update */
    method Update(t: S.Tick) returns (emitted: seq<byte>)
      requires Valid() && S.Inv(Value())
      modifies this, tx, rx
      ensures Valid() && S.Inv(Value()) && Value() == S.Update(old(Value()), t) && emitted == S.Emitted(old(Value()), t)
      ensures t.armed ==> emitted == []
    {
      hide S.Inv, S.ReceiveAll, S.Late, S.Frame, S.Transmit, S.Wait;
      S.UpdateWithin(Value(), t);
      InvParts(Value());
      emitted := [];
      if phase == S.Idle || phase == S.Done || phase == S.Failed { return; }
      if t.armed {
        rxPosition, phase, deadline := 0, S.StartDelay, Add32(t.now, 1000);
        assert rx[..0] == [];
        return;
      }
      if phase == S.StartDelay || phase == S.QueryDelay {
        if S.Late(t.now, deadline) { SendCommand(1, [], t); }
        return;
      }
      if phase == S.Transmitting {
        emitted := Transmit(t);
        return;
      }
      Await(t);
    }

    /** The part of the update that sends a command. */
    method Transmit(t: S.Tick) returns (emitted: seq<byte>)
      requires Valid() && phase == S.Transmitting && !t.armed
      modifies `txPosition, `phase, `deadline, `status
      ensures Valid() && Value() == S.Transmit(old(Value()), t) && emitted == S.Emitted(old(Value()), t)
    {
      hide S.Late;
      emitted := [];
      if txPosition < txSize && t.ready {
        emitted := [tx[txPosition]];
        txPosition := txPosition + 1;
      } else if txPosition == txSize && t.complete {
        if !t.switchOk {
          Fail(S.UartError);
          return;
        }
        phase, deadline := S.WaitResponse, Add32(t.now, 300);
        return;
      }
      if S.Late(t.now, deadline) { Fail(S.UartError); }
    }

    /** The part of the update that waits for a response. */
    method Await(t: S.Tick)
      requires Valid() && S.Inv(Value()) && phase == S.WaitResponse
      modifies this, tx, rx
      ensures Valid() && Value() == S.Wait(old(Value()), t)
    {
      hide S.Inv, S.ReceiveAll, S.Late;
      ClearedInv(Value());
      if t.lineError {
        rxPosition := 0;
        assert rx[..0] == [];
      }
      var n := S.Least(S.BUFFER, |t.bytes|);
      ReceiveAll(t.bytes[..n], t);
      if phase == S.WaitResponse && S.Late(t.now, deadline) {
        attempts := attempts + 1;
        if attempts >= S.MAX_ATTEMPTS {
          Fail(S.NoResponse);
        } else {
          ScheduleQuery(t);
        }
      }
    }
  }

  lemma InvParts(s: S.State)
    requires S.Inv(s)
    ensures s.sent <= |s.tx|
  {}

  lemma ClearedInv(s: S.State)
    requires S.Inv(s)
    ensures S.Inv(s.(rx := []))
  {}
}
