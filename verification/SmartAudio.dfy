/**
 The SmartAudio configuration of a video transmitter (src/drivers/vtx/vtx_smartaudio.c): ask for
 the settings, correct channel and power, ask again, and give up after a bounded effort.
 */
module SmartAudio {
  import opened Bytes
  import Crc8
  import Scheduler

  const BUFFER := 32
  const MAX_ATTEMPTS := 20

  datatype Phase = Idle | StartDelay | Transmitting | WaitResponse | QueryDelay | Done | Failed
  datatype Status = NotConfigured | InvalidSettings | Initializing | UartError | NotConfirmed | UnsupportedPower |
                    NoResponse | Applied

  /** What is wanted; `dbm` is the power in dBm, rounded. */
  datatype Target = Target(channel: byte, frequency: nat, power: nat, dbm: byte)

  /** One service tick: clock, armed, transmitter ready, transmission complete, whether switching
      the line works, whether it has an error, and the bytes that wait. */
  datatype Tick = Tick(now: nat, armed: bool, ready: bool, complete: bool, switchOk: bool, lineError: bool,
                       bytes: seq<byte>)

  datatype State = State(
    target: Target, phase: Phase, status: Status,
    tx: seq<byte>, sent: nat,          // the command being sent and how much of it is out
    rx: seq<byte>,                     // what has arrived of a response
    attempts: nat, changes: nat, command: byte, deadline: nat,
    commands: nat,                     // history: commands sent so far
    report: seq<byte>)                 // history: the last settings report that was looked at

  predicate Late(now: nat, deadline: nat) { Sub32(now, deadline) < 0x8000_0000 }

  // ------------------------------------------------- commands

  /** A command frame; its checksum covers the sync bytes. */
  function Frame(code: byte, payload: seq<byte>): seq<byte>
    requires code < 128 && |payload| <= 1
  {
    var body := [0xAA, 0x55, code * 2 + 1, |payload| as byte] + payload;
    [0] + body + [Crc8.Crc(body)]
  }

  function Fail(s: State, reason: Status): State { s.(phase := Failed, status := reason) }

  function Send(s: State, code: byte, payload: seq<byte>, t: Tick): State
    requires code < 128 && |payload| <= 1
  {
    s.(tx := Frame(code, payload), sent := 0, rx := [], command := code, commands := s.commands + 1,
       phase := if t.switchOk then Transmitting else Failed, status := if t.switchOk then s.status else UartError,
       deadline := if t.switchOk then Add32(t.now, 100) else s.deadline)
  }

  function Query(s: State, t: Tick): State { Send(s, 1, [], t) }

  function ScheduleQuery(s: State, t: Tick): State { s.(phase := QueryDelay, deadline := Add32(t.now, 200)) }

  // ------------------------------------------------- a settings report

  function Frequency(r: seq<byte>): nat
    requires |r| > 8
  {
    r[7] as nat * 256 + r[8] as nat
  }

  /** Channel, mode and frequency are those wanted. */
  predicate OnChannel(target: Target, r: seq<byte>)
    requires |r| > 8
  {
    r[4] == target.channel && r[6] as nat % 2 == 0 && Frequency(r) == target.frequency
  }

  /** The power levels of a version 2.1 device, as far as the report lists them. */
  predicate PowersListed(r: seq<byte>, size: nat)
    requires |r| == size + 5 && size >= 8
  {
    var count := (r[10] as nat + 1) % 256;
    count <= size - 7 && count <= BUFFER - 11
  }

  predicate PowerOffered(target: Target, r: seq<byte>, size: nat)
    requires |r| == size + 5 && size >= 8 && PowersListed(r, size)
  {
    exists i :: 11 <= i < 11 + (r[10] as nat + 1) % 256 && r[i] == target.dbm
  }

  /** 25, 200, 500 and 800 mW by their index, or by the DAC value of a version 1 device. */
  function LegacyPower(power: nat, version: byte): (level: int)
    ensures -1 <= level < 256
  {
    var index := if power == 25 then 0 else if power == 200 then 1 else if power == 500 then 2
                 else if power == 800 then 3 else 4;
    if index == 4 then -1
    else if version == 1 then (if index == 0 then 7 else if index == 1 then 16 else if index == 2 then 25 else 40)
    else index
  }

  /** The power level to have and the one reported, or nothing if the device does not offer it. */
  datatype Power = Unsupported | Levels(wanted: byte, actual: byte)

  function PowerOf(target: Target, r: seq<byte>, size: nat): Power
    requires |r| == size + 5 && size >= 5
  {
    if r[2] == 17 then
      if size < 8 || !PowersListed(r, size) || !PowerOffered(target, r, size) then Unsupported
      else Levels(target.dbm, r[9])
    else
      var level := LegacyPower(target.power, r[2]);
      if level < 0 then Unsupported else Levels(level as byte, r[5])
  }

  predicate KnownVersion(b: byte) { b == 1 || b == 9 || b == 17 }

  /** process_settings */
  function Process(s: State, r: seq<byte>, t: Tick): State
    requires |r| >= 5
  {
    var size := |r| - 5;
    if size < 5 || !KnownVersion(r[2]) then s
    else
      var z := s.(attempts := 0, report := r);
      if !OnChannel(s.target, r) then Change(z, 3, s.target.channel, t)
      else match PowerOf(s.target, r, size)
        case Unsupported => Fail(z, UnsupportedPower)
        case Levels(wanted, actual) =>
          if actual == wanted then z.(phase := Done, status := Applied)
          else Change(z, 2, if r[2] == 17 then WithTopBit(wanted) else wanted, t)
  }

  function WithTopBit(b: byte): byte { if b < 128 then b + 128 else b }

  /** A correction, unless twenty have not helped. */
  function Change(s: State, code: byte, value: byte, t: Tick): State
    requires code < 128
  {
    if s.changes + 1 > MAX_ATTEMPTS then Fail(s.(changes := s.changes + 1), NotConfirmed)
    else Send(s.(changes := s.changes + 1), code, [value], t)
  }

  // ------------------------------------------------- receiving

  /** A response whose length and checksum fit: the length may or may not count the checksum. */
  predicate ResponseEnds(r: seq<byte>) {
    |r| >= 5 && (|r| == r[3] as nat + 4 || |r| == r[3] as nat + 5) && Crc8.Crc(r[2..|r| - 1]) == r[|r| - 1]
  }

  /** receive */
  function Receive(s: State, b: byte, t: Tick): State {
    var r := s.rx + [b];
    if s.rx == [] then s.(rx := if b == 0xAA then r else [])
    else if |s.rx| == 1 && b != 0x55 then s.(rx := if b == 0xAA then s.rx else [])
    else if |r| < 4 then s.(rx := r)
    else if r[3] as nat > BUFFER - 5 then s.(rx := [])
    else if ResponseEnds(r) then
      var z := s.(rx := []);
      if s.command == 1 then Process(z, r, t) else if r[2] == s.command then ScheduleQuery(z, t) else z
    else s.(rx := if |r| >= r[3] as nat + 5 then [] else r)
  }

  /** The bounded receive loop: it stops when the state changes. */
  function ReceiveAll(s: State, bytes: seq<byte>, t: Tick): State
    decreases |bytes|
  {
    if bytes == [] || s.phase != WaitResponse then s else ReceiveAll(Receive(s, bytes[0], t), bytes[1..], t)
  }

  function Least(a: nat, b: nat): nat { if a < b then a else b }

  // ------------------------------------------------- one update

  predicate Running(s: State) { s.phase != Idle && s.phase != Done && s.phase != Failed }

  function Interrupted(s: State, t: Tick): State { s.(rx := [], phase := StartDelay, deadline := Add32(t.now, 1000)) }

  function Transmit(s: State, t: Tick): State {
    if s.sent < |s.tx| && t.ready then
      if Late(t.now, s.deadline) then Fail(s.(sent := s.sent + 1), UartError) else s.(sent := s.sent + 1)
    else if s.sent == |s.tx| && t.complete then
      if t.switchOk then s.(phase := WaitResponse, deadline := Add32(t.now, 300)) else Fail(s, UartError)
    else if Late(t.now, s.deadline) then Fail(s, UartError)
    else s
  }

  function Timeout(s: State, t: Tick): State {
    if s.attempts + 1 >= MAX_ATTEMPTS then Fail(s.(attempts := s.attempts + 1), NoResponse)
    else ScheduleQuery(s.(attempts := s.attempts + 1), t)
  }

  function Wait(s: State, t: Tick): State {
    var r := ReceiveAll(if t.lineError then s.(rx := []) else s, t.bytes[..Least(BUFFER, |t.bytes|)], t);
    if r.phase == WaitResponse && Late(t.now, r.deadline) then Timeout(r, t) else r
  }

  /** vtx_smartaudio_update */
  function Update(s: State, t: Tick): State {
    if !Running(s) then s
    else if t.armed then Interrupted(s, t)
    else if s.phase == StartDelay || s.phase == QueryDelay then (if Late(t.now, s.deadline) then Query(s, t) else s)
    else if s.phase == Transmitting then Transmit(s, t)
    else Wait(s, t)
  }

  /** The byte an update puts on the wire. */
  function Emitted(s: State, t: Tick): seq<byte> {
    if Running(s) && !t.armed && s.phase == Transmitting && s.sent < |s.tx| && t.ready then [s.tx[s.sent]] else []
  }

  /** vtx_smartaudio_init with settings that are accepted */
  function Init(target: Target, now: nat): State {
    State(target, StartDelay, Initializing, [], 0, [], 0, 0, 0, Add32(now, 1000), 0, [])
  }

  /** Nothing is sent in the first second, nor for a second after an armed update, nor for 200 ms after an
      answer to a correction or a missing answer. */
  lemma PausesKept(s: State, target: Target, now: nat, t: Tick)
    requires now < WORD && t.now < WORD && !t.armed
    ensures var a := Init(target, now); (t.now - now) % WORD < 1000 ==> Update(a, t) == a
    ensures forall u: Tick :: u.armed && Running(s) && u.now == now && (t.now - now) % WORD < 1000 ==>
      Update(Update(s, u), t) == Update(s, u)
    ensures forall u: Tick :: u.now == now && (t.now - now) % WORD < 200 ==>
      Update(ScheduleQuery(s, u), t) == ScheduleQuery(s, u)
  {
    hide Update, Running;
    Waits(Init(target, now), t, Add32(now, 1000), 1000, now);
    forall u: Tick | u.armed && Running(s) && u.now == now && (t.now - now) % WORD < 1000
      ensures Update(Update(s, u), t) == Update(s, u)
    {
      Stops(s, u);
      Waits(Interrupted(s, u), t, Add32(now, 1000), 1000, now);
    }
    forall u: Tick | u.now == now && (t.now - now) % WORD < 200
      ensures Update(ScheduleQuery(s, u), t) == ScheduleQuery(s, u)
    {
      Waits(ScheduleQuery(s, u), t, Add32(now, 200), 200, now);
    }
  }

  lemma Stops(s: State, u: Tick)
    requires Running(s) && u.armed
    ensures Update(s, u) == Interrupted(s, u)
  {
    hide Wait, Transmit, Query;
  }

  lemma Waits(s: State, t: Tick, deadline: nat, pause: nat, now: nat)
    requires now < WORD && t.now < WORD && !t.armed && pause <= 1000 && deadline == Add32(now, pause)
    ensures s.deadline == deadline && (s.phase == StartDelay || s.phase == QueryDelay) && (t.now - now) % WORD < pause ==>
      Update(s, t) == s
  {
    hide Wait, Transmit, Query;
    assert (t.now - now) % WORD < pause ==> !Late(t.now, deadline);
  }

  // ------------------------------------------------- the invariant

  /** Counters within their limits, indices within the buffers, and `Applied` only as told below. */
  predicate Inv(s: State) {
    && s.phase != Idle
    && (Running(s) ==> s.attempts < MAX_ATTEMPTS && s.changes <= MAX_ATTEMPTS)
    && s.sent <= |s.tx| <= 8
    && (s.rx != [] ==> s.rx[0] == 0xAA && |s.rx| < BUFFER)
    && (|s.rx| >= 2 ==> s.rx[1] == 0x55)
    && (|s.rx| >= 4 ==> s.rx[3] as nat <= BUFFER - 5 && |s.rx| < s.rx[3] as nat + 5)
    && (s.phase == Done || s.status == Applied ==> Confirmed(s))
  }

  /** A readback with a valid checksum shows the wanted channel, mode, frequency and power. */
  predicate Confirmed(s: State) {
    var r := s.report;
    && s.phase == Done && s.status == Applied && |r| >= 10 && ResponseEnds(r) && KnownVersion(r[2])
    && OnChannel(s.target, r)
    && match PowerOf(s.target, r, |r| - 5)
       case Unsupported => false
       case Levels(wanted, actual) => wanted == actual
  }

  // ------------------------------------------------- the effort left

  /** An upper bound on the commands still to be sent. */
  function Remaining(s: State): int {
    if !Running(s) then 0
    else
      21 * (MAX_ATTEMPTS - s.changes) + MAX_ATTEMPTS - s.attempts -
      (if (s.phase == Transmitting || s.phase == WaitResponse) && s.command == 1 then 1 else 0)
  }

  /** It falls with every update whose deadline has passed. */
  function Work(s: State): int {
    if !Running(s) then 0
    else 3 * Remaining(s) + match s.phase case Transmitting => 2 case WaitResponse => 1 case _ => 0
  }

  /** No step makes more work or more commands than were left. */
  predicate Within(s: State, u: State) {
    0 <= Remaining(u) && 0 <= Work(u) <= Work(s) && s.commands <= u.commands &&
    u.commands + Remaining(u) <= s.commands + Remaining(s)
  }

  lemma QueryWithin(s: State, t: Tick)
    requires Inv(s) && (s.phase == StartDelay || s.phase == QueryDelay)
    ensures var u := Query(s, t); Inv(u) && Within(s, u) && Work(u) < Work(s) && u.target == s.target
  {
    hide Crc8.Crc, PowerOf, OnChannel, ResponseEnds;
  }

  /** A correction costs a change, which is worth more than all queries that may follow it. */
  lemma ChangeWithin(s: State, z: State, code: byte, value: byte, t: Tick)
    requires Inv(s) && s.phase == WaitResponse && s.command == 1 && 1 < code < 128
    requires z == s.(rx := [], attempts := 0, report := z.report)
    ensures var u := Change(z, code, value, t);
      Inv(u) && Within(s, u) && Work(u) < Work(s) && u.phase != WaitResponse && u.target == s.target
  {
    hide Crc8.Crc, PowerOf, OnChannel, ResponseEnds;
  }

  lemma ProcessWithin(s: State, r: seq<byte>, t: Tick)
    requires Inv(s) && s.phase == WaitResponse && s.command == 1 && ResponseEnds(r)
    ensures var u := Process(s.(rx := []), r, t);
      && Inv(u) && Within(s, u) && u.target == s.target
      && (u.phase == WaitResponse ==> u == s.(rx := [])) && (u.phase != WaitResponse ==> Work(u) < Work(s))
  {
    hide Crc8.Crc, PowerOf, OnChannel, ResponseEnds, Change;
    var z := s.(rx := [], attempts := 0, report := r);
    ChangeWithin(s, z, 3, s.target.channel, t);
    if |r| >= 10 {
      match PowerOf(s.target, r, |r| - 5) {
        case Unsupported =>
        case Levels(wanted, actual) => ChangeWithin(s, z, 2, if r[2] == 17 then WithTopBit(wanted) else wanted, t);
      }
    }
  }

  lemma ReceiveWithin(s: State, b: byte, t: Tick)
    requires Inv(s) && s.phase == WaitResponse
    ensures var u := Receive(s, b, t);
      && Inv(u) && Within(s, u) && u.target == s.target
      && (u.phase == WaitResponse ==> u.(rx := []) == s.(rx := [])) && (u.phase != WaitResponse ==> Work(u) < Work(s))
  {
    var r := s.rx + [b];
    hide Crc8.Crc, Process, ResponseEnds, OnChannel, PowerOf;
    if ResponseEnds(r) && s.command == 1 { ProcessWithin(s, r, t); }
  }

  lemma {:induction false} ReceiveAllWithin(s: State, bytes: seq<byte>, t: Tick)
    requires Inv(s) && s.phase == WaitResponse
    ensures var u := ReceiveAll(s, bytes, t);
      && Inv(u) && Within(s, u) && u.target == s.target
      && (u.phase == WaitResponse ==> u.(rx := []) == s.(rx := [])) && (u.phase != WaitResponse ==> Work(u) < Work(s))
    decreases |bytes|
  {
    hide Receive, Inv, Work, Remaining;
    if bytes == [] {
      StillWithin(s);
    } else {
      ReceiveWithin(s, bytes[0], t);
      var u := Receive(s, bytes[0], t);
      if u.phase == WaitResponse {
        SameEffort(s, u);
        ReceiveAllWithin(u, bytes[1..], t);
      } else {
        StillWithin(u);
        assert ReceiveAll(u, bytes[1..], t) == u;
      }
    }
  }

  lemma StillWithin(s: State)
    requires Inv(s)
    ensures Within(s, s)
  {}

  lemma SameEffort(s: State, u: State)
    requires u.(rx := []) == s.(rx := [])
    ensures Work(u) == Work(s) && Remaining(u) == Remaining(s) && u.commands == s.commands
  {}

  lemma TransmitWithin(s: State, t: Tick)
    requires Inv(s) && s.phase == Transmitting
    ensures var u := Transmit(s, t);
      Inv(u) && Within(s, u) && u.target == s.target && (Late(t.now, s.deadline) ==> Work(u) < Work(s))
  {
    hide PowerOf, OnChannel, ResponseEnds, Late;
  }

  lemma TimeoutWithin(s: State, t: Tick)
    requires Inv(s) && s.phase == WaitResponse
    ensures var u := Timeout(s, t); Inv(u) && Within(s, u) && u.target == s.target && Work(u) < Work(s)
  {
    hide PowerOf, OnChannel, ResponseEnds;
  }

  lemma WaitWithin(s: State, t: Tick)
    requires Inv(s) && s.phase == WaitResponse
    ensures var u := Wait(s, t);
      Inv(u) && Within(s, u) && u.target == s.target && (Late(t.now, s.deadline) ==> Work(u) < Work(s))
  {
    var clear := if t.lineError then s.(rx := []) else s;
    assert Inv(clear) && clear.(rx := []) == s.(rx := []);
    SameEffort(s, clear);
    hide Inv, Work, Remaining, ReceiveAll, Timeout, Late;
    ReceiveAllWithin(clear, t.bytes[..Least(BUFFER, |t.bytes|)], t);
    var r := ReceiveAll(clear, t.bytes[..Least(BUFFER, |t.bytes|)], t);
    if r.phase == WaitResponse {
      SameEffort(s, r);
      TimeoutWithin(r, t);
    }
  }

  /** One update: never more work; less work once the deadline has passed; an armed update may
      cost one more query. */
  lemma UpdateWithin(s: State, t: Tick)
    requires Inv(s)
    ensures var u := Update(s, t);
      && Inv(u) && u.target == s.target && 0 <= Remaining(u) && 0 <= Work(u)
      && (!t.armed ==> Within(s, u) && (Running(s) && Late(t.now, s.deadline) ==> Work(u) < Work(s)))
      && (t.armed ==> u.commands == s.commands && Remaining(u) <= Remaining(s) + 1)
  {
    hide Query, Transmit, Wait, Late, PowerOf, OnChannel, ResponseEnds;
    StillWithin(s);
    if Running(s) && !t.armed {
      match s.phase {
        case Transmitting => TransmitWithin(s, t);
        case WaitResponse => WaitWithin(s, t);
        case _ => QueryWithin(s, t);
      }
    }
  }

  // ------------------------------------------------- whole runs

  function Run(s: State, ticks: seq<Tick>): State
    decreases |ticks|
  {
    if ticks == [] then s else Run(Update(s, ticks[0]), ticks[1..])
  }

  function ArmedTicks(ticks: seq<Tick>): nat
    decreases |ticks|
  {
    if ticks == [] then 0 else (if ticks[0].armed then 1 else 0) + ArmedTicks(ticks[1..])
  }

  /** Updates of a run that find the machine running and its deadline passed. */
  function LateTicks(s: State, ticks: seq<Tick>): nat
    decreases |ticks|
  {
    if ticks == [] then 0
    else (if Running(s) && Late(ticks[0].now, s.deadline) then 1 else 0) + LateTicks(Update(s, ticks[0]), ticks[1..])
  }

  lemma {:induction false} RunWithin(s: State, ticks: seq<Tick>)
    requires Inv(s)
    ensures var u := Run(s, ticks);
      && Inv(u) && u.target == s.target && 0 <= Work(u)
      && u.commands + Remaining(u) <= s.commands + Remaining(s) + ArmedTicks(ticks)
      && (ArmedTicks(ticks) == 0 ==> LateTicks(s, ticks) + Work(u) <= Work(s))
    decreases |ticks|
  {
    hide Inv, Update, Work, Remaining, Late;
    UpdateWithin(s, if ticks == [] then Tick(0, false, false, false, false, false, []) else ticks[0]);
    if ticks == [] {
      NonNegative(s);
    } else {
      RunWithin(Update(s, ticks[0]), ticks[1..]);
    }
  }

  lemma NonNegative(s: State)
    requires Inv(s)
    ensures 0 <= Work(s) && 0 <= Remaining(s)
  {}

  lemma InitInv(target: Target, now: nat)
    ensures var s := Init(target, now); Inv(s) && Remaining(s) == 440 && Work(s) == 1320 && s.commands == 0
  {}

  /** At most 440 commands are ever sent, and one more for each armed update. */
  lemma CommandsBounded(target: Target, now: nat, ticks: seq<Tick>)
    ensures Run(Init(target, now), ticks).commands <= 440 + ArmedTicks(ticks)
  {
    hide Inv, Run, Remaining, Init;
    InitInv(target, now);
    RunWithin(Init(target, now), ticks);
    NonNegative(Run(Init(target, now), ticks));
  }

  /** A run that is never armed ends: after at most 1320 updates past a deadline it is done or has failed. */
  lemma Ends(target: Target, now: nat, ticks: seq<Tick>)
    requires ArmedTicks(ticks) == 0 && LateTicks(Init(target, now), ticks) >= 1320
    ensures Run(Init(target, now), ticks).phase in {Done, Failed}
  {
    hide Inv, Update, Late;
    InitInv(target, now);
    RunWithin(Init(target, now), ticks);
    RunningWorks(Run(Init(target, now), ticks));
  }

  lemma RunningWorks(s: State)
    requires Inv(s)
    ensures Work(s) > 0 || s.phase in {Done, Failed}
    ensures Running(s) <==> Work(s) > 0
  {}

  // ------------------------------------------------- the time it takes

  /** A deadline that was set at `now`. */
  predicate Ahead(deadline: nat, now: nat) {
    deadline == Add32(now, 100) || deadline == Add32(now, 200) || deadline == Add32(now, 300)
  }

  /** The deadline stands and has not passed, or it was set anew and less work is left. */
  predicate Timed(s: State, u: State, t: Tick) {
    Running(u) ==>
      (u.deadline == s.deadline && !Late(t.now, s.deadline)) || (Ahead(u.deadline, t.now) && Work(u) < Work(s))
  }

  lemma SendReset(s: State, code: byte, payload: seq<byte>, t: Tick)
    requires code < 128 && |payload| <= 1
    ensures Running(Send(s, code, payload, t)) ==> Ahead(Send(s, code, payload, t).deadline, t.now)
  {
    hide Frame, Add32;
  }

  lemma ReceiveReset(s: State, b: byte, t: Tick)
    requires Inv(s) && s.phase == WaitResponse
    ensures Receive(s, b, t).phase != WaitResponse ==> Fresh(Receive(s, b, t), t)
  {
    hide Crc8.Crc, OnChannel, PowerOf, Add32, Frame, Inv, Process;
    var r := s.rx + [b];
    if |r| >= 5 { ProcessReset(s.(rx := []), r, t); }
  }

  /** A new deadline has been set. */
  predicate Fresh(u: State, t: Tick) { Running(u) ==> Ahead(u.deadline, t.now) }

  lemma ProcessReset(s: State, r: seq<byte>, t: Tick)
    requires s.phase == WaitResponse && |r| >= 5
    ensures var u := Process(s, r, t); u == s || Fresh(u, t)
  {
    hide OnChannel, PowerOf, Send, KnownVersion;
    var z := s.(attempts := 0, report := r);
    SendReset(z.(changes := z.changes + 1), 3, [s.target.channel], t);
    forall v: byte { SendReset(z.(changes := z.changes + 1), 2, [v], t); }
  }

  lemma {:induction false} ReceiveAllReset(s: State, bytes: seq<byte>, t: Tick)
    requires Inv(s) && s.phase == WaitResponse
    ensures var u := ReceiveAll(s, bytes, t); u.phase != WaitResponse ==> Fresh(u, t)
    decreases |bytes|
  {
    hide Receive, Inv, Fresh;
    if bytes != [] {
      ReceiveWithin(s, bytes[0], t);
      ReceiveReset(s, bytes[0], t);
      var u := Receive(s, bytes[0], t);
      if u.phase == WaitResponse {
        ReceiveAllReset(u, bytes[1..], t);
      } else {
        assert ReceiveAll(u, bytes[1..], t) == u;
      }
    }
  }

  lemma WaitTimed(s: State, t: Tick)
    requires Inv(s) && s.phase == WaitResponse
    ensures Timed(s, Wait(s, t), t)
  {
    var clear := if t.lineError then s.(rx := []) else s;
    var bytes := t.bytes[..Least(BUFFER, |t.bytes|)];
    assert Inv(clear) && clear.(rx := []) == s.(rx := []);
    SameEffort(s, clear);
    hide Inv, Work, Remaining, ReceiveAll, Timeout, Late, Add32;
    ReceiveAllWithin(clear, bytes, t);
    ReceiveAllReset(clear, bytes, t);
    var r := ReceiveAll(clear, bytes, t);
    if r.phase == WaitResponse {
      SameEffort(s, r);
      TimeoutWithin(r, t);
      TimeoutFresh(r, t);
    }
  }

  lemma TimeoutFresh(s: State, t: Tick)
    ensures Fresh(Timeout(s, t), t)
  {
    hide Add32;
  }

  lemma TransmitTimed(s: State, t: Tick)
    requires Inv(s) && s.phase == Transmitting
    ensures Timed(s, Transmit(s, t), t)
  {
    hide PowerOf, OnChannel, ResponseEnds, Late, Add32;
  }

  lemma QueryTimed(s: State, t: Tick)
    requires Inv(s) && (s.phase == StartDelay || s.phase == QueryDelay)
    ensures Timed(s, if Late(t.now, s.deadline) then Query(s, t) else s, t)
  {
    QueryWithin(s, t);
    SendReset(s, 1, [], t);
    hide Inv, Work, Send, Late, Add32;
  }

  lemma UpdateTimed(s: State, t: Tick)
    requires Inv(s) && !t.armed
    ensures Timed(s, Update(s, t), t)
  {
    hide Query, Transmit, Wait, Late, Add32, Inv, Work;
    if Running(s) {
      match s.phase {
        case Transmitting => TransmitTimed(s, t);
        case WaitResponse => WaitTimed(s, t);
        case _ => QueryTimed(s, t);
      }
    }
  }

  /** The updates come at the true times `times`, at most `g` milliseconds apart, the first at most
      `g` after `last`. */
  predicate Paced(last: nat, times: seq<nat>, ticks: seq<Tick>, g: nat)
    decreases |times|
  {
    |times| == |ticks| &&
    (times != [] ==>
       last <= times[0] <= last + g && ticks[0].now == times[0] % WORD && Paced(times[0], times[1..], ticks[1..], g))
  }

  function End(last: nat, times: seq<nat>): nat { if times == [] then last else times[|times| - 1] }

  lemma DeadlineTrue(t: nat, d: nat, u: nat)
    requires d <= t < d + 0x8000_0000 || t < d <= t + 0x8000_0000
    ensures Late(t % WORD, d % WORD) <==> d <= t
    ensures Ahead(u, t % WORD) ==> u == (t + 100) % WORD || u == (t + 200) % WORD || u == (t + 300) % WORD
  {
    hide Sub32, Add32;
    Scheduler.SubTrue(d, t);
    Scheduler.AddTrue(t, 100);
    Scheduler.AddTrue(t, 200);
    Scheduler.AddTrue(t, 300);
  }

  lemma {:induction false} RunsUntil(s: State, d: nat, last: nat, times: seq<nat>, ticks: seq<Tick>, g: nat)
    requires Inv(s) && ArmedTicks(ticks) == 0 && Paced(last, times, ticks, g) && g < 0x4000_0000
    requires Running(s) ==> s.deadline == d % WORD && last <= d <= last + 1000
    ensures Running(Run(s, ticks)) ==> Running(s) && End(last, times) <= d + (Work(s) - 1) * (1000 + g)
    decreases |times|
  {
    hide Inv, Update, Late, Ahead, Work;
    RunningWorks(s);
    if times == [] {
      Effort(Work(s), 0, g);
    } else {
      var t, u := times[0], Update(s, ticks[0]);
      UpdateWithin(s, ticks[0]);
      UpdateTimed(s, ticks[0]);
      assert End(last, times) == End(t, times[1..]);
      if Running(s) && Running(u) {
        RunningWorks(u);
        DeadlineTrue(t, d, u.deadline);
        if u.deadline == s.deadline && t < d {
          RunsUntil(u, d, t, times[1..], ticks[1..], g);
          Effort(Work(s), Work(u), g);
        } else {
          var n := if u.deadline == (t + 100) % WORD then 100 else if u.deadline == (t + 200) % WORD then 200 else 300;
          RunsUntil(u, t + n, t, times[1..], ticks[1..], g);
          Effort(Work(s), Work(u), g);
        }
      } else {
        StaysEnded(s, ticks);
        StaysEnded(u, ticks[1..]);
      }
    }
  }

  lemma {:induction false} StaysEnded(s: State, ticks: seq<Tick>)
    ensures !Running(s) ==> !Running(Run(s, ticks))
    decreases |ticks|
  {
    if ticks != [] && !Running(s) { StaysEnded(s, ticks[1..]); }
  }

  lemma Effort(w: int, v: int, g: nat)
    ensures w >= 1 ==> (w - 1) * (1000 + g) >= 0
    ensures v <= w ==> (v - 1) * (1000 + g) <= (w - 1) * (1000 + g)
    ensures v < w ==> (1000 + g) + (v - 1) * (1000 + g) <= (w - 1) * (1000 + g)
  {
    if v < w { Distance(w - 1 - v, 1000 + g); }
  }

  lemma Distance(k: nat, p: nat)
    ensures k * p >= 0
  {}

  /** A run that is never armed and whose updates are at most `g` milliseconds apart is done or has
      failed after 1320 times (1000 + g) milliseconds. */
  lemma EndsInTime(target: Target, start: nat, times: seq<nat>, ticks: seq<Tick>, g: nat)
    requires ArmedTicks(ticks) == 0 && Paced(start, times, ticks, g) && g < 0x4000_0000
    requires End(start, times) > start + 1320 * (1000 + g)
    ensures Run(Init(target, start % WORD), ticks).phase in {Done, Failed}
  {
    hide Inv, Run, Paced, Add32;
    InitInv(target, start % WORD);
    Scheduler.AddTrue(start, 1000);
    var s := Init(target, start % WORD);
    RunsUntil(s, start + 1000, start, times, ticks, g);
    RunWithin(s, ticks);
    RunningWorks(Run(s, ticks));
  }

  /** `Applied` is shown only after a readback with a valid checksum had the wanted channel, mode,
      frequency and power. */
  lemma AppliedIsConfirmed(target: Target, now: nat, ticks: seq<Tick>)
    ensures var s := Run(Init(target, now), ticks);
      s.target == target && (s.status == Applied || s.phase == Done ==> Confirmed(s))
  {
    InitInv(target, now);
    RunWithin(Init(target, now), ticks);
    hide Run, Confirmed, Work, Remaining;
  }

  /** An armed update puts nothing on the wire and sends no command. */
  lemma SilentWhenArmed(s: State, t: Tick)
    requires t.armed
    ensures Emitted(s, t) == [] && Update(s, t).commands == s.commands && Update(s, t).phase != Transmitting
  {
    if Running(s) { assert Update(s, t).phase == StartDelay; }
  }
}
