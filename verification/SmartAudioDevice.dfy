/**
 What the SmartAudio driver (src/drivers/vtx/vtx_smartaudio.c) puts on the wire, and that a device
 which does what it is told ends up configured.
 */
module SmartAudioDevice {
  import opened Bytes
  import opened SmartAudio
  import Crc8

  // ------------------------------------------------- the commands on the wire

  /** The query, and the commands that set the channel and the power. */
  lemma CommandBytes(value: byte)
    ensures Frame(1, []) == [0, 0xAA, 0x55, 3, 0, Crc8.Crc([0xAA, 0x55, 3, 0])]
    ensures Frame(3, [value]) == [0, 0xAA, 0x55, 7, 1, value, Crc8.Crc([0xAA, 0x55, 7, 1, value])]
    ensures Frame(2, [value]) == [0, 0xAA, 0x55, 5, 1, value, Crc8.Crc([0xAA, 0x55, 5, 1, value])]
  {
    hide Crc8.Crc;
    assert [0xAA as byte, 0x55, 3, 0] + [] == [0xAA, 0x55, 3, 0];
    assert [0xAA as byte, 0x55, 7, 1] + [value] == [0xAA, 0x55, 7, 1, value];
    assert [0xAA as byte, 0x55, 5, 1] + [value] == [0xAA, 0x55, 5, 1, value];
  }

  /** The levels of 25, 200, 500 and 800 mW: DAC values for a version 1 device, indices for a version 2. */
  lemma PowerTable()
    ensures LegacyPower(25, 1) == 7 && LegacyPower(200, 1) == 16 && LegacyPower(500, 1) == 25 && LegacyPower(800, 1) == 40
    ensures LegacyPower(25, 9) == 0 && LegacyPower(200, 9) == 1 && LegacyPower(500, 9) == 2 && LegacyPower(800, 9) == 3
    ensures forall power: nat, version: byte :: power !in {25, 200, 500, 800} ==> LegacyPower(power, version) == -1
  {}

  /** What a report leads to: the wanted channel is set first, then the wanted power, with the top bit for
      a version 2.1 device, and nothing once both are as wanted. */
  lemma ReportAnswered(s: State, r: seq<byte>, t: Tick)
    requires |r| >= 10 && KnownVersion(r[2]) && s.changes < MAX_ATTEMPTS && t.switchOk
    ensures var u, p := Process(s, r, t), PowerOf(s.target, r, |r| - 5);
      && (!OnChannel(s.target, r) ==> u.phase == Transmitting && u.tx == Frame(3, [s.target.channel]))
      && (OnChannel(s.target, r) && p == Unsupported ==> u.phase == Failed && u.status == UnsupportedPower)
      && (OnChannel(s.target, r) && p.Levels? && p.wanted == p.actual ==> u.phase == Done && u.status == Applied)
      && (OnChannel(s.target, r) && p.Levels? && p.wanted != p.actual ==>
            u.phase == Transmitting && u.tx == Frame(2, [if r[2] == 17 then WithTopBit(p.wanted) else p.wanted]))
  {
    hide Frame, PowerOf, OnChannel;
  }

  // ------------------------------------------------- a device

  /** Version, channel, power level, mode flags, and the power levels that a version 2.1 device lists. */
  datatype Device = Device(version: byte, channel: byte, power: byte, mode: byte, levels: seq<byte>) {
    predicate Valid() { KnownVersion(version) && 1 <= |levels| <= 19 }
  }

  /** The settings behind version and length, `frequency` being that of the device's channel. */
  function Settings(d: Device, frequency: nat): seq<byte>
    requires d.Valid() && frequency < 65536
  {
    [d.channel, d.power, d.mode, (frequency / 256) as byte, (frequency % 256) as byte] +
    if d.version == 17 then [d.power, (|d.levels| - 1) as byte] + d.levels else []
  }

  /** A response; its length counts the checksum. */
  function Response(kind: byte, payload: seq<byte>): (r: seq<byte>)
    requires |payload| <= 26
    ensures |r| == |payload| + 5
  {
    var body := [kind, (|payload| + 1) as byte] + payload;
    [0xAA, 0x55] + body + [Crc8.Crc(body)]
  }

  type Plan = f: byte -> nat | forall b :: f(b) < 65536 witness (b: byte) => 0

  /** What the device answers to a command. */
  function Answer(d: Device, plan: Plan, tx: seq<byte>): seq<byte>
    requires d.Valid()
  {
    if |tx| < 6 then [] else if tx[3] == 3 then Response(d.version, Settings(d, plan(d.channel)))
    else Response(tx[3] / 2, [tx[5]])
  }

  /** And what it does: a set channel ends the user frequency mode, a set power of a version 2.1 device has
      the top bit. */
  function Executed(d: Device, tx: seq<byte>): Device {
    if |tx| < 6 then d
    else if tx[3] == 7 then d.(channel := tx[5], mode := 0)
    else if tx[3] == 5 then d.(power := if d.version == 17 then tx[5] % 128 else tx[5])
    else d
  }

  /** The bytes of the run are the answers of the device to the commands of the driver. */
  predicate Genuine(s: State, d: Device, plan: Plan, ticks: seq<Tick>)
    decreases |ticks|
  {
    ticks != [] ==>
      var t := ticks[0];
      d.Valid() && (t.bytes == [] || (s.phase == WaitResponse && t.bytes == Answer(d, plan, s.tx))) &&
      Genuine(Update(s, t), if t.bytes == [] then d else Executed(d, s.tx), plan, ticks[1..])
  }

  function After(s: State, d: Device, ticks: seq<Tick>): Device
    decreases |ticks|
  {
    if ticks == [] then d else After(Update(s, ticks[0]), if ticks[0].bytes == [] then d else Executed(d, s.tx), ticks[1..])
  }

  lemma {:induction false} RunOn(s: State, d: Device, plan: Plan, a: seq<Tick>, b: seq<Tick>)
    ensures Run(s, a + b) == Run(Run(s, a), b) && After(s, d, a + b) == After(Run(s, a), After(s, d, a), b)
    ensures Genuine(s, d, plan, a) && Genuine(Run(s, a), After(s, d, a), plan, b) ==> Genuine(s, d, plan, a + b)
    decreases |a|
  {
    hide Update, Executed, Answer;
    if a == [] {
      assert a + b == b;
    } else {
      assert (a + b)[1..] == a[1..] + b;
      RunOn(Update(s, a[0]), if a[0].bytes == [] then d else Executed(d, s.tx), plan, a[1..], b);
    }
  }

  // ------------------------------------------------- one command and its answer

  function Quiet(now: nat, ready: bool, complete: bool): Tick { Tick(now, false, ready, complete, true, false, []) }

  function Heard(now: nat, r: seq<byte>): Tick { Tick(now, false, false, false, true, false, r) }

  function Sending(now: nat, n: nat): (ticks: seq<Tick>)
    ensures |ticks| == n
  {
    seq(n, _ => Quiet(now, true, false))
  }

  /** A command has just been given. */
  predicate Commanding(s: State, now: nat) {
    && s.phase == Transmitting && s.sent == 0 && s.rx == [] && 6 <= |s.tx| <= 8 && s.deadline == Add32(now, 100)
    && now < WORD && s.command < 128
  }

  lemma NotLate(now: nat)
    requires now < WORD
    ensures !Late(now, Add32(now, 100)) && !Late(now, Add32(now, 300)) && Late(Add32(now, 200), Add32(now, 200))
    ensures Late(Add32(now, 1000), Add32(now, 1000))
  {}

  lemma {:induction false} Sends(s: State, d: Device, plan: Plan, now: nat, n: nat)
    requires s.phase == Transmitting && s.sent + n <= |s.tx| && s.deadline == Add32(now, 100) && now < WORD && d.Valid()
    ensures var u := Run(s, Sending(now, n)); u == s.(sent := s.sent + n)
    ensures After(s, d, Sending(now, n)) == d && Genuine(s, d, plan, Sending(now, n))
    decreases n
  {
    NotLate(now);
    if n > 0 {
      assert Sending(now, n)[1..] == Sending(now, n - 1);
      assert Update(s, Quiet(now, true, false)) == s.(sent := s.sent + 1);
      Sends(s.(sent := s.sent + 1), d, plan, now, n - 1);
    }
  }

  function Waiting(s: State, now: nat): State { s.(sent := |s.tx|, phase := WaitResponse, deadline := Add32(now, 300)) }

  /** What is left of a response once `k` bytes of it have come. */
  lemma {:induction false} Arrives(z: State, r: seq<byte>, k: nat, t: Tick)
    requires z.phase == WaitResponse && 5 <= |r| == r[3] as nat + 4 && r[3] <= 27 && ResponseEnds(r) && k < |r|
    requires r[0] == 0xAA && r[1] == 0x55 && z.rx == r[..k]
    ensures var y := z.(rx := []);
      ReceiveAll(z, r[k..], t) ==
        if z.command == 1 then Process(y, r, t) else if r[2] == z.command then ScheduleQuery(y, t) else y
    decreases |r| - k
  {
    var more := z.rx + [r[k]];
    assert more == r[..k + 1] && r[k..][1..] == r[k + 1..];
    hide Process, Crc8.Crc;
    if k + 1 < |r| {
      NotYet(r, k + 1);
      assert Receive(z, r[k], t) == z.(rx := more);
      Arrives(z.(rx := more), r, k + 1, t);
    } else {
      assert more == r && r[k + 1..] == [];
    }
  }

  lemma NotYet(r: seq<byte>, k: nat)
    requires 5 <= |r| == r[3] as nat + 4 && k < |r|
    ensures 4 <= k ==> !ResponseEnds(r[..k]) && k < r[3] as nat + 4
  {}

  lemma ResponseArrives(kind: byte, payload: seq<byte>)
    requires |payload| <= 26
    ensures var r := Response(kind, payload);
      && |r| == r[3] as nat + 4 && r[3] <= 27 && r[0] == 0xAA && r[1] == 0x55 && r[2] == kind && ResponseEnds(r)
      && (|payload| > 0 ==> r[4..|r| - 1] == payload)
  {
    var body := [kind, (|payload| + 1) as byte] + payload;
    var r := Response(kind, payload);
    assert r[2..|r| - 1] == body;
    assert r[4..|r| - 1] == payload;
    hide Crc8.Crc;
  }

  /** The command goes out, the line turns round, and the device answers. */
  function TurnTicks(s: State, d: Device, plan: Plan, now: nat): seq<Tick>
    requires d.Valid()
  {
    Sending(now, |s.tx|) + ([Quiet(now, false, true)] + [Heard(now, Answer(d, plan, s.tx))])
  }

  lemma AnswerArrives(d: Device, plan: Plan, tx: seq<byte>)
    requires d.Valid() && |tx| >= 6
    ensures var r := Answer(d, plan, tx);
      && 6 <= |r| <= 31 && |r| == r[3] as nat + 4 && r[3] <= 27 && r[0] == 0xAA && r[1] == 0x55 && ResponseEnds(r)
      && r[2] == if tx[3] == 3 then d.version else tx[3] / 2
  {
    ResponseArrives(d.version, Settings(d, plan(d.channel)));
    ResponseArrives(tx[3] / 2, [tx[5]]);
    hide ResponseEnds, Response;
  }

  lemma Waits(s: State, now: nat)
    requires Commanding(s, now)
    ensures Update(s.(sent := |s.tx|), Quiet(now, false, true)) == Waiting(s, now)
  {}

  lemma Hears(s: State, r: seq<byte>, now: nat)
    requires Commanding(s, now) && |r| <= 31 && 5 <= |r| == r[3] as nat + 4 && r[3] <= 27 && ResponseEnds(r)
    requires r[0] == 0xAA && r[1] == 0x55
    ensures var z, t := Waiting(s, now), Heard(now, r);
      Update(z, t) == if z.command == 1 then Settled(Process(z, r, t), t) else if r[2] == z.command then ScheduleQuery(z, t) else z
  {
    NotLate(now);
    var z, t := Waiting(s, now), Heard(now, r);
    assert r[..|r|] == r && r[0..] == r && z.(rx := []) == z && r[..0] == [];
    Arrives(z, r, 0, t);
    hide ReceiveAll, Process, ResponseEnds, Late;
  }

  /** After a report that the driver does not understand it goes on waiting. */
  function Settled(u: State, t: Tick): State { if u.phase == WaitResponse && Late(t.now, u.deadline) then Timeout(u, t) else u }

  lemma TurnRuns(s: State, d: Device, plan: Plan, now: nat)
    requires Commanding(s, now) && d.Valid()
    ensures var r := Answer(d, plan, s.tx); var z, t := Waiting(s, now), Heard(now, r);
      && Run(s, TurnTicks(s, d, plan, now)) == Update(z, t) && After(s, d, TurnTicks(s, d, plan, now)) == Executed(d, s.tx)
      && Genuine(s, d, plan, TurnTicks(s, d, plan, now))
  {
    var n, r := |s.tx|, Answer(d, plan, s.tx);
    AnswerArrives(d, plan, s.tx);
    Sends(s, d, plan, now, n);
    Waits(s, now);
    var full, z := s.(sent := n), Waiting(s, now);
    hide Update, Answer, Executed, Commanding;
    OneTick(full, d, plan, Quiet(now, false, true));
    OneTick(z, d, plan, Heard(now, r));
    RunOn(full, d, plan, [Quiet(now, false, true)], [Heard(now, r)]);
    RunOn(s, d, plan, Sending(now, n), [Quiet(now, false, true)] + [Heard(now, r)]);
  }

  lemma OneTick(s: State, d: Device, plan: Plan, t: Tick)
    requires d.Valid() && (t.bytes == [] || (s.phase == WaitResponse && t.bytes == Answer(d, plan, s.tx)))
    ensures Run(s, [t]) == Update(s, t) && After(s, d, [t]) == (if t.bytes == [] then d else Executed(d, s.tx))
    ensures Genuine(s, d, plan, [t])
  {
    hide Update, Answer, Executed;
  }

  // ------------------------------------------------- from any device to the wanted settings

  /** The query has just been given. */
  predicate Asking(s: State, target: Target, now: nat, changes: nat) {
    Commanding(s, now) && s.tx == Frame(1, []) && s.command == 1 && s.target == target && s.changes == changes
  }

  /** The power level that the device would have to report, if it has it. */
  function Level(target: Target, d: Device): int {
    if d.version != 17 then LegacyPower(target.power, d.version)
    else if target.dbm in d.levels then target.dbm as int else -1
  }

  predicate Tuned(target: Target, d: Device, plan: Plan) {
    d.channel == target.channel && d.mode % 2 == 0 && plan(d.channel) == target.frequency
  }

  lemma ReportSays(target: Target, d: Device, plan: Plan)
    requires d.Valid()
    ensures var r := Answer(d, plan, Frame(1, []));
      && 10 <= |r| <= 31 && r[2] == d.version && KnownVersion(r[2]) && (OnChannel(target, r) <==> Tuned(target, d, plan))
      && PowerOf(target, r, |r| - 5) == if Level(target, d) < 0 then Unsupported else Levels(Level(target, d) as byte, d.power)
  {
    var r, c := Answer(d, plan, Frame(1, [])), Settings(d, plan(d.channel));
    CommandBytes(0);
    ResponseArrives(d.version, c);
    assert r == Response(d.version, c);
    assert forall i :: 0 <= i < |c| ==> r[4 + i] == c[i] by { assert r[4..|r| - 1] == c; }
    hide Response, Crc8.Crc, Frame, Answer;
    var f := plan(d.channel);
    assert f / 256 * 256 + f % 256 == f;
    if d.version == 17 { LevelsListed(target, d, plan, r); }
  }

  lemma LevelsListed(target: Target, d: Device, plan: Plan, r: seq<byte>)
    requires d.Valid() && d.version == 17 && |r| == 12 + |d.levels| && r[2] == 17
    requires var c := Settings(d, plan(d.channel)); forall i :: 0 <= i < |c| ==> r[4 + i] == c[i]
    ensures r[9] == d.power && PowersListed(r, |r| - 5) && (PowerOffered(target, r, |r| - 5) <==> target.dbm in d.levels)
  {
    var c := Settings(d, plan(d.channel));
    assert r[4 + 5] == c[5] == d.power && r[4 + 6] == c[6] && c[6] as nat == |d.levels| - 1;
    assert forall i :: 0 <= i < |d.levels| ==> r[11 + i] == d.levels[i] by {
      assert forall i :: 0 <= i < |d.levels| ==> c[7 + i] == d.levels[i];
    }
    if target.dbm in d.levels {
      var i :| 0 <= i < |d.levels| && d.levels[i] == target.dbm;
      assert r[11 + i] == target.dbm;
    }
    if i :| 11 <= i < 11 + |d.levels| && r[i] == target.dbm { assert d.levels[i - 11] == target.dbm; }
  }

  /** A set command is answered, and the settings are asked for again. */
  lemma CommandServed(s: State, d: Device, plan: Plan, now: nat, value: byte) returns (ticks: seq<Tick>)
    requires Commanding(s, now) && d.Valid() && (s.command == 2 || s.command == 3) && s.tx == Frame(s.command, [value])
    ensures Asking(Run(s, ticks), s.target, Add32(now, 200), s.changes) && After(s, d, ticks) == Executed(d, s.tx)
    ensures Genuine(s, d, plan, ticks) && Executed(d, s.tx).Valid()
  {
    hide Update, Run, Answer, After, Genuine, TurnTicks, Crc8.Crc, Frame, Executed, Commanding, Asking;
    TurnRuns(s, d, plan, now);
    Acknowledged(s, d, plan, now, value);
    var turn, ask := TurnTicks(s, d, plan, now), Quiet(Add32(now, 200), false, false);
    var u := Run(s, turn);
    OneTick(u, Executed(d, s.tx), plan, ask);
    RunOn(s, d, plan, turn, [ask]);
    ticks := turn + [ask];
  }

  lemma Acknowledged(s: State, d: Device, plan: Plan, now: nat, value: byte)
    requires Commanding(s, now) && d.Valid() && (s.command == 2 || s.command == 3) && s.tx == Frame(s.command, [value])
    ensures var u := Update(Waiting(s, now), Heard(now, Answer(d, plan, s.tx)));
      Asking(Update(u, Quiet(Add32(now, 200), false, false)), s.target, Add32(now, 200), s.changes)
    ensures Executed(d, s.tx).Valid()
  {
    hide Answer, Crc8.Crc, Frame, Update, Late, ResponseEnds, Commanding, Asking, Process, Executed;
    CommandBytes(value);
    AnswerArrives(d, plan, s.tx);
    Hears(s, Answer(d, plan, s.tx), now);
    ExecutedValid(d, s.tx);
    CommandingFacts(s, now);
    AsksAgain(ScheduleQuery(Waiting(s, now), Heard(now, Answer(d, plan, s.tx))), now);
  }

  lemma ExecutedValid(d: Device, tx: seq<byte>)
    requires d.Valid()
    ensures Executed(d, tx).Valid()
  {}

  lemma CommandingFacts(s: State, now: nat)
    requires Commanding(s, now)
    ensures now < WORD && s.rx == []
  {}

  lemma AsksAgain(u: State, now: nat)
    requires u.phase == QueryDelay && u.deadline == Add32(now, 200) && now < WORD
    ensures Asking(Update(u, Quiet(Add32(now, 200), false, false)), u.target, Add32(now, 200), u.changes)
  {
    var ask := Quiet(Add32(now, 200), false, false);
    NotLate(now);
    assert Update(u, ask) == Query(u, ask);
    CommandBytes(0);
    hide Crc8.Crc, Late;
  }

  /** A report is asked for, and judged. */
  lemma ReportServed(s: State, target: Target, d: Device, plan: Plan, now: nat, changes: nat)
    requires Asking(s, target, now, changes) && d.Valid() && changes < MAX_ATTEMPTS && Level(target, d) >= 0
    ensures var ticks := TurnTicks(s, d, plan, now); var u, v := Run(s, ticks), Level(target, d) as byte;
      && Genuine(s, d, plan, ticks) && After(s, d, ticks) == d && u.target == target
      && (if !Tuned(target, d, plan) then
            Commanding(u, now) && u.command == 3 && u.tx == Frame(3, [target.channel]) && u.changes == changes + 1
          else if d.power != v then
            && Commanding(u, now) && u.command == 2 && u.changes == changes + 1
            && u.tx == Frame(2, [if d.version == 17 then WithTopBit(v) else v])
          else u.phase == Done && u.status == Applied)
  {
    var r := Answer(d, plan, s.tx);
    CommandBytes(0);
    TurnRuns(s, d, plan, now);
    AnswerArrives(d, plan, s.tx);
    Hears(s, r, now);
    ReportSays(target, d, plan);
    hide Run, Answer, After, Genuine, TurnTicks, Crc8.Crc, OnChannel, PowerOf, Tuned, Level, ResponseEnds, Update, Late;
    ReportAnswered(Waiting(s, now), r, Heard(now, r));
    Judged(Waiting(s, now), r, now);
  }

  lemma Judged(z: State, r: seq<byte>, now: nat)
    requires |r| >= 10 && KnownVersion(r[2]) && z.changes < MAX_ATTEMPTS && z.rx == [] && now < WORD
    ensures var u := Process(z, r, Heard(now, r));
      u.target == z.target && (u.phase == Transmitting ==>
        Commanding(u, now) && u.changes == z.changes + 1 && u.command == if OnChannel(z.target, r) then 2 else 3)
  {
    hide Crc8.Crc, PowerOf, OnChannel;
  }

  /** The device has the wanted channel, and is asked again. */
  lemma TunedServed(s: State, target: Target, d: Device, plan: Plan, now: nat, changes: nat) returns (ticks: seq<Tick>)
    requires Asking(s, target, now, changes) && d.Valid() && changes <= 1 && Level(target, d) >= 0 && Tuned(target, d, plan)
    requires d.version == 17 ==> target.dbm < 128
    ensures Genuine(s, d, plan, ticks) && Configured(Run(s, ticks), target, After(s, d, ticks), plan)
  {
    hide Run, Answer, After, Genuine, TurnTicks, Crc8.Crc, Frame, Update, Asking, Commanding;
    ReportServed(s, target, d, plan, now, changes);
    var first := TurnTicks(s, d, plan, now);
    var u, v := Run(s, first), Level(target, d) as byte;
    if d.power == v {
      ticks := first;
    } else {
      var value := if d.version == 17 then WithTopBit(v) else v;
      var second := CommandServed(u, d, plan, now, value);
      PowerSet(target, d, plan, value);
      var e, w := Executed(d, u.tx), Run(u, second);
      RunOn(s, d, plan, first, second);
      ReportServed(w, target, e, plan, Add32(now, 200), changes + 1);
      var third := TurnTicks(w, e, plan, Add32(now, 200));
      RunOn(s, d, plan, first + second, third);
      ticks := first + second + third;
    }
  }

  /** The driver reports success, and the device is as wanted. */
  predicate Configured(s: State, target: Target, d: Device, plan: Plan) {
    s.phase == Done && s.status == Applied && Tuned(target, d, plan) && d.power as int == Level(target, d)
  }

  lemma PowerSet(target: Target, d: Device, plan: Plan, value: byte)
    requires d.Valid() && Level(target, d) >= 0 && Tuned(target, d, plan) && (d.version == 17 ==> target.dbm < 128)
    requires value == var v := Level(target, d) as byte; if d.version == 17 then WithTopBit(v) else v
    ensures var e := Executed(d, Frame(2, [value]));
      e.Valid() && Tuned(target, e, plan) && Level(target, e) == Level(target, d) == e.power as int && e.version == d.version
  {
    CommandBytes(value);
    hide Frame, LegacyPower, Crc8.Crc;
  }

  lemma ChannelSet(target: Target, d: Device, plan: Plan)
    requires d.Valid() && plan(target.channel) == target.frequency
    ensures var e := Executed(d, Frame(3, [target.channel]));
      e.Valid() && Tuned(target, e, plan) && Level(target, e) == Level(target, d) && e.version == d.version
  {
    CommandBytes(target.channel);
    hide Frame, LegacyPower, Crc8.Crc;
  }

  /** From start-up, with a device of any version, on any channel and at any power, that has the wanted level and
      does what it is told: some run in which it hears every command and answers it ends with the wanted
      channel, frequency and power, and APPLIED. */
  lemma DeviceIsConfigured(target: Target, now: nat, d: Device, plan: Plan) returns (ticks: seq<Tick>)
    requires now < WORD && d.Valid() && Level(target, d) >= 0 && (d.version == 17 ==> target.dbm < 128)
    requires plan(target.channel) == target.frequency
    ensures var s := Init(target, now);
      Genuine(s, d, plan, ticks) && Configured(Run(s, ticks), target, After(s, d, ticks), plan)
  {
    var s, later := Init(target, now), Add32(now, 1000);
    var ask := Quiet(later, false, false);
    NotLate(now);
    FirstQuery(target, now);
    hide Run, Answer, After, Genuine, TurnTicks, Crc8.Crc, Frame, Update, Asking, Commanding, Late, Tuned, Level, Executed, Init, Configured;
    OneTick(s, d, plan, ask);
    var a := Run(s, [ask]);
    var rest: seq<Tick>;
    if Tuned(target, d, plan) {
      rest := TunedServed(a, target, d, plan, later, 0);
    } else {
      ReportServed(a, target, d, plan, later, 0);
      var first := TurnTicks(a, d, plan, later);
      var u := Run(a, first);
      var second := CommandServed(u, d, plan, later, target.channel);
      ChannelSet(target, d, plan);
      var e, w := Executed(d, u.tx), Run(u, second);
      RunOn(a, d, plan, first, second);
      var third := TunedServed(w, target, e, plan, Add32(later, 200), 1);
      RunOn(a, d, plan, first + second, third);
      rest := first + second + third;
    }
    RunOn(s, d, plan, [ask], rest);
    ticks := [ask] + rest;
  }

  lemma FirstQuery(target: Target, now: nat)
    requires now < WORD
    ensures var s, later := Init(target, now), Add32(now, 1000);
      Asking(Run(s, [Quiet(later, false, false)]), target, later, 0)
  {
    var s, ask := Init(target, now), Quiet(Add32(now, 1000), false, false);
    NotLate(now);
    assert Update(s, ask) == Query(s, ask);
    CommandBytes(0);
    hide Crc8.Crc, Late;
  }
}
