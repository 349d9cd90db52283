/**
 What the receiver driver (src/drivers/receiver/sbus.c) makes of the frames: the channels, the
 failsafe that has to last 100 ms, the age of the last frame and the verdict on the link.
 */
module SbusLink {
  import opened Bytes
  import opened Sbus
  import Channels

  const SIGNAL_TIMEOUT := 100000
  const FAILSAFE_CONFIRM := 100000
  const CHANNELS := 16
  const INVERTER_PROBE := 400000
  const RECOVERY_RETRY := 100000

  /** What sbus_get hands out, and the state of the failsafe. */
  datatype Data = Data(channels: seq<nat>, frames: nat, invalid: nat, last: nat,
                       failsafe: bool, doubted: bool, doubtedAt: nat, locked: bool)

  const START := Data(seq(CHANNELS, _ => 0), 0, 0, 0, false, false, 0, false)

  /** A complete frame, or a stretch that the framer rejects, at a true time in microseconds. */
  datatype Sign = Heard(frame: seq<byte>, at: nat) | Garbled(at: nat)

  // ------------------------------------------------- one frame

  function Spoilt(d: Data): Data { d.(invalid := Add32(d.invalid, 1)) }

  /** The counter of invalid frames starts with the first valid one. */
  function Counted(d: Data, now: nat): Data {
    d.(last := now, locked := true, frames := Add32(d.frames, 1), invalid := if d.frames == 0 then 0 else d.invalid)
  }

  /** decode */
  function SbusDecoded(d: Data, f: seq<byte>, now: nat): Data
    requires |f| == FRAME
  {
    if Bit3(f[23]) then
      var since := if d.doubted then d.doubtedAt else now;
      Counted(d, now).(doubted := true, doubtedAt := since, failsafe := Sub32(now, since) >= FAILSAFE_CONFIRM)
    else Counted(d, now).(doubted := false, failsafe := false, channels := Decoded(SbusProtocol, f, d.channels))
  }

  /** decode_crsf */
  function CrsfDecoded(d: Data, f: seq<byte>, now: nat): Data {
    if !Checked(f) || (f[2] == 0x16 && f[1] != 24) then Spoilt(d)
    else if f[2] != 0x16 then d
    else Counted(d, now).(failsafe := false, channels := Decoded(CrsfProtocol, f, d.channels))
  }

  function Noted(p: Protocol, d: Data, x: Sign): Data {
    match x
    case Garbled(_) => Spoilt(d)
    case Heard(f, at) =>
      if p == CrsfProtocol then CrsfDecoded(d, f, at % WORD)
      else if |f| == FRAME then SbusDecoded(d, f, at % WORD)
      else d
  }

  function AllNoted(p: Protocol, d: Data, signs: seq<Sign>): Data {
    if signs == [] then d else Noted(p, AllNoted(p, d, signs[..|signs| - 1]), signs[|signs| - 1])
  }

  // ------------------------------------------------- the link

  /** SBUS_LOSS_NONE, SBUS_LOSS_FAILSAFE, SBUS_LOSS_TIMEOUT */
  datatype Loss = NoLoss | Failsafe | TimedOut

  function AgeOf(d: Data, now: nat): nat { if d.last == 0 then WORD - 1 else Sub32(now, d.last) }

  function LossOf(d: Data, now: nat): Loss {
    if d.failsafe then Failsafe
    else if d.last == 0 || AgeOf(d, now) >= SIGNAL_TIMEOUT then TimedOut
    else NoLoss
  }

  /** A frame that shows that the transmitter is there. */
  predicate Alive(p: Protocol, x: Sign) {
    x.Heard? && (if p == SbusProtocol then |x.frame| == FRAME else Carries(p, x.frame))
  }

  /** An SBUS frame with its failsafe bit. */
  predicate Flagged(x: Sign) { x.Heard? && |x.frame| == FRAME && Bit3(x.frame[23]) }

  /** An SBUS frame without it. */
  predicate Clears(x: Sign) { x.Heard? && |x.frame| == FRAME && !Bit3(x.frame[23]) }

  /** Sign `k` is the last sign of the transmitter. */
  ghost predicate LastAlive(p: Protocol, signs: seq<Sign>, k: nat) {
    k < |signs| && Alive(p, signs[k]) && forall i :: k < i < |signs| ==> !Alive(p, signs[i])
  }

  ghost predicate NeverAlive(p: Protocol, signs: seq<Sign>) {
    forall i :: 0 <= i < |signs| ==> !Alive(p, signs[i])
  }

  /** Before sign `j`, every flagged frame has been followed by one without the flag. */
  ghost predicate Calm(signs: seq<Sign>, j: nat) {
    forall i :: 0 <= i < j <= |signs| && Flagged(signs[i]) ==> exists m :: i < m < j && Clears(signs[m])
  }

  /** The flagged frames that are still in force began with sign `j`. */
  ghost predicate FlaggedSince(signs: seq<Sign>, j: nat) {
    && j < |signs| && Flagged(signs[j]) && Calm(signs, j)
    && forall i :: j < i < |signs| ==> !Clears(signs[i])
  }

  lemma {:induction false} LastFrame(p: Protocol, signs: seq<Sign>, k: nat)
    requires LastAlive(p, signs, k)
    ensures AllNoted(p, START, signs).last == signs[k].at % WORD
  {
    hide Decoded, Checked, Add32, Sub32;
    var n := |signs| - 1;
    if k < n { LastFrame(p, signs[..n], k); }
  }

  lemma {:induction false} NoFrame(p: Protocol, signs: seq<Sign>)
    requires NeverAlive(p, signs)
    ensures AllNoted(p, START, signs).last == 0 && !AllNoted(p, START, signs).failsafe
  {
    hide Decoded, Checked, Add32, Sub32;
    if signs != [] { NoFrame(p, signs[..|signs| - 1]); }
  }

  /** What the last sign does to the failsafe. */
  lemma LastDoubt(signs: seq<Sign>)
    requires signs != []
    ensures var d, u, x := AllNoted(SbusProtocol, START, signs[..|signs| - 1]), AllNoted(SbusProtocol, START, signs), signs[|signs| - 1];
      if Clears(x) then !u.doubted && !u.failsafe
      else Flagged(x) || (u.doubted == d.doubted && u.failsafe == d.failsafe)
  {
    hide Decoded, Checked, Add32, Sub32;
  }

  lemma CalmBefore(signs: seq<Sign>)
    requires signs != [] && Calm(signs, |signs|)
    ensures !Flagged(signs[|signs| - 1])
    ensures !Clears(signs[|signs| - 1]) ==> Calm(signs[..|signs| - 1], |signs| - 1)
  {
    var n := |signs| - 1;
    forall i | 0 <= i < n && Flagged(signs[i]) && !Clears(signs[n])
      ensures exists m :: i < m < n && Clears(signs[..n][m])
    {
      var m :| i < m < |signs| && Clears(signs[m]);
      assert m < n && Clears(signs[..n][m]);
    }
    hide Clears, Flagged;
  }

  lemma {:induction false} CalmIsUndoubted(signs: seq<Sign>)
    requires Calm(signs, |signs|)
    ensures !AllNoted(SbusProtocol, START, signs).doubted && !AllNoted(SbusProtocol, START, signs).failsafe
  {
    if signs != [] {
      hide AllNoted, Calm, Clears, Flagged;
      LastDoubt(signs);
      CalmBefore(signs);
      if !Clears(signs[|signs| - 1]) { CalmIsUndoubted(signs[..|signs| - 1]); }
    }
  }

  lemma FlaggedEarlier(signs: seq<Sign>, j: nat)
    requires FlaggedSince(signs, j) && j < |signs| - 1
    ensures FlaggedSince(signs[..|signs| - 1], j)
  {
    var n := |signs| - 1;
    forall i | 0 <= i < j && Flagged(signs[..n][i])
      ensures exists m :: i < m < j && Clears(signs[..n][m])
    {
      var m :| i < m < j && Clears(signs[m]);
      assert Clears(signs[..n][m]);
    }
  }

  lemma CalmFront(signs: seq<Sign>, j: nat)
    requires Calm(signs, j) && j <= |signs|
    ensures Calm(signs[..j], j)
  {
    forall i | 0 <= i < j && Flagged(signs[..j][i])
      ensures exists m :: i < m < j && Clears(signs[..j][m])
    {
      var m :| i < m < j && Clears(signs[m]);
      assert Clears(signs[..j][m]);
    }
  }

  lemma {:induction false} DoubtedSince(signs: seq<Sign>, j: nat)
    requires FlaggedSince(signs, j)
    ensures AllNoted(SbusProtocol, START, signs).doubted
    ensures AllNoted(SbusProtocol, START, signs).doubtedAt == signs[j].at % WORD
  {
    hide Decoded, Checked, Add32, Sub32;
    var n := |signs| - 1;
    if j < n {
      FlaggedEarlier(signs, j);
      DoubtedSince(signs[..n], j);
    } else {
      CalmFront(signs, j);
      CalmIsUndoubted(signs[..n]);
    }
  }

  lemma SubIs(a: nat, b: nat)
    ensures Sub32(a % WORD, b % WORD) == (a - b) % WORD
  {}

  /** The failsafe holds if and only if flags have come for 100 ms without a frame that clears them,
      modulo the 32-bit clock. */
  lemma {:induction false} FailsafeConfirmed(signs: seq<Sign>, j: nat, k: nat)
    requires FlaggedSince(signs, j) && LastAlive(SbusProtocol, signs, k)
    ensures j <= k
    ensures AllNoted(SbusProtocol, START, signs).failsafe <==> (signs[k].at - signs[j].at) % WORD >= 100_000
  {
    hide Decoded, Checked, Add32, Sub32;
    assert Alive(SbusProtocol, signs[j]);
    var n := |signs| - 1;
    if k < n {
      FlaggedEarlier(signs, j);
      FailsafeConfirmed(signs[..n], j, k);
    } else {
      SubIs(signs[k].at, signs[j].at);
      if j < n {
        FlaggedEarlier(signs, j);
        DoubtedSince(signs[..n], j);
      } else {
        CalmFront(signs, j);
        CalmIsUndoubted(signs[..n]);
      }
    }
  }

  /** CRSF has no failsafe flag: only silence ends its link. */
  lemma {:induction false} NeverFailsafe(signs: seq<Sign>)
    ensures !AllNoted(CrsfProtocol, START, signs).failsafe
  {
    hide Decoded, Checked, Add32, Sub32;
    if signs != [] { NeverFailsafe(signs[..|signs| - 1]); }
  }

  lemma {:induction false} CalmOrFlagged(signs: seq<Sign>)
    ensures Calm(signs, |signs|) || exists j: nat :: FlaggedSince(signs, j)
  {
    if signs == [] { return; }
    var n := |signs| - 1;
    var front := signs[..n];
    if Clears(signs[n]) { return; }
    CalmOrFlagged(front);
    if j: nat :| FlaggedSince(front, j) {
      CalmLater(signs, j);
      assert FlaggedSince(signs, j);
    } else {
      CalmLater(signs, n);
      if Flagged(signs[n]) { assert FlaggedSince(signs, n); }
    }
  }

  lemma CalmLater(signs: seq<Sign>, j: nat)
    requires j < |signs| && Calm(signs[..|signs| - 1], j)
    ensures Calm(signs, j) && (!Flagged(signs[j]) ==> Calm(signs, j + 1))
  {
    var front := signs[..|signs| - 1];
    forall i | 0 <= i < j && Flagged(signs[i])
      ensures exists m :: i < m < j && Clears(signs[m])
    {
      assert Flagged(front[i]);
      var m :| i < m < j && Clears(front[m]);
      assert Clears(signs[m]);
    }
  }

  ghost predicate Confirmed(signs: seq<Sign>, k: nat)
    requires k < |signs|
  {
    exists j: nat :: FlaggedSince(signs, j) && (signs[k].at - signs[j].at) % WORD >= 100_000
  }

  lemma FailsafeExactly(signs: seq<Sign>, k: nat)
    requires LastAlive(SbusProtocol, signs, k)
    ensures AllNoted(SbusProtocol, START, signs).failsafe <==> Confirmed(signs, k)
  {
    hide AllNoted;
    CalmOrFlagged(signs);
    if j: nat :| FlaggedSince(signs, j) {
      FailsafeConfirmed(signs, j, k);
    } else {
      CalmIsUndoubted(signs);
    }
    forall j: nat | FlaggedSince(signs, j)
      ensures AllNoted(SbusProtocol, START, signs).failsafe <==> (signs[k].at - signs[j].at) % WORD >= 100_000
    {
      FailsafeConfirmed(signs, j, k);
    }
  }

  /** The verdict on the link after any signs, with `k` the last frame of the transmitter. */
  lemma LinkVerdict(p: Protocol, signs: seq<Sign>, k: nat, now: nat)
    requires LastAlive(p, signs, k)
    ensures LossOf(AllNoted(p, START, signs), now % WORD) ==
            if p == SbusProtocol && Confirmed(signs, k) then Failsafe
            else if signs[k].at % WORD == 0 || (now - signs[k].at) % WORD >= 100_000 then TimedOut
            else NoLoss
  {
    hide AllNoted, Confirmed;
    LastFrame(p, signs, k);
    if p == SbusProtocol { FailsafeExactly(signs, k); } else { NeverFailsafe(signs); }
    SubIs(now, signs[k].at);
  }

  /** Without a frame there is no link. */
  lemma NoLink(p: Protocol, signs: seq<Sign>, now: nat)
    requires NeverAlive(p, signs)
    ensures LossOf(AllNoted(p, START, signs), now % WORD) == TimedOut
  {
    NoFrame(p, signs);
  }

  /** A link that is up has heard a frame within the last 100 ms exactly when the silence has been
      shorter than a wrap of the 32-bit clock: after a whole wrap it is up again for 100 ms. */
  lemma UpIsFresh(p: Protocol, signs: seq<Sign>, k: nat, now: nat)
    requires LastAlive(p, signs, k) && signs[k].at <= now && LossOf(AllNoted(p, START, signs), now % WORD) == NoLoss
    ensures now - signs[k].at < 100_000 <==> now - signs[k].at < WORD
  {
    hide AllNoted, LossOf, Confirmed;
    LinkVerdict(p, signs, k, now);
    Silence(now - signs[k].at);
  }

  lemma Silence(d: nat)
    requires d % WORD < 100_000
    ensures d < 100_000 <==> d < WORD
  {}

  /** The channels are those of the last frame that carries some, whatever came after it. */
  lemma {:induction false} ChannelsHeld(p: Protocol, signs: seq<Sign>, k: nat)
    requires k < |signs| && signs[k].Heard? && Carries(p, signs[k].frame)
    requires forall i :: k < i < |signs| && signs[i].Heard? ==> !Carries(p, signs[i].frame)
    ensures AllNoted(p, START, signs).channels == Scaled(p, Channels.Unpacked(PayloadOf(p, signs[k].frame)))
  {
    hide Checked, Add32, Sub32, Scaled, Channels.Unpacked, PayloadOf;
    var n := |signs| - 1;
    if k < n { ChannelsHeld(p, signs[..n], k); }
  }

  // ------------------------------------------------- from bytes to signs

  function SignsOf(f: Found, at: nat): seq<Sign> {
    if f.frames != [] then [Heard(f.frames[0], at)] else if f.invalid > 0 then [Garbled(at)] else []
  }

  /** What the framer reports of bytes that are handled at the given times. */
  function Reported(p: Protocol, pending: seq<byte>, bytes: seq<byte>, times: seq<nat>): seq<Sign>
    requires |bytes| == |times|
    decreases |bytes|
  {
    if bytes == [] then []
    else
      var n := |bytes| - 1;
      Reported(p, pending, bytes[..n], times[..n]) +
      SignsOf(Push(p, Fed(p, pending, bytes[..n]).rest, bytes[n]), times[n])
  }

  function Frames(signs: seq<Sign>): seq<seq<byte>> {
    if signs == [] then []
    else
      var x := signs[|signs| - 1];
      Frames(signs[..|signs| - 1]) + if x.Heard? then [x.frame] else []
  }

  function Garbles(signs: seq<Sign>): nat {
    if signs == [] then 0
    else Garbles(signs[..|signs| - 1]) + if signs[|signs| - 1].Garbled? then 1 else 0
  }

  lemma {:induction false} FedStep(p: Protocol, pending: seq<byte>, bytes: seq<byte>, b: byte)
    ensures Fed(p, pending, bytes + [b]) == Joined(Fed(p, pending, bytes), Push(p, Fed(p, pending, bytes).rest, b))
    decreases |bytes|
  {
    hide Push;
    if bytes == [] {
      assert [] + [b] == [b] && [b][1..] == [];
    } else {
      var f := Push(p, pending, bytes[0]);
      FedStep(p, f.rest, bytes[1..], b);
      assert (bytes + [b])[1..] == bytes[1..] + [b];
    }
  }

  lemma PushOnce(p: Protocol, pending: seq<byte>, b: byte)
    ensures var f := Push(p, pending, b); |f.frames| + f.invalid <= 1
  {
    hide Resync, Starts, Ends, LengthOk;
  }

  lemma SignsAdd(signs: seq<Sign>, f: Found, at: nat)
    requires |f.frames| + f.invalid <= 1
    ensures Frames(signs + SignsOf(f, at)) == Frames(signs) + f.frames
    ensures Garbles(signs + SignsOf(f, at)) == Garbles(signs) + f.invalid
  {
    var more := signs + SignsOf(f, at);
    if |more| > |signs| {
      assert more[..|more| - 1] == signs;
    } else {
      assert more == signs;
    }
    if f.frames != [] { assert f.frames == [f.frames[0]]; }
  }

  lemma NoSigns()
    ensures Frames([]) == [] && Garbles([]) == 0
  {}

  lemma {:induction false} ReportedIsFed(p: Protocol, pending: seq<byte>, bytes: seq<byte>, times: seq<nat>)
    requires |bytes| == |times|
    ensures Frames(Reported(p, pending, bytes, times)) == Fed(p, pending, bytes).frames
    ensures Garbles(Reported(p, pending, bytes, times)) == Fed(p, pending, bytes).invalid
    decreases |bytes|
  {
    hide Push, Frames, Garbles, SignsOf;
    if bytes == [] {
      NoSigns();
    } else {
      var n := |bytes| - 1;
      var front := bytes[..n];
      assert bytes == front + [bytes[n]];
      ReportedIsFed(p, pending, front, times[..n]);
      FedStep(p, pending, front, bytes[n]);
      PushOnce(p, Fed(p, pending, front).rest, bytes[n]);
      SignsAdd(Reported(p, pending, front, times[..n]), Push(p, Fed(p, pending, front).rest, bytes[n]), times[n]);
    }
  }

  /** What is reported, however the stream is cut, are the frames and the rejections of the scan. */
  lemma ReportedIsScanned(p: Protocol, before: seq<byte>, bytes: seq<byte>, times: seq<nat>)
    requires |bytes| == |times|
    ensures var signs := Reported(p, Scan(p, before).rest, bytes, times);
      && Scan(p, before + bytes).frames == Scan(p, before).frames + Frames(signs)
      && Scan(p, before + bytes).invalid == Scan(p, before).invalid + Garbles(signs)
  {
    hide Scan, Fed, Frames, Garbles, Reported;
    FedIsScan(p, before, bytes);
    ReportedIsFed(p, Scan(p, before).rest, bytes, times);
  }

  class Receiver {
    const frame: array<byte>
    var frameIndex: nat
    var protocol: Protocol
    var channels: seq<nat>
    var validFrames: nat
    var invalidFrames: nat
    var lastFrame: nat
    var failsafe: bool
    var failsafePending: bool
    var failsafeStarted: nat
    var inverterLocked: bool
    var frameAge: nat
    var loss: Loss
    const invertible: bool       // the board can invert the receiver's signal
    var dropPending: bool        // an error or an overrun wants the pending bytes dropped
    var lastProbe: nat
    var lastRecovery: nat

    function Value(): Data
      reads this
    {
      Data(channels, validFrames, invalidFrames, lastFrame, failsafe, failsafePending, failsafeStarted, inverterLocked)
    }

    ghost predicate Valid()
      reads this, frame
    {
      frame.Length == BUFFER && frameIndex < BUFFER && Pending(protocol, frame[..frameIndex])
    }

    /** sbus_init for a protocol */
    constructor (p: Protocol, invertible: bool, now: nat)
      ensures Valid() && frameIndex == 0 && protocol == p && fresh(frame) && Value() == START
      ensures this.invertible == invertible && !dropPending && lastProbe == now % WORD && lastRecovery == 0
    {
      frame := new byte[BUFFER](_ => 0);
      frameIndex, protocol := 0, p;
      channels, validFrames, invalidFrames, lastFrame := seq(CHANNELS, _ => 0), 0, 0, 0;
      failsafe, failsafePending, failsafeStarted, inverterLocked, frameAge, loss := false, false, 0, false, 0, NoLoss;
      this.invertible, dropPending, lastProbe, lastRecovery := invertible, false, now % WORD, 0;
    }

    /** resync_frame: the stretch from the next sync byte moves to the front. */
    method ResyncFrame()
      requires frame.Length == BUFFER && frameIndex == FRAME
      modifies `frameIndex, frame
      ensures frameIndex < FRAME && frame[..frameIndex] == Resync(old(frame[1..FRAME])) && protocol == old(protocol)
    {
      hide Resync;
      ghost var was := frame[1..FRAME];
      var offset := 1;
      while offset < FRAME
        invariant 1 <= offset <= FRAME && frameIndex == FRAME && protocol == old(protocol)
        invariant Resync(was) == Resync(was[offset - 1..]) && frame[..] == old(frame[..])
      {
        ResyncAt(was[offset - 1..]);
        assert was[offset - 1..][0] == frame[offset];
        if frame[offset] == SYNC {
          frameIndex := FRAME - offset;
          MoveFront(offset);
          return;
        }
        assert was[offset - 1..][1..] == was[offset..];
        offset := offset + 1;
      }
      ResyncAt([]);
      frameIndex := 0;
    }

    /** The memmove of resync_frame. */
    method MoveFront(offset: nat)
      requires frame.Length == BUFFER && 0 < offset < FRAME
      modifies frame
      ensures frame[..FRAME - offset] == old(frame[1..FRAME])[offset - 1..]
    {
      forall i | 0 <= i < FRAME - offset { frame[i] := frame[offset + i]; }
    }

    /** The byte loop of sbus_update for one byte: the frame it completes, if any. */
    method Take(b: byte) returns (frames: seq<seq<byte>>, invalid: nat)
      requires Valid()
      modifies `frameIndex, frame
      ensures Valid() && protocol == old(protocol)
      ensures Found(frames, invalid, frame[..frameIndex]) == Push(protocol, old(frame[..frameIndex]), b)
    {
      hide Resync, Starts, LengthOk, Ends;
      PushPending(protocol, frame[..frameIndex], b);
      frames, invalid := [], 0;
      if frameIndex == 0 && !Starts(protocol, b) { return; }
      ghost var was := frame[..frameIndex];
      frame[frameIndex] := b;
      frameIndex := frameIndex + 1;
      assert frame[..frameIndex] == was + [b];
      if protocol == CrsfProtocol {
        if frameIndex == 2 && !LengthOk(frame[1]) {
          frameIndex, invalid := 0, 1;
        } else if frameIndex >= 2 && frameIndex == frame[1] as nat + 2 {
          frames := [frame[..frameIndex]];
          frameIndex := 0;
        }
        return;
      }
      if frameIndex == FRAME {
        if frame[0] == SYNC && Ends(frame[24]) {
          frames := [frame[..FRAME]];
          frameIndex := 0;
        } else {
          invalid := 1;
          assert frame[1..FRAME] == (was + [b])[1..];
          ResyncFrame();
        }
      }
    }

    /** decode and decode_crsf */
    method Decode(f: seq<byte>, at: nat)
      requires protocol == SbusProtocol ==> |f| == FRAME
      modifies `channels, `validFrames, `invalidFrames, `lastFrame, `failsafe, `failsafePending, `failsafeStarted,
               `inverterLocked
      ensures Value() == Noted(protocol, old(Value()), Heard(f, at))
    {
      var now := at % WORD;
      if protocol == CrsfProtocol {
        if !Checked(f) || (f[2] == 0x16 && f[1] != 24) {
          invalidFrames := Add32(invalidFrames, 1);
          return;
        }
        if f[2] != 0x16 { return; }
      }
      if validFrames == 0 { invalidFrames := 0; }
      lastFrame, validFrames, inverterLocked := now, Add32(validFrames, 1), true;
      if protocol == SbusProtocol {
        if Bit3(f[23]) {
          if !failsafePending { failsafePending, failsafeStarted := true, now; }
          failsafe := Sub32(now, failsafeStarted) >= FAILSAFE_CONFIRM;
          return;
        }
        failsafePending := false;
      }
      failsafe := false;
      var raw := Channels.Unpack(PayloadOf(protocol, f));
      channels := Scaled(protocol, raw);
    }

    /** One byte: framed, and decoded or counted. */
    method Handle(b: byte, at: nat)
      requires Valid()
      modifies `frameIndex, frame, `channels, `validFrames, `invalidFrames, `lastFrame, `failsafe, `failsafePending,
               `failsafeStarted, `inverterLocked
      ensures Valid() && protocol == old(protocol)
      ensures frame[..frameIndex] == Push(protocol, old(frame[..frameIndex]), b).rest
      ensures Value() == AllNoted(protocol, old(Value()), SignsOf(Push(protocol, old(frame[..frameIndex]), b), at))
    {
      ghost var pending := frame[..frameIndex];
      PushOnce(protocol, pending, b);
      FrameSize(protocol, pending, b);
      hide Push, Pending, Noted;
      var frames, invalid := Take(b);
      if |frames| > 0 {
        Decode(frames[0], at);
        OneNoted(protocol, old(Value()), Heard(frames[0], at));
      } else if invalid > 0 {
        invalidFrames := Add32(invalidFrames, 1);
        OneNoted(protocol, old(Value()), Garbled(at));
        NotedGarbled(protocol, old(Value()), at);
      }
    }

    /** The byte loop of sbus_update. */
    method HandleAll(bytes: seq<byte>, times: seq<nat>)
      requires Valid() && |times| == |bytes|
      modifies `frameIndex, frame, `channels, `validFrames, `invalidFrames, `lastFrame, `failsafe, `failsafePending,
               `failsafeStarted, `inverterLocked
      ensures Valid() && protocol == old(protocol)
      ensures frame[..frameIndex] == Fed(protocol, old(frame[..frameIndex]), bytes).rest
      ensures Value() == AllNoted(protocol, old(Value()), Reported(protocol, old(frame[..frameIndex]), bytes, times))
    {
      hide Fed, AllNoted, Reported, Push, Pending, SignsOf;
      ghost var pending, was := frame[..frameIndex], Value();
      var i := 0;
      FedNothing(protocol, pending, was);
      while i < |bytes|
        invariant 0 <= i <= |bytes| && Valid() && protocol == old(protocol)
        invariant frame[..frameIndex] == Fed(protocol, pending, bytes[..i]).rest
        invariant Value() == AllNoted(protocol, was, Reported(protocol, pending, bytes[..i], times[..i]))
      {
        Handle(bytes[i], times[i]);
        FedMore(protocol, pending, was, bytes, times, i);
        i := i + 1;
      }
      assert bytes[..|bytes|] == bytes && times[..|bytes|] == times;
    }

    /** HAL_UART_ErrorCallback */
    method UartError(now: nat)
      modifies `dropPending, `lastRecovery
      ensures dropPending && lastRecovery == now % WORD
    {
      dropPending, lastRecovery := true, now % WORD;
    }

    /** HAL_UART_RxCpltCallback on a full ring */
    method Overrun()
      modifies `dropPending
      ensures dropPending
    {
      dropPending := true;
    }

    /** sbus_update over the bytes that are in the ring: a pending drop empties it; afterwards the link is
        judged, and reception may be started again. */
    method Update(bytes: seq<byte>, times: seq<nat>, now: nat)
      requires Valid() && |times| == |bytes|
      modifies this, frame
      ensures Valid() && protocol == old(protocol) && !dropPending
      ensures var pending := if old(dropPending) then [] else old(frame[..frameIndex]);
        var heard, at := if old(dropPending) then [] else bytes, if old(dropPending) then [] else times;
        && Value() == AllNoted(protocol, old(Value()), Reported(protocol, pending, heard, at))
        && (if Probing(old(lastProbe), now) || Retrying(old(lastRecovery), now) then frameIndex == 0
            else frame[..frameIndex] == Fed(protocol, pending, heard).rest)
      ensures frameAge == AgeOf(Value(), now % WORD) && loss == LossOf(Value(), now % WORD)
      ensures lastProbe == if Probing(old(lastProbe), now) then now % WORD else old(lastProbe)
      ensures lastRecovery == if Retrying(old(lastRecovery), now) then now % WORD else old(lastRecovery)
    {
      hide Fed, AllNoted, Reported, Push, Pending;
      if dropPending {
        dropPending, frameIndex := false, 0;
        NothingPending(protocol);
        HandleAll([], []);
      } else {
        HandleAll(bytes, times);
      }
      Judge(now);
    }

    /** The end of sbus_update: the verdict on the link, and what it entails. */
    method Judge(now: nat)
      requires Valid()
      modifies `frameIndex, `frameAge, `loss, `lastProbe, `lastRecovery
      ensures Valid()
      ensures frameAge == AgeOf(Value(), now % WORD) && loss == LossOf(Value(), now % WORD)
      ensures lastProbe == if Probing(old(lastProbe), now) then now % WORD else old(lastProbe)
      ensures lastRecovery == if Retrying(old(lastRecovery), now) then now % WORD else old(lastRecovery)
      ensures frameIndex == if Probing(old(lastProbe), now) || Retrying(old(lastRecovery), now) then 0 else old(frameIndex)
    {
      hide Pending;
      NothingPending(protocol);
      if Probing(lastProbe, now) { lastProbe, frameIndex := now % WORD, 0; }
      frameAge := if lastFrame == 0 then WORD - 1 else Sub32(now % WORD, lastFrame);
      loss := if failsafe then Failsafe
              else if lastFrame == 0 || frameAge >= SIGNAL_TIMEOUT then TimedOut
              else NoLoss;
      if Retrying(lastRecovery, now) { lastRecovery, frameIndex := now % WORD, 0; }
    }

    /** Nothing has locked on for a while: the signal is inverted the other way. */
    predicate Probing(last: nat, now: nat)
      reads this
    {
      invertible && !inverterLocked && Sub32(now % WORD, last) >= INVERTER_PROBE
    }

    /** The link is gone for a while: reception is started again. */
    predicate Retrying(last: nat, now: nat)
      reads this
    {
      inverterLocked && loss == TimedOut && Sub32(now % WORD, last) >= RECOVERY_RETRY
    }
  }

  lemma NothingPending(p: Protocol)
    ensures Pending(p, [])
  {}

  lemma OneNoted(p: Protocol, d: Data, x: Sign)
    ensures AllNoted(p, d, [x]) == Noted(p, d, x)
  {
    hide Noted;
    assert [x][..0] == [];
    assert AllNoted(p, d, []) == d;
  }

  lemma NotedGarbled(p: Protocol, d: Data, at: nat)
    ensures Noted(p, d, Garbled(at)) == Spoilt(d)
  {}

  lemma FrameSize(p: Protocol, pending: seq<byte>, b: byte)
    ensures var f := Push(p, pending, b); p == SbusProtocol && f.frames != [] ==> |f.frames[0]| == FRAME
  {
    hide Resync, Starts, Ends, LengthOk;
  }

  lemma FedNothing(p: Protocol, pending: seq<byte>, d: Data)
    ensures Fed(p, pending, []).rest == pending && AllNoted(p, d, Reported(p, pending, [], [])) == d
  {}

  /** One byte more: the bytes fed, the signs reported and what they make of the data. */
  lemma FedMore(p: Protocol, pending: seq<byte>, d: Data, bytes: seq<byte>, times: seq<nat>, i: nat)
    requires i < |bytes| == |times|
    ensures var rest, signs := Fed(p, pending, bytes[..i]).rest, Reported(p, pending, bytes[..i], times[..i]);
      && Fed(p, pending, bytes[..i + 1]).rest == Push(p, rest, bytes[i]).rest
      && AllNoted(p, d, Reported(p, pending, bytes[..i + 1], times[..i + 1])) ==
         AllNoted(p, AllNoted(p, d, signs), SignsOf(Push(p, rest, bytes[i]), times[i]))
  {
    var more := bytes[..i + 1];
    assert more[..i] == bytes[..i] && times[..i + 1][..i] == times[..i] && more == bytes[..i] + [bytes[i]];
    hide Push, Noted;
    FedStep(p, pending, bytes[..i], bytes[i]);
    SignsNoted(p, d, Reported(p, pending, bytes[..i], times[..i]), Push(p, Fed(p, pending, bytes[..i]).rest, bytes[i]), times[i]);
  }

  lemma SignsNoted(p: Protocol, d: Data, signs: seq<Sign>, f: Found, at: nat)
    ensures AllNoted(p, d, signs + SignsOf(f, at)) == AllNoted(p, AllNoted(p, d, signs), SignsOf(f, at))
  {
    hide Noted;
    var x := SignsOf(f, at);
    if x == [] {
      assert signs + x == signs;
    } else {
      OneNoted(p, AllNoted(p, d, signs), x[0]);
      assert x == [x[0]] && (signs + x)[..|signs|] == signs;
    }
  }
}
