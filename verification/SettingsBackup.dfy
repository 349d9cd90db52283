/**
 Reading out and restoring the settings: src/protocol/settings_backup_protocol.h, after its
 text commands have been parsed.
 */
module SettingsBackup {
  import opened Bytes
  import opened Records
  import opened Crc32
  import S = Settings

  const CHUNK := 48
  const TIMEOUT_US := 10_000_000

  // ------------------------------------------------- hexadecimal text

  /** The digit of a value below 16. */
  function HexDigit(n: octet): char
    requires n < 16
  {
    "0123456789ABCDEF"[n as nat]
  }

  /** backup_hex_digit */
  function DigitValue(c: char): int {
    if '0' <= c <= '9' then c as int - '0' as int
    else if 'a' <= c <= 'f' then c as int - 'a' as int + 10
    else if 'A' <= c <= 'F' then c as int - 'A' as int + 10
    else -1
  }

  predicate IsDigit(c: char) { DigitValue(c) >= 0 }

  function Pair(hi: char, lo: char): octet
    requires IsDigit(hi) && IsDigit(lo)
  {
    ((DigitValue(hi) as octet) << 4) | (DigitValue(lo) as octet)
  }

  function High(b: octet): (c: char) { var n := b >> 4; HexDigit(n) }

  function Low(b: octet): (c: char) { var n := b & 15; HexDigit(n) }

  function Hex(data: seq<octet>): (text: string)
    ensures |text| == 2 * |data|
  {
    if data == [] then "" else Hex(data[..|data| - 1]) + [High(data[|data| - 1]), Low(data[|data| - 1])]
  }

  /** The bytes of the leading pairs of digits. */
  function Pairs(text: string): (data: seq<octet>)
    ensures 2 * |data| <= |text|
  {
    if |text| < 2 || !IsDigit(text[0]) || !IsDigit(text[1]) then []
    else [Pair(text[0], text[1])] + Pairs(text[2..])
  }

  lemma DigitRoundTrip(n: octet)
    requires n < 16
    ensures DigitValue(HexDigit(n)) == n as int && 0 <= DigitValue(HexDigit(n)) < 16
    ensures IsDigit(HexDigit(n)) && DigitValue(HexDigit(n)) as octet == n
  {
    var k := n as nat;
    assert k < 16;
    var digits := "0123456789ABCDEF";
    assert HexDigit(n) == digits[k];
    assert forall i :: 0 <= i < 16 ==> DigitValue(digits[i]) == i;
  }

  lemma Nibbles(b: octet)
    ensures b >> 4 < 16 && b & 15 < 16 && ((b >> 4) << 4) | (b & 15) == b
  {}

  lemma PairRoundTrip(b: octet)
    ensures IsDigit(High(b)) && IsDigit(Low(b)) && Pair(High(b), Low(b)) == b
  {
    hide HexDigit, DigitValue;
    Nibbles(b);
    DigitRoundTrip(b >> 4);
    DigitRoundTrip(b & 15);
  }

  lemma {:induction false} HexFront(data: seq<octet>)
    requires data != []
    ensures Hex(data) == [High(data[0]), Low(data[0])] + Hex(data[1..])
  {
    hide High, Low;
    var n := |data| - 1;
    if n == 0 {
      assert Hex(data[..0]) == "" && Hex(data[1..]) == "";
    } else {
      HexFront(data[..n]);
      assert data[1..][..n - 1] == data[..n][1..];
    }
  }

  /** What was written as text reads back as the same bytes. */
  lemma {:induction false} HexRoundTrip(data: seq<octet>)
    ensures Pairs(Hex(data)) == data
  {
    hide High, Low, Pair, IsDigit;
    if data != [] {
      HexFront(data);
      PairRoundTrip(data[0]);
      HexRoundTrip(data[1..]);
      assert Hex(data)[2..] == Hex(data[1..]);
    }
  }

  /** High digit first, in capitals; digits of either case are read. */
  lemma KnownHex()
    ensures Hex([0x1A]) == "1A" && Pairs("1A") == [0x1A] && Pairs("1a") == [0x1A] && Pairs("E7") == [0xE7]
  {
    assert Hex([0x1A]) == Hex([]) + [High(0x1A), Low(0x1A)];
    assert Pairs("1A"[2..]) == [] && Pairs("1a"[2..]) == [] && Pairs("E7"[2..]) == [];
  }

  // ------------------------------------------------- the protocol

  datatype Command =
    | Info
    | Read(offset: nat, length: nat)
    | Cancel
    | Begin(family: string, board: string, schema: nat, size: nat, crc: bv32)
    | Chunk(offset: nat, hex: string)
    | Commit
    | Unknown(restoring: bool)

  datatype Problem = BusyNow | Range | Incompatible | Sequence | BadHex | Integrity | Values | SaveFailed | NoCommand

  datatype Reply =
    | InfoReply(size: nat, crc: bv32, saved: bool)
    | ChunkReply(offset: nat, hex: string)
    | Okay
    | Refused(problem: Problem)

  /** What the target calls itself. */
  datatype Target = Target(family: string, board: string)

  /** When a command arrives, whether the craft is armed or otherwise busy, and how a save ends. */
  datatype Context = Context(now: nat, unsafe: bool, saveOk: bool, left: S.Record)

  datatype State = State(target: Target, store: S.Store, snapshot: Option<S.Payload>, staging: S.Payload,
                         received: nat, crc: bv32, active: bool, activity: nat,
                         chunks: seq<octet>)   // history: the bytes accepted since the last begin

  datatype Outcome = Outcome(state: State, reply: Reply)

  function Splice(p: S.Payload, at: nat, data: seq<octet>): (r: S.Payload)
    requires at + |data| <= S.SIZE
  {
    p[..at] + data + p[at + |data|..]
  }

  function Expired(s: State, now: nat): State {
    s.(active := s.active && Sub32(now, s.activity) <= TIMEOUT_US)
  }

  function ReadChunk(s: State, offset: nat, length: nat): Reply {
    if s.snapshot == None || length == 0 || length > CHUNK || offset >= S.SIZE || length > S.SIZE - offset
    then Refused(Range)
    else ChunkReply(offset, Hex(s.snapshot.value[offset..offset + length]))
  }

  function BeginRestore(s: State, c: Command, now: nat): Outcome
    requires c.Begin?
  {
    if c.family != s.target.family || c.board != s.target.board || c.schema != S.VERSION as nat || c.size != S.SIZE
    then Outcome(s.(active := false), Refused(Incompatible))
    else Outcome(s.(staging := seq(S.SIZE, _ => 0), received := 0, crc := c.crc, activity := now,
                    active := true, chunks := []), Okay)
  }

  function TakeChunk(s: State, offset: nat, hex: string, now: nat): Outcome {
    var data := Pairs(hex);
    if |hex| == 0 || |hex| > 2 * CHUNK then Outcome(s.(active := false), Refused(NoCommand))
    else if !s.active || offset != s.received || |hex| % 2 != 0 || offset >= S.SIZE || |hex| / 2 > S.SIZE - offset
    then Outcome(s.(active := false), Refused(Sequence))
    else if |data| < |hex| / 2
    then Outcome(s.(active := false, staging := Splice(s.staging, offset, data)), Refused(BadHex))
    else Outcome(s.(staging := Splice(s.staging, offset, data), received := offset + |data|, activity := now,
                    chunks := s.chunks + data), Okay)
  }

  /** The checks that come before the validator. */
  predicate Intact(s: State) {
    s.active && s.received == S.SIZE && Crc(s.staging) == s.crc && S.NameEnds(s.staging)
  }

  function CommitRestore(s: State, x: Context): Outcome {
    var off := s.(active := false);
    if !Intact(s) then Outcome(off, Refused(Integrity))
    else if !S.Valid(s.store.board, s.staging) then Outcome(off, Refused(Values))
    else
      var saved := S.Save(S.Set(s.store, s.staging), x.saveOk, x.left);
      if x.saveOk then Outcome(off.(store := saved), Okay)
      else Outcome(off.(store := S.Set(saved, s.store.live)), Refused(SaveFailed))
  }

  /** settings_backup_process */
  function Process(s: State, c: Command, x: Context): Outcome {
    var e := Expired(s, x.now);
    if x.unsafe then Outcome(e.(active := false), Refused(BusyNow))
    else match c
      case Info =>
        Outcome(e.(snapshot := Some(e.store.live)), InfoReply(S.SIZE, Crc(e.store.live), e.store.saved))
      case Read(offset, length) => Outcome(e, ReadChunk(e, offset, length))
      case Cancel => Outcome(e.(active := false), Okay)
      case Begin(_, _, _, _, _) => BeginRestore(e, c, x.now)
      case Chunk(offset, hex) => TakeChunk(e, offset, hex, x.now)
      case Commit => CommitRestore(e, x)
      case Unknown(restoring) => Outcome(e.(active := e.active && !restoring), Refused(NoCommand))
  }

  // ------------------------------------------------- a restore is a transaction

  /** The live settings and the snapshot validate, and the staging buffer holds what was accepted, in order. */
  predicate Inv(s: State) {
    && S.Valid(s.store.board, s.store.live)
    && (s.snapshot.Some? ==> S.Valid(s.store.board, s.snapshot.value))
    && (s.active ==> s.received == |s.chunks| <= S.SIZE && s.staging[..s.received] == s.chunks)
  }

  lemma SpliceTakes(p: S.Payload, at: nat, data: seq<octet>, before: seq<octet>)
    requires at + |data| <= S.SIZE && p[..at] == before
    ensures Splice(p, at, data)[..at + |data|] == before + data
  {}

  lemma ProcessInv(s: State, c: Command, x: Context)
    requires Inv(s)
    ensures Inv(Process(s, c, x).state)
  {
    hide S.Valid, S.NameEnds, Crc, S.Checksum, Splice, Pairs;
    if c.Chunk? {
      var data := Pairs(c.hex);
      if s.active && c.offset == s.received && c.offset + |data| <= S.SIZE {
        SpliceTakes(s.staging, c.offset, data, s.chunks);
      }
    }
  }

  /** Live settings change only by a commit, and then to exactly the accepted bytes, which are
      complete, have the announced checksum, and validate. */
  lemma OnlyCommitChangesLive(s: State, c: Command, x: Context)
    requires Inv(s) && Process(s, c, x).state.store.live != s.store.live
    ensures var u := Process(s, c, x);
      && c == Commit && u.reply == Okay && !x.unsafe && x.saveOk && s.active
      && u.state.store.live == s.chunks && |s.chunks| == S.SIZE && Crc(s.chunks) == s.crc
      && S.Valid(s.store.board, s.chunks) && u.state.store.saved
      && u.state.store.flash == S.Record(S.MAGIC, S.VERSION, s.chunks, S.Checksum(S.VERSION, s.chunks))
  {
    hide S.Valid, S.NameEnds, Crc, S.Checksum;
    assert s.active && s.received == S.SIZE ==> s.staging == s.chunks by { assert s.staging[..S.SIZE] == s.staging; }
  }

  /** A commit whose save fails leaves the settings that were live, whatever it leaves in flash. */
  lemma FailedSaveRollsBack(s: State, x: Context)
    requires Inv(s) && !x.saveOk
    ensures var u := Process(s, Commit, x);
      u.state.store.live == s.store.live && u.reply.Refused? && !u.state.active
    ensures Process(s, Commit, x).reply == Refused(SaveFailed) ==> !Process(s, Commit, x).state.store.saved
  {
    hide S.Valid, S.NameEnds, Crc, S.Checksum;
  }

  /** A payload that differs from the announced one in one byte is refused, whichever byte it is. */
  lemma CorruptionRefused(s: State, x: Context, announced: S.Payload, k: nat)
    requires Inv(s) && s.active && s.crc == Crc(announced) && |s.chunks| == S.SIZE && !x.unsafe
    requires k < S.SIZE && s.chunks[k] != announced[k]
    requires forall i :: 0 <= i < S.SIZE && i != k ==> s.chunks[i] == announced[i]
    ensures Process(s, Commit, x).reply == Refused(Integrity) && Process(s, Commit, x).state.store == s.store
  {
    hide S.Valid, S.NameEnds, Crc, S.Checksum;
    assert s.staging == s.chunks by { assert s.staging[..S.SIZE] == s.staging; }
    CorruptionDetected(announced, s.staging, k);
  }

  /** After an unsafe moment, a timeout, a cancel or a bad command, nothing of a restore is left. */
  lemma Abandoned(s: State, c: Command, x: Context)
    requires Inv(s)
    ensures (x.unsafe || c == Cancel || c == Unknown(true) || Process(s, c, x).reply == Refused(Sequence) ||
             Process(s, c, x).reply == Refused(BadHex)) ==> !Process(s, c, x).state.active
    ensures Sub32(x.now, s.activity) > 10_000_000 && !c.Begin? ==> !Process(s, c, x).state.active
  {
    hide S.Valid, S.NameEnds, Crc, S.Checksum, Splice, Pairs;
  }

  /** A begin for this target, this settings version and this size. */
  predicate Ours(target: Target, c: Command) {
    c.Begin? && c.family == target.family && c.board == target.board && c.schema == 28 && c.size == 252
  }

  function RunAll(s: State, commands: seq<Command>, contexts: seq<Context>): State
    requires |contexts| == |commands|
    decreases |commands|
  {
    if commands == [] then s else RunAll(Process(s, commands[0], contexts[0]).state, commands[1..], contexts[1..])
  }

  /** Without a restore that was begun for this target, this version and this size, no commands change the
      live settings or what is in flash. */
  lemma {:induction false} ForeignChangesNothing(s: State, commands: seq<Command>, contexts: seq<Context>)
    requires !s.active && |contexts| == |commands| && forall c :: c in commands ==> !Ours(s.target, c)
    ensures RunAll(s, commands, contexts).store == s.store && !RunAll(s, commands, contexts).active
    decreases |commands|
  {
    hide Process;
    if commands != [] {
      ForeignRefused(s, commands[0], contexts[0]);
      ForeignChangesNothing(Process(s, commands[0], contexts[0]).state, commands[1..], contexts[1..]);
    }
  }

  lemma ForeignRefused(s: State, c: Command, x: Context)
    requires !s.active && !Ours(s.target, c)
    ensures var u := Process(s, c, x); !u.state.active && u.state.store == s.store && u.state.target == s.target
    ensures c.Begin? && !x.unsafe ==> Process(s, c, x).reply == Refused(Incompatible)
  {
    hide S.Valid, S.NameEnds, Crc, S.Checksum, Splice, Pairs;
  }

  // ------------------------------------------------- a snapshot read and sent back

  /** Lengths of the chunks, each one the protocol allows. */
  predicate Chunking(lengths: seq<nat>) { forall i :: 0 <= i < |lengths| ==> 0 < lengths[i] <= 48 }

  function Sum(lengths: seq<nat>): nat { if lengths == [] then 0 else lengths[0] + Sum(lengths[1..]) }

  /** The chunk at `offset` is read from the snapshot and the reply's text is sent back. */
  function Relay(s: State, offset: nat, length: nat, x: Context): State {
    var r := Process(s, Read(offset, length), x);
    if r.reply.ChunkReply? then Process(r.state, Chunk(r.reply.offset, r.reply.hex), x).state else r.state
  }

  function RelayAll(s: State, offset: nat, lengths: seq<nat>, contexts: seq<Context>): State
    requires |lengths| == |contexts|
    decreases |lengths|
  {
    if lengths == [] then s
    else RelayAll(Relay(s, offset, lengths[0], contexts[0]), offset + lengths[0], lengths[1..], contexts[1..])
  }

  /** Safe throughout, and no pause longer than the timeout. */
  predicate Prompt(start: nat, contexts: seq<Context>)
    decreases |contexts|
  {
    contexts == [] ||
    (!contexts[0].unsafe && Sub32(contexts[0].now, start) <= TIMEOUT_US && Prompt(contexts[0].now, contexts[1..]))
  }

  /** A restore under way that has sent the first `offset` bytes of the snapshot. */
  predicate Copying(s: State, p: S.Payload, offset: nat) {
    s.active && s.snapshot == Some(p) && s.received == offset <= S.SIZE && s.chunks == p[..offset]
  }

  lemma RelayCopies(s: State, p: S.Payload, offset: nat, length: nat, x: Context)
    requires Inv(s) && Copying(s, p, offset) && 0 < length <= CHUNK && offset + length <= S.SIZE
    requires !x.unsafe && Sub32(x.now, s.activity) <= TIMEOUT_US
    ensures var r := Relay(s, offset, length, x);
      && Inv(r) && Copying(r, p, offset + length) && r.activity == x.now && r.crc == s.crc && r.store == s.store
  {
    hide S.Valid, Splice, Hex, Pairs;
    var data := p[offset..offset + length];
    HexRoundTrip(data);
    var read := Process(s, Read(offset, length), x);
    ProcessInv(s, Read(offset, length), x);
    ProcessInv(read.state, Chunk(offset, Hex(data)), x);
    assert SameClock(x.now);
    assert p[..offset] + data == p[..offset + length];
  }

  predicate SameClock(now: nat) { Sub32(now, now) == 0 }

  lemma {:induction false} RelayAllCopies(s: State, p: S.Payload, offset: nat, lengths: seq<nat>, contexts: seq<Context>)
    requires Inv(s) && Copying(s, p, offset) && Chunking(lengths) && offset + Sum(lengths) == S.SIZE
    requires |lengths| == |contexts| && Prompt(s.activity, contexts)
    ensures var r := RelayAll(s, offset, lengths, contexts);
      Inv(r) && Copying(r, p, S.SIZE) && r.crc == s.crc && r.store == s.store &&
      r.activity == if contexts == [] then s.activity else contexts[|contexts| - 1].now
    decreases |lengths|
  {
    hide Inv, Copying, Relay;
    if lengths != [] {
      RelayCopies(s, p, offset, lengths[0], contexts[0]);
      RelayAllCopies(Relay(s, offset, lengths[0], contexts[0]), p, offset + lengths[0], lengths[1..], contexts[1..]);
    }
  }

  /** Reading a snapshot in any chunking and sending it back, then committing, restores exactly
      the settings of the snapshot, in memory and in flash. */
  lemma SnapshotRestores(s: State, p: S.Payload, begin: Command, x0: Context, lengths: seq<nat>,
                         contexts: seq<Context>, x: Context)
    requires Inv(s) && s.snapshot == Some(p)
    requires begin == Begin(s.target.family, s.target.board, S.VERSION as nat, S.SIZE, Crc(p))
    requires !x0.unsafe && Chunking(lengths) && Sum(lengths) == S.SIZE
    requires |lengths| == |contexts| && Prompt(x0.now, contexts + [x])
    ensures var started := Process(s, begin, x0).state;
      var u := Process(RelayAll(started, 0, lengths, contexts), Commit, x);
      && Process(s, begin, x0).reply == Okay
      && (x.saveOk ==> u.reply == Okay && u.state.store.live == p && u.state.store.flash.payload == p)
      && (!x.saveOk ==> u.reply == Refused(SaveFailed) && u.state.store.live == s.store.live)
  {
    hide S.Valid, S.NameEnds, Crc, S.Checksum, RelayAll, Prompt;
    var started := Process(s, begin, x0).state;
    ProcessInv(s, begin, x0);
    PromptParts(x0.now, contexts, x);
    assert Copying(started, p, 0);
    RelayAllCopies(started, p, 0, lengths, contexts);
    var r := RelayAll(started, 0, lengths, contexts);
    assert r.staging == p by { assert r.staging[..S.SIZE] == r.staging && p[..S.SIZE] == p; }
    ValidNameEnds(s.store.board, p);
  }

  lemma ValidNameEnds(board: S.Board, p: S.Payload)
    requires S.Valid(board, p)
    ensures S.NameEnds(p)
  {
    hide S.Word, S.GainsValid, S.RatesValid, S.FeedforwardValid, S.FiltersValid, S.ReceiverValid, S.VtxValid, S.MiscValid;
  }

  lemma {:induction false} PromptParts(start: nat, contexts: seq<Context>, x: Context)
    requires Prompt(start, contexts + [x])
    ensures Prompt(start, contexts) && !x.unsafe
    ensures Sub32(x.now, if contexts == [] then start else contexts[|contexts| - 1].now) <= TIMEOUT_US
    decreases |contexts|
  {
    if contexts != [] {
      assert (contexts + [x])[1..] == contexts[1..] + [x];
      PromptParts(contexts[0].now, contexts[1..], x);
    }
  }

  /** What GET_SETTINGS_INFO answers is the checksum of the snapshot it takes. */
  lemma InfoAnnounces(s: State, x: Context)
    requires Inv(s) && !x.unsafe
    ensures var u := Process(s, Info, x);
      u.state.snapshot == Some(s.store.live) && S.Valid(s.store.board, s.store.live) &&
      u.reply == InfoReply(S.SIZE, Crc(s.store.live), s.store.saved)
  {
    hide S.Valid, Crc;
  }
}
