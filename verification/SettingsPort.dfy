/**
 settings_backup_process (src/protocol/settings_backup_protocol.h) with its static variables:
 the staging buffer is filled byte by byte, the text and checksum loops run, and every
 command is proved against the specification in SettingsBackup.
 */
module SettingsPort {
  import opened Bytes
  import opened Records
  import opened Crc32
  import S = Settings
  import B = SettingsBackup

  class Port {
    const target: B.Target
    var store: S.Store
    var snapshot: Option<S.Payload>
    const staging: array<octet>
    var received: nat
    var crc: bv32
    var active: bool
    var activity: nat
    ghost var chunks: seq<octet>

    constructor (t: B.Target, s: S.Store)
      requires S.Valid(s.board, s.live)
      ensures Valid() && B.Inv(Value()) && store == s && snapshot == None && !active && fresh(staging)
    {
      target, store, snapshot := t, s, None;
      staging := new octet[S.SIZE](_ => 0);
      received, crc, active, activity, chunks := 0, 0, false, 0, [];
    }

    predicate Valid()
    {
      staging.Length == S.SIZE
    }

    ghost function Value(): B.State
      requires Valid()
      reads this, staging
    {
      B.State(target, store, snapshot, staging[..], received, crc, active, activity, chunks)
    }

    /** The text of a stretch of the snapshot. */
    method Text(data: S.Payload, offset: nat, length: nat) returns (hex: string)
      requires offset + length <= S.SIZE
      ensures hex == B.Hex(data[offset..offset + length])
    {
      hide B.High, B.Low;
      hex := "";
      var i := 0;
      while i < length
        invariant 0 <= i <= length && hex == B.Hex(data[offset..offset + i])
      {
        hex := hex + [B.High(data[offset + i]), B.Low(data[offset + i])];
        assert data[offset..offset + i + 1][..i] == data[offset..offset + i];
        i := i + 1;
      }
    }

    /** The loop over the digits of a chunk: bytes go into the staging buffer until a pair is bad. */
    method Stage(offset: nat, hex: string) returns (ok: bool, count: nat)
      requires Valid() && |hex| % 2 == 0 && offset + |hex| / 2 <= S.SIZE
      modifies staging
      ensures count == |B.Pairs(hex)| && (ok <==> 2 * count == |hex|)
      ensures staging[..] == B.Splice(old(staging[..]), offset, B.Pairs(hex))
    {
      hide B.Pair, B.IsDigit;
      count := 0;
      ok := true;
      while 2 * count < |hex| && ok
        invariant 2 * count <= |hex| && count <= |B.Pairs(hex)|
        invariant B.Pairs(hex)[count..] == B.Pairs(hex[2 * count..])
        invariant !ok ==> B.Pairs(hex[2 * count..]) == [] && 2 * count < |hex|
        invariant forall i :: 0 <= i < offset ==> staging[i] == old(staging[i])
        invariant forall i :: 0 <= i < count ==> staging[offset + i] == B.Pairs(hex)[i]
        invariant forall i :: offset + count <= i < S.SIZE ==> staging[i] == old(staging[i])
        decreases |hex| - 2 * count, ok
      {
        var hi, lo := hex[2 * count], hex[2 * count + 1];
        if !B.IsDigit(hi) || !B.IsDigit(lo) {
          ok := false;
        } else {
          assert hex[2 * count..][2..] == hex[2 * (count + 1)..];
          staging[offset + count] := B.Pair(hi, lo);
          assert B.Pairs(hex)[count..][1..] == B.Pairs(hex)[count + 1..];
          count := count + 1;
        }
      }
    }

    method Begin(c: B.Command, now: nat) returns (reply: B.Reply)
      requires Valid() && c.Begin?
      modifies this, staging
      ensures Valid() && B.Outcome(Value(), reply) == B.BeginRestore(old(Value()), c, now)
    {
      if c.family != target.family || c.board != target.board || c.schema != 28 || c.size != S.SIZE {
        active := false;
        return B.Refused(B.Incompatible);
      }
      forall i | 0 <= i < S.SIZE { staging[i] := 0; }
      received, crc, activity, active, chunks := 0, c.crc, now, true, [];
      assert staging[..] == seq(S.SIZE, _ => 0);
      reply := B.Okay;
    }

    method TakeChunk(offset: nat, hex: string, now: nat) returns (reply: B.Reply)
      requires Valid()
      modifies this, staging
      ensures Valid() && B.Outcome(Value(), reply) == B.TakeChunk(old(Value()), offset, hex, now)
    {
      hide B.Splice, B.Pairs;
      if |hex| == 0 || |hex| > 2 * B.CHUNK {
        active := false;
        return B.Refused(B.NoCommand);
      }
      if !active || offset != received || |hex| % 2 != 0 || offset >= S.SIZE || |hex| / 2 > S.SIZE - offset {
        active := false;
        return B.Refused(B.Sequence);
      }
      var ok, count := Stage(offset, hex);
      if !ok {
        active := false;
        return B.Refused(B.BadHex);
      }
      chunks := chunks + B.Pairs(hex);
      received, activity := received + |hex| / 2, now;
      reply := B.Okay;
    }

    method Commit(x: B.Context) returns (reply: B.Reply)
      requires Valid() && S.Valid(store.board, store.live)
      modifies this
      ensures Valid() && B.Outcome(Value(), reply) == B.CommitRestore(old(Value()), x)
    {
      hide S.Valid, S.Checksum, Crc;
      ghost var s := Value();
      var complete := active && received == S.SIZE;
      active := false;
      var staged: S.Payload := staging[..];
      var sum := Compute(staged);
      var ends := NameEnds(staged);
      if !complete || sum != crc || !ends { return B.Refused(B.Integrity); }
      var previous := store.live;
      if !S.Valid(store.board, staged) { return B.Refused(B.Values); }
      store := S.Set(store, staged);
      store := S.Save(store, x.saveOk, x.left);
      if !x.saveOk {
        store := S.Set(store, previous);
        return B.Refused(B.SaveFailed);
      }
      reply := B.Okay;
    }

    /** memchr over the pilot name. */
    method NameEnds(p: S.Payload) returns (ends: bool)
      ensures ends == S.NameEnds(p)
    {
      var k := S.NAME;
      while k < S.NAME + S.NAME_BYTES
        invariant S.NAME <= k <= S.NAME + S.NAME_BYTES
        invariant forall j :: S.NAME <= j < k ==> p[j] != 0
      {
        if p[k] == 0 { return true; }
        k := k + 1;
      }
      ends := false;
    }

    /** settings_backup_process */
    method Process(c: B.Command, x: B.Context) returns (reply: B.Reply)
      requires Valid() && B.Inv(Value())
      modifies this, staging
      ensures Valid() && B.Inv(Value()) && B.Outcome(Value(), reply) == B.Process(old(Value()), c, x)
    {
      hide S.Valid, B.BeginRestore, B.TakeChunk, B.CommitRestore, B.Hex, Crc, B.Inv;
      B.ProcessInv(Value(), c, x);
      LiveValid(Value());
      active := active && Sub32(x.now, activity) <= B.TIMEOUT_US;
      if x.unsafe {
        active := false;
        return B.Refused(B.BusyNow);
      }
      match c {
        case Info =>
          snapshot := Some(store.live);
          var sum := Compute(store.live);
          reply := B.InfoReply(S.SIZE, sum, store.saved);
        case Read(offset, length) =>
          if snapshot == None || length == 0 || length > B.CHUNK || offset >= S.SIZE || length > S.SIZE - offset {
            return B.Refused(B.Range);
          }
          var hex := Text(snapshot.value, offset, length);
          reply := B.ChunkReply(offset, hex);
        case Cancel =>
          active := false;
          reply := B.Okay;
        case Begin(_, _, _, _, _) => reply := Begin(c, x.now);
        case Chunk(offset, hex) => reply := TakeChunk(offset, hex, x.now);
        case Commit => reply := Commit(x);
        case Unknown(restoring) =>
          if restoring { active := false; }
          reply := B.Refused(B.NoCommand);
      }
    }
  }

  lemma LiveValid(s: B.State)
    requires B.Inv(s)
    ensures S.Valid(s.store.board, s.store.live)
  {}
}
