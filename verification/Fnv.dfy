/**
 The 32-bit FNV-1a hash that guards the settings record (src/storage/flight_settings.c) and the
 saved flight log (src/storage/flight_log.c).
 */
module Fnv {
  import opened Checksums
  import opened Crc32

  const START: bv32 := 2166136261

  function Step(hash: bv32, b: octet): bv32 { (hash ^ (b as bv32)) * 16777619 }

  function Hash(start: bv32, data: seq<octet>): bv32 { Fold(Step, start, data) }

  /** The hash loop. */
  method Run(start: bv32, data: seq<octet>) returns (hash: bv32)
    ensures hash == Hash(start, data)
  {
    hide Step;
    hash := start;
    var i := 0;
    while i < |data|
      invariant 0 <= i <= |data| && hash == Hash(start, data[..i])
    {
      hash := Step(hash, data[i]);
      assert data[..i + 1][..i] == data[..i];
      i := i + 1;
    }
    assert data[..|data|] == data;
  }

  /** Published values of the 32-bit FNV-1a hash: of nothing, and of "a". */
  lemma KnownHashes()
    ensures Hash(START, []) == 0x811C9DC5 && Hash(START, [0x61]) == 0xE40C292C
  {
    FoldStep(Step, START, [], 0x61);
    assert [] + [0x61 as octet] == [0x61];
  }
}
