/** 32-bit FNV-1a (IETF draft-eastlake-fnv, section 2), the 16-way mask, and how keys spread. */
module Sharding {
  import opened Keys
  import opened ShardedMaps

  function Fnv32(key: Bytes): bv32 {
    if key == [] then 2166136261
    else (Fnv32(key[..|key| - 1]) ^ (key[|key| - 1] as bv32)) * 16777619
  }

  /** Published test vectors: the empty text, "a" and "fo". */
  lemma FnvVectors()
    ensures Fnv32([]) == 0x811C9DC5 && Fnv32([97]) == 0xE40C292C && Fnv32([102, 111]) == 0x6222E842
  {
    assert [97][..0] == [] && [102, 111][..1] == [102] && [102][..0] == [];
    assert Fnv32([102]) == 0xE30C2799;
  }

  function MaskedHash(key: Bytes): bv32 { Fnv32(key) & 15 }

  function ShardIndex(key: Bytes): (i: nat)
    ensures i < SHARD_COUNT
  {
    MaskedHash(key) as nat
  }

  lemma ShardIndexMasks()
    ensures MasksToShard(ShardIndex)
  {
  }

  /** The four-bit recurrence that the masked hash follows. */
  function NibbleHash(key: Bytes): bv32 {
    if key == [] then 5
    else ((NibbleHash(key[..|key| - 1]) ^ ((key[|key| - 1] & 15) as bv32)) * 3) & 15
  }

  lemma MaskedStep(h: bv32, b: bv8)
    ensures ((h ^ (b as bv32)) * 16777619) & 15 == (((h & 15) ^ ((b & 15) as bv32)) * 3) & 15
  {
  }

  /** Only the low nibble of each byte and of the state decides the shard. */
  lemma {:induction false} MaskedHashIsNibbleHash(key: Bytes)
    ensures MaskedHash(key) == NibbleHash(key)
  {
    if key == [] {
    } else {
      MaskedHashIsNibbleHash(key[..|key| - 1]);
      MaskedStep(Fnv32(key[..|key| - 1]), key[|key| - 1]);
    }
  }

  /** The sixteen bytes whose low nibble is zero. */
  function HighNibble(i: nat): bv8
    requires i < 16
  {
    (i as bv8) << 4
  }

  /** The low nibble that sends a prefix with masked hash `n` to shard `k`; 11 inverts 3 modulo 16. */
  function LowNibbleFor(n: bv32, k: bv32): bv8 { ((n ^ (k * 11)) & 15) as bv8 }

  lemma NibbleStepInverse(n: bv32, k: bv32, b: bv8)
    requires n < 16 && k < 16
    ensures ((n ^ ((b & 15) as bv32)) * 3) & 15 == k <==> b & 15 == LowNibbleFor(n, k)
  {
  }

  /** The one-byte extensions of `prefix` that land in shard `k`. */
  function Landing(prefix: Bytes, k: bv32): seq<bv8> {
    seq(16, i requires 0 <= i < 16 => HighNibble(i) | LowNibbleFor(MaskedHash(prefix), k))
  }

  lemma HighNibblesApart(i: nat, j: nat)
    requires i < j < 16
    ensures HighNibble(i) != HighNibble(j)
  {
  }

  lemma HighNibbleOf(b: bv8)
    ensures (b >> 4) as nat < 16
    ensures HighNibble((b >> 4) as nat) == b & 0xF0
    ensures b == (b & 0xF0) | (b & 15)
  {
  }

  lemma JoinNibbles(i: nat, l: bv8)
    requires i < 16 && l < 16
    ensures (HighNibble(i) | l) & 0xF0 == HighNibble(i) && (HighNibble(i) | l) & 15 == l
  {
  }

  /** Even spread: for every key prefix, exactly 16 of its 256 one-byte extensions go to each shard. */
  lemma EvenSpread(prefix: Bytes, k: bv32)
    requires k < 16
    ensures |Landing(prefix, k)| == 16
    ensures forall i, j :: 0 <= i < j < 16 ==> Landing(prefix, k)[i] != Landing(prefix, k)[j]
    ensures forall b: bv8 :: b in Landing(prefix, k) <==> ShardIndex(prefix + [b]) == k as nat
  {
    var n, l := MaskedHash(prefix), LowNibbleFor(MaskedHash(prefix), k);
    forall i, j | 0 <= i < j < 16
      ensures Landing(prefix, k)[i] != Landing(prefix, k)[j]
    {
      HighNibblesApart(i, j);
      JoinNibbles(i, l);
      JoinNibbles(j, l);
    }
    forall b: bv8
      ensures b in Landing(prefix, k) <==> ShardIndex(prefix + [b]) == k as nat
    {
      LandsIff(prefix, k, b);
      MaskedHashSmall(prefix + [b]);
      SameIndex(MaskedHash(prefix + [b]), k);
    }
  }

  lemma MaskedHashExtend(prefix: Bytes, b: bv8)
    ensures MaskedHash(prefix + [b]) == ((MaskedHash(prefix) ^ ((b & 15) as bv32)) * 3) & 15
  {
    assert (prefix + [b])[..|prefix|] == prefix;
    MaskedStep(Fnv32(prefix), b);
  }

  lemma SameIndex(h: bv32, k: bv32)
    requires h < 16 && k < 16
    ensures h == k <==> h as nat == k as nat
  {
  }

  lemma MaskedHashSmall(key: Bytes)
    ensures MaskedHash(key) < 16
  {
  }

  lemma InLandingIff(prefix: Bytes, k: bv32, b: bv8)
    requires k < 16
    ensures b in Landing(prefix, k) <==> b & 15 == LowNibbleFor(MaskedHash(prefix), k)
  {
    var l := LowNibbleFor(MaskedHash(prefix), k);
    HighNibbleOf(b);
    if b & 15 == l {
      assert Landing(prefix, k)[(b >> 4) as nat] == b;
    }
    forall i | 0 <= i < 16
      ensures Landing(prefix, k)[i] & 15 == l
    {
      JoinNibbles(i, l);
    }
  }

  lemma LandsIff(prefix: Bytes, k: bv32, b: bv8)
    requires k < 16
    ensures b in Landing(prefix, k) <==> MaskedHash(prefix + [b]) == k
  {
    InLandingIff(prefix, k, b);
    MaskedHashExtend(prefix, b);
    MaskedHashSmall(prefix);
    NibbleStepInverse(MaskedHash(prefix), k, b);
  }
}
