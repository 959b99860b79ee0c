/** The Bloom filter of a segment: sizes, hash, bit setting and bit testing on 64-bit words. */
module BloomFilter {
  import opened Types

  const MIN_BITS: nat := 256
  const MAX_BITS: nat := 16384
  const MIN_HASHES: nat := 3
  const MAX_HASHES: nat := 7

  /** Loop of imr_lsm_next_power_of_two_u32, from `result`. */
  function DoubleUntil(result: nat, value: nat): (r: nat)
    requires result > 0
    decreases if result < value then value - result else 0
  {
    if result < value && result <= U32_MAX / 2 then DoubleUntil(2 * result, value) else result
  }

  function NextPowerOfTwo(value: nat): nat {
    if value <= 1 then 1 else DoubleUntil(1, value)
  }

  function ChooseBits(keys: nat, bitsPerKey: nat): nat {
    if keys == 0 then MIN_BITS
    else
      var bits := NextPowerOfTwo(Min(Max(keys * bitsPerKey, MIN_BITS), MAX_BITS));
      Min(Max(bits, MIN_BITS), MAX_BITS)
  }

  function ChooseHashes(bitsPerKey: nat): nat {
    Min(Max(bitsPerKey * 69 / 100, MIN_HASHES), MAX_HASHES)
  }

  function Pow2(n: nat): (p: nat)
    ensures p > 0
  {
    if n == 0 then 1 else 2 * Pow2(n - 1)
  }

  function Mix(key: bv64, seed: bv64): bv64 {
    var a := key ^ ((seed + 1) * 0x9e3779b97f4a7c15);
    var b := (a ^ (a >> 33)) * 0xff51afd7ed558ccd;
    var c := (b ^ (b >> 33)) * 0xc4ceb9fe1a85ec53;
    c ^ (c >> 33)
  }

  /** Low bits of the mixed key. The source masks with `bits - 1`; `bits` is a power of two, for
      which the mask is the remainder (MaskIsRemainder). */
  function Hash(key: nat, seed: nat, bits: nat): (h: nat)
    requires bits > 0
    ensures h < bits
  {
    (Mix((key % 0x1_0000_0000_0000_0000) as bv64, (seed % 0x1_0000_0000) as bv64) as nat) % bits
  }

  lemma MaskIsRemainder(x: bv64)
    ensures x & 255 == x % 256 && x & 511 == x % 512 && x & 1023 == x % 1024
    ensures x & 2047 == x % 2048 && x & 4095 == x % 4096 && x & 8191 == x % 8192
    ensures x & 16383 == x % 16384
  {
  }

  function Bit(n: nat): bv64
    requires n < 64
  {
    1 << n
  }

  function With(word: bv64, bits: bv64): bv64 { word | bits }

  predicate Has(word: bv64, bits: bv64) { word & bits != 0 }

  predicate BitSet(words: seq<bv64>, n: nat)
    requires n / 64 < |words|
  {
    Has(words[n / 64], Bit(n % 64))
  }

  function SetBit(words: seq<bv64>, n: nat): (out: seq<bv64>)
    requires n / 64 < |words|
    ensures |out| == |words|
  {
    words[n / 64 := With(words[n / 64], Bit(n % 64))]
  }

  /** The words after the first `n` hashes of `key` were set. */
  function AddHashes(words: seq<bv64>, bits: nat, key: nat, n: nat): (out: seq<bv64>)
    requires bits > 0 && |words| * 64 == bits
    ensures |out| == |words|
  {
    if n == 0 then words else SetBit(AddHashes(words, bits, key, n - 1), Hash(key, n - 1, bits))
  }

  /** The words after the first `n` records were added. */
  function AddRecords(words: seq<bv64>, bits: nat, hashes: nat, rs: seq<Record>, n: nat): (out: seq<bv64>)
    requires bits > 0 && |words| * 64 == bits && n <= |rs|
    ensures |out| == |words|
  {
    if n == 0 then words
    else AddHashes(AddRecords(words, bits, hashes, rs, n - 1), bits, rs[n - 1].key, hashes)
  }

  function BuildFilter(rs: seq<Record>, bitsPerKey: nat): Bloom {
    var bits := ChooseBits(|rs|, bitsPerKey);
    var hashes := ChooseHashes(if |rs| > 0 then Max(1, bits / |rs|) else bitsPerKey);
    ChosenBits(|rs|, bitsPerKey);
    Bloom(|rs|, bits, hashes, AddRecords(seq(bits / 64, _ => 0), bits, hashes, rs, |rs|))
  }

  predicate MayContain(bloom: Bloom, key: nat) {
    |bloom.words| == 0 || bloom.bits == 0 || bloom.hashes == 0 ||
    forall h :: 0 <= h < bloom.hashes ==>
      var n := Hash(key, h, bloom.bits);
      n / 64 < |bloom.words| && BitSet(bloom.words, n)
  }

  lemma {:induction false} DoubleUntilPower(e: nat, value: nat) returns (f: nat)
    requires Pow2(e) < 2 * value <= 2 * MAX_BITS
    ensures DoubleUntil(Pow2(e), value) == Pow2(f)
    ensures value <= DoubleUntil(Pow2(e), value) < 2 * value
    decreases 2 * value - Pow2(e)
  {
    f := e;
    if Pow2(e) < value {
      assert 2 * Pow2(e) == Pow2(e + 1);
      f := DoubleUntilPower(e + 1, value);
    }
  }

  lemma {:induction false} Pow2Grows(e: nat, f: nat)
    requires e <= f
    ensures Pow2(e) <= Pow2(f)
    decreases f
  {
    if e < f { Pow2Grows(e, f - 1); }
  }

  /** The filter size is a power of two in 256..16384, and the least such that holds
      `bitsPerKey` bits for each key, when one does. */
  lemma ChosenBits(keys: nat, bitsPerKey: nat)
    ensures var bits := ChooseBits(keys, bitsPerKey);
            && bits in {256, 512, 1024, 2048, 4096, 8192, 16384}
            && bits >= Min(keys * bitsPerKey, MAX_BITS)
            && (bits > MIN_BITS ==> bits / 2 < keys * bitsPerKey)
  {
    if keys > 0 {
      var v := Min(Max(keys * bitsPerKey, MIN_BITS), MAX_BITS);
      assert Pow2(0) == 1;
      var f := DoubleUntilPower(0, v);
      assert Pow2(7) == 128 && Pow2(16) == 65536;
      if f > 15 { Pow2Grows(16, f); }
      if f < 8 { Pow2Grows(f, 7); }
      assert Pow2(8) == 256 && Pow2(9) == 512 && Pow2(10) == 1024 && Pow2(11) == 2048;
      assert Pow2(12) == 4096 && Pow2(13) == 8192 && Pow2(14) == 16384 && Pow2(15) == 32768;
    }
  }

  lemma OrKeepsBit(word: bv64, added: bv64, bit: bv64)
    ensures Has(word, bit) ==> Has(With(word, added), bit)
    ensures bit != 0 ==> Has(With(word, bit), bit)
  {
  }

  lemma BitNonzero(n: nat)
    requires n < 64
    ensures Bit(n) != 0
  {
  }

  lemma SetBitFacts(words: seq<bv64>, n: nat, m: nat)
    requires n / 64 < |words| && m / 64 < |words|
    ensures BitSet(SetBit(words, n), n)
    ensures BitSet(words, m) ==> BitSet(SetBit(words, n), m)
  {
    hide Bit, With, Has;
    BitNonzero(n % 64);
    OrKeepsBit(words[n / 64], Bit(n % 64), Bit(n % 64));
    OrKeepsBit(words[n / 64], Bit(n % 64), Bit(m % 64));
  }

  lemma {:induction false} AddHashesKeeps(words: seq<bv64>, bits: nat, key: nat, n: nat, m: nat)
    requires bits > 0 && |words| * 64 == bits && m < bits && BitSet(words, m)
    ensures BitSet(AddHashes(words, bits, key, n), m)
  {
    hide Hash, BitSet, SetBit;
    if n > 0 {
      AddHashesKeeps(words, bits, key, n - 1, m);
      SetBitFacts(AddHashes(words, bits, key, n - 1), Hash(key, n - 1, bits), m);
    }
  }

  lemma {:induction false} AddHashesSets(words: seq<bv64>, bits: nat, key: nat, n: nat, h: nat)
    requires bits > 0 && |words| * 64 == bits && h < n
    ensures BitSet(AddHashes(words, bits, key, n), Hash(key, h, bits))
  {
    hide Hash, BitSet, SetBit;
    SetBitFacts(AddHashes(words, bits, key, n - 1), Hash(key, n - 1, bits), Hash(key, h, bits));
    if h < n - 1 {
      AddHashesSets(words, bits, key, n - 1, h);
    }
  }

  lemma {:induction false} AddRecordsSets(words: seq<bv64>, bits: nat, hashes: nat, rs: seq<Record>, n: nat, i: nat,
                                          h: nat)
    requires bits > 0 && |words| * 64 == bits && i < n <= |rs| && h < hashes
    ensures BitSet(AddRecords(words, bits, hashes, rs, n), Hash(rs[i].key, h, bits))
  {
    hide Hash, BitSet, SetBit;
    var before := AddRecords(words, bits, hashes, rs, n - 1);
    if i == n - 1 {
      AddHashesSets(before, bits, rs[i].key, hashes, h);
    } else {
      AddRecordsSets(words, bits, hashes, rs, n - 1, i, h);
      AddHashesKeeps(before, bits, rs[n - 1].key, hashes, Hash(rs[i].key, h, bits));
    }
  }

  /** No false negatives: the filter built for a table passes every key of the table. */
  lemma NoFalseNegatives(rs: seq<Record>, bitsPerKey: nat, r: Record)
    requires r in rs
    ensures MayContain(BuildFilter(rs, bitsPerKey), r.key)
  {
    hide Hash, BitSet, SetBit;
    ChosenBits(|rs|, bitsPerKey);
    var bits := ChooseBits(|rs|, bitsPerKey);
    var bloom := BuildFilter(rs, bitsPerKey);
    var i :| 0 <= i < |rs| && rs[i] == r;
    forall h | 0 <= h < bloom.hashes
      ensures BitSet(bloom.words, Hash(r.key, h, bits))
    {
      AddRecordsSets(seq(bits / 64, _ => 0), bits, bloom.hashes, rs, |rs|, i, h);
    }
  }

  lemma {:induction false} AddHashesElsewhere(words: seq<bv64>, bits: nat, key: nat, n: nat, w: nat)
    requires bits > 0 && |words| * 64 == bits && w < |words|
    requires forall h :: 0 <= h < n ==> Hash(key, h, bits) / 64 != w
    ensures AddHashes(words, bits, key, n)[w] == words[w]
  {
    hide Hash, With, Bit;
    if n > 0 { AddHashesElsewhere(words, bits, key, n - 1, w); }
  }

  lemma {:induction false} AddRecordsElsewhere(words: seq<bv64>, bits: nat, hashes: nat, rs: seq<Record>, n: nat,
                                               w: nat)
    requires bits > 0 && |words| * 64 == bits && n <= |rs| && w < |words|
    requires forall i, h :: 0 <= i < |rs| && 0 <= h < hashes ==> Hash(rs[i].key, h, bits) / 64 != w
    ensures AddRecords(words, bits, hashes, rs, n)[w] == words[w]
  {
    hide Hash, AddHashes;
    if n > 0 {
      AddRecordsElsewhere(words, bits, hashes, rs, n - 1, w);
      AddHashesElsewhere(AddRecords(words, bits, hashes, rs, n - 1), bits, rs[n - 1].key, hashes, w);
    }
  }

  /** No hash of a key of the table falls into the word. */
  ghost predicate WordUnused(f: Bloom, rs: seq<Record>, w: nat)
    requires f.bits > 0
  {
    forall i, h :: 0 <= i < |rs| && 0 <= h < f.hashes ==> Hash(rs[i].key, h, f.bits) / 64 != w
  }

  /** A filter has three to seven hashes, and it refuses a key one of whose hashes falls into an unused word. */
  lemma FilterRefuses(rs: seq<Record>, bitsPerKey: nat, key: nat, h: nat)
    requires h < BuildFilter(rs, bitsPerKey).hashes
    ensures var f := BuildFilter(rs, bitsPerKey);
            && 3 <= f.hashes <= 7 && f.bits > 0
            && (WordUnused(f, rs, Hash(key, h, f.bits) / 64) ==> !MayContain(f, key))
  {
    hide Hash, AddRecords, Bit;
    ChosenBits(|rs|, bitsPerKey);
    var f := BuildFilter(rs, bitsPerKey);
    var w := Hash(key, h, f.bits) / 64;
    if WordUnused(f, rs, w) {
      AddRecordsElsewhere(seq(f.bits / 64, _ => 0), f.bits, f.hashes, rs, |rs|, w);
      assert f.words[w] == 0;
      ZeroHasNone(Bit(Hash(key, h, f.bits) % 64));
    }
  }

  lemma ZeroHasNone(bit: bv64)
    ensures !Has(0, bit)
  {
  }

  method SetInPlace(words: array<bv64>, n: nat)
    requires n / 64 < words.Length
    modifies words
    ensures words[..] == SetBit(old(words[..]), n)
  {
    hide Bit;
    words[n / 64] := With(words[n / 64], Bit(n % 64));
  }

  /** imr_lsm_bloom_add: the bits of one key. */
  method AddInPlace(words: array<bv64>, bits: nat, hashes: nat, key: nat)
    requires bits > 0 && words.Length * 64 == bits
    modifies words
    ensures words[..] == AddHashes(old(words[..]), bits, key, hashes)
  {
    hide Hash, SetBit;
    ghost var before := words[..];
    var h := 0;
    while h < hashes
      invariant h <= hashes
      invariant words[..] == AddHashes(before, bits, key, h)
    {
      var bit := Hash(key, h, bits);
      SetInPlace(words, bit);
      h := h + 1;
    }
  }

  /** imr_lsm_segment_build_bloom: bits are set in place in the word array. */
  method Build(rs: seq<Record>, bitsPerKey: nat) returns (bloom: Bloom)
    ensures bloom == BuildFilter(rs, bitsPerKey)
  {
    hide Hash, SetBit, ChooseBits, ChooseHashes, AddHashes;
    ChosenBits(|rs|, bitsPerKey);
    var bits := ChooseBits(|rs|, bitsPerKey);
    var hashes := ChooseHashes(if |rs| > 0 then Max(1, bits / |rs|) else bitsPerKey);
    var words := new bv64[bits / 64](_ => 0);
    ghost var empty := seq(bits / 64, _ => 0 as bv64);
    assert words[..] == empty;
    var i := 0;
    while i < |rs|
      invariant i <= |rs|
      invariant words[..] == AddRecords(empty, bits, hashes, rs, i)
    {
      AddInPlace(words, bits, hashes, rs[i].key);
      i := i + 1;
    }
    bloom := Bloom(|rs|, bits, hashes, words[..]);
  }

  /** imr_lsm_bloom_may_contain. */
  method Test(bloom: Bloom, key: nat) returns (maybe: bool)
    requires bloom.bits == |bloom.words| * 64
    ensures maybe == MayContain(bloom, key)
  {
    hide Hash, BitSet;
    if |bloom.words| == 0 || bloom.bits == 0 || bloom.hashes == 0 {
      return true;
    }
    var h := 0;
    while h < bloom.hashes
      invariant h <= bloom.hashes
      invariant forall g :: 0 <= g < h ==>
                  var n := Hash(key, g, bloom.bits); n / 64 < |bloom.words| && BitSet(bloom.words, n)
    {
      var bit := Hash(key, h, bloom.bits);
      if !BitSet(bloom.words, bit) {
        return false;
      }
      h := h + 1;
    }
    return true;
  }
}
