/** The secrets of XXH3: the built-in one, and the one made from a seed. */
module Xxh3Secret {
  import opened Xxh3Words
  import opened Xxh3Short

  /** XXH3_kSecret, in little-endian words. */
  function KSecret(): (s: seq<Byte>)
    ensures |s| == 192
  {
    KWords0() + KWords1() + KWords2() + KWords3() + KWords4() + KWords5()
  }

  function KWords0(): (s: seq<Byte>)
    ensures |s| == 32
  {
    Bytes64(0xBE4B_A423_396C_FEB8) + Bytes64(0x1CAD_21F7_2C81_017C)
    + Bytes64(0xDB97_9083_E96D_D4DE) + Bytes64(0x1F67_B3B7_A4A4_4072)
  }

  function KWords1(): (s: seq<Byte>)
    ensures |s| == 32
  {
    Bytes64(0x78E5_C0CC_4EE6_79CB) + Bytes64(0x2172_FFCC_7DD0_5A82)
    + Bytes64(0x8E24_43F7_7446_08B8) + Bytes64(0x4C26_3A81_E690_35E0)
  }

  function KWords2(): (s: seq<Byte>)
    ensures |s| == 32
  {
    Bytes64(0xCB00_C391_BB52_283C) + Bytes64(0xA32E_531B_8B65_D088)
    + Bytes64(0x4EF9_0DA2_9748_6471) + Bytes64(0xD8AC_DEA9_46EF_1938)
  }

  function KWords3(): (s: seq<Byte>)
    ensures |s| == 32
  {
    Bytes64(0x3F34_9CE3_3F76_FAA8) + Bytes64(0x1D4F_0BC7_C7BB_DCF9)
    + Bytes64(0x3159_B4CD_4BE0_518A) + Bytes64(0x6473_78D9_C97E_9FC8)
  }

  function KWords4(): (s: seq<Byte>)
    ensures |s| == 32
  {
    Bytes64(0xC3EB_D334_83AC_C5EA) + Bytes64(0xEB63_13FA_FFA0_81C5)
    + Bytes64(0x49DA_F0B7_51DD_0D17) + Bytes64(0x9E68_D429_2655_16D3)
  }

  function KWords5(): (s: seq<Byte>)
    ensures |s| == 32
  {
    Bytes64(0xFCA1_477D_58BE_162B) + Bytes64(0xCE31_D07A_D1B8_F88F)
    + Bytes64(0x2804_1695_8F3A_CB45) + Bytes64(0x7E40_4BBB_CAFB_D7AF)
  }

  function LowerWord(seed: Word, i: nat): Word
    requires i < 12
  {
    ReadLE64(KSecret(), 16 * i) + seed
  }

  function UpperWord(seed: Word, i: nat): Word
    requires i < 12
  {
    ReadLE64(KSecret(), 16 * i + 8) - seed
  }

  /** The first n 16-byte segments of XXH3_initCustomSecret_scalar(): seed added to the lower word
      of each, and subtracted from the upper. */
  function Derived(seed: Word, n: nat): (s: seq<Byte>)
    requires n <= 12
    ensures |s| == 16 * n
  {
    if n == 0 then []
    else
      Derived(seed, n - 1) + Bytes64(LowerWord(seed, n - 1)) + Bytes64(UpperWord(seed, n - 1))
  }

  function CustomSecret(seed: Word): (s: seq<Byte>)
    ensures |s| == 192
  {
    Derived(seed, 12)
  }

  /** XXH_writeLE64() */
  method WriteLE64(a: array<Byte>, at: nat, w: Word)
    requires at + 8 <= a.Length
    modifies a
    ensures a[at..at + 8] == Bytes64(w)
    ensures forall j :: 0 <= j < at || at + 8 <= j < a.Length ==> a[j] == old(a[j])
  {
    hide Bytes64;
    var b := Bytes64(w);
    forall i | 0 <= i < 8 {
      a[at + i] := b[i];
    }
  }

  /** XXH3_initCustomSecret_scalar() */
  method InitCustomSecret(customSecret: array<Byte>, seed: Word)
    requires customSecret.Length == 192
    modifies customSecret
    ensures customSecret[..] == CustomSecret(seed)
  {
    hide LowerWord, UpperWord, Bytes64, CustomSecret, Derived;
    DerivedNone(seed);
    for i := 0 to 12
      invariant customSecret[..16 * i] == Derived(seed, i)
    {
      WriteSegment(customSecret, 16 * i, LowerWord(seed, i), UpperWord(seed, i));
      DerivedStep(seed, i);
    }
    assert customSecret[..] == customSecret[..192];
    WholeSecret(seed);
  }

  /** The two words of a segment, after what has been written. */
  method WriteSegment(a: array<Byte>, at: nat, lo: Word, hi: Word)
    requires at + 16 <= a.Length
    modifies a
    ensures a[..at + 16] == old(a[..at]) + (Bytes64(lo) + Bytes64(hi))
  {
    hide Bytes64;
    ghost var before := a[..at];
    WriteLE64(a, at, lo);
    assert a[at..at + 8] == Bytes64(lo);
    WriteLE64(a, at + 8, hi);
    assert a[..at] == before;
    assert a[at..at + 8] == Bytes64(lo);
    SplitAt(a[..], at);
    assert a[..at + 16] == a[..][..at + 16];
  }

  lemma DerivedNone(seed: Word)
    ensures Derived(seed, 0) == []
  {
  }

  lemma DerivedStep(seed: Word, i: nat)
    requires i < 12
    ensures Derived(seed, i + 1) == Derived(seed, i) + (Bytes64(LowerWord(seed, i)) + Bytes64(UpperWord(seed, i)))
  {
    hide Bytes64, LowerWord, UpperWord;
  }

  lemma SplitAt(s: seq<Byte>, k: nat)
    requires k + 16 <= |s|
    ensures s[..k + 16] == s[..k] + s[k..k + 8] + s[k + 8..k + 16]
  {
  }

  lemma WholeSecret(seed: Word)
    ensures CustomSecret(seed) == Derived(seed, 12)
  {
    hide Derived;
  }
}
