/** The portable branch of XXH_mult64to128(), on machine words: both words of the product come from
    four 32-bit products. The hashes take the lower word as the 64-bit product; it is the same. */
module Xxh3Portable {
  import opened Xxh3Words
  import opened Xxh3Short
  import Xxh3Mid
  import opened Xxh3Vector

  function Cross(loLo: Word, hiLo: Word, loHi: Word): Word {
    (loLo >> 32) + (hiLo & 0xFFFF_FFFF) + loHi
  }

  function Lower(cross: Word, loLo: Word): Word {
    (cross << 32) | (loLo & 0xFFFF_FFFF)
  }

  /** XXH_mult64to128() */
  function Mult64to128(l: Word, r: Word): Hash128 {
    var loLo := Product(LowerHalf(l), LowerHalf(r));
    var hiLo := Product(HalfOf(l), LowerHalf(r));
    var loHi := Product(LowerHalf(l), HalfOf(r));
    Hash128(Lower(Cross(loLo, hiLo, loHi), loLo), MulHigh(l, r))
  }

  // ----- the lower word -----

  /** a + 2^32 * (b + c) */
  function Columns(a: Word, b: Word, c: Word): Word {
    a + b * 0x1_0000_0000 + c * 0x1_0000_0000
  }

  function Sum3(x: Word, y: Word, z: Word): Word {
    x + y + z
  }

  lemma LowerMeans(cross: Word, loLo: Word)
    ensures Lower(cross, loLo) == FromHalves(LowerHalf(loLo), cross)
  {
    assert FromHalves(loLo & 0xFFFF_FFFF, cross) == (cross << 32) | (loLo & 0xFFFF_FFFF);
  }

  lemma CrossMeans(a: Word, b: Word, c: Word)
    ensures Cross(a, b, c) == Sum3(HalfOf(a), LowerHalf(b), c)
  {
    assert Sum3(a >> 32, b & 0xFFFF_FFFF, c) == (a >> 32) + (b & 0xFFFF_FFFF) + c;
  }

  lemma SumUp(x: Word, p: Word, q: Word, c: Word)
    ensures FromHalves(x, Sum3(p, q, c)) == Columns(FromHalves(x, p), q, c)
  {
    assert Sum3(p, q, c) == p + q + c;
    assert FromHalves(x, p) == x + p * 0x1_0000_0000;
    SumsUp(x, p, q, c);
    hide Sum3, FromHalves, Columns;
  }

  lemma SumsUp(x: Word, p: Word, q: Word, c: Word)
    ensures FromHalves(x, p + q + c) == Columns(x + p * 0x1_0000_0000, q, c)
  {
  }

  function Up(x: Word): Word {
    x * 0x1_0000_0000
  }

  lemma ColumnsMean(a: Word, b: Word, c: Word)
    ensures Columns(a, b, c) == Sum3(a, Up(b), Up(c))
  {
    assert Sum3(a, b * 0x1_0000_0000, c * 0x1_0000_0000) == Columns(a, b, c);
  }

  /** The upper half of b has no part in the sum. */
  lemma UpperLost(a: Word, b: Word, c: Word)
    ensures Columns(a, LowerHalf(b), c) == Columns(a, b, c)
  {
    ColumnsMean(a, b, c);
    ColumnsMean(a, LowerHalf(b), c);
    UpperMasked(b);
    hide LowerHalf, Columns, Sum3, Up;
  }

  lemma UpperMasked(b: Word)
    ensures Up(LowerHalf(b)) == Up(b)
  {
    assert Up(b & 0xFFFF_FFFF) == Up(b);
  }

  /** What the portable branch adds up. */
  lemma LowerSum(a: Word, b: Word, c: Word)
    ensures Lower(Cross(a, b, c), a) == Columns(a, b, c)
  {
    hide Lower, Cross, Columns, Sum3, FromHalves, LowerHalf, HalfOf;
    LowerMeans(Cross(a, b, c), a);
    CrossMeans(a, b, c);
    SumUp(LowerHalf(a), HalfOf(a), LowerHalf(b), c);
    HalvesOfWord(a);
    UpperLost(a, b, c);
  }

  /** What the product of two words is, from their halves. */
  lemma ProductOfHalved(ll: Word, lh: Word, rl: Word, rh: Word)
    ensures Product(FromHalves(ll, lh), FromHalves(rl, rh)) ==
            Columns(Product(ll, rl), Product(lh, rl), Product(ll, rh))
  {
    assert FromHalves(ll, lh) == ll + lh * 0x1_0000_0000;
    assert FromHalves(rl, rh) == rl + rh * 0x1_0000_0000;
    ProductMeans(ll, rl);
    ProductMeans(lh, rl);
    ProductMeans(ll, rh);
    Expanded(ll, lh, rl, rh);
    hide Product, FromHalves, Columns;
  }

  lemma ProductMeans(x: Word, y: Word)
    ensures Product(x, y) == x * y
  {
  }

  lemma Expanded(ll: Word, lh: Word, rl: Word, rh: Word)
    ensures Product(ll + lh * 0x1_0000_0000, rl + rh * 0x1_0000_0000) == Columns(ll * rl, lh * rl, ll * rh)
  {
  }

  /** The lower word of the portable branch is the 64-bit product, for all words. */
  lemma LowerIsProduct(l: Word, r: Word)
    ensures Mult64to128(l, r) == Hash128(Product(l, r), MulHigh(l, r))
  {
    hide Lower, Cross, Columns, FromHalves, LowerHalf, HalfOf, Product, MulHigh;
    var ll, lh, rl, rh := LowerHalf(l), HalfOf(l), LowerHalf(r), HalfOf(r);
    LowerSum(Product(ll, rl), Product(lh, rl), Product(ll, rh));
    ProductOfHalved(ll, lh, rl, rh);
    HalvesOfWord(l);
    HalvesOfWord(r);
  }

  // ----- the hashes -----

  /** XXH3_mul128_fold64(), in its portable branch. */
  function Fold64Portable(l: Word, r: Word): Word {
    var m := Mult64to128(l, r);
    Xor(m.low64, m.high64)
  }

  lemma FoldsAgree(l: Word, r: Word)
    ensures Fold64Portable(l, r) == Xxh3Mid.Fold64(l, r)
  {
    LowerIsProduct(l, r);
    hide Mult64to128, Xor, Product, MulHigh;
  }

  /** XXH3_len_4to8_128b(), with the portable product. */
  function Len4to8Portable(input: seq<Byte>, secret: Secret, seed: Word): Hash128
    requires 4 <= |input| <= 8
  {
    var len := |input|;
    var keyed := Xor(Join64(ReadLE32(input, 0), ReadLE32(input, len - 4)), Flip4(secret, seed));
    var m := Mult64to128(keyed, LenFactor(len));
    var high := Plus(m.high64, Double(m.low64));
    Hash128(XorShift28(TimesMix2(XorShift35(Fold3(m.low64, high)))), Avalanche3(high))
  }

  /** XXH3_len_9to16_128b(), with the portable product. */
  function Len9to16Portable(input: seq<Byte>, secret: Secret, seed: Word): Hash128
    requires 9 <= |input| <= 16
  {
    var len := |input|;
    var lo, hi := ReadLE64(input, 0), ReadLE64(input, len - 8);
    var m := Mult64to128(Xor(Xor(lo, hi), Flip9Low(secret, seed)), 0x9E3779B185EBCA87);
    var high := Plus(m.high64, Spread(Xor(hi, Flip9High(secret, seed))));
    var low := Xor(Plus(m.low64, LenInMiddle(len)), Swap64(high));
    var h := Mult64to128(low, 0xC2B2AE3D27D4EB4F);
    Hash128(Avalanche3(h.low64), Avalanche3(Plus(h.high64, TimesPrime2(high))))
  }

  /** The short hashes are those of the portable branch. */
  lemma ShortAgree(input: seq<Byte>, secret: Secret, seed: Word)
    ensures 4 <= |input| <= 8 ==> Len4to8Portable(input, secret, seed) == Len4to8(input, secret, seed)
    ensures 9 <= |input| <= 16 ==> Len9to16Portable(input, secret, seed) == Len9to16(input, secret, seed)
  {
    if 4 <= |input| <= 8 {
      Short4Agree(input, secret, seed);
    } else if 9 <= |input| <= 16 {
      Short9Agree(input, secret, seed);
    }
    hide Len4to8Portable, Len9to16Portable, Len4to8, Len9to16;
  }

  lemma Short4Agree(input: seq<Byte>, secret: Secret, seed: Word)
    requires 4 <= |input| <= 8
    ensures Len4to8Portable(input, secret, seed) == Len4to8(input, secret, seed)
  {
    hide Xor, Join64, ReadLE32, Flip4, LenFactor, Product, MulHigh, Mult64to128, Plus, Double, Fold3;
    hide XorShift28, TimesMix2, XorShift35, Avalanche3;
    var len := |input|;
    LowerIsProduct(Xor(Join64(ReadLE32(input, 0), ReadLE32(input, len - 4)), Flip4(secret, seed)), LenFactor(len));
  }

  lemma Short9Agree(input: seq<Byte>, secret: Secret, seed: Word)
    requires 9 <= |input| <= 16
    ensures Len9to16Portable(input, secret, seed) == Len9to16(input, secret, seed)
  {
    hide Xor, ReadLE64, Flip9Low, Flip9High, Product, MulHigh, Mult64to128, Plus, Spread, Swap64, LenInMiddle;
    hide TimesPrime1, TimesPrime2, Avalanche3;
    var lo, hi := ReadLE64(input, 0), ReadLE64(input, |input| - 8);
    var x := Xor(Xor(lo, hi), Flip9Low(secret, seed));
    var high := Plus(MulHigh(x, 0x9E3779B185EBCA87), Spread(Xor(hi, Flip9High(secret, seed))));
    LowerIsProduct(x, 0x9E3779B185EBCA87);
    Prime1Factor(x);
    var low := Xor(Plus(TimesPrime1(x), LenInMiddle(|input|)), Swap64(high));
    LowerIsProduct(low, 0xC2B2AE3D27D4EB4F);
    Prime2Factor(low);
  }

  lemma Prime1Factor(x: Word)
    ensures Product(x, 0x9E3779B185EBCA87) == TimesPrime1(x)
  {
  }

  lemma Prime2Factor(x: Word)
    ensures Product(x, 0xC2B2AE3D27D4EB4F) == TimesPrime2(x)
  {
  }
}
