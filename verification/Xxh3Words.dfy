/** 64-bit words of include/hatrack/xxhash.h: the mixing steps, and that none of them loses
    anything. Each step is a function of its own with the constant written in, and comes with the
    step that undoes it. */
module Xxh3Words {

  type Byte = bv8
  type Word = bv64

  datatype Hash128 = Hash128(low64: Word, high64: Word)

  // ----- x ^ (x >> k) -----

  function XorShift28(x: Word): Word {
    x ^ (x >> 28)
  }

  function UnXorShift28(x: Word): Word {
    x ^ (x >> 28) ^ (x >> 56)
  }

  lemma XorShift28Back(x: Word)
    ensures UnXorShift28(XorShift28(x)) == x
  {
    Shifted28(x);
    assert XorShift28(x) == x ^ (x >> 28);
  }

  lemma Shifted28(x: Word)
    ensures UnXorShift28(x ^ (x >> 28)) == x
  {
  }

  function XorShift29(x: Word): Word {
    x ^ (x >> 29)
  }

  function UnXorShift29(x: Word): Word {
    x ^ (x >> 29) ^ (x >> 58)
  }

  lemma XorShift29Back(x: Word)
    ensures UnXorShift29(XorShift29(x)) == x
  {
    Shifted29(x);
    assert XorShift29(x) == x ^ (x >> 29);
  }

  lemma Shifted29(x: Word)
    ensures UnXorShift29(x ^ (x >> 29)) == x
  {
  }

  function XorShift32(x: Word): Word {
    x ^ (x >> 32)
  }

  lemma XorShift32Back(x: Word)
    ensures XorShift32(XorShift32(x)) == x
  {
    Shifted32(x);
    assert XorShift32(x) == x ^ (x >> 32);
  }

  lemma Shifted32(x: Word)
    ensures XorShift32(x ^ (x >> 32)) == x
  {
  }

  function XorShift33(x: Word): Word {
    x ^ (x >> 33)
  }

  lemma XorShift33Back(x: Word)
    ensures XorShift33(XorShift33(x)) == x
  {
    Shifted33(x);
    assert XorShift33(x) == x ^ (x >> 33);
  }

  lemma Shifted33(x: Word)
    ensures XorShift33(x ^ (x >> 33)) == x
  {
  }

  function XorShift35(x: Word): Word {
    x ^ (x >> 35)
  }

  lemma XorShift35Back(x: Word)
    ensures XorShift35(XorShift35(x)) == x
  {
    Shifted35(x);
    assert XorShift35(x) == x ^ (x >> 35);
  }

  lemma Shifted35(x: Word)
    ensures XorShift35(x ^ (x >> 35)) == x
  {
  }

  function XorShift37(x: Word): Word {
    x ^ (x >> 37)
  }

  lemma XorShift37Back(x: Word)
    ensures XorShift37(XorShift37(x)) == x
  {
    Shifted37(x);
    assert XorShift37(x) == x ^ (x >> 37);
  }

  lemma Shifted37(x: Word)
    ensures XorShift37(x ^ (x >> 37)) == x
  {
  }

  // ----- multiplication by an odd constant -----

  /** XXH_PRIME64_1 */
  function TimesPrime1(x: Word): Word {
    x * 0x9E3779B185EBCA87
  }

  function UnPrime1(x: Word): Word {
    x * 0x0887493432BADB37
  }

  lemma Prime1Back(x: Word)
    ensures UnPrime1(TimesPrime1(x)) == x
  {
    Prime1Multiplied(x);
    assert TimesPrime1(x) == x * 0x9E3779B185EBCA87;
  }

  lemma Prime1Multiplied(x: Word)
    ensures UnPrime1(x * 0x9E3779B185EBCA87) == x
  {
  }

  /** XXH_PRIME64_2 */
  function TimesPrime2(x: Word): Word {
    x * 0xC2B2AE3D27D4EB4F
  }

  function UnPrime2(x: Word): Word {
    x * 0x0BA79078168D4BAF
  }

  lemma Prime2Back(x: Word)
    ensures UnPrime2(TimesPrime2(x)) == x
  {
    Prime2Multiplied(x);
    assert TimesPrime2(x) == x * 0xC2B2AE3D27D4EB4F;
  }

  lemma Prime2Multiplied(x: Word)
    ensures UnPrime2(x * 0xC2B2AE3D27D4EB4F) == x
  {
  }

  /** XXH_PRIME64_3 */
  function TimesPrime3(x: Word): Word {
    x * 0x165667B19E3779F9
  }

  function UnPrime3(x: Word): Word {
    x * 0xE9E9F4C41D6DF849
  }

  lemma Prime3Back(x: Word)
    ensures UnPrime3(TimesPrime3(x)) == x
  {
    Prime3Multiplied(x);
    assert TimesPrime3(x) == x * 0x165667B19E3779F9;
  }

  lemma Prime3Multiplied(x: Word)
    ensures UnPrime3(x * 0x165667B19E3779F9) == x
  {
  }

  /** the multiplier of XXH3_avalanche() */
  function TimesMix1(x: Word): Word {
    x * 0x165667919E3779F9
  }

  function UnMix1(x: Word): Word {
    x * 0x08DA8EE41D6DF849
  }

  lemma Mix1Back(x: Word)
    ensures UnMix1(TimesMix1(x)) == x
  {
    Mix1Multiplied(x);
    assert TimesMix1(x) == x * 0x165667919E3779F9;
  }

  lemma Mix1Multiplied(x: Word)
    ensures UnMix1(x * 0x165667919E3779F9) == x
  {
  }

  /** the multiplier of the 4-to-8-byte hash */
  function TimesMix2(x: Word): Word {
    x * 0x9FB21C651E98DF25
  }

  function UnMix2(x: Word): Word {
    x * 0x02AB9C720D1024AD
  }

  lemma Mix2Back(x: Word)
    ensures UnMix2(TimesMix2(x)) == x
  {
    Mix2Multiplied(x);
    assert TimesMix2(x) == x * 0x9FB21C651E98DF25;
  }

  lemma Mix2Multiplied(x: Word)
    ensures UnMix2(x * 0x9FB21C651E98DF25) == x
  {
  }

  // ----- avalanches -----

  /** XXH64_avalanche() */
  function Avalanche64(x: Word): Word {
    XorShift32(TimesPrime3(XorShift29(TimesPrime2(XorShift33(x)))))
  }

  function UnAvalanche64(x: Word): Word {
    XorShift33(UnPrime2(UnXorShift29(UnPrime3(XorShift32(x)))))
  }

  /** XXH3_avalanche() */
  function Avalanche3(x: Word): Word {
    XorShift32(TimesMix1(XorShift37(x)))
  }

  function UnAvalanche3(x: Word): Word {
    XorShift37(UnMix1(XorShift32(x)))
  }

  /** XXH64_avalanche() can be undone. */
  lemma Avalanche64Back(x: Word)
    ensures UnAvalanche64(Avalanche64(x)) == x
  {
    hide XorShift33, TimesPrime2, XorShift29, UnXorShift29, TimesPrime3, XorShift32, UnPrime2, UnPrime3;
    var a := XorShift33(x);
    var b := XorShift29(TimesPrime2(a));
    XorShift32Back(TimesPrime3(b));
    Prime3Back(b);
    XorShift29Back(TimesPrime2(a));
    Prime2Back(a);
    XorShift33Back(x);
  }

  /** XXH3_avalanche() can be undone. */
  lemma Avalanche3Back(x: Word)
    ensures UnAvalanche3(Avalanche3(x)) == x
  {
    hide XorShift32, XorShift37, TimesMix1, UnMix1;
    var a := XorShift37(x);
    XorShift32Back(TimesMix1(a));
    Mix1Back(a);
    XorShift37Back(x);
  }
}
