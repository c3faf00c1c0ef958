/** XXH3_128bits on keys of at most 16 bytes (include/hatrack/xxhash.h), and the proof that it
    forgets nothing: from the hash, the length, the secret and the seed the key can be computed
    back. The table of include/hatrack/hatrack_common.h, which takes equal hashes for equal keys,
    is right to do so for integers, doubles and pointers. */
module Xxh3Short {
  import opened Xxh3Words

  type Secret = s: seq<Byte> | |s| >= 136 witness seq(136, i => 0)

  // ----- reading and writing little-endian words -----

  function Join32(a: Byte, b: Byte, c: Byte, d: Byte): bv32 {
    (a as bv32) | ((b as bv32) << 8) | ((c as bv32) << 16) | ((d as bv32) << 24)
  }

  function Bytes32(w: bv32): (s: seq<Byte>)
    ensures |s| == 4
  {
    [(w & 0xFF) as Byte, ((w >> 8) & 0xFF) as Byte, ((w >> 16) & 0xFF) as Byte, (w >> 24) as Byte]
  }

  function Join64(lo: bv32, hi: bv32): Word {
    (lo as Word) + ((hi as Word) << 32)
  }

  function Low32(w: Word): bv32 {
    (w & 0xFFFF_FFFF) as bv32
  }

  function High32(w: Word): bv32 {
    (w >> 32) as bv32
  }

  function Bytes64(w: Word): (s: seq<Byte>)
    ensures |s| == 8
  {
    Bytes32(Low32(w)) + Bytes32(High32(w))
  }

  /** XXH_readLE32() */
  function ReadLE32(s: seq<Byte>, i: nat): bv32
    requires i + 4 <= |s|
  {
    Join32(s[i], s[i + 1], s[i + 2], s[i + 3])
  }

  /** XXH_readLE64() */
  function ReadLE64(s: seq<Byte>, i: nat): Word
    requires i + 8 <= |s|
  {
    Join64(ReadLE32(s, i), ReadLE32(s, i + 4))
  }

  lemma Join32Back(a: Byte, b: Byte, c: Byte, d: Byte)
    ensures Bytes32(Join32(a, b, c, d)) == [a, b, c, d]
  {
    assert Bytes32((a as bv32) | ((b as bv32) << 8) | ((c as bv32) << 16) | ((d as bv32) << 24)) == [a, b, c, d];
  }

  lemma Join64Back(lo: bv32, hi: bv32)
    ensures Low32(Join64(lo, hi)) == lo && High32(Join64(lo, hi)) == hi
  {
    assert Low32((lo as Word) + ((hi as Word) << 32)) == lo;
    assert High32((lo as Word) + ((hi as Word) << 32)) == hi;
  }

  lemma Bytes32Back(s: seq<Byte>, i: nat)
    requires i + 4 <= |s|
    ensures Bytes32(ReadLE32(s, i)) == s[i..i + 4]
  {
    hide Bytes32, Join32;
    Join32Back(s[i], s[i + 1], s[i + 2], s[i + 3]);
  }

  lemma Bytes64Back(s: seq<Byte>, i: nat)
    requires i + 8 <= |s|
    ensures Bytes64(ReadLE64(s, i)) == s[i..i + 8]
  {
    hide Bytes32, ReadLE32, Join64, Low32, High32;
    Join64Back(ReadLE32(s, i), ReadLE32(s, i + 4));
    Bytes32Back(s, i);
    Bytes32Back(s, i + 4);
  }

  // ----- the pieces -----

  /** XXH_swap32() */
  function Swap32(w: bv32): bv32 {
    ((w << 24) & 0xFF00_0000) | ((w << 8) & 0x00FF_0000) | ((w >> 8) & 0x0000_FF00) | ((w >> 24) & 0x0000_00FF)
  }

  /** XXH_swap64() */
  function Swap64(w: Word): Word {
    ((Swap32(Low32(w)) as Word) << 32) | (Swap32(High32(w)) as Word)
  }

  function Rotl32(w: bv32, k: nat): bv32
    requires 0 < k < 32
  {
    (w << k) | (w >> (32 - k))
  }

  /** The upper half of XXH_mult64to128(), from the four 32-bit products. */
  function MulHigh(l: Word, r: Word): Word {
    var loLo := (l & 0xFFFF_FFFF) * (r & 0xFFFF_FFFF);
    var hiLo := (l >> 32) * (r & 0xFFFF_FFFF);
    var loHi := (l & 0xFFFF_FFFF) * (r >> 32);
    var hiHi := (l >> 32) * (r >> 32);
    var cross := (loLo >> 32) + (hiLo & 0xFFFF_FFFF) + loHi;
    (hiLo >> 32) + (cross >> 32) + hiHi
  }

  function Xor(x: Word, y: Word): Word {
    x ^ y
  }

  function Plus(x: Word, y: Word): Word {
    x + y
  }

  function Minus(x: Word, y: Word): Word {
    x - y
  }

  lemma XorBack(x: Word, y: Word)
    ensures Xor(Xor(x, y), y) == x
  {
    assert Xor(x ^ y, y) == x;
  }

  lemma PlusBack(x: Word, y: Word)
    ensures Minus(Plus(x, y), y) == x
  {
    assert Minus(x + y, y) == x;
  }

  lemma PlusBackLeft(x: Word, y: Word)
    ensures Minus(Plus(x, y), x) == y
  {
    assert Minus(x + y, x) == y;
  }

  // ----- 1 to 3 bytes -----

  function Combine(c1: Byte, c2: Byte, c3: Byte, len: bv32): bv32 {
    ((c1 as bv32) << 16) | ((c2 as bv32) << 24) | (c3 as bv32) | (len << 8)
  }

  function Widen(w: bv32): Word {
    w as Word
  }

  function SmallLen(len: nat): bv32
    requires 1 <= len <= 3
  {
    if len == 1 then 1 else if len == 2 then 2 else 3
  }

  /** bitflipl */
  function Flip1Low(secret: Secret, seed: Word): Word {
    Widen(ReadLE32(secret, 0) ^ ReadLE32(secret, 4)) + seed
  }

  function Flip1High(secret: Secret, seed: Word): Word {
    Widen(ReadLE32(secret, 8) ^ ReadLE32(secret, 12)) - seed
  }

  /** XXH3_len_1to3_128b() */
  function Len1to3(input: seq<Byte>, secret: Secret, seed: Word): Hash128
    requires 1 <= |input| <= 3
  {
    var len := |input|;
    var combined := Combine(input[0], input[len / 2], input[len - 1], SmallLen(len));
    Hash128(Avalanche64(Xor(Widen(combined), Flip1Low(secret, seed))),
            Avalanche64(Xor(Widen(Rotl32(Swap32(combined), 13)), Flip1High(secret, seed))))
  }

  function UnLen1to3(h: Hash128, len: nat, secret: Secret, seed: Word): seq<Byte>
    requires 1 <= len <= 3
  {
    var b := Bytes32(Low32(Xor(UnAvalanche64(h.low64), Flip1Low(secret, seed))));
    if len == 1 then [b[0]] else if len == 2 then [b[2], b[0]] else [b[2], b[3], b[0]]
  }

  lemma WidenBack(w: bv32)
    ensures Low32(Widen(w)) == w
  {
    assert Low32(w as Word) == w;
  }

  lemma CombineBack(c1: Byte, c2: Byte, c3: Byte, len: nat)
    requires 1 <= len <= 3
    ensures var b := Bytes32(Combine(c1, c2, c3, SmallLen(len))); b[0] == c3 && b[2] == c1 && b[3] == c2
  {
    if len == 1 {
      CombineBytes(c1, c2, c3, 1);
    } else if len == 2 {
      CombineBytes(c1, c2, c3, 2);
    } else {
      CombineBytes(c1, c2, c3, 3);
    }
  }

  lemma CombineBytes(c1: Byte, c2: Byte, c3: Byte, len: Byte)
    ensures var b := Bytes32(Combine(c1, c2, c3, len as bv32)); b[0] == c3 && b[2] == c1 && b[3] == c2
  {
    assert var b := Bytes32(((c1 as bv32) << 16) | ((c2 as bv32) << 24) | (c3 as bv32) | ((len as bv32) << 8));
           b[0] == c3 && b[2] == c1 && b[3] == c2;
  }

  lemma Len1to3Back(input: seq<Byte>, secret: Secret, seed: Word)
    requires 1 <= |input| <= 3
    ensures UnLen1to3(Len1to3(input, secret, seed), |input|, secret, seed) == input
  {
    hide Avalanche64, UnAvalanche64, Xor, Widen, Low32, Bytes32, Combine, SmallLen, Flip1Low, Flip1High, Swap32, Rotl32;
    var len := |input|;
    var combined := Combine(input[0], input[len / 2], input[len - 1], SmallLen(len));
    Avalanche64Back(Xor(Widen(combined), Flip1Low(secret, seed)));
    XorBack(Widen(combined), Flip1Low(secret, seed));
    WidenBack(combined);
    CombineBack(input[0], input[len / 2], input[len - 1], len);
  }

  // ----- 4 to 8 bytes -----

  /** The low half of the product by XXH_PRIME64_1 + (len << 2). */
  function TimesLen(x: Word, len: nat): Word
    requires 4 <= len <= 8
  {
    if len == 4 then Times4(x) else if len == 5 then Times5(x) else if len == 6 then Times6(x)
    else if len == 7 then Times7(x) else Times8(x)
  }

  function UnLen(x: Word, len: nat): Word
    requires 4 <= len <= 8
  {
    if len == 4 then Un4(x) else if len == 5 then Un5(x) else if len == 6 then Un6(x)
    else if len == 7 then Un7(x) else Un8(x)
  }

  /** XXH_PRIME64_1 + (len << 2) */
  function LenFactor(len: nat): Word
    requires 4 <= len <= 8
  {
    if len == 4 then 0x9E3779B185EBCA87 + (4 << 2)
    else if len == 5 then 0x9E3779B185EBCA87 + (5 << 2)
    else if len == 6 then 0x9E3779B185EBCA87 + (6 << 2)
    else if len == 7 then 0x9E3779B185EBCA87 + (7 << 2)
    else 0x9E3779B185EBCA87 + (8 << 2)
  }

  function Times4(x: Word): Word {
    x * 0x9E3779B185EBCA97
  }

  function Un4(x: Word): Word {
    x * 0xC58FC94211B05527
  }

  lemma Times4Back(x: Word)
    ensures Un4(Times4(x)) == x
  {
    Multiplied4(x);
    assert Times4(x) == x * 0x9E3779B185EBCA97;
  }

  lemma Multiplied4(x: Word)
    ensures Un4(x * 0x9E3779B185EBCA97) == x
  {
  }

  function Times5(x: Word): Word {
    x * 0x9E3779B185EBCA9B
  }

  function Un5(x: Word): Word {
    x * 0xF3655C2B3B120B93
  }

  lemma Times5Back(x: Word)
    ensures Un5(Times5(x)) == x
  {
    Multiplied5(x);
    assert Times5(x) == x * 0x9E3779B185EBCA9B;
  }

  lemma Multiplied5(x: Word)
    ensures Un5(x * 0x9E3779B185EBCA9B) == x
  {
  }

  function Times6(x: Word): Word {
    x * 0x9E3779B185EBCA9F
  }

  function Un6(x: Word): Word {
    x * 0x4A353FC06E6CD15F
  }

  lemma Times6Back(x: Word)
    ensures Un6(Times6(x)) == x
  {
    Multiplied6(x);
    assert Times6(x) == x * 0x9E3779B185EBCA9F;
  }

  lemma Multiplied6(x: Word)
    ensures Un6(x * 0x9E3779B185EBCA9F) == x
  {
  }

  function Times7(x: Word): Word {
    x * 0x9E3779B185EBCAA3
  }

  function Un7(x: Word): Word {
    x * 0x72A86F8FF240390B
  }

  lemma Times7Back(x: Word)
    ensures Un7(Times7(x)) == x
  {
    Multiplied7(x);
    assert Times7(x) == x * 0x9E3779B185EBCAA3;
  }

  lemma Multiplied7(x: Word)
    ensures Un7(x * 0x9E3779B185EBCAA3) == x
  {
  }

  function Times8(x: Word): Word {
    x * 0x9E3779B185EBCAA7
  }

  function Un8(x: Word): Word {
    x * 0x6261C8662F213D17
  }

  lemma Times8Back(x: Word)
    ensures Un8(Times8(x)) == x
  {
    Multiplied8(x);
    assert Times8(x) == x * 0x9E3779B185EBCAA7;
  }

  lemma Multiplied8(x: Word)
    ensures Un8(x * 0x9E3779B185EBCAA7) == x
  {
  }

  function Product(x: Word, y: Word): Word {
    x * y
  }

  /** The product with the factor for a length, one constant at a time. */
  lemma TimesLenFactor(x: Word, len: nat)
    requires 4 <= len <= 8
    ensures TimesLen(x, len) == Product(x, LenFactor(len))
  {
    assert Product(x, 0x9E3779B185EBCA87 + (4 << 2)) == Times4(x);
    assert Product(x, 0x9E3779B185EBCA87 + (5 << 2)) == Times5(x);
    assert Product(x, 0x9E3779B185EBCA87 + (6 << 2)) == Times6(x);
    assert Product(x, 0x9E3779B185EBCA87 + (7 << 2)) == Times7(x);
    assert Product(x, 0x9E3779B185EBCA87 + (8 << 2)) == Times8(x);
  }

  lemma TimesLenBack(x: Word, len: nat)
    requires 4 <= len <= 8
    ensures UnLen(TimesLen(x, len), len) == x
  {
    hide Times4, Times5, Times6, Times7, Times8, Un4, Un5, Un6, Un7, Un8;
    Times4Back(x);
    Times5Back(x);
    Times6Back(x);
    Times7Back(x);
    Times8Back(x);
  }

  /** seed ^= (xxh_u64)XXH_swap32((xxh_u32)seed) << 32 */
  function SwappedSeed(seed: Word): Word {
    seed ^ (Widen(Swap32(Low32(seed))) << 32)
  }

  function Flip4(secret: Secret, seed: Word): Word {
    (ReadLE64(secret, 16) ^ ReadLE64(secret, 24)) + SwappedSeed(seed)
  }

  /** low ^ (high >> 3) */
  function Fold3(low: Word, high: Word): Word {
    low ^ (high >> 3)
  }

  function Double(x: Word): Word {
    x << 1
  }

  /** XXH3_len_4to8_128b() */
  function Len4to8(input: seq<Byte>, secret: Secret, seed: Word): Hash128
    requires 4 <= |input| <= 8
  {
    var len := |input|;
    var keyed := Xor(Join64(ReadLE32(input, 0), ReadLE32(input, len - 4)), Flip4(secret, seed));
    var low := Product(keyed, LenFactor(len));
    var high := Plus(MulHigh(keyed, LenFactor(len)), Double(low));
    Hash128(XorShift28(TimesMix2(XorShift35(Fold3(low, high)))), Avalanche3(high))
  }

  function UnLen4to8(h: Hash128, len: nat, secret: Secret, seed: Word): seq<Byte>
    requires 4 <= len <= 8
  {
    var high := UnAvalanche3(h.high64);
    var low := Fold3(XorShift35(UnMix2(UnXorShift28(h.low64))), high);
    var w := Xor(UnLen(low, len), Flip4(secret, seed));
    Bytes32(Low32(w)) + Bytes32(High32(w))[8 - len..]
  }

  lemma Fold3Back(low: Word, high: Word)
    ensures Fold3(Fold3(low, high), high) == low
  {
    assert Fold3(low ^ (high >> 3), high) == low;
  }

  lemma Len4to8Back(input: seq<Byte>, secret: Secret, seed: Word)
    requires 4 <= |input| <= 8
    ensures UnLen4to8(Len4to8(input, secret, seed), |input|, secret, seed) == input
  {
    hide Xor, Join64, ReadLE32, Flip4, TimesLen, UnLen, Plus, MulHigh, LenFactor, Product, Double, Fold3, Bytes32,
         Low32, High32;
    hide XorShift28, UnXorShift28, TimesMix2, UnMix2, XorShift35, Avalanche3, UnAvalanche3;
    var len := |input|;
    var lo, hi := ReadLE32(input, 0), ReadLE32(input, len - 4);
    var keyed := Xor(Join64(lo, hi), Flip4(secret, seed));
    var low := TimesLen(keyed, len);
    TimesLenFactor(keyed, len);
    var high := Plus(MulHigh(keyed, LenFactor(len)), Double(low));
    Avalanche3Back(high);
    var f := Fold3(low, high);
    XorShift28Back(TimesMix2(XorShift35(f)));
    Mix2Back(XorShift35(f));
    XorShift35Back(f);
    Fold3Back(low, high);
    TimesLenBack(keyed, len);
    XorBack(Join64(lo, hi), Flip4(secret, seed));
    Join64Back(lo, hi);
    Bytes32Back(input, 0);
    Bytes32Back(input, len - 4);
    assert input[len - 4..len][8 - len..] == input[4..len];
  }

  // ----- 9 to 16 bytes -----

  function Flip9Low(secret: Secret, seed: Word): Word {
    (ReadLE64(secret, 32) ^ ReadLE64(secret, 40)) - seed
  }

  function Flip9High(secret: Secret, seed: Word): Word {
    (ReadLE64(secret, 48) ^ ReadLE64(secret, 56)) + seed
  }

  /** (len - 1) << 54 */
  function LenInMiddle(len: nat): Word
    requires 9 <= len <= 16
  {
    (if len == 9 then 8 else if len == 10 then 9 else if len == 11 then 10 else if len == 12 then 11
     else if len == 13 then 12 else if len == 14 then 13 else if len == 15 then 14 else 15 as Word) << 54
  }

  function LowerHalf(w: Word): Word {
    w & 0xFFFF_FFFF
  }

  function UpperHalf(w: Word): Word {
    w & 0xFFFF_FFFF_0000_0000
  }

  /** x + lo * (XXH_PRIME32_2 - 1) */
  function AddLess(x: Word, lo: Word): Word {
    x + lo * 0x85EB_CA76
  }

  /** x + lo * XXH_PRIME32_2 */
  function AddMore(x: Word, lo: Word): Word {
    x + lo * 0x85EB_CA77
  }

  /** What the 64-bit branch adds to the upper half. */
  function Spread(hi: Word): Word {
    AddLess(hi, LowerHalf(hi))
  }

  /** What the 32-bit branch adds. */
  function Spread32(hi: Word): Word {
    AddMore(UpperHalf(hi), LowerHalf(hi))
  }

  /** The two branches add the same. */
  lemma SpreadBranches(hi: Word)
    ensures Spread32(hi) == Spread(hi)
  {
    hide UpperHalf, LowerHalf, AddLess, AddMore, Plus, Minus;
    UpperByDifference(hi);
    AddByDifference(hi, LowerHalf(hi));
  }

  lemma UpperByDifference(w: Word)
    ensures UpperHalf(w) == Minus(w, LowerHalf(w))
  {
    HalvesAdd(w);
    hide UpperHalf, LowerHalf, Plus, Minus;
    PlusBack(UpperHalf(w), LowerHalf(w));
  }

  lemma HalvesAdd(w: Word)
    ensures Plus(UpperHalf(w), LowerHalf(w)) == w
  {
    assert Plus(w & 0xFFFF_FFFF_0000_0000, w & 0xFFFF_FFFF) == w;
  }

  lemma AddByDifference(x: Word, lo: Word)
    ensures AddMore(Minus(x, lo), lo) == AddLess(x, lo)
  {
    assert AddMore(x - lo, lo) == AddLess(x, lo);
  }

  /** Spread of the word with halves lo and hi. */
  function SpreadOf(lo: bv32, hi: bv32): Word {
    (lo as Word) * 0x85EB_CA77 + ((hi as Word) << 32)
  }

  function UnPrime32(x: bv32): bv32 {
    x * 0xB6C9_2F47
  }

  function Rest(y: Word, lo: bv32): Word {
    (lo as Word) + (y - (lo as Word) * 0x85EB_CA77)
  }

  function UnSpread(y: Word): Word {
    Rest(y, UnPrime32(Low32(y)))
  }

  lemma SpreadBack(hi: Word)
    ensures UnSpread(Spread(hi)) == hi
  {
    hide Spread, Low32, High32, Join64, SpreadOf, Rest, UnPrime32;
    var lo, up := Low32(hi), High32(hi);
    HalvesOf(hi);
    SpreadHalves(lo, up);
    SpreadLow(lo, up);
    RestBack(lo, up);
  }

  lemma HalvesOf(w: Word)
    ensures Join64(Low32(w), High32(w)) == w
  {
  }

  lemma SpreadHalves(lo: bv32, hi: bv32)
    ensures Spread(Join64(lo, hi)) == SpreadOf(lo, hi)
  {
    SpreadBranches(Join64(lo, hi));
    JoinHalves(lo, hi);
    assert AddMore((hi as Word) << 32, lo as Word) == SpreadOf(lo, hi);
  }

  lemma JoinHalves(lo: bv32, hi: bv32)
    ensures UpperHalf(Join64(lo, hi)) == (hi as Word) << 32 && LowerHalf(Join64(lo, hi)) == lo as Word
  {
    assert UpperHalf((lo as Word) + ((hi as Word) << 32)) == (hi as Word) << 32;
    assert LowerHalf((lo as Word) + ((hi as Word) << 32)) == lo as Word;
  }

  lemma SpreadLow(lo: bv32, hi: bv32)
    ensures UnPrime32(Low32(SpreadOf(lo, hi))) == lo
  {
    assert Low32((lo as Word) * 0x85EB_CA77 + ((hi as Word) << 32)) == lo * 0x85EB_CA77;
    assert UnPrime32(lo * 0x85EB_CA77) == lo;
  }

  lemma RestBack(lo: bv32, hi: bv32)
    ensures Rest(SpreadOf(lo, hi), lo) == Join64(lo, hi)
  {
    assert Rest((lo as Word) * 0x85EB_CA77 + ((hi as Word) << 32), lo) == (lo as Word) + ((hi as Word) << 32);
  }

  /** XXH3_len_9to16_128b() */
  function Len9to16(input: seq<Byte>, secret: Secret, seed: Word): Hash128
    requires 9 <= |input| <= 16
  {
    var len := |input|;
    var lo, hi := ReadLE64(input, 0), ReadLE64(input, len - 8);
    var x := Xor(Xor(lo, hi), Flip9Low(secret, seed));
    var high := Plus(MulHigh(x, 0x9E3779B185EBCA87), Spread(Xor(hi, Flip9High(secret, seed))));
    var low := Xor(Plus(TimesPrime1(x), LenInMiddle(len)), Swap64(high));
    Hash128(Avalanche3(TimesPrime2(low)),
            Avalanche3(Plus(MulHigh(low, 0xC2B2AE3D27D4EB4F), TimesPrime2(high))))
  }

  function UnLen9to16(h: Hash128, len: nat, secret: Secret, seed: Word): seq<Byte>
    requires 9 <= len <= 16
  {
    var low := UnPrime2(UnAvalanche3(h.low64));
    var high := UnPrime2(Minus(UnAvalanche3(h.high64), MulHigh(low, 0xC2B2AE3D27D4EB4F)));
    var x := UnPrime1(Minus(Xor(low, Swap64(high)), LenInMiddle(len)));
    var hi := Xor(UnSpread(Minus(high, MulHigh(x, 0x9E3779B185EBCA87))), Flip9High(secret, seed));
    var lo := Xor(Xor(x, Flip9Low(secret, seed)), hi);
    Bytes64(lo) + Bytes64(hi)[16 - len..]
  }

  lemma Len9to16Back(input: seq<Byte>, secret: Secret, seed: Word)
    requires 9 <= |input| <= 16
    ensures UnLen9to16(Len9to16(input, secret, seed), |input|, secret, seed) == input
  {
    hide Xor, ReadLE64, Flip9Low, Flip9High, TimesPrime1, UnPrime1, TimesPrime2, UnPrime2, Plus, Minus, MulHigh;
    hide LenInMiddle, Spread, UnSpread, Swap64, Bytes64, Avalanche3, UnAvalanche3;
    var len := |input|;
    var lo, hi := ReadLE64(input, 0), ReadLE64(input, len - 8);
    var x := Xor(Xor(lo, hi), Flip9Low(secret, seed));
    var keyed := Xor(hi, Flip9High(secret, seed));
    var high := Plus(MulHigh(x, 0x9E3779B185EBCA87), Spread(keyed));
    var low := Xor(Plus(TimesPrime1(x), LenInMiddle(len)), Swap64(high));
    Avalanche3Back(TimesPrime2(low));
    Prime2Back(low);
    Avalanche3Back(Plus(MulHigh(low, 0xC2B2AE3D27D4EB4F), TimesPrime2(high)));
    PlusBackLeft(MulHigh(low, 0xC2B2AE3D27D4EB4F), TimesPrime2(high));
    Prime2Back(high);
    XorBack(Plus(TimesPrime1(x), LenInMiddle(len)), Swap64(high));
    PlusBack(TimesPrime1(x), LenInMiddle(len));
    Prime1Back(x);
    PlusBackLeft(MulHigh(x, 0x9E3779B185EBCA87), Spread(keyed));
    SpreadBack(keyed);
    XorBack(hi, Flip9High(secret, seed));
    XorBack(Xor(lo, hi), Flip9Low(secret, seed));
    XorBack(lo, hi);
    Bytes64Back(input, 0);
    Bytes64Back(input, len - 8);
    assert input[len - 8..len][16 - len..] == input[8..len];
  }

  // ----- all of them -----

  /** XXH3_len_0to16_128b() */
  function Hash(input: seq<Byte>, secret: Secret, seed: Word): Hash128
    requires |input| <= 16
  {
    if |input| > 8 then Len9to16(input, secret, seed)
    else if |input| >= 4 then Len4to8(input, secret, seed)
    else if |input| > 0 then Len1to3(input, secret, seed)
    else
      Hash128(Avalanche64(seed ^ ReadLE64(secret, 64) ^ ReadLE64(secret, 72)),
              Avalanche64(seed ^ ReadLE64(secret, 80) ^ ReadLE64(secret, 88)))
  }

  /** The key of `len` bytes that has the hash h, if any has. */
  function Unhash(h: Hash128, len: nat, secret: Secret, seed: Word): seq<Byte>
    requires len <= 16
  {
    if len > 8 then UnLen9to16(h, len, secret, seed)
    else if len >= 4 then UnLen4to8(h, len, secret, seed)
    else if len > 0 then UnLen1to3(h, len, secret, seed)
    else []
  }

  /** Nothing of a short key is lost, whatever the secret and the seed. */
  lemma UnhashHash(input: seq<Byte>, secret: Secret, seed: Word)
    requires |input| <= 16
    ensures Unhash(Hash(input, secret, seed), |input|, secret, seed) == input
  {
    hide UnLen9to16, UnLen4to8, UnLen1to3, Len9to16, Len4to8, Len1to3;
    if |input| > 8 {
      Len9to16Back(input, secret, seed);
    } else if |input| >= 4 {
      Len4to8Back(input, secret, seed);
    } else if |input| > 0 {
      Len1to3Back(input, secret, seed);
    }
  }

  /** Two keys of one length have the same hash if and only if they are the same key. */
  lemma HashIdentity(a: seq<Byte>, b: seq<Byte>, secret: Secret, seed: Word)
    requires |a| == |b| <= 16
    ensures Hash(a, secret, seed) == Hash(b, secret, seed) <==> a == b
  {
    hide Hash, Unhash;
    UnhashHash(a, secret, seed);
    UnhashHash(b, secret, seed);
  }

  /** Keys of one to three bytes do not collide even when their lengths differ. */
  lemma ShortIdentity(a: seq<Byte>, b: seq<Byte>, secret: Secret, seed: Word)
    requires 1 <= |a| <= 3 && 1 <= |b| <= 3
    ensures Hash(a, secret, seed) == Hash(b, secret, seed) <==> a == b
  {
    HashShort(a, secret, seed);
    HashShort(b, secret, seed);
    hide Hash, Len1to3;
    if Len1to3(a, secret, seed) == Len1to3(b, secret, seed) {
      SameLength(a, b, secret, seed);
      HashIdentity(a, b, secret, seed);
    }
  }

  lemma HashShort(a: seq<Byte>, secret: Secret, seed: Word)
    requires 1 <= |a| <= 3
    ensures Hash(a, secret, seed) == Len1to3(a, secret, seed)
  {
    hide Len1to3;
  }

  lemma SameLength(a: seq<Byte>, b: seq<Byte>, secret: Secret, seed: Word)
    requires 1 <= |a| <= 3 && 1 <= |b| <= 3 && Len1to3(a, secret, seed) == Len1to3(b, secret, seed)
    ensures |a| == |b|
  {
    hide Avalanche64, UnAvalanche64, Xor, Widen, Low32, Combine, Flip1Low, Flip1High, Swap32, Rotl32, SmallLen;
    var f := Flip1Low(secret, seed);
    var x := Combine(a[0], a[|a| / 2], a[|a| - 1], SmallLen(|a|));
    var y := Combine(b[0], b[|b| / 2], b[|b| - 1], SmallLen(|b|));
    Avalanche64Back(Xor(Widen(x), f));
    Avalanche64Back(Xor(Widen(y), f));
    XorBack(Widen(x), f);
    XorBack(Widen(y), f);
    WidenBack(x);
    WidenBack(y);
    CombineLen(a[0], a[|a| / 2], a[|a| - 1], |a|);
    CombineLen(b[0], b[|b| / 2], b[|b| - 1], |b|);
  }

  function SecondByte(w: bv32): bv32 {
    (w >> 8) & 0xFF
  }

  lemma CombineLen(c1: Byte, c2: Byte, c3: Byte, len: nat)
    requires 1 <= len <= 3
    ensures SecondByte(Combine(c1, c2, c3, SmallLen(len))) == (if len == 1 then 1 else if len == 2 then 2 else 3)
  {
    if len == 1 {
      CombineSecond(c1, c2, c3, 1);
    } else if len == 2 {
      CombineSecond(c1, c2, c3, 2);
    } else {
      CombineSecond(c1, c2, c3, 3);
    }
  }

  lemma CombineSecond(c1: Byte, c2: Byte, c3: Byte, len: Byte)
    ensures SecondByte(Combine(c1, c2, c3, len as bv32)) == len as bv32
  {
    assert SecondByte(((c1 as bv32) << 16) | ((c2 as bv32) << 24) | (c3 as bv32) | ((len as bv32) << 8)) == len as bv32;
  }

  // ----- include/hatrack/hash.h -----

  /** hash_int(), and hash_double() and hash_pointer() on their bit patterns: the eight bytes of
      the word, hashed without a seed. */
  function HashWord(secret: Secret, key: Word): Hash128 {
    Hash(Bytes64(key), secret, 0)
  }

  /** Equal hashes mean equal keys. */
  lemma HashWordIdentity(secret: Secret, a: Word, b: Word)
    ensures HashWord(secret, a) == HashWord(secret, b) <==> a == b
  {
    hide Hash, Bytes64;
    HashIdentity(Bytes64(a), Bytes64(b), secret, 0);
    Bytes64Word(a);
    Bytes64Word(b);
  }

  lemma Bytes64Word(w: Word)
    ensures ReadLE64(Bytes64(w), 0) == w
  {
    Bytes32Word(Low32(w));
    Bytes32Word(High32(w));
    HalvesOf(w);
    hide Bytes32, Join32, Join64, Low32, High32;
  }

  lemma Bytes32Word(w: bv32)
    ensures var s := Bytes32(w); Join32(s[0], s[1], s[2], s[3]) == w
  {
  }

  /** At most one word has the hash that stands for an empty bucket. */
  lemma OneZeroHash(secret: Secret, a: Word, b: Word)
    requires HashWord(secret, a) == Hash128(0, 0)
    ensures HashWord(secret, b) == Hash128(0, 0) <==> a == b
  {
    hide HashWord;
    HashWordIdentity(secret, a, b);
  }
}
