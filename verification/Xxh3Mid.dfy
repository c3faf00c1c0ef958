/** XXH3 on inputs of at most 240 bytes: the 64-bit hashes of all of them, and the 128-bit hashes
    of those of more than 16 bytes (the others are in Xxh3Short). Every read of input and secret
    is in bounds for every length and every secret of at least 136 bytes. */
module Xxh3Mid {
  import opened Xxh3Words
  import opened Xxh3Short

  const MAX_LEN: nat := 0x1_0000_0000_0000_0000

  function LenWord(n: nat): Word
    requires n < MAX_LEN
  {
    n as Word
  }

  /** XXH3_mul128_fold64() */
  function Fold64(l: Word, r: Word): Word {
    Xor(Product(l, r), MulHigh(l, r))
  }

  /** XXH3_rrmxmx() */
  function Rrmxmx(x: Word, len: nat): Word
    requires len < MAX_LEN
  {
    var x1 := TimesMix2(x ^ Rotl64(x, 49) ^ Rotl64(x, 24));
    var x2 := TimesMix2(Xor(x1, Plus(x1 >> 35, LenWord(len))));
    XorShift28(x2)
  }

  function Rotl64(w: Word, k: nat): Word
    requires 0 < k < 64
  {
    (w << k) | (w >> (64 - k))
  }

  // ----- 64 bits, up to 16 bytes -----

  /** XXH3_len_1to3_64b(): the low word of the 128-bit hash. */
  function Len1to3(input: seq<Byte>, secret: Secret, seed: Word): Word
    requires 1 <= |input| <= 3
  {
    var len := |input|;
    var combined := Combine(input[0], input[len / 2], input[len - 1], SmallLen(len));
    Avalanche64(Xor(Widen(combined), Flip1Low(secret, seed)))
  }

  /** XXH3_len_4to8_64b() */
  function Len4to8(input: seq<Byte>, secret: Secret, seed: Word): Word
    requires 4 <= |input| <= 8
  {
    var flip := Minus(Xor(ReadLE64(secret, 8), ReadLE64(secret, 16)), SwappedSeed(seed));
    var keyed := Xor(Join64(ReadLE32(input, |input| - 4), ReadLE32(input, 0)), flip);
    Rrmxmx(keyed, |input|)
  }

  /** XXH3_len_9to16_64b() */
  function Len9to16(input: seq<Byte>, secret: Secret, seed: Word): Word
    requires 9 <= |input| <= 16
  {
    var flip1 := Plus(Xor(ReadLE64(secret, 24), ReadLE64(secret, 32)), seed);
    var flip2 := Minus(Xor(ReadLE64(secret, 40), ReadLE64(secret, 48)), seed);
    var lo, hi := Xor(ReadLE64(input, 0), flip1), Xor(ReadLE64(input, |input| - 8), flip2);
    Avalanche3(Plus(Plus(Plus(LenWord(|input|), Swap64(lo)), hi), Fold64(lo, hi)))
  }

  /** XXH3_len_0to16_64b() */
  function Len0to16(input: seq<Byte>, secret: Secret, seed: Word): Word
    requires |input| <= 16
  {
    if |input| > 8 then Len9to16(input, secret, seed)
    else if |input| >= 4 then Len4to8(input, secret, seed)
    else if |input| > 0 then Len1to3(input, secret, seed)
    else Avalanche64(Xor(seed, Xor(ReadLE64(secret, 56), ReadLE64(secret, 64))))
  }

  // ----- 17 to 240 bytes -----

  /** XXH3_mix16B() */
  function Mix16(input: seq<Byte>, at: nat, secret: Secret, keyAt: nat, seed: Word): Word
    requires at + 16 <= |input| && keyAt + 16 <= |secret|
  {
    Fold64(Xor(ReadLE64(input, at), Plus(ReadLE64(secret, keyAt), seed)),
           Xor(ReadLE64(input, at + 8), Minus(ReadLE64(secret, keyAt + 8), seed)))
  }

  /** XXH128_mix32B() */
  function Mix32(acc: Hash128, input: seq<Byte>, at1: nat, at2: nat, secret: Secret, keyAt: nat, seed: Word): Hash128
    requires at1 + 16 <= |input| && at2 + 16 <= |input| && keyAt + 32 <= |secret|
  {
    Hash128(Xor(Plus(acc.low64, Mix16(input, at1, secret, keyAt, seed)),
                Plus(ReadLE64(input, at2), ReadLE64(input, at2 + 8))),
            Xor(Plus(acc.high64, Mix16(input, at2, secret, keyAt + 16, seed)),
                Plus(ReadLE64(input, at1), ReadLE64(input, at1 + 8))))
  }

  function MixPair(acc: Word, input: seq<Byte>, k: nat, secret: Secret, seed: Word): Word
    requires k <= 3 && 32 * k < |input| && 16 < |input| && 16 * k + 16 <= |input|
  {
    Plus(Plus(acc, Mix16(input, 16 * k, secret, 32 * k, seed)),
         Mix16(input, |input| - 16 * k - 16, secret, 32 * k + 16, seed))
  }

  /** XXH3_len_17to128_64b() */
  function Len17to128(input: seq<Byte>, secret: Secret, seed: Word): Word
    requires 16 < |input| <= 128
  {
    var len := |input|;
    var a0 := TimesPrime1(LenWord(len));
    var a1 := if len > 96 then MixPair(a0, input, 3, secret, seed) else a0;
    var a2 := if len > 64 then MixPair(a1, input, 2, secret, seed) else a1;
    var a3 := if len > 32 then MixPair(a2, input, 1, secret, seed) else a2;
    Avalanche3(MixPair(a3, input, 0, secret, seed))
  }

  function MixEnds(acc: Hash128, input: seq<Byte>, k: nat, secret: Secret, seed: Word): Hash128
    requires k <= 3 && 32 * k < |input| && 16 < |input| && 16 * k + 16 <= |input|
  {
    Mix32(acc, input, 16 * k, |input| - 16 * k - 16, secret, 32 * k, seed)
  }

  function Finish128(acc: Hash128, len: nat, seed: Word): Hash128
    requires len < MAX_LEN
  {
    var high := Plus(Plus(TimesPrime1(acc.low64), TimesPrime64_4(acc.high64)), TimesPrime2(Minus(LenWord(len), seed)));
    Hash128(Avalanche3(Plus(acc.low64, acc.high64)), Minus(0, Avalanche3(high)))
  }

  /** XXH_PRIME64_4 */
  function TimesPrime64_4(x: Word): Word {
    x * 0x85EBCA77C2B2AE63
  }

  /** XXH3_len_17to128_128b() */
  function Len17to128Wide(input: seq<Byte>, secret: Secret, seed: Word): Hash128
    requires 16 < |input| <= 128
  {
    var len := |input|;
    var a0 := Hash128(TimesPrime1(LenWord(len)), 0);
    var a1 := if len > 96 then MixEnds(a0, input, 3, secret, seed) else a0;
    var a2 := if len > 64 then MixEnds(a1, input, 2, secret, seed) else a1;
    var a3 := if len > 32 then MixEnds(a2, input, 1, secret, seed) else a2;
    Finish128(MixEnds(a3, input, 0, secret, seed), len, seed)
  }

  /** The accumulator of XXH3_len_129to240_64b() before round n. */
  function Rounds(input: seq<Byte>, secret: Secret, seed: Word, n: nat): Word
    requires |input| <= 240 && n <= |input| / 16
    decreases n
  {
    if n == 0 then TimesPrime1(LenWord(|input|))
    else
      var acc := Rounds(input, secret, seed, n - 1);
      if n <= 8 then Plus(acc, Mix16(input, 16 * (n - 1), secret, 16 * (n - 1), seed))
      else Plus(if n == 9 then Avalanche3(acc) else acc, Mix16(input, 16 * (n - 1), secret, 16 * (n - 9) + 3, seed))
  }

  function Len129to240(input: seq<Byte>, secret: Secret, seed: Word): Word
    requires 128 < |input| <= 240
  {
    var n := |input| / 16;
    var acc := Rounds(input, secret, seed, n);
    Avalanche3(Plus(if n == 8 then Avalanche3(acc) else acc, Mix16(input, |input| - 16, secret, 136 - 17, seed)))
  }

  /** XXH3_len_129to240_64b() */
  method HashLen129to240(input: seq<Byte>, secret: Secret, seed: Word) returns (h: Word)
    requires 128 < |input| <= 240
    ensures h == Len129to240(input, secret, seed)
  {
    hide Mix16, Avalanche3, Plus, TimesPrime1, LenWord;
    var len := |input|;
    var acc := TimesPrime1(LenWord(len));
    var rounds := len / 16;
    for i := 0 to 8
      invariant acc == Rounds(input, secret, seed, i)
    {
      acc := Plus(acc, Mix16(input, 16 * i, secret, 16 * i, seed));
    }
    acc := Avalanche3(acc);
    for i := 8 to rounds
      invariant acc == if i == 8 then Avalanche3(Rounds(input, secret, seed, 8)) else Rounds(input, secret, seed, i)
    {
      acc := Plus(acc, Mix16(input, 16 * i, secret, 16 * (i - 8) + 3, seed));
    }
    acc := Plus(acc, Mix16(input, len - 16, secret, 136 - 17, seed));
    h := Avalanche3(acc);
  }

  function AvalancheBoth(h: Hash128): Hash128 {
    Hash128(Avalanche3(h.low64), Avalanche3(h.high64))
  }

  /** The accumulator of XXH3_len_129to240_128b() before round n. */
  function RoundsWide(input: seq<Byte>, secret: Secret, seed: Word, n: nat): Hash128
    requires |input| <= 240 && n <= |input| / 32
    decreases n
  {
    if n == 0 then Hash128(TimesPrime1(LenWord(|input|)), 0)
    else
      var acc := RoundsWide(input, secret, seed, n - 1);
      var at := 32 * (n - 1);
      if n <= 4 then Mix32(acc, input, at, at + 16, secret, at, seed)
      else Mix32(if n == 5 then AvalancheBoth(acc) else acc, input, at, at + 16, secret, 32 * (n - 5) + 3, seed)
  }

  function Len129to240Wide(input: seq<Byte>, secret: Secret, seed: Word): Hash128
    requires 128 < |input| <= 240
  {
    var n := |input| / 32;
    var acc := RoundsWide(input, secret, seed, n);
    var last := Mix32(if n == 4 then AvalancheBoth(acc) else acc, input, |input| - 16, |input| - 32,
                      secret, 136 - 17 - 16, Minus(0, seed));
    Finish128(last, |input|, seed)
  }

  /** XXH3_len_129to240_128b() */
  method HashLen129to240Wide(input: seq<Byte>, secret: Secret, seed: Word) returns (h: Hash128)
    requires 128 < |input| <= 240
    ensures h == Len129to240Wide(input, secret, seed)
  {
    hide Mix32, AvalancheBoth, Finish128, Minus, TimesPrime1, LenWord;
    var len := |input|;
    var acc := Hash128(TimesPrime1(LenWord(len)), 0);
    var rounds := len / 32;
    for i := 0 to 4
      invariant acc == RoundsWide(input, secret, seed, i)
    {
      acc := Mix32(acc, input, 32 * i, 32 * i + 16, secret, 32 * i, seed);
    }
    acc := AvalancheBoth(acc);
    for i := 4 to rounds
      invariant acc == if i == 4 then AvalancheBoth(RoundsWide(input, secret, seed, 4))
                       else RoundsWide(input, secret, seed, i)
    {
      acc := Mix32(acc, input, 32 * i, 32 * i + 16, secret, 3 + 32 * (i - 4), seed);
    }
    acc := Mix32(acc, input, len - 16, len - 32, secret, 136 - 17 - 16, Minus(0, seed));
    h := Finish128(acc, len, seed);
  }

  /** The three classes of lengths up to XXH3_MIDSIZE_MAX, 64 bits. */
  function UpTo240(input: seq<Byte>, secret: Secret, seed: Word): Word
    requires |input| <= 240
  {
    if |input| <= 16 then Len0to16(input, secret, seed)
    else if |input| <= 128 then Len17to128(input, secret, seed)
    else Len129to240(input, secret, seed)
  }

  /** And 128 bits. */
  function UpTo240Wide(input: seq<Byte>, secret: Secret, seed: Word): Hash128
    requires |input| <= 240
  {
    if |input| <= 16 then Hash(input, secret, seed)
    else if |input| <= 128 then Len17to128Wide(input, secret, seed)
    else Len129to240Wide(input, secret, seed)
  }
}
