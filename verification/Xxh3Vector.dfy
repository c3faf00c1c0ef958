/** The SSE2 forms of XXH3's loops over stripes, of its scramble and of the secret made from a seed
    (XXH_VECTOR == XXH_SSE2), written with the intrinsics they use. They compute what the scalar
    forms compute. */
module Xxh3Vector {
  import opened Xxh3Words
  import opened Xxh3Short
  import opened Xxh3Secret
  import opened Xxh3Lanes

  // ----- registers and intrinsics -----

  /** __m128i: four 32-bit words, the lowest first. */
  datatype M128 = M128(w0: bv32, w1: bv32, w2: bv32, w3: bv32)

  /** The register as two 64-bit lanes. */
  function LowLane(r: M128): Word {
    Join64(r.w0, r.w1)
  }

  function HighLane(r: M128): Word {
    Join64(r.w2, r.w3)
  }

  /** _mm_set_epi64x(hi, lo), and an aligned load of two 64-bit lanes. */
  function FromLanes(lo: Word, hi: Word): M128 {
    M128(Low32(lo), High32(lo), Low32(hi), High32(hi))
  }

  /** _mm_loadu_si128() */
  function LoadU(s: seq<Byte>, at: nat): M128
    requires at + 16 <= |s|
  {
    M128(ReadLE32(s, at), ReadLE32(s, at + 4), ReadLE32(s, at + 8), ReadLE32(s, at + 12))
  }

  /** The 16 bytes of a stored register. */
  function Stored(r: M128): (s: seq<Byte>)
    ensures |s| == 16
  {
    Bytes32(r.w0) + Bytes32(r.w1) + Bytes32(r.w2) + Bytes32(r.w3)
  }

  /** _mm_xor_si128() */
  function XorSi128(a: M128, b: M128): M128 {
    M128(Xor32(a.w0, b.w0), Xor32(a.w1, b.w1), Xor32(a.w2, b.w2), Xor32(a.w3, b.w3))
  }

  function Xor32(x: bv32, y: bv32): bv32 {
    x ^ y
  }

  function WordOf(r: M128, k: nat): bv32
    requires k < 4
  {
    match k
    case 0 => r.w0
    case 1 => r.w1
    case 2 => r.w2
    case _ => r.w3
  }

  /** _mm_shuffle_epi32(r, _MM_SHUFFLE(z, y, x, w)) */
  function ShuffleEpi32(r: M128, z: nat, y: nat, x: nat, w: nat): M128
    requires z < 4 && y < 4 && x < 4 && w < 4
  {
    M128(WordOf(r, w), WordOf(r, x), WordOf(r, y), WordOf(r, z))
  }

  /** _mm_mul_epu32(): the lower words of the two lanes, multiplied into 64 bits. */
  function MulEpu32(a: M128, b: M128): M128 {
    FromLanes(WideProduct(a.w0, b.w0), WideProduct(a.w2, b.w2))
  }

  function WideProduct(x: bv32, y: bv32): Word {
    Product(Widen(x), Widen(y))
  }

  /** _mm_add_epi64() */
  function AddEpi64(a: M128, b: M128): M128 {
    FromLanes(Plus(LowLane(a), LowLane(b)), Plus(HighLane(a), HighLane(b)))
  }

  /** _mm_srli_epi64() */
  function SrliEpi64(r: M128, n: nat): M128
    requires n < 64
  {
    FromLanes(LowLane(r) >> n, HighLane(r) >> n)
  }

  /** _mm_slli_epi64() */
  function SlliEpi64(r: M128, n: nat): M128
    requires n < 64
  {
    FromLanes(LowLane(r) << n, HighLane(r) << n)
  }

  /** _mm_set1_epi32() */
  function Set1Epi32(x: bv32): M128 {
    M128(x, x, x, x)
  }

  // ----- one round of each loop -----

  /** xacc[i] of XXH3_accumulate_512_sse2() */
  function AccumulateRound(acc: M128, dataVec: M128, keyVec: M128): M128 {
    var dataKey := XorSi128(dataVec, keyVec);
    var dataKeyLo := ShuffleEpi32(dataKey, 0, 3, 0, 1);
    var product := MulEpu32(dataKey, dataKeyLo);
    var dataSwap := ShuffleEpi32(dataVec, 1, 0, 3, 2);
    var sum := AddEpi64(acc, dataSwap);
    AddEpi64(product, sum)
  }

  /** xacc[i] of XXH3_scrambleAcc_sse2() */
  function ScrambleRound(accVec: M128, keyVec: M128): M128 {
    var prime32 := Set1Epi32(0x9E37_79B1);
    var shifted := SrliEpi64(accVec, 47);
    var dataVec := XorSi128(accVec, shifted);
    var dataKey := XorSi128(dataVec, keyVec);
    var dataKeyHi := ShuffleEpi32(dataKey, 0, 3, 0, 1);
    var prodLo := MulEpu32(dataKey, prime32);
    var prodHi := MulEpu32(dataKeyHi, prime32);
    AddEpi64(prodLo, SlliEpi64(prodHi, 32))
  }

  // ----- what the intrinsics do to lanes -----

  lemma Lanes(lo: Word, hi: Word)
    ensures LowLane(FromLanes(lo, hi)) == lo && HighLane(FromLanes(lo, hi)) == hi
  {
    hide Join64, Low32, High32;
    HalvesOf(lo);
    HalvesOf(hi);
  }

  lemma LoadedLanes(s: seq<Byte>, at: nat)
    requires at + 16 <= |s|
    ensures LowLane(LoadU(s, at)) == ReadLE64(s, at) && HighLane(LoadU(s, at)) == ReadLE64(s, at + 8)
  {
    hide Join64, ReadLE32;
  }

  lemma XorLanes(a: M128, b: M128)
    ensures LowLane(XorSi128(a, b)) == Xor(LowLane(a), LowLane(b))
    ensures HighLane(XorSi128(a, b)) == Xor(HighLane(a), HighLane(b))
  {
    hide Join64, Xor, Xor32;
    XorOfJoined(a.w0, a.w1, b.w0, b.w1);
    XorOfJoined(a.w2, a.w3, b.w2, b.w3);
  }

  lemma XorOfJoined(l: bv32, h: bv32, l': bv32, h': bv32)
    ensures Join64(Xor32(l, l'), Xor32(h, h')) == Xor(Join64(l, h), Join64(l', h'))
  {
    var x, y := Join64(l, h), Join64(l', h');
    hide Join64, Low32, High32, Xor, Xor32;
    XorOfHalves(x, y);
    Join64Back(l, h);
    Join64Back(l', h');
    HalvesOf(Xor(x, y));
  }

  lemma XorOfHalves(x: Word, y: Word)
    ensures Low32(Xor(x, y)) == Xor32(Low32(x), Low32(y)) && High32(Xor(x, y)) == Xor32(High32(x), High32(y))
  {
    LowOfXor(x, y);
    HighOfXor(x, y);
    XorMeans(x, y);
    HalvesMean(x);
    HalvesMean(y);
    hide Low32, High32, Xor;
  }

  lemma XorMeans(x: Word, y: Word)
    ensures Xor(x, y) == x ^ y
  {
  }

  lemma HalvesMean(x: Word)
    ensures Low32(x) == (x & 0xFFFF_FFFF) as bv32 && High32(x) == (x >> 32) as bv32
  {
  }

  lemma LowOfXor(x: Word, y: Word)
    ensures Low32(x ^ y) == ((x & 0xFFFF_FFFF) as bv32) ^ ((y & 0xFFFF_FFFF) as bv32)
  {
  }

  lemma HighOfXor(x: Word, y: Word)
    ensures High32(x ^ y) == ((x >> 32) as bv32) ^ ((y >> 32) as bv32)
  {
  }

  lemma ProductLanes(a: M128, b: M128)
    ensures LowLane(MulEpu32(a, b)) == WideProduct(a.w0, b.w0) && HighLane(MulEpu32(a, b)) == WideProduct(a.w2, b.w2)
  {
    hide FromLanes, LowLane, HighLane, WideProduct;
    Lanes(WideProduct(a.w0, b.w0), WideProduct(a.w2, b.w2));
  }

  lemma SumLanes(a: M128, b: M128)
    ensures LowLane(AddEpi64(a, b)) == Plus(LowLane(a), LowLane(b))
            && HighLane(AddEpi64(a, b)) == Plus(HighLane(a), HighLane(b))
  {
    hide FromLanes, LowLane, HighLane, Plus;
    Lanes(Plus(LowLane(a), LowLane(b)), Plus(HighLane(a), HighLane(b)));
  }

  lemma ProductOfWords(l: bv32, h: bv32)
    ensures WideProduct(l, h) == HalvesProduct(Join64(l, h))
  {
    JoinHalves(l, h);
    UpperOfJoined(l, h);
    HalvesMultiplied(Join64(l, h));
    hide Join64, LowerHalf, HalfOf, HalvesProduct, Product;
  }

  lemma UpperOfJoined(l: bv32, h: bv32)
    ensures HalfOf(Join64(l, h)) == h as Word
  {
    assert HalfOf((l as Word) + ((h as Word) << 32)) == h as Word;
  }

  lemma HalvesMultiplied(x: Word)
    ensures HalvesProduct(x) == Product(LowerHalf(x), HalfOf(x))
  {
    assert HalvesProduct(x) == Product(x & 0xFFFF_FFFF, x >> 32);
    assert LowerHalf(x) == x & 0xFFFF_FFFF;
    assert HalfOf(x) == x >> 32;
    hide HalvesProduct, Product, LowerHalf, HalfOf;
  }

  // ----- accumulating -----

  lemma AccumulateLanes(acc: M128, data: M128, key: M128)
    ensures LowLane(AccumulateRound(acc, data, key)) ==
            Plus(HalvesProduct(Xor(LowLane(data), LowLane(key))), Plus(LowLane(acc), HighLane(data)))
    ensures HighLane(AccumulateRound(acc, data, key)) ==
            Plus(HalvesProduct(Xor(HighLane(data), HighLane(key))), Plus(HighLane(acc), LowLane(data)))
  {
    var dataKey := XorSi128(data, key);
    var dataKeyLo := ShuffleEpi32(dataKey, 0, 3, 0, 1);
    var dataSwap := ShuffleEpi32(data, 1, 0, 3, 2);
    hide XorSi128, MulEpu32, AddEpi64, Plus, HalvesProduct, Xor, WideProduct, Join64;
    XorLanes(data, key);
    ProductLanes(dataKey, dataKeyLo);
    ProductOfWords(dataKey.w0, dataKey.w1);
    ProductOfWords(dataKey.w2, dataKey.w3);
    SumLanes(acc, dataSwap);
    SumLanes(MulEpu32(dataKey, dataKeyLo), AddEpi64(acc, dataSwap));
  }

  lemma AnyOrder(acc: Word, p: Word, data: Word)
    ensures Plus(p, Plus(acc, data)) == Plus(Plus(acc, data), p) == Plus(Plus(acc, p), data)
  {
    SumMeans(p, acc, data);
    SumMeans(data, acc, p);
    SumMeansLeft(acc, data, p);
    SumMeansLeft(acc, p, data);
    hide Plus;
  }

  lemma AddMeans(x: Word, y: Word)
    ensures Plus(x, y) == x + y
  {
  }

  lemma SumMeans(x: Word, y: Word, z: Word)
    ensures Plus(x, Plus(y, z)) == x + y + z
  {
    AddMeans(y, z);
    assert Plus(x, y + z) == x + y + z;
  }

  lemma SumMeansLeft(x: Word, y: Word, z: Word)
    ensures Plus(Plus(x, y), z) == z + x + y
  {
    AddMeans(x, y);
    assert Plus(x + y, z) == z + x + y;
  }

  lemma LaneInAnyOrder(acc: Word, key: Word, data: Word, i: nat)
    ensures Plus(HalvesProduct(key), Plus(acc, data)) == LaneScalar(acc, key, data, i)
  {
    AnyOrder(acc, HalvesProduct(key), data);
    hide Plus, HalvesProduct;
  }

  /** Round i computes lanes 2 * i and 2 * i + 1 of the scalar loop. */
  lemma AccumulateRoundAgrees(acc: Acc, input: seq<Byte>, at: nat, secret: seq<Byte>, keyAt: nat, i: nat)
    requires i < 4 && at + 64 <= |input| && keyAt + 64 <= |secret|
    ensures var r := AccumulateRound(FromLanes(acc[2 * i], acc[2 * i + 1]), LoadU(input, at + 16 * i),
            LoadU(secret, keyAt + 16 * i));
            var lanes := Accumulated(acc, input[at..at + 64], secret[keyAt..keyAt + 64]);
            LowLane(r) == lanes[2 * i] && HighLane(r) == lanes[2 * i + 1]
  {
    hide AccumulateRound, FromLanes, LoadU, LowLane, HighLane, Plus, HalvesProduct, Xor, ReadLE64, LaneScalar;
    var x, y := acc[2 * i], acc[2 * i + 1];
    Lanes(x, y);
    LoadedLanes(input, at + 16 * i);
    LoadedLanes(secret, keyAt + 16 * i);
    ReadInSlice(input, at, 16 * i);
    ReadInSlice(input, at, 16 * i + 8);
    ReadInSlice(secret, keyAt, 16 * i);
    ReadInSlice(secret, keyAt, 16 * i + 8);
    AccumulateLanes(FromLanes(x, y), LoadU(input, at + 16 * i), LoadU(secret, keyAt + 16 * i));
    var d, d' := ReadLE64(input, at + 16 * i), ReadLE64(input, at + 16 * i + 8);
    var k, k' := ReadLE64(secret, keyAt + 16 * i), ReadLE64(secret, keyAt + 16 * i + 8);
    LaneInAnyOrder(x, Xor(d, k), d', 2 * i);
    LaneInAnyOrder(y, Xor(d', k'), d, 2 * i + 1);
  }

  /** XXH3_accumulate_512_sse2() */
  method AccumulateSse2(acc: array<Word>, input: seq<Byte>, at: nat, secret: seq<Byte>, keyAt: nat)
    requires acc.Length == 8 && at + 64 <= |input| && keyAt + 64 <= |secret|
    modifies acc
    ensures acc[..] == Accumulated(old(acc[..]), input[at..at + 64], secret[keyAt..keyAt + 64])
  {
    hide AccumulateRound, FromLanes, LoadU, LowLane, HighLane, Accumulated;
    ghost var a: Acc := acc[..];
    ghost var lanes := Accumulated(a, input[at..at + 64], secret[keyAt..keyAt + 64]);
    for i := 0 to 4
      invariant forall j :: 0 <= j < 2 * i ==> acc[j] == lanes[j]
      invariant forall j :: 2 * i <= j < 8 ==> acc[j] == a[j]
    {
      AccumulateRoundAgrees(a, input, at, secret, keyAt, i);
      var xacc := AccumulateRound(FromLanes(acc[2 * i], acc[2 * i + 1]), LoadU(input, at + 16 * i),
        LoadU(secret, keyAt + 16 * i));
      acc[2 * i], acc[2 * i + 1] := LowLane(xacc), HighLane(xacc);
    }
  }

  // ----- scrambling -----

  function HalfOf(x: Word): Word {
    x >> 32
  }

  function FromHalves(lo: Word, hi: Word): Word {
    lo + hi * 0x1_0000_0000
  }

  function ShiftUp(x: Word): Word {
    x << 32
  }

  function PlusProduct(lo: Word, x: Word): Word {
    lo * 0x9E37_79B1 + x
  }

  function ProductOfHalves(lo: Word, hi: Word): Word {
    PlusProduct(lo, ShiftUp(TimesPrime32(hi)))
  }

  /** The multiplication in two 32-bit halves. */
  function TimesPrime32InHalves(x: Word): Word {
    ProductOfHalves(LowerHalf(x), HalfOf(x))
  }

  lemma TimesPrimeAgree(x: Word)
    ensures TimesPrime32InHalves(x) == TimesPrime32(x)
  {
    hide TimesPrime32, HalfOf, LowerHalf, FromHalves, ProductOfHalves;
    HalvesOfWord(x);
    ProductByHalves(LowerHalf(x), HalfOf(x));
  }

  lemma HalvesOfWord(x: Word)
    ensures FromHalves(LowerHalf(x), HalfOf(x)) == x
  {
    assert FromHalves(x & 0xFFFF_FFFF, x >> 32) == x;
  }

  function ProductUp(hi: Word): Word {
    hi * 0x9E37_79B1_0000_0000
  }

  lemma ProductByHalves(lo: Word, hi: Word)
    ensures TimesPrime32(FromHalves(lo, hi)) == ProductOfHalves(lo, hi)
  {
    ProductOfSum(lo, hi);
    ShiftedProduct(hi);
    hide TimesPrime32, FromHalves, ShiftUp, PlusProduct, ProductUp;
  }

  lemma ProductOfSum(lo: Word, hi: Word)
    ensures TimesPrime32(FromHalves(lo, hi)) == PlusProduct(lo, ProductUp(hi))
  {
    assert TimesPrime32(lo + hi * 0x1_0000_0000) == PlusProduct(lo, hi * 0x9E37_79B1_0000_0000);
  }

  lemma ShiftedProduct(hi: Word)
    ensures ShiftUp(TimesPrime32(hi)) == ProductUp(hi)
  {
    assert ShiftUp(hi * 0x9E37_79B1) == ProductUp(hi);
  }


  lemma PrimeProduct(l: bv32, h: bv32)
    ensures WideProduct(l, 0x9E37_79B1) == TimesPrime32(LowerHalf(Join64(l, h)))
    ensures WideProduct(h, 0x9E37_79B1) == TimesPrime32(HalfOf(Join64(l, h)))
  {
    JoinHalves(l, h);
    UpperOfJoined(l, h);
    PrimeWide(l);
    PrimeWide(h);
    hide HalfOf, LowerHalf, WideProduct, TimesPrime32, Join64;
  }

  lemma PrimeWide(x: bv32)
    ensures WideProduct(x, 0x9E37_79B1) == TimesPrime32(x as Word)
  {
    PrimeFactor(x as Word);
    assert Widen(0x9E37_79B1) == 0x9E37_79B1;
    hide Product, TimesPrime32;
  }

  lemma PrimeFactor(x: Word)
    ensures Product(x, 0x9E37_79B1) == TimesPrime32(x)
  {
  }

  lemma ShiftedLanes(r: M128)
    ensures LowLane(SlliEpi64(r, 32)) == ShiftUp(LowLane(r)) && HighLane(SlliEpi64(r, 32)) == ShiftUp(HighLane(r))
  {
    hide FromLanes, LowLane, HighLane;
    Lanes(LowLane(r) << 32, HighLane(r) << 32);
  }

  function Down47(x: Word): Word {
    x >> 47
  }

  lemma ShiftedDown(r: M128)
    ensures LowLane(SrliEpi64(r, 47)) == Down47(LowLane(r)) && HighLane(SrliEpi64(r, 47)) == Down47(HighLane(r))
  {
    hide FromLanes, LowLane, HighLane;
    Lanes(LowLane(r) >> 47, HighLane(r) >> 47);
  }

  lemma Down47Xor(x: Word)
    ensures Xor(x, Down47(x)) == XorShift47(x)
  {
    assert Xor(x, x >> 47) == XorShift47(x);
  }

  /** The two products, the upper one shifted up, make the product of the whole lane. */
  lemma LaneProduct(l: bv32, h: bv32)
    ensures Plus(WideProduct(l, 0x9E37_79B1), ShiftUp(WideProduct(h, 0x9E37_79B1))) == TimesPrime32(Join64(l, h))
  {
    PrimeProduct(l, h);
    TimesPrimeAgree(Join64(l, h));
    AddIsPlus(LowerHalf(Join64(l, h)), ShiftUp(TimesPrime32(HalfOf(Join64(l, h)))));
    hide Plus, WideProduct, ShiftUp, TimesPrime32, Join64, LowerHalf, HalfOf, PlusProduct;
  }

  lemma AddIsPlus(lo: Word, x: Word)
    ensures Plus(TimesPrime32(lo), x) == PlusProduct(lo, x)
  {
    assert Plus(lo * 0x9E37_79B1, x) == PlusProduct(lo, x);
  }

  lemma ScrambleLanes(acc: M128, key: M128)
    ensures LowLane(ScrambleRound(acc, key)) == ScrambleLane(LowLane(acc), LowLane(key))
    ensures HighLane(ScrambleRound(acc, key)) == ScrambleLane(HighLane(acc), HighLane(key))
  {
    var prime32 := Set1Epi32(0x9E37_79B1);
    var shifted := SrliEpi64(acc, 47);
    var dataVec := XorSi128(acc, shifted);
    var dataKey := XorSi128(dataVec, key);
    var dataKeyHi := ShuffleEpi32(dataKey, 0, 3, 0, 1);
    hide XorSi128, MulEpu32, AddEpi64, SrliEpi64, SlliEpi64, Plus, Xor, WideProduct, Join64, XorShift47, TimesPrime32,
         ShiftUp, Down47;
    ShiftedDown(acc);
    Down47Xor(LowLane(acc));
    Down47Xor(HighLane(acc));
    XorLanes(acc, shifted);
    XorLanes(dataVec, key);
    ProductLanes(dataKey, prime32);
    ProductLanes(dataKeyHi, prime32);
    ShiftedLanes(MulEpu32(dataKeyHi, prime32));
    SumLanes(MulEpu32(dataKey, prime32), SlliEpi64(MulEpu32(dataKeyHi, prime32), 32));
    LaneProduct(dataKey.w0, dataKey.w1);
    LaneProduct(dataKey.w2, dataKey.w3);
  }

  lemma ScrambleRoundAgrees(acc: Acc, secret: seq<Byte>, keyAt: nat, i: nat)
    requires i < 4 && keyAt + 64 <= |secret|
    ensures var r := ScrambleRound(FromLanes(acc[2 * i], acc[2 * i + 1]), LoadU(secret, keyAt + 16 * i));
            var lanes := Scrambled(acc, secret[keyAt..keyAt + 64]);
            LowLane(r) == lanes[2 * i] && HighLane(r) == lanes[2 * i + 1]
  {
    hide ScrambleRound, FromLanes, LoadU, LowLane, HighLane, ScrambleLane, ReadLE64;
    Lanes(acc[2 * i], acc[2 * i + 1]);
    LoadedLanes(secret, keyAt + 16 * i);
    ReadInSlice(secret, keyAt, 16 * i);
    ReadInSlice(secret, keyAt, 16 * i + 8);
    ScrambleLanes(FromLanes(acc[2 * i], acc[2 * i + 1]), LoadU(secret, keyAt + 16 * i));
  }

  /** XXH3_scrambleAcc_sse2() */
  method ScrambleSse2(acc: array<Word>, secret: seq<Byte>, keyAt: nat)
    requires acc.Length == 8 && keyAt + 64 <= |secret|
    modifies acc
    ensures acc[..] == Scrambled(old(acc[..]), secret[keyAt..keyAt + 64])
  {
    hide ScrambleRound, FromLanes, LoadU, LowLane, HighLane, Scrambled;
    ghost var a: Acc, key: Stripe := acc[..], secret[keyAt..keyAt + 64];
    for i := 0 to 4
      invariant forall j :: 0 <= j < 2 * i ==> acc[j] == Scrambled(a, key)[j]
      invariant forall j :: 2 * i <= j < 8 ==> acc[j] == a[j]
    {
      ScrambleRoundAgrees(a, secret, keyAt, i);
      var xacc := ScrambleRound(FromLanes(acc[2 * i], acc[2 * i + 1]), LoadU(secret, keyAt + 16 * i));
      acc[2 * i], acc[2 * i + 1] := LowLane(xacc), HighLane(xacc);
    }
  }

  // ----- the secret made from a seed -----

  function Negated(seed: Word): Word {
    0 - seed
  }

  /** dst16[i] of XXH3_initCustomSecret_sse2() */
  function SecretRound(seed: Word, i: nat): M128
    requires i < 12
  {
    AddEpi64(LoadU(KSecret(), 16 * i), FromLanes(seed, Negated(seed)))
  }

  lemma AddNegated(x: Word, seed: Word)
    ensures Plus(x, Negated(seed)) == Minus(x, seed)
  {
    NegatedMeans(seed);
    AddOpposite(x, seed);
    hide Plus, Negated, Minus;
  }

  lemma NegatedMeans(seed: Word)
    ensures Negated(seed) == 0 - seed
  {
  }

  lemma AddOpposite(x: Word, seed: Word)
    ensures Plus(x, 0 - seed) == Minus(x, seed)
  {
  }

  lemma StoredLanes(r: M128)
    ensures Stored(r) == Bytes64(LowLane(r)) + Bytes64(HighLane(r))
  {
    hide Bytes32, Join64, Low32, High32;
    Join64Back(r.w0, r.w1);
    Join64Back(r.w2, r.w3);
  }

  lemma SeedLanes(k: M128, seed: Word)
    ensures LowLane(AddEpi64(k, FromLanes(seed, Negated(seed)))) == Plus(LowLane(k), seed)
    ensures HighLane(AddEpi64(k, FromLanes(seed, Negated(seed)))) == Minus(HighLane(k), seed)
  {
    SumLanes(k, FromLanes(seed, Negated(seed)));
    Lanes(seed, Negated(seed));
    AddNegated(HighLane(k), seed);
    hide AddEpi64, FromLanes, LowLane, HighLane, Plus, Negated, Minus;
  }

  lemma SeedWords(seed: Word, i: nat)
    requires i < 12
    ensures LowerWord(seed, i) == Plus(ReadLE64(KSecret(), 16 * i), seed)
    ensures UpperWord(seed, i) == Minus(ReadLE64(KSecret(), 16 * i + 8), seed)
  {
    hide KSecret, ReadLE64;
  }

  lemma SecretLanes(seed: Word, i: nat)
    requires i < 12
    ensures LowLane(SecretRound(seed, i)) == LowerWord(seed, i) && HighLane(SecretRound(seed, i)) == UpperWord(seed, i)
  {
    hide KSecret, LoadU, AddEpi64, FromLanes, LowLane, HighLane, Negated, ReadLE64, LowerWord, UpperWord, Plus, Minus;
    SeedLanes(LoadU(KSecret(), 16 * i), seed);
    LoadedLanes(KSecret(), 16 * i);
    SeedWords(seed, i);
  }

  lemma SecretRoundAgrees(seed: Word, i: nat)
    requires i < 12
    ensures Stored(SecretRound(seed, i)) == Bytes64(LowerWord(seed, i)) + Bytes64(UpperWord(seed, i))
  {
    StoredLanes(SecretRound(seed, i));
    SecretLanes(seed, i);
    hide SecretRound, LowLane, HighLane, Stored, Bytes64, LowerWord, UpperWord;
  }

  /** _mm_store_si128() */
  method Store(a: array<Byte>, at: nat, r: M128)
    requires at + 16 <= a.Length
    modifies a
    ensures a[at..at + 16] == Stored(r)
    ensures forall j :: 0 <= j < at || at + 16 <= j < a.Length ==> a[j] == old(a[j])
  {
    hide Stored;
    var b := Stored(r);
    forall i | 0 <= i < 16 {
      a[at + i] := b[i];
    }
  }

  /** XXH3_initCustomSecret_sse2() */
  method InitCustomSecretSse2(customSecret: array<Byte>, seed: Word)
    requires customSecret.Length == 192
    modifies customSecret
    ensures customSecret[..] == CustomSecret(seed)
  {
    hide LowerWord, UpperWord, Bytes64, Stored, CustomSecret, SecretRound;
    for i := 0 to 12
      invariant customSecret[..16 * i] == Derived(seed, i)
    {
      ghost var before := customSecret[..16 * i];
      SecretRoundAgrees(seed, i);
      Store(customSecret, 16 * i, SecretRound(seed, i));
      assert customSecret[..16 * i] == before;
      assert customSecret[..16 * i + 16] == before + customSecret[16 * i..16 * i + 16];
      DerivedStep(seed, i);
    }
    assert customSecret[..] == customSecret[..192];
    WholeSecret(seed);
  }

  // ----- the choice -----

  /** XXH_VECTOR */
  datatype Vector = Scalar | Sse2

  /** XXH3_accumulate_512 */
  method Accumulate512By(v: Vector, acc: array<Word>, input: seq<Byte>, at: nat, secret: seq<Byte>, keyAt: nat)
    requires acc.Length == 8 && at + 64 <= |input| && keyAt + 64 <= |secret|
    modifies acc
    ensures acc[..] == Accumulated(old(acc[..]), input[at..at + 64], secret[keyAt..keyAt + 64])
  {
    hide Accumulated;
    match v
    case Scalar => Accumulate512(acc, input, at, secret, keyAt);
    case Sse2 => AccumulateSse2(acc, input, at, secret, keyAt);
  }

  /** XXH3_scrambleAcc */
  method ScrambleAccBy(v: Vector, acc: array<Word>, secret: seq<Byte>, keyAt: nat)
    requires acc.Length == 8 && keyAt + 64 <= |secret|
    modifies acc
    ensures acc[..] == Scrambled(old(acc[..]), secret[keyAt..keyAt + 64])
  {
    hide Scrambled;
    match v
    case Scalar => ScrambleAcc(acc, secret, keyAt);
    case Sse2 => ScrambleSse2(acc, secret, keyAt);
  }

  /** XXH3_initCustomSecret */
  method InitCustomSecretBy(v: Vector, customSecret: array<Byte>, seed: Word)
    requires customSecret.Length == 192
    modifies customSecret
    ensures customSecret[..] == CustomSecret(seed)
  {
    hide CustomSecret;
    match v
    case Scalar => InitCustomSecret(customSecret, seed);
    case Sse2 => InitCustomSecretSse2(customSecret, seed);
  }
}
