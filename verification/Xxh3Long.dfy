/** XXH3 on inputs of more than 240 bytes: the accumulators after k stripes, as a function of the
    input and the secret alone, and the block loop and the stripe consumer that compute them. */
module Xxh3Long {
  import opened Xxh3Words
  import opened Xxh3Short
  import opened Xxh3Mid
  import opened Xxh3Lanes
  import opened Xxh3Vector

  /** nbStripesPerBlock */
  function PerBlock(secret: Secret): (b: nat)
    ensures 9 <= b && 8 * (b - 1) + 64 + 8 <= |secret|
  {
    (|secret| - 64) / 8
  }

  function StripeAt(input: seq<Byte>, k: nat): Stripe
    requires 64 * k + 64 <= |input|
  {
    input[64 * k..64 * k + 64]
  }

  function KeyAt(secret: Secret, n: nat): Stripe
    requires 8 * n + 64 <= |secret|
  {
    secret[8 * n..8 * n + 64]
  }

  function ScrambleKey(secret: Secret): Stripe {
    secret[|secret| - 64..]
  }

  /** The accumulators after the first k stripes of the input: stripe j is mixed with the secret
      at 8 * (j mod nbStripesPerBlock), and the end of each block scrambles. */
  function Absorbed(input: seq<Byte>, secret: Secret, k: nat): Acc
    requires 64 * k <= |input|
    decreases k
  {
    if k == 0 then InitAcc()
    else
      var a := Accumulated(Absorbed(input, secret, k - 1), StripeAt(input, k - 1),
        KeyAt(secret, (k - 1) % PerBlock(secret)));
      if k % PerBlock(secret) == 0 then Scrambled(a, ScrambleKey(secret)) else a
  }

  /** The accumulators at the end: all whole stripes before the last byte, then the last 64 bytes. */
  function LongAcc(input: seq<Byte>, secret: Secret): Acc
    requires 64 < |input|
  {
    Accumulated(Absorbed(input, secret, (|input| - 1) / 64), input[|input| - 64..], LastKey(secret))
  }

  /** secret + secretSize - XXH_STRIPE_LEN - XXH_SECRET_LASTACC_START */
  function LastKey(secret: Secret): Stripe {
    secret[|secret| - 71..|secret| - 7]
  }

  // ----- converging -----

  /** XXH3_mix2Accs() */
  function Mix2(acc: Acc, i: nat, secret: Secret, at: nat): Word
    requires i < 4 && at + 64 <= |secret|
  {
    Fold64(Xor(acc[2 * i], ReadLE64(secret, at + 16 * i)), Xor(acc[2 * i + 1], ReadLE64(secret, at + 16 * i + 8)))
  }

  function MixSum(acc: Acc, secret: Secret, at: nat, start: Word, n: nat): Word
    requires n <= 4 && at + 64 <= |secret|
    decreases n
  {
    if n == 0 then start else Plus(MixSum(acc, secret, at, start, n - 1), Mix2(acc, n - 1, secret, at))
  }

  function Merged(acc: Acc, secret: Secret, at: nat, start: Word): Word
    requires at + 64 <= |secret|
  {
    Avalanche3(MixSum(acc, secret, at, start, 4))
  }

  /** XXH3_mergeAccs() */
  method MergeAccs(acc: Acc, secret: Secret, at: nat, start: Word) returns (h: Word)
    requires at + 64 <= |secret|
    ensures h == Merged(acc, secret, at, start)
  {
    hide Mix2, Plus, Avalanche3;
    var result := start;
    for i := 0 to 4
      invariant result == MixSum(acc, secret, at, start, i)
    {
      result := Plus(result, Mix2(acc, i, secret, at));
    }
    h := Avalanche3(result);
  }

  function Complement(x: Word): Word {
    !x
  }

  function Converge64(acc: Acc, secret: Secret, len: nat): Word
    requires len < MAX_LEN
  {
    Merged(acc, secret, 11, TimesPrime1(LenWord(len)))
  }

  function Converge128(acc: Acc, secret: Secret, len: nat): Hash128
    requires len < MAX_LEN
  {
    Hash128(Converge64(acc, secret, len),
            Merged(acc, secret, |secret| - 64 - 11, Complement(TimesPrime2(LenWord(len)))))
  }

  // ----- XXH3_accumulate() -----

  /** n stripes of `data`, with the secret from segment `seg` on. */
  function Folded(acc: Acc, data: seq<Byte>, secret: Secret, seg: nat, n: nat): Acc
    requires 64 * n <= |data| && seg + n <= PerBlock(secret)
    decreases n
  {
    if n == 0 then acc
    else Accumulated(Folded(acc, data, secret, seg, n - 1), StripeAt(data, n - 1), KeyAt(secret, seg + n - 1))
  }

  /** XXH3_accumulate(), with the secret from segment `seg` on. */
  method Accumulate(v: Vector, acc: array<Word>, input: seq<Byte>, at: nat, secret: Secret, seg: nat, n: nat)
    requires acc.Length == 8 && at + 64 * n <= |input| && seg + n <= PerBlock(secret)
    modifies acc
    ensures acc[..] == Folded(old(acc[..]), input[at..at + 64 * n], secret, seg, n)
  {
    hide Accumulated;
    ghost var a: Acc, data := acc[..], input[at..at + 64 * n];
    for i := 0 to n
      invariant acc[..] == Folded(a, data, secret, seg, i)
    {
      Accumulate512By(v, acc, input, at + 64 * i, secret, 8 * (seg + i));
      SliceOfSlice(input, at, at + 64 * n, data, 0, 64 * n, 64 * i, 64 * i + 64);
    }
  }

  // ----- stripes and blocks -----

  /** nbStripesSoFar after k stripes. */
  function Phase(secret: Secret, k: nat): nat {
    k % PerBlock(secret)
  }

  lemma Multiples(q: int, q': int, b: nat)
    ensures q < q' ==> (q + 1) * b <= q' * b
    ensures (q + 1) * b == q * b + b
  {
    if q < q' {
      var d := q' - q - 1;
      assert q' * b == (q + 1) * b + d * b;
      assert 0 <= d * b;
    }
  }

  lemma ModOf(x: int, q: int, r: int, b: int)
    requires 0 <= r < b && x == q * b + r
    ensures x % b == r && x / b == q
  {
    var q' := x / b;
    assert x == q' * b + x % b;
    Multiples(q, q', b);
    Multiples(q', q, b);
  }

  lemma NextInBlock(k: nat, n: nat, b: nat)
    requires 0 < b && k % b + n <= b
    ensures k % b + n < b ==> (k + n) % b == k % b + n
    ensures k % b + n == b ==> (k + n) % b == 0
  {
    var q := k / b;
    Multiples(q, q, b);
    if k % b + n < b {
      ModOf(k + n, q, k % b + n, b);
    } else {
      ModOf(k + n, q + 1, 0, b);
    }
  }

  /** Folding n stripes of one block absorbs them: `data` is the input from stripe k on. */
  lemma {:induction false} FoldAbsorbs(whole: seq<Byte>, secret: Secret, k: nat, data: seq<Byte>, n: nat)
    requires 64 * k <= |whole| && data <= whole[64 * k..] && 64 * n <= |data|
    requires k % PerBlock(secret) + n <= PerBlock(secret)
    ensures var b, seg := PerBlock(secret), k % PerBlock(secret);
            var r := Folded(Absorbed(whole, secret, k), data, secret, seg, n);
            Absorbed(whole, secret, k + n) == if n > 0 && seg + n == b then Scrambled(r, ScrambleKey(secret)) else r
    decreases n
  {
    hide Absorbed, Folded, Accumulated, Scrambled, KeyAt, StripeAt, ScrambleKey, PerBlock;
    var b, seg := PerBlock(secret), k % PerBlock(secret);
    if n == 0 {
      FoldedNone(Absorbed(whole, secret, k), data, secret, seg);
    } else {
      FoldAbsorbs(whole, secret, k, data, n - 1);
      NextInBlock(k, n - 1, b);
      NextInBlock(k, n, b);
      FoldedStep(Absorbed(whole, secret, k), data, secret, seg, n);
      AbsorbedStep(whole, secret, k + n);
      SameStripe(whole, k, data, n - 1);
    }
  }

  lemma SameStripe(whole: seq<Byte>, k: nat, data: seq<Byte>, i: nat)
    requires 64 * k <= |whole| && data <= whole[64 * k..] && 64 * i + 64 <= |data|
    ensures StripeAt(data, i) == StripeAt(whole, k + i)
  {
    SliceOfSlice(data, 0, |data|, whole, 64 * k, 64 * k + |data|, 64 * i, 64 * i + 64);
  }

  lemma FoldedNone(acc: Acc, data: seq<Byte>, secret: Secret, seg: nat)
    requires seg <= PerBlock(secret)
    ensures Folded(acc, data, secret, seg, 0) == acc
  {
  }

  lemma FoldedStep(acc: Acc, data: seq<Byte>, secret: Secret, seg: nat, n: nat)
    requires 0 < n && 64 * n <= |data| && seg + n <= PerBlock(secret)
    ensures Folded(acc, data, secret, seg, n) ==
            Accumulated(Folded(acc, data, secret, seg, n - 1), StripeAt(data, n - 1), KeyAt(secret, seg + n - 1))
  {
    hide Accumulated, StripeAt, KeyAt;
  }

  lemma AbsorbedStep(input: seq<Byte>, secret: Secret, k: nat)
    requires 0 < k && 64 * k <= |input|
    ensures var seg := (k - 1) % PerBlock(secret);
            8 * seg + 64 <= |secret| &&
            var a := Accumulated(Absorbed(input, secret, k - 1), StripeAt(input, k - 1), KeyAt(secret, seg));
            Absorbed(input, secret, k) == if k % PerBlock(secret) == 0 then Scrambled(a, ScrambleKey(secret)) else a
  {
    hide Accumulated, Scrambled, StripeAt, KeyAt;
  }

  /** Stripes that do not reach the end of the block. */
  method AccumulateInside(v: Vector, acc: array<Word>, input: seq<Byte>, at: nat, n: nat, secret: Secret, seg: nat,
                          ghost whole: seq<Byte>, ghost k: nat)
    requires acc.Length == 8 && at + 64 * n <= |input| && 64 * (k + n) <= |whole|
    requires input[at..at + 64 * n] == whole[64 * k..64 * (k + n)]
    requires seg == k % PerBlock(secret) && seg + n < PerBlock(secret) && acc[..] == Absorbed(whole, secret, k)
    modifies acc
    ensures acc[..] == Absorbed(whole, secret, k + n) && (k + n) % PerBlock(secret) == seg + n
  {
    hide Absorbed, Folded;
    Accumulate(v, acc, input, at, secret, seg, n);
    FoldAbsorbs(whole, secret, k, whole[64 * k..64 * (k + n)], n);
    NextInBlock(k, n, PerBlock(secret));
  }

  /** The rest of a block, and its scramble. */
  method AccumulateToEnd(v: Vector, acc: array<Word>, input: seq<Byte>, at: nat, n: nat, secret: Secret, seg: nat,
          limit: nat, ghost whole: seq<Byte>, ghost k: nat)
    requires acc.Length == 8 && at + 64 * n <= |input| && 64 * (k + n) <= |whole| && limit == |secret| - 64
    requires input[at..at + 64 * n] == whole[64 * k..64 * (k + n)]
    requires seg == k % PerBlock(secret) && seg + n == PerBlock(secret) && acc[..] == Absorbed(whole, secret, k)
    modifies acc
    ensures acc[..] == Absorbed(whole, secret, k + n) && (k + n) % PerBlock(secret) == 0
  {
    hide Absorbed, Folded;
    Accumulate(v, acc, input, at, secret, seg, n);
    FoldAbsorbs(whole, secret, k, whole[64 * k..64 * (k + n)], n);
    NextInBlock(k, n, PerBlock(secret));
    ScrambleAccBy(v, acc, secret, limit);
    assert secret[limit..limit + 64] == ScrambleKey(secret);
  }

  /** XXH3_consumeStripes(). Said for any input `whole` whose first k stripes the accumulators
      have absorbed and whose next n are at hand: they come to have absorbed k + n. */
  method ConsumeStripes(v: Vector, acc: array<Word>, soFar: nat, perBlock: nat, input: seq<Byte>, at: nat, n: nat,
                        secret: Secret, limit: nat, ghost whole: seq<Byte>, ghost k: nat)
    returns (soFar': nat)
    requires acc.Length == 8 && perBlock == PerBlock(secret) && limit == |secret| - 64
    requires n <= perBlock && at + 64 * n <= |input| && 64 * (k + n) <= |whole|
    requires input[at..at + 64 * n] == whole[64 * k..64 * (k + n)]
    requires soFar == Phase(secret, k) && acc[..] == Absorbed(whole, secret, k)
    modifies acc
    ensures soFar' == Phase(secret, k + n) && acc[..] == Absorbed(whole, secret, k + n)
  {
    hide Absorbed;
    if perBlock - soFar <= n {
      var toEnd := perBlock - soFar;
      var after := n - toEnd;
      SliceOfSlice(input, at, at + 64 * n, whole, 64 * k, 64 * (k + n), 0, 64 * toEnd);
      SliceOfSlice(input, at, at + 64 * n, whole, 64 * k, 64 * (k + n), 64 * toEnd, 64 * n);
      AccumulateToEnd(v, acc, input, at, toEnd, secret, soFar, limit, whole, k);
      AccumulateInside(v, acc, input, at + toEnd * 64, after, secret, 0, whole, k + toEnd);
      soFar' := after;
    } else {
      AccumulateInside(v, acc, input, at, n, secret, soFar, whole, k);
      soFar' := soFar + n;
    }
  }

  lemma SliceOfSlice(s: seq<Byte>, a: nat, b: nat, t: seq<Byte>, c: nat, d: nat, i: nat, j: nat)
    requires a <= b <= |s| && c <= d <= |t| && s[a..b] == t[c..d] && i <= j <= b - a
    ensures s[a + i..a + j] == t[c + i..c + j]
  {
    var x, y := s[a + i..a + j], t[c + i..c + j];
    forall m | 0 <= m < |x| ensures x[m] == y[m] {
      assert s[a..b][i + m] == s[a + i + m];
      assert t[c..d][i + m] == t[c + i + m];
    }
  }

  // ----- one pass -----

  function Times(n: nat, size: nat): nat {
    n * size
  }

  function Quotient(x: nat, y: nat): nat
    requires 0 < y
  {
    x / y
  }

  /** What nb_blocks and nbStripes come to, in stripes: y is block_len. */
  lemma WholeBlocks(last: nat, b: nat, y: nat, blocks: nat)
    requires 0 < b && y == 64 * b && blocks == Quotient(last, y)
    ensures Times(blocks, y) == 64 * Times(blocks, b) <= last
    ensures Times(blocks, b) <= last / 64 && last / 64 - Times(blocks, b) < b
    ensures (last - Times(blocks, y)) / 64 == last / 64 - Times(blocks, b) && Times(blocks, b) % b == 0
  {
    Scale(blocks, b, y);
    DivisionOf(last, y);
    InStripes(last, blocks * b, b, last % y);
    ModOf(blocks * b, blocks, 0, b);
  }

  /** Block n begins at a whole number of blocks, and lies inside the input. */
  lemma BlockInside(n: nat, blocks: nat, last: nat, b: nat, y: nat)
    requires n < blocks && y == 64 * b && 0 < b && 64 * Times(blocks, b) <= last
    ensures Times(n, y) == 64 * Times(n, b) && 64 * (Times(n, b) + b) <= last && Times(n, b) % b == 0
    ensures Times(n + 1, b) == Times(n, b) + b
  {
    Scale(n, b, y);
    Multiples(n, blocks, b);
    ModOf(n * b, n, 0, b);
  }

  lemma DivisionOf(x: nat, y: nat)
    requires 0 < y
    ensures x == (x / y) * y + x % y && x % y < y && 0 <= x / y
  {
  }

  lemma InStripes(last: nat, p: nat, b: nat, rest: nat)
    requires last == 64 * p + rest && rest < 64 * b
    ensures p <= last / 64 && last / 64 - p < b && (last - 64 * p) / 64 == last / 64 - p
  {
  }

  lemma Scale(n: nat, b: nat, y: nat)
    requires y == 64 * b
    ensures n * y == y * n == 64 * (n * b)
  {
  }

  /** XXH3_hashLong_internal_loop() */
  method HashLongLoop(v: Vector, acc: array<Word>, input: seq<Byte>, secret: Secret)
    requires acc.Length == 8 && 64 < |input| && acc[..] == InitAcc()
    modifies acc
    ensures acc[..] == LongAcc(input, secret)
  {
    hide Absorbed, InitAcc, Accumulated, LongAcc, LastKey, Times;
    var len := |input|;
    var perBlock := (|secret| - 64) / 8;
    assert perBlock == PerBlock(secret);
    var blockLen := 64 * perBlock;
    var blocks := Quotient(len - 1, blockLen);
    hide PerBlock, Quotient;
    WholeBlocks(len - 1, perBlock, blockLen, blocks);
    AbsorbBlocks(v, acc, input, secret, perBlock, blockLen, blocks);
    var stripes := (len - 1 - Times(blocks, blockLen)) / 64;
    AccumulateInside(v, acc, input, Times(blocks, blockLen), stripes, secret, 0, input, Times(blocks, perBlock));
    Accumulate512By(v, acc, input, len - 64, secret, |secret| - 64 - 7);
    LastStripe(input, secret);
  }

  /** The loop over whole blocks. */
  method AbsorbBlocks(v: Vector, acc: array<Word>, input: seq<Byte>, secret: Secret, perBlock: nat, blockLen: nat,
          blocks: nat)
    requires acc.Length == 8 && acc[..] == InitAcc() && perBlock == PerBlock(secret) && blockLen == 64 * perBlock
    requires 64 * Times(blocks, perBlock) < |input|
    modifies acc
    ensures acc[..] == Absorbed(input, secret, Times(blocks, perBlock))
  {
    hide Absorbed, InitAcc, PerBlock, Times;
    AbsorbedNone(input, secret);
    NoTimes(perBlock);
    ghost var k: nat := 0;
    for n := 0 to blocks
      invariant k == Times(n, perBlock) && 64 * k <= |input| && acc[..] == Absorbed(input, secret, k)
    {
      BlockInside(n, blocks, |input| - 1, perBlock, blockLen);
      AccumulateToEnd(v, acc, input, Times(n, blockLen), perBlock, secret, 0, |secret| - 64, input, k);
      k := k + perBlock;
    }
  }

  lemma NoTimes(size: nat)
    ensures Times(0, size) == 0
  {
  }

  lemma AbsorbedNone(input: seq<Byte>, secret: Secret)
    ensures Absorbed(input, secret, 0) == InitAcc()
  {
    hide InitAcc;
  }

  lemma LastStripe(input: seq<Byte>, secret: Secret)
    requires 64 < |input|
    ensures input[|input| - 64..|input|] == input[|input| - 64..]
    ensures secret[|secret| - 64 - 7..|secret| - 64 - 7 + 64] == LastKey(secret)
    ensures LongAcc(input, secret) ==
            Accumulated(Absorbed(input, secret, (|input| - 1) / 64), input[|input| - 64..|input|], LastKey(secret))
  {
    hide Accumulated, Absorbed;
  }
}
