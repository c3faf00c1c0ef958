/** XXH3's streaming state: whatever the way an input is cut into updates, and whatever was done
    with the state before, the digest is the one-shot hash of all the bytes fed since the reset. */
module Xxh3Stream {
  import opened Options
  import opened Xxh3Words
  import opened ByteBuffers
  import opened Xxh3Short
  import opened Xxh3Mid
  import opened Xxh3Secret
  import opened Xxh3Lanes
  import opened Xxh3Vector
  import opened Xxh3Long
  import opened Xxh3OneShot

  lemma {:induction false} AbsorbedPrefix(fed: seq<Byte>, whole: seq<Byte>, secret: Secret, k: nat)
    requires fed <= whole && 64 * k <= |fed|
    ensures Absorbed(fed, secret, k) == Absorbed(whole, secret, k)
    decreases k
  {
    hide Accumulated, Scrambled, InitAcc;
    if k > 0 {
      AbsorbedPrefix(fed, whole, secret, k - 1);
      assert StripeAt(fed, k - 1) == StripeAt(whole, k - 1);
    }
  }

  /** Whole buffers have been absorbed; the rest is in the buffer, and what came just before it is
      still at the buffer's end as long as the rest does not reach there. */
  ghost predicate Buffered(fed: seq<Byte>, buffer: seq<Byte>, buffered: nat, acc: seq<Word>, soFar: nat,
          secret: Secret)
  {
    && |buffer| == 256 && buffered <= 256 && buffered <= |fed|
    && var done := |fed| - buffered;
    && done % 256 == 0
    && buffer[..buffered] == fed[done..]
    && acc == Absorbed(fed, secret, done / 64)
    && soFar == Phase(secret, done / 64)
    && (buffered == 0 ==> fed == [])
    && (done > 0 && buffered <= 192 ==> buffer[192..] == fed[done - 64..done])
  }

  lemma BufferedFacts(fed: seq<Byte>, buffer: seq<Byte>, buffered: nat, acc: seq<Word>, soFar: nat, secret: Secret)
    requires Buffered(fed, buffer, buffered, acc, soFar, secret)
    ensures |buffer| == 256 && buffered <= 256 && buffered <= |fed| && (|fed| - buffered) % 256 == 0
    ensures buffer[..buffered] == fed[|fed| - buffered..]
    ensures acc == Absorbed(fed, secret, (|fed| - buffered) / 64)
    ensures soFar == Phase(secret, (|fed| - buffered) / 64)
    ensures buffered == 0 ==> fed == []
  {
    hide Absorbed, PerBlock, Phase;
  }

  lemma BufferedTail(fed: seq<Byte>, buffer: seq<Byte>, buffered: nat, acc: seq<Word>, soFar: nat, secret: Secret)
    requires Buffered(fed, buffer, buffered, acc, soFar, secret) && buffered < 64 < |fed|
    ensures |buffer| == 256 && 64 <= |fed| - buffered && buffer[192..] == fed[|fed| - buffered - 64..|fed| - buffered]
  {
    hide Absorbed, PerBlock, Phase;
  }

  /** How many stripes are left for the digest. */
  lemma StripesLeft(len: nat, buffered: nat)
    requires 0 < buffered <= len && (len - buffered) % 256 == 0
    ensures 64 * ((len - buffered) / 64) == len - buffered
    ensures (len - 1) / 64 == (len - buffered) / 64 + (buffered - 1) / 64
  {
    var q := (len - buffered) / 256;
    assert len - buffered == 64 * (4 * q);
    PlusStripes(4 * q, buffered - 1);
  }

  lemma PlusStripes(k: nat, rest: nat)
    ensures (64 * k) / 64 == k && (64 * k + rest) / 64 == k + rest / 64
  {
  }

  lemma BufferedWhole(fed: seq<Byte>, buffer: seq<Byte>, buffered: nat, acc: seq<Word>, soFar: nat, secret: Secret)
    requires Buffered(fed, buffer, buffered, acc, soFar, secret) && |fed| <= 240
    ensures |buffer| == 256 && buffer[..|fed|] == fed
  {
    hide Absorbed, PerBlock, Phase;
  }

  /** Input that fits is appended. */
  lemma AppendBuffered(fed: seq<Byte>, input: seq<Byte>, buffer: seq<Byte>, buffered: nat,
                       acc: seq<Word>, soFar: nat, secret: Secret)
    requires Buffered(fed, buffer, buffered, acc, soFar, secret) && buffered + |input| <= 256
    ensures Buffered(fed + input, Spliced(buffer, buffered, input), buffered + |input|, acc, soFar, secret)
  {
    hide Absorbed, Phase, Spliced;
    var done, buffer', n := |fed| - buffered, Spliced(buffer, buffered, input), buffered + |input|;
    AbsorbedPrefix(fed, fed + input, secret, done / 64);
    AppendedBytes(fed, input, buffer, buffered);
    if done > 0 && n <= 192 {
      SplicedTail(buffer, buffered, input);
      assert (fed + input)[done - 64..done] == fed[done - 64..done];
    }
  }

  lemma AppendedBytes(fed: seq<Byte>, input: seq<Byte>, buffer: seq<Byte>, buffered: nat)
    requires buffered <= |fed| && buffered + |input| <= |buffer| && buffer[..buffered] == fed[|fed| - buffered..]
    ensures Spliced(buffer, buffered, input)[..buffered + |input|] == (fed + input)[|fed| - buffered..]
  {
    assert Spliced(buffer, buffered, input)[..buffered + |input|] == buffer[..buffered] + input;
  }

  /** The end of the buffer is not overwritten by a copy that does not reach it. */
  lemma SplicedTail(buffer: seq<Byte>, at: nat, src: seq<Byte>)
    requires |buffer| == 256 && at + |src| <= 192
    ensures Spliced(buffer, at, src)[192..] == buffer[192..]
  {
  }

  /** What is left after a flush. */
  lemma FlushBuffered(whole: seq<Byte>, k: nat, before: seq<Byte>, acc: seq<Word>, soFar: nat, secret: Secret)
    requires 64 * k < |whole| <= 64 * k + 256 && k % 4 == 0 && 0 < k
    requires acc == Absorbed(whole, secret, k) && soFar == Phase(secret, k)
    requires |before| == 256 && before[192..] == whole[64 * k - 64..64 * k]
    ensures Buffered(whole, Spliced(before, 0, whole[64 * k..]), |whole| - 64 * k, acc, soFar, secret)
  {
    hide Absorbed, Phase, Spliced;
    var done := 64 * k;
    assert done / 64 == k && done % 256 == 0;
    SplicedEnds(before, 0, whole[done..]);
    if |whole| - done <= 192 { SplicedTail(before, 0, whole[done..]); }
  }

  /** XXH3_state_t. `vector` stands for the choice made when the code is compiled. */
  class State {
    const vector: Vector
    const acc: array<Word>
    const customSecret: array<Byte>
    const buffer: array<Byte>
    var bufferedSize: nat
    var nbStripesSoFar: nat
    var totalLen: nat
    var nbStripesPerBlock: nat
    var secretLimit: nat
    var seed: Word
    var extSecret: Option<seq<Byte>>

    /** The bytes fed since the last reset. */
    ghost var fed: seq<Byte>

    ghost predicate Arrays() {
      acc.Length == 8 && customSecret.Length == 192 && buffer.Length == 256 && buffer != customSecret
    }

    /** What skipping the making of the custom secret relies on. */
    ghost predicate Seeded()
      reads `seed, customSecret
    {
      Arrays() && (seed != 0 ==> customSecret[..] == CustomSecret(seed))
    }

    /** Reset without error. */
    ghost predicate Keyed()
      reads `seed, `extSecret, `secretLimit, `nbStripesPerBlock, customSecret
    {
      && Seeded()
      && (extSecret.Some? ==> |extSecret.value| >= 136 && seed == 0)
      && (extSecret.None? ==> seed != 0)
      && secretLimit == |Secret()| - 64 && nbStripesPerBlock == PerBlock(Secret())
    }

    /** The secret in use. */
    function Secret(): (s: Secret)
      requires customSecret.Length == 192 && (extSecret.Some? ==> |extSecret.value| >= 136)
      reads `extSecret, customSecret
    {
      if extSecret.None? then customSecret[..] else extSecret.value
    }

    function KeyOf(): Key
      reads `seed, `extSecret
    {
      if extSecret.Some? && |extSecret.value| >= 136 then BySecret(extSecret.value) else BySeed(seed)
    }

    ghost predicate Valid()
      reads this, customSecret, acc, buffer
    {
      && Keyed() && totalLen == |fed| % MAX_LEN
      && Buffered(fed, buffer[..], bufferedSize, acc[..], nbStripesSoFar, Secret())
    }

    /** XXH3_createState() */
    constructor (v: Vector)
      ensures vector == v && Seeded() && fresh(acc) && fresh(customSecret) && fresh(buffer)
    {
      vector := v;
      acc := new Word[8];
      customSecret := new Byte[192];
      buffer := new Byte[256];
      seed := 0;
      extSecret := None;
      fed := [];
    }

    /** XXH3_reset_internal(). `secretSize` is meant for a secret that is there, or for the custom
        one; size_t wraps. */
    method ResetInternal(newSeed: Word, secret: Option<seq<Byte>>, secretSize: nat)
      requires Arrays()
      modifies this, acc
      ensures Arrays() && seed == newSeed && extSecret == secret && fed == []
      ensures acc[..] == InitAcc() && bufferedSize == 0 && nbStripesSoFar == 0 && totalLen == 0
      ensures secretSize >= 64 ==> secretLimit == secretSize - 64
      ensures nbStripesPerBlock == secretLimit / 8
    {
      hide InitAcc;
      bufferedSize := 0;
      nbStripesSoFar := 0;
      totalLen := 0;
      var init := InitAcc();
      forall i | 0 <= i < 8 {
        acc[i] := init[i];
      }
      seed := newSeed;
      extSecret := secret;
      secretLimit := if secretSize >= 64 then secretSize - 64 else secretSize + MAX_LEN - 64;
      nbStripesPerBlock := secretLimit / 8;
      fed := [];
    }

    /** XXH3_64bits_reset_withSecret() and XXH3_128bits_reset_withSecret(); the plain resets pass
        the built-in secret. */
    method ResetWithSecret(secret: Option<seq<Byte>>) returns (ok: bool)
      requires Arrays()
      modifies this, acc
      ensures ok == (secret.Some? && |secret.value| >= 136)
      ensures Seeded() && fed == [] && seed == 0
      ensures ok ==> Valid() && KeyOf() == BySecret(secret.value)
    {
      hide InitAcc, CustomSecret, KSecret;
      ResetInternal(0, secret, if secret.Some? then |secret.value| else 0);
      if secret.None? {
        return false;
      }
      if |secret.value| < 136 {
        return false;
      }
      AbsorbedNone(fed, secret.value);
      ok := true;
    }

    method Reset()
      requires Arrays()
      modifies this, acc
      ensures Valid() && fed == [] && seed == 0 && KeyOf() == BySecret(KSecret())
    {
      hide KSecret, Valid, KeyOf;
      var ok := ResetWithSecret(Some(KSecret()));
    }

    /** XXH3_64bits_reset_withSeed() and XXH3_128bits_reset_withSeed() */
    method ResetWithSeed(newSeed: Word)
      requires Seeded()
      modifies this, acc, customSecret
      ensures Valid() && fed == [] && seed == newSeed
      ensures KeyOf() == if newSeed == 0 then BySecret(KSecret()) else BySeed(newSeed)
    {
      hide KSecret, CustomSecret, InitAcc;
      if newSeed == 0 {
        Reset();
        return;
      }
      if newSeed != seed {
        InitCustomSecretBy(vector, customSecret, newSeed);
      }
      ResetInternal(newSeed, None, 192);
      AbsorbedNone(fed, customSecret[..]);
    }

    /** What an update computes, said of the fields alone: every byte is accounted for. A null
        input is an error and changes nothing. */
    method Update(input: Option<seq<Byte>>) returns (ok: bool)
      requires Valid()
      modifies this, acc, buffer
      ensures ok == input.Some?
      ensures Valid() && KeyOf() == old(KeyOf()) && seed == old(seed)
      ensures fed == old(fed) + (if input.Some? then input.value else [])
    {
      if input.None? {
        assert fed == fed + [];
        return false;
      }
      if bufferedSize + |input.value| <= 256 {
        Append(input.value);
      } else {
        Flush(input.value);
      }
      ok := true;
    }

    /** The input fits into the buffer. */
    method Append(input: seq<Byte>)
      requires Valid() && bufferedSize + |input| <= 256
      modifies `bufferedSize, `totalLen, `fed, buffer
      ensures Valid() && KeyOf() == old(KeyOf()) && seed == old(seed) && fed == old(fed) + input
    {
      hide Buffered, Keyed, Spliced, PerBlock;
      InFrame();
      AppendBuffered(fed, input, buffer[..], bufferedSize, acc[..], nbStripesSoFar, Secret());
      Copy(buffer, bufferedSize, input);
      TotalLen(|fed|, |input|);
      totalLen := (totalLen + |input|) % MAX_LEN;
      bufferedSize := bufferedSize + |input|;
      fed := fed + input;
    }

    lemma InFrame()
      requires Keyed()
      ensures Arrays() && (extSecret.Some? ==> |extSecret.value| >= 136)
      ensures secretLimit == |Secret()| - 64 && nbStripesPerBlock == PerBlock(Secret())
    {
    }

    /** Between buffers of a flush: k stripes of whole have been absorbed. */
    ghost predicate Flushing(whole: seq<Byte>, k: nat)
      reads `seed, `extSecret, `secretLimit, `nbStripesPerBlock, `nbStripesSoFar, customSecret, acc
    {
      && Keyed() && 64 * k <= |whole| && k % 4 == 0
      && acc[..] == Absorbed(whole, Secret(), k) && nbStripesSoFar == Phase(Secret(), k)
    }

    /** Four stripes, from the input or from the buffer. */
    method ConsumeBuffer(data: seq<Byte>, at: nat, ghost whole: seq<Byte>, ghost k: nat)
      requires Flushing(whole, k) && at + 256 <= |data| && 64 * k + 256 <= |whole|
      requires data[at..at + 256] == whole[64 * k..64 * k + 256]
      modifies `nbStripesSoFar, acc
      ensures Flushing(whole, k + 4)
    {
      hide Absorbed, Keyed, PerBlock, Phase;
      InFrame();
      nbStripesSoFar := ConsumeStripes(vector, acc, nbStripesSoFar, nbStripesPerBlock, data, at, 4, Secret(),
        secretLimit, whole, k);
    }

    /** The input fills the buffer: everything but the last 1 to 256 bytes is consumed. */
    method Flush(input: seq<Byte>)
      requires Valid() && bufferedSize + |input| > 256
      modifies `bufferedSize, `totalLen, `nbStripesSoFar, `fed, acc, buffer
      ensures Valid() && KeyOf() == old(KeyOf()) && seed == old(seed) && fed == old(fed) + input
    {
      hide Buffered, Keyed, Flushing, Absorbed, PerBlock, Phase, Spliced;
      InFrame();
      ghost var whole := fed + input;
      TotalLen(|fed|, |input|);
      totalLen := (totalLen + |input|) % MAX_LEN;
      var at := 0;
      ghost var k := StartFlush(input);
      if bufferedSize != 0 {
        at := 256 - bufferedSize;
        FillAndConsume(input, whole, k);
        k := k + 4;
        bufferedSize := 0;
      }
      FlushRest(input, at, whole, k);
    }

    /** The rest of the input, when the buffer has been consumed or was empty. */
    method FlushRest(input: seq<Byte>, start: nat, ghost whole: seq<Byte>, ghost k: nat)
      requires Flushing(whole, k) && start < |input| && whole == fed + input && 64 * k == |fed| + start
      requires totalLen == |whole| % MAX_LEN && (k == 0 ==> |input| - start > 256)
      requires k > 0 ==> buffer[..][192..] == whole[64 * k - 64..64 * k]
      modifies `bufferedSize, `nbStripesSoFar, `fed, acc, buffer
      ensures Valid() && KeyOf() == old(KeyOf()) && seed == old(seed) && fed == whole
    {
      hide Buffered, Keyed, Flushing, Absorbed, PerBlock, Phase, Spliced;
      FlushDone(whole, k);
      InFrame();
      if |input| - start > 256 {
        ghost var k': nat;
        var at: nat;
        at, k' := ConsumeAndKeep(input, start, whole, k);
        BufferRest(input, at, whole, k');
      } else {
        BufferRest(input, start, whole, k);
      }
    }

    /** Consumes the input by a multiple of the buffer's size, and keeps the last stripe. */
    method ConsumeAndKeep(input: seq<Byte>, start: nat, ghost whole: seq<Byte>, ghost k: nat)
      returns (at: nat, ghost k': nat)
      requires Flushing(whole, k) && start + 256 < |input| && whole == fed + input && 64 * k == |fed| + start
      modifies `nbStripesSoFar, acc, buffer
      ensures start + 256 <= at < |input| <= at + 256 && 64 * k' == |fed| + at
      ensures Flushing(whole, k') && buffer[..][192..] == whole[64 * k' - 64..64 * k']
    {
      hide Keyed, Flushing, Spliced, PerBlock;
      FlushDone(whole, k);
      InFrame();
      EndOfWhole(fed, input, 0, |input|);
      at, k' := ConsumeInput(input, start, whole, k);
      SplicedEnds(buffer[..], 192, input[at - 64..at]);
      EndOfWhole(fed, input, at - 64, at);
      Copy(buffer, 192, input[at - 64..at]);
    }

    /** Some remaining input, always: it goes to the start of the buffer. */
    method BufferRest(input: seq<Byte>, at: nat, ghost whole: seq<Byte>, ghost k: nat)
      requires Flushing(whole, k) && at < |input| <= at + 256 && whole == fed + input && 64 * k == |fed| + at
      requires totalLen == |whole| % MAX_LEN && 0 < k && buffer[..][192..] == whole[64 * k - 64..64 * k]
      modifies `bufferedSize, `fed, buffer
      ensures Valid() && KeyOf() == old(KeyOf()) && seed == old(seed) && fed == whole
    {
      hide Buffered, Keyed, Flushing, Absorbed, PerBlock, Phase, Spliced;
      FlushDone(whole, k);
      InFrame();
      EndOfWhole(fed, input, at, |input|);
      FlushBuffered(whole, k, buffer[..], acc[..], nbStripesSoFar, Secret());
      Copy(buffer, 0, input[at..]);
      bufferedSize := |input| - at;
      fed := whole;
    }

    lemma StartFlush(input: seq<Byte>) returns (k: nat)
      requires Keyed() && Buffered(fed, buffer[..], bufferedSize, acc[..], nbStripesSoFar, Secret())
      ensures 64 * k == |fed| - bufferedSize && Flushing(fed + input, k) && bufferedSize <= 256
      ensures bufferedSize == 0 ==> fed == []
    {
      hide Absorbed, Phase, PerBlock;
      k := (|fed| - bufferedSize) / 64;
      AbsorbedPrefix(fed, fed + input, Secret(), k);
    }

    lemma FlushDone(whole: seq<Byte>, k: nat)
      requires Flushing(whole, k)
      ensures Keyed() && 64 * k <= |whole| && k % 4 == 0
      ensures acc[..] == Absorbed(whole, Secret(), k) && nbStripesSoFar == Phase(Secret(), k)
    {
      hide Absorbed, Phase, Keyed;
    }

    /** Completes the buffer with the start of the input, and consumes it. */
    method FillAndConsume(input: seq<Byte>, ghost whole: seq<Byte>, ghost k: nat)
      requires Keyed() && Buffered(fed, buffer[..], bufferedSize, acc[..], nbStripesSoFar, Secret())
      requires 0 < bufferedSize && bufferedSize + |input| > 256 && whole == fed + input
      requires 64 * k == |fed| - bufferedSize && Flushing(whole, k)
      modifies `nbStripesSoFar, acc, buffer
      ensures Flushing(whole, k + 4) && buffer[..][192..] == whole[64 * k + 192..64 * k + 256]
    {
      hide Keyed, Flushing, Absorbed, PerBlock, Phase, Spliced, Buffered;
      InFrame();
      BufferedFacts(fed, buffer[..], bufferedSize, acc[..], nbStripesSoFar, Secret());
      FilledBuffer(buffer[..], fed, input, bufferedSize, k);
      Copy(buffer, bufferedSize, input[..256 - bufferedSize]);
      ConsumeBuffer(buffer[..], 0, whole, k);
    }

    /** The loop over whole buffers of the input. */
    method ConsumeInput(input: seq<Byte>, start: nat, ghost whole: seq<Byte>, ghost k: nat)
      returns (at: nat, ghost k': nat)
      requires Flushing(whole, k) && start + 256 < |input| && start <= 64 * k <= |whole|
               && whole[64 * k - start..] == input
      modifies `nbStripesSoFar, acc
      ensures start + 256 <= at < |input| <= at + 256 && 64 * k' - at == 64 * k - start
      ensures Flushing(whole, k')
    {
      hide Flushing;
      at, k' := start, k;
      var limit := |input| - 256;
      while at < limit
        invariant start <= at < |input| && (at == start || start + 256 <= at)
        invariant Flushing(whole, k') && 64 * k' - at == 64 * k - start
      {
        PartOfWhole(input, whole, 64 * k - start, at);
        ConsumeBuffer(input, at, whole, k');
        at := at + 256;
        k' := k' + 4;
      }
    }

    /** XXH3_digest_long(): on a copy of the accumulators. */
    method DigestLong() returns (a: Acc)
      requires Valid() && |fed| > 240
      ensures a == LongAcc(fed, Secret())
    {
      hide Keyed, PerBlock, LongAcc, Buffered;
      InFrame();
      a := DigestCopy(vector, acc[..], buffer[..], bufferedSize, nbStripesSoFar, nbStripesPerBlock, Secret(),
        secretLimit, fed);
    }

    /** XXH3_64bits_digest() */
    method Digest64() returns (h: Word)
      requires Valid() && |fed| < MAX_LEN
      ensures h == Hash64Of(fed, KeyOf())
    {
      hide LongAcc, Converge64, UpTo240, CustomSecret, KSecret, Buffered, Keyed, LongSecret, ShortSecret, ShortSeed,
           KeyOf;
      InFrame();
      KeySecrets();
      if totalLen > 240 {
        var a := DigestLong();
        h := ConvergeTo64(a, Secret(), totalLen);
      } else {
        WholeInBuffer();
        h := ShortHash64(buffer[..][..totalLen], if seed != 0 then KSecret() else Secret(), seed);
      }
    }

    /** XXH3_128bits_digest() */
    method Digest128() returns (h: Hash128)
      requires Valid() && |fed| < MAX_LEN
      ensures h == Hash128Of(fed, KeyOf())
    {
      hide LongAcc, Converge128, UpTo240Wide, CustomSecret, KSecret, Buffered, Keyed, LongSecret, ShortSecret,
           ShortSeed, KeyOf;
      InFrame();
      KeySecrets();
      if totalLen > 240 {
        var a := DigestLong();
        h := ConvergeTo128(a, Secret(), totalLen);
      } else {
        WholeInBuffer();
        h := ShortHash128(buffer[..][..totalLen], if seed != 0 then KSecret() else Secret(), seed);
      }
    }

    lemma KeySecrets()
      requires Keyed()
      ensures LongSecret(KeyOf()) == Secret()
      ensures ShortSecret(KeyOf()) == (if seed != 0 then KSecret() else Secret()) && ShortSeed(KeyOf()) == seed
    {
      hide CustomSecret, KSecret;
    }

    lemma WholeInBuffer()
      requires Valid() && |fed| <= 240
      ensures |fed| <= 256 && buffer[..][..|fed|] == fed && totalLen == |fed|
    {
      hide Keyed, Buffered;
      InFrame();
      BufferedWhole(fed, buffer[..], bufferedSize, acc[..], nbStripesSoFar, Secret());
      BelowMax(|fed|);
    }
  }

  method DigestCopy(v: Vector, acc: seq<Word>, buffer: seq<Byte>, buffered: nat, soFar: nat, perBlock: nat,
                    secret: Secret, limit: nat, ghost fed: seq<Byte>) returns (a: Acc)
    requires |acc| == 8 && perBlock == PerBlock(secret) && limit == |secret| - 64 && |fed| > 240
    requires Buffered(fed, buffer, buffered, acc, soFar, secret)
    ensures a == LongAcc(fed, secret)
  {
    hide Absorbed, Accumulated, PerBlock, Phase, LongAcc, Buffered, LastKey;
    LastStripe(fed, secret);
    BufferedFacts(fed, buffer, buffered, acc, soFar, secret);
    StripesLeft(|fed|, buffered);
    ghost var k := (|fed| - buffered) / 64;
    var copy := new Word[8](i requires 0 <= i < 8 => acc[i]);
    assert copy[..] == acc;
    if buffered >= 64 {
      DigestBuffer(v, copy, buffer, buffered, (buffered - 1) / 64, soFar, perBlock, secret, limit, fed, k);
    } else {
      BufferedTail(fed, buffer, buffered, acc, soFar, secret);
      DigestAround(v, copy, buffer, buffered, secret, limit, fed);
    }
    a := copy[..];
  }

  /** XXH3_digest_long() when the last stripe is wholly in the buffer. */
  method DigestBuffer(v: Vector, acc: array<Word>, buffer: seq<Byte>, buffered: nat, n: nat, soFar: nat, perBlock: nat,
                      secret: Secret, limit: nat, ghost fed: seq<Byte>, ghost k: nat)
    requires acc.Length == 8 && perBlock == PerBlock(secret) && limit == |secret| - 64
    requires 64 <= buffered <= 256 == |buffer| && n == (buffered - 1) / 64
    requires 64 * k == |fed| - buffered && buffer[..buffered] == fed[|fed| - buffered..]
    requires acc[..] == Absorbed(fed, secret, k) && soFar == Phase(secret, k)
    modifies acc
    ensures acc[..] == Accumulated(Absorbed(fed, secret, k + n), fed[|fed| - 64..|fed|],
            secret[limit - 7..limit - 7 + 64])
  {
    hide Absorbed, Accumulated, PerBlock, Phase;
    InBuffer(buffer, fed, buffered, 0, 64 * n);
    var _ := ConsumeStripes(v, acc, soFar, perBlock, buffer, 0, n, secret, limit, fed, k);
    InBuffer(buffer, fed, buffered, buffered - 64, buffered);
    Accumulate512By(v, acc, buffer, buffered - 64, secret, limit - 7);
  }

  /** XXH3_digest_long() when the last stripe starts in bytes that have been consumed. */
  method DigestAround(v: Vector, acc: array<Word>, buffer: seq<Byte>, buffered: nat, secret: Secret, limit: nat,
                      ghost fed: seq<Byte>)
    requires acc.Length == 8 && limit == |secret| - 64 && |buffer| == 256 && buffered < 64 && 64 <= |fed| - buffered
    requires buffer[..buffered] == fed[|fed| - buffered..]
    requires buffer[192..] == fed[|fed| - buffered - 64..|fed| - buffered]
    modifies acc
    ensures acc[..] == Accumulated(old(acc[..]), fed[|fed| - 64..|fed|], secret[limit - 7..limit - 7 + 64])
  {
    hide Accumulated;
    LastBytes(buffer, fed, buffered);
    hide Around;
    var last := Around(buffer, buffered);
    Accumulate512By(v, acc, last, 0, secret, limit - 7);
  }

  lemma BelowMax(a: nat)
    requires a < MAX_LEN
    ensures a % MAX_LEN == a
  {
  }

  lemma TotalLen(a: nat, b: nat)
    ensures (a % MAX_LEN + b) % MAX_LEN == (a + b) % MAX_LEN
  {
  }

  lemma FilledBuffer(buffer: seq<Byte>, fed: seq<Byte>, input: seq<Byte>, buffered: nat, k: nat)
    requires |buffer| == 256 && 0 < buffered <= 256 && 64 * k == |fed| - buffered && 256 - buffered <= |input|
    requires buffer[..buffered] == fed[|fed| - buffered..]
    ensures var whole, full := fed + input, Spliced(buffer, buffered, input[..256 - buffered]);
            full[0..256] == whole[64 * k..64 * k + 256] && full[192..] == whole[64 * k + 192..64 * k + 256]
  {
    var whole, full := fed + input, Spliced(buffer, buffered, input[..256 - buffered]);
    assert full == buffer[..buffered] + input[..256 - buffered];
    assert whole[64 * k..64 * k + 256] == fed[|fed| - buffered..] + input[..256 - buffered];
    assert full == full[0..256];
    SliceOfSlice(full, 0, 256, whole, 64 * k, 64 * k + 256, 192, 256);
  }

  lemma EndOfWhole(fed: seq<Byte>, input: seq<Byte>, i: nat, j: nat)
    requires i <= j <= |input|
    ensures input[i..j] == (fed + input)[|fed| + i..|fed| + j]
    ensures j == |input| ==> input[i..] == (fed + input)[|fed| + i..]
  {
  }

  lemma PartOfWhole(input: seq<Byte>, whole: seq<Byte>, start: nat, at: nat)
    requires start <= |whole| && whole[start..] == input && at + 256 <= |input|
    ensures input[at..at + 256] == whole[start + at..start + at + 256]
  {
  }

  lemma InBuffer(buffer: seq<Byte>, fed: seq<Byte>, buffered: nat, i: nat, j: nat)
    requires buffered <= |buffer| && buffered <= |fed| && buffer[..buffered] == fed[|fed| - buffered..]
             && i <= j <= buffered
    ensures buffer[i..j] == fed[|fed| - buffered + i..|fed| - buffered + j]
  {
    assert buffer[i..j] == buffer[..buffered][i..j];
  }

  /** The stripe that begins with the buffer's last bytes and goes on with its first. */
  function Around(buffer: seq<Byte>, buffered: nat): seq<Byte>
    requires |buffer| == 256 && buffered < 64
  {
    var catchup := 64 - buffered;
    buffer[256 - catchup..] + buffer[..buffered]
  }

  /** The last 64 bytes fed, some at the end of the buffer and some at its start. */
  lemma LastBytes(buffer: seq<Byte>, fed: seq<Byte>, buffered: nat)
    requires |buffer| == 256 && buffered < 64 && 64 <= |fed| && 64 <= |fed| - buffered
    requires buffer[..buffered] == fed[|fed| - buffered..]
    requires buffer[192..] == fed[|fed| - buffered - 64..|fed| - buffered]
    ensures var last := Around(buffer, buffered);
            |last| == 64 && last[0..64] == fed[|fed| - 64..|fed|]
  {
    assert buffer[192 + buffered..] == buffer[192..][buffered..];
  }

  // ----- any cutting -----

  /** Feed the chunks one by one. */
  method Feed(state: State, chunks: seq<seq<Byte>>)
    requires state.Valid()
    modifies state, state.acc, state.buffer
    ensures state.Valid() && state.KeyOf() == old(state.KeyOf()) && state.fed == old(state.fed) + Concat(chunks)
  {
    hide State.Valid, State.KeyOf;
    assert state.fed == state.fed + Concat([]);
    for i := 0 to |chunks|
      invariant state.Valid() && state.KeyOf() == old(state.KeyOf())
      invariant state.fed == old(state.fed) + Concat(chunks[..i])
    {
      var ok := state.Update(Some(chunks[i]));
      assert chunks[..i + 1][..i] == chunks[..i];
    }
    assert chunks[..|chunks|] == chunks;
  }

  /** However the input is cut, with any secret or seed, on a state that may have been used
      before: both digests are the one-shot hashes of the concatenation. */
  method HashInChunks(state: State, key: Key, chunks: seq<seq<Byte>>) returns (h64: Word, h128: Hash128)
    requires state.Seeded() && |Concat(chunks)| < MAX_LEN
    modifies state, state.acc, state.buffer, state.customSecret
    ensures h64 == Hash64Of(Concat(chunks), key) && h128 == Hash128Of(Concat(chunks), key)
    ensures state.Seeded()
  {
    hide State.Valid, Hash64Of, Hash128Of, KSecret;
    match key {
      case BySecret(secret) =>
        var ok := state.ResetWithSecret(Some(secret));
      case BySeed(seed) =>
        state.ResetWithSeed(seed);
        ZeroSeed(Concat(chunks));
    }
    assert state.fed + Concat(chunks) == Concat(chunks);
    Feed(state, chunks);
    h64 := state.Digest64();
    h128 := state.Digest128();
    ValidSeeded(state);
  }

  lemma ValidSeeded(state: State)
    requires state.Valid()
    ensures state.Seeded()
  {
  }
}
