/** XXH3_generateSecret(): a secret of 192 bytes from a seed of any length. */
module XxhGenerate {
  import opened Xxh3Words
  import opened Xxh3Short
  import opened ByteBuffers
  import opened Xxh3Mid
  import opened Xxh3Secret
  import opened Xxh3Long
  import opened Xxh3OneShot
  import opened XxhCanonical

  /** The seed over and over, cut after 96 bytes. */
  function Repeated(seed: seq<Byte>): (s: seq<Byte>)
    requires seed != []
    ensures |s| == 96
  {
    seq(96, i requires 0 <= i < 96 => seed[i % |seed|])
  }

  /** XXH128() in canonical form. */
  function CanonicalHash(input: seq<Byte>, seed: Word): (s: seq<Byte>)
    requires |input| < MAX_LEN
    ensures |s| == 16
  {
    Canonical128(LittleEndian, Hash128Of(input, BySeed(seed)))
  }

  function SegmentSeed(seed: seq<Byte>, k: nat): Word
    requires seed != [] && k < 12
  {
    Plus(ReadLE64(Repeated(seed), 8 * k), LenWord(k))
  }

  /** The first segment is the canonical hash of the seed, the others are hashes of that one. */
  function Segment(seed: seq<Byte>, k: nat): (s: seq<Byte>)
    requires seed != [] && |seed| < MAX_LEN && k < 12
    ensures |s| == 16
  {
    var scrambler := CanonicalHash(seed, 0);
    if k == 0 then scrambler else CanonicalHash(scrambler, SegmentSeed(seed, k))
  }

  function Segments(seed: seq<Byte>, n: nat): (s: seq<Byte>)
    requires seed != [] && |seed| < MAX_LEN && n <= 12
    ensures |s| == 16 * n
    decreases n
  {
    if n == 0 then [] else Segments(seed, n - 1) + Segment(seed, n - 1)
  }

  lemma Whole(x: nat, n: nat)
    requires 0 < n && x % n == 0
    ensures (x + x) % n == 0 && forall i: nat :: (x + i) % n == i % n
  {
    forall i: nat ensures (x + i) % n == i % n { AddWhole(x, i, n); }
    AddWhole(x, x, n);
  }

  lemma AddWhole(x: nat, i: nat, n: nat)
    requires 0 < n && x % n == 0
    ensures (x + i) % n == i % n
  {
    var q, r := x / n, i / n;
    DivisionOf(x, n);
    DivisionOf(i, n);
    Distribute(q, r, n);
    ModOf(x + i, q + r, i % n, n);
  }

  lemma Distribute(q: nat, r: nat, n: nat)
    ensures (q + r) * n == q * n + r * n
  {
  }

  /** The copying loop: it doubles what it has until the 96 bytes are full. */
  method FillSeeds(seeds: array<Byte>, customSeed: seq<Byte>)
    requires seeds.Length == 96 && customSeed != []
    modifies seeds
    ensures seeds[..] == Repeated(customSeed)
  {
    hide Spliced;
    var n := |customSeed|;
    var toFill := if n < 96 then n else 96;
    var filled := toFill;
    SplicedAt(seeds[..], 0, customSeed[..toFill]);
    Copy(seeds, 0, customSeed[..toFill]);
    FirstCopy(customSeed, toFill);
    while filled < 96
      invariant 0 < filled <= 96 && (filled == 96 || filled % n == 0)
      invariant forall i :: 0 <= i < filled ==> seeds[..][i] == customSeed[i % n]
    {
      toFill := if filled < 96 - filled then filled else 96 - filled;
      Whole(filled, n);
      SplicedAt(seeds[..], filled, seeds[..toFill]);
      Copy(seeds, filled, seeds[..toFill]);
      filled := filled + toFill;
    }
    assert seeds[..] == Repeated(customSeed);
  }

  lemma FirstCopy(seed: seq<Byte>, n: nat)
    requires seed != [] && n <= |seed|
    ensures forall i :: 0 <= i < n ==> i % |seed| == i
    ensures |seed| % |seed| == 0
  {
  }

  lemma SplicedAt(s: seq<Byte>, at: nat, src: seq<Byte>)
    requires at + |src| <= |s|
    ensures forall i :: 0 <= i < at ==> Spliced(s, at, src)[i] == s[i]
    ensures forall i :: at <= i < at + |src| ==> Spliced(s, at, src)[i] == src[i - at]
  {
  }

  /** XXH3_generateSecret(): the whole secret is written, byte by byte once, and nothing else. */
  method GenerateSecret(secretBuffer: array<Byte>, customSeed: seq<Byte>)
    requires secretBuffer.Length >= 192 && |customSeed| < MAX_LEN
    modifies secretBuffer
    ensures secretBuffer[..192] == if customSeed == [] then KSecret() else Segments(customSeed, 12)
    ensures secretBuffer[192..] == old(secretBuffer[192..])
  {
    hide Spliced, KSecret, CanonicalHash, Segment, SegmentSeed, Repeated;
    ghost var before := secretBuffer[..];
    if customSeed == [] {
      Written(before, [], KSecret());
      Copy(secretBuffer, 0, KSecret());
      return;
    }
    var seeds := new Byte[96];
    FillSeeds(seeds, customSeed);
    var scrambler := CanonicalHash(customSeed, 0);
    Written(before, [], scrambler);
    Copy(secretBuffer, 0, scrambler);
    FirstSegment(customSeed);
    for k := 1 to 12
      invariant secretBuffer[..][..16 * k] == Segments(customSeed, k)
      invariant secretBuffer[..][16 * k..] == before[16 * k..]
      invariant seeds[..] == Repeated(customSeed)
    {
      var segment := CanonicalHash(scrambler, Plus(ReadLE64(seeds[..], 8 * k), LenWord(k)));
      NextSegment(customSeed, k);
      Written(secretBuffer[..], Segments(customSeed, k), segment);
      Rest(secretBuffer[..], before, 16 * k);
      Copy(secretBuffer, 16 * k, segment);
    }
    assert secretBuffer[..192] == secretBuffer[..][..192] && secretBuffer[192..] == secretBuffer[..][192..];
  }

  lemma FirstSegment(seed: seq<Byte>)
    requires seed != [] && |seed| < MAX_LEN
    ensures Segments(seed, 1) == CanonicalHash(seed, 0)
  {
    assert Segments(seed, 0) == [];
    assert Segment(seed, 0) == CanonicalHash(seed, 0);
    hide CanonicalHash, Segment, SegmentSeed, Repeated;
    assert Segments(seed, 1) == Segments(seed, 0) + Segment(seed, 0);
  }

  lemma NextSegment(seed: seq<Byte>, k: nat)
    requires seed != [] && |seed| < MAX_LEN && 0 < k < 12
    ensures Segments(seed, k + 1) ==
            Segments(seed, k) + CanonicalHash(CanonicalHash(seed, 0), Plus(ReadLE64(Repeated(seed), 8 * k), LenWord(k)))
  {
    hide CanonicalHash, Repeated, ReadLE64;
  }

  /** After the part written so far comes the next. */
  lemma Written(s: seq<Byte>, done: seq<Byte>, next: seq<Byte>)
    requires |done| + |next| <= |s| && s[..|done|] == done
    ensures var r := Spliced(s, |done|, next);
            r[..|done| + |next|] == done + next && r[|done| + |next|..] == s[|done| + |next|..]
  {
  }

  lemma Rest(s: seq<Byte>, before: seq<Byte>, at: nat)
    requires |s| == |before| && at + 16 <= |s| && s[at..] == before[at..]
    ensures s[at + 16..] == before[at + 16..]
  {
    assert s[at..][16..] == s[at + 16..] && before[at..][16..] == before[at + 16..];
  }
}
