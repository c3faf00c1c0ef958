/** The garbage collector's pointer bitmaps: filling whole words (include/core/heap.h) against
    setting bits one at a time (include/core/object.h). Words are 64-bit, as integers. */
module GcBitmap {

  const W64: nat := 0x1_0000_0000_0000_0000

  function Pow2(k: nat): (p: nat)
    ensures p > 0
  {
    if k == 0 then 1 else 2 * Pow2(k - 1)
  }

  function Bit(w: nat, i: nat): bool
    decreases i
  {
    if i == 0 then w % 2 == 1 else Bit(w / 2, i - 1)
  }

  /** w | (1 << b) */
  function SetIn(w: nat, b: nat): nat
    decreases b
  {
    if b == 0 then (if w % 2 == 1 then w else w + 1) else 2 * SetIn(w / 2, b - 1) + w % 2
  }

  lemma {:induction false} SetInBits(w: nat, b: nat, i: nat)
    ensures Bit(SetIn(w, b), i) <==> i == b || Bit(w, i)
    decreases b
  {
    if b == 0 {
      if i > 0 && w % 2 == 0 { assert (w + 1) / 2 == w / 2; }
    } else if i > 0 {
      assert SetIn(w, b) / 2 == SetIn(w / 2, b - 1);
      SetInBits(w / 2, b - 1, i - 1);
    }
  }

  /** (1 << k) - 1: the lowest k bits. */
  function Ones(k: nat): nat {
    Pow2(k) - 1
  }

  lemma {:induction false} OnesBits(k: nat, i: nat)
    ensures Bit(Ones(k), i) <==> i < k
    decreases k
  {
    if k == 0 {
      ZeroBits(i);
    } else {
      assert Ones(k) == 2 * Ones(k - 1) + 1;
      if i > 0 { OnesBits(k - 1, i - 1); }
    }
  }

  lemma {:induction false} ZeroBits(i: nat)
    ensures !Bit(0, i)
  {
    if i > 0 { ZeroBits(i - 1); }
  }

  /** Setting the next bit of a word whose lower bits are set. */
  lemma {:induction false} NextOne(k: nat)
    ensures SetIn(Ones(k), k) == Ones(k + 1)
  {
    if k > 0 {
      assert Ones(k) == 2 * Ones(k - 1) + 1;
      assert Ones(k + 1) == 2 * Ones(k) + 1;
      NextOne(k - 1);
    }
  }

  lemma SmallPower()
    ensures Pow2(8) == 256
  {
    assert Pow2(4) == 16;
  }

  lemma AllOnes()
    ensures Pow2(64) == W64
  {
    SmallPower();
    hide Pow2;
    PowerSum(8, 8);
    PowerSum(16, 16);
    PowerSum(32, 32);
  }

  lemma PowerStep(k: nat)
    requires k > 0
    ensures Pow2(k) == 2 * Pow2(k - 1)
  {
  }

  lemma TimesTwo(x: nat, y: nat)
    ensures 2 * (x * y) == (2 * x) * y
  {
  }

  lemma {:induction false} PowerSum(a: nat, b: nat)
    ensures Pow2(a + b) == Pow2(a) * Pow2(b)
    decreases a
  {
    if a > 0 {
      PowerSum(a - 1, b);
      PowerStep(a);
      PowerStep(a + b);
      hide Pow2;
      TimesTwo(Pow2(a - 1), Pow2(b));
    }
  }

  // ----- the bitmap -----

  /** Bit j of a bitmap: word j / 64, bit j % 64. */
  predicate Marked(field: seq<nat>, j: nat) {
    j / 64 < |field| && Bit(field[j / 64], j % 64)
  }

  /** n00b_set_bit() */
  method SetBit(bitfield: array<nat>, ix: nat)
    requires ix / 64 < bitfield.Length
    modifies bitfield
    ensures bitfield[..] == old(bitfield[..])[ix / 64 := SetIn(old(bitfield[ix / 64]), ix % 64)]
    ensures forall j: nat :: Marked(bitfield[..], j) <==> j == ix || Marked(old(bitfield[..]), j)
  {
    ghost var before := bitfield[..];
    bitfield[ix / 64] := SetIn(bitfield[ix / 64], ix % 64);
    assert bitfield[..] == before[ix / 64 := SetIn(before[ix / 64], ix % 64)];
    forall j: nat ensures Marked(bitfield[..], j) <==> j == ix || Marked(before, j) {
      if j / 64 == ix / 64 { SetInBits(before[ix / 64], ix % 64, j % 64); }
    }
  }

  /** The words that have exactly the first `count` bits set. */
  function Prefix(words: nat, count: nat): seq<nat> {
    seq(words, w requires 0 <= w < words => OnesOf(w, count))
  }

  function OnesOf(w: nat, count: nat): nat {
    if 64 * w + 64 <= count then Ones(64) else if count <= 64 * w then 0 else Ones(count - 64 * w)
  }

  lemma PrefixMarks(words: nat, count: nat, j: nat)
    ensures Marked(Prefix(words, count), j) <==> j < count && j / 64 < words
  {
    if j / 64 < words {
      var w := j / 64;
      assert Prefix(words, count)[w] == OnesOf(w, count);
      if 64 * w + 64 <= count {
        OnesBits(64, j % 64);
      } else if count <= 64 * w {
        ZeroBits(j % 64);
      } else {
        OnesBits(count - 64 * w, j % 64);
      }
    }
  }

  /** n00b_set_bit() for 0 up to diff, on a zeroed field: the reference. */
  method MarkOneByOne(bitfield: array<nat>, diff: nat)
    requires diff / 64 < bitfield.Length && forall w :: 0 <= w < bitfield.Length ==> bitfield[w] == 0
    modifies bitfield
    ensures bitfield[..] == Prefix(bitfield.Length, diff + 1)
    ensures forall j: nat :: Marked(bitfield[..], j) <==> j <= diff
  {
    hide Ones;
    assert bitfield[..] == Prefix(bitfield.Length, 0);
    for i := 0 to diff + 1
      invariant bitfield[..] == Prefix(bitfield.Length, i)
    {
      SetBit(bitfield, i);
      NextInPrefix(bitfield.Length, i);
    }
    forall j: nat ensures Marked(bitfield[..], j) <==> j <= diff { PrefixMarks(bitfield.Length, diff + 1, j); }
  }

  lemma NextInPrefix(words: nat, i: nat)
    requires i / 64 < words
    ensures Prefix(words, i + 1) == Prefix(words, i)[i / 64 := SetIn(Prefix(words, i)[i / 64], i % 64)]
  {
    hide Ones;
    NextOne(i % 64);
    assert Ones(0) == 0 by { NoOnes(); }
    forall w | 0 <= w < words && w != i / 64 ensures OnesOf(w, i + 1) == OnesOf(w, i) {
    }
  }

  lemma NoOnes()
    ensures Ones(0) == 0
  {
  }

  /** (1ULL << (diff + 1)) - 1 for diff < 64. C gives the shift by 64 no meaning; `wide` is what
      the machine makes of it. */
  function LastWord(diff: nat, wide: nat): nat
    requires diff < 64 && wide < W64
  {
    ((if diff == 63 then wide else Pow2(diff + 1)) + W64 - 1) % W64
  }

  /** Full words, then the last word; the rest of the field stays. */
  function RawWords(field: seq<nat>, diff: nat, wide: nat): seq<nat>
    requires diff / 64 < |field| && wide < W64
  {
    seq(diff / 64, w => W64 - 1) + [LastWord(diff % 64, wide)] + field[diff / 64 + 1..]
  }

  /** n00b_mark_raw_to_addr(), `diff` words from base to end. */
  method MarkRawToAddr(bitfield: array<nat>, diff: nat, wide: nat)
    requires diff / 64 < bitfield.Length && wide < W64
    modifies bitfield
    ensures bitfield[..] == RawWords(old(bitfield[..]), diff, wide)
  {
    var left, at := diff, 0;
    while left >= 64
      invariant at <= diff / 64 && left == diff - 64 * at
      invariant bitfield[..at] == seq(at, w => W64 - 1) && bitfield[at..] == old(bitfield[at..])
    {
      bitfield[at] := W64 - 1;
      at := at + 1;
      left := left - 64;
    }
    bitfield[at] := LastWord(left, wide);
    assert old(bitfield[..])[diff / 64 + 1..] == old(bitfield[diff / 64 + 1..]);
  }

  lemma {:induction false} PowerBelow(k: nat)
    requires k < 64
    ensures Pow2(k) < W64
    decreases 64 - k
  {
    if k == 63 { AllOnes(); } else { PowerBelow(k + 1); }
  }

  /** On a zeroed field the loop makes the same bitmap as the single bits, for every distance, if
      and only if the final shift is not by 64, or the machine happens to shift everything out. */
  lemma RawMarksIff(words: nat, diff: nat, wide: nat)
    requires diff / 64 < words && wide < W64
    ensures RawWords(seq(words, w => 0), diff, wide) == Prefix(words, diff + 1) <==> diff % 64 != 63 || wide == 0
  {
    hide Ones;
    var raw := RawWords(seq(words, w => 0), diff, wide);
    var right := Prefix(words, diff + 1);
    LastWordIff(diff % 64, wide);
    assert Ones(64) == W64 - 1 by { FullWord(); }
    forall w | 0 <= w < words && w != diff / 64 ensures raw[w] == right[w] {
    }
    assert raw[diff / 64] == LastWord(diff % 64, wide);
    assert right[diff / 64] == Ones(diff % 64 + 1);
    if LastWord(diff % 64, wide) == Ones(diff % 64 + 1) { assert raw == right; }
  }

  lemma FullWord()
    ensures Ones(64) == W64 - 1
  {
    AllOnes();
  }

  lemma LastWordIff(d: nat, wide: nat)
    requires d < 64 && wide < W64
    ensures LastWord(d, wide) == Ones(d + 1) <==> d != 63 || wide == 0
  {
    if d == 63 {
      AllOnes();
    } else {
      PowerBelow(d + 1);
    }
  }

  /** Where shift counts are taken modulo 64, the last word comes out empty: of the 64 words it
      stands for, none is traced. */
  lemma ShiftCountWraps(words: nat, diff: nat)
    requires diff / 64 < words && diff % 64 == 63
    ensures LastWord(diff % 64, 1) == 0
    ensures RawWords(seq(words, w => 0), diff, 1) != Prefix(words, diff + 1)
  {
    RawMarksIff(words, diff, 1);
  }
}
