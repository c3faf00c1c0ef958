/** The portable 64-by-64-bit product of include/hatrack/xxhash.h, on integers: no intermediate
    sum overflows, and the two words are the exact product. */
module XxhProduct {

  const W32: nat := 0x1_0000_0000
  const W64: nat := 0x1_0000_0000_0000_0000

  type Word = x: nat | x < W64

  datatype Product = Product(low64: Word, high64: Word)

  /** XXH_mult32to64() of two 32-bit values. */
  function Mult32(x: nat, y: nat): (p: Word)
    requires x < W32 && y < W32
    ensures p == x * y <= (W32 - 1) * (W32 - 1)
  {
    Bounded(x, y);
    x * y
  }

  lemma Bounded(x: nat, y: nat)
    requires x < W32 && y < W32
    ensures x * y <= (W32 - 1) * (W32 - 1)
  {
    Monotone(x, W32 - 1, y);
    Monotone(y, W32 - 1, W32 - 1);
  }

  lemma {:induction false} Monotone(a: nat, b: nat, c: nat)
    requires a <= b
    ensures a * c <= b * c && c * a <= c * b
    decreases b - a
  {
    if a < b {
      Monotone(a + 1, b, c);
      assert (a + 1) * c == a * c + c;
    }
  }

  /** cross and upper, before any reduction modulo 2^64. */
  function Cross(l: Word, r: Word): nat {
    Mult32(l % W32, r % W32) / W32 + Mult32(l / W32, r % W32) % W32 + Mult32(l % W32, r / W32)
  }

  function Upper(l: Word, r: Word): nat {
    Mult32(l / W32, r % W32) / W32 + Cross(l, r) / W32 + Mult32(l / W32, r / W32)
  }

  /** "These will never overflow." */
  lemma NoOverflow(l: Word, r: Word)
    ensures Cross(l, r) < W64 && Upper(l, r) < W64
  {
  }

  /** The scalar branch of XXH_mult64to128(): every sum is reduced modulo 2^64, as the machine
      does; a shift by 32 to the left drops the upper half. */
  function Mult64to128(l: Word, r: Word): Product {
    var loLo := Mult32(l % W32, r % W32);
    var hiLo := Mult32(l / W32, r % W32);
    var loHi := Mult32(l % W32, r / W32);
    var hiHi := Mult32(l / W32, r / W32);
    var cross := ((loLo / W32 + hiLo % W32) % W64 + loHi) % W64;
    var upper := ((hiLo / W32 + cross / W32) % W64 + hiHi) % W64;
    var lower := (cross * W32) % W64 + loLo % W32;
    assert (cross * W32) % W64 <= W64 - W32 by { ShiftedWord(cross); }
    Product(lower, upper)
  }

  lemma ShiftedWord(x: nat)
    ensures (x * W32) % W64 == (x % W32) * W32 <= W64 - W32
  {
    var q := x / W32;
    assert x * W32 == q * W64 + (x % W32) * W32;
  }

  /** The two words are the product. */
  lemma ExactProduct(l: Word, r: Word)
    ensures var p := Mult64to128(l, r); p.low64 + W64 * p.high64 == l * r
  {
    hide Mult32;
    var lh, ll, rh, rl := l / W32, l % W32, r / W32, r % W32;
    Columns(Mult32(ll, rl), Mult32(lh, rl), Mult32(ll, rh), Mult32(lh, rh));
    Expand(lh, ll, rh, rl);
  }

  /** The sums by columns of 32 bits. */
  lemma Columns(loLo: Word, hiLo: Word, loHi: Word, hiHi: Word)
    requires loLo <= (W32 - 1) * (W32 - 1) && hiLo <= (W32 - 1) * (W32 - 1)
    requires loHi <= (W32 - 1) * (W32 - 1) && hiHi <= (W32 - 1) * (W32 - 1)
    ensures var cross := ((loLo / W32 + hiLo % W32) % W64 + loHi) % W64;
            var upper := ((hiLo / W32 + cross / W32) % W64 + hiHi) % W64;
            (cross * W32) % W64 + loLo % W32 + W64 * upper == loLo + W32 * hiLo + W32 * loHi + W64 * hiHi
  {
    var cross := loLo / W32 + hiLo % W32 + loHi;
    var upper := hiLo / W32 + cross / W32 + hiHi;
    ShiftedWord(cross);
    Reduced(loLo / W32 + hiLo % W32);
    Reduced(cross);
    Reduced(hiLo / W32 + cross / W32);
    Reduced(upper);
    ColumnSum(loLo / W32, loLo % W32, hiLo / W32, hiLo % W32, loHi, hiHi, cross / W32, cross % W32);
  }

  lemma Reduced(x: nat)
    requires x < W64
    ensures x % W64 == x
  {
  }

  lemma ColumnSum(a1: nat, a0: nat, b1: nat, b0: nat, loHi: nat, hiHi: nat, c1: nat, c0: nat)
    requires a1 + b0 + loHi == c1 * W32 + c0
    ensures c0 * W32 + a0 + W64 * (b1 + c1 + hiHi) == (a1 * W32 + a0) + W32 * (b1 * W32 + b0) + W32 * loHi + W64 * hiHi
  {
  }

  lemma Expand(lh: nat, ll: nat, rh: nat, rl: nat)
    ensures (lh * W32 + ll) * (rh * W32 + rl) == ll * rl + W32 * (lh * rl) + W32 * (ll * rh) + W64 * (lh * rh)
  {
    assert (lh * W32 + ll) * (rh * W32 + rl) == (lh * W32 + ll) * (rh * W32) + (lh * W32 + ll) * rl;
    assert (lh * W32 + ll) * rl == W32 * (lh * rl) + ll * rl;
    assert (lh * W32 + ll) * (rh * W32) == W64 * (lh * rh) + W32 * (ll * rh);
  }

  /** So it agrees with the branches that multiply in one instruction. */
  lemma NativeProduct(l: Word, r: Word)
    ensures Mult64to128(l, r).low64 == (l * r) % W64
    ensures Mult64to128(l, r).high64 == (l * r) / W64
  {
    ExactProduct(l, r);
  }
}
