/** The eight accumulator lanes of XXH3's long-input loop. */
module Xxh3Lanes {
  import opened Xxh3Words
  import opened Xxh3Short

  type Stripe = s: seq<Byte> | |s| == 64 witness seq(64, i => 0)
  type Acc = a: seq<Word> | |a| == 8 witness seq(8, i => 0)

  /** XXH3_INIT_ACC */
  function InitAcc(): Acc {
    [0xC2B2AE3D, 0x9E3779B185EBCA87, 0xC2B2AE3D27D4EB4F, 0x165667B19E3779F9,
     0x85EBCA77C2B2AE63, 0x85EBCA77, 0x27D4EB2F165667C5, 0x9E3779B1]
  }

  function Lane(s: Stripe, i: nat): Word
    requires i < 8
  {
    ReadLE64(s, 8 * i)
  }

  /** i ^ 1 */
  function Partner(i: nat): nat {
    if i % 2 == 0 then i + 1 else i - 1
  }

  // ----- one lane -----

  /** XXH_mult32to64(key & 0xFFFFFFFF, key >> 32) */
  function HalvesProduct(key: Word): Word {
    (key & 0xFFFF_FFFF) * (key >> 32)
  }

  /** What the scalar loop makes of lane i: the order of the two additions is that of the loop. */
  function LaneScalar(acc: Word, key: Word, data: Word, i: nat): Word {
    if i % 2 == 0 then Plus(Plus(acc, HalvesProduct(key)), data) else Plus(Plus(acc, data), HalvesProduct(key))
  }

  function XorShift47(x: Word): Word {
    x ^ (x >> 47)
  }

  /** XXH3_scrambleAcc_scalar(), one lane */
  function ScrambleLane(acc: Word, key: Word): Word {
    TimesPrime32(Xor(XorShift47(acc), key))
  }

  /** x * XXH_PRIME32_1 */
  function TimesPrime32(x: Word): Word {
    x * 0x9E37_79B1
  }

  // ----- all eight -----

  /** XXH3_accumulate_512() */
  function Accumulated(acc: Acc, stripe: Stripe, key: Stripe): (r: Acc) {
    seq(8, i requires 0 <= i < 8 => LaneScalar(acc[i], Xor(Lane(stripe, i), Lane(key, i)), Lane(stripe, Partner(i)), i))
  }

  /** XXH3_scrambleAcc() */
  function Scrambled(acc: Acc, key: Stripe): Acc {
    seq(8, i requires 0 <= i < 8 => ScrambleLane(acc[i], Lane(key, i)))
  }

  // ----- in place -----

  /** Lane j after the first i rounds of the scalar loop: round j adds the lane's own product,
      and the round of its neighbour adds that neighbour's data. */
  function LaneSoFar(acc: Word, key: Word, data: Word, j: nat, i: nat): Word {
    if j % 2 == 0 then
      if i <= j then acc
      else if i == j + 1 then Plus(acc, HalvesProduct(key))
      else Plus(Plus(acc, HalvesProduct(key)), data)
    else
      if i < j then acc else if i == j then Plus(acc, data) else Plus(Plus(acc, data), HalvesProduct(key))
  }

  /** XXH3_accumulate_512_scalar() on the stripe of `input` at `at` and the secret at `keyAt`. */
  method Accumulate512(acc: array<Word>, input: seq<Byte>, at: nat, secret: seq<Byte>, keyAt: nat)
    requires acc.Length == 8 && at + 64 <= |input| && keyAt + 64 <= |secret|
    modifies acc
    ensures acc[..] == Accumulated(old(acc[..]), input[at..at + 64], secret[keyAt..keyAt + 64])
  {
    hide Plus, HalvesProduct, Xor, ReadLE64, Accumulated, LaneAt;
    ghost var a: Acc, stripe: Stripe, key: Stripe := acc[..], input[at..at + 64], secret[keyAt..keyAt + 64];
    NoRounds(a, stripe, key);
    for i := 0 to 8
      invariant forall j :: 0 <= j < 8 ==> acc[j] == LaneAt(a, stripe, key, j, i)
    {
      ReadInSlice(input, at, 8 * i);
      ReadInSlice(secret, keyAt, 8 * i);
      var data := ReadLE64(input, at + 8 * i);
      var dataKey := Xor(data, ReadLE64(secret, keyAt + 8 * i));
      acc[Partner(i)] := Plus(acc[Partner(i)], data);
      acc[i] := Plus(acc[i], HalvesProduct(dataKey));
      Round(a, stripe, key, i);
    }
    AllRounds(a, stripe, key);
  }

  function LaneAt(a: Acc, stripe: Stripe, key: Stripe, j: nat, i: nat): Word
    requires j < 8
  {
    LaneSoFar(a[j], Xor(Lane(stripe, j), Lane(key, j)), Lane(stripe, Partner(j)), j, i)
  }

  /** Round i adds data to the neighbour and the product to its own lane, and leaves the others. */
  lemma Round(a: Acc, stripe: Stripe, key: Stripe, i: nat)
    requires i < 8
    ensures LaneAt(a, stripe, key, Partner(i), i + 1) == Plus(LaneAt(a, stripe, key, Partner(i), i), Lane(stripe, i))
    ensures LaneAt(a, stripe, key, i, i + 1) ==
            Plus(LaneAt(a, stripe, key, i, i), HalvesProduct(Xor(Lane(stripe, i), Lane(key, i))))
    ensures forall j: nat :: j < 8 && j != i && j != Partner(i) ==>
            LaneAt(a, stripe, key, j, i + 1) == LaneAt(a, stripe, key, j, i)
  {
    hide Plus, HalvesProduct, Xor, Lane;
  }

  lemma NoRounds(a: Acc, stripe: Stripe, key: Stripe)
    ensures forall j: nat :: j < 8 ==> LaneAt(a, stripe, key, j, 0) == a[j]
  {
    hide Plus, HalvesProduct, Xor, Lane;
  }

  lemma AllRounds(a: Acc, stripe: Stripe, key: Stripe)
    ensures forall j: nat :: j < 8 ==> LaneAt(a, stripe, key, j, 8) == Accumulated(a, stripe, key)[j]
  {
    hide Plus, HalvesProduct, Xor, Lane;
  }

  lemma ReadInSlice(s: seq<Byte>, at: nat, i: nat)
    requires at + 64 <= |s| && i + 8 <= 64
    ensures ReadLE64(s[at..at + 64], i) == ReadLE64(s, at + i)
  {
    hide Join32, Join64;
  }

  /** XXH3_scrambleAcc_scalar() */
  method ScrambleAcc(acc: array<Word>, secret: seq<Byte>, keyAt: nat)
    requires acc.Length == 8 && keyAt + 64 <= |secret|
    modifies acc
    ensures acc[..] == Scrambled(old(acc[..]), secret[keyAt..keyAt + 64])
  {
    hide ScrambleLane, ReadLE64;
    ghost var a: Acc, key: Stripe := acc[..], secret[keyAt..keyAt + 64];
    for i := 0 to 8
      invariant forall j :: 0 <= j < i ==> acc[j] == ScrambleLane(a[j], Lane(key, j))
      invariant forall j :: i <= j < 8 ==> acc[j] == a[j]
    {
      ReadInSlice(secret, keyAt, 8 * i);
      acc[i] := ScrambleLane(acc[i], ReadLE64(secret, keyAt + 8 * i));
    }
  }
}
