/** XXH3 in one pass: the hash as a function of the input and its key (a secret, or a seed). */
module Xxh3OneShot {
  import opened Xxh3Words
  import opened Xxh3Short
  import opened Xxh3Mid
  import opened Xxh3Secret
  import opened Xxh3Lanes
  import opened Xxh3Vector
  import opened Xxh3Long

  /** XXH3_*_withSecret() or XXH3_*_withSeed(). The plain functions use the built-in secret. */
  datatype Key = BySecret(secret: Secret) | BySeed(seed: Word)

  function LongSecret(key: Key): Secret {
    match key
    case BySecret(s) => s
    case BySeed(seed) => if seed == 0 then KSecret() else CustomSecret(seed)
  }

  function ShortSecret(key: Key): Secret {
    match key
    case BySecret(s) => s
    case BySeed(_) => KSecret()
  }

  function ShortSeed(key: Key): Word {
    match key
    case BySecret(_) => 0
    case BySeed(seed) => seed
  }

  /** The 64-bit hash. */
  function Hash64Of(input: seq<Byte>, key: Key): Word
    requires |input| < MAX_LEN
  {
    if |input| <= 240 then UpTo240(input, ShortSecret(key), ShortSeed(key))
    else Converge64(LongAcc(input, LongSecret(key)), LongSecret(key), |input|)
  }

  /** The 128-bit hash. */
  function Hash128Of(input: seq<Byte>, key: Key): Hash128
    requires |input| < MAX_LEN
  {
    if |input| <= 240 then UpTo240Wide(input, ShortSecret(key), ShortSeed(key))
    else Converge128(LongAcc(input, LongSecret(key)), LongSecret(key), |input|)
  }

  /** A seed of zero is no seed. */
  lemma ZeroSeed(input: seq<Byte>)
    requires |input| < MAX_LEN
    ensures Hash64Of(input, BySeed(0)) == Hash64Of(input, BySecret(KSecret()))
    ensures Hash128Of(input, BySeed(0)) == Hash128Of(input, BySecret(KSecret()))
  {
    hide KSecret, UpTo240, UpTo240Wide, LongAcc, Converge64, Converge128;
  }

  // ----- the functions that compute it -----

  method ShortHash64(input: seq<Byte>, secret: Secret, seed: Word) returns (h: Word)
    requires |input| <= 240
    ensures h == UpTo240(input, secret, seed)
  {
    hide Len0to16, Len17to128, Len129to240;
    if |input| <= 16 {
      h := Len0to16(input, secret, seed);
    } else if |input| <= 128 {
      h := Len17to128(input, secret, seed);
    } else {
      h := HashLen129to240(input, secret, seed);
    }
  }

  method ShortHash128(input: seq<Byte>, secret: Secret, seed: Word) returns (h: Hash128)
    requires |input| <= 240
    ensures h == UpTo240Wide(input, secret, seed)
  {
    hide Hash, Len17to128Wide, Len129to240Wide;
    if |input| <= 16 {
      h := Hash(input, secret, seed);
    } else if |input| <= 128 {
      h := Len17to128Wide(input, secret, seed);
    } else {
      h := HashLen129to240Wide(input, secret, seed);
    }
  }

  /** The accumulators for a long input, and the converging of each width. */
  method LongAccOf(v: Vector, input: seq<Byte>, secret: Secret) returns (a: Acc)
    requires 64 < |input|
    ensures a == LongAcc(input, secret)
  {
    hide LongAcc, InitAcc;
    var init := InitAcc();
    var acc := new Word[8](i requires 0 <= i < 8 => init[i]);
    assert acc[..] == init;
    HashLongLoop(v, acc, input, secret);
    a := acc[..];
  }

  method ConvergeTo64(acc: Acc, secret: Secret, len: nat) returns (h: Word)
    requires len < MAX_LEN
    ensures h == Converge64(acc, secret, len)
  {
    hide Merged;
    h := MergeAccs(acc, secret, 11, TimesPrime1(LenWord(len)));
  }

  method ConvergeTo128(acc: Acc, secret: Secret, len: nat) returns (h: Hash128)
    requires len < MAX_LEN
    ensures h == Converge128(acc, secret, len)
  {
    hide Merged;
    var low := ConvergeTo64(acc, secret, len);
    var high := MergeAccs(acc, secret, |secret| - 64 - 11, Complement(TimesPrime2(LenWord(len))));
    h := Hash128(low, high);
  }

  method SecretOf(v: Vector, key: Key) returns (s: Secret)
    ensures s == LongSecret(key)
  {
    hide KSecret, CustomSecret;
    match key
    case BySecret(secret) => s := secret;
    case BySeed(seed) =>
      if seed == 0 {
        s := KSecret();
      } else {
        var custom := new Byte[192];
        InitCustomSecretBy(v, custom, seed);
        s := custom[..];
      }
  }

  /** XXH3_64bits_withSecret(), XXH3_64bits_withSeed(): the hash does not depend on the vector
      choice. */
  method OneShot64(v: Vector, input: seq<Byte>, key: Key) returns (h: Word)
    requires |input| < MAX_LEN
    ensures h == Hash64Of(input, key)
  {
    hide UpTo240, LongAcc, Converge64, ShortSecret, ShortSeed, LongSecret;
    if |input| <= 240 {
      h := ShortHash64(input, ShortSecret(key), ShortSeed(key));
    } else {
      var secret := SecretOf(v, key);
      var acc := LongAccOf(v, input, secret);
      h := ConvergeTo64(acc, secret, |input|);
    }
  }

  /** XXH3_128bits_withSecret(), XXH3_128bits_withSeed(): nor does this one. */
  method OneShot128(v: Vector, input: seq<Byte>, key: Key) returns (h: Hash128)
    requires |input| < MAX_LEN
    ensures h == Hash128Of(input, key)
  {
    hide UpTo240Wide, LongAcc, Converge128, ShortSecret, ShortSeed, LongSecret;
    if |input| <= 240 {
      h := ShortHash128(input, ShortSecret(key), ShortSeed(key));
    } else {
      var secret := SecretOf(v, key);
      var acc := LongAccOf(v, input, secret);
      h := ConvergeTo128(acc, secret, |input|);
    }
  }
}
