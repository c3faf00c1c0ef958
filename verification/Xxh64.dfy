/** XXH64: the streaming digest is the one-shot hash for every cutting of an input of less than
    2^64 bytes. */
module Xxh64 {
  import opened Options
  import opened Xxh3Words
  import opened Xxh3Short
  import opened ByteBuffers
  import opened Xxh3Mid

  datatype Lanes = Lanes(v1: Word, v2: Word, v3: Word, v4: Word)

  /** XXH64_round() */
  function Round(acc: Word, input: Word): Word {
    TimesPrime1(Rotl64(Plus(acc, TimesPrime2(input)), 31))
  }

  /** XXH64_mergeRound() */
  function MergeRound(acc: Word, v: Word): Word {
    Plus(TimesPrime1(Xor(acc, Round(0, v))), 0x85EBCA77C2B2AE63)
  }

  function Start(seed: Word): Lanes {
    Lanes(Plus(seed, 0x9E3779B185EBCA87 + 0xC2B2AE3D27D4EB4F), Plus(seed, 0xC2B2AE3D27D4EB4F),
          seed, Minus(seed, 0x9E3779B185EBCA87))
  }

  function Block(l: Lanes, b: seq<Byte>): Lanes
    requires |b| == 32
  {
    Lanes(Round(l.v1, ReadLE64(b, 0)), Round(l.v2, ReadLE64(b, 8)), Round(l.v3, ReadLE64(b, 16)),
      Round(l.v4, ReadLE64(b, 24)))
  }

  /** The lanes after whole blocks. */
  function Blocks(seed: Word, data: seq<Byte>): Lanes
    requires |data| % 32 == 0
    decreases |data|
  {
    if data == [] then Start(seed)
    else Block(Blocks(seed, data[..|data| - 32]), data[|data| - 32..])
  }

  function Converge(l: Lanes): Word {
    var h := Plus(Plus(Plus(Rotl64(l.v1, 1), Rotl64(l.v2, 7)), Rotl64(l.v3, 12)), Rotl64(l.v4, 18));
    MergeRound(MergeRound(MergeRound(MergeRound(h, l.v1), l.v2), l.v3), l.v4)
  }

  // ----- the finalizer -----

  function Process8(h: Word, w: Word): Word {
    Plus(TimesPrime1(Rotl64(Xor(h, Round(0, w)), 27)), 0x85EBCA77C2B2AE63)
  }

  function Process4(h: Word, w: bv32): Word {
    Plus(TimesPrime2(Rotl64(Xor(h, TimesPrime1(Widen(w))), 23)), 0x165667B19E3779F9)
  }

  function Process1(h: Word, b: Byte): Word {
    TimesPrime1(Rotl64(Xor(h, TimesPrime5(b as Word)), 11))
  }

  /** XXH_PRIME64_5 */
  function TimesPrime5(x: Word): Word {
    x * 0x27D4EB2F165667C5
  }

  /** The tail by long words, then a word, then bytes. */
  function Tail(h: Word, data: seq<Byte>): Word
    decreases |data|
  {
    if |data| >= 8 then Tail(Process8(h, ReadLE64(data, 0)), data[8..])
    else if |data| >= 4 then Tail(Process4(h, ReadLE32(data, 0)), data[4..])
    else if |data| > 0 then Tail(Process1(h, data[0]), data[1..])
    else Avalanche64(h)
  }

  /** XXH64_finalize(): only len modulo 32 matters. */
  method Finalize(h0: Word, data: seq<Byte>, len: nat) returns (h: Word)
    requires |data| == len % 32
    ensures h == Tail(h0, data)
  {
    hide Process8, Process4, Process1, Avalanche64, ReadLE32, ReadLE64;
    h := h0;
    var at := 0;
    var left := len % 32;
    while left >= 8
      invariant 0 <= left && at + left == |data| && Tail(h, data[at..]) == Tail(h0, data)
    {
      ReadFrom(data, at);
      assert data[at..][8..] == data[at + 8..];
      h := Process8(h, ReadLE64(data, at));
      at := at + 8;
      left := left - 8;
    }
    if left >= 4 {
      ReadFrom(data, at);
      assert data[at..][4..] == data[at + 4..];
      h := Process4(h, ReadLE32(data, at));
      at := at + 4;
      left := left - 4;
    }
    while left > 0
      invariant 0 <= left < 4 && at + left == |data| && Tail(h, data[at..]) == Tail(h0, data)
    {
      assert data[at..][1..] == data[at + 1..];
      h := Process1(h, data[at]);
      at := at + 1;
      left := left - 1;
    }
    assert data[at..] == [];
    h := Avalanche64(h);
  }

  lemma ReadFrom(data: seq<Byte>, at: nat)
    requires at + 4 <= |data|
    ensures ReadLE32(data[at..], 0) == ReadLE32(data, at)
    ensures at + 8 <= |data| ==> ReadLE64(data[at..], 0) == ReadLE64(data, at)
  {
    hide Join32, Join64;
  }

  // ----- one pass -----

  /** XXH64() */
  function Hash64Of(input: seq<Byte>, seed: Word): Word
    requires |input| < MAX_LEN
  {
    var n := |input| - |input| % 32;
    var h := if |input| >= 32 then Converge(Blocks(seed, input[..n])) else Plus(seed, 0x27D4EB2F165667C5);
    Tail(Plus(h, LenWord(|input|)), input[n..])
  }

  /** XXH64_endian_align() */
  method OneShot64(input: seq<Byte>, seed: Word) returns (h: Word)
    requires |input| < MAX_LEN
    ensures h == Hash64Of(input, seed)
  {
    hide Block, Start, Converge, Tail, Plus, LenWord, Blocks;
    var len := |input|;
    var at := 0;
    if len >= 32 {
      var l := Start(seed);
      assert input[..0] == [];
      NoBlocks(seed);
      while at <= len - 32
        invariant at % 32 == 0 && at <= len && l == Blocks(seed, input[..at])
      {
        NextBlock(seed, input, at);
        l := Block(l, input[at..at + 32]);
        at := at + 32;
      }
      h := Converge(l);
    } else {
      h := Plus(seed, 0x27D4EB2F165667C5);
    }
    assert at == len - len % 32;
    h := Finalize(Plus(h, LenWord(len)), input[at..], len);
  }

  lemma NextBlock(seed: Word, input: seq<Byte>, at: nat)
    requires at % 32 == 0 && at + 32 <= |input|
    ensures Blocks(seed, input[..at + 32]) == Block(Blocks(seed, input[..at]), input[at..at + 32])
  {
    hide Block, Start;
    var data := input[..at + 32];
    assert data[..|data| - 32] == input[..at] && data[|data| - 32..] == input[at..at + 32];
  }

  // ----- streaming -----

  /** The lanes have taken all whole blocks of what was fed, the rest is at the buffer's start. */
  ghost predicate Buffered(fed: seq<Byte>, seed: Word, lanes: Lanes, mem: seq<Byte>, memsize: nat) {
    && |mem| == 32 && memsize == |fed| % 32
    && lanes == Blocks(seed, fed[..|fed| - memsize]) && mem[..memsize] == fed[|fed| - memsize..]
  }

  lemma AppendBuffered(fed: seq<Byte>, input: seq<Byte>, seed: Word, lanes: Lanes, mem: seq<Byte>, memsize: nat)
    requires Buffered(fed, seed, lanes, mem, memsize) && memsize + |input| < 32
    ensures Buffered(fed + input, seed, lanes, Spliced(mem, memsize, input), memsize + |input|)
  {
    hide Blocks, Spliced;
    var n := |fed| - memsize;
    SplicedStart(mem, memsize, input);
    assert (fed + input)[..n] == fed[..n] && (fed + input)[n..] == fed[n..] + input;
  }

  /** The buffer filled up with the start of the input is the next block. */
  lemma FilledBlock(fed: seq<Byte>, input: seq<Byte>, seed: Word, lanes: Lanes, mem: seq<Byte>, memsize: nat)
    requires Buffered(fed, seed, lanes, mem, memsize) && memsize + |input| >= 32
    ensures Blocks(seed, (fed + input)[..|fed| - memsize + 32]) ==
            Block(lanes, Spliced(mem, memsize, input[..32 - memsize]))
  {
    hide Block, Start, Spliced;
    var n, load := |fed| - memsize, input[..32 - memsize];
    SplicedStart(mem, memsize, load);
    NextBlock(seed, fed + input, n);
    assert (fed + input)[..n] == fed[..n];
    assert (fed + input)[n..n + 32] == fed[n..] + load;
    var full := Spliced(mem, memsize, load);
    assert full == full[..32];
  }

  /** XXH64_state_t */
  class State {
    const mem64: array<Byte>
    var totalLen: nat
    var v: Lanes
    var memsize: nat

    ghost var fed: seq<Byte>
    ghost var seed: Word

    ghost predicate Valid()
      reads this, mem64
    {
      && mem64.Length == 32 && totalLen == |fed| % MAX_LEN
      && Buffered(fed, seed, v, mem64[..], memsize)
    }

    /** XXH64_createState(), XXH64_reset() */
    constructor (newSeed: Word)
      ensures Valid() && fed == [] && seed == newSeed && fresh(mem64)
    {
      mem64 := new Byte[32];
      totalLen := 0;
      v := Start(newSeed);
      memsize := 0;
      fed := [];
      seed := newSeed;
      new;
      hide Start;
    }

    method Reset(newSeed: Word)
      requires mem64.Length == 32
      modifies this
      ensures Valid() && fed == [] && seed == newSeed
    {
      hide Start;
      totalLen, v, memsize := 0, Start(newSeed), 0;
      fed, seed := [], newSeed;
    }

    /** XXH64_update(). A null input is an error and changes nothing. */
    method Update(input: Option<seq<Byte>>) returns (ok: bool)
      requires Valid()
      modifies this, mem64
      ensures ok == input.Some? && Valid() && seed == old(seed)
      ensures fed == old(fed) + (if input.Some? then input.value else [])
    {
      if input.None? {
        assert fed == fed + [];
        return false;
      }
      hide Valid;
      Feed(input.value);
      ok := true;
    }

    method Feed(input: seq<Byte>)
      requires Valid()
      modifies this, mem64
      ensures Valid() && fed == old(fed) + input && seed == old(seed)
    {
      hide Buffered, Spliced;
      WrapSum(|fed|, |input|);
      totalLen := (totalLen + |input|) % MAX_LEN;
      if memsize + |input| < 32 {
        AppendBuffered(fed, input, seed, v, mem64[..], memsize);
        Copy(mem64, memsize, input);
        memsize := memsize + |input|;
      } else {
        TakeBlocks(input);
      }
      fed := fed + input;
    }

    /** The buffer can be filled: whole blocks are taken, and the rest is buffered. */
    method TakeBlocks(input: seq<Byte>)
      requires mem64.Length == 32 && Buffered(fed, seed, v, mem64[..], memsize) && memsize + |input| >= 32
      modifies `v, `memsize, mem64
      ensures Buffered(fed + input, seed, v, mem64[..], memsize)
    {
      hide Buffered, Spliced, Blocks, Block;
      Sizes(fed, seed, v, mem64[..], memsize);
      ghost var whole := fed + input;
      var at := 0;
      if memsize != 0 {
        at := 32 - memsize;
        FilledBlock(fed, input, seed, v, mem64[..], memsize);
        Copy(mem64, memsize, input[..at]);
        v := Block(v, mem64[..]);
        memsize := 0;
      } else {
        assert whole[..|fed|] == fed[..|fed|];
      }
      at := Consume(input, at, whole);
      SplicedStart(mem64[..], 0, input[at..]);
      LeftOver(whole, seed, v, Spliced(mem64[..], 0, input[at..]), input[at..]);
      Copy(mem64, 0, input[at..]);
      memsize := |input| - at;
    }

    /** The loop over whole blocks of the input. */
    method Consume(input: seq<Byte>, start: nat, ghost whole: seq<Byte>) returns (at: nat)
      requires start <= |input| && whole == fed + input && (|fed| + start) % 32 == 0
      requires v == Blocks(seed, whole[..|fed| + start])
      modifies `v
      ensures at <= |input| < at + 32 && (|fed| + at) % 32 == 0 && v == Blocks(seed, whole[..|fed| + at])
    {
      hide Blocks, Block;
      at := start;
      while at + 32 <= |input|
        invariant at <= |input| && (|fed| + at) % 32 == 0 && v == Blocks(seed, whole[..|fed| + at])
      {
        NextBlock(seed, whole, |fed| + at);
        assert whole[|fed| + at..|fed| + at + 32] == input[at..at + 32];
        v := Block(v, input[at..at + 32]);
        at := at + 32;
      }
    }

    /** XXH64_digest() */
    method Digest() returns (h: Word)
      requires Valid() && |fed| < MAX_LEN
      ensures h == Hash64Of(fed, seed)
    {
      hide Blocks, Tail, Converge, Buffered, Plus, LenWord;
      Sizes(fed, seed, v, mem64[..], memsize);
      BelowMax(|fed|);
      if totalLen >= 32 {
        h := Converge(v);
      } else {
        EmptyBlocks(seed);
        assert fed[..0] == [];
        h := Plus(v.v3, 0x27D4EB2F165667C5);
      }
      h := Finalize(Plus(h, LenWord(totalLen)), mem64[..memsize], totalLen);
      assert mem64[..memsize] == mem64[..][..memsize];
    }
  }

  lemma BelowMax(a: nat)
    requires a < MAX_LEN
    ensures a % MAX_LEN == a
  {
  }

  lemma WrapSum(a: nat, b: nat)
    ensures (a % MAX_LEN + b) % MAX_LEN == (a + b) % MAX_LEN
  {
  }

  lemma Sizes(fed: seq<Byte>, seed: Word, lanes: Lanes, mem: seq<Byte>, memsize: nat)
    requires Buffered(fed, seed, lanes, mem, memsize)
    ensures |mem| == 32 && memsize == |fed| % 32 && memsize <= |fed| && (|fed| - memsize) % 32 == 0
    ensures lanes == Blocks(seed, fed[..|fed| - memsize]) && mem[..memsize] == fed[|fed| - memsize..]
  {
    hide Blocks;
  }

  lemma NoBlocks(seed: Word)
    ensures Blocks(seed, []) == Start(seed)
  {
    hide Start;
  }

  lemma EmptyBlocks(seed: Word)
    ensures Blocks(seed, []).v3 == seed
  {
  }

  lemma LeftOver(whole: seq<Byte>, seed: Word, lanes: Lanes, mem: seq<Byte>, rest: seq<Byte>)
    requires |rest| < 32 && |rest| <= |whole| && (|whole| - |rest|) % 32 == 0 && whole[|whole| - |rest|..] == rest
    requires |mem| == 32 && mem[..|rest|] == mem[..0] + rest && lanes == Blocks(seed, whole[..|whole| - |rest|])
    ensures Buffered(whole, seed, lanes, mem, |rest|)
  {
    hide Blocks;
    assert mem[..0] + rest == rest;
  }

  /** Any cutting of an input of less than 2^64 bytes: the digest is the one-shot hash. */
  method HashInChunks(seed: Word, chunks: seq<seq<Byte>>) returns (h: Word)
    requires |Concat(chunks)| < MAX_LEN
    ensures h == Hash64Of(Concat(chunks), seed)
  {
    hide State.Valid, Hash64Of;
    var state := new State(seed);
    for i := 0 to |chunks|
      invariant fresh(state) && fresh(state.mem64) && state.Valid()
      invariant state.seed == seed && state.fed == Concat(chunks[..i])
    {
      var ok := state.Update(Some(chunks[i]));
      assert chunks[..i + 1][..i] == chunks[..i];
    }
    assert chunks[..|chunks|] == chunks;
    h := state.Digest();
  }
}
