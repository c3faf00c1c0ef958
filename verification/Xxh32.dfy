/** XXH32: the two forms of its finalizer agree, and the streaming digest is the one-shot hash
    for every cutting of the input, however long it is. */
module Xxh32 {
  import opened Options
  import opened Xxh3Words
  import opened Xxh3Short
  import opened ByteBuffers

  type Word32 = bv32

  datatype Lanes = Lanes(v1: Word32, v2: Word32, v3: Word32, v4: Word32)

  const WRAP: nat := 0x1_0000_0000

  /** XXH32_round() */
  function Round(acc: Word32, input: Word32): Word32 {
    Rotl32(acc + input * 0x85EBCA77, 13) * 0x9E3779B1
  }

  /** XXH32_avalanche() */
  function Avalanche(x: Word32): Word32 {
    var x1 := (x ^ (x >> 15)) * 0x85EBCA77;
    var x2 := (x1 ^ (x1 >> 13)) * 0xC2B2AE3D;
    x2 ^ (x2 >> 16)
  }

  function Start(seed: Word32): Lanes {
    Lanes(seed + 0x9E3779B1 + 0x85EBCA77, seed + 0x85EBCA77, seed, seed - 0x9E3779B1)
  }

  function Block(l: Lanes, b: seq<Byte>): Lanes
    requires |b| == 16
  {
    Lanes(Round(l.v1, ReadLE32(b, 0)), Round(l.v2, ReadLE32(b, 4)), Round(l.v3, ReadLE32(b, 8)),
      Round(l.v4, ReadLE32(b, 12)))
  }

  /** The lanes after whole blocks. */
  function Blocks(seed: Word32, data: seq<Byte>): Lanes
    requires |data| % 16 == 0
    decreases |data|
  {
    if data == [] then Start(seed)
    else Block(Blocks(seed, data[..|data| - 16]), data[|data| - 16..])
  }

  function Converge(l: Lanes): Word32 {
    Rotl32(l.v1, 1) + Rotl32(l.v2, 7) + Rotl32(l.v3, 12) + Rotl32(l.v4, 18)
  }

  // ----- the finalizer -----

  /** XXH_PROCESS4 */
  function Process4(h: Word32, w: Word32): Word32 {
    Rotl32(h + w * 0xC2B2AE3D, 17) * 0x27D4EB2F
  }

  /** XXH_PROCESS1 */
  function Process1(h: Word32, b: Byte): Word32 {
    Rotl32(h + (b as bv32) * 0x165667B1, 11) * 0x9E3779B1
  }

  /** The tail by words as long as there are any, then by bytes. */
  function Tail(h: Word32, data: seq<Byte>): Word32
    decreases |data|
  {
    if |data| >= 4 then Tail(Process4(h, ReadLE32(data, 0)), data[4..])
    else if |data| > 0 then Tail(Process1(h, data[0]), data[1..])
    else Avalanche(h)
  }

  /** XXH32_finalize(), rerolled. */
  method FinalizeLoop(h0: Word32, data: seq<Byte>) returns (h: Word32)
    requires |data| < 16
    ensures h == Tail(h0, data)
  {
    hide Process4, Process1, Avalanche, ReadLE32;
    h := h0;
    var at := 0;
    while |data| - at >= 4
      invariant at <= |data| && Tail(h, data[at..]) == Tail(h0, data)
    {
      assert ReadLE32(data[at..], 0) == ReadLE32(data, at) by { ReadFrom(data, at); }
      assert data[at..][4..] == data[at + 4..];
      h := Process4(h, ReadLE32(data, at));
      at := at + 4;
    }
    while |data| - at > 0
      invariant at <= |data| <= at + 3 && Tail(h, data[at..]) == Tail(h0, data)
    {
      assert data[at..][1..] == data[at + 1..];
      h := Process1(h, data[at]);
      at := at + 1;
    }
    h := Avalanche(h);
  }

  lemma ReadFrom(data: seq<Byte>, at: nat)
    requires at + 4 <= |data|
    ensures ReadLE32(data[at..], 0) == ReadLE32(data, at)
  {
    hide Join32;
  }

  /** One word, at a known distance from the end. */
  method Word4(h: Word32, data: seq<Byte>, ghost h0: Word32, at: nat) returns (h': Word32)
    requires at + 4 <= |data| && Tail(h, data[at..]) == Tail(h0, data)
    ensures Tail(h', data[at + 4..]) == Tail(h0, data)
    ensures at + 4 == |data| ==> Tail(h', []) == Tail(h0, data)
  {
    hide Process4, Process1, Avalanche, ReadLE32;
    ReadFrom(data, at);
    assert data[at..][4..] == data[at + 4..];
    h' := Process4(h, ReadLE32(data, at));
  }

  method Byte1(h: Word32, data: seq<Byte>, ghost h0: Word32, at: nat) returns (h': Word32)
    requires at < |data| < at + 4 && Tail(h, data[at..]) == Tail(h0, data)
    ensures Tail(h', data[at + 1..]) == Tail(h0, data)
    ensures at + 1 == |data| ==> Tail(h', []) == Tail(h0, data)
  {
    hide Process4, Process1, Avalanche, ReadLE32;
    assert data[at..][1..] == data[at + 1..];
    h' := Process1(h, data[at]);
  }

  /** XXH32_finalize(), the switch: `entry` is the case reached, and falls through where the
      source does. */
  method FinalizeSwitch(h0: Word32, data: seq<Byte>) returns (h: Word32)
    requires |data| < 16
    ensures h == Tail(h0, data)
  {
    hide Tail, Avalanche;
    var entry, at := |data|, 0;
    h := h0;
    assert data[0..] == data;
    if entry == 12 { h := Word4(h, data, h0, at); at := at + 4; entry := 8; }
    if entry == 8 { h := Word4(h, data, h0, at); at := at + 4; entry := 4; }
    if entry == 4 {
      h := Word4(h, data, h0, at);
      EmptyTail(h);
      return Avalanche(h);
    }
    if entry == 13 { h := Word4(h, data, h0, at); at := at + 4; entry := 9; }
    if entry == 9 { h := Word4(h, data, h0, at); at := at + 4; entry := 5; }
    if entry == 5 {
      h := Word4(h, data, h0, at);
      h := Byte1(h, data, h0, at + 4);
      EmptyTail(h);
      return Avalanche(h);
    }
    if entry == 14 { h := Word4(h, data, h0, at); at := at + 4; entry := 10; }
    if entry == 10 { h := Word4(h, data, h0, at); at := at + 4; entry := 6; }
    if entry == 6 {
      h := Word4(h, data, h0, at);
      h := Byte1(h, data, h0, at + 4);
      h := Byte1(h, data, h0, at + 5);
      EmptyTail(h);
      return Avalanche(h);
    }
    if entry == 15 { h := Word4(h, data, h0, at); at := at + 4; entry := 11; }
    if entry == 11 { h := Word4(h, data, h0, at); at := at + 4; entry := 7; }
    if entry == 7 { h := Word4(h, data, h0, at); at := at + 4; entry := 3; }
    if entry == 3 { h := Byte1(h, data, h0, at); at := at + 1; entry := 2; }
    if entry == 2 { h := Byte1(h, data, h0, at); at := at + 1; entry := 1; }
    if entry == 1 { h := Byte1(h, data, h0, at); at := at + 1; }
    EmptyTail(h);
    return Avalanche(h);
  }

  lemma EmptyTail(h: Word32)
    ensures Tail(h, []) == Avalanche(h)
  {
    hide Avalanche;
  }

  // ----- one pass -----

  function Len32(len: nat): Word32 {
    (len % WRAP) as bv32
  }

  function Plus32(x: Word32, y: Word32): Word32 {
    x + y
  }

  /** XXH32() */
  function Hash32Of(input: seq<Byte>, seed: Word32): Word32 {
    var n := |input| - |input| % 16;
    var h := if |input| >= 16 then Converge(Blocks(seed, input[..n])) else Plus32(seed, 0x165667B1);
    Tail(Plus32(h, Len32(|input|)), input[n..])
  }

  /** XXH32_endian_align() */
  method OneShot32(input: seq<Byte>, seed: Word32) returns (h: Word32)
    ensures h == Hash32Of(input, seed)
  {
    hide Block, Start, Converge, Tail, Plus32, Len32, Blocks;
    var len := |input|;
    var at := 0;
    if len >= 16 {
      var l := Start(seed);
      assert input[..0] == [];
      NoBlocks(seed);
      while at < len - 15
        invariant at % 16 == 0 && at <= len && l == Blocks(seed, input[..at])
      {
        NextBlock(seed, input, at);
        l := Block(l, input[at..at + 16]);
        at := at + 16;
      }
      h := Converge(l);
    } else {
      h := Plus32(seed, 0x165667B1);
    }
    assert at == len - len % 16;
    h := FinalizeLoop(Plus32(h, Len32(len)), input[at..]);
  }

  lemma NextBlock(seed: Word32, input: seq<Byte>, at: nat)
    requires at % 16 == 0 && at + 16 <= |input|
    ensures Blocks(seed, input[..at + 16]) == Block(Blocks(seed, input[..at]), input[at..at + 16])
  {
    hide Block, Start;
    var data := input[..at + 16];
    assert data[..|data| - 16] == input[..at] && data[|data| - 16..] == input[at..at + 16];
  }

  // ----- streaming -----

  /** The lanes have taken all whole blocks of what was fed, the rest is at the buffer's start. */
  ghost predicate Buffered(fed: seq<Byte>, seed: Word32, lanes: Lanes, mem: seq<Byte>, memsize: nat) {
    && |mem| == 16 && memsize == |fed| % 16
    && lanes == Blocks(seed, fed[..|fed| - memsize]) && mem[..memsize] == fed[|fed| - memsize..]
  }

  lemma AppendBuffered(fed: seq<Byte>, input: seq<Byte>, seed: Word32, lanes: Lanes, mem: seq<Byte>, memsize: nat)
    requires Buffered(fed, seed, lanes, mem, memsize) && memsize + |input| < 16
    ensures Buffered(fed + input, seed, lanes, Spliced(mem, memsize, input), memsize + |input|)
  {
    hide Blocks, Spliced;
    var n := |fed| - memsize;
    SplicedStart(mem, memsize, input);
    assert (fed + input)[..n] == fed[..n] && (fed + input)[n..] == fed[n..] + input;
  }

  /** The buffer filled up with the start of the input is the next block. */
  lemma FilledBlock(fed: seq<Byte>, input: seq<Byte>, seed: Word32, lanes: Lanes, mem: seq<Byte>, memsize: nat)
    requires Buffered(fed, seed, lanes, mem, memsize) && memsize + |input| >= 16
    ensures Blocks(seed, (fed + input)[..|fed| - memsize + 16]) ==
            Block(lanes, Spliced(mem, memsize, input[..16 - memsize]))
  {
    hide Block, Start, Spliced;
    var n, load := |fed| - memsize, input[..16 - memsize];
    SplicedStart(mem, memsize, load);
    NextBlock(seed, fed + input, n);
    assert (fed + input)[..n] == fed[..n];
    assert (fed + input)[n..n + 16] == fed[n..] + load;
    var full := Spliced(mem, memsize, load);
    assert full == full[..16];
  }

  /** XXH32_state_t */
  class State {
    const mem32: array<Byte>
    var totalLen32: nat
    var largeLen: bool
    var v: Lanes
    var memsize: nat

    ghost var fed: seq<Byte>
    ghost var seed: Word32

    ghost predicate Valid()
      reads this, mem32
    {
      && mem32.Length == 16 && totalLen32 == |fed| % WRAP && (largeLen <==> |fed| >= 16)
      && Buffered(fed, seed, v, mem32[..], memsize)
    }

    /** XXH32_createState(), XXH32_reset() */
    constructor (newSeed: Word32)
      ensures Valid() && fed == [] && seed == newSeed && fresh(mem32)
    {
      mem32 := new Byte[16];
      totalLen32 := 0;
      largeLen := false;
      v := Start(newSeed);
      memsize := 0;
      fed := [];
      seed := newSeed;
      new;
      hide Start;
    }

    method Reset(newSeed: Word32)
      requires mem32.Length == 16
      modifies this
      ensures Valid() && fed == [] && seed == newSeed
    {
      hide Start;
      totalLen32, largeLen, v, memsize := 0, false, Start(newSeed), 0;
      fed, seed := [], newSeed;
    }

    /** XXH32_update(). A null input is an error and changes nothing. */
    method Update(input: Option<seq<Byte>>) returns (ok: bool)
      requires Valid()
      modifies this, mem32
      ensures ok == input.Some? && Valid() && seed == old(seed)
      ensures fed == old(fed) + (if input.Some? then input.value else [])
    {
      if input.None? {
        assert fed == fed + [];
        return false;
      }
      hide Valid;
      Feed(input.value);
      ok := true;
    }

    method Feed(input: seq<Byte>)
      requires Valid()
      modifies this, mem32
      ensures Valid() && fed == old(fed) + input && seed == old(seed)
    {
      hide Buffered, Spliced;
      WrapSum(|fed|, |input|);
      totalLen32 := (totalLen32 + |input|) % WRAP;
      largeLen := largeLen || |input| >= 16 || totalLen32 >= 16;
      if memsize + |input| < 16 {
        AppendBuffered(fed, input, seed, v, mem32[..], memsize);
        Copy(mem32, memsize, input);
        memsize := memsize + |input|;
      } else {
        TakeBlocks(input);
      }
      fed := fed + input;
    }

    /** The buffer can be filled: whole blocks are taken, and the rest is buffered. */
    method TakeBlocks(input: seq<Byte>)
      requires mem32.Length == 16 && Buffered(fed, seed, v, mem32[..], memsize) && memsize + |input| >= 16
      modifies `v, `memsize, mem32
      ensures Buffered(fed + input, seed, v, mem32[..], memsize)
    {
      hide Buffered, Spliced, Blocks, Block;
      Sizes(fed, seed, v, mem32[..], memsize);
      ghost var whole := fed + input;
      var at := 0;
      if memsize != 0 {
        at := 16 - memsize;
        FilledBlock(fed, input, seed, v, mem32[..], memsize);
        Copy(mem32, memsize, input[..at]);
        v := Block(v, mem32[..]);
        memsize := 0;
      } else {
        assert whole[..|fed|] == fed[..|fed|];
      }
      at := Consume(input, at, whole);
      SplicedStart(mem32[..], 0, input[at..]);
      LeftOver(whole, seed, v, Spliced(mem32[..], 0, input[at..]), input[at..]);
      Copy(mem32, 0, input[at..]);
      memsize := |input| - at;
    }

    /** The loop over whole blocks of the input. */
    method Consume(input: seq<Byte>, start: nat, ghost whole: seq<Byte>) returns (at: nat)
      requires start <= |input| && whole == fed + input && (|fed| + start) % 16 == 0
      requires v == Blocks(seed, whole[..|fed| + start])
      modifies `v
      ensures at <= |input| < at + 16 && (|fed| + at) % 16 == 0 && v == Blocks(seed, whole[..|fed| + at])
    {
      hide Blocks, Block;
      at := start;
      while at + 16 <= |input|
        invariant at <= |input| && (|fed| + at) % 16 == 0 && v == Blocks(seed, whole[..|fed| + at])
      {
        NextBlock(seed, whole, |fed| + at);
        assert whole[|fed| + at..|fed| + at + 16] == input[at..at + 16];
        v := Block(v, input[at..at + 16]);
        at := at + 16;
      }
    }

    /** XXH32_digest() */
    method Digest() returns (h: Word32)
      requires Valid()
      ensures h == Hash32Of(fed, seed)
    {
      hide Blocks, Tail, Converge, Buffered, Plus32, Len32, Hash32Of;
      Sizes(fed, seed, v, mem32[..], memsize);
      LenMeans(|fed|);
      HashParts(fed, seed);
      if largeLen {
        h := Converge(v);
      } else {
        EmptyBlocks(seed);
        assert fed[..0] == [];
        h := Plus32(v.v3, 0x165667B1);
      }
      h := FinalizeSwitch(Plus32(h, totalLen32 as bv32), mem32[..memsize]);
      assert mem32[..memsize] == mem32[..][..memsize];
    }
  }

  lemma LenMeans(len: nat)
    ensures Len32(len) == (len % WRAP) as bv32
  {
  }

  lemma HashParts(input: seq<Byte>, seed: Word32)
    ensures var n := |input| - |input| % 16;
            n % 16 == 0 &&
            var h := if |input| >= 16 then Converge(Blocks(seed, input[..n])) else Plus32(seed, 0x165667B1);
            Hash32Of(input, seed) == Tail(Plus32(h, Len32(|input|)), input[n..])
  {
    hide Blocks, Tail, Converge, Plus32, Len32;
  }

  lemma WrapSum(a: nat, b: nat)
    ensures (a % WRAP + b) % WRAP == (a + b) % WRAP
    ensures a >= 16 || b >= 16 || (a + b) % WRAP >= 16 <==> a + b >= 16
  {
  }

  lemma Sizes(fed: seq<Byte>, seed: Word32, lanes: Lanes, mem: seq<Byte>, memsize: nat)
    requires Buffered(fed, seed, lanes, mem, memsize)
    ensures |mem| == 16 && memsize == |fed| % 16 && memsize <= |fed| && (|fed| - memsize) % 16 == 0
    ensures lanes == Blocks(seed, fed[..|fed| - memsize]) && mem[..memsize] == fed[|fed| - memsize..]
  {
    hide Blocks;
  }

  lemma NoBlocks(seed: Word32)
    ensures Blocks(seed, []) == Start(seed)
  {
    hide Start;
  }

  lemma EmptyBlocks(seed: Word32)
    ensures Blocks(seed, []).v3 == seed
  {
  }

  lemma LeftOver(whole: seq<Byte>, seed: Word32, lanes: Lanes, mem: seq<Byte>, rest: seq<Byte>)
    requires |rest| < 16 && |rest| <= |whole| && (|whole| - |rest|) % 16 == 0 && whole[|whole| - |rest|..] == rest
    requires |mem| == 16 && mem[..|rest|] == mem[..0] + rest && lanes == Blocks(seed, whole[..|whole| - |rest|])
    ensures Buffered(whole, seed, lanes, mem, |rest|)
  {
    hide Blocks;
    assert mem[..0] + rest == rest;
  }

  /** Any cutting of any input, of any total length: the digest is the one-shot hash. */
  method HashInChunks(seed: Word32, chunks: seq<seq<Byte>>) returns (h: Word32)
    ensures h == Hash32Of(Concat(chunks), seed)
  {
    hide State.Valid, Hash32Of;
    var state := new State(seed);
    for i := 0 to |chunks|
      invariant fresh(state) && fresh(state.mem32) && state.Valid()
      invariant state.seed == seed && state.fed == Concat(chunks[..i])
    {
      var ok := state.Update(Some(chunks[i]));
      assert chunks[..i + 1][..i] == chunks[..i];
    }
    assert chunks[..|chunks|] == chunks;
    h := state.Digest();
  }
}
