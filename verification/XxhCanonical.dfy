/** Canonical forms of hash values: the same bytes on either kind of processor, from which the
    hash comes back, and whose lexicographic order is the order of XXH128_cmp(). */
module XxhCanonical {
  import opened Xxh3Words
  import opened Xxh3Short

  /** XXH_CPU_LITTLE_ENDIAN, or not. */
  datatype Cpu = LittleEndian | BigEndian

  /** A 32-bit word, most significant byte first. */
  function Big32(w: bv32): (s: seq<Byte>)
    ensures |s| == 4
  {
    [(w >> 24) as Byte, ((w >> 16) & 0xFF) as Byte, ((w >> 8) & 0xFF) as Byte, (w & 0xFF) as Byte]
  }

  function Big64(w: Word): (s: seq<Byte>)
    ensures |s| == 8
  {
    Big32(High32(w)) + Big32(Low32(w))
  }

  /** The bytes of a variable in memory. */
  function Memory32(cpu: Cpu, w: bv32): (s: seq<Byte>)
    ensures |s| == 4
  {
    if cpu.LittleEndian? then Bytes32(w) else Big32(w)
  }

  function Memory64(cpu: Cpu, w: Word): (s: seq<Byte>)
    ensures |s| == 8
  {
    if cpu.LittleEndian? then Bytes64(w) else Big64(w)
  }

  /** XXH_read32(), XXH_read64() */
  function Read32(cpu: Cpu, s: seq<Byte>): bv32
    requires |s| == 4
  {
    if cpu.LittleEndian? then Join32(s[0], s[1], s[2], s[3]) else Join32(s[3], s[2], s[1], s[0])
  }

  function Read64(cpu: Cpu, s: seq<Byte>): Word
    requires |s| == 8
  {
    if cpu.LittleEndian? then Join64(Read32(cpu, s[..4]), Read32(cpu, s[4..]))
    else Join64(Read32(cpu, s[4..]), Read32(cpu, s[..4]))
  }

  // ----- to and from canonical form -----

  /** XXH32_canonicalFromHash() */
  function Canonical32(cpu: Cpu, h: bv32): (s: seq<Byte>)
    ensures |s| == 4
  {
    Memory32(cpu, if cpu.LittleEndian? then Swap32(h) else h)
  }

  /** XXH64_canonicalFromHash() */
  function Canonical64(cpu: Cpu, h: Word): (s: seq<Byte>)
    ensures |s| == 8
  {
    Memory64(cpu, if cpu.LittleEndian? then Swap64(h) else h)
  }

  /** XXH128_canonicalFromHash() */
  function Canonical128(cpu: Cpu, h: Hash128): (s: seq<Byte>)
    ensures |s| == 16
  {
    Canonical64(cpu, h.high64) + Canonical64(cpu, h.low64)
  }

  /** XXH_readBE32() */
  function FromCanonical32(cpu: Cpu, s: seq<Byte>): bv32
    requires |s| == 4
  {
    if cpu.LittleEndian? then Swap32(Read32(cpu, s)) else Read32(cpu, s)
  }

  /** XXH_readBE64() */
  function FromCanonical64(cpu: Cpu, s: seq<Byte>): Word
    requires |s| == 8
  {
    if cpu.LittleEndian? then Swap64(Read64(cpu, s)) else Read64(cpu, s)
  }

  /** XXH128_hashFromCanonical() */
  function FromCanonical128(cpu: Cpu, s: seq<Byte>): Hash128
    requires |s| == 16
  {
    Hash128(FromCanonical64(cpu, s[8..]), FromCanonical64(cpu, s[..8]))
  }

  // ----- swaps -----

  lemma Swap32Bytes(w: bv32)
    ensures Bytes32(Swap32(w)) == Big32(w) && Swap32(Swap32(w)) == w
  {
    SwapMeans(w);
    assert Bytes32(((w << 24) & 0xFF00_0000) | ((w << 8) & 0x00FF_0000) | ((w >> 8) & 0x0000_FF00)
           | ((w >> 24) & 0x0000_00FF))
        == Big32(w);
    assert Swap32(((w << 24) & 0xFF00_0000) | ((w << 8) & 0x00FF_0000) | ((w >> 8) & 0x0000_FF00)
           | ((w >> 24) & 0x0000_00FF))
        == w;
  }

  lemma SwapMeans(w: bv32)
    ensures Swap32(w) == ((w << 24) & 0xFF00_0000) | ((w << 8) & 0x00FF_0000) | ((w >> 8) & 0x0000_FF00)
            | ((w >> 24) & 0x0000_00FF)
  {
  }

  lemma Swap64Halves(w: Word)
    ensures Low32(Swap64(w)) == Swap32(High32(w)) && High32(Swap64(w)) == Swap32(Low32(w))
  {
    Glued(Swap32(Low32(w)), Swap32(High32(w)));
  }

  lemma Glued(hi: bv32, lo: bv32)
    ensures Low32(((hi as Word) << 32) | (lo as Word)) == lo && High32(((hi as Word) << 32) | (lo as Word)) == hi
  {
  }

  lemma Swap64Bytes(w: Word)
    ensures Bytes64(Swap64(w)) == Big64(w) && Swap64(Swap64(w)) == w
  {
    hide Swap32, Bytes32, Big32, Low32, High32, Swap64;
    Swap64Halves(w);
    Swap64Halves(Swap64(w));
    Swap32Bytes(High32(w));
    Swap32Bytes(Low32(w));
    HalvesOf(w);
    HalvesOf(Swap64(Swap64(w)));
  }

  /** The same bytes on every processor. */
  lemma SameBytes(cpu: Cpu, h: Hash128)
    ensures Canonical128(cpu, h) == Big64(h.high64) + Big64(h.low64)
  {
    hide Swap64, Bytes64, Big64;
    Swap64Bytes(h.high64);
    Swap64Bytes(h.low64);
  }

  // ----- round trips -----

  lemma ReadMemory32(cpu: Cpu, w: bv32)
    ensures Read32(cpu, Memory32(cpu, w)) == w
  {
    Bytes32Word(w);
    Swap32Bytes(w);
    Bytes32Word(Swap32(w));
    JoinReversed(w);
  }

  lemma JoinReversed(w: bv32)
    ensures var s := Big32(w); Join32(s[3], s[2], s[1], s[0]) == w
  {
  }

  lemma ReadMemory64(cpu: Cpu, w: Word)
    ensures Read64(cpu, Memory64(cpu, w)) == w
  {
    hide Read32, Memory32, Low32, High32, Join64;
    ReadMemory32(cpu, Low32(w));
    ReadMemory32(cpu, High32(w));
    HalvesOf(w);
    MemoryHalves(cpu, w);
  }

  lemma MemoryHalves(cpu: Cpu, w: Word)
    ensures var s := Memory64(cpu, w);
            if cpu.LittleEndian? then s[..4] == Memory32(cpu, Low32(w)) && s[4..] == Memory32(cpu, High32(w))
            else s[..4] == Memory32(cpu, High32(w)) && s[4..] == Memory32(cpu, Low32(w))
  {
    hide Bytes32, Big32, Low32, High32;
  }

  /** hashFromCanonical() undoes canonicalFromHash(), for each width, on each processor, and also
      when they run on different ones. */
  lemma RoundTrip32(cpu: Cpu, h: bv32)
    ensures FromCanonical32(cpu, Canonical32(cpu, h)) == h
  {
    hide Memory32, Read32, Swap32;
    ReadMemory32(cpu, h);
    ReadMemory32(cpu, Swap32(h));
    Swap32Bytes(h);
  }

  lemma RoundTrip64(cpu: Cpu, h: Word)
    ensures FromCanonical64(cpu, Canonical64(cpu, h)) == h
  {
    hide Memory64, Read64, Swap64;
    ReadMemory64(cpu, h);
    ReadMemory64(cpu, Swap64(h));
    Swap64Bytes(h);
  }

  lemma RoundTrip128(cpu: Cpu, other: Cpu, h: Hash128)
    ensures FromCanonical128(other, Canonical128(cpu, h)) == h
  {
    SameBytes(cpu, h);
    SameBytes(other, h);
    hide Canonical64, FromCanonical64, Big64;
    RoundTrip64(other, h.high64);
    RoundTrip64(other, h.low64);
    var s := Canonical128(other, h);
    assert s[..8] == Canonical64(other, h.high64) && s[8..] == Canonical64(other, h.low64);
  }

  // ----- readers -----

  /** XXH_readLE32() and XXH_readLE64() through a memory access, swapped where needed. */
  function ReadLE32By(cpu: Cpu, s: seq<Byte>): bv32
    requires |s| == 4
  {
    if cpu.LittleEndian? then Read32(cpu, s) else Swap32(Read32(cpu, s))
  }

  function ReadLE64By(cpu: Cpu, s: seq<Byte>): Word
    requires |s| == 8
  {
    if cpu.LittleEndian? then Read64(cpu, s) else Swap64(Read64(cpu, s))
  }

  /** They depend on the bytes alone: on each processor they read what the byteshift reader does. */
  lemma ReadersAgree32(cpu: Cpu, s: seq<Byte>)
    requires |s| == 4
    ensures ReadLE32By(cpu, s) == ReadLE32(s, 0)
  {
    if cpu.BigEndian? { SwapJoined(s[0], s[1], s[2], s[3]); }
  }

  lemma SwapJoined(a: Byte, b: Byte, c: Byte, d: Byte)
    ensures Swap32(Join32(d, c, b, a)) == Join32(a, b, c, d)
  {
    assert Swap32((d as bv32) | ((c as bv32) << 8) | ((b as bv32) << 16) | ((a as bv32) << 24)) == Join32(a, b, c, d);
  }

  lemma ReadersAgree64(cpu: Cpu, s: seq<Byte>)
    requires |s| == 8
    ensures ReadLE64By(cpu, s) == ReadLE64(s, 0)
  {
    hide Swap64, Swap32, Join64, Low32, High32, Join32;
    var lo, hi := ReadLE32(s, 0), ReadLE32(s, 4);
    assert s[..4][0] == s[0] && s[4..][0] == s[4];
    if cpu.BigEndian? {
      ReadersAgree32(cpu, s[..4]);
      ReadersAgree32(cpu, s[4..]);
      var w := Read64(cpu, s);
      Join64Back(Read32(cpu, s[4..]), Read32(cpu, s[..4]));
      Swap64Halves(w);
      HalvesOf(Swap64(w));
    }
  }

  // ----- order -----

  /** Lexicographic order of byte strings of one length. */
  predicate Less(s: seq<Byte>, t: seq<Byte>)
    requires |s| == |t|
    decreases |s|
  {
    s != [] && (s[0] < t[0] || (s[0] == t[0] && Less(s[1..], t[1..])))
  }

  lemma {:induction false} LessConcat(a: seq<Byte>, b: seq<Byte>, c: seq<Byte>, d: seq<Byte>)
    requires |a| == |c| && |b| == |d|
    ensures Less(a + b, c + d) <==> Less(a, c) || (a == c && Less(b, d))
    decreases |a|
  {
    if a == [] {
      assert a + b == b && c + d == d;
    } else {
      assert (a + b)[1..] == a[1..] + b && (c + d)[1..] == c[1..] + d;
      LessConcat(a[1..], b, c[1..], d);
      assert a == [a[0]] + a[1..] && c == [c[0]] + c[1..];
    }
  }

  // Comparisons by name, at each width.

  predicate Below8(x: Byte, y: Byte) {
    x < y
  }

  predicate Below16(x: bv16, y: bv16) {
    x < y
  }

  predicate Below32(x: bv32, y: bv32) {
    x < y
  }

  predicate Below64(x: Word, y: Word) {
    x < y
  }

  /** Exactly one of below, equal, above. */
  ghost predicate OneOf(below: bool, equal: bool, above: bool) {
    (below || equal || above) && !(below && equal) && !(below && above) && !(equal && above)
  }

  function Join16(hi: Byte, lo: Byte): bv16 {
    (lo as bv16) | ((hi as bv16) << 8)
  }

  function JoinPair(hi: bv16, lo: bv16): bv32 {
    (lo as bv32) | ((hi as bv32) << 16)
  }

  lemma Total8(x: Byte, y: Byte)
    ensures OneOf(Below8(x, y), x == y, Below8(y, x))
  {
  }

  /** Two bytes. */
  lemma Order16(h: Byte, l: Byte, h': Byte, l': Byte)
    ensures Below16(Join16(h, l), Join16(h', l')) <==> Below8(h, h') || (h == h' && Below8(l, l'))
  {
    ByteOrder(h, l, h', l');
    Join16Means(h, l);
    Join16Means(h', l');
    hide Below16, Join16, Below8;
  }

  lemma ByteOrder(h: Byte, l: Byte, h': Byte, l': Byte)
    ensures Below16((l as bv16) | ((h as bv16) << 8), (l' as bv16) | ((h' as bv16) << 8)) <==>
            Below8(h, h') || (h == h' && Below8(l, l'))
  {
  }

  lemma Join16Means(h: Byte, l: Byte)
    ensures Join16(h, l) == (l as bv16) | ((h as bv16) << 8)
  {
  }

  lemma Total16(h: Byte, l: Byte, h': Byte, l': Byte)
    ensures OneOf(Below16(Join16(h, l), Join16(h', l')), Join16(h, l) == Join16(h', l'),
                  Below16(Join16(h', l'), Join16(h, l)))
    ensures Join16(h, l) == Join16(h', l') <==> h == h' && l == l'
  {
    hide Join16, Below16, Below8;
    Order16(h, l, h', l');
    Order16(h', l', h, l);
    Total8(h, h');
    Total8(l, l');
    Irreflexive16(Join16(h, l));
  }

  lemma Irreflexive16(x: bv16)
    ensures !Below16(x, x)
  {
  }

  lemma HighFirst32(h: bv16, l: bv16, h': bv16, l': bv16)
    requires Below16(h, h')
    ensures Below32(JoinPair(h, l), JoinPair(h', l')) && !Below32(JoinPair(h', l'), JoinPair(h, l))
  {
    assert Below32((l as bv32) | ((h as bv32) << 16), (l' as bv32) | ((h' as bv32) << 16));
    JoinPairMeans(h, l);
    JoinPairMeans(h', l');
    hide JoinPair, Below32;
    Asymmetric32(JoinPair(h, l), JoinPair(h', l'));
  }

  lemma LowNext32(h: bv16, l: bv16, l': bv16)
    requires Below16(l, l')
    ensures Below32(JoinPair(h, l), JoinPair(h, l')) && !Below32(JoinPair(h, l'), JoinPair(h, l))
  {
    assert Below32((l as bv32) | ((h as bv32) << 16), (l' as bv32) | ((h as bv32) << 16));
    JoinPairMeans(h, l);
    JoinPairMeans(h, l');
    hide JoinPair, Below32;
    Asymmetric32(JoinPair(h, l), JoinPair(h, l'));
  }

  lemma JoinPairMeans(h: bv16, l: bv16)
    ensures JoinPair(h, l) == (l as bv32) | ((h as bv32) << 16)
  {
  }

  lemma Asymmetric32(x: bv32, y: bv32)
    ensures !(Below32(x, y) && Below32(y, x)) && !Below32(x, x)
  {
  }

  lemma HighFirst64(h: bv32, l: bv32, h': bv32, l': bv32)
    requires Below32(h, h')
    ensures Below64(Join64(l, h), Join64(l', h')) && !Below64(Join64(l', h'), Join64(l, h))
  {
    assert Below64((l as Word) + ((h as Word) << 32), (l' as Word) + ((h' as Word) << 32));
    Join64Means(l, h);
    Join64Means(l', h');
    hide Join64, Below64;
    Asymmetric64(Join64(l, h), Join64(l', h'));
  }

  lemma LowNext64(h: bv32, l: bv32, l': bv32)
    requires Below32(l, l')
    ensures Below64(Join64(l, h), Join64(l', h)) && !Below64(Join64(l', h), Join64(l, h))
  {
    assert Below64((l as Word) + ((h as Word) << 32), (l' as Word) + ((h as Word) << 32));
    Join64Means(l, h);
    Join64Means(l', h);
    hide Join64, Below64;
    Asymmetric64(Join64(l, h), Join64(l', h));
  }

  lemma Join64Means(l: bv32, h: bv32)
    ensures Join64(l, h) == (l as Word) + ((h as Word) << 32)
  {
  }

  lemma Asymmetric64(x: Word, y: Word)
    ensures !(Below64(x, y) && Below64(y, x)) && !Below64(x, x)
  {
  }

  /** The four bytes of a word. */
  lemma Pairs(w: bv32)
    ensures var s := Big32(w); JoinPair(Join16(s[0], s[1]), Join16(s[2], s[3])) == w
  {
  }

  lemma Order32(x: bv32, y: bv32)
    ensures Less(Big32(x), Big32(y)) <==> Below32(x, y)
    ensures OneOf(Below32(x, y), x == y, Below32(y, x)) && (Big32(x) == Big32(y) <==> x == y)
  {
    Pairs(x);
    Pairs(y);
    hide Below8, Below16, Below32, Join16, JoinPair, Big32;
    var s, t := Big32(x), Big32(y);
    Less4(s, t);
    Order16(s[0], s[1], t[0], t[1]);
    Order16(s[2], s[3], t[2], t[3]);
    Total16(s[0], s[1], t[0], t[1]);
    Total16(s[2], s[3], t[2], t[3]);
    var h, l, h', l' := Join16(s[0], s[1]), Join16(s[2], s[3]), Join16(t[0], t[1]), Join16(t[2], t[3]);
    Asymmetric32(x, y);
    if Below16(h, h') {
      HighFirst32(h, l, h', l');
    } else if Below16(h', h) {
      HighFirst32(h', l', h, l);
    } else if Below16(l, l') {
      LowNext32(h, l, l');
    } else if Below16(l', l) {
      LowNext32(h, l', l);
    }
  }

  lemma Less4(s: seq<Byte>, t: seq<Byte>)
    requires |s| == 4 && |t| == 4
    ensures Less(s, t) <==>
            (Below8(s[0], t[0]) || (s[0] == t[0] && Below8(s[1], t[1])))
            || (s[0] == t[0] && s[1] == t[1] && (Below8(s[2], t[2]) || (s[2] == t[2] && Below8(s[3], t[3]))))
    ensures s == t <==> s[0] == t[0] && s[1] == t[1] && s[2] == t[2] && s[3] == t[3]
  {
    hide Below8, Less;
    LessFirst(s, t);
    LessFirst(s[1..], t[1..]);
    LessFirst(s[2..], t[2..]);
    LessFirst(s[3..], t[3..]);
    LessNone(s[4..], t[4..]);
    Drop1(s);
    Drop1(t);
    assert s == [s[0], s[1], s[2], s[3]] && t == [t[0], t[1], t[2], t[3]];
  }

  lemma Drop1(s: seq<Byte>)
    requires |s| == 4
    ensures s[1..][1..] == s[2..] && s[2..][1..] == s[3..] && s[3..][1..] == s[4..]
    ensures s[1..][0] == s[1] && s[2..][0] == s[2] && s[3..][0] == s[3]
  {
  }

  lemma LessFirst(s: seq<Byte>, t: seq<Byte>)
    requires |s| == |t| > 0
    ensures Less(s, t) <==> Below8(s[0], t[0]) || (s[0] == t[0] && Less(s[1..], t[1..]))
  {
  }

  lemma LessNone(s: seq<Byte>, t: seq<Byte>)
    requires |s| == |t| == 0
    ensures !Less(s, t)
  {
  }

  lemma Order64(x: Word, y: Word)
    ensures Less(Big64(x), Big64(y)) <==> Below64(x, y)
    ensures OneOf(Below64(x, y), x == y, Below64(y, x)) && (Big64(x) == Big64(y) <==> x == y)
  {
    HalvesOf(x);
    HalvesOf(y);
    hide Below32, Below64, Low32, High32, Join64, Big32, Less;
    var h, l, h', l' := High32(x), Low32(x), High32(y), Low32(y);
    Order32(h, h');
    Order32(l, l');
    LessConcat(Big32(h), Big32(l), Big32(h'), Big32(l'));
    SamePieces(Big32(h), Big32(l), Big32(h'), Big32(l'));
    Asymmetric64(x, y);
    if Below32(h, h') {
      HighFirst64(h, l, h', l');
    } else if Below32(h', h) {
      HighFirst64(h', l', h, l);
    } else if Below32(l, l') {
      LowNext64(h, l, l');
    } else if Below32(l', l) {
      LowNext64(h, l', l);
    }
  }

  lemma SamePieces(a: seq<Byte>, b: seq<Byte>, c: seq<Byte>, d: seq<Byte>)
    requires |a| == |c|
    ensures a + b == c + d <==> a == c && b == d
  {
    if a + b == c + d {
      assert a == (a + b)[..|a|] && b == (a + b)[|a|..];
      assert c == (c + d)[..|c|] && d == (c + d)[|c|..];
    }
  }

  /** XXH128_cmp() */
  function Compare(x: Hash128, y: Hash128): int {
    var high := (if Below64(y.high64, x.high64) then 1 else 0) - (if Below64(x.high64, y.high64) then 1 else 0);
    if high != 0 then high
    else (if Below64(y.low64, x.low64) then 1 else 0) - (if Below64(x.low64, y.low64) then 1 else 0)
  }

  /** The order of XXH128_cmp() is total, and is the lexicographic order of the canonical bytes. */
  lemma CompareIsLexicographic(cpu: Cpu, x: Hash128, y: Hash128)
    ensures Compare(x, y) < 0 <==> Less(Canonical128(cpu, x), Canonical128(cpu, y))
    ensures Compare(x, y) == 0 <==> x == y
    ensures Compare(x, y) == -Compare(y, x)
  {
    SameBytes(cpu, x);
    SameBytes(cpu, y);
    hide Below64, Big64, Canonical128, Less;
    Order64(x.high64, y.high64);
    Order64(x.low64, y.low64);
    LessConcat(Big64(x.high64), Big64(x.low64), Big64(y.high64), Big64(y.low64));
  }

  /** It is transitive. */
  lemma CompareIsTransitive(x: Hash128, y: Hash128, z: Hash128)
    requires Compare(x, y) <= 0 && Compare(y, z) <= 0
    ensures Compare(x, z) <= 0 && (Compare(x, y) < 0 || Compare(y, z) < 0 ==> Compare(x, z) < 0)
  {
    var cpu := LittleEndian;
    CompareIsLexicographic(cpu, x, y);
    CompareIsLexicographic(cpu, y, z);
    CompareIsLexicographic(cpu, x, z);
    hide Compare, Less, Canonical128;
    var a, b, c := Canonical128(cpu, x), Canonical128(cpu, y), Canonical128(cpu, z);
    if Less(a, b) && Less(b, c) { LessIsTransitive(a, b, c); }
    CompareIsLexicographic(cpu, z, x);
  }

  lemma {:induction false} LessIsTransitive(a: seq<Byte>, b: seq<Byte>, c: seq<Byte>)
    requires |a| == |b| == |c| && Less(a, b) && Less(b, c)
    ensures Less(a, c)
  {
    ByteTransitive(a[0], b[0], c[0]);
    if a[0] == b[0] && b[0] == c[0] {
      LessIsTransitive(a[1..], b[1..], c[1..]);
    }
  }

  lemma ByteTransitive(a: Byte, b: Byte, c: Byte)
    ensures a < b && b < c ==> a < c
  {
  }
}
