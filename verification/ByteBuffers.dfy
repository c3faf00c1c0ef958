/** Copying into fixed-size buffers. */
module ByteBuffers {
  import opened Xxh3Words

  /** s with src copied over it from `at` on. */
  function Spliced(s: seq<Byte>, at: nat, src: seq<Byte>): (r: seq<Byte>)
    requires at + |src| <= |s|
    ensures |r| == |s|
  {
    s[..at] + src + s[at + |src|..]
  }

  /** memcpy(dst + at, src, len) */
  method Copy(dst: array<Byte>, at: nat, src: seq<Byte>)
    requires at + |src| <= dst.Length
    modifies dst
    ensures dst[..] == Spliced(old(dst[..]), at, src)
  {
    forall i | 0 <= i < |src| {
      dst[at + i] := src[i];
    }
  }

  lemma SplicedEnds(buffer: seq<Byte>, at: nat, src: seq<Byte>)
    requires at + |src| <= |buffer|
    ensures at == 0 ==> Spliced(buffer, at, src)[..|src|] == src
    ensures at + |src| == |buffer| ==> Spliced(buffer, at, src)[at..] == src
  {
  }

  /** The bytes buffered before, followed by the copied ones. */
  lemma SplicedStart(buffer: seq<Byte>, at: nat, src: seq<Byte>)
    requires at + |src| <= |buffer|
    ensures Spliced(buffer, at, src)[..at + |src|] == buffer[..at] + src
  {
  }

  /** An input given in pieces. */
  function Concat(chunks: seq<seq<Byte>>): seq<Byte> {
    if chunks == [] then [] else Concat(chunks[..|chunks| - 1]) + chunks[|chunks| - 1]
  }
}
