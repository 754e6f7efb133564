/** The Snappy framing format: a stream identifier followed by chunks of at most 64 KiB, each
    with a checksum. How a block is compressed and checksummed is left to a parameter, of which
    only the inverse law is used. */
module SnappyFrame {
  import opened Methods

  const MAX_BLOCK_SIZE: nat := 65536
  const MAX_COMPRESSED_SIZE: nat := 76490

  const STREAM_CHUNK: byte := 0xff
  const COMPRESSED_CHUNK: byte := 0x00
  const UNCOMPRESSED_CHUNK: byte := 0x01

  /** "sNaPpY" */
  const STREAM_BODY: Bytes := [0x73, 0x4e, 0x61, 0x50, 0x70, 0x59]
  const STREAM_IDENTIFIER: Bytes := [0xff, 0x06, 0x00, 0x00] + STREAM_BODY

  /** `pays(x)` says whether the encoder stores the block `x` compressed. */
  datatype Block = Block(
    compress: Bytes -> Bytes, decompress: Bytes -> Option<Bytes>, checksum: Bytes -> Bytes, pays: Bytes -> bool)

  ghost predicate Lawful(b: Block) {
    && (forall x: Bytes :: |b.checksum(x)| == 4)
    && (forall x: Bytes | |x| <= MAX_BLOCK_SIZE ::
          |b.compress(x)| <= MAX_COMPRESSED_SIZE && b.decompress(b.compress(x)) == Some(x))
  }

  /** Result of reading a number of bytes: the data and how much of the source it took, the end of
      the source, or a malformed stream. */
  datatype FrameRead = Data(data: Bytes, used: nat) | Eof | Corrupt

  function ReadU24(s: Bytes): nat
    requires |s| >= 3
  {
    s[0] as nat + 256 * s[1] as nat + 65536 * s[2] as nat
  }

  function WriteU24(n: nat): Bytes
    requires n < 0x100_0000
  {
    [(n % 256) as byte, (n / 256 % 256) as byte, (n / 65536) as byte]
  }

  lemma U24RoundTrip(n: nat, t: Bytes)
    requires n < 0x100_0000
    ensures ReadU24(WriteU24(n) + t) == n
  {
  }

  /** What a data chunk of the given type and body holds, if it is well-formed. */
  function ChunkData(b: Block, ty: byte, body: Bytes): Option<Bytes>
    requires ty == COMPRESSED_CHUNK || ty == UNCOMPRESSED_CHUNK
  {
    if |body| < 4 then None
    else
      match (if ty == COMPRESSED_CHUNK then b.decompress(body[4..]) else Some(body[4..]))
      case None => None
      case Some(x) => if |x| > MAX_BLOCK_SIZE || b.checksum(x) != body[..4] then None else Some(x)
  }

  /** Reads exactly `want` bytes. Nothing is consumed to read nothing, and what is left over of
      the last chunk is lost. */
  function Read(b: Block, src: Bytes, seen: bool, want: nat): FrameRead
    decreases |src|
  {
    if want == 0 then Data([], 0)
    else if |src| < 4 then Eof
    else
      var ty, len := src[0], ReadU24(src[1..]);
      if !seen && ty != STREAM_CHUNK then Corrupt
      else if ty == STREAM_CHUNK then
        if len != |STREAM_BODY| then Corrupt
        else if |src| < 4 + len then Eof
        else if src[4..4 + len] != STREAM_BODY then Corrupt
        else Skip(4 + len, Read(b, src[4 + len..], true, want))
      else if 0x02 <= ty <= 0x7f then Corrupt
      else if ty >= 0x80 then
        if |src| < 4 + len then Eof else Skip(4 + len, Read(b, src[4 + len..], seen, want))
      else if len < 4 then Corrupt
      else if |src| < 4 + len then Eof
      else
        match ChunkData(b, ty, src[4..4 + len])
        case None => Corrupt
        case Some(x) =>
          if |x| >= want then Data(x[..want], 4 + len)
          else Prepend(x, Skip(4 + len, Read(b, src[4 + len..], seen, want - |x|)))
  }

  function Skip(n: nat, r: FrameRead): FrameRead {
    if r.Data? then r.(used := n + r.used) else r
  }

  function Prepend(x: Bytes, r: FrameRead): FrameRead {
    if r.Data? then r.(data := x + r.data) else r
  }

  function Chunk(b: Block, x: Bytes): Bytes
    requires |x| <= MAX_BLOCK_SIZE && |b.compress(x)| <= MAX_COMPRESSED_SIZE && |b.checksum(x)| == 4
  {
    var body := b.checksum(x) + (if b.pays(x) then b.compress(x) else x);
    [if b.pays(x) then COMPRESSED_CHUNK else UNCOMPRESSED_CHUNK] + WriteU24(|body|) + body
  }

  function Chunks(b: Block, x: Bytes): Bytes
    requires Lawful(b)
    decreases |x|
  {
    if x == [] then []
    else if |x| <= MAX_BLOCK_SIZE then Chunk(b, x)
    else Chunk(b, x[..MAX_BLOCK_SIZE]) + Chunks(b, x[MAX_BLOCK_SIZE..])
  }

  /** What the frame encoder writes for a payload: nothing at all for an empty one. */
  function Write(b: Block, x: Bytes): Bytes
    requires Lawful(b)
  {
    if x == [] then [] else STREAM_IDENTIFIER + Chunks(b, x)
  }

  /* ---- laws ---- */

  /** Reading yields as much as was asked for and does not read past the source. */
  lemma {:induction false} ReadSize(b: Block, src: Bytes, seen: bool, want: nat)
    requires Read(b, src, seen, want).Data?
    ensures var r := Read(b, src, seen, want); |r.data| == want && r.used <= |src|
    decreases |src|
  {
    if want > 0 {
      var ty, len := src[0], ReadU24(src[1..]);
      if ty == STREAM_CHUNK {
        ReadSize(b, src[4 + len..], true, want);
      } else if ty >= 0x80 {
        ReadSize(b, src[4 + len..], seen, want);
      } else {
        var x := ChunkData(b, ty, src[4..4 + len]).value;
        if |x| < want { ReadSize(b, src[4 + len..], seen, want - |x|); }
      }
    }
  }

  lemma LengthStable(src: Bytes, t: Bytes)
    requires |src| >= 4
    ensures (src + t)[0] == src[0] && ReadU24((src + t)[1..]) == ReadU24(src[1..])
  {
  }

  /** Bytes that come later change neither a successful read nor a corrupt stream; only the end of
      the source is provisional. */
  lemma {:induction false} ReadStable(b: Block, src: Bytes, t: Bytes, seen: bool, want: nat)
    requires Read(b, src, seen, want) != Eof
    ensures Read(b, src + t, seen, want) == Read(b, src, seen, want)
    decreases |src|
  {
    hide ReadU24, ChunkData;
    if want > 0 {
      var all := src + t;
      var ty, len := src[0], ReadU24(src[1..]);
      if |src| >= 4 { LengthStable(src, t); }
      if |src| >= 4 + len {
        assert all[4..4 + len] == src[4..4 + len];
        assert all[4 + len..] == src[4 + len..] + t;
        var rest := src[4 + len..];
        if ty == STREAM_CHUNK {
          if Read(b, rest, true, want) != Eof { ReadStable(b, rest, t, true, want); }
        } else if ty >= 0x80 {
          if Read(b, rest, seen, want) != Eof { ReadStable(b, rest, t, seen, want); }
        } else if ty < 0x02 && len >= 4 {
          match ChunkData(b, ty, src[4..4 + len]) {
            case None =>
            case Some(x) =>
              if |x| < want && Read(b, rest, seen, want - |x|) != Eof { ReadStable(b, rest, t, seen, want - |x|); }
          }
        }
      }
    }
  }

  lemma Header(ty: byte, len: nat, rest: Bytes)
    requires len < 0x100_0000
    ensures
      var src := [ty] + WriteU24(len) + rest;
      |src| == 4 + |rest| && src[0] == ty && ReadU24(src[1..]) == len && src[4..] == rest
  {
    var src := [ty] + WriteU24(len) + rest;
    assert src[1..] == WriteU24(len) + rest;
    U24RoundTrip(len, rest);
  }

  /** Reading a source that starts with a complete data chunk. */
  lemma ReadChunk(b: Block, ty: byte, body: Bytes, x: Bytes, t: Bytes, want: nat)
    requires ty == COMPRESSED_CHUNK || ty == UNCOMPRESSED_CHUNK
    requires 4 <= |body| < 0x100_0000 && ChunkData(b, ty, body) == Some(x) && 0 < |x| <= want
    ensures
      Read(b, [ty] + WriteU24(|body|) + body + t, true, want)
      == if want == |x| then Data(x, 4 + |body|)
         else Prepend(x, Skip(4 + |body|, Read(b, t, true, want - |x|)))
  {
    hide Read, ChunkData, ReadU24, WriteU24, Prepend, Skip;
    var src := [ty] + WriteU24(|body|) + body + t;
    assert src == [ty] + WriteU24(|body|) + (body + t);
    Header(ty, |body|, body + t);
    assert src[4..4 + |body|] == src[4..][..|body|] == body;
    assert src[4 + |body|..] == src[4..][|body|..] == t;
    ReadData(b, src, x, want);
  }

  /** One step of reading, for a source that starts with a complete data chunk. */
  lemma ReadData(b: Block, src: Bytes, x: Bytes, want: nat)
    requires |src| >= 4 && (src[0] == COMPRESSED_CHUNK || src[0] == UNCOMPRESSED_CHUNK)
    requires 4 <= ReadU24(src[1..]) <= |src| - 4
    requires ChunkData(b, src[0], src[4..4 + ReadU24(src[1..])]) == Some(x) && 0 < |x| <= want
    ensures
      var n := 4 + ReadU24(src[1..]);
      Read(b, src, true, want)
      == if want == |x| then Data(x, n) else Prepend(x, Skip(n, Read(b, src[n..], true, want - |x|)))
  {
    hide ReadU24, ChunkData, Prepend, Skip;
    assert x[..|x|] == x;
  }

  /** One written chunk is read back. */
  lemma ChunkRead(b: Block, x: Bytes, t: Bytes, want: nat)
    requires Lawful(b) && 0 < |x| <= MAX_BLOCK_SIZE && |x| <= want
    ensures
      var c := Chunk(b, x);
      Read(b, c + t, true, want)
      == if want == |x| then Data(x, |c|) else Prepend(x, Skip(|c|, Read(b, t, true, want - |x|)))
  {
    var ty := if b.pays(x) then COMPRESSED_CHUNK else UNCOMPRESSED_CHUNK;
    var body := b.checksum(x) + (if b.pays(x) then b.compress(x) else x);
    assert body[..4] == b.checksum(x) && body[4..] == if b.pays(x) then b.compress(x) else x;
    assert Chunk(b, x) == [ty] + WriteU24(|body|) + body;
    ReadChunk(b, ty, body, x, t, want);
    hide Read;
  }

  lemma {:induction false} ChunksRead(b: Block, x: Bytes, t: Bytes)
    requires Lawful(b) && x != []
    ensures Read(b, Chunks(b, x) + t, true, |x|) == Data(x, |Chunks(b, x)|)
    decreases |x|
  {
    hide Read, Chunk;
    if |x| <= MAX_BLOCK_SIZE {
      ChunkRead(b, x, t, |x|);
    } else {
      var first, rest := x[..MAX_BLOCK_SIZE], x[MAX_BLOCK_SIZE..];
      ChunksRead(b, rest, t);
      ChunkRead(b, first, Chunks(b, rest) + t, |x|);
      assert Chunks(b, x) + t == Chunk(b, first) + (Chunks(b, rest) + t);
      assert first + rest == x;
    }
  }

  /** Reading a source that starts with a stream identifier. */
  lemma ReadIdentifier(b: Block, rest: Bytes, want: nat)
    requires want > 0
    ensures Read(b, STREAM_IDENTIFIER + rest, false, want) == Skip(10, Read(b, rest, true, want))
  {
    var src := STREAM_IDENTIFIER + rest;
    assert src == [STREAM_CHUNK] + WriteU24(6) + (STREAM_BODY + rest);
    Header(STREAM_CHUNK, 6, STREAM_BODY + rest);
    assert src[4..10] == src[4..][..6] == STREAM_BODY;
    assert src[10..] == src[4..][6..] == rest;
    hide ReadU24, WriteU24, Skip, ChunkData, Prepend;
  }

  /** What was written is read back, consuming exactly what was written. */
  lemma WriteRead(b: Block, x: Bytes, t: Bytes)
    requires Lawful(b)
    ensures Read(b, Write(b, x) + t, false, |x|) == Data(x, |Write(b, x)|)
  {
    if x != [] {
      var rest := Chunks(b, x) + t;
      assert Write(b, x) + t == STREAM_IDENTIFIER + rest;
      ReadIdentifier(b, rest, |x|);
      ChunksRead(b, x, t);
      hide Read, Chunks;
    }
  }
}
