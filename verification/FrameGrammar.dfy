/** The grammar of the framing format, and that the reader reads exactly what it describes. */
module FrameGrammar {
  import opened Methods
  import opened SnappyFrame

  /** A chunk of a stream: its identifier, one to be skipped, or one that holds data. */
  datatype Part =
    | Identifier
    | Skippable(ty: byte, body: Bytes)
    | Compressed(sum: Bytes, packed: Bytes, data: Bytes)
    | Plain(sum: Bytes, data: Bytes)
  {
    function Type(): byte {
      match this
      case Identifier => 0xff
      case Skippable(ty, _) => ty
      case Compressed(_, _, _) => 0x00
      case Plain(_, _) => 0x01
    }

    function Body(): Bytes {
      match this
      case Identifier => [0x73, 0x4e, 0x61, 0x50, 0x70, 0x59]
      case Skippable(_, body) => body
      case Compressed(sum, packed, _) => sum + packed
      case Plain(sum, data) => sum + data
    }

    function Held(): Bytes { if Compressed? || Plain? then data else [] }

    predicate WellFormed(b: Block) {
      && |Body()| < 0x100_0000
      && match this
         case Identifier => true
         case Skippable(ty, _) => 0x80 <= ty < 0xff
         case Compressed(sum, packed, data) =>
           |sum| == 4 && b.decompress(packed) == Some(data) && b.checksum(data) == sum && |data| <= 65536
         case Plain(sum, data) => |sum| == 4 && b.checksum(data) == sum && |data| <= 65536
    }
  }

  /** The type, the length of the body in three bytes, least significant first, and the body. */
  function BytesOf(part: Part): Bytes
    requires |part.Body()| < 0x100_0000
  {
    var n := |part.Body()|;
    [part.Type(), (n % 256) as byte, (n / 256 % 256) as byte, (n / 65536) as byte] + part.Body()
  }

  ghost predicate AllWellFormed(b: Block, parts: seq<Part>) {
    forall i | 0 <= i < |parts| :: parts[i].WellFormed(b)
  }

  ghost function Wire(b: Block, parts: seq<Part>): Bytes
    requires AllWellFormed(b, parts)
  {
    if parts == [] then [] else BytesOf(parts[0]) + Wire(b, parts[1..])
  }

  function DataOf(parts: seq<Part>): Bytes { if parts == [] then [] else parts[0].Held() + DataOf(parts[1..]) }

  /** A stream starts with its identifier. */
  predicate Starts(seen: bool, parts: seq<Part>) { seen || parts == [] || parts[0].Identifier? }

  lemma PartHeader(b: Block, part: Part, rest: Bytes)
    requires part.WellFormed(b)
    ensures
      var src, n := BytesOf(part) + rest, |part.Body()|;
      && |src| >= 4 + n && src[0] == part.Type() && ReadU24(src[1..]) == n
      && src[4..4 + n] == part.Body() && src[4 + n..] == rest && |BytesOf(part)| == 4 + n
  {
    var n, body := |part.Body()|, part.Body();
    var src := BytesOf(part) + rest;
    assert src == [part.Type()] + WriteU24(n) + (body + rest);
    Header(part.Type(), n, body + rest);
    hide ReadU24, WriteU24, BytesOf;
    SliceOf(src, body, rest);
  }

  lemma SliceOf(src: Bytes, body: Bytes, rest: Bytes)
    requires |src| == 4 + |body| + |rest| && src[4..] == body + rest
    ensures src[4..4 + |body|] == body && src[4 + |body|..] == rest
  {
    assert src[4..][..|body|] == body && src[4..][|body|..] == rest;
  }

  lemma HeldData(b: Block, part: Part)
    requires part.WellFormed(b) && (part.Compressed? || part.Plain?)
    ensures |part.Body()| >= 4 && ChunkData(b, part.Type(), part.Body()) == Some(part.data)
  {
    assert part.Body()[..4] == part.sum;
    assert part.Body()[4..] == if part.Compressed? then part.packed else part.data;
  }

  /** One chunk at the front of the source. */
  lemma PartRead(b: Block, part: Part, rest: Bytes, seen: bool, want: nat)
    requires part.WellFormed(b) && (seen || part.Identifier?) && want > 0
    ensures
      var n, x := |BytesOf(part)|, part.Held();
      Read(b, BytesOf(part) + rest, seen, want)
      == if |x| >= want then Data(x[..want], n) else Prepend(x, Skip(n, Read(b, rest, true, want - |x|)))
  {
    PartHeader(b, part, rest);
    if part.Compressed? || part.Plain? { HeldData(b, part); }
    hide ReadU24, ChunkData, BytesOf;
    var r := Read(b, rest, true, want);
    PrependNothing(Skip(|BytesOf(part)|, r));
  }

  lemma PrependNothing(r: FrameRead)
    ensures Prepend([], r) == r
  {
    if r.Data? { assert [] + r.data == r.data; }
  }

  /** The chunks in front of the source are read, if they hold less than is wanted. */
  lemma {:induction false} PartsRead(b: Block, parts: seq<Part>, rest: Bytes, seen: bool, want: nat)
    requires AllWellFormed(b, parts) && Starts(seen, parts) && |DataOf(parts)| < want
    ensures
      Read(b, Wire(b, parts) + rest, seen, want)
      == Prepend(DataOf(parts),
                 Skip(|Wire(b, parts)|, Read(b, rest, seen || parts != [], want - |DataOf(parts)|)))
  {
    hide Read, BytesOf;
    if parts == [] {
      assert [] + rest == rest;
      PrependNothing(Read(b, rest, seen, want));
    } else {
      var first, others := parts[0], parts[1..];
      PartRead(b, first, Wire(b, others) + rest, seen, want);
      PartsRead(b, others, rest, true, want - |first.Held()|);
      assert Wire(b, parts) + rest == BytesOf(first) + (Wire(b, others) + rest);
      var r := Read(b, rest, true, want - |DataOf(parts)|);
      if r.Data? {
        assert first.Held() + (DataOf(others) + r.data) == DataOf(parts) + r.data;
      }
    }
  }

  /** The wanted bytes are the front of the data of `front + [last]`, and `last` is needed for them. */
  ghost predicate Holds(b: Block, front: seq<Part>, last: Part, src: Bytes, want: nat, x: Bytes, used: nat) {
    && AllWellFormed(b, front) && last.WellFormed(b) && Starts(false, front + [last])
    && |DataOf(front)| < want <= |DataOf(front)| + |last.Held()|
    && x == (DataOf(front) + last.Held())[..want]
    && used == |Wire(b, front)| + |BytesOf(last)| && Wire(b, front) + BytesOf(last) <= src
  }

  /** The last chunk behind those in front. */
  lemma LastRead(b: Block, front: seq<Part>, last: Part, rest: Bytes, want: nat)
    requires AllWellFormed(b, front) && last.WellFormed(b) && Starts(false, front + [last])
    requires |DataOf(front)| < want <= |DataOf(front)| + |last.Held()|
    ensures
      var n := |DataOf(front)|;
      Read(b, Wire(b, front) + (BytesOf(last) + rest), false, want)
      == Data(DataOf(front) + last.Held()[..want - n], |Wire(b, front)| + |BytesOf(last)|)
  {
    hide Read, BytesOf, Wire, DataOf;
    assert (front + [last])[0] == if front == [] then last else front[0];
    PartsRead(b, front, BytesOf(last) + rest, false, want);
    PartRead(b, last, rest, front != [], want - |DataOf(front)|);
  }

  lemma HoldsIsRead(b: Block, front: seq<Part>, last: Part, src: Bytes, want: nat, x: Bytes, used: nat)
    requires Holds(b, front, last, src, want, x, used)
    ensures Read(b, src, false, want) == Data(x, used)
  {
    hide Read, BytesOf, Wire, DataOf, AllWellFormed, Starts;
    var rest := src[used..];
    LastRead(b, front, last, rest, want);
    Regroup(src, Wire(b, front), BytesOf(last));
    FrontOf(DataOf(front), last.Held(), want);
  }

  lemma Regroup(src: Bytes, a: Bytes, b: Bytes)
    requires a + b <= src
    ensures src == a + (b + src[|a| + |b|..])
  {
    assert src == src[..|a| + |b|] + src[|a| + |b|..];
    assert (a + b) + src[|a| + |b|..] == a + (b + src[|a| + |b|..]);
  }

  lemma FrontOf(a: Bytes, b: Bytes, want: nat)
    requires |a| < want <= |a| + |b|
    ensures (a + b)[..want] == a + b[..want - |a|]
  {
  }

  /* ---- the other way round ---- */

  /** The chunk at the front of a source in which the reader finds one. */
  lemma FirstPart(b: Block, src: Bytes, seen: bool, want: nat) returns (part: Part)
    requires want > 0 && Read(b, src, seen, want).Data?
    ensures part.WellFormed(b) && (seen || part.Identifier?) && BytesOf(part) <= src
  {
    var ty, len := src[0], ReadU24(src[1..]);
    var body := src[4..4 + len];
    part := if ty == STREAM_CHUNK then Identifier
            else if ty >= 0x80 then Skippable(ty, body)
            else if ty == COMPRESSED_CHUNK then Compressed(body[..4], body[4..], b.decompress(body[4..]).value)
            else Plain(body[..4], body[4..]);
    U24Bytes(src[1], src[2], src[3]);
    assert part.Body() == body;
    PartPrefix(part, src);
    hide BytesOf;
  }

  lemma PartPrefix(part: Part, src: Bytes)
    requires |part.Body()| < 0x100_0000 && |src| >= 4 && src[0] == part.Type()
    requires var len := ReadU24(src[1..]); |src| >= 4 + len && src[4..4 + len] == part.Body()
    ensures BytesOf(part) <= src
  {
    U24Bytes(src[1], src[2], src[3]);
    var len := ReadU24(src[1..]);
    assert src[..4 + len] == [src[0], src[1], src[2], src[3]] + src[4..4 + len];
    assert BytesOf(part) == src[..4 + len];
  }

  lemma U24Bytes(x: byte, y: byte, z: byte)
    ensures
      var n := x as nat + 256 * y as nat + 65536 * z as nat;
      n < 0x100_0000 && n % 256 == x as nat && n / 256 % 256 == y as nat && n / 65536 == z as nat
  {
    var n := x as nat + 256 * y as nat + 65536 * z as nat;
    assert n == 256 * (y as nat + 256 * z as nat) + x as nat;
    assert n / 256 == y as nat + 256 * z as nat;
    assert n == 65536 * z as nat + (x as nat + 256 * y as nat);
  }

  /** `Holds`, from a given position on. */
  ghost predicate HoldsFrom(b: Block, seen: bool, front: seq<Part>, last: Part, src: Bytes, want: nat, r: FrameRead) {
    && AllWellFormed(b, front) && last.WellFormed(b) && Starts(seen, front + [last])
    && |DataOf(front)| < want <= |DataOf(front)| + |last.Held()|
    && r.Data? && r.used == |Wire(b, front)| + |BytesOf(last)| && Wire(b, front) + BytesOf(last) <= src
  }

  /** The first chunk of a source that is read, and what reading the rest has to yield. */
  lemma FrontPart(b: Block, src: Bytes, seen: bool, want: nat) returns (part: Part, rest: Bytes)
    requires want > 0 && Read(b, src, seen, want).Data?
    ensures part.WellFormed(b) && (seen || part.Identifier?) && src == BytesOf(part) + rest && |rest| < |src|
    ensures
      var n, x := |BytesOf(part)|, part.Held();
      Read(b, src, seen, want)
      == if |x| >= want then Data(x[..want], n) else Prepend(x, Skip(n, Read(b, rest, true, want - |x|)))
  {
    part := FirstPart(b, src, seen, want);
    hide Read, BytesOf;
    rest := src[|BytesOf(part)|..];
    PartRead(b, part, rest, seen, want);
    PartHeader(b, part, rest);
    hide ReadU24;
  }

  lemma {:induction false} ReadHoldsFrom(b: Block, src: Bytes, seen: bool, want: nat)
    returns (front: seq<Part>, last: Part)
    requires want > 0 && Read(b, src, seen, want).Data?
    ensures HoldsFrom(b, seen, front, last, src, want, Read(b, src, seen, want))
    decreases |src|
  {
    hide Read, BytesOf, HoldsFrom;
    var part, rest := FrontPart(b, src, seen, want);
    var x := part.Held();
    if |x| >= want {
      OnlyPart(b, seen, part, src, want, x[..want]);
      return [], part;
    }
    front, last := ReadHoldsFrom(b, rest, true, want - |x|);
    Longer(b, seen, part, front, last, src, rest, want, Read(b, rest, true, want - |x|));
    front := [part] + front;
  }

  lemma OnlyPart(b: Block, seen: bool, part: Part, src: Bytes, want: nat, x: Bytes)
    requires part.WellFormed(b) && (seen || part.Identifier?) && BytesOf(part) <= src && 0 < want <= |part.Held()|
    ensures HoldsFrom(b, seen, [], part, src, want, Data(x, |BytesOf(part)|))
  {
    hide BytesOf;
    assert ([] + [part])[0] == part;
    assert [] + BytesOf(part) == BytesOf(part);
  }

  lemma Longer(b: Block, seen: bool, part: Part, front: seq<Part>, last: Part,
               src: Bytes, rest: Bytes, want: nat, r: FrameRead)
    requires part.WellFormed(b) && (seen || part.Identifier?) && src == BytesOf(part) + rest && |part.Held()| < want
    requires HoldsFrom(b, true, front, last, rest, want - |part.Held()|, r)
    ensures
      HoldsFrom(b, seen, [part] + front, last, src, want, Prepend(part.Held(), Skip(|BytesOf(part)|, r)))
  {
    hide BytesOf;
    var front' := [part] + front;
    assert front'[1..] == front && (front' + [last])[0] == part;
    PrefixBehind(BytesOf(part), Wire(b, front), BytesOf(last), rest);
  }

  lemma PrefixBehind(p: Bytes, w: Bytes, l: Bytes, rest: Bytes)
    requires w + l <= rest
    ensures (p + w) + l <= p + rest
  {
    assert rest == (w + l) + rest[|w + l|..];
    assert p + rest == ((p + w) + l) + rest[|w + l|..];
  }

  /** The reader yields the wanted bytes exactly if they are the front of the data of a stream in
      the framing format, and consumes that stream up to the chunk in which they end. */
  lemma ReadIffHolds(b: Block, src: Bytes, want: nat, x: Bytes, used: nat)
    requires want > 0
    ensures
      Read(b, src, false, want) == Data(x, used)
      <==> exists front: seq<Part>, last: Part :: Holds(b, front, last, src, want, x, used)
  {
    if Read(b, src, false, want) == Data(x, used) {
      var front, last := ReadHoldsFrom(b, src, false, want);
      var y := (DataOf(front) + last.Held())[..want];
      hide Read, BytesOf;
      assert Holds(b, front, last, src, want, y, used);
      HoldsIsRead(b, front, last, src, want, y, used);
    }
    if front: seq<Part>, last: Part :| Holds(b, front, last, src, want, x, used) {
      HoldsIsRead(b, front, last, src, want, x, used);
    }
  }

  /* ---- streams that are broken ---- */

  /** No chunk can start like this: not with the identifier, where that is due; a type that is
      reserved; an identifier that is none; a data chunk too short for its checksum, or complete but
      with a wrong one, too large or not to be decompressed. */
  predicate Broken(b: Block, seen: bool, s: Bytes) {
    |s| >= 4 &&
    (var ty, len := s[0] as int, s[1] as nat + 256 * s[2] as nat + 65536 * s[3] as nat;
     || (!seen && ty != 0xff)
     || 0x02 <= ty <= 0x7f
     || (ty == 0xff && (len != 6 || (|s| >= 10 && s[4..10] != [0x73, 0x4e, 0x61, 0x50, 0x70, 0x59])))
     || (ty <= 1 && (len < 4 || (|s| >= 4 + len && BadData(b, ty == 0, s[4..8], s[8..4 + len])))))
  }

  predicate BadData(b: Block, packed: bool, sum: Bytes, s: Bytes) {
    var x := if packed then b.decompress(s) else Some(s);
    x.None? || |x.value| > 65536 || b.checksum(x.value) != sum
  }

  lemma BrokenIsCorrupt(b: Block, seen: bool, s: Bytes, want: nat)
    requires want > 0 && Broken(b, seen, s)
    ensures Read(b, s, seen, want) == Corrupt
  {
    var ty, len := s[0], ReadU24(s[1..]);
    if ty <= 1 && 4 <= len && |s| >= 4 + len {
      var body := s[4..4 + len];
      assert body[..4] == s[4..8] && body[4..] == s[8..4 + len];
    }
  }

  /** A stream is refused as corrupt if it breaks before the wanted bytes are complete. */
  lemma BrokenStream(b: Block, parts: seq<Part>, s: Bytes, want: nat)
    requires AllWellFormed(b, parts) && Starts(false, parts) && |DataOf(parts)| < want
    requires Broken(b, parts != [], s)
    ensures Read(b, Wire(b, parts) + s, false, want) == Corrupt
  {
    hide Read, Broken;
    PartsRead(b, parts, s, false, want);
    BrokenIsCorrupt(b, parts != [], s, want - |DataOf(parts)|);
  }

  /* ---- what the writer writes ---- */

  /** A block as the writer stores it: compressed exactly if that pays. */
  function Stored(b: Block, x: Bytes): Part {
    if b.pays(x) then Compressed(b.checksum(x), b.compress(x), x) else Plain(b.checksum(x), x)
  }

  /** The blocks of a payload: all but the last are full. */
  ghost predicate BlocksOf(b: Block, parts: seq<Part>, x: Bytes) {
    && DataOf(parts) == x
    && (forall i | 0 <= i < |parts| :: parts[i] == Stored(b, parts[i].Held()) && parts[i].Held() != [])
    && (forall i | 0 <= i < |parts| - 1 :: |parts[i].Held()| == 65536)
  }

  lemma StoredChunk(b: Block, x: Bytes)
    requires Lawful(b) && 0 < |x| <= 65536
    ensures Stored(b, x).WellFormed(b) && BytesOf(Stored(b, x)) == Chunk(b, x) && Stored(b, x).Held() == x
  {
    StoredWellFormed(b, x);
    var body := Stored(b, x).Body();
    assert BytesOf(Stored(b, x)) == [Stored(b, x).Type()] + WriteU24(|body|) + body;
  }

  lemma StoredWellFormed(b: Block, x: Bytes)
    requires Lawful(b) && 0 < |x| <= 65536
    ensures Stored(b, x).WellFormed(b)
  {
  }

  lemma {:induction false} ChunksAreBlocks(b: Block, x: Bytes) returns (parts: seq<Part>)
    requires Lawful(b)
    ensures AllWellFormed(b, parts) && Wire(b, parts) == Chunks(b, x) && BlocksOf(b, parts, x)
    decreases |x|
  {
    hide Lawful, Chunk, BytesOf, Stored, AllWellFormed, BlocksOf, Wire;
    if |x| <= 65536 {
      parts := LastBlock(b, x);
    } else {
      var first, rest := x[..65536], x[65536..];
      var others := ChunksAreBlocks(b, rest);
      StoredChunk(b, first);
      OneMoreBlock(b, first, rest, others);
      assert first + rest == x;
      parts := [Stored(b, first)] + others;
    }
  }

  lemma LastBlock(b: Block, x: Bytes) returns (parts: seq<Part>)
    requires Lawful(b) && |x| <= 65536
    ensures AllWellFormed(b, parts) && Wire(b, parts) == Chunks(b, x) && BlocksOf(b, parts, x)
  {
    if x == [] { return []; }
    StoredChunk(b, x);
    NothingLeft(b);
    hide Lawful, Chunk, BytesOf, Stored, AllWellFormed, BlocksOf, Wire;
    OneMoreBlock(b, x, [], []);
    assert x + [] == x && Chunk(b, x) + [] == Chunk(b, x);
    parts := [Stored(b, x)];
    assert parts + [] == parts;
  }

  lemma NothingLeft(b: Block)
    ensures AllWellFormed(b, []) && Wire(b, []) == [] && BlocksOf(b, [], [])
  {
  }

  lemma OneMoreBlock(b: Block, first: Bytes, rest: Bytes, others: seq<Part>)
    requires first != [] && (rest != [] ==> |first| == 65536)
    requires Stored(b, first).WellFormed(b) && AllWellFormed(b, others) && BlocksOf(b, others, rest)
    ensures
      var parts := [Stored(b, first)] + others;
      && AllWellFormed(b, parts) && BlocksOf(b, parts, first + rest)
      && Wire(b, parts) == BytesOf(Stored(b, first)) + Wire(b, others)
  {
    hide BytesOf;
    var parts := [Stored(b, first)] + others;
    assert parts[1..] == others && parts[0].Held() == first;
    if rest == [] { NoBlocks(b, others); }
    assert forall i | 0 < i < |parts| :: parts[i] == others[i - 1];
    hide Stored, Wire, Lawful;
  }

  lemma FirstHeld(parts: seq<Part>)
    requires parts != []
    ensures parts[0].Held() <= DataOf(parts)
  {
  }

  lemma NoBlocks(b: Block, parts: seq<Part>)
    requires BlocksOf(b, parts, [])
    ensures parts == []
  {
    hide DataOf;
    if parts != [] { FirstHeld(parts); }
  }

  /** A payload is written as a stream in the framing format: nothing if it is empty, and otherwise
      the identifier and its blocks. */
  lemma WriteIsStream(b: Block, x: Bytes)
    requires Lawful(b)
    ensures x == [] ==> Write(b, x) == []
    ensures x != [] ==>
      exists parts: seq<Part> ::
        AllWellFormed(b, parts) && BlocksOf(b, parts, x) && Write(b, x) == BytesOf(Identifier) + Wire(b, parts)
  {
    if x != [] {
      IdentifierBytes();
      hide Lawful, Chunks, BytesOf, AllWellFormed, BlocksOf, Wire;
      var parts := ChunksAreBlocks(b, x);
    }
  }

  lemma IdentifierBytes()
    ensures BytesOf(Identifier) == STREAM_IDENTIFIER
  {
  }
}
