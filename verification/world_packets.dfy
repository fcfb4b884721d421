/** The terrain packets: a single block change, the chunk pre-announcement and
    the chunk data packet, whose two class variants differ only in whether the
    chunk coordinates are scaled to block coordinates. */
module WorldPackets {
  import opened Binary
  import opened Wire

  // ---------------------------------------------------------------------------
  // BlockChangePacket
  // ---------------------------------------------------------------------------

  datatype BlockChangePacket =
    BlockChangePacket(x: Int32, y: byte, z: Int32, blockType: byte, blockMetadata: byte)

  /** The tag, x, y, z, block type and metadata; `BlockChangeRoundTrip` reads them back. */
  function WriteBlockChange(p: BlockChangePacket): (r: Bytes)
    ensures |r| == 12 && TypeOfTag(r[0]) == Some(PacketType.BlockChange)
  {
    WriteHeader(PacketType.BlockChange) + WriteInt(p.x) + WriteByte(p.y) + WriteInt(p.z)
      + WriteByte(p.blockType) + WriteByte(p.blockMetadata)
  }

  function ReadBlockChange(s: Bytes): (r: Option<Parsed<BlockChangePacket>>)
    ensures r.Some? <==> |s| >= 11
    ensures r.Some? ==> r.value.rest == s[11..]
  {
    var x :- ReadInt(s);
    var y :- ReadByte(x.rest);
    var z :- ReadInt(y.rest);
    var t :- ReadByte(z.rest);
    var m :- ReadByte(t.rest);
    Some(Parsed(BlockChangePacket(x.value, y.value, z.value, t.value, m.value), m.rest))
  }

  lemma BlockChangeRoundTrip(p: BlockChangePacket, rest: Bytes)
    ensures ReadBlockChange(WriteBlockChange(p)[1..] + rest) == Some(Parsed(p, rest))
  {
    var tail := [p.blockType] + ([p.blockMetadata] + rest);
    var afterY := WriteInt(p.z) + tail;
    var afterX := [p.y] + afterY;
    assert WriteBlockChange(p)[1..] + rest == WriteInt(p.x) + afterX;
    IntRoundTrip(p.x, afterX);
    IntRoundTrip(p.z, tail);
  }

  // ---------------------------------------------------------------------------
  // PreChunkPacket (server to client only)
  // ---------------------------------------------------------------------------

  datatype PreChunkPacket = PreChunkPacket(x: Int32, z: Int32, mode: bool)

  /** The tag, the chunk coordinates and the mode; see `PreChunkLayout`. */
  function WritePreChunk(p: PreChunkPacket): (r: Bytes)
    ensures |r| == 10 && TypeOfTag(r[0]) == Some(PacketType.PreChunk)
  {
    WriteHeader(PacketType.PreChunk) + WriteInt(p.x) + WriteInt(p.z) + WriteBool(p.mode)
  }

  /** `Read` throws `NotSupportedException` whatever follows. */
  function ReadPreChunk(s: Bytes): (r: Option<Parsed<PreChunkPacket>>)
    ensures r.None?
  {
    None
  }

  /** The fields come back out of the encoding with the primitive readers. */
  lemma PreChunkLayout(p: PreChunkPacket)
    ensures var b := WritePreChunk(p);
            ReadInt(b[1..]) == Some(Parsed(p.x, b[5..]))
            && ReadInt(b[5..]) == Some(Parsed(p.z, b[9..]))
            && ReadBool(b[9..]) == Some(Parsed(p.mode, []))
  {
    var b := WritePreChunk(p);
    assert b[1..] == WriteInt(p.x) + b[5..];
    assert b[5..] == WriteInt(p.z) + b[9..];
    assert b[9..] == WriteBool(p.mode) + [];
    IntRoundTrip(p.x, b[5..]);
    IntRoundTrip(p.z, b[9..]);
    BoolRoundTrip(p.mode, []);
  }

  // ---------------------------------------------------------------------------
  // MapChunkPacket: one datatype, two encoders
  // ---------------------------------------------------------------------------

  /** The fields of both `MapChunkPacket` classes. `chunkSize` is private and
      fixed by the constructor; `chunk` is what is actually written. */
  datatype MapChunkPacket = MapChunkPacket(
    xPosition: Int32, yPosition: Int32, zPosition: Int32,
    xSize: Int32, ySize: Int32, zSize: Int32,
    chunk: Bytes, chunkSize: Int32)

  /** The constructor shared by both classes. A .NET array length is an
      `int`, hence the bound on the payload. */
  function NewMapChunk(x: Int32, y: Int32, z: Int32, data: Bytes): (p: MapChunkPacket)
    requires |data| < 0x8000_0000
    ensures p.xSize == 16 && p.ySize == 128 && p.zSize == 16
    ensures p.chunkSize == |p.chunk| && p.chunk == data
    ensures p.xPosition == x && p.yPosition == y && p.zPosition == z
  {
    MapChunkPacket(x, y, z, 16, 128, 16, data, |data|)
  }

  /** The fields after the tag, given the coordinates as written. */
  function MapChunkBody(p: MapChunkPacket, x: Int32, z: Int32): (r: Bytes)
    ensures |r| == 17 + |p.chunk|
  {
    WriteInt(x) + WriteShort(Wrap16(p.yPosition)) + WriteInt(z) + BodyTail(p)
  }

  /** The part of the body after the coordinates: the three size bytes, the
      length field and the payload. */
  function BodyTail(p: MapChunkPacket): (r: Bytes)
    ensures |r| == 7 + |p.chunk|
  {
    WriteByte(Unsigned(p.xSize - 1, 1)) + WriteByte(Unsigned(p.ySize - 1, 1))
      + WriteByte(Unsigned(p.zSize - 1, 1)) + WriteInt(p.chunkSize) + p.chunk
  }

  /** The variant in packets/: X and Z are multiplied by 16 (wrapping as C#
      `int` arithmetic does) to give block coordinates. */
  function WriteMapChunk(p: MapChunkPacket): (r: Bytes)
    ensures |r| == 18 + |p.chunk| && TypeOfTag(r[0]) == Some(PacketType.MapChunk)
  {
    WriteHeader(PacketType.MapChunk)
      + MapChunkBody(p, Wrap32(p.xPosition * 16), Wrap32(p.zPosition * 16))
  }

  /** The variant at the top level: X and Z are written as they are. */
  function WriteMapChunkRoot(p: MapChunkPacket): (r: Bytes)
    ensures |r| == 18 + |p.chunk| && TypeOfTag(r[0]) == Some(PacketType.MapChunk)
  {
    WriteHeader(PacketType.MapChunk) + MapChunkBody(p, p.xPosition, p.zPosition)
  }

  /** `Read` is empty in both variants: nothing is consumed, nothing changes. */
  function ReadMapChunk(p: MapChunkPacket, s: Bytes): (r: Option<Parsed<MapChunkPacket>>)
    ensures r == Some(Parsed(p, s))
  {
    Some(Parsed(p, s))
  }

  /** What a reader of the body sees: the two coordinates as written, the
      wrapped Y, the three size bytes, the length field and the payload. */
  lemma MapChunkBodyLayout(p: MapChunkPacket, x: Int32, z: Int32)
    ensures var b := MapChunkBody(p, x, z);
            ReadInt(b) == Some(Parsed(x, b[4..]))
            && ReadShort(b[4..]) == Some(Parsed(Wrap16(p.yPosition), b[6..]))
            && ReadInt(b[6..]) == Some(Parsed(z, b[10..]))
            && b[10] == Unsigned(p.xSize - 1, 1)
            && b[11] == Unsigned(p.ySize - 1, 1)
            && b[12] == Unsigned(p.zSize - 1, 1)
            && ReadInt(b[13..]) == Some(Parsed(p.chunkSize, p.chunk))
  {
    CoordinateFields(p, x, z);
    TailFields(p);
  }

  /** The first ten bytes of the body: X, the wrapped Y and Z. */
  lemma CoordinateFields(p: MapChunkPacket, x: Int32, z: Int32)
    ensures var b := MapChunkBody(p, x, z);
            ReadInt(b) == Some(Parsed(x, b[4..]))
            && ReadShort(b[4..]) == Some(Parsed(Wrap16(p.yPosition), b[6..]))
            && ReadInt(b[6..]) == Some(Parsed(z, b[10..]))
            && b[10..] == BodyTail(p)
  {
    var b := MapChunkBody(p, x, z);
    var t := BodyTail(p);
    assert b == WriteInt(x) + (WriteShort(Wrap16(p.yPosition)) + (WriteInt(z) + t));
    IntRoundTrip(x, b[4..]);
    ShortRoundTrip(Wrap16(p.yPosition), b[6..]);
    IntRoundTrip(z, b[10..]);
  }

  /** The tail: the three size bytes, then the length field and the payload. */
  lemma TailFields(p: MapChunkPacket)
    ensures var t := BodyTail(p);
            t[0] == Unsigned(p.xSize - 1, 1)
            && t[1] == Unsigned(p.ySize - 1, 1)
            && t[2] == Unsigned(p.zSize - 1, 1)
            && ReadInt(t[3..]) == Some(Parsed(p.chunkSize, p.chunk))
  {
    var t := BodyTail(p);
    var tail := WriteInt(p.chunkSize) + p.chunk;
    assert t == [Unsigned(p.xSize - 1, 1), Unsigned(p.ySize - 1, 1), Unsigned(p.zSize - 1, 1)] + tail;
    assert t[3..] == tail;
    IntRoundTrip(p.chunkSize, p.chunk);
  }

  /** For a packet made by the constructor the size bytes are 15, 127, 15,
      the length field is the payload length and the payload follows it. */
  lemma MapChunkConstructed(x: Int32, y: Int32, z: Int32, data: Bytes, a: Int32, c: Int32)
    requires |data| < 0x8000_0000
    ensures var b := MapChunkBody(NewMapChunk(x, y, z, data), a, c);
            b[10..13] == [15, 127, 15] && ReadInt(b[13..]) == Some(Parsed(|data|, data))
  {
    var p := NewMapChunk(x, y, z, data);
    var b := MapChunkBody(p, a, c);
    MapChunkBodyLayout(p, a, c);
    SizeByte(p.xSize - 1);
    SizeByte(p.ySize - 1);
    assert b[10] == 15 && b[11] == 127 && b[12] == 15;
    assert b[10..13] == [b[10], b[11], b[12]];
  }

  lemma SizeByte(v: int)
    requires 0 <= v < 256
    ensures Unsigned(v, 1) == v
  {
    Pow256Widths();
  }

  /** The packets/ variant carries 16·X and 16·Z, exactly when they fit in an
      `int`. */
  lemma MapChunkScaled(p: MapChunkPacket)
    ensures var b := WriteMapChunk(p);
            b[1..] == MapChunkBody(p, Wrap32(p.xPosition * 16), Wrap32(p.zPosition * 16))
            && ReadInt(b[1..]).value.value == Wrap32(p.xPosition * 16)
            && ReadInt(b[7..]).value.value == Wrap32(p.zPosition * 16)
            && (-0x800_0000 <= p.xPosition < 0x800_0000 ==> ReadInt(b[1..]).value.value == 16 * p.xPosition)
            && (-0x800_0000 <= p.zPosition < 0x800_0000 ==> ReadInt(b[7..]).value.value == 16 * p.zPosition)
  {
    var b := WriteMapChunk(p);
    var body := MapChunkBody(p, Wrap32(p.xPosition * 16), Wrap32(p.zPosition * 16));
    MapChunkBodyLayout(p, Wrap32(p.xPosition * 16), Wrap32(p.zPosition * 16));
    assert b[1..] == body;
    assert b[7..] == body[6..];
  }

  /** The top-level variant carries X and Z unchanged. */
  lemma MapChunkRootUnscaled(p: MapChunkPacket)
    ensures var b := WriteMapChunkRoot(p);
            b[1..] == MapChunkBody(p, p.xPosition, p.zPosition)
            && ReadInt(b[1..]).value.value == p.xPosition
            && ReadInt(b[7..]).value.value == p.zPosition
  {
    var b := WriteMapChunkRoot(p);
    var body := MapChunkBody(p, p.xPosition, p.zPosition);
    MapChunkBodyLayout(p, p.xPosition, p.zPosition);
    assert b[1..] == body;
    assert b[7..] == body[6..];
  }

  /** Apart from the two coordinates the variants write the same bytes. */
  lemma MapChunkVariantsAgree(p: MapChunkPacket)
    ensures var b := WriteMapChunk(p);
            var c := WriteMapChunkRoot(p);
            b[..1] == c[..1] && b[5..7] == c[5..7] && b[11..] == c[11..]
  {
    var h := WriteHeader(PacketType.MapChunk);
    BodySlices(p, h, Wrap32(p.xPosition * 16), Wrap32(p.zPosition * 16));
    BodySlices(p, h, p.xPosition, p.zPosition);
  }

  /** Where the Y field and the tail sit once a one-byte header is in front. */
  lemma BodySlices(p: MapChunkPacket, h: Bytes, x: Int32, z: Int32)
    requires |h| == 1
    ensures var b := h + MapChunkBody(p, x, z);
            b[..1] == h && b[5..7] == WriteShort(Wrap16(p.yPosition)) && b[11..] == BodyTail(p)
  {
    var body := MapChunkBody(p, x, z);
    var b := h + body;
    assert b[5..7] == body[4..6] && b[11..] == body[10..];
    var xy := WriteInt(x) + WriteShort(Wrap16(p.yPosition));
    var xyz := xy + WriteInt(z);
    assert body[..10] == xyz && body[10..] == BodyTail(p);
    assert body[4..6] == xyz[4..6] == xy[4..6];
  }
}
