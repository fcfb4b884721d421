/** The wire primitives every packet is built from: big-endian two's-complement
    integers, IEEE bit patterns, one-byte booleans, length-prefixed UTF-16 and
    UTF-8 strings and the 64-byte padded string; and the one-byte type tag that
    starts every packet. A reader takes the bytes still to come and yields the
    value and the bytes after it, or None where the .NET reader throws. */
module Wire {
  import opened Binary

  datatype Parsed<+T> = Parsed(value: T, rest: Bytes)

  function Min(a: int, b: int): int {
    if a < b then a else b
  }

  // ---------------------------------------------------------------------------
  // Packet type tags
  // ---------------------------------------------------------------------------

  datatype PacketType =
    | KeepAlive | LoginRequest | Handshake | ChatMessage | TimeUpdate
    | SpawnPosition | UpdateHealth | Player | PlayerPosition | PlayerLook
    | PlayerPositionLook | HoldingChange | NamedEntitySpawn | DestroyEntity
    | EntityMove | EntityLook | EntityLookRelativeMove | EntityTeleport
    | PreChunk | MapChunk | BlockChange | Disconnect

  /** The byte `(byte)Type` of each packet type, as numbered by the Beta 1.7.3
      protocol. */
  function Tag(t: PacketType): byte {
    match t
    case KeepAlive => 0x00
    case LoginRequest => 0x01
    case Handshake => 0x02
    case ChatMessage => 0x03
    case TimeUpdate => 0x04
    case SpawnPosition => 0x06
    case UpdateHealth => 0x08
    case Player => 0x0A
    case PlayerPosition => 0x0B
    case PlayerLook => 0x0C
    case PlayerPositionLook => 0x0D
    case HoldingChange => 0x10
    case NamedEntitySpawn => 0x14
    case DestroyEntity => 0x1D
    case EntityMove => 0x1F
    case EntityLook => 0x20
    case EntityLookRelativeMove => 0x21
    case EntityTeleport => 0x22
    case PreChunk => 0x32
    case MapChunk => 0x33
    case BlockChange => 0x35
    case Disconnect => 0xFF
  }

  /** The packet type a tag byte names, if any: the cast `(PacketType)b`
      restricted to declared members. */
  function TypeOfTag(b: byte): (r: Option<PacketType>)
    ensures r.Some? ==> Tag(r.value) == b
  {
    if b == 0x00 then Some(KeepAlive)
    else if b == 0x01 then Some(LoginRequest)
    else if b == 0x02 then Some(Handshake)
    else if b == 0x03 then Some(ChatMessage)
    else if b == 0x04 then Some(TimeUpdate)
    else if b == 0x06 then Some(SpawnPosition)
    else if b == 0x08 then Some(UpdateHealth)
    else if b == 0x0A then Some(Player)
    else if b == 0x0B then Some(PlayerPosition)
    else if b == 0x0C then Some(PlayerLook)
    else if b == 0x0D then Some(PlayerPositionLook)
    else if b == 0x10 then Some(HoldingChange)
    else if b == 0x14 then Some(NamedEntitySpawn)
    else if b == 0x1D then Some(DestroyEntity)
    else if b == 0x1F then Some(EntityMove)
    else if b == 0x20 then Some(EntityLook)
    else if b == 0x21 then Some(EntityLookRelativeMove)
    else if b == 0x22 then Some(EntityTeleport)
    else if b == 0x32 then Some(PreChunk)
    else if b == 0x33 then Some(MapChunk)
    else if b == 0x35 then Some(BlockChange)
    else if b == 0xFF then Some(Disconnect)
    else None
  }

  /** Every type is recovered from its tag, so distinct types have distinct tags. */
  lemma TagsDistinct(t: PacketType, u: PacketType)
    ensures TypeOfTag(Tag(t)) == Some(t)
    ensures Tag(t) == Tag(u) ==> t == u
  {
    assert TypeOfTag(Tag(u)) == Some(u);
  }

  /** The base `Write`: the type tag alone. */
  function WriteHeader(t: PacketType): (r: Bytes)
    ensures |r| == 1 && TypeOfTag(r[0]) == Some(t)
  {
    TagsDistinct(t, t);
    [Tag(t)]
  }

  // ---------------------------------------------------------------------------
  // Bytes and fixed-width big-endian numbers
  // ---------------------------------------------------------------------------

  function WriteByte(b: byte): Bytes {
    [b]
  }

  /** `ReadByte` throws at the end of the stream. */
  function ReadByte(s: Bytes): (r: Option<Parsed<byte>>)
    ensures r.Some? <==> |s| >= 1
    ensures r.Some? ==> [r.value.value] + r.value.rest == s
  {
    if |s| == 0 then None else Some(Parsed(s[0], s[1..]))
  }

  /** w bytes read as an unsigned big-endian number. Reading fewer bytes than
      `BitConverter` needs throws. */
  function ReadFixed(s: Bytes, w: nat): (r: Option<Parsed<nat>>)
    ensures r.Some? <==> |s| >= w
    ensures r.Some? ==> r.value.value < Pow256(w)
    ensures r.Some? ==> ToBigEndian(r.value.value, w) + r.value.rest == s
  {
    if |s| < w then None
    else
      ToFromBigEndian(s[..w]);
      assert s == s[..w] + s[w..];
      Some(Parsed(FromBigEndian(s[..w]), s[w..]))
  }

  lemma ReadFixedWritten(n: nat, w: nat, rest: Bytes)
    requires n < Pow256(w)
    ensures ReadFixed(ToBigEndian(n, w) + rest, w) == Some(Parsed(n, rest))
  {
    var s := ToBigEndian(n, w) + rest;
    assert s[..w] == ToBigEndian(n, w) && s[w..] == rest;
    FromToBigEndian(n, w);
  }

  function WriteShort(x: Int16): (r: Bytes)
    ensures |r| == 2 && FromBigEndian(r) == Unsigned(x, 2)
  {
    FromToBigEndian(Unsigned(x, 2), 2);
    ToBigEndian(Unsigned(x, 2), 2)
  }

  function WriteInt(x: Int32): (r: Bytes)
    ensures |r| == 4 && FromBigEndian(r) == Unsigned(x, 4)
  {
    FromToBigEndian(Unsigned(x, 4), 4);
    ToBigEndian(Unsigned(x, 4), 4)
  }

  function WriteLong(x: Int64): (r: Bytes)
    ensures |r| == 8 && FromBigEndian(r) == Unsigned(x, 8)
  {
    FromToBigEndian(Unsigned(x, 8), 8);
    ToBigEndian(Unsigned(x, 8), 8)
  }

  function ReadShort(s: Bytes): (r: Option<Parsed<Int16>>)
    ensures r.Some? <==> |s| >= 2
    ensures r.Some? ==> r.value.rest == s[2..]
  {
    var p :- ReadFixed(s, 2);
    Some(Parsed(Signed(p.value, 2), p.rest))
  }

  function ReadInt(s: Bytes): (r: Option<Parsed<Int32>>)
    ensures r.Some? <==> |s| >= 4
    ensures r.Some? ==> r.value.rest == s[4..]
  {
    var p :- ReadFixed(s, 4);
    Some(Parsed(Signed(p.value, 4), p.rest))
  }

  function ReadLong(s: Bytes): (r: Option<Parsed<Int64>>)
    ensures r.Some? <==> |s| >= 8
    ensures r.Some? ==> r.value.rest == s[8..]
  {
    var p :- ReadFixed(s, 8);
    Some(Parsed(Signed(p.value, 8), p.rest))
  }

  lemma ShortRoundTrip(x: Int16, rest: Bytes)
    ensures ReadShort(WriteShort(x) + rest) == Some(Parsed(x, rest))
  {
    ReadFixedWritten(Unsigned(x, 2), 2, rest);
    assert Wrap16(x) == x;
  }

  lemma IntRoundTrip(x: Int32, rest: Bytes)
    ensures ReadInt(WriteInt(x) + rest) == Some(Parsed(x, rest))
  {
    ReadFixedWritten(Unsigned(x, 4), 4, rest);
    assert Wrap32(x) == x;
  }

  lemma LongRoundTrip(x: Int64, rest: Bytes)
    ensures ReadLong(WriteLong(x) + rest) == Some(Parsed(x, rest))
  {
    ReadFixedWritten(Unsigned(x, 8), 8, rest);
    LongValue(x);
  }

  /** Every long is the long its 64-bit pattern denotes. */
  lemma LongValue(x: Int64)
    ensures Signed(Unsigned(x, 8), 8) == x
  {
    Pow256Widths();
    if x < 0 {
      assert Unsigned(x, 8) == x + 0x1_0000_0000_0000_0000;
    }
  }

  /** The other direction: every two bytes are the encoding of the short read
      from them. */
  lemma ShortReadWrite(s: Bytes)
    requires |s| >= 2
    ensures WriteShort(ReadShort(s).value.value) + ReadShort(s).value.rest == s
  {
    var p := ReadFixed(s, 2).value;
    assert Unsigned(Signed(p.value, 2), 2) == p.value;
  }

  lemma IntReadWrite(s: Bytes)
    requires |s| >= 4
    ensures WriteInt(ReadInt(s).value.value) + ReadInt(s).value.rest == s
  {
    var p := ReadFixed(s, 4).value;
    assert Unsigned(Signed(p.value, 4), 4) == p.value;
  }

  lemma LongReadWrite(s: Bytes)
    requires |s| >= 8
    ensures WriteLong(ReadLong(s).value.value) + ReadLong(s).value.rest == s
  {
    var p := ReadFixed(s, 8).value;
    LongPattern(p.value);
  }

  /** Every 64-bit pattern is the pattern of the long it denotes. */
  lemma LongPattern(v: nat)
    requires v < Pow256(8)
    ensures Unsigned(Signed(v, 8), 8) == v
  {
    Pow256Widths();
    if v >= 0x8000_0000_0000_0000 {
      assert Signed(v, 8) == v - 0x1_0000_0000_0000_0000;
    }
  }

  // ---------------------------------------------------------------------------
  // Floating point, as bit patterns
  // ---------------------------------------------------------------------------

  /** `WriteFloat`: the IEEE single-precision bit pattern, big-endian. */
  function WriteFloat(f: Bits32): (r: Bytes)
    ensures |r| == 4 && FromBigEndian(r) == f
  {
    FromToBigEndian(f, 4);
    ToBigEndian(f, 4)
  }

  function WriteDouble(d: Bits64): (r: Bytes)
    ensures |r| == 8 && FromBigEndian(r) == d
  {
    Pow256Widths();
    FromToBigEndian(d, 8);
    ToBigEndian(d, 8)
  }

  function ReadFloat(s: Bytes): (r: Option<Parsed<Bits32>>)
    ensures r.Some? <==> |s| >= 4
    ensures r.Some? ==> r.value.rest == s[4..]
  {
    Pow256Widths();
    var p :- ReadFixed(s, 4);
    Some(Parsed(p.value, p.rest))
  }

  function ReadDouble(s: Bytes): (r: Option<Parsed<Bits64>>)
    ensures r.Some? <==> |s| >= 8
    ensures r.Some? ==> r.value.rest == s[8..]
  {
    Pow256Widths();
    var p :- ReadFixed(s, 8);
    Some(Parsed(p.value, p.rest))
  }

  lemma FloatRoundTrip(f: Bits32, rest: Bytes)
    ensures ReadFloat(WriteFloat(f) + rest) == Some(Parsed(f, rest))
  {
    ReadFixedWritten(f, 4, rest);
  }

  lemma DoubleRoundTrip(d: Bits64, rest: Bytes)
    ensures ReadDouble(WriteDouble(d) + rest) == Some(Parsed(d, rest))
  {
    Pow256Widths();
    ReadFixedWritten(d, 8, rest);
  }

  lemma FloatReadWrite(s: Bytes)
    requires |s| >= 4
    ensures WriteFloat(ReadFloat(s).value.value) + ReadFloat(s).value.rest == s
  {
  }

  lemma DoubleReadWrite(s: Bytes)
    requires |s| >= 8
    ensures WriteDouble(ReadDouble(s).value.value) + ReadDouble(s).value.rest == s
  {
  }

  // ---------------------------------------------------------------------------
  // Signed bytes and booleans
  // ---------------------------------------------------------------------------

  /** `(byte)value`: the two's-complement pattern of a signed byte. */
  function WriteSByte(v: Int8): (r: Bytes)
    ensures |r| == 1 && r[0] == Unsigned(v, 1)
  {
    [Unsigned(v, 1)]
  }

  /** `(sbyte)ReadByte()`. */
  function ReadSByte(s: Bytes): (r: Option<Parsed<Int8>>)
    ensures r.Some? <==> |s| >= 1
    ensures r.Some? ==> r.value.rest == s[1..]
  {
    var p :- ReadByte(s);
    Some(Parsed(Wrap8(p.value), p.rest))
  }

  lemma SByteRoundTrip(v: Int8, rest: Bytes)
    ensures ReadSByte(WriteSByte(v) + rest) == Some(Parsed(v, rest))
  {
    assert (WriteSByte(v) + rest)[1..] == rest;
  }

  lemma SByteReadWrite(s: Bytes)
    requires |s| >= 1
    ensures WriteSByte(ReadSByte(s).value.value) + ReadSByte(s).value.rest == s
  {
    assert s == [s[0]] + s[1..];
  }

  function WriteBool(b: bool): (r: Bytes)
    ensures |r| == 1 && r[0] in {0, 1}
  {
    [if b then 0x01 else 0x00]
  }

  /** `ReadBool` compares with 0x01: every other byte, nonzero or not, is false. */
  function ReadBool(s: Bytes): (r: Option<Parsed<bool>>)
    ensures r.Some? <==> |s| >= 1
    ensures r.Some? ==> (r.value.value <==> s[0] == 0x01) && r.value.rest == s[1..]
  {
    var p :- ReadByte(s);
    Some(Parsed(p.value == 0x01, p.rest))
  }

  /** `BinaryReader.ReadBoolean`: any nonzero byte is true. */
  function ReadNativeBool(s: Bytes): (r: Option<Parsed<bool>>)
    ensures r.Some? <==> |s| >= 1
    ensures r.Some? ==> (r.value.value <==> s[0] != 0) && r.value.rest == s[1..]
  {
    var p :- ReadByte(s);
    Some(Parsed(p.value != 0, p.rest))
  }

  lemma BoolRoundTrip(b: bool, rest: Bytes)
    ensures ReadBool(WriteBool(b) + rest) == Some(Parsed(b, rest))
    ensures ReadNativeBool(WriteBool(b) + rest) == Some(Parsed(b, rest))
  {
    assert (WriteBool(b) + rest)[1..] == rest;
  }

  /** The two readers disagree exactly on the bytes 2..255. */
  lemma BoolReadersDisagree(c: byte, rest: Bytes)
    ensures ReadBool([c] + rest).value.value != ReadNativeBool([c] + rest).value.value <==> c >= 2
  {
  }

  // ---------------------------------------------------------------------------
  // Strings
  // ---------------------------------------------------------------------------

  /** `Encoding.BigEndianUnicode.GetBytes`: two bytes per code unit, high byte
      first. */
  function UnitsToBytes(t: Text): (r: Bytes)
    ensures |r| == 2 * |t|
  {
    if |t| == 0 then [] else ToBigEndian(t[0], 2) + UnitsToBytes(t[1..])
  }

  /** `Encoding.BigEndianUnicode.GetString`: byte pairs to code units; a lone
      trailing byte decodes to the replacement character U+FFFD. */
  function BytesToUnits(bs: Bytes): (r: Text)
    ensures |r| == (|bs| + 1) / 2
  {
    if |bs| == 0 then []
    else if |bs| == 1 then [0xFFFD]
    else [FromBigEndian(bs[..2])] + BytesToUnits(bs[2..])
  }

  lemma {:induction false} UnitsBytesRoundTrip(t: Text)
    ensures BytesToUnits(UnitsToBytes(t)) == t
  {
    if |t| > 0 {
      var bs := UnitsToBytes(t);
      var head := ToBigEndian(t[0], 2);
      assert bs[..2] == head && bs[2..] == UnitsToBytes(t[1..]);
      assert BytesToUnits(bs) == [FromBigEndian(head)] + BytesToUnits(UnitsToBytes(t[1..]));
      Pow256Widths();
      FromToBigEndian(t[0], 2);
      UnitsBytesRoundTrip(t[1..]);
    }
  }

  /** `WriteString16`: a short holding `(short)(bytes.Length / 2)`, the number of
      code units wrapped to 16 bits, then the code units. */
  function WriteString16(t: Text): (r: Bytes)
    ensures |r| == 2 + 2 * |t|
    ensures r[2..] == UnitsToBytes(t)
  {
    WriteShort(Wrap16(|t|)) + UnitsToBytes(t)
  }

  /** `ReadString16`: a negative count makes `ReadBytes` throw; at the end of
      the stream `ReadBytes` returns the bytes that are left. A count n whose
      2n bytes are all there yields n code units and leaves what follows;
      a truncated string consumes the rest of the input. */
  function ReadString16(s: Bytes): (r: Option<Parsed<Text>>)
    ensures r.Some? <==> |s| >= 2 && ReadShort(s).value.value >= 0
    ensures r.Some? ==> |r.value.rest| <= |s| - 2 && r.value.rest == s[|s| - |r.value.rest|..]
    ensures r.Some? && |s| >= 2 + 2 * ReadShort(s).value.value ==>
              |r.value.value| == ReadShort(s).value.value
              && r.value.rest == s[2 + 2 * ReadShort(s).value.value..]
    ensures r.Some? && |s| < 2 + 2 * ReadShort(s).value.value ==> r.value.rest == []
  {
    var n :- ReadShort(s);
    if n.value < 0 then None
    else
      var k := Min(2 * n.value, |n.rest|);
      Some(Parsed(BytesToUnits(n.rest[..k]), n.rest[k..]))
  }

  /** Strings shorter than 2^15 code units survive the trip. */
  lemma String16RoundTrip(t: Text, rest: Bytes)
    requires |t| < 0x8000
    ensures ReadString16(WriteString16(t) + rest) == Some(Parsed(t, rest))
  {
    var s := WriteString16(t) + rest;
    assert s == WriteShort(|t|) + (UnitsToBytes(t) + rest);
    ShortRoundTrip(|t|, UnitsToBytes(t) + rest);
    var tail := UnitsToBytes(t) + rest;
    assert tail[..2 * |t|] == UnitsToBytes(t);
    assert tail[2 * |t|..] == rest;
    UnitsBytesRoundTrip(t);
  }

  /** A string of 2^15 or more code units gets a negative count and cannot be
      read back. */
  lemma String16TooLong(t: Text, rest: Bytes)
    requires 0x8000 <= |t| < 0x1_0000
    ensures ReadString16(WriteString16(t) + rest).None?
  {
    var s := WriteString16(t) + rest;
    assert s == WriteShort(Wrap16(|t|)) + (UnitsToBytes(t) + rest);
    ShortRoundTrip(Wrap16(|t|), UnitsToBytes(t) + rest);
    assert Wrap16(|t|) == |t| - 0x1_0000;
  }

  /** `WriteString8`, over the UTF-8 bytes of the string: a short holding the
      byte count wrapped to 16 bits, then the bytes. */
  function WriteString8(utf8: Bytes): (r: Bytes)
    ensures |r| == 2 + |utf8| && r[2..] == utf8
  {
    WriteShort(Wrap16(|utf8|)) + utf8
  }

  /** `ReadString8`: as `ReadString16`, with a count of bytes rather than of
      code units. */
  function ReadString8(s: Bytes): (r: Option<Parsed<Bytes>>)
    ensures r.Some? <==> |s| >= 2 && ReadShort(s).value.value >= 0
    ensures r.Some? ==> |r.value.rest| <= |s| - 2 && r.value.rest == s[|s| - |r.value.rest|..]
    ensures r.Some? && |s| >= 2 + ReadShort(s).value.value ==>
              r.value.value == s[2..2 + ReadShort(s).value.value]
              && r.value.rest == s[2 + ReadShort(s).value.value..]
    ensures r.Some? && |s| < 2 + ReadShort(s).value.value ==> r.value.value == s[2..] && r.value.rest == []
  {
    var n :- ReadShort(s);
    if n.value < 0 then None
    else
      var k := Min(n.value, |n.rest|);
      Some(Parsed(n.rest[..k], n.rest[k..]))
  }

  lemma String8RoundTrip(utf8: Bytes, rest: Bytes)
    requires |utf8| < 0x8000
    ensures ReadString8(WriteString8(utf8) + rest) == Some(Parsed(utf8, rest))
  {
    var s := WriteString8(utf8) + rest;
    assert s == WriteShort(|utf8|) + (utf8 + rest);
    ShortRoundTrip(|utf8|, utf8 + rest);
    assert (utf8 + rest)[..|utf8|] == utf8;
    assert (utf8 + rest)[|utf8|..] == rest;
  }

  /** The longest prefix of bs that does not end in a zero byte. */
  function TrimZeros(bs: Bytes): (r: Bytes)
    ensures |r| <= |bs| && r == bs[..|r|]
    ensures |r| > 0 ==> r[|r| - 1] != 0
    ensures forall i :: |r| <= i < |bs| ==> bs[i] == 0
  {
    if |bs| > 0 && bs[|bs| - 1] == 0 then TrimZeros(bs[..|bs| - 1]) else bs
  }

  function Zeros(n: nat): (r: Bytes)
    ensures |r| == n && forall i :: 0 <= i < n ==> r[i] == 0
  {
    seq(n, _ => 0)
  }

  /** `WriteString`, over the UTF-8 bytes of the string: a 64-byte field holding
      the first 64 bytes, padded with zeros. */
  function WriteString(utf8: Bytes): (r: Bytes)
    ensures |r| == 64
    ensures forall i :: 0 <= i < Min(|utf8|, 64) ==> r[i] == utf8[i]
    ensures forall i :: Min(|utf8|, 64) <= i < 64 ==> r[i] == 0
  {
    var m := Min(|utf8|, 64);
    utf8[..m] + Zeros(64 - m)
  }

  /** `ReadString`: up to 64 bytes with the trailing zero bytes removed. It
      never throws. */
  function ReadString(s: Bytes): (r: Option<Parsed<Bytes>>)
    ensures r.Some?
  {
    var k := Min(64, |s|);
    Some(Parsed(TrimZeros(s[..k]), s[k..]))
  }

  /** Reading the field back gives the first 64 bytes less trailing zeros, and
      exactly the input when it fits and does not end in a zero byte. */
  lemma StringRoundTrip(utf8: Bytes, rest: Bytes)
    ensures ReadString(WriteString(utf8) + rest)
            == Some(Parsed(TrimZeros(utf8[..Min(|utf8|, 64)]), rest))
    ensures |utf8| <= 64 && (|utf8| == 0 || utf8[|utf8| - 1] != 0) ==>
            ReadString(WriteString(utf8) + rest) == Some(Parsed(utf8, rest))
  {
    var m := Min(|utf8|, 64);
    var f := WriteString(utf8);
    assert (f + rest)[..64] == f && (f + rest)[64..] == rest;
    TrimZerosPadding(utf8[..m], 64 - m);
    assert f == utf8[..m] + Zeros(64 - m);
    if |utf8| <= 64 && (|utf8| == 0 || utf8[|utf8| - 1] != 0) {
      assert utf8[..m] == utf8;
    }
  }

  lemma {:induction false} TrimZerosPadding(bs: Bytes, n: nat)
    ensures TrimZeros(bs + Zeros(n)) == TrimZeros(bs)
  {
    if n > 0 {
      var s := bs + Zeros(n);
      assert s[..|s| - 1] == bs + Zeros(n - 1);
      TrimZerosPadding(bs, n - 1);
    } else {
      assert bs + Zeros(0) == bs;
    }
  }

  // ---------------------------------------------------------------------------
  // Native BinaryWriter/BinaryReader encodings (little-endian)
  // ---------------------------------------------------------------------------

  /** `BinaryWriter.Write(double)`: the bit pattern, least significant byte
      first, the reverse of `WriteDouble`. */
  function WriteNativeDouble(d: Bits64): (r: Bytes)
    ensures |r| == 8 && r == Reverse(WriteDouble(d))
  {
    Pow256Widths();
    ToLittleEndian(d, 8)
  }

  function WriteNativeFloat(f: Bits32): (r: Bytes)
    ensures |r| == 4 && r == Reverse(WriteFloat(f))
  {
    ToLittleEndian(f, 4)
  }

  function ReadNativeDouble(s: Bytes): (r: Option<Parsed<Bits64>>)
    ensures r.Some? <==> |s| >= 8
    ensures r.Some? ==> r.value.rest == s[8..]
  {
    Pow256Widths();
    if |s| < 8 then None else Some(Parsed(FromLittleEndian(s[..8]), s[8..]))
  }

  function ReadNativeFloat(s: Bytes): (r: Option<Parsed<Bits32>>)
    ensures r.Some? <==> |s| >= 4
    ensures r.Some? ==> r.value.rest == s[4..]
  {
    Pow256Widths();
    if |s| < 4 then None else Some(Parsed(FromLittleEndian(s[..4]), s[4..]))
  }

  lemma NativeDoubleRoundTrip(d: Bits64, rest: Bytes)
    ensures ReadNativeDouble(WriteNativeDouble(d) + rest) == Some(Parsed(d, rest))
  {
    Pow256Widths();
    var s := WriteNativeDouble(d) + rest;
    assert s[..8] == ToLittleEndian(d, 8) && s[8..] == rest;
    FromToLittleEndian(d, 8);
  }

  lemma NativeFloatRoundTrip(f: Bits32, rest: Bytes)
    ensures ReadNativeFloat(WriteNativeFloat(f) + rest) == Some(Parsed(f, rest))
  {
    Pow256Widths();
    var s := WriteNativeFloat(f) + rest;
    assert s[..4] == ToLittleEndian(f, 4) && s[4..] == rest;
    FromToLittleEndian(f, 4);
  }
}
