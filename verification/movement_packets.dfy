/** The player movement packets: on-ground flag, position, look, position and
    look (in two class variants), and the held-item change. */
module MovementPackets {
  import opened Binary
  import opened Wire
  import Ieee

  // ---------------------------------------------------------------------------
  // PlayerFlyingPacket (type PLAYER)
  // ---------------------------------------------------------------------------

  datatype PlayerFlyingPacket = PlayerFlyingPacket(onGround: bool)

  /** `Write` uses the native `BinaryWriter.Write(bool)`, which emits the same
      0x01 or 0x00 as `WriteBool`. */
  function WritePlayerFlying(p: PlayerFlyingPacket): (r: Bytes)
    ensures |r| == 2 && TypeOfTag(r[0]) == Some(PacketType.Player)
  {
    WriteHeader(PacketType.Player) + WriteBool(p.onGround)
  }

  function ReadPlayerFlying(s: Bytes): (r: Option<Parsed<PlayerFlyingPacket>>)
    ensures r.Some? <==> |s| >= 1
    ensures r.Some? ==> (r.value.value.onGround <==> s[0] == 0x01) && r.value.rest == s[1..]
  {
    var g :- ReadBool(s);
    Some(Parsed(PlayerFlyingPacket(g.value), g.rest))
  }

  lemma PlayerFlyingRoundTrip(p: PlayerFlyingPacket, rest: Bytes)
    ensures ReadPlayerFlying(WritePlayerFlying(p)[1..] + rest) == Some(Parsed(p, rest))
  {
    assert WritePlayerFlying(p)[1..] + rest == WriteBool(p.onGround) + rest;
    BoolRoundTrip(p.onGround, rest);
  }

  // ---------------------------------------------------------------------------
  // PlayerPositionPacket
  // ---------------------------------------------------------------------------

  /** The constructor takes (x, y, stance, z, onGround), the field order. */
  datatype PlayerPositionPacket =
    PlayerPositionPacket(x: Bits64, y: Bits64, stance: Bits64, z: Bits64, onGround: bool)

  /** The tag, X, Y, stance, Z and the ground flag; see `PlayerPositionLayout` and `PlayerPositionRoundTrip`. */
  function WritePlayerPosition(p: PlayerPositionPacket): (r: Bytes)
    ensures |r| == 34 && TypeOfTag(r[0]) == Some(PacketType.PlayerPosition)
  {
    WriteHeader(PacketType.PlayerPosition) + WriteDouble(p.x) + WriteDouble(p.y)
      + WriteDouble(p.stance) + WriteDouble(p.z) + WriteBool(p.onGround)
  }

  /** No finiteness check: any 33 bytes are accepted. */
  function ReadPlayerPosition(s: Bytes): (r: Option<Parsed<PlayerPositionPacket>>)
    ensures r.Some? <==> |s| >= 33
    ensures r.Some? ==> r.value.rest == s[33..]
  {
    var x :- ReadDouble(s);
    var y :- ReadDouble(x.rest);
    var stance :- ReadDouble(y.rest);
    var z :- ReadDouble(stance.rest);
    var g :- ReadBool(z.rest);
    Some(Parsed(PlayerPositionPacket(x.value, y.value, stance.value, z.value, g.value), g.rest))
  }

  /** After the tag: x, y, stance, z, then the flag. */
  lemma PlayerPositionLayout(p: PlayerPositionPacket, rest: Bytes)
    ensures WritePlayerPosition(p)[1..] + rest
            == WriteDouble(p.x) + (WriteDouble(p.y) + (WriteDouble(p.stance) + (WriteDouble(p.z)
               + (WriteBool(p.onGround) + rest))))
  {
  }

  lemma PlayerPositionRoundTrip(p: PlayerPositionPacket, rest: Bytes)
    ensures ReadPlayerPosition(WritePlayerPosition(p)[1..] + rest) == Some(Parsed(p, rest))
  {
    var t3 := WriteBool(p.onGround) + rest;
    var t2 := WriteDouble(p.z) + t3;
    var t1 := WriteDouble(p.stance) + t2;
    var t0 := WriteDouble(p.y) + t1;
    PlayerPositionLayout(p, rest);
    DoubleRoundTrip(p.x, t0);
    DoubleRoundTrip(p.y, t1);
    DoubleRoundTrip(p.stance, t2);
    DoubleRoundTrip(p.z, t3);
    BoolRoundTrip(p.onGround, rest);
  }

  // ---------------------------------------------------------------------------
  // PlayerLookPacket and HoldingChangePacket: read-only classes
  // ---------------------------------------------------------------------------

  datatype PlayerLookPacket = PlayerLookPacket(yaw: Bits32, pitch: Bits32, onGround: bool)

  /** No `Write` override: the base method writes the tag and no field. */
  function WritePlayerLook(p: PlayerLookPacket): (r: Bytes)
    ensures r == WriteHeader(PacketType.PlayerLook)
  {
    WriteHeader(PacketType.PlayerLook)
  }

  function ReadPlayerLook(s: Bytes): (r: Option<Parsed<PlayerLookPacket>>)
    ensures r.Some? <==> |s| >= 9
    ensures r.Some? ==> r.value.rest == s[9..] && (r.value.value.onGround <==> s[8] == 0x01)
    ensures r.Some? ==> WriteFloat(r.value.value.yaw) == s[..4]
    ensures r.Some? ==> WriteFloat(r.value.value.pitch) == s[4..8]
  {
    var yaw :- ReadFloat(s);
    var pitch :- ReadFloat(yaw.rest);
    var g :- ReadBool(pitch.rest);
    FloatReadWrite(s);
    FloatReadWrite(yaw.rest);
    Some(Parsed(PlayerLookPacket(yaw.value, pitch.value, g.value), g.rest))
  }

  datatype HoldingChangePacket = HoldingChangePacket(slotId: Int16)

  /** No `Write` override: the base method writes the tag and no field. */
  function WriteHoldingChange(p: HoldingChangePacket): (r: Bytes)
    ensures r == WriteHeader(PacketType.HoldingChange)
  {
    WriteHeader(PacketType.HoldingChange)
  }

  function ReadHoldingChange(s: Bytes): (r: Option<Parsed<HoldingChangePacket>>)
    ensures r.Some? <==> |s| >= 2
    ensures r.Some? ==> r.value.rest == s[2..] && WriteShort(r.value.value.slotId) == s[..2]
  {
    var slot :- ReadShort(s);
    ShortReadWrite(s);
    Some(Parsed(HoldingChangePacket(slot.value), slot.rest))
  }

  // ---------------------------------------------------------------------------
  // PlayerPositionAndLookPacket: one datatype, two class variants
  // ---------------------------------------------------------------------------

  datatype PositionAndLookPacket = PositionAndLookPacket(
    x: Bits64, y: Bits64, stance: Bits64, z: Bits64,
    yaw: Bits32, pitch: Bits32, onGround: bool)

  /** The constructor of the variant in packets/ takes the stance before Y. */
  function NewPositionAndLook(x: Bits64, stance: Bits64, y: Bits64, z: Bits64,
                              yaw: Bits32, pitch: Bits32, onGround: bool): (p: PositionAndLookPacket)
    ensures p.x == x && p.y == y && p.stance == stance && p.z == z
    ensures p.yaw == yaw && p.pitch == pitch && p.onGround == onGround
  {
    PositionAndLookPacket(x, y, stance, z, yaw, pitch, onGround)
  }

  /** The constructor of the top-level variant takes Y before the stance. */
  function NewPositionAndLookRoot(x: Bits64, y: Bits64, stance: Bits64, z: Bits64,
                                  yaw: Bits32, pitch: Bits32, onGround: bool): (p: PositionAndLookPacket)
    ensures p.x == x && p.y == y && p.stance == stance && p.z == z
    ensures p.yaw == yaw && p.pitch == pitch && p.onGround == onGround
  {
    PositionAndLookPacket(x, y, stance, z, yaw, pitch, onGround)
  }

  /** The variant in packets/ writes X, Stance, Y, Z, big-endian. */
  function WritePositionAndLook(p: PositionAndLookPacket): (r: Bytes)
    ensures |r| == 42 && TypeOfTag(r[0]) == Some(PacketType.PlayerPositionLook)
  {
    WriteHeader(PacketType.PlayerPositionLook)
      + WriteDouble(p.x) + WriteDouble(p.stance) + WriteDouble(p.y) + WriteDouble(p.z)
      + WriteFloat(p.yaw) + WriteFloat(p.pitch) + WriteBool(p.onGround)
  }

  /** Any of X, Y, Z, stance NaN or infinite. */
  predicate HasNonFinite(x: Bits64, y: Bits64, stance: Bits64, z: Bits64) {
    Ieee.IsNonFinite(x) || Ieee.IsNonFinite(y) || Ieee.IsNonFinite(z) || Ieee.IsNonFinite(stance)
  }

  /** The variant in packets/ reads X, Y, Stance, Z, and then throws
      `InvalidDataException` if any of the four is NaN or infinite. */
  function ReadPositionAndLook(s: Bytes): (r: Option<Parsed<PositionAndLookPacket>>)
    ensures r.Some? ==> |s| >= 41 && r.value.rest == s[41..]
    ensures r.Some? ==> !HasNonFinite(r.value.value.x, r.value.value.y, r.value.value.stance, r.value.value.z)
  {
    var x :- ReadDouble(s);
    var y :- ReadDouble(x.rest);
    var stance :- ReadDouble(y.rest);
    var z :- ReadDouble(stance.rest);
    var yaw :- ReadFloat(z.rest);
    var pitch :- ReadFloat(yaw.rest);
    var g :- ReadBool(pitch.rest);
    if HasNonFinite(x.value, y.value, stance.value, z.value) then None
    else Some(Parsed(PositionAndLookPacket(x.value, y.value, stance.value, z.value,
                                           yaw.value, pitch.value, g.value), g.rest))
  }

  /** Reading back what was written swaps Y and the stance, keeps every other
      field, and fails exactly when one of the four doubles is not finite. */
  lemma PositionAndLookRoundTrip(p: PositionAndLookPacket, rest: Bytes)
    ensures ReadPositionAndLook(WritePositionAndLook(p)[1..] + rest)
            == if HasNonFinite(p.x, p.y, p.stance, p.z) then None
               else Some(Parsed(p.(y := p.stance, stance := p.y), rest))
  {
    var t5 := WriteBool(p.onGround) + rest;
    var t4 := WriteFloat(p.pitch) + t5;
    var t3 := WriteFloat(p.yaw) + t4;
    var t2 := WriteDouble(p.z) + t3;
    var t1 := WriteDouble(p.y) + t2;
    var t0 := WriteDouble(p.stance) + t1;
    PositionAndLookLayout(p, rest);
    DoubleRoundTrip(p.x, t0);
    DoubleRoundTrip(p.stance, t1);
    DoubleRoundTrip(p.y, t2);
    DoubleRoundTrip(p.z, t3);
    FloatRoundTrip(p.yaw, t4);
    FloatRoundTrip(p.pitch, t5);
    BoolRoundTrip(p.onGround, rest);
  }

  /** After the tag: x, stance, y, z, yaw, pitch, then the flag. */
  lemma PositionAndLookLayout(p: PositionAndLookPacket, rest: Bytes)
    ensures WritePositionAndLook(p)[1..] + rest
            == WriteDouble(p.x) + (WriteDouble(p.stance) + (WriteDouble(p.y) + (WriteDouble(p.z)
               + (WriteFloat(p.yaw) + (WriteFloat(p.pitch) + (WriteBool(p.onGround) + rest))))))
  {
  }

  /** Through the constructor of the variant in packets/, the four doubles go
      on the wire in argument order: x, stance, y, z. */
  lemma PositionAndLookArgumentOrder(x: Bits64, stance: Bits64, y: Bits64, z: Bits64,
                                     yaw: Bits32, pitch: Bits32, g: bool)
    ensures WritePositionAndLook(NewPositionAndLook(x, stance, y, z, yaw, pitch, g))[1..33]
            == WriteDouble(x) + WriteDouble(stance) + WriteDouble(y) + WriteDouble(z)
  {
    var p := NewPositionAndLook(x, stance, y, z, yaw, pitch, g);
    var d := WriteDouble(x) + WriteDouble(stance) + WriteDouble(y) + WriteDouble(z);
    var t := WriteFloat(yaw) + WriteFloat(pitch) + WriteBool(g);
    assert WritePositionAndLook(p) == WriteHeader(PacketType.PlayerPositionLook) + d + t;
  }

  /** The top-level variant writes and reads X, Stance, Y, Z with the native
      little-endian encodings, and `ReadBoolean`, for which any nonzero byte
      is true. */
  function WritePositionAndLookRoot(p: PositionAndLookPacket): (r: Bytes)
    ensures |r| == 42 && TypeOfTag(r[0]) == Some(PacketType.PlayerPositionLook)
  {
    WriteHeader(PacketType.PlayerPositionLook)
      + WriteNativeDouble(p.x) + WriteNativeDouble(p.stance)
      + WriteNativeDouble(p.y) + WriteNativeDouble(p.z)
      + WriteNativeFloat(p.yaw) + WriteNativeFloat(p.pitch) + WriteBool(p.onGround)
  }

  function ReadPositionAndLookRoot(s: Bytes): (r: Option<Parsed<PositionAndLookPacket>>)
    ensures r.Some? <==> |s| >= 41
    ensures r.Some? ==> r.value.rest == s[41..]
  {
    var x :- ReadNativeDouble(s);
    var stance :- ReadNativeDouble(x.rest);
    var y :- ReadNativeDouble(stance.rest);
    var z :- ReadNativeDouble(y.rest);
    var yaw :- ReadNativeFloat(z.rest);
    var pitch :- ReadNativeFloat(yaw.rest);
    var g :- ReadNativeBool(pitch.rest);
    Some(Parsed(PositionAndLookPacket(x.value, y.value, stance.value, z.value,
                                      yaw.value, pitch.value, g.value), g.rest))
  }

  /** The top-level variant reads in the order it writes, so the trip is the
      identity, non-finite values included. */
  lemma PositionAndLookRootRoundTrip(p: PositionAndLookPacket, rest: Bytes)
    ensures ReadPositionAndLookRoot(WritePositionAndLookRoot(p)[1..] + rest) == Some(Parsed(p, rest))
  {
    var t5 := WriteBool(p.onGround) + rest;
    var t4 := WriteNativeFloat(p.pitch) + t5;
    var t3 := WriteNativeFloat(p.yaw) + t4;
    var t2 := WriteNativeDouble(p.z) + t3;
    var t1 := WriteNativeDouble(p.y) + t2;
    var t0 := WriteNativeDouble(p.stance) + t1;
    PositionAndLookRootLayout(p, rest);
    NativeDoubleRoundTrip(p.x, t0);
    NativeDoubleRoundTrip(p.stance, t1);
    NativeDoubleRoundTrip(p.y, t2);
    NativeDoubleRoundTrip(p.z, t3);
    NativeFloatRoundTrip(p.yaw, t4);
    NativeFloatRoundTrip(p.pitch, t5);
    BoolRoundTrip(p.onGround, rest);
  }

  /** After the tag, in native encodings: x, stance, y, z, yaw, pitch, flag. */
  lemma PositionAndLookRootLayout(p: PositionAndLookPacket, rest: Bytes)
    ensures WritePositionAndLookRoot(p)[1..] + rest
            == WriteNativeDouble(p.x) + (WriteNativeDouble(p.stance) + (WriteNativeDouble(p.y)
               + (WriteNativeDouble(p.z) + (WriteNativeFloat(p.yaw) + (WriteNativeFloat(p.pitch)
               + (WriteBool(p.onGround) + rest))))))
  {
  }

  /** Through the top-level constructor, (x, y, stance, z) goes on the wire as
      x, stance, y, z, each byte-reversed with respect to the packets/
      variant. */
  lemma PositionAndLookRootArgumentOrder(x: Bits64, y: Bits64, stance: Bits64, z: Bits64,
                                         yaw: Bits32, pitch: Bits32, g: bool)
    ensures WritePositionAndLookRoot(NewPositionAndLookRoot(x, y, stance, z, yaw, pitch, g))[1..33]
            == Reverse(WriteDouble(x)) + Reverse(WriteDouble(stance))
               + Reverse(WriteDouble(y)) + Reverse(WriteDouble(z))
  {
    var p := NewPositionAndLookRoot(x, y, stance, z, yaw, pitch, g);
    var d := WriteNativeDouble(x) + WriteNativeDouble(stance) + WriteNativeDouble(y) + WriteNativeDouble(z);
    var t := WriteNativeFloat(yaw) + WriteNativeFloat(pitch) + WriteBool(g);
    assert WritePositionAndLookRoot(p) == WriteHeader(PacketType.PlayerPositionLook) + d + t;
  }
}
