/** The entity packets: spawning a named player, relative moves, looks,
    teleports and destruction. Each class reads its fields in the order it
    writes them. */
module EntityPackets {
  import opened Binary
  import opened Wire

  // ---------------------------------------------------------------------------
  // NamedEntitySpawnPacket
  // ---------------------------------------------------------------------------

  datatype NamedEntitySpawnPacket = NamedEntitySpawnPacket(
    entityId: Int32, playerName: Text, x: Int32, y: Int32, z: Int32,
    yaw: byte, pitch: byte, currentItem: Int16)

  /** The tag, then the fields in `Write` order; see `NamedEntitySpawnLayout` and `NamedEntitySpawnRoundTrip`. */
  function WriteNamedEntitySpawn(p: NamedEntitySpawnPacket): (r: Bytes)
    ensures |r| == 23 + 2 * |p.playerName|
    ensures TypeOfTag(r[0]) == Some(PacketType.NamedEntitySpawn)
  {
    WriteHeader(PacketType.NamedEntitySpawn) + WriteInt(p.entityId) + WriteString16(p.playerName)
      + WriteInt(p.x) + WriteInt(p.y) + WriteInt(p.z)
      + WriteByte(p.yaw) + WriteByte(p.pitch) + WriteShort(p.currentItem)
  }

  /** The read succeeds exactly when the id, a non-negative name count n,
      the n code units of the name and the 16 bytes of fixed fields after it
      are all there; it consumes 22 + 2n bytes. */
  function ReadNamedEntitySpawn(s: Bytes): (r: Option<Parsed<NamedEntitySpawnPacket>>)
    ensures r.Some? <==> |s| >= 6 && ReadShort(s[4..]).value.value >= 0
                         && |s| >= 22 + 2 * ReadShort(s[4..]).value.value
    ensures r.Some? ==> |r.value.value.playerName| == ReadShort(s[4..]).value.value
                        && r.value.rest == s[22 + 2 * ReadShort(s[4..]).value.value..]
  {
    var id :- ReadInt(s);
    var name :- ReadString16(s[4..]);
    ReadSpawnFields(id.value, name.value, name.rest)
  }

  /** The 16 bytes of fixed fields after the name: x, y, z, yaw, pitch, item. */
  function ReadSpawnFields(entityId: Int32, playerName: Text, s: Bytes)
    : (r: Option<Parsed<NamedEntitySpawnPacket>>)
    ensures r.Some? <==> |s| >= 16
    ensures r.Some? ==> r.value.value.entityId == entityId && r.value.value.playerName == playerName
    ensures r.Some? ==> r.value.rest == s[16..]
  {
    var x :- ReadInt(s);
    var y :- ReadInt(x.rest);
    var z :- ReadInt(y.rest);
    var yaw :- ReadByte(z.rest);
    var pitch :- ReadByte(yaw.rest);
    var item :- ReadShort(pitch.rest);
    Some(Parsed(NamedEntitySpawnPacket(entityId, playerName, x.value, y.value, z.value,
                                       yaw.value, pitch.value, item.value), item.rest))
  }

  /** After the tag: id, name, x, y, z, yaw, pitch, item. */
  lemma NamedEntitySpawnLayout(p: NamedEntitySpawnPacket, rest: Bytes)
    ensures WriteNamedEntitySpawn(p)[1..] + rest
            == WriteInt(p.entityId) + (WriteString16(p.playerName) + (WriteInt(p.x) + (WriteInt(p.y)
               + (WriteInt(p.z) + ([p.yaw] + ([p.pitch] + (WriteShort(p.currentItem) + rest)))))))
  {
  }

  /** Names shorter than 2^15 code units make the trip unchanged, and the
      coordinates and rotation bytes are carried verbatim. */
  lemma NamedEntitySpawnRoundTrip(p: NamedEntitySpawnPacket, rest: Bytes)
    requires |p.playerName| < 0x8000
    ensures ReadNamedEntitySpawn(WriteNamedEntitySpawn(p)[1..] + rest) == Some(Parsed(p, rest))
  {
    var t6 := WriteShort(p.currentItem) + rest;
    var t5 := [p.pitch] + t6;
    var t4 := [p.yaw] + t5;
    var t3 := WriteInt(p.z) + t4;
    var t2 := WriteInt(p.y) + t3;
    var t1 := WriteInt(p.x) + t2;
    var t0 := WriteString16(p.playerName) + t1;
    NamedEntitySpawnLayout(p, rest);
    IntRoundTrip(p.entityId, t0);
    String16RoundTrip(p.playerName, t1);
    IntRoundTrip(p.x, t2);
    IntRoundTrip(p.y, t3);
    IntRoundTrip(p.z, t4);
    ShortRoundTrip(p.currentItem, rest);
  }

  // ---------------------------------------------------------------------------
  // EntityRelativeMovePacket
  // ---------------------------------------------------------------------------

  datatype EntityRelativeMovePacket =
    EntityRelativeMovePacket(entityId: Int32, deltaX: Int8, deltaY: Int8, deltaZ: Int8)

  /** The tag, the id and three signed deltas; `EntityRelativeMoveRoundTrip` reads them back. */
  function WriteEntityRelativeMove(p: EntityRelativeMovePacket): (r: Bytes)
    ensures |r| == 8 && TypeOfTag(r[0]) == Some(PacketType.EntityMove)
  {
    WriteHeader(PacketType.EntityMove) + WriteInt(p.entityId)
      + WriteSByte(p.deltaX) + WriteSByte(p.deltaY) + WriteSByte(p.deltaZ)
  }

  function ReadEntityRelativeMove(s: Bytes): (r: Option<Parsed<EntityRelativeMovePacket>>)
    ensures r.Some? <==> |s| >= 7
    ensures r.Some? ==> r.value.rest == s[7..]
  {
    var id :- ReadInt(s);
    var dx :- ReadSByte(id.rest);
    var dy :- ReadSByte(dx.rest);
    var dz :- ReadSByte(dy.rest);
    Some(Parsed(EntityRelativeMovePacket(id.value, dx.value, dy.value, dz.value), dz.rest))
  }

  /** Every delta in [-128, 127] survives the trip through a two's-complement
      byte. */
  lemma EntityRelativeMoveRoundTrip(p: EntityRelativeMovePacket, rest: Bytes)
    ensures ReadEntityRelativeMove(WriteEntityRelativeMove(p)[1..] + rest) == Some(Parsed(p, rest))
  {
    var t2 := WriteSByte(p.deltaZ) + rest;
    var t1 := WriteSByte(p.deltaY) + t2;
    var t0 := WriteSByte(p.deltaX) + t1;
    assert WriteEntityRelativeMove(p)[1..] + rest == WriteInt(p.entityId) + t0;
    IntRoundTrip(p.entityId, t0);
    SByteRoundTrip(p.deltaX, t1);
    SByteRoundTrip(p.deltaY, t2);
    SByteRoundTrip(p.deltaZ, rest);
  }

  // ---------------------------------------------------------------------------
  // EntityLookPacket
  // ---------------------------------------------------------------------------

  datatype EntityLookPacket = EntityLookPacket(entityId: Int32, yaw: byte, pitch: byte)

  /** The tag, the id, yaw and pitch; `EntityLookRoundTrip` reads them back. */
  function WriteEntityLook(p: EntityLookPacket): (r: Bytes)
    ensures |r| == 7 && TypeOfTag(r[0]) == Some(PacketType.EntityLook)
  {
    WriteHeader(PacketType.EntityLook) + WriteInt(p.entityId) + WriteByte(p.yaw) + WriteByte(p.pitch)
  }

  function ReadEntityLook(s: Bytes): (r: Option<Parsed<EntityLookPacket>>)
    ensures r.Some? <==> |s| >= 6
    ensures r.Some? ==> r.value.rest == s[6..]
  {
    var id :- ReadInt(s);
    var yaw :- ReadByte(id.rest);
    var pitch :- ReadByte(yaw.rest);
    Some(Parsed(EntityLookPacket(id.value, yaw.value, pitch.value), pitch.rest))
  }

  lemma EntityLookRoundTrip(p: EntityLookPacket, rest: Bytes)
    ensures ReadEntityLook(WriteEntityLook(p)[1..] + rest) == Some(Parsed(p, rest))
  {
    var t0 := [p.yaw] + ([p.pitch] + rest);
    assert WriteEntityLook(p)[1..] + rest == WriteInt(p.entityId) + t0;
    IntRoundTrip(p.entityId, t0);
  }

  // ---------------------------------------------------------------------------
  // EntityLookAndRelativeMovePacket
  // ---------------------------------------------------------------------------

  datatype EntityLookAndRelativeMovePacket = EntityLookAndRelativeMovePacket(
    entityId: Int32, deltaX: Int8, deltaY: Int8, deltaZ: Int8, yaw: byte, pitch: byte)

  /** The tag, the id, three deltas, yaw and pitch; `EntityLookAndRelativeMoveRoundTrip` reads them back. */
  function WriteEntityLookAndRelativeMove(p: EntityLookAndRelativeMovePacket): (r: Bytes)
    ensures |r| == 10 && TypeOfTag(r[0]) == Some(PacketType.EntityLookRelativeMove)
  {
    WriteHeader(PacketType.EntityLookRelativeMove) + WriteInt(p.entityId)
      + WriteSByte(p.deltaX) + WriteSByte(p.deltaY) + WriteSByte(p.deltaZ)
      + WriteByte(p.yaw) + WriteByte(p.pitch)
  }

  function ReadEntityLookAndRelativeMove(s: Bytes): (r: Option<Parsed<EntityLookAndRelativeMovePacket>>)
    ensures r.Some? <==> |s| >= 9
    ensures r.Some? ==> r.value.rest == s[9..]
  {
    var id :- ReadInt(s);
    var dx :- ReadSByte(id.rest);
    var dy :- ReadSByte(dx.rest);
    var dz :- ReadSByte(dy.rest);
    var yaw :- ReadByte(dz.rest);
    var pitch :- ReadByte(yaw.rest);
    Some(Parsed(EntityLookAndRelativeMovePacket(id.value, dx.value, dy.value, dz.value,
                                                yaw.value, pitch.value), pitch.rest))
  }

  lemma EntityLookAndRelativeMoveRoundTrip(p: EntityLookAndRelativeMovePacket, rest: Bytes)
    ensures ReadEntityLookAndRelativeMove(WriteEntityLookAndRelativeMove(p)[1..] + rest)
            == Some(Parsed(p, rest))
  {
    var t3 := [p.yaw] + ([p.pitch] + rest);
    var t2 := WriteSByte(p.deltaZ) + t3;
    var t1 := WriteSByte(p.deltaY) + t2;
    var t0 := WriteSByte(p.deltaX) + t1;
    assert WriteEntityLookAndRelativeMove(p)[1..] + rest == WriteInt(p.entityId) + t0;
    IntRoundTrip(p.entityId, t0);
    SByteRoundTrip(p.deltaX, t1);
    SByteRoundTrip(p.deltaY, t2);
    SByteRoundTrip(p.deltaZ, t3);
  }

  // ---------------------------------------------------------------------------
  // EntityTeleportPacket
  // ---------------------------------------------------------------------------

  datatype EntityTeleportPacket =
    EntityTeleportPacket(entityId: Int32, x: Int32, y: Int32, z: Int32, yaw: byte, pitch: byte)

  /** The tag, the id, three absolute coordinates, yaw and pitch; `EntityTeleportRoundTrip` reads them back. */
  function WriteEntityTeleport(p: EntityTeleportPacket): (r: Bytes)
    ensures |r| == 19 && TypeOfTag(r[0]) == Some(PacketType.EntityTeleport)
  {
    WriteHeader(PacketType.EntityTeleport) + WriteInt(p.entityId)
      + WriteInt(p.x) + WriteInt(p.y) + WriteInt(p.z) + WriteByte(p.yaw) + WriteByte(p.pitch)
  }

  function ReadEntityTeleport(s: Bytes): (r: Option<Parsed<EntityTeleportPacket>>)
    ensures r.Some? <==> |s| >= 18
    ensures r.Some? ==> r.value.rest == s[18..]
  {
    var id :- ReadInt(s);
    var x :- ReadInt(id.rest);
    var y :- ReadInt(x.rest);
    var z :- ReadInt(y.rest);
    var yaw :- ReadByte(z.rest);
    var pitch :- ReadByte(yaw.rest);
    Some(Parsed(EntityTeleportPacket(id.value, x.value, y.value, z.value, yaw.value, pitch.value),
                pitch.rest))
  }

  lemma EntityTeleportRoundTrip(p: EntityTeleportPacket, rest: Bytes)
    ensures ReadEntityTeleport(WriteEntityTeleport(p)[1..] + rest) == Some(Parsed(p, rest))
  {
    var t3 := [p.yaw] + ([p.pitch] + rest);
    var t2 := WriteInt(p.z) + t3;
    var t1 := WriteInt(p.y) + t2;
    var t0 := WriteInt(p.x) + t1;
    assert WriteEntityTeleport(p)[1..] + rest == WriteInt(p.entityId) + t0;
    IntRoundTrip(p.entityId, t0);
    IntRoundTrip(p.x, t1);
    IntRoundTrip(p.y, t2);
    IntRoundTrip(p.z, t3);
  }

  // ---------------------------------------------------------------------------
  // DestroyEntityPacket
  // ---------------------------------------------------------------------------

  datatype DestroyEntityPacket = DestroyEntityPacket(entityId: Int32)

  /** The tag is that of `DESTORY_ENTITY`, 0x1D. */
  function WriteDestroyEntity(p: DestroyEntityPacket): (r: Bytes)
    ensures |r| == 5 && r[0] == 0x1D && TypeOfTag(r[0]) == Some(PacketType.DestroyEntity)
  {
    WriteHeader(PacketType.DestroyEntity) + WriteInt(p.entityId)
  }

  function ReadDestroyEntity(s: Bytes): (r: Option<Parsed<DestroyEntityPacket>>)
    ensures r.Some? <==> |s| >= 4
    ensures r.Some? ==> r.value.rest == s[4..]
  {
    var id :- ReadInt(s);
    Some(Parsed(DestroyEntityPacket(id.value), id.rest))
  }

  lemma DestroyEntityRoundTrip(p: DestroyEntityPacket, rest: Bytes)
    ensures ReadDestroyEntity(WriteDestroyEntity(p)[1..] + rest) == Some(Parsed(p, rest))
  {
    assert WriteDestroyEntity(p)[1..] + rest == WriteInt(p.entityId) + rest;
    IntRoundTrip(p.entityId, rest);
  }
}
