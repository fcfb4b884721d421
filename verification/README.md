# A Minecraft Beta 1.7.3 server core, modelled in Dafny

This project models the core of a small C# server for the Minecraft Beta 1.7.3
protocol (protocol version 14). The core has four parts:

- **Wire codec.** The big-endian readers and writers of the `Packet` base class,
  and the `Read`/`Write` pair of every packet the server speaks.
- **Session.** The per-connection `ClientHandler`:
  - handshake and login;
  - the movement checks of `ValidatePosition`;
  - chat;
  - the read loop, its packet factory, and the keep-alive timeout.
- **World.** The block store:
  - chunk subscriptions in a view square around each player;
  - loading and generating chunk data;
  - `SetBlock`/`GetBlock` over the 81920-byte chunk layout;
  - block-change notification;
  - the sweep that unloads idle chunks;
  - player removal.
- **Chunk table and generator.** The `ChunkManager` table of spawn chunks, and
  the flat-terrain generator `ChunkGenerator.GenerateFlatChunk`.

The model is functional. Packets are immutable datatypes. Byte streams are
`seq<int>` values in [0, 256), carried as `Binary.Bytes`. Every handler is a
pure step function: it takes the session and returns the new session together
with the ordered list of messages it sends (`Outbound.Message`). Every reader
returns `Option`: `None` stands for the exceptions the source throws, such as
end of stream, an unknown packet type, a `Read` that throws, or a non-finite
coordinate.

Modules, in dependency order:

| module | file | models |
|---|---|---|
| `Binary` | binary.dfy | byte sequences; big- and little-endian naturals; two's complement; 8/16/32-bit wrap-around; bitwise `&` and `\|` on naturals |
| `Ieee` | ieee.dfy | the value a 64-bit IEEE-754 pattern denotes (finite real or NaN/infinity) |
| `Wire` | wire.dfy | `PacketType` tags; the `Packet` helpers for byte, short, int, long, float, double, sbyte, bool, String8, String16 and the 64-byte string; the native little-endian `BinaryWriter.Write(double)`/`Write(float)` |
| `SessionPackets` | session_packets.dfy | keep-alive, login request, handshake, chat, disconnect, time update, spawn position, update health |
| `MovementPackets` | movement_packets.dfy | flying, position, look, holding change, and both position-and-look classes |
| `EntityPackets` | entity_packets.dfy | named entity spawn, relative move, look, look-and-move, teleport, destroy |
| `WorldPackets` | world_packets.dfy | block change, pre-chunk, both map-chunk classes |
| `Outbound` | outbound.dfy | the messages a handler sends and the disconnect reasons |
| `ChunkGenerator` | chunk_generator.dfy | `GenerateFlatChunk` and `Compress` |
| `ChunkManager` | chunk_manager.dfy | `ChunkManager` |
| `World` | world.dfy | `World` |
| `ClientHandler` | client_handler.dfy | `ClientHandler` |

## Model

| member | source | states |
|---|---|---|
| Wire.TypeOfTag | MinecraftServer/ClientHandler.cs:91 | a tag byte names at most one declared packet type, and the type it names has that tag |
| Wire.TagsDistinct | MinecraftServer/Packet.cs:176-179 | the type byte written by `Packet.Write` identifies the type: distinct types have distinct tags and every tag decodes back to its type |
| Wire.WriteHeader | MinecraftServer/Packet.cs:176-179 | the base `Write` emits exactly one byte, the packet's own type tag |
| Wire.ReadByte | MinecraftServer/Packet.cs:28-31 | a byte is read exactly when the stream is non-empty, and it is the stream's first byte |
| Wire.ReadFixedWritten | MinecraftServer/Packet.cs:39-87 | reading w big-endian bytes returns the number those bytes were written from, and the unread rest |
| Wire.WriteShort | MinecraftServer/Packet.cs:47-53 | two bytes, big-endian, of the 16-bit two's-complement pattern of the value |
| Wire.WriteInt | MinecraftServer/Packet.cs:64-70 | four bytes, big-endian, of the 32-bit two's-complement pattern of the value |
| Wire.WriteLong | MinecraftServer/Packet.cs:81-87 | eight bytes, big-endian, of the 64-bit two's-complement pattern of the value |
| Wire.ReadShort | MinecraftServer/Packet.cs:39-45 | succeeds exactly when two bytes remain, and consumes exactly two |
| Wire.ReadInt | MinecraftServer/Packet.cs:56-62 | succeeds exactly when four bytes remain, and consumes exactly four |
| Wire.ReadLong | MinecraftServer/Packet.cs:73-79 | succeeds exactly when eight bytes remain, and consumes exactly eight |
| Wire.ShortRoundTrip | MinecraftServer/Packet.cs:39-53 | every 16-bit value reads back as itself, whatever follows it |
| Wire.IntRoundTrip | MinecraftServer/Packet.cs:56-70 | every 32-bit value reads back as itself, whatever follows it |
| Wire.LongRoundTrip | MinecraftServer/Packet.cs:73-87 | every 64-bit value reads back as itself, whatever follows it |
| Wire.ShortReadWrite | MinecraftServer/Packet.cs:39-53 | the other direction: re-writing any two bytes read as a short reproduces them |
| Wire.IntReadWrite | MinecraftServer/Packet.cs:56-70 | re-writing any four bytes read as an int reproduces them |
| Wire.LongReadWrite | MinecraftServer/Packet.cs:73-87 | re-writing any eight bytes read as a long reproduces them |
| Wire.WriteFloat | MinecraftServer/Packet.cs:98-104 | the float's 32-bit pattern, most significant byte first |
| Wire.WriteDouble | MinecraftServer/Packet.cs:127-133 | the double's 64-bit pattern, most significant byte first |
| Wire.ReadFloat | MinecraftServer/Packet.cs:90-96 | succeeds exactly when four bytes remain, and consumes exactly four |
| Wire.ReadDouble | MinecraftServer/Packet.cs:119-125 | succeeds exactly when eight bytes remain, and consumes exactly eight |
| Wire.FloatRoundTrip | MinecraftServer/Packet.cs:90-104 | every float bit pattern reads back unchanged, NaN payloads included |
| Wire.DoubleRoundTrip | MinecraftServer/Packet.cs:119-133 | every double bit pattern reads back unchanged, NaN payloads included |
| Wire.FloatReadWrite | MinecraftServer/Packet.cs:90-104 | re-writing any four bytes read as a float reproduces them |
| Wire.DoubleReadWrite | MinecraftServer/Packet.cs:119-133 | re-writing any eight bytes read as a double reproduces them |
| Wire.WriteSByte | MinecraftServer/Packet.cs:112-115 | one byte, the 8-bit two's-complement pattern of the value |
| Wire.ReadSByte | MinecraftServer/Packet.cs:107-110 | succeeds exactly when a byte remains, and consumes one |
| Wire.SByteRoundTrip | MinecraftServer/Packet.cs:107-115 | every value in [-128, 127] reads back as itself |
| Wire.SByteReadWrite | MinecraftServer/Packet.cs:107-115 | every byte read as a signed byte is re-written as the same byte |
| Wire.WriteBool | MinecraftServer/Packet.cs:141-144 | one byte, either 0x00 or 0x01 |
| Wire.ReadBool | MinecraftServer/Packet.cs:136-139 | true exactly when the byte is 0x01; one byte consumed |
| Wire.ReadNativeBool | MinecraftServer/PlayerPositionAndLookPacket.cs:45 | `BinaryReader.ReadBoolean`: true exactly when the byte is nonzero |
| Wire.BoolRoundTrip | MinecraftServer/Packet.cs:136-144 | both boolean readers invert the boolean writer |
| Wire.BoolReadersDisagree | MinecraftServer/Packet.cs:136-139 | the two readers differ on a byte exactly when the byte is 2 or more |
| Wire.UnitsBytesRoundTrip | MinecraftServer/Packet.cs:162-174 | the big-endian UTF-16 encoding of code units decodes back to the same units |
| Wire.WriteString16 | MinecraftServer/Packet.cs:169-174 | a two-byte length prefix followed by two bytes per code unit |
| Wire.ReadString16 | MinecraftServer/Packet.cs:162-167 | fails exactly when the count is missing or negative; a count n with its 2n bytes present yields n units and leaves what follows; a truncated string takes the rest of the input |
| Wire.String16RoundTrip | MinecraftServer/Packet.cs:162-174 | a string of fewer than 2^15 code units reads back as itself, and the reader stops at its end |
| Wire.String16TooLong | MinecraftServer/Packet.cs:162-174 | a string of 2^15 to 2^16-1 units gets a negative length prefix, and reading it back fails |
| Wire.WriteString8 | MinecraftServer/Packet.cs:154-159 | a two-byte length prefix followed by the UTF-8 bytes |
| Wire.ReadString8 | MinecraftServer/Packet.cs:147-152 | fails exactly when the count is missing or negative; otherwise the next min(n, available) bytes, leaving what follows |
| Wire.String8RoundTrip | MinecraftServer/Packet.cs:147-159 | UTF-8 byte strings shorter than 2^15 read back as themselves |
| Wire.TrimZeros | MinecraftServer/Packet.cs:16 | `TrimEnd('\0')`: the longest prefix not ending in a zero, with only zeros cut |
| Wire.WriteString | MinecraftServer/Packet.cs:19-25 | always 64 bytes: the first min(n, 64) bytes of the text, then zero padding |
| Wire.ReadString | MinecraftServer/Packet.cs:13-17 | never fails |
| Wire.StringRoundTrip | MinecraftServer/Packet.cs:13-25 | reading returns the text cut to 64 bytes with trailing zeros removed, so short texts without a trailing zero round-trip exactly |
| Wire.TrimZerosPadding | MinecraftServer/Packet.cs:13-25 | trimming ignores any zero padding appended |
| Wire.WriteNativeDouble | MinecraftServer/PlayerPositionAndLookPacket.cs:28-31 | `BinaryWriter.Write(double)` emits the reversed (little-endian) bytes of the big-endian encoding |
| Wire.WriteNativeFloat | MinecraftServer/PlayerPositionAndLookPacket.cs:32-33 | `BinaryWriter.Write(float)` emits the reversed bytes of the big-endian encoding |
| Wire.NativeDoubleRoundTrip | MinecraftServer/PlayerPositionAndLookPacket.cs:28-42 | little-endian doubles read back unchanged |
| Wire.NativeFloatRoundTrip | MinecraftServer/PlayerPositionAndLookPacket.cs:32-44 | little-endian floats read back unchanged |
| Binary.FromToBigEndian | MinecraftServer/Packet.cs:39-87 | decoding the big-endian bytes of a number below 256^w returns it |
| Binary.ToFromBigEndian | MinecraftServer/Packet.cs:39-87 | encoding the value of any byte string reproduces the string |
| Binary.Wrap16 | MinecraftServer/packets/MapChunkPacket.cs:39 | the `(short)` cast: congruent modulo 2^16, and the identity on values already in range |
| Binary.Wrap32 | MinecraftServer/packets/MapChunkPacket.cs:38-40 | 32-bit `int` overflow: congruent modulo 2^32, and the identity on values in range |
| Binary.LowNibbleMask | MinecraftServer/World.cs:106 | `b & 0x0F` is the low nibble, b mod 16 |
| Binary.HighNibbleMask | MinecraftServer/World.cs:106 | `b & 0xF0` keeps exactly the high nibble |
| Binary.NibbleOr | MinecraftServer/World.cs:104-110 | or-ing a low nibble into a shifted high nibble adds them |
| Ieee.DoubleValue | MinecraftServer/ClientHandler.cs:311-319 | a double pattern is NaN or infinite exactly when its exponent field is all ones |
| Ieee.NegateBySignBit | MinecraftServer/ClientHandler.cs:311-319 | flipping the sign bit keeps finiteness and negates a finite value |
| Ieee.Zeros | MinecraftServer/ClientHandler.cs:20-22 | both zero patterns (+0.0 and -0.0) denote the finite value 0 |
| Ieee.NonFiniteByMagnitude | MinecraftServer/packets/PlayerPositionAndLookPacket.cs:50-56 | a pattern fails the `IsNaN`/`IsInfinity` test exactly when its magnitude bits are at least those of +∞, so both infinities and every NaN do |
| SessionPackets.WriteKeepAlive | MinecraftServer/ClientHandler.cs:68 | the keep-alive packet is just its tag byte |
| SessionPackets.WriteLoginRequest | MinecraftServer/LoginRequestPacket.cs:21-28 | 16 bytes with the login tag: the username field is always empty |
| SessionPackets.ReadLoginRequest | MinecraftServer/LoginRequestPacket.cs:13-19 | a read leaves the entity id alone and always yields a (non-null) username |
| SessionPackets.LoginRequestRoundTrip | MinecraftServer/LoginRequestPacket.cs:13-28 | reading what was written gives back the entity id as the protocol version and "" as the username; seed and dimension survive |
| SessionPackets.WriteHandshake | MinecraftServer/HandshakePacket.cs:17-21 | 3 + 2n bytes with the handshake tag |
| SessionPackets.ReadHandshake | MinecraftServer/HandshakePacket.cs:12-15 | fails exactly when the string's count is missing or negative, and otherwise consumes a prefix of the body |
| SessionPackets.HandshakeRoundTrip | MinecraftServer/HandshakePacket.cs:12-21 | handshakes of fewer than 2^15 units read back as themselves |
| SessionPackets.HandshakeReplyBytes | MinecraftServer/ClientHandler.cs:154 | the offline-mode reply "-" is the bytes 02 00 01 00 2D |
| SessionPackets.WriteChatMessage | MinecraftServer/packets/ChatMessagePacket.cs:21-25 | 3 + 2n bytes with the chat tag |
| SessionPackets.ReadChatMessage | MinecraftServer/packets/ChatMessagePacket.cs:16-19 | fails exactly when the string's count is missing or negative, and otherwise consumes a prefix of the body |
| SessionPackets.ChatMessageRoundTrip | MinecraftServer/packets/ChatMessagePacket.cs:5-25 | chat messages of fewer than 2^15 units read back as themselves; the default message encodes as 03 00 00 |
| SessionPackets.WriteDisconnect | MinecraftServer/packets/DisconnectPacket.cs:17-21 | 3 + 2n bytes with the disconnect tag, n the reason's length, or 0 for a null reason |
| SessionPackets.ReadDisconnect | MinecraftServer/packets/DisconnectPacket.cs:12-15 | a read reason is never null |
| SessionPackets.DisconnectRoundTrip | MinecraftServer/packets/DisconnectPacket.cs:12-21 | a non-null reason reads back as itself; a null reason is written, and read back, as the empty string |
| SessionPackets.WriteTimeUpdate | MinecraftServer/packets/TimeUpdatePacket.cs:16-20 | 9 bytes with the time tag |
| SessionPackets.ReadTimeUpdate | MinecraftServer/packets/TimeUpdatePacket.cs:22-25 | reading always fails |
| SessionPackets.TimeUpdateLayout | MinecraftServer/packets/TimeUpdatePacket.cs:16-20 | after the tag come exactly the eight bytes of the time as a long |
| SessionPackets.WriteSpawnPosition | MinecraftServer/SpawnPositionPacket.cs:26-32 | 13 bytes with the spawn-position tag |
| SessionPackets.ReadSpawnPosition | MinecraftServer/SpawnPositionPacket.cs:21-24 | reading always fails |
| SessionPackets.SpawnPositionLayout | MinecraftServer/SpawnPositionPacket.cs:26-32 | after the tag come x, y and z as ints, and nothing else |
| SessionPackets.WriteUpdateHealth | MinecraftServer/UpdateHealthPacket.cs:21-25 | 3 bytes with the health tag |
| SessionPackets.ReadUpdateHealth | MinecraftServer/UpdateHealthPacket.cs:16-19 | reading always fails |
| SessionPackets.UpdateHealthLayout | MinecraftServer/UpdateHealthPacket.cs:21-25 | after the tag comes the health as a short, and nothing else |
| MovementPackets.WritePlayerFlying | MinecraftServer/PlayerFlyingPacket.cs:18-22 | 2 bytes with the flying tag |
| MovementPackets.ReadPlayerFlying | MinecraftServer/PlayerFlyingPacket.cs:13-16 | consumes one byte; on-ground is true exactly when it is 0x01 |
| MovementPackets.PlayerFlyingRoundTrip | MinecraftServer/PlayerFlyingPacket.cs:13-22 | the on-ground flag reads back as written |
| MovementPackets.WritePlayerPosition | MinecraftServer/PlayerPositionPacket.cs:21-29 | 34 bytes with the position tag |
| MovementPackets.ReadPlayerPosition | MinecraftServer/PlayerPositionPacket.cs:31-38 | succeeds exactly when 33 bytes remain; no finiteness check |
| MovementPackets.PlayerPositionLayout | MinecraftServer/PlayerPositionPacket.cs:21-29 | the field order is X, Y, Stance, Z, OnGround |
| MovementPackets.PlayerPositionRoundTrip | MinecraftServer/PlayerPositionPacket.cs:21-38 | every position packet, non-finite ones included, reads back as itself |
| MovementPackets.WritePlayerLook | MinecraftServer/PlayerLookPacket.cs:3-20 | without a `Write` override only the tag is written |
| MovementPackets.ReadPlayerLook | MinecraftServer/PlayerLookPacket.cs:14-19 | consumes 9 bytes: the big-endian yaw and pitch patterns, then on-ground, true exactly for 0x01 |
| MovementPackets.WriteHoldingChange | MinecraftServer/packets/HoldingChangePacket.cs:3-15 | without a `Write` override only the tag is written |
| MovementPackets.ReadHoldingChange | MinecraftServer/packets/HoldingChangePacket.cs:11-14 | consumes 2 bytes, the slot as a big-endian short |
| MovementPackets.NewPositionAndLook | MinecraftServer/packets/PlayerPositionAndLookPacket.cs:15-24 | the (x, stance, y, z, …) arguments land in the fields of the same names |
| MovementPackets.WritePositionAndLook | MinecraftServer/packets/PlayerPositionAndLookPacket.cs:27-37 | 42 bytes with the position-and-look tag |
| MovementPackets.ReadPositionAndLook | MinecraftServer/packets/PlayerPositionAndLookPacket.cs:39-57 | consumes 41 bytes, and fails unless X, Y, Stance and Z are all finite |
| MovementPackets.PositionAndLookRoundTrip | MinecraftServer/packets/PlayerPositionAndLookPacket.cs:27-57 | writing sends Stance before Y but reading takes Y first, so a finite packet comes back with Y and Stance swapped; a non-finite one is refused |
| MovementPackets.PositionAndLookLayout | MinecraftServer/packets/PlayerPositionAndLookPacket.cs:27-37 | the written order is X, Stance, Y, Z, Yaw, Pitch, OnGround, all big-endian |
| MovementPackets.PositionAndLookArgumentOrder | MinecraftServer/packets/PlayerPositionAndLookPacket.cs:15-37 | the constructor's (x, stance, y, z) argument order is the written order |
| MovementPackets.NewPositionAndLookRoot | MinecraftServer/PlayerPositionAndLookPacket.cs:13-22 | the (x, y, stance, z, …) arguments land in the fields of the same names |
| MovementPackets.WritePositionAndLookRoot | MinecraftServer/PlayerPositionAndLookPacket.cs:25-35 | 42 bytes with the position-and-look tag |
| MovementPackets.ReadPositionAndLookRoot | MinecraftServer/PlayerPositionAndLookPacket.cs:37-46 | succeeds exactly when 41 bytes remain; no finiteness check |
| MovementPackets.PositionAndLookRootRoundTrip | MinecraftServer/PlayerPositionAndLookPacket.cs:25-46 | the second class reads fields in the order it writes them, so every packet reads back as itself |
| MovementPackets.PositionAndLookRootLayout | MinecraftServer/PlayerPositionAndLookPacket.cs:25-35 | that class writes little-endian doubles and floats, in the order X, Stance, Y, Z |
| MovementPackets.PositionAndLookRootArgumentOrder | MinecraftServer/PlayerPositionAndLookPacket.cs:13-35 | its constructor takes (x, y, stance, z), yet the bytes go out as X, Stance, Y, Z, each reversed against the big-endian helpers |
| EntityPackets.WriteNamedEntitySpawn | MinecraftServer/NamedEntitySpawnPacket.cs:26-37 | 23 + 2n bytes with the named-entity tag |
| EntityPackets.ReadNamedEntitySpawn | MinecraftServer/NamedEntitySpawnPacket.cs:14-24 | succeeds exactly when the id, a non-negative name count n, the name's 2n bytes and the 16 bytes of fixed fields are all present; it then consumes 22 + 2n bytes |
| EntityPackets.NamedEntitySpawnLayout | MinecraftServer/NamedEntitySpawnPacket.cs:26-37 | field order: id, name, x, y, z as raw ints, yaw, pitch, current item |
| EntityPackets.NamedEntitySpawnRoundTrip | MinecraftServer/NamedEntitySpawnPacket.cs:14-37 | every spawn whose name is shorter than 2^15 units reads back as itself |
| EntityPackets.WriteEntityRelativeMove | MinecraftServer/packets/EntityRelativeMovePacket.cs:20-27 | 8 bytes with the relative-move tag |
| EntityPackets.ReadEntityRelativeMove | MinecraftServer/packets/EntityRelativeMovePacket.cs:12-18 | succeeds exactly when 7 bytes remain |
| EntityPackets.EntityRelativeMoveRoundTrip | MinecraftServer/packets/EntityRelativeMovePacket.cs:12-27 | every relative move, deltas in [-128, 127], reads back as itself |
| EntityPackets.WriteEntityLook | MinecraftServer/EntityLookPacket.cs:18-24 | 7 bytes with the entity-look tag |
| EntityPackets.ReadEntityLook | MinecraftServer/EntityLookPacket.cs:11-16 | succeeds exactly when 6 bytes remain |
| EntityPackets.EntityLookRoundTrip | MinecraftServer/EntityLookPacket.cs:11-24 | every entity look reads back as itself |
| EntityPackets.WriteEntityLookAndRelativeMove | MinecraftServer/EntityLookAndRelativeMovePacket.cs:24-33 | 10 bytes with the look-and-move tag |
| EntityPackets.ReadEntityLookAndRelativeMove | MinecraftServer/EntityLookAndRelativeMovePacket.cs:14-22 | succeeds exactly when 9 bytes remain |
| EntityPackets.EntityLookAndRelativeMoveRoundTrip | MinecraftServer/EntityLookAndRelativeMovePacket.cs:14-33 | every look-and-move packet reads back as itself |
| EntityPackets.WriteEntityTeleport | MinecraftServer/EntityTeleportPacket.cs:24-33 | 19 bytes with the teleport tag |
| EntityPackets.ReadEntityTeleport | MinecraftServer/EntityTeleportPacket.cs:14-22 | succeeds exactly when 18 bytes remain |
| EntityPackets.EntityTeleportRoundTrip | MinecraftServer/EntityTeleportPacket.cs:14-33 | every teleport, coordinates written verbatim, reads back as itself |
| EntityPackets.WriteDestroyEntity | MinecraftServer/DestroyEntityPacket.cs:13-20 | 5 bytes beginning with tag 0x1D |
| EntityPackets.ReadDestroyEntity | MinecraftServer/DestroyEntityPacket.cs:7-11 | succeeds exactly when 4 bytes remain |
| EntityPackets.DestroyEntityRoundTrip | MinecraftServer/DestroyEntityPacket.cs:7-20 | the entity id reads back as written |
| WorldPackets.WriteBlockChange | MinecraftServer/packets/BlockChangePacket.cs:24-32 | 12 bytes with the block-change tag |
| WorldPackets.ReadBlockChange | MinecraftServer/packets/BlockChangePacket.cs:15-22 | succeeds exactly when 11 bytes remain |
| WorldPackets.BlockChangeRoundTrip | MinecraftServer/packets/BlockChangePacket.cs:15-32 | every block change, Y as one unsigned byte, reads back as itself |
| WorldPackets.WritePreChunk | MinecraftServer/packets/PreChunkPacket.cs:14-20 | 10 bytes with the pre-chunk tag |
| WorldPackets.ReadPreChunk | MinecraftServer/packets/PreChunkPacket.cs:22-25 | reading always fails |
| WorldPackets.PreChunkLayout | MinecraftServer/packets/PreChunkPacket.cs:14-20 | after the tag come x and z as ints and the mode as a 0/1 byte |
| WorldPackets.NewMapChunk | MinecraftServer/packets/MapChunkPacket.cs:13-26 | the constructor fixes the sizes 16 × 128 × 16 and records the data and its length |
| WorldPackets.WriteMapChunk | MinecraftServer/packets/MapChunkPacket.cs:34-49 | 18 + n bytes with the map-chunk tag |
| WorldPackets.WriteMapChunkRoot | MinecraftServer/MapChunkPacket.cs:34-45 | 18 + n bytes with the map-chunk tag |
| WorldPackets.ReadMapChunk | MinecraftServer/packets/MapChunkPacket.cs:28-31 | `Read` consumes nothing and changes nothing |
| WorldPackets.MapChunkBodyLayout | MinecraftServer/packets/MapChunkPacket.cs:36-48 | field order: x int, y short, z int, the three sizes minus one as bytes, the length int, then the data |
| WorldPackets.MapChunkConstructed | MinecraftServer/packets/MapChunkPacket.cs:13-48 | a constructed chunk sends the size bytes 15, 127, 15 and its data's true length |
| WorldPackets.MapChunkScaled | MinecraftServer/packets/MapChunkPacket.cs:38-40 | the class in packets/ sends chunk coordinates times 16 as block coordinates, wrapping in 32 bits, exact for coordinates below 2^27 |
| WorldPackets.MapChunkRootUnscaled | MinecraftServer/MapChunkPacket.cs:36-44 | the top-level class sends the coordinates unscaled |
| WorldPackets.MapChunkVariantsAgree | MinecraftServer/MapChunkPacket.cs:34-45 | the two classes differ only in the x and z fields |
| ChunkGenerator.Fill | MinecraftServer/ChunkGenerator.cs:23-32 | n copies of one byte |
| ChunkGenerator.PackNibbles | MinecraftServer/ChunkGenerator.cs:35-53 | byte j holds value 2j in its low nibble and value 2j+1 (if any) in its high nibble |
| ChunkGenerator.GenerateFlatChunkRaw | MinecraftServer/ChunkGenerator.cs:8-63 | the uncompressed output is the block types, then their packed metadata nibbles, then two zeroed light sections; the ground level is ignored |
| ChunkGenerator.FillBlocks | MinecraftServer/ChunkGenerator.cs:23-32 | the triple loop adds (X+1)(Y+1)(Z+1) dirt blocks (type 3) |
| ChunkGenerator.AppendPlane | MinecraftServer/ChunkGenerator.cs:25-31 | one x-plane of the loop adds (Z+1)(Y+1) dirt blocks |
| ChunkGenerator.AppendColumn | MinecraftServer/ChunkGenerator.cs:27-30 | one column adds Y+1 dirt blocks |
| ChunkGenerator.PackSections | MinecraftServer/ChunkGenerator.cs:35-53 | the packing loop produces the packed nibbles of the block types and two all-zero light arrays of ⌈n/2⌉ bytes |
| ChunkGenerator.PackEvenStep | MinecraftServer/ChunkGenerator.cs:40-46 | an even index appends a byte holding its low nibble |
| ChunkGenerator.PackOddStep | MinecraftServer/ChunkGenerator.cs:47-53 | an odd index or-s its nibble into the high half of the previous byte |
| ChunkGenerator.LightEvenStep | MinecraftServer/ChunkGenerator.cs:44-45 | the light arrays grow by a zero byte at even indices |
| ChunkGenerator.LightOddStep | MinecraftServer/ChunkGenerator.cs:51-52 | the light arrays stay zero at odd indices |
| ChunkGenerator.FlatChunkSections | MinecraftServer/ChunkGenerator.cs:56-63 | the raw chunk has n + 3⌈n/2⌉ bytes: n dirt bytes, metadata bytes 0x33 (0x03 for an unpaired last block), then zeros |
| ChunkGenerator.DefaultFlatChunk | MinecraftServer/ChunkGenerator.cs:8-11 | with the default sizes there are 37281 blocks and 93204 raw bytes, and the last metadata byte is 0x03 |
| ChunkGenerator.Compress | MinecraftServer/ChunkGenerator.cs:68-90 | null and empty inputs are returned as they are; anything else is compressed |
| ChunkGenerator.GenerateFlatChunk | MinecraftServer/ChunkGenerator.cs:8-66 | the generator's result is the compressed raw layout |
| ChunkManager.SpawnChunkIsConstructed | MinecraftServer/ChunkManager.cs:29-31 | a table entry for a spawn chunk is exactly the packet the constructor builds |
| ChunkManager.LoadSpawnChunks | MinecraftServer/ChunkManager.cs:19-34 | afterwards the table holds exactly the old keys plus the 3×3 block; existing entries are untouched; each new entry is its own chunk at height 0 |
| ChunkManager.Announce | MinecraftServer/ChunkManager.cs:10-16 | two packets per chunk, the pre-chunk with mode 1 directly before the chunk |
| ChunkManager.SendAllChunksToPlayer | MinecraftServer/ChunkManager.cs:8-17 | 2 × (table size) packets, chunk by chunk in enumeration order, each pre-chunk followed by its chunk |
| ChunkManager.EnumerationCount | MinecraftServer/ChunkManager.cs:10 | an enumeration of the table has one entry per chunk |
| ChunkManager.GetChunk | MinecraftServer/ChunkManager.cs:37-40 | the stored packet when present, and null exactly when absent |
| ChunkManager.UnloadChunk | MinecraftServer/ChunkManager.cs:42-48 | removes the key and nothing else; an absent key leaves the table unchanged |
| ChunkManager.UnloadThenGet | MinecraftServer/ChunkManager.cs:37-48 | after unloading, that chunk is absent and every other lookup is unchanged |
| ChunkManager.Startup | MinecraftServer/MinecraftServer.cs:31 | at start-up the table holds exactly the nine chunks around (0, 0) |
| World.ChunkSizes | MinecraftServer/World.cs:15-19 | a chunk has 32768 blocks, and its blob has 81920 bytes |
| World.CoordinateSplit | MinecraftServer/World.cs:89-93 | `x >> 4` and `x & 0xF` split a coordinate into chunk and offset, with floor semantics for negatives |
| World.IndexBounds | MinecraftServer/World.cs:227-230 | in-chunk offsets give a block byte in [0, 32768) and a metadata byte in [32768, 49152) |
| World.BlockIndexInjective | MinecraftServer/World.cs:227-230 | distinct in-chunk positions have distinct block indices |
| World.GenerateChunkData | MinecraftServer/World.cs:219-225 | the compressed flat chunk copied to the front of a zeroed 81920-byte blob; fails exactly when it does not fit |
| World.ChunkBlob | MinecraftServer/World.cs:214-217 | the stored blob when present, otherwise a freshly generated one |
| World.MergeLow | MinecraftServer/World.cs:103-106 | the low nibble is replaced, the high one kept |
| World.MergeHigh | MinecraftServer/World.cs:103-110 | the high nibble is replaced, the low one kept |
| World.PutBlock | MinecraftServer/World.cs:98-111 | writes the block byte and the block's metadata nibble, and no other byte of the blob |
| World.ReadBlock | MinecraftServer/World.cs:136-151 | the block byte, and the metadata nibble chosen by the index's parity |
| World.PutThenReadOther | MinecraftServer/World.cs:98-151 | writing one block leaves every other block's type and metadata as they were |
| World.NotifyBlockChange | MinecraftServer/World.cs:185-212 | the recipients are exactly the connected subscribers of the chunk that holds the block |
| World.SetBlock | MinecraftServer/World.cs:82-115 | out-of-range heights are refused; generation fails exactly when the chunk is new and the generator's output does not fit; otherwise only that chunk's blob changes, and the block change is announced |
| World.Store | MinecraftServer/World.cs:96 | storing a blob changes only that key's entry |
| World.GetBlock | MinecraftServer/World.cs:117-152 | an out-of-range height, or a chunk with no data, reads as (0, 0) |
| World.SetThenGet | MinecraftServer/World.cs:82-152 | a written block reads back with its type and the low nibble of its metadata |
| World.SetLeavesOthers | MinecraftServer/World.cs:82-152 | a write changes no other block that had data |
| World.SetBlockStores | MinecraftServer/World.cs:95-110 | the addressed chunk's new blob is its old blob, or for a chunk without data the generator's blob, with the one block and its metadata nibble written |
| World.SetLeavesGenerated | MinecraftServer/World.cs:95-152 | when a write creates the chunk, every other block reads as in the generated chunk |
| World.StoreOtherBlock | MinecraftServer/World.cs:98-151 | writing one block of a stored blob leaves every other block of the world reading the same |
| World.ViewOrder | MinecraftServer/World.cs:40-54 | the 121 chunks of the view square, x outer and z inner |
| World.ViewOrderCoversSquare | MinecraftServer/World.cs:40-54 | the order lists every chunk of the square exactly once and nothing outside it |
| World.SubscribeSquare | MinecraftServer/World.cs:40-54 | the player is added to the subscribers of exactly the chunks in view; entries are created as needed and other subscribers are untouched |
| World.SubscribeRow | MinecraftServer/World.cs:42-53 | one x-column of that loop |
| World.UnsubscribeOutside | MinecraftServer/World.cs:56-69 | the player leaves every chunk outside the view; the chunks unloaded for it are those it was subscribed to outside the view |
| World.Touch | MinecraftServer/World.cs:154-171 | loading stores the found or generated blob and stamps its access time; other chunks keep their data and stamps; generation failure changes nothing |
| World.LoadChunkForPlayer | MinecraftServer/World.cs:154-171 | sends the pre-chunk with mode 1, then the compressed chunk at height 0 exactly when its data is there |
| World.TouchAllBlobs | MinecraftServer/World.cs:71-74 | loading a list adds data exactly for listed chunks (when generation fits) and keeps all other data |
| World.TouchAllStamps | MinecraftServer/World.cs:71-74 | every listed chunk with data is stamped with now, and no other stamp changes |
| World.LoadAllSent | MinecraftServer/World.cs:71-74 | when generation fits, two packets per listed chunk in list order, each carrying the chunk's stored blob |
| World.FirstChunkSent | MinecraftServer/World.cs:71-74 | loading a list is loading its head, then its tail, with the packets concatenated |
| World.PlayerChunk | MinecraftServer/World.cs:34-35 | the player's chunk is the floored position shifted right by 4, i.e. its floor division by 16 |
| World.UpdatePlayerPosition | MinecraftServer/World.cs:32-80 | resubscribes the player to exactly the 11×11 square around its chunk, loads and stamps every chunk of the square, sends them in loop order, and reports the chunks to unload |
| World.Resubscribe | MinecraftServer/World.cs:40-69 | the subscription effect of that call, as one predicate |
| World.LoadSquareData | MinecraftServer/World.cs:71-74 | loading the square stores data exactly for the square's chunks, stamps them now, and leaves other stamps alone |
| World.LoadSquareSent | MinecraftServer/World.cs:71-74 | when generation fits, loading the square sends 242 packets in loop order |
| World.Sweep | MinecraftServer/World.cs:238-259 | a chunk idle longer than 30 seconds with an empty subscriber set loses its data, stamp and subscriber entry together; nothing else changes |
| World.SweepLoop | MinecraftServer/World.cs:238-259 | the loop over access times computes exactly that sweep |
| World.SweepStep | MinecraftServer/World.cs:240-257 | visiting one chunk removes it exactly when it is sweepable |
| World.SweepIdempotent | MinecraftServer/World.cs:232-269 | a second sweep at the same time removes nothing more |
| World.RemovePlayer | MinecraftServer/World.cs:271-280 | the player leaves every subscriber set; every other subscriber and all chunk data stay |
| World.UnregisteredGetsNoBlockChanges | MinecraftServer/World.cs:185-212 | when no subscribed id is a registry key, a block change reaches no one |
| World.RemovedGetsNoBlockChanges | MinecraftServer/World.cs:185-280 | a removed player gets no block-change notification; everyone else's are unchanged |
| World.LastSubscriberLeaves | MinecraftServer/World.cs:238-280 | a chunk whose only subscriber leaves is swept once idle long enough |
| ClientHandler.NewSession | MinecraftServer/ClientHandler.cs:16-54 | a fresh connection is at spawn (0, 64, 0) with stance 65.62, on the ground, no flag set, keep-alive clock at now |
| ClientHandler.Disconnect | MinecraftServer/ClientHandler.cs:426-442 | sends one disconnect packet with the reason, cancels the connection, and changes nothing else |
| ClientHandler.HandleHandshake | MinecraftServer/ClientHandler.cs:145-155 | a name of more than 16 units disconnects; otherwise the name is stored, the flag set and "-" sent back |
| ClientHandler.LoginRefusal | MinecraftServer/ClientHandler.cs:159-175 | the refusal reasons in order: no handshake, already logged in, wrong protocol version; none exactly when all checks pass |
| ClientHandler.Respawned | MinecraftServer/ClientHandler.cs:182-187 | only the position and look are reset, to the spawn point |
| ClientHandler.HandleLogin | MinecraftServer/ClientHandler.cs:157-225 | a refused login disconnects with its reason; an accepted one sends login, spawn position, every table chunk, time 0, health 20, then the position, in that order, and ends at spawn, logged in |
| ClientHandler.Trunc | MinecraftServer/ClientHandler.cs:360-361 | `(int)d` truncates toward zero |
| ClientHandler.PositionRefusal | MinecraftServer/ClientHandler.cs:311-357 | the failing check, in the handler's order: non-finite values, then stance outside [0.1, 1.65], then a move over 100 blocks, then the world bounds; none exactly when the move is legal |
| ClientHandler.SquaredDistance | MinecraftServer/ClientHandler.cs:333-344 | comparing the squared distance with 100² decides as comparing the distance with 100 |
| ClientHandler.ValidatePosition | MinecraftServer/ClientHandler.cs:300-371 | accepts exactly a logged-in legal move into a loaded chunk; a refused check disconnects; a legal move into an unloaded chunk teleports to spawn; before login it fails silently |
| ClientHandler.TeleportToSpawn | MinecraftServer/ClientHandler.cs:373-395 | moves the session to spawn and sends that position once |
| ClientHandler.MoveTo | MinecraftServer/ClientHandler.cs:397-411 | stores the new position; on-ground is recomputed from the height (y ≤ 0) only when asked |
| ClientHandler.HandlePositionAndLook | MinecraftServer/ClientHandler.cs:227-254 | a refused move re-sends the held position after whatever validation sent; an accepted one stores position and look |
| ClientHandler.HandlePosition | MinecraftServer/ClientHandler.cs:256-269 | ignored before login; a refused move only reports; an accepted one stores the position and the packet's on-ground flag |
| ClientHandler.HandleLook | MinecraftServer/ClientHandler.cs:270-277 | after login, stores yaw, pitch and on-ground; before, does nothing |
| ClientHandler.HandleFlying | MinecraftServer/ClientHandler.cs:279-284 | after login, stores the on-ground flag; before, does nothing |
| ClientHandler.ChatLine | MinecraftServer/ClientHandler.cs:296 | the broadcast text is "<name> message" |
| ClientHandler.HandleChat | MinecraftServer/ClientHandler.cs:286-298 | ignored before login; a message of more than 119 units disconnects; otherwise the line is broadcast |
| ClientHandler.Decode | MinecraftServer/ClientHandler.cs:91-93 | a packet is decoded only from a known, readable tag, and always consumes input |
| ClientHandler.DecodeBody | MinecraftServer/ClientHandler.cs:444-462 | only the types both created and read without throwing yield a packet |
| ClientHandler.UnreadableTypes | MinecraftServer/ClientHandler.cs:444-462 | unknown tags, and the time, spawn-position and health types, all end the loop |
| ClientHandler.DecodeTagged | MinecraftServer/ClientHandler.cs:91-93 | a stream that starts with a type's tag is decoded by that type's reader |
| ClientHandler.Dispatch | MinecraftServer/ClientHandler.cs:97-130 | keep-alive and disconnect packets change nothing; no handler changes the entity id or the keep-alive clock, or un-cancels |
| ClientHandler.Receive | MinecraftServer/ClientHandler.cs:85-143 | a cancelled session or an undecodable stream ends the loop with a "Disconnected" disconnect; otherwise the clock is reset and the packet dispatched |
| ClientHandler.KeepAliveTick | MinecraftServer/ClientHandler.cs:62-83 | a live session gets a keep-alive, then a time-out disconnect exactly when more than 60 s have passed since the last packet |
| ClientHandler.HandshakeThenLogin | MinecraftServer/ClientHandler.cs:145-225 | a fresh connection that handshakes with a valid name and logs in with version 14 ends in the world at spawn under that name |
| ClientHandler.LoginOnlyOnce | MinecraftServer/ClientHandler.cs:165-169 | a second login after a successful one disconnects with "Already logged in!" |
| ClientHandler.GatedBeforeLogin | MinecraftServer/ClientHandler.cs:256-298 | before login, position, look, flying and chat packets are ignored |
| ClientHandler.PositionAndLookBeforeLogin | MinecraftServer/ClientHandler.cs:227-254 | before login, a position-and-look only re-sends the held position |
| ClientHandler.PositionChangesOnlyWhenValid | MinecraftServer/ClientHandler.cs:256-371 | a position packet moves the player only after login and only when legal: to the new place if its chunk is loaded, otherwise to spawn |
| ClientHandler.SpawnIsValid | MinecraftServer/ClientHandler.cs:300-371 | staying at spawn passes validation when chunk (0, 0) is loaded |
| ClientHandler.TeleportIsSentTwice | MinecraftServer/ClientHandler.cs:227-368 | a legal move into an unloaded chunk sends the spawn position twice |
| ClientHandler.RefusedMoveStillAnswered | MinecraftServer/ClientHandler.cs:227-357 | a refused position-and-look disconnects and then still re-sends the position |
| ClientHandler.DisconnectRunsTwice | MinecraftServer/ClientHandler.cs:85-143 | a disconnect inside the loop cancels it, and the `finally` sends a second disconnect |
| ClientHandler.HoldingChangeEndsConnection | MinecraftServer/ClientHandler.cs:444-462 | a holding-change packet has no factory case, so receiving one ends the connection |
| ClientHandler.DecodeHandshake | MinecraftServer/ClientHandler.cs:91-93 | a written handshake decodes back to itself |
| ClientHandler.DecodeChat | MinecraftServer/ClientHandler.cs:91-93 | a written chat message decodes back to itself |
| ClientHandler.DecodeFlying | MinecraftServer/ClientHandler.cs:91-93 | a written flying packet decodes back to itself |
| ClientHandler.DecodePosition | MinecraftServer/ClientHandler.cs:91-93 | a written position packet decodes back to itself |
| ClientHandler.DecodePositionAndLook | MinecraftServer/ClientHandler.cs:91-93 | a written position-and-look decodes with Y and Stance swapped, or not at all if non-finite |
| ClientHandler.InboundKeepsAlive | MinecraftServer/ClientHandler.cs:62-95 | any received packet resets the timeout, so the next tick within 60 s sends only a keep-alive |

## Left out

- Concurrency. The read loop and the keep-alive loop run as separate tasks. `lock` blocks and `ConcurrentDictionary` are not modelled either. Every operation is one atomic step on immutable state, and interleavings are not modelled.
- Clocks. `DateTime.UtcNow` and the `DateTime` ticks are integer parameters (`now`). The world counts ticks of 100 ns (`TicksPerSecond`). The session counts Unix seconds. `Task.Delay` waits are not modelled.
- zlib. Compression is an uninterpreted function parameter `zlib`. Where a chunk length must fit an `int`, `Bounded(zlib)` assumes the output is shorter than 2^31 bytes.
- Text codecs. Strings are sequences of UTF-16 code units. The UTF-8 encoding used by `ReadString`/`WriteString`/`String8` is given as bytes. Ill-formed surrogates are not modelled.
- Floating point. Doubles and floats are carried as bit patterns. The session turns them into reals through `Ieee.DoubleValue`, exactly for finite patterns. The session's arithmetic (distance, bounds, `1.62`) is exact real arithmetic, not rounded IEEE arithmetic.
- Square root. `Math.Sqrt` in the distance check is replaced by a squared comparison; `SquaredDistance` shows the two agree.
- Sockets and logging. Socket I/O, closing, and console logging are not modelled. A connection's output is the list of messages it hands to `SendPacket`. `SendPacket`'s own exception handling (a failed write) is left out.
- The server class. The TCP listener, the client registry and the "server full" reply are not modelled, and neither is broadcast fan-out. `Broadcast` records only the chat packet. The server's only effect used here is `LoadSpawnChunks(0, 0)` at start-up (`ChunkManager.Startup`).
- The client registry's keys. `MinecraftServer` registers each client under a fresh `Guid.NewGuid()` (MinecraftServer.cs:52), which is unrelated to the handler's own `_clientId` (ClientHandler.cs:50). So the lookup in `NotifyBlockChange` (World.cs:205) never finds a subscribed client, and the program delivers no block change at all (`World.UnregisteredGetsNoBlockChanges`). The model keeps the registry's keys as the parameter `connected`, so its `World.NotifyBlockChange` describes the evidently intended delivery.
- The disconnect callback. `_removeClientCallback(_clientId)` (ClientHandler.cs:440) removes by `_clientId`, which is never a registry key, so it removes nothing. The registry is not modelled.
- ChunkManager.LoadSpawnChunks: modelled only for centres strictly between -2^31 and 2^31 - 2. At a centre of 2^31 - 2 the loop test `<= centre + 1` (ChunkManager.cs:22, 24) holds for every `int`, so the loop never ends. At -2^31 and 2^31 - 1 a bound wraps and the loop adds nothing.
- Entity visibility. Spawn, despawn and move decisions are computed by none of the modelled files. The entity packets are modelled as codecs only.
- Enumeration order. A .NET `Dictionary` and `ConcurrentDictionary` enumerate in an unspecified order. Where the source enumerates (`SendAllChunksToPlayer`, the sweep), the order is a parameter or the result is stated order-independently.
- Unload messages. `UnloadChunkForPlayer` sends one pre-chunk with mode 0 per chunk left. `World.UpdatePlayerPosition` returns these chunks as a set, not a sequence, because they come from enumerating a dictionary.
- KeepAlivePacket is not part of this model. Its tag byte is the protocol's 0x00 and it is taken to have no payload.
- `PacketType`'s numeric values are not part of this model. The tags are the Beta 1.7.3 protocol's numbers, which are pairwise distinct.
- The login `catch` (ClientHandler.cs:220-224) is not modelled. It sends "Login failed" when a statement in the `try` (ClientHandler.cs:177-219) throws. No statement there throws in the model, because `SendPacket` (ClientHandler.cs:413-424) catches its own write errors.
- The `LoginRequestPacket` field `Unknown` is never set, so it is modelled as always empty.
- `Stop` is not modelled. It calls a `DisconnectAsync` that the client handler does not define.

Packets the read loop cannot take:

- `HoldingChangePacket` has a type tag, but `CreatePacketFromType` (ClientHandler.cs:444-461) has no case for it. So the read loop throws and the connection ends (`ClientHandler.HoldingChangeEndsConnection`).
- `CreatePacketFromType` does have a case for the time-update tag, but `TimeUpdatePacket`'s parameterless constructor throws (packets/TimeUpdatePacket.cs:11-14). So receiving one ends the connection too (`ClientHandler.UnreadableTypes`).
