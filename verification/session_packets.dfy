/** The packets of the login conversation and of the session's housekeeping:
    keep-alive, handshake, login, chat, disconnect, and the server-to-client
    spawn position, time and health. */
module SessionPackets {
  import opened Binary
  import opened Wire

  // ---------------------------------------------------------------------------
  // KeepAlivePacket
  // ---------------------------------------------------------------------------

  /** `KeepAlivePacket` is not part of this model's sources; it is taken to
      carry no payload, as in the Beta 1.7.3 protocol. */
  function WriteKeepAlive(): (r: Bytes)
    ensures |r| == 1 && TypeOfTag(r[0]) == Some(PacketType.KeepAlive)
  {
    WriteHeader(PacketType.KeepAlive)
  }

  // ---------------------------------------------------------------------------
  // LoginRequestPacket: one class, two meanings
  // ---------------------------------------------------------------------------

  /** `Unknown` has a private setter that nothing calls, so it is always null
      and is not a field here. */
  datatype LoginRequestPacket = LoginRequestPacket(
    protocolVersion: Int32, username: Option<Text>, mapSeed: Int64, dimension: byte,
    entityId: Int32)

  /** The packet the parameterless constructor makes. */
  const EmptyLoginRequest := LoginRequestPacket(0, None, 0, 0, 0)

  /** `Write` sends the entity id where `Read` expects the protocol version and
      the null `Unknown`, as "", where `Read` expects the user name. */
  function WriteLoginRequest(p: LoginRequestPacket): (r: Bytes)
    ensures |r| == 16 && TypeOfTag(r[0]) == Some(PacketType.LoginRequest)
  {
    WriteHeader(PacketType.LoginRequest) + WriteInt(p.entityId) + WriteString16([])
      + WriteLong(p.mapSeed) + WriteByte(p.dimension)
  }

  /** `Read` fills the protocol version, user name, seed and dimension of the
      packet it is called on and leaves the entity id alone. */
  function ReadLoginRequest(p: LoginRequestPacket, s: Bytes): (r: Option<Parsed<LoginRequestPacket>>)
    ensures r.Some? ==> r.value.value.entityId == p.entityId && r.value.value.username.Some?
  {
    var version :- ReadInt(s);
    var name :- ReadString16(version.rest);
    var seed :- ReadLong(name.rest);
    var dim :- ReadByte(seed.rest);
    Some(Parsed(p.(protocolVersion := version.value, username := Some(name.value),
                   mapSeed := seed.value, dimension := dim.value), dim.rest))
  }

  /** Reading back what was written gives the entity id as the protocol
      version and the empty string as the user name; seed and dimension
      survive. */
  lemma LoginRequestRoundTrip(p: LoginRequestPacket, q: LoginRequestPacket, rest: Bytes)
    ensures ReadLoginRequest(q, WriteLoginRequest(p)[1..] + rest)
            == Some(Parsed(q.(protocolVersion := p.entityId, username := Some([]),
                              mapSeed := p.mapSeed, dimension := p.dimension), rest))
  {
    var t1 := WriteLong(p.mapSeed) + ([p.dimension] + rest);
    var t0 := WriteString16([]) + t1;
    assert WriteLoginRequest(p)[1..] + rest == WriteInt(p.entityId) + t0;
    IntRoundTrip(p.entityId, t0);
    String16RoundTrip([], t1);
    LongRoundTrip(p.mapSeed, [p.dimension] + rest);
  }

  // ---------------------------------------------------------------------------
  // HandshakePacket
  // ---------------------------------------------------------------------------

  datatype HandshakePacket = HandshakePacket(value: Text)

  /** The tag and one string; `HandshakeRoundTrip` reads it back. */
  function WriteHandshake(p: HandshakePacket): (r: Bytes)
    ensures |r| == 3 + 2 * |p.value| && TypeOfTag(r[0]) == Some(PacketType.Handshake)
  {
    WriteHeader(PacketType.Handshake) + WriteString16(p.value)
  }

  /** The body is one string: the read fails exactly when the count is
      missing or negative. */
  function ReadHandshake(s: Bytes): (r: Option<Parsed<HandshakePacket>>)
    ensures r.Some? <==> |s| >= 2 && ReadShort(s).value.value >= 0
    ensures r.Some? ==> |r.value.rest| <= |s| - 2 && r.value.rest == s[|s| - |r.value.rest|..]
  {
    var v :- ReadString16(s);
    Some(Parsed(HandshakePacket(v.value), v.rest))
  }

  lemma HandshakeRoundTrip(p: HandshakePacket, rest: Bytes)
    requires |p.value| < 0x8000
    ensures ReadHandshake(WriteHandshake(p)[1..] + rest) == Some(Parsed(p, rest))
  {
    assert WriteHandshake(p)[1..] + rest == WriteString16(p.value) + rest;
    String16RoundTrip(p.value, rest);
  }

  /** The offline-mode reply "-" on the wire. */
  lemma HandshakeReplyBytes()
    ensures WriteHandshake(HandshakePacket([0x2D])) == [0x02, 0x00, 0x01, 0x00, 0x2D]
  {
    var b := WriteHandshake(HandshakePacket([0x2D]));
    Pow256Widths();
    assert Unsigned(1, 2) == 1;
    assert WriteShort(1) == [0, 1];
    assert UnitsToBytes([0x2D]) == ToBigEndian(0x2D, 2) + UnitsToBytes([]);
  }

  // ---------------------------------------------------------------------------
  // ChatMessagePacket
  // ---------------------------------------------------------------------------

  datatype ChatMessagePacket = ChatMessagePacket(message: Text)

  /** The parameterless constructor's message is "". */
  const EmptyChatMessage := ChatMessagePacket([])

  /** The tag and one string; `ChatMessageRoundTrip` reads it back. */
  function WriteChatMessage(p: ChatMessagePacket): (r: Bytes)
    ensures |r| == 3 + 2 * |p.message| && TypeOfTag(r[0]) == Some(PacketType.ChatMessage)
  {
    WriteHeader(PacketType.ChatMessage) + WriteString16(p.message)
  }

  /** The body is one string: the read fails exactly when the count is
      missing or negative. */
  function ReadChatMessage(s: Bytes): (r: Option<Parsed<ChatMessagePacket>>)
    ensures r.Some? <==> |s| >= 2 && ReadShort(s).value.value >= 0
    ensures r.Some? ==> |r.value.rest| <= |s| - 2 && r.value.rest == s[|s| - |r.value.rest|..]
  {
    var m :- ReadString16(s);
    Some(Parsed(ChatMessagePacket(m.value), m.rest))
  }

  lemma ChatMessageRoundTrip(p: ChatMessagePacket, rest: Bytes)
    requires |p.message| < 0x8000
    ensures ReadChatMessage(WriteChatMessage(p)[1..] + rest) == Some(Parsed(p, rest))
    ensures WriteChatMessage(EmptyChatMessage) == [0x03, 0x00, 0x00]
  {
    assert WriteChatMessage(p)[1..] + rest == WriteString16(p.message) + rest;
    String16RoundTrip(p.message, rest);
    Pow256Widths();
    assert WriteShort(0) == [0, 0];
  }

  // ---------------------------------------------------------------------------
  // DisconnectPacket
  // ---------------------------------------------------------------------------

  datatype DisconnectPacket = DisconnectPacket(reason: Option<Text>)

  /** A null reason is written as "". */
  function ReasonText(p: DisconnectPacket): Text {
    if p.reason.Some? then p.reason.value else []
  }

  /** The tag and the reason string; `DisconnectRoundTrip` reads it back. */
  function WriteDisconnect(p: DisconnectPacket): (r: Bytes)
    ensures |r| == 3 + 2 * |ReasonText(p)| && TypeOfTag(r[0]) == Some(PacketType.Disconnect)
  {
    WriteHeader(PacketType.Disconnect) + WriteString16(ReasonText(p))
  }

  function ReadDisconnect(s: Bytes): (r: Option<Parsed<DisconnectPacket>>)
    ensures r.Some? ==> r.value.value.reason.Some?
  {
    var m :- ReadString16(s);
    Some(Parsed(DisconnectPacket(Some(m.value)), m.rest))
  }

  lemma DisconnectRoundTrip(p: DisconnectPacket, rest: Bytes)
    requires |ReasonText(p)| < 0x8000
    ensures ReadDisconnect(WriteDisconnect(p)[1..] + rest)
            == Some(Parsed(DisconnectPacket(Some(ReasonText(p))), rest))
    ensures p.reason.Some? ==> ReadDisconnect(WriteDisconnect(p)[1..] + rest) == Some(Parsed(p, rest))
    ensures p.reason.None? ==> WriteDisconnect(p) == WriteDisconnect(DisconnectPacket(Some([])))
  {
    assert WriteDisconnect(p)[1..] + rest == WriteString16(ReasonText(p)) + rest;
    String16RoundTrip(ReasonText(p), rest);
  }

  // ---------------------------------------------------------------------------
  // Server-to-client only: TimeUpdate, SpawnPosition, UpdateHealth
  // ---------------------------------------------------------------------------

  datatype TimeUpdatePacket = TimeUpdatePacket(time: Int64)

  /** The tag and the time as a long; see `TimeUpdateLayout`. */
  function WriteTimeUpdate(p: TimeUpdatePacket): (r: Bytes)
    ensures |r| == 9 && TypeOfTag(r[0]) == Some(PacketType.TimeUpdate)
  {
    WriteHeader(PacketType.TimeUpdate) + WriteLong(p.time)
  }

  /** `Read` throws `NotImplementedException`. */
  function ReadTimeUpdate(s: Bytes): (r: Option<Parsed<TimeUpdatePacket>>)
    ensures r.None?
  {
    None
  }

  lemma TimeUpdateLayout(p: TimeUpdatePacket)
    ensures ReadLong(WriteTimeUpdate(p)[1..]) == Some(Parsed(p.time, []))
  {
    assert WriteTimeUpdate(p)[1..] == WriteLong(p.time) + [];
    LongRoundTrip(p.time, []);
  }

  datatype SpawnPositionPacket = SpawnPositionPacket(x: Int32, y: Int32, z: Int32)

  /** The packet the parameterless constructor makes. */
  const EmptySpawnPosition := SpawnPositionPacket(0, 0, 0)

  /** The tag and three ints; see `SpawnPositionLayout`. */
  function WriteSpawnPosition(p: SpawnPositionPacket): (r: Bytes)
    ensures |r| == 13 && TypeOfTag(r[0]) == Some(PacketType.SpawnPosition)
  {
    WriteHeader(PacketType.SpawnPosition) + WriteInt(p.x) + WriteInt(p.y) + WriteInt(p.z)
  }

  /** `Read` throws `NotImplementedException`. */
  function ReadSpawnPosition(s: Bytes): (r: Option<Parsed<SpawnPositionPacket>>)
    ensures r.None?
  {
    None
  }

  lemma SpawnPositionLayout(p: SpawnPositionPacket)
    ensures var b := WriteSpawnPosition(p);
            ReadInt(b[1..]) == Some(Parsed(p.x, b[5..]))
            && ReadInt(b[5..]) == Some(Parsed(p.y, b[9..]))
            && ReadInt(b[9..]) == Some(Parsed(p.z, []))
  {
    var b := WriteSpawnPosition(p);
    assert b[1..] == WriteInt(p.x) + b[5..];
    assert b[5..] == WriteInt(p.y) + b[9..];
    assert b[9..] == WriteInt(p.z) + [];
    IntRoundTrip(p.x, b[5..]);
    IntRoundTrip(p.y, b[9..]);
    IntRoundTrip(p.z, []);
  }

  datatype UpdateHealthPacket = UpdateHealthPacket(hp: Int16)

  /** The packet the parameterless constructor makes. */
  const EmptyUpdateHealth := UpdateHealthPacket(0)

  /** The tag and the health as a short; see `UpdateHealthLayout`. */
  function WriteUpdateHealth(p: UpdateHealthPacket): (r: Bytes)
    ensures |r| == 3 && TypeOfTag(r[0]) == Some(PacketType.UpdateHealth)
  {
    WriteHeader(PacketType.UpdateHealth) + WriteShort(p.hp)
  }

  /** `Read` throws `NotImplementedException`. */
  function ReadUpdateHealth(s: Bytes): (r: Option<Parsed<UpdateHealthPacket>>)
    ensures r.None?
  {
    None
  }

  lemma UpdateHealthLayout(p: UpdateHealthPacket)
    ensures ReadShort(WriteUpdateHealth(p)[1..]) == Some(Parsed(p.hp, []))
  {
    assert WriteUpdateHealth(p)[1..] == WriteShort(p.hp) + [];
    ShortRoundTrip(p.hp, []);
  }
}
