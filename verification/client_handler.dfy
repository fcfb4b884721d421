/** One client connection: the handshake and login conversation, movement
    validation, chat, and the decisions of the read loop and the keep-alive
    loop, as a step function from a session and an inbound packet to the
    next session and the outbound effects. */
module ClientHandler {
  import opened Binary
  import opened Wire
  import opened SessionPackets
  import opened MovementPackets
  import opened Outbound
  import ChunkManager
  import Ieee
  import World

  // ---------------------------------------------------------------------------
  // Session state
  // ---------------------------------------------------------------------------

  const SpawnY: real := 64.0
  const EyeHeight: real := 1.62
  const StanceMin: real := 0.1
  const StanceMax: real := 1.65
  const MaxMoveDistance: real := 100.0
  const MaxPosition: real := 32_000_000.0
  const MinY: real := 0.0
  const MaxY: real := 256.0
  const ProtocolVersion: int := 14
  const MaxUsername: nat := 16
  const MaxChat: nat := 119
  /** Seconds without an inbound packet before the keep-alive loop gives up. */
  const KeepAliveTimeout: int := 60

  /** The handler's fields. Positions are the doubles' values as reals; yaw
      and pitch are the floats' bit patterns; `lastKeepAlive` is in Unix
      seconds; `cancelled` is the cancellation token, which both loops test. */
  datatype Session = Session(
    entityId: Int32, username: Option<Text>,
    x: real, y: real, z: real, stance: real, yaw: Bits32, pitch: Bits32, onGround: bool,
    lastKeepAlive: int,
    handshakeReceived: bool, hasLoggedIn: bool, initialPositionSent: bool,
    cancelled: bool)

  /** The spawn point (0, 64, 0) with the eye-height stance, looking ahead. */
  predicate AtSpawn(s: Session) {
    s.x == 0.0 && s.y == SpawnY && s.z == 0.0 && s.stance == SpawnY + EyeHeight
    && s.yaw == 0 && s.pitch == 0
  }

  /** The constructor: the entity id is one more than the number of connected
      clients, the keep-alive clock starts now, no flag is set. */
  function NewSession(entityId: Int32, now: int): (s: Session)
    ensures AtSpawn(s) && s.onGround && s.username.None?
    ensures !s.handshakeReceived && !s.hasLoggedIn && !s.initialPositionSent && !s.cancelled
    ensures s.entityId == entityId && s.lastKeepAlive == now
  {
    Session(entityId, None, 0.0, SpawnY, 0.0, SpawnY + EyeHeight, 0, 0, true, now,
            false, false, false, false)
  }

  /** The next session and what was passed to the connection, in order. */
  datatype Outcome = Outcome(session: Session, outbox: seq<Message>)

  /** `Disconnect(reason)`: the disconnect packet, then the token is
      cancelled, the socket closed and the client removed from the registry.
      Nothing stops it from running twice. */
  function Disconnect(s: Session, reason: Reason): (r: Outcome)
    ensures r.session.cancelled && r.outbox == [Message.Disconnect(reason)]
    ensures r.session.(cancelled := s.cancelled) == s
  {
    Outcome(s.(cancelled := true), [Message.Disconnect(reason)])
  }

  /** The gate of the movement handlers. */
  predicate InWorld(s: Session) {
    s.hasLoggedIn && s.initialPositionSent
  }

  // ---------------------------------------------------------------------------
  // Handshake and login
  // ---------------------------------------------------------------------------

  /** `HandleHandshake`: a name of more than 16 code units closes the
      connection and leaves the name and the flag alone; any other name is
      stored, the flag set and "-" (offline mode) sent back. */
  function HandleHandshake(s: Session, p: HandshakePacket): (r: Outcome)
    ensures r.session.handshakeReceived <==> s.handshakeReceived || |p.value| <= MaxUsername
    ensures r.session.cancelled <==> s.cancelled || |p.value| > MaxUsername
    ensures |p.value| <= MaxUsername ==>
              r.session.username == Some(p.value) && r.outbox == [SendHandshake(HandshakePacket([0x2D]))]
    ensures |p.value| > MaxUsername ==>
              r.session.username == s.username && r.outbox == [Message.Disconnect(UsernameTooLong)]
    ensures r.session.(username := s.username, handshakeReceived := s.handshakeReceived,
                       cancelled := s.cancelled) == s
  {
    if |p.value| > MaxUsername then Disconnect(s, UsernameTooLong)
    else
      Outcome(s.(username := Some(p.value), handshakeReceived := true),
              [SendHandshake(HandshakePacket([0x2D]))])
  }

  /** The first login check that fails, in the order the handler tests them. */
  function LoginRefusal(s: Session, p: LoginRequestPacket): (r: Option<Reason>)
    ensures r == Some(NoHandshake) <==> !s.handshakeReceived
    ensures r == Some(AlreadyLoggedIn) <==> s.handshakeReceived && s.hasLoggedIn
    ensures r == Some(OutdatedClient) <==>
              s.handshakeReceived && !s.hasLoggedIn && p.protocolVersion != ProtocolVersion
    ensures r.None? <==> s.handshakeReceived && !s.hasLoggedIn && p.protocolVersion == ProtocolVersion
  {
    if !s.handshakeReceived then Some(NoHandshake)
    else if s.hasLoggedIn then Some(AlreadyLoggedIn)
    else if p.protocolVersion != ProtocolVersion then Some(OutdatedClient)
    else None
  }

  /** The position-and-look packet that puts the client where the session
      says it is, on the ground. */
  function PlacePlayer(s: Session): Message {
    SendPositionAndLook(s.x, s.stance, s.y, s.z, s.yaw, s.pitch, true)
  }

  /** The session moved back to the spawn point; nothing else changes. */
  function Respawned(s: Session): (r: Session)
    ensures AtSpawn(r)
    ensures r.(x := s.x, y := s.y, z := s.z, stance := s.stance, yaw := s.yaw, pitch := s.pitch) == s
  {
    s.(x := 0.0, y := SpawnY, z := 0.0, stance := SpawnY + EyeHeight, yaw := 0, pitch := 0)
  }

  /** `HandleLoginRequest`. A refused login disconnects with the first failing
      check's reason and changes nothing else. An accepted one moves the
      player to spawn and sends, in order: the login reply carrying the
      entity id with seed and dimension 0, the spawn position (0, 64, 0), a
      pre-chunk and the chunk for every chunk of the spawn table, the time 0,
      the health 20, and the spawn position and look; only then are both
      login flags set. */
  function HandleLogin(s: Session, p: LoginRequestPacket, chunks: ChunkManager.Manager,
                       order: seq<ChunkManager.ChunkKey>): (r: Outcome)
    requires ChunkManager.IsEnumeration(order, chunks)
    ensures LoginRefusal(s, p).Some? ==> r == Disconnect(s, LoginRefusal(s, p).value)
    ensures LoginRefusal(s, p).None? ==>
              && AtSpawn(r.session) && InWorld(r.session)
              && r.session == Respawned(s).(hasLoggedIn := true, initialPositionSent := true)
              && |r.outbox| == 5 + 2 * |chunks.loaded|
              && r.outbox[0] == SendLogin(EmptyLoginRequest.(entityId := s.entityId))
              && r.outbox[1] == SendSpawnPosition(SpawnPositionPacket(0, 64, 0))
              && r.outbox[2..2 + 2 * |chunks.loaded|] == ChunkManager.SendAllChunksToPlayer(chunks, order)
              && r.outbox[2 + 2 * |chunks.loaded|..]
                 == [SendTime(TimeUpdatePacket(0)), SendHealth(UpdateHealthPacket(20)), PlacePlayer(r.session)]
  {
    var refusal := LoginRefusal(s, p);
    if refusal.Some? then Disconnect(s, refusal.value)
    else
      var placed := Respawned(s);
      var reply := EmptyLoginRequest.(entityId := s.entityId, mapSeed := 0, dimension := 0);
      var announced := ChunkManager.SendAllChunksToPlayer(chunks, order);
      var outbox := [SendLogin(reply), SendSpawnPosition(SpawnPositionPacket(0, 64, 0))]
                    + announced
                    + [SendTime(TimeUpdatePacket(0)), SendHealth(UpdateHealthPacket(20)), PlacePlayer(placed)];
      assert outbox[2..2 + |announced|] == announced;
      Outcome(placed.(hasLoggedIn := true, initialPositionSent := true), outbox)
  }

  // ---------------------------------------------------------------------------
  // Movement validation
  // ---------------------------------------------------------------------------

  function Sq(d: real): real {
    d * d
  }

  function Abs(d: real): real {
    if d < 0.0 then -d else d
  }

  /** `(int)d`: the cast truncates toward zero. */
  function Trunc(d: real): (r: int)
    ensures Abs(r as real) <= Abs(d) < Abs(r as real) + 1.0
    ensures (r < 0 ==> d < 0.0) && (r > 0 ==> d > 0.0)
  {
    if d >= 0.0 then d.Floor else -((-d).Floor)
  }

  /** The spawn-table key `ValidatePosition` looks up: the truncated (not
      floored) coordinates shifted right by 4. */
  function ChunkOf(x: real, z: real): ChunkManager.ChunkKey {
    (World.ChunkCoord(Trunc(x)), World.ChunkCoord(Trunc(z)))
  }

  /** A move the checks accept, stated as one conjunction: finite values, an
      eye height within [0.1, 1.65], at most 100 blocks from the current
      position (compared squared, so without the square root), and inside
      the world's bounds. */
  predicate Legal(s: Session, x: Ieee.Num, y: Ieee.Num, z: Ieee.Num, stance: Ieee.Num) {
    && x.Finite? && y.Finite? && z.Finite? && stance.Finite?
    && StanceMin <= stance.value - y.value <= StanceMax
    && Sq(s.x - x.value) + Sq(s.y - y.value) + Sq(s.z - z.value) <= Sq(MaxMoveDistance)
    && Abs(x.value) <= MaxPosition && Abs(z.value) <= MaxPosition
    && MinY <= y.value <= MaxY
  }

  /** The check of `ValidatePosition` that rejects the move, in the order the
      handler tests them: non-finite values, then the stance, then the
      distance, then the bounds. */
  function PositionRefusal(s: Session, x: Ieee.Num, y: Ieee.Num, z: Ieee.Num, stance: Ieee.Num)
    : (r: Option<Reason>)
    ensures r == Some(InvalidPosition) <==> x.NonFinite? || y.NonFinite? || z.NonFinite? || stance.NonFinite?
    ensures r == Some(IllegalStance) <==>
              x.Finite? && y.Finite? && z.Finite? && stance.Finite?
              && !(StanceMin <= stance.value - y.value <= StanceMax)
    ensures r == Some(MovedTooQuickly) <==>
              x.Finite? && y.Finite? && z.Finite? && stance.Finite?
              && StanceMin <= stance.value - y.value <= StanceMax
              && Sq(s.x - x.value) + Sq(s.y - y.value) + Sq(s.z - z.value) > Sq(MaxMoveDistance)
    ensures r.None? <==> Legal(s, x, y, z, stance)
    ensures r.Some? ==> r.value in {InvalidPosition, IllegalStance, MovedTooQuickly, IllegalPosition}
  {
    if x.NonFinite? || y.NonFinite? || z.NonFinite? || stance.NonFinite? then Some(InvalidPosition)
    else
      var height := stance.value - y.value;
      if height < StanceMin || height > StanceMax then Some(IllegalStance)
      else if Sq(s.x - x.value) + Sq(s.y - y.value) + Sq(s.z - z.value) > Sq(MaxMoveDistance) then
        Some(MovedTooQuickly)
      else if Abs(x.value) > MaxPosition || Abs(z.value) > MaxPosition then Some(IllegalPosition)
      else if y.value < MinY || y.value > MaxY then Some(IllegalPosition)
      else None
  }

  /** The distance is compared squared: for non-negative reals, a square
      root exceeds 100 exactly when its argument exceeds 100². */
  lemma SquaredDistance(d: real, root: real)
    requires d >= 0.0 && root >= 0.0 && root * root == d
    ensures root > MaxMoveDistance <==> d > Sq(MaxMoveDistance)
  {
    assert Sq(MaxMoveDistance) == 10000.0;
    if root > 100.0 {
      assert root * root > 100.0 * root;
      assert 100.0 * root > 10000.0;
    } else {
      assert root * root <= 100.0 * root;
      assert 100.0 * root <= 10000.0;
    }
  }

  datatype Validation = Validation(ok: bool, session: Session, outbox: seq<Message>)

  /** `ValidatePosition`. Before the login sequence is complete: false with no
      effect. Then a failing check disconnects with its reason. A legal move
      into a chunk missing from the spawn table teleports the player to
      spawn, sending the spawn position and look, and is rejected without a
      disconnect. Otherwise the move is accepted and nothing happens. */
  function ValidatePosition(s: Session, x: Ieee.Num, y: Ieee.Num, z: Ieee.Num, stance: Ieee.Num,
                            chunks: ChunkManager.Manager): (r: Validation)
    ensures r.ok <==> InWorld(s) && Legal(s, x, y, z, stance) && ChunkOf(x.value, z.value) in chunks.loaded
    ensures r.ok ==> r.session == s && r.outbox == []
    ensures !InWorld(s) ==> r == Validation(false, s, [])
    ensures InWorld(s) && PositionRefusal(s, x, y, z, stance).Some? ==>
              var d := Disconnect(s, PositionRefusal(s, x, y, z, stance).value);
              r == Validation(false, d.session, d.outbox)
    ensures InWorld(s) && Legal(s, x, y, z, stance) && ChunkOf(x.value, z.value) !in chunks.loaded ==>
              r.session == Respawned(s) && r.outbox == [PlacePlayer(Respawned(s))]
  {
    if !InWorld(s) then Validation(false, s, [])
    else
      var refusal := PositionRefusal(s, x, y, z, stance);
      if refusal.Some? then
        var d := Disconnect(s, refusal.value);
        Validation(false, d.session, d.outbox)
      else if ChunkOf(x.value, z.value) !in chunks.loaded then
        var t := TeleportToSpawn(s);
        Validation(false, t.session, t.outbox)
      else Validation(true, s, [])
  }

  /** `TeleportToSpawn`: the session moves to spawn and the client is told. */
  function TeleportToSpawn(s: Session): (r: Outcome)
    ensures AtSpawn(r.session) && r.session == Respawned(s)
    ensures r.outbox == [SendPositionAndLook(0.0, SpawnY + EyeHeight, SpawnY, 0.0, 0, 0, true)]
  {
    var t := Respawned(s);
    Outcome(t, [PlacePlayer(t)])
  }

  /** The private `UpdatePlayerPosition`: the four values are stored; when the
      flag is set, on-ground becomes "at or below height 0". */
  function MoveTo(s: Session, x: real, y: real, z: real, stance: real, updateOnGround: bool): (r: Session)
    ensures r.x == x && r.y == y && r.z == z && r.stance == stance
    ensures r.onGround == (if updateOnGround then y <= MinY else s.onGround)
    ensures r.(x := s.x, y := s.y, z := s.z, stance := s.stance, onGround := s.onGround) == s
  {
    s.(x := x, y := y, z := z, stance := stance, onGround := if updateOnGround then y <= MinY else s.onGround)
  }

  /** The values of a packet's four doubles. */
  function Values(x: Bits64, y: Bits64, z: Bits64, stance: Bits64): (Ieee.Num, Ieee.Num, Ieee.Num, Ieee.Num) {
    (Ieee.DoubleValue(x), Ieee.DoubleValue(y), Ieee.DoubleValue(z), Ieee.DoubleValue(stance))
  }

  /** Whether the four position fields of two sessions agree. */
  predicate SamePlace(a: Session, b: Session) {
    a.x == b.x && a.y == b.y && a.z == b.z && a.stance == b.stance
  }

  // ---------------------------------------------------------------------------
  // Movement and chat handlers
  // ---------------------------------------------------------------------------

  /** `HandlePlayerPositionAndLook`. It is not gated: a rejected move, also
      one before login, re-sends the position the session then holds, after
      whatever validation sent. An accepted move stores the position and
      look, with on-ground recomputed from the height. */
  function HandlePositionAndLook(s: Session, p: PositionAndLookPacket, chunks: ChunkManager.Manager)
    : (r: Outcome)
    ensures var (x, y, z, stance) := Values(p.x, p.y, p.z, p.stance);
            var v := ValidatePosition(s, x, y, z, stance, chunks);
            && (!v.ok ==> r == Outcome(v.session, v.outbox + [PlacePlayer(v.session)]))
            && (v.ok ==> r.outbox == []
                         && r.session == MoveTo(s, x.value, y.value, z.value, stance.value, true)
                                           .(yaw := p.yaw, pitch := p.pitch))
  {
    var (x, y, z, stance) := Values(p.x, p.y, p.z, p.stance);
    var v := ValidatePosition(s, x, y, z, stance, chunks);
    if !v.ok then Outcome(v.session, v.outbox + [PlacePlayer(v.session)])
    else
      var moved := MoveTo(v.session, x.value, y.value, z.value, stance.value, true);
      Outcome(moved.(yaw := p.yaw, pitch := p.pitch), [])
  }

  /** `HandlePlayerPosition`: ignored until the player is in the world; a
      rejected move changes what validation changed; an accepted one stores
      the position, and the packet's on-ground flag is passed as the flag
      that decides whether on-ground is recomputed. */
  function HandlePosition(s: Session, p: PlayerPositionPacket, chunks: ChunkManager.Manager): (r: Outcome)
    ensures !InWorld(s) ==> r == Outcome(s, [])
    ensures var (x, y, z, stance) := Values(p.x, p.y, p.z, p.stance);
            var v := ValidatePosition(s, x, y, z, stance, chunks);
            && (InWorld(s) && !v.ok ==> r == Outcome(v.session, v.outbox))
            && (v.ok ==> r == Outcome(MoveTo(s, x.value, y.value, z.value, stance.value, p.onGround), []))
  {
    if !InWorld(s) then Outcome(s, [])
    else
      var (x, y, z, stance) := Values(p.x, p.y, p.z, p.stance);
      var v := ValidatePosition(s, x, y, z, stance, chunks);
      if !v.ok then Outcome(v.session, v.outbox)
      else Outcome(MoveTo(v.session, x.value, y.value, z.value, stance.value, p.onGround), [])
  }

  /** `HandlePlayerLook`: once in the world, the look and on-ground flag are
      taken from the packet. */
  function HandleLook(s: Session, p: PlayerLookPacket): (r: Outcome)
    ensures r.outbox == []
    ensures !InWorld(s) ==> r.session == s
    ensures InWorld(s) ==> r.session.yaw == p.yaw && r.session.pitch == p.pitch && r.session.onGround == p.onGround
    ensures r.session.(yaw := s.yaw, pitch := s.pitch, onGround := s.onGround) == s
  {
    if !InWorld(s) then Outcome(s, [])
    else Outcome(s.(yaw := p.yaw, pitch := p.pitch, onGround := p.onGround), [])
  }

  /** `HandlePlayerFlying`: once in the world, the on-ground flag is taken
      from the packet. */
  function HandleFlying(s: Session, p: PlayerFlyingPacket): (r: Outcome)
    ensures r.outbox == []
    ensures r.session.onGround == (if InWorld(s) then p.onGround else s.onGround)
    ensures r.session.(onGround := s.onGround) == s
  {
    if !InWorld(s) then Outcome(s, []) else Outcome(s.(onGround := p.onGround), [])
  }

  /** The user name as string interpolation renders it: null is "". */
  function NameText(s: Session): Text {
    if s.username.Some? then s.username.value else []
  }

  /** `$"<{name}> {message}"` in UTF-16 code units. */
  function ChatLine(name: Text, message: Text): (r: Text)
    ensures |r| == |name| + |message| + 3
    ensures r[0] == 0x3C && r[1..|name| + 1] == name && r[|name| + 1..|name| + 3] == [0x3E, 0x20]
    ensures r[|name| + 3..] == message
  {
    [0x3C] + name + [0x3E, 0x20] + message
  }

  /** `HandleChatMessage`: ignored before login (the second login flag is not
      consulted); a message of more than 119 code units closes the
      connection; otherwise the line prefixed with the sender's name is
      broadcast to every connected client. */
  function HandleChat(s: Session, p: ChatMessagePacket): (r: Outcome)
    ensures !s.hasLoggedIn ==> r == Outcome(s, [])
    ensures s.hasLoggedIn && |p.message| > MaxChat ==> r == Disconnect(s, ChatTooLong)
    ensures s.hasLoggedIn && |p.message| <= MaxChat ==>
              r == Outcome(s, [Broadcast(ChatMessagePacket(ChatLine(NameText(s), p.message)))])
  {
    if !s.hasLoggedIn then Outcome(s, [])
    else if |p.message| > MaxChat then Disconnect(s, ChatTooLong)
    else Outcome(s, [Broadcast(ChatMessagePacket(ChatLine(NameText(s), p.message)))])
  }

  // ---------------------------------------------------------------------------
  // Decoding and the read loop
  // ---------------------------------------------------------------------------

  /** A packet `CreatePacketFromType` creates and `Read` fills. */
  datatype Inbound =
    | InKeepAlive
    | InLogin(login: LoginRequestPacket)
    | InHandshake(handshake: HandshakePacket)
    | InChat(chat: ChatMessagePacket)
    | InFlying(flying: PlayerFlyingPacket)
    | InPosition(position: PlayerPositionPacket)
    | InLook(look: PlayerLookPacket)
    | InPositionAndLook(posLook: PositionAndLookPacket)
    | InDisconnect(disconnect: DisconnectPacket)

  /** The types `CreatePacketFromType` has a case for; every other tag
      throws there. */
  predicate Creatable(t: PacketType) {
    t in {PacketType.KeepAlive, PacketType.LoginRequest, PacketType.Handshake, PacketType.ChatMessage,
          PacketType.TimeUpdate, PacketType.SpawnPosition, PacketType.UpdateHealth, PacketType.Player,
          PacketType.PlayerPosition, PacketType.PlayerLook, PacketType.PlayerPositionLook,
          PacketType.Disconnect}
  }

  /** The types whose packet is both constructed and read without throwing
      outright: the time packet's parameterless constructor throws, and the
      spawn-position and health packets' `Read` throws. */
  predicate Readable(t: PacketType) {
    Creatable(t) && t !in {PacketType.TimeUpdate, PacketType.SpawnPosition, PacketType.UpdateHealth}
  }

  /** One iteration's `ReadByte`, `CreatePacketFromType` and `Read`; None
      where any of them throws, including at the end of the stream. */
  function Decode(stream: Bytes): (r: Option<Parsed<Inbound>>)
    ensures r.Some? ==> |stream| >= 1 && TypeOfTag(stream[0]).Some? && Readable(TypeOfTag(stream[0]).value)
    ensures r.Some? ==> |r.value.rest| < |stream|
  {
    var tag :- ReadByte(stream);
    var t :- TypeOfTag(tag.value);
    DecodeBody(t, tag.rest)
  }

  /** The packet of type `t` read from what follows its tag. The types
      without a factory case throw on creation, and so does the time packet,
      whose parameterless constructor throws; the spawn-position and health
      packets are created but their `Read` throws. The login packet is read
      into a fresh `LoginRequestPacket`. */
  function DecodeBody(t: PacketType, s: Bytes): (r: Option<Parsed<Inbound>>)
    ensures r.Some? ==> Readable(t) && |r.value.rest| <= |s|
  {
    match t
    case KeepAlive => Some(Parsed(InKeepAlive, s))
    case LoginRequest =>
      var p :- ReadLoginRequest(EmptyLoginRequest, s);
      Some(Parsed(InLogin(p.value), p.rest))
    case Handshake =>
      var p :- ReadHandshake(s);
      Some(Parsed(InHandshake(p.value), p.rest))
    case ChatMessage =>
      var p :- ReadChatMessage(s);
      Some(Parsed(InChat(p.value), p.rest))
    case Player =>
      var p :- ReadPlayerFlying(s);
      Some(Parsed(InFlying(p.value), p.rest))
    case PlayerPosition =>
      var p :- ReadPlayerPosition(s);
      Some(Parsed(InPosition(p.value), p.rest))
    case PlayerLook =>
      var p :- ReadPlayerLook(s);
      Some(Parsed(InLook(p.value), p.rest))
    case PlayerPositionLook =>
      var p :- ReadPositionAndLook(s);
      Some(Parsed(InPositionAndLook(p.value), p.rest))
    case Disconnect =>
      var p :- ReadDisconnect(s);
      Some(Parsed(InDisconnect(p.value), p.rest))
    case _ => None
  }

  /** Every type outside `Readable` ends in None, including the three the
      factory names but cannot read. */
  lemma UnreadableTypes(t: PacketType, s: Bytes)
    ensures !Readable(t) ==> DecodeBody(t, s).None?
    ensures t == PacketType.TimeUpdate ==> Creatable(t) && ReadTimeUpdate(s).None?
    ensures t == PacketType.SpawnPosition ==> Creatable(t) && ReadSpawnPosition(s).None?
    ensures t == PacketType.UpdateHealth ==> Creatable(t) && ReadUpdateHealth(s).None?
  {
  }

  /** Decoding a stream that starts with a packet's tag reads that packet's
      body from what follows. */
  lemma DecodeTagged(t: PacketType, written: Bytes, rest: Bytes)
    requires |written| >= 1 && TypeOfTag(written[0]) == Some(t)
    ensures Decode(written + rest) == DecodeBody(t, written[1..] + rest)
  {
    assert (written + rest)[1..] == written[1..] + rest;
  }

  /** The switch of the read loop; keep-alive and disconnect packets only
      reach its default branch, which logs them. */
  function Dispatch(s: Session, packet: Inbound, chunks: ChunkManager.Manager,
                    order: seq<ChunkManager.ChunkKey>): (r: Outcome)
    requires ChunkManager.IsEnumeration(order, chunks)
    ensures packet.InKeepAlive? || packet.InDisconnect? ==> r == Outcome(s, [])
    ensures r.session.entityId == s.entityId && r.session.lastKeepAlive == s.lastKeepAlive
    ensures s.cancelled ==> r.session.cancelled
  {
    match packet
    case InHandshake(p) => HandleHandshake(s, p)
    case InLogin(p) => HandleLogin(s, p, chunks, order)
    case InPositionAndLook(p) => HandlePositionAndLook(s, p, chunks)
    case InPosition(p) => HandlePosition(s, p, chunks)
    case InLook(p) => HandleLook(s, p)
    case InFlying(p) => HandleFlying(s, p)
    case InChat(p) => HandleChat(s, p)
    case InKeepAlive => Outcome(s, [])
    case InDisconnect(_) => Outcome(s, [])
  }

  /** What one turn of the read loop leaves: the session, the outbound
      effects, the unread stream, and whether the loop has ended. */
  datatype Received = Received(session: Session, outbox: seq<Message>, rest: Bytes, finished: bool)

  /** One turn of `HandleClientAsync`. A cancelled token ends the loop, and a
      packet that cannot be created or read ends it through the exception
      handler; either way the `finally` block disconnects with
      "Disconnected". Otherwise the liveness time becomes `now` (Unix
      seconds) and the packet is dispatched. */
  function Receive(s: Session, stream: Bytes, now: int, chunks: ChunkManager.Manager,
                   order: seq<ChunkManager.ChunkKey>): (r: Received)
    requires ChunkManager.IsEnumeration(order, chunks)
    ensures r.finished <==> s.cancelled || Decode(stream).None?
    ensures r.finished ==>
              r.session == s.(cancelled := true) && r.outbox == [Message.Disconnect(Disconnected)]
              && r.rest == stream
    ensures !r.finished ==>
              r.session.lastKeepAlive == now && |r.rest| < |stream|
              && Outcome(r.session, r.outbox)
                 == Dispatch(s.(lastKeepAlive := now), Decode(stream).value.value, chunks, order)
  {
    if s.cancelled then
      var d := Disconnect(s, Disconnected);
      Received(d.session, d.outbox, stream, true)
    else
      match Decode(stream)
      case None =>
        var d := Disconnect(s, Disconnected);
        Received(d.session, d.outbox, stream, true)
      case Some(parsed) =>
        var o := Dispatch(s.(lastKeepAlive := now), parsed.value, chunks, order);
        Received(o.session, o.outbox, parsed.rest, false)
  }

  /** One turn of `KeepAliveLoopAsync`, `now` read after the one-second delay:
      nothing once the token is cancelled; otherwise a keep-alive, and a
      disconnect when more than 60 seconds passed since the last packet. */
  function KeepAliveTick(s: Session, now: int): (r: Outcome)
    ensures s.cancelled ==> r == Outcome(s, [])
    ensures !s.cancelled ==> |r.outbox| >= 1 && r.outbox[0] == SendKeepAlive
    ensures !s.cancelled ==>
              (r.session.cancelled <==> now - s.lastKeepAlive > KeepAliveTimeout)
    ensures !s.cancelled && now - s.lastKeepAlive > KeepAliveTimeout ==>
              r.outbox == [SendKeepAlive, Message.Disconnect(TimedOut)]
    ensures !s.cancelled && now - s.lastKeepAlive <= KeepAliveTimeout ==> r == Outcome(s, [SendKeepAlive])
  {
    if s.cancelled then Outcome(s, [])
    else if now - s.lastKeepAlive > KeepAliveTimeout then
      var d := Disconnect(s, TimedOut);
      Outcome(d.session, [SendKeepAlive] + d.outbox)
    else Outcome(s, [SendKeepAlive])
  }

  // ---------------------------------------------------------------------------
  // Properties of the conversation
  // ---------------------------------------------------------------------------

  /** A fresh connection that sends a short name and then a version-14 login
      is in the world at spawn, and the login answer sends two packets per
      spawn-table chunk plus five. */
  lemma HandshakeThenLogin(entityId: Int32, now: int, name: Text, version: Int32,
                           chunks: ChunkManager.Manager, order: seq<ChunkManager.ChunkKey>)
    requires |name| <= MaxUsername && version == ProtocolVersion
    requires ChunkManager.IsEnumeration(order, chunks)
    ensures var h := HandleHandshake(NewSession(entityId, now), HandshakePacket(name));
            var l := HandleLogin(h.session, EmptyLoginRequest.(protocolVersion := version), chunks, order);
            && h.outbox == [SendHandshake(HandshakePacket([0x2D]))]
            && InWorld(l.session) && AtSpawn(l.session) && !l.session.cancelled
            && l.session.username == Some(name)
            && |l.outbox| == 5 + 2 * |chunks.loaded|
  {
  }

  /** Login happens at most once: a second login request is refused and the
      connection closed, whatever its version. */
  lemma LoginOnlyOnce(s: Session, p: LoginRequestPacket, q: LoginRequestPacket,
                      chunks: ChunkManager.Manager, order: seq<ChunkManager.ChunkKey>)
    requires ChunkManager.IsEnumeration(order, chunks)
    requires LoginRefusal(s, p).None?
    ensures var first := HandleLogin(s, p, chunks, order).session;
            HandleLogin(first, q, chunks, order) == Disconnect(first, AlreadyLoggedIn)
  {
  }

  /** Until the login sequence completes, movement packets change nothing and
      send nothing, and before login chat does neither. */
  lemma GatedBeforeLogin(s: Session, pos: PlayerPositionPacket, look: PlayerLookPacket,
                         flying: PlayerFlyingPacket, chat: ChatMessagePacket, chunks: ChunkManager.Manager)
    requires !s.hasLoggedIn
    ensures HandlePosition(s, pos, chunks) == Outcome(s, [])
    ensures HandleLook(s, look) == Outcome(s, [])
    ensures HandleFlying(s, flying) == Outcome(s, [])
    ensures HandleChat(s, chat) == Outcome(s, [])
  {
  }

  /** A position-and-look packet before login is answered with the position
      the session holds, and nothing else happens. */
  lemma PositionAndLookBeforeLogin(s: Session, p: PositionAndLookPacket, chunks: ChunkManager.Manager)
    requires !InWorld(s)
    ensures HandlePositionAndLook(s, p, chunks) == Outcome(s, [PlacePlayer(s)])
  {
  }

  /** A position packet changes the stored position only in two ways: the
      move passed every check and the position is the packet's, or the move
      was legal but left the spawn table and the player is back at spawn. */
  lemma PositionChangesOnlyWhenValid(s: Session, p: PlayerPositionPacket, chunks: ChunkManager.Manager)
    ensures var r := HandlePosition(s, p, chunks).session;
            var (x, y, z, stance) := Values(p.x, p.y, p.z, p.stance);
            !SamePlace(r, s) ==>
              && InWorld(s) && Legal(s, x, y, z, stance)
              && (if ChunkOf(x.value, z.value) in chunks.loaded
                  then r.x == x.value && r.y == y.value && r.z == z.value && r.stance == stance.value
                  else AtSpawn(r))
  {
  }

  /** The spawn point is always a legal place to stand, so a player sent back
      there is accepted again once the spawn chunk is in the table. */
  lemma SpawnIsValid(s: Session, chunks: ChunkManager.Manager)
    requires InWorld(s) && AtSpawn(s) && (0, 0) in chunks.loaded
    ensures ValidatePosition(s, Ieee.Finite(0.0), Ieee.Finite(SpawnY), Ieee.Finite(0.0),
                             Ieee.Finite(SpawnY + EyeHeight), chunks)
            == Validation(true, s, [])
  {
    assert Trunc(0.0) == 0;
  }

  /** A rejected move into an unloaded chunk is followed by two identical
      position packets: the teleport's and the handler's re-send. */
  lemma TeleportIsSentTwice(s: Session, p: PositionAndLookPacket, chunks: ChunkManager.Manager)
    requires InWorld(s)
    requires var (x, y, z, stance) := Values(p.x, p.y, p.z, p.stance);
             Legal(s, x, y, z, stance) && ChunkOf(x.value, z.value) !in chunks.loaded
    ensures HandlePositionAndLook(s, p, chunks).outbox
            == [PlacePlayer(Respawned(s)), PlacePlayer(Respawned(s))]
    ensures AtSpawn(HandlePositionAndLook(s, p, chunks).session)
  {
  }

  /** A move that fails a check is also answered after the disconnect: the
      handler re-sends the position although the connection is closing. */
  lemma RefusedMoveStillAnswered(s: Session, p: PositionAndLookPacket, chunks: ChunkManager.Manager)
    requires InWorld(s)
    requires var (x, y, z, stance) := Values(p.x, p.y, p.z, p.stance);
             PositionRefusal(s, x, y, z, stance).Some?
    ensures var (x, y, z, stance) := Values(p.x, p.y, p.z, p.stance);
            HandlePositionAndLook(s, p, chunks)
            == Outcome(s.(cancelled := true),
                       [Message.Disconnect(PositionRefusal(s, x, y, z, stance).value), PlacePlayer(s)])
  {
  }

  /** `Disconnect` has no once-only guard: after a handler closed the
      connection, the next turn of the read loop finds the token cancelled
      and disconnects a second time with "Disconnected". */
  lemma DisconnectRunsTwice(s: Session, p: ChatMessagePacket, stream: Bytes, now: int,
                            chunks: ChunkManager.Manager, order: seq<ChunkManager.ChunkKey>)
    requires ChunkManager.IsEnumeration(order, chunks)
    requires s.hasLoggedIn && |p.message| > MaxChat
    ensures var first := HandleChat(s, p);
            var next := Receive(first.session, stream, now, chunks, order);
            first.outbox == [Message.Disconnect(ChatTooLong)]
            && next.finished && next.outbox == [Message.Disconnect(Disconnected)]
  {
  }

  /** The held-item packet has a type but no factory entry, so receiving it
      ends the connection. */
  lemma HoldingChangeEndsConnection(s: Session, rest: Bytes, now: int,
                                    chunks: ChunkManager.Manager, order: seq<ChunkManager.ChunkKey>)
    requires ChunkManager.IsEnumeration(order, chunks)
    ensures Decode([Tag(PacketType.HoldingChange)] + rest).None?
    ensures Receive(s, [Tag(PacketType.HoldingChange)] + rest, now, chunks, order).finished
  {
    TagsDistinct(PacketType.HoldingChange, PacketType.HoldingChange);
  }

  /** What a client writes is what the loop decodes: handshake, chat,
      on-ground and position packets come back as sent. */
  lemma DecodeHandshake(h: HandshakePacket, rest: Bytes)
    requires |h.value| < 0x8000
    ensures Decode(WriteHandshake(h) + rest) == Some(Parsed(InHandshake(h), rest))
  {
    DecodeTagged(PacketType.Handshake, WriteHandshake(h), rest);
    HandshakeRoundTrip(h, rest);
  }

  lemma DecodeChat(c: ChatMessagePacket, rest: Bytes)
    requires |c.message| < 0x8000
    ensures Decode(WriteChatMessage(c) + rest) == Some(Parsed(InChat(c), rest))
  {
    DecodeTagged(PacketType.ChatMessage, WriteChatMessage(c), rest);
    ChatMessageRoundTrip(c, rest);
  }

  lemma DecodeFlying(f: PlayerFlyingPacket, rest: Bytes)
    ensures Decode(WritePlayerFlying(f) + rest) == Some(Parsed(InFlying(f), rest))
  {
    DecodeTagged(PacketType.Player, WritePlayerFlying(f), rest);
    PlayerFlyingRoundTrip(f, rest);
  }

  lemma DecodePosition(p: PlayerPositionPacket, rest: Bytes)
    ensures Decode(WritePlayerPosition(p) + rest) == Some(Parsed(InPosition(p), rest))
  {
    DecodeTagged(PacketType.PlayerPosition, WritePlayerPosition(p), rest);
    PlayerPositionRoundTrip(p, rest);
  }

  /** A position-and-look packet written by the same class is decoded with
      its Y and stance exchanged, and a non-finite one ends the connection. */
  lemma DecodePositionAndLook(p: PositionAndLookPacket, rest: Bytes)
    ensures Decode(WritePositionAndLook(p) + rest)
            == if HasNonFinite(p.x, p.y, p.stance, p.z) then None
               else Some(Parsed(InPositionAndLook(p.(y := p.stance, stance := p.y)), rest))
  {
    DecodeTagged(PacketType.PlayerPositionLook, WritePositionAndLook(p), rest);
    PositionAndLookRoundTrip(p, rest);
    PositionAndLookBody(WritePositionAndLook(p)[1..] + rest);
  }

  /** The position-and-look branch of the body decoder. */
  lemma PositionAndLookBody(s: Bytes)
    ensures DecodeBody(PacketType.PlayerPositionLook, s)
            == match ReadPositionAndLook(s)
               case None => None
               case Some(p) => Some(Parsed(InPositionAndLook(p.value), p.rest))
  {
  }

  /** A keep-alive that arrives within the timeout keeps the connection: the
      read refreshes the liveness time, so the next tick only sends a
      keep-alive. */
  lemma InboundKeepsAlive(s: Session, rest: Bytes, now: int, later: int,
                          chunks: ChunkManager.Manager, order: seq<ChunkManager.ChunkKey>)
    requires ChunkManager.IsEnumeration(order, chunks)
    requires !s.cancelled && later - now <= KeepAliveTimeout
    ensures var r := Receive(s, WriteKeepAlive() + rest, now, chunks, order);
            !r.finished && r.outbox == []
            && KeepAliveTick(r.session, later) == Outcome(r.session, [SendKeepAlive])
  {
    assert (WriteKeepAlive() + rest)[0] == Tag(PacketType.KeepAlive);
    TagsDistinct(PacketType.KeepAlive, PacketType.KeepAlive);
  }
}
