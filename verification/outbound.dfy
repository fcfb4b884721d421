/** What the server hands to a client connection: the packets passed to the
    connection's send routine, in order, and the disconnect it performs. */
module Outbound {
  import opened Binary
  import opened WorldPackets
  import opened SessionPackets

  /** The reasons a connection is closed with, each sent to the client as the
      text of a disconnect packet. */
  datatype Reason =
    | UsernameTooLong
    | NoHandshake
    | AlreadyLoggedIn
    | OutdatedClient
    | InvalidPosition
    | IllegalStance
    | MovedTooQuickly
    | IllegalPosition
    | ChatTooLong
    | TimedOut
    | Disconnected
  {
    function Message(): string {
      match this
      case UsernameTooLong => "Username too long"
      case NoHandshake => "No handshake received"
      case AlreadyLoggedIn => "Already logged in!"
      case OutdatedClient => "Outdated client! Please use Beta 1.7.3"
      case InvalidPosition => "Invalid position"
      case IllegalStance => "Illegal stance"
      case MovedTooQuickly => "You moved too quickly :( (Hacking?)"
      case IllegalPosition => "Illegal position"
      case ChatTooLong => "Chat message too long"
      case TimedOut => "Connection timed out"
      case Disconnected => "Disconnected"
    }
  }

  /** One outbound effect. The position-and-look packet carries the session's
      coordinates as reals (the doubles they stand for); `Broadcast` goes to
      every connected client through the server; `Disconnect` sends a
      disconnect packet with the reason's text, cancels the connection's
      loops, closes the socket and removes the client from the registry. */
  datatype Message =
    | SendKeepAlive
    | SendHandshake(handshake: HandshakePacket)
    | SendLogin(login: LoginRequestPacket)
    | SendSpawnPosition(spawn: SpawnPositionPacket)
    | SendTime(time: TimeUpdatePacket)
    | SendHealth(health: UpdateHealthPacket)
    | SendPreChunk(preChunk: PreChunkPacket)
    | SendMapChunk(mapChunk: MapChunkPacket)
    | SendBlockChange(change: BlockChangePacket)
    | SendPositionAndLook(x: real, stance: real, y: real, z: real,
                          yaw: Bits32, pitch: Bits32, onGround: bool)
    | Broadcast(chat: ChatMessagePacket)
    | Disconnect(reason: Reason)
}
