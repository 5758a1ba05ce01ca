/**
 * The messages the signaling server sends to browser clients, shared by the
 * server model (Signaling) and the client model (WebRtcClient).
 */
module Protocol {
  import opened Wrappers

  /** A JSON value; numbers are modelled as integers. */
  datatype Json =
    | JNull
    | JBool(b: bool)
    | JNumber(n: int)
    | JString(s: string)
    | JArray(items: seq<Json>)
    | JObject(fields: map<string, Json>)

  /** The `code` field of an `error` message. */
  datatype ErrorCode =
    | MissingRoomCode
    | RoomNotFound
    | RoomClosed
    | RoomExpired
    | RoomFull
    | InvalidSignal
    | NotInRoom
    | PeerNotFound
    | RoomCreationFailed
    | UnknownMessageType
    | InvalidJson
    | ServerError

  /** One entry of the `peers` list of a `joined` message. */
  datatype PeerInfo = PeerInfo(socketId: string, displayName: Option<string>)

  /** A server-to-client message (the `type` tag and its payload). Times are seconds. */
  datatype ServerMessage =
    | Connected(socketId: string)
    | RoomCreated(roomCode: string, createdAt: int, expiresAt: int, yourSocketId: string)
    | Joined(roomCode: string, yourSocketId: string, peers: seq<PeerInfo>)
    | PeerJoined(socketId: string, displayName: Option<string>)
    | PeerLeft(socketId: string)
    | Signal(from: string, signalType: string, payload: Json)
    | Error(code: ErrorCode)
    | Pong
}
