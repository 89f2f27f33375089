/**
 * The records the clients exchange with the room service, and the names of
 * the publish/subscribe channels, as abstract values. A string destination
 * such as `/app/gameRoom/{roomId}/game/start-countdown` becomes a constructor
 * that carries the room id; a JSON body becomes the constructor's fields.
 */
module Messaging {
  type RoomId = string
  type UserId = string

  /** A room record as the server sends it, on `/topic/rooms` or from `GET /api/rooms`. */
  datatype Room = Room(
    roomId: RoomId,
    roomName: string,
    hostUserId: UserId,
    maxPlayers: int,
    currentPlayers: int,
    isJoinable: bool)

  /** The topics a client subscribes to. */
  datatype Topic =
    | RoomsTopic                         // /topic/rooms
    | PlayerRosterTopic(roomId: RoomId)  // /topic/waitingRoom/{roomId}/player/update
    | CountdownTopic(roomId: RoomId)     // /topic/gameRoom/{roomId}/game/countdown
    | GameStartTopic(roomId: RoomId)     // /topic/gameRoom/{roomId}/game/start
    | GameStateTopic                     // /topic/gameState
    | AppleUpdateTopic                   // /topic/appleUpdate

  /** The destinations a client publishes to, each with its body. */
  datatype Destination =
    | CreateRoom(roomName: string, userId: UserId, maxPlayers: int)  // /app/rooms/create
    | JoinRoom(roomId: RoomId, userId: UserId)                       // /app/rooms/join
    | PlayerUpdate(roomId: RoomId)                                   // /app/waitingRoom/{roomId}/player/update
    | StartGame                                                      // /app/game/start
    | StartCountdown(roomId: RoomId)                                 // /app/gameRoom/{roomId}/game/start-countdown
    | RemoveApples(removedIndices: seq<int>)                         // /app/apple/remove
}
