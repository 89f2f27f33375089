/**
 * The waiting-room screen (src/components/WaitingRoom.js): the roster kept in
 * step with `/topic/waitingRoom/{roomId}/player/update`, the start request,
 * and the leave request with its three outcomes. Subscriptions, publishes
 * and the call of `onLeaveRoom` are appended, in order, to one event log.
 */
module WaitingRoomScreen {
  import opened Messaging

  datatype Event =
    | Subscribed(topic: Topic)
    | Published(destination: Destination)
    | LeftToLobby   // the `onLeaveRoom` callback was called

  /** How `POST /api/rooms/leave` ended: a response with `ok` set or not, or a thrown error. */
  datatype LeaveResponse = Ok | NotOk | Failed

  /** Where the leave handler leaves the player. */
  datatype LeaveOutcome = Left | StayedWithAlert | StayedSilently

  class WaitingRoom {
    const guestName: UserId
    const room: Room
    var players: seq<UserId>
    var hasClient: bool
    var log: seq<Event>

    constructor (guestName: UserId, room: Room)
      ensures this.guestName == guestName && this.room == room
      ensures players == [] && !hasClient && log == []
    {
      this.guestName := guestName;
      this.room := room;
      players := [];
      hasClient := false;
      log := [];
    }

    /** The mount effect: the client is created, activated and kept in state. */
    method Mount()
      modifies this`hasClient
      ensures hasClient
    {
      hasClient := true;
    }

    /** The connect callback: subscribe to the roster, then ask the server to send it. */
    method OnConnect()
      modifies this`log
      ensures log == old(log) + [Subscribed(PlayerRosterTopic(room.roomId)), Published(PlayerUpdate(room.roomId))]
    {
      log := log + [Subscribed(PlayerRosterTopic(room.roomId))];
      log := log + [Published(PlayerUpdate(room.roomId))];
    }

    /** A roster message replaces the player list. */
    method OnPlayers(updated: seq<UserId>)
      modifies this`players
      ensures players == updated
    {
      players := updated;
    }

    /** Start: with a client, publish the start request; no host check is made. */
    method StartGame()
      modifies this`log
      ensures log == old(log) + (if hasClient then [Published(Destination.StartGame)] else [])
    {
      if hasClient {
        log := log + [Published(Destination.StartGame)];
      }
    }

    /**
     * Leave. A response without `ok` shows an alert and stays. An `ok`
     * response publishes a roster refresh for this room and then calls
     * `onLeaveRoom`; without a client the publish throws, the error is
     * caught and logged, and the player stays. A failed request is logged
     * and the player stays, with no alert.
     */
    method LeaveRoom(response: LeaveResponse) returns (outcome: LeaveOutcome)
      modifies this`log
      ensures outcome == (if response == Ok && hasClient then Left
                          else if response == NotOk then StayedWithAlert
                          else StayedSilently)
      ensures log == old(log) + (if outcome == Left then [Published(PlayerUpdate(room.roomId)), LeftToLobby] else [])
    {
      match response
      case Failed =>
        outcome := StayedSilently;
      case NotOk =>
        outcome := StayedWithAlert;
      case Ok =>
        if !hasClient {
          outcome := StayedSilently;
        } else {
          log := log + [Published(PlayerUpdate(room.roomId))];
          log := log + [LeftToLobby];
          outcome := Left;
        }
    }
  }

  /** The position of the first event equal to e, if any. */
  function IndexOf(events: seq<Event>, e: Event): (k: int)
    ensures -1 <= k < |events|
    ensures k >= 0 ==> events[k] == e && forall j :: 0 <= j < k ==> events[j] != e
    ensures k < 0 ==> e !in events
  {
    if events == [] then -1
    else if events[0] == e then 0
    else var k := IndexOf(events[1..], e); if k < 0 then -1 else k + 1
  }

  /**
   * On a fresh waiting room, connecting and then leaving with an `ok`
   * response subscribes to the roster before the first publish, and
   * publishes the refresh before `onLeaveRoom` is called.
   */
  method ConnectThenLeave(guestName: UserId, room: Room) returns (log: seq<Event>, outcome: LeaveOutcome)
    ensures outcome == Left
    ensures 0 <= IndexOf(log, Subscribed(PlayerRosterTopic(room.roomId))) < IndexOf(log, Published(PlayerUpdate(room.roomId)))
    ensures 0 <= IndexOf(log, Published(PlayerUpdate(room.roomId))) < IndexOf(log, LeftToLobby)
  {
    var w := new WaitingRoom(guestName, room);
    w.Mount();
    w.OnConnect();
    outcome := w.LeaveRoom(Ok);
    log := w.log;
    assert log == [Subscribed(PlayerRosterTopic(room.roomId)), Published(PlayerUpdate(room.roomId)),
                   Published(PlayerUpdate(room.roomId)), LeftToLobby];
    assert log[1..][1..][1..] == [LeftToLobby];
  }
}
