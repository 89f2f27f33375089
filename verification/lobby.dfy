/**
 * The lobby screen (src/components/Lobby.js): the room list kept fresh by
 * the initial fetch and by room updates pushed on `/topic/rooms`, and the
 * create and join requests, which are published only when the STOMP client
 * has been set.
 */
module LobbyScreen {
  import opened Wrappers
  import opened Messaging

  /** The `maxPlayers` every create request carries. */
  const DefaultMaxPlayers := 8

  /** `prevRooms.some((room) => room.roomId === roomId)`. */
  predicate HasRoom(rooms: seq<Room>, roomId: RoomId) {
    exists k :: 0 <= k < |rooms| && rooms[k].roomId == roomId
  }

  /** No two rooms of the list share a room id. */
  predicate UniqueIds(rooms: seq<Room>) {
    forall j, k :: 0 <= j < k < |rooms| ==> rooms[j].roomId != rooms[k].roomId
  }

  /** The rooms whose id differs from roomId, in their order. */
  function Others(rooms: seq<Room>, roomId: RoomId): seq<Room> {
    if rooms == [] then []
    else Others(rooms[..|rooms| - 1], roomId)
         + (if rooms[|rooms| - 1].roomId != roomId then [rooms[|rooms| - 1]] else [])
  }

  /**
   * The `/topic/rooms` reducer: when a room with the updated room's id is
   * listed, every such entry is replaced in place and the length is kept;
   * otherwise the updated room is appended.
   */
  function Upsert(rooms: seq<Room>, updated: Room): (r: seq<Room>)
    ensures HasRoom(rooms, updated.roomId) ==> |r| == |rooms|
    ensures !HasRoom(rooms, updated.roomId) ==> r == rooms + [updated]
    ensures forall k :: 0 <= k < |rooms| ==>
      r[k] == if rooms[k].roomId == updated.roomId then updated else rooms[k]
  {
    if HasRoom(rooms, updated.roomId) then
      seq(|rooms|, k requires 0 <= k < |rooms| =>
        if rooms[k].roomId == updated.roomId then updated else rooms[k])
    else rooms + [updated]
  }

  lemma {:induction false} OthersOfReplaced(rooms: seq<Room>, updated: Room, r: seq<Room>)
    requires |r| == |rooms|
    requires forall k :: 0 <= k < |rooms| ==>
      r[k] == if rooms[k].roomId == updated.roomId then updated else rooms[k]
    ensures Others(r, updated.roomId) == Others(rooms, updated.roomId)
  {
    if rooms != [] {
      OthersOfReplaced(rooms[..|rooms| - 1], updated, r[..|r| - 1]);
    }
  }

  lemma {:induction false} OthersOfAppended(rooms: seq<Room>, updated: Room)
    ensures Others(rooms + [updated], updated.roomId) == Others(rooms, updated.roomId)
  {
    assert (rooms + [updated])[..|rooms|] == rooms;
  }

  /** The rooms with another id keep their values and their relative order. */
  lemma UpsertKeepsOthers(rooms: seq<Room>, updated: Room)
    ensures Others(Upsert(rooms, updated), updated.roomId) == Others(rooms, updated.roomId)
  {
    if HasRoom(rooms, updated.roomId) {
      OthersOfReplaced(rooms, updated, Upsert(rooms, updated));
    } else {
      OthersOfAppended(rooms, updated);
    }
  }

  /**
   * Unique room ids stay unique, and afterwards the updated room is listed,
   * so by uniqueness exactly once under its id.
   */
  lemma UpsertKeepsIdsUnique(rooms: seq<Room>, updated: Room)
    requires UniqueIds(rooms)
    ensures UniqueIds(Upsert(rooms, updated))
    ensures updated in Upsert(rooms, updated)
  {
    var r := Upsert(rooms, updated);
    if HasRoom(rooms, updated.roomId) {
      var k :| 0 <= k < |rooms| && rooms[k].roomId == updated.roomId;
      assert r[k] == updated;
    } else {
      assert r[|rooms|] == updated;
    }
  }

  /** After an update exactly the ids listed before and the updated room's id are listed. */
  lemma UpsertListsIds(rooms: seq<Room>, updated: Room, roomId: RoomId)
    ensures HasRoom(Upsert(rooms, updated), roomId) <==> HasRoom(rooms, roomId) || roomId == updated.roomId
  {
    var r := Upsert(rooms, updated);
    if HasRoom(rooms, roomId) {
      var k :| 0 <= k < |rooms| && rooms[k].roomId == roomId;
      assert r[k].roomId == roomId;
    }
    if roomId == updated.roomId && !HasRoom(rooms, roomId) {
      assert r[|rooms|].roomId == roomId;
    }
    if HasRoom(r, roomId) {
      var k :| 0 <= k < |r| && r[k].roomId == roomId;
      if k < |rooms| && rooms[k].roomId != updated.roomId {
        assert rooms[k].roomId == roomId;
      }
    }
  }

  /** Receiving the same room update twice has the effect of receiving it once. */
  lemma UpsertIdempotent(rooms: seq<Room>, updated: Room)
    ensures Upsert(Upsert(rooms, updated), updated) == Upsert(rooms, updated)
  {
    var r := Upsert(rooms, updated);
    if !HasRoom(rooms, updated.roomId) {
      assert r[|rooms|].roomId == updated.roomId;
    }
    assert HasRoom(r, updated.roomId);
  }

  class Lobby {
    const guestName: UserId
    var rooms: seq<Room>
    var roomName: string
    var hasClient: bool
    var subscriptions: seq<Topic>
    var outbox: seq<Destination>

    constructor (guestName: UserId)
      ensures this.guestName == guestName
      ensures rooms == [] && roomName == "" && !hasClient && subscriptions == [] && outbox == []
    {
      this.guestName := guestName;
      rooms := [];
      roomName := "";
      hasClient := false;
      subscriptions := [];
      outbox := [];
    }

    /** The mount effect: the client is created, activated and kept in state. */
    method Mount()
      modifies this`hasClient
      ensures hasClient
    {
      hasClient := true;
    }

    /** The client's connect callback: subscribe to room updates. */
    method OnConnect()
      modifies this`subscriptions
      ensures subscriptions == old(subscriptions) + [RoomsTopic]
    {
      subscriptions := subscriptions + [RoomsTopic];
    }

    /** A room pushed on `/topic/rooms` is upserted into the list. */
    method OnRoomUpdate(updated: Room)
      modifies this`rooms
      ensures rooms == Upsert(old(rooms), updated)
    {
      rooms := Upsert(rooms, updated);
    }

    /**
     * The end of `fetchRooms`: a parsed body (Some) replaces the list
     * wholesale; a failed request or an unparsable body (None) is only
     * logged and leaves the list as it was.
     */
    method OnFetchRooms(response: Option<seq<Room>>)
      modifies this`rooms
      ensures rooms == if response.Some? then response.value else old(rooms)
    {
      if response.Some? {
        rooms := response.value;
      }
    }

    /** Typing in the room-name input. */
    method SetRoomName(name: string)
      modifies this`roomName
      ensures roomName == name
    {
      roomName := name;
    }

    /** Create: with a client, publish the typed name, this guest as user and eight seats. */
    method CreateRoom()
      modifies this`outbox
      ensures outbox == old(outbox) + (if hasClient then [Destination.CreateRoom(roomName, guestName, DefaultMaxPlayers)] else [])
    {
      if hasClient {
        outbox := outbox + [Destination.CreateRoom(roomName, guestName, DefaultMaxPlayers)];
      }
    }

    /** Join: with a client, publish the room id and this guest as user. */
    method JoinRoom(roomId: RoomId)
      modifies this`outbox
      ensures outbox == old(outbox) + (if hasClient then [Destination.JoinRoom(roomId, guestName)] else [])
    {
      if hasClient {
        outbox := outbox + [Destination.JoinRoom(roomId, guestName)];
      }
    }

    /**
     * A click on the action button of row `row`: a joinable room shows an
     * enabled Join button that requests to join it; a full room shows a
     * disabled button and the click does nothing.
     */
    method ClickAction(row: nat)
      requires row < |rooms|
      modifies this`outbox
      ensures outbox == old(outbox) +
        (if rooms[row].isJoinable && hasClient then [Destination.JoinRoom(rooms[row].roomId, guestName)] else [])
    {
      if rooms[row].isJoinable {
        JoinRoom(rooms[row].roomId);
      }
    }
  }
}
