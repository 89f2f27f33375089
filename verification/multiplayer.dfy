/**
 * The multiplayer game screen (src/components/AppleGame.js) around its
 * puzzle board: the one-shot setup effect guarded by `hasInitialized`, the
 * list of subscriptions it records and the cleanup that releases them, the
 * host-only start-countdown request, the inbound handlers that replace or
 * clear cells, and the publish of removed indices when an animation ends.
 * The STOMP client is the `stompClient` prop; `hasClient` says whether it is
 * set. Publishes are appended to `outbox`.
 */
module Multiplayer {
  import opened Wrappers
  import opened Messaging
  import opened Cells
  import opened Geometry
  import opened Puzzle

  /** A subscription handle: its topic and whether it is still live. */
  datatype Subscription = Subscription(topic: Topic, live: bool)

  /** What the countdown heading shows: parsed seconds, or the raw start message body. */
  datatype Countdown = Seconds(seconds: int) | StartBody(body: string)

  /** The topics the setup effect subscribes to, in order. */
  function GameTopics(roomId: RoomId): seq<Topic> {
    [CountdownTopic(roomId), GameStartTopic(roomId), GameStateTopic, AppleUpdateTopic]
  }

  /** Live subscription handles for the given topics. */
  function Subscribed(topics: seq<Topic>): (subs: seq<Subscription>)
    ensures |subs| == |topics|
    ensures forall k :: 0 <= k < |subs| ==> subs[k].topic == topics[k] && subs[k].live
  {
    seq(|topics|, k requires 0 <= k < |topics| => Subscription(topics[k], true))
  }

  /** `subscriptionsRef.current.forEach((sub) => sub.unsubscribe())` on the handle values. */
  function Released(subs: seq<Subscription>): (r: seq<Subscription>)
    ensures |r| == |subs|
    ensures forall k :: 0 <= k < |r| ==> r[k] == subs[k].(live := false)
  {
    seq(|subs|, k requires 0 <= k < |subs| => subs[k].(live := false))
  }

  /** The number of live handles on topic t: how many times a message on t is handled. */
  function LiveCount(subs: seq<Subscription>, t: Topic): nat {
    if subs == [] then 0
    else LiveCount(subs[..|subs| - 1], t) + (if subs[|subs| - 1].live && subs[|subs| - 1].topic == t then 1 else 0)
  }

  /** After the cleanup no handle is live, on any topic. */
  lemma {:induction false} ReleasedHasNoLive(subs: seq<Subscription>, t: Topic)
    ensures LiveCount(Released(subs), t) == 0
  {
    if subs != [] {
      assert Released(subs)[..|subs| - 1] == Released(subs[..|subs| - 1]);
      ReleasedHasNoLive(subs[..|subs| - 1], t);
    }
  }

  /** Live handles of a concatenation are the live handles of its two parts. */
  lemma {:induction false} LiveCountAppend(a: seq<Subscription>, b: seq<Subscription>, t: Topic)
    ensures LiveCount(a + b, t) == LiveCount(a, t) + LiveCount(b, t)
    decreases |b|
  {
    if b == [] {
      assert a + b == a;
    } else {
      assert (a + b)[..|a + b| - 1] == a + b[..|b| - 1];
      LiveCountAppend(a, b[..|b| - 1], t);
    }
  }

  /** Handles that are all released count for no topic. */
  lemma AllReleasedHasNoLive(subs: seq<Subscription>, t: Topic)
    requires forall k :: 0 <= k < |subs| ==> !subs[k].live
    ensures LiveCount(subs, t) == 0
  {
    assert subs == Released(subs);
    ReleasedHasNoLive(subs, t);
  }

  /** Released handles after released handles: nothing is live. */
  lemma NoLiveAfterRelease(prefix: seq<Subscription>, subs: seq<Subscription>, t: Topic)
    requires forall k :: 0 <= k < |prefix| ==> !prefix[k].live
    ensures LiveCount(prefix + Released(subs), t) == 0
  {
    LiveCountAppend(prefix, Released(subs), t);
    AllReleasedHasNoLive(prefix, t);
    ReleasedHasNoLive(subs, t);
  }

  /** One setup leaves exactly one live handle per game topic and none on any other topic. */
  lemma OneLivePerGameTopic(roomId: RoomId, t: Topic)
    ensures LiveCount(Subscribed(GameTopics(roomId)), t) == if t in GameTopics(roomId) then 1 else 0
  {
    var s := Subscribed(GameTopics(roomId));
    assert s == [Subscription(CountdownTopic(roomId), true), Subscription(GameStartTopic(roomId), true),
                 Subscription(GameStateTopic, true), Subscription(AppleUpdateTopic, true)];
    var c0 := if t == CountdownTopic(roomId) then 1 else 0;
    var c1 := if t == GameStartTopic(roomId) then 1 else 0;
    var c2 := if t == GameStateTopic then 1 else 0;
    var c3 := if t == AppleUpdateTopic then 1 else 0;
    assert s[..1][..0] == [];
    assert LiveCount(s[..1], t) == c0;
    assert s[..2][..1] == s[..1];
    assert LiveCount(s[..2], t) == c0 + c1;
    assert s[..3][..2] == s[..2];
    assert LiveCount(s[..3], t) == c0 + c1 + c2;
    assert s[..4][..3] == s[..3] && s[..4] == s;
    assert LiveCount(s, t) == c0 + c1 + c2 + c3;
  }

  class GameRoom {
    const guestName: UserId
    const room: Room
    const hasClient: bool
    const board: Board
    var countdown: Countdown
    var hasInitialized: bool
    var subscriptions: seq<Subscription>
    var issued: seq<Subscription>
    var outbox: seq<Destination>

    /**
     * `issued` is the client's side: every handle it has given this screen,
     * in order. `subscriptionsRef.current` holds the latest of them, and
     * every handle it no longer holds has been unsubscribed.
     */
    ghost predicate Valid()
      reads this, board
    {
      && board.Valid() && board.rule == CircleOverlap
      && (!hasInitialized ==> subscriptions == [])
      && |subscriptions| <= |issued|
      && subscriptions == issued[|issued| - |subscriptions|..]
      && (forall k :: 0 <= k < |issued| - |subscriptions| ==> !issued[k].live)
    }

    /**
     * Under Valid, for every topic the client has exactly as many live
     * handles as the list holds live ones: a handle the list no longer
     * holds has been unsubscribed.
     */
    lemma LiveAtClientAreListed(t: Topic)
      requires Valid()
      ensures LiveCount(issued, t) == LiveCount(subscriptions, t)
    {
      var off := |issued| - |subscriptions|;
      assert issued == issued[..off] + subscriptions;
      LiveCountAppend(issued[..off], subscriptions, t);
      AllReleasedHasNoLive(issued[..off], t);
    }

    constructor (guestName: UserId, room: Room, hasClient: bool)
      ensures Valid() && fresh(board)
      ensures this.guestName == guestName && this.room == room && this.hasClient == hasClient
      ensures board.apples == [] && board.score == 0 && board.animations == map[]
      ensures countdown == Seconds(3) && !hasInitialized && subscriptions == [] && issued == [] && outbox == []
    {
      this.guestName := guestName;
      this.room := room;
      this.hasClient := hasClient;
      board := new Board(CircleOverlap, []);
      countdown := Seconds(3);
      hasInitialized := false;
      subscriptions := [];
      issued := [];
      outbox := [];
    }

    /**
     * The setup effect. A second run returns at once and registers no
     * cleanup. The first run subscribes to the four game topics, records the
     * handles, and, only when this player is the room's host, publishes the
     * start-countdown request. It calls `stompClient.subscribe` unguarded, so
     * it needs the client.
     */
    method Setup() returns (cleanupRegistered: bool)
      requires Valid() && hasClient
      modifies this`hasInitialized, this`subscriptions, this`issued, this`outbox
      ensures Valid() && hasInitialized
      ensures cleanupRegistered == !old(hasInitialized)
      ensures old(hasInitialized) ==>
        subscriptions == old(subscriptions) && issued == old(issued) && outbox == old(outbox)
      ensures !old(hasInitialized) ==>
        && subscriptions == old(subscriptions) + Subscribed(GameTopics(room.roomId))
        && issued == old(issued) + Subscribed(GameTopics(room.roomId))
        && outbox == old(outbox) + (if room.hostUserId == guestName then [StartCountdown(room.roomId)] else [])
    {
      if hasInitialized {
        return false;
      }
      hasInitialized := true;
      subscriptions := subscriptions + Subscribed(GameTopics(room.roomId));
      issued := issued + Subscribed(GameTopics(room.roomId));
      if room.hostUserId == guestName {
        outbox := outbox + [StartCountdown(room.roomId)];
      }
      cleanupRegistered := true;
    }

    /**
     * The cleanup the first setup registers: unsubscribe every recorded
     * handle, at the client as well. The list keeps the handles and the
     * guard stays set. Afterwards no topic has a live handle at the client.
     */
    method Teardown()
      requires Valid()
      modifies this`subscriptions, this`issued
      ensures Valid()
      ensures subscriptions == Released(old(subscriptions))
      ensures issued == old(issued)[..|old(issued)| - |old(subscriptions)|] + subscriptions
      ensures forall t :: LiveCount(issued, t) == 0
    {
      var off := |issued| - |subscriptions|;
      var i := 0;
      while i < |subscriptions|
        invariant 0 <= i <= |subscriptions| == |old(subscriptions)|
        invariant |issued| == |old(issued)| && off == |issued| - |subscriptions|
        invariant issued == old(issued)[..off] + subscriptions
        invariant forall k :: 0 <= k < i ==> subscriptions[k] == old(subscriptions)[k].(live := false)
        invariant forall k :: i <= k < |subscriptions| ==> subscriptions[k] == old(subscriptions)[k]
      {
        subscriptions := subscriptions[i := subscriptions[i].(live := false)];
        issued := issued[off + i := subscriptions[i]];
        i := i + 1;
      }
      assert subscriptions == Released(old(subscriptions));
      forall t ensures LiveCount(issued, t) == 0 {
        NoLiveAfterRelease(old(issued)[..off], old(subscriptions), t);
      }
    }

    /**
     * A cleanup that also resets the guard: unsubscribe every handle, forget
     * them, and let the next setup subscribe again.
     */
    method TeardownForRemount()
      requires Valid()
      modifies this`subscriptions, this`issued, this`hasInitialized
      ensures Valid() && !hasInitialized && subscriptions == []
      ensures issued == old(issued)[..|old(issued)| - |old(subscriptions)|] + Released(old(subscriptions))
      ensures forall t :: LiveCount(issued, t) == 0
    {
      Teardown();
      subscriptions := [];
      hasInitialized := false;
    }

    /** `/topic/gameRoom/{id}/game/countdown`: show the parsed number of seconds. */
    method OnCountdown(seconds: int)
      modifies this`countdown
      ensures countdown == Seconds(seconds)
    {
      countdown := Seconds(seconds);
    }

    /** `/topic/gameRoom/{id}/game/start`: show the raw message body. */
    method OnGameStart(body: string)
      modifies this`countdown
      ensures countdown == StartBody(body)
    {
      countdown := StartBody(body);
    }

    /** `/topic/gameState`: the received grid replaces the local one wholesale. */
    method OnGameState(apples: seq<int>)
      requires Valid()
      modifies board`apples
      ensures Valid() && board.apples == apples
    {
      board.apples := apples;
    }

    /**
     * `/topic/appleUpdate`: the grid keeps its length, exactly the received
     * indices become 0 and every other cell is unchanged.
     */
    method OnAppleUpdate(removedIndices: seq<int>)
      requires Valid()
      modifies board`apples
      ensures Valid() && board.apples == ZeroOut(old(board.apples), removedIndices)
    {
      board.apples := ZeroOut(board.apples, removedIndices);
    }

    /**
     * One tick of a running removal animation; the tick that commits the
     * removal also publishes the removed indices when the client is set.
     */
    method AnimationTick(anim: Animation)
      requires Valid() && anim.frame <= LastFrame
      modifies anim`frame, board`apples, board`animations, this`outbox
      ensures Valid() && anim.frame == old(anim.frame) + 1
      ensures anim.frame <= LastFrame ==>
        && board.animations == SetScale(old(board.animations), anim.indices, Scale(old(anim.frame)))
        && board.apples == old(board.apples)
        && outbox == old(outbox)
      ensures anim.frame > LastFrame ==>
        && board.animations == WithoutKeys(SetScale(old(board.animations), anim.indices, Scale(old(anim.frame))), anim.indices)
        && board.apples == ZeroOut(old(board.apples), anim.indices)
        && outbox == old(outbox) + (if hasClient then [RemoveApples(anim.indices)] else [])
    {
      var removed := anim.Tick(board);
      if removed.Some? && hasClient {
        outbox := outbox + [RemoveApples(removed.value)];
      }
    }

    /**
     * A whole removal animation with no other event in between: the animated
     * cells end at 0 with no animation entry, everything else is unchanged,
     * and the one message published carries exactly the animated indices.
     */
    method FinishAnimation(anim: Animation)
      requires Valid() && anim.frame == 0
      modifies anim`frame, board`apples, board`animations, this`outbox
      ensures Valid()
      ensures board.apples == ZeroOut(old(board.apples), anim.indices)
      ensures board.animations == WithoutKeys(old(board.animations), anim.indices)
      ensures outbox == old(outbox) + (if hasClient then [RemoveApples(anim.indices)] else [])
    {
      var removed := anim.Run(board);
      if hasClient {
        outbox := outbox + [RemoveApples(removed)];
      }
    }
  }

  /**
   * Setup run twice with no cleanup in between, the idempotence the guard
   * gives: one registered cleanup, one live handle per game topic at the
   * client, and at most one start-countdown request.
   */
  method SetupTwice(guestName: UserId, room: Room) returns (issued: seq<Subscription>, cleanups: nat, published: seq<Destination>)
    ensures cleanups == 1 && |issued| == 4
    ensures forall t :: LiveCount(issued, t) == if t in GameTopics(room.roomId) then 1 else 0
    ensures published == if room.hostUserId == guestName then [StartCountdown(room.roomId)] else []
  {
    var game := new GameRoom(guestName, room, true);
    var first := game.Setup();
    var second := game.Setup();
    cleanups := (if first then 1 else 0) + (if second then 1 else 0);
    issued, published := game.issued, game.outbox;
    assert issued == Subscribed(GameTopics(room.roomId));
    forall t ensures LiveCount(issued, t) == if t in GameTopics(room.roomId) then 1 else 0 {
      OneLivePerGameTopic(room.roomId, t);
    }
  }

  /**
   * As written, under a development-mode remount (setup, cleanup, setup)
   * the second setup is skipped by the guard after the cleanup released
   * every handle: the client holds the four handles of the first setup,
   * none of them live, and no cleanup is registered for the remounted
   * component.
   */
  method StrictRemount(guestName: UserId, room: Room) returns (issued: seq<Subscription>, cleanupRegistered: bool)
    ensures |issued| == 4 && !cleanupRegistered
    ensures forall t :: LiveCount(issued, t) == 0
  {
    var game := new GameRoom(guestName, room, true);
    var first := game.Setup();
    game.Teardown();
    cleanupRegistered := game.Setup();
    issued := game.issued;
  }

  /**
   * With the resetting cleanup, the same remount leaves the client with the
   * four released handles of the first setup followed by four new ones:
   * exactly one live subscription per game topic, and a cleanup registered
   * again.
   */
  method StrictRemountWithReset(guestName: UserId, room: Room) returns (issued: seq<Subscription>, cleanupRegistered: bool)
    ensures cleanupRegistered && |issued| == 8
    ensures forall t :: LiveCount(issued, t) == if t in GameTopics(room.roomId) then 1 else 0
  {
    var game := new GameRoom(guestName, room, true);
    var first := game.Setup();
    game.TeardownForRemount();
    ghost var released := game.issued;
    cleanupRegistered := game.Setup();
    issued := game.issued;
    assert issued == released + Subscribed(GameTopics(room.roomId));
    forall t ensures LiveCount(issued, t) == if t in GameTopics(room.roomId) then 1 else 0 {
      LiveCountAppend(released, Subscribed(GameTopics(room.roomId)), t);
      OneLivePerGameTopic(room.roomId, t);
    }
  }
}
