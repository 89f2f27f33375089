# Apple game — a Dafny model of the puzzle engine and the room flow

This project models the browser client of a multiplayer "apple game". The
board is a 20 × 15 grid of digits stored row-major in a sequence of 300
values; 0 marks a removed apple. A player drags a rectangle over the board.
When the selected values add up to exactly 10, the selection is accepted.
The score then grows by the number of selected cells, and the cells shrink
over eleven animation ticks before they are set to 0. Around the game,
players browse rooms in a lobby and wait in a waiting room. The model also
covers how each screen updates its own state from pushed messages and from
the user's actions.

Modules (one per source component, plus shared definitions):

- `Wrappers`: `Option`.
- `Messaging`: the room record, the subscribed topics and the published destinations as datatypes.
- `Cells`: grid values shared by both game versions: board total, selection sum, removal of indices.
- `Geometry`: the canvas constants, the normalised drag rectangle, and the two hit tests.
  The multiplayer game tests the apple's circle against the rectangle. The single-player game tests the apple's centre point.
- `Puzzle`: class `Board` holds the pointer-handler state both game versions share.
  Class `Animation` is one running removal animation and its frame counter.
- `SoloGame`: `src/AppleGame.js`. The grid generator and the mounted board.
- `Multiplayer`: `src/components/AppleGame.js`. The one-shot setup effect, its subscriptions and cleanup, the host check, the inbound handlers and the removal publish.
- `LobbyScreen`, `WaitingRoomScreen`, `AppShell`: `src/components/Lobby.js`, `src/components/WaitingRoom.js` and `src/App.js`.

How the model represents the program:

- Each handler is a method that runs to completion.
- A `setState(prev => …)` updater is applied at the call, in order.
- Publishes and subscriptions are appended to a log field (`outbox`, `subscriptions`, `log`).
- `Math.random()` becomes supplied draws in [0, 1).
- Animation scales are exact reals.
- Pointer coordinates are integers.

## Behaviour as written

The model keeps these behaviours of the code as they are, including where
they differ from what the game's rules or its user interface suggest:

- The hit test ignores cell values. Removed cells are selected, and they count toward the score (`Puzzle.RemovedCellScenario`).
- A selection may overlap cells that are still animating. Nothing prevents it.
- `WaitingRoom.startGame` publishes with no host check. The only host check is the start-countdown request in the game's setup effect.
- A leave request that throws is only logged. The player stays in the waiting room and sees no message.
- `fetchRooms` does not check the HTTP status. Any parsed body replaces the room list.
- Nothing sets the screen to `"AppleGame"`.
- `Lobby` never calls the `onJoinRoom` prop it is given. Only `App.joinRoom` switches to the waiting room.
- The generator's `total === 0` test can never reject a drawn board, because a board of 300 digits in 1..9 totals at least 300.
- A selection index outside the grid reads `undefined`, and the sum becomes NaN. The model returns `None` there, so such a selection is never accepted.

## Model

| member | source | states |
|---|---|---|
| Cells.DigitTotalBounds | src/AppleGame.js:13-16 | a board of digits 1..9 totals between its length and nine times its length |
| Cells.Total | src/AppleGame.js:16 | the total of a grid whose cells hold 0..9 lies between 0 and nine times its length |
| Cells.SelectionSum | src/components/AppleGame.js:213 | the sum is defined exactly when every selected index lies inside the grid; an index outside it gives NaN (None) |
| Cells.IsMatch | src/components/AppleGame.js:213-214 | a match is never the empty selection and never reaches outside the grid (an out-of-range index gives NaN, which is not 10) |
| Cells.MatchNeedsTwoCells | src/components/AppleGame.js:213-214 | over cells holding 0..9, a selection summing to 10 has at least two indices, though the rule sets no size floor |
| Cells.ZeroOut | src/components/AppleGame.js:65-67 | the grid keeps its length; exactly the listed indices become 0 and every other cell keeps its value |
| Cells.RemovalsConverge | src/components/AppleGame.js:61-68 | two removal batches give the same grid in either order, and a batch applied twice (the server echoing a client's own removal) changes nothing |
| Cells.RemovalsKeepDigits | src/AppleGame.js:89 | any sequence of removals keeps the grid length and every cell within 0..9 |
| Cells.TotalAfterRemoval | src/AppleGame.js:87-89 | removing a selection of distinct in-grid indices, in any order, lowers the board total by exactly the selection's sum (every hit-test selection is strictly increasing, hence distinct) |
| Cells.MatchKeepsTotalMultipleOfTen | src/AppleGame.js:12 | after an accepted match of distinct indices, in any order, is removed, the total drops by 10 and stays a multiple of 10 |
| Geometry.DragArea | src/components/AppleGame.js:185-190 | the drag area has non-negative width and height, contains the drag start and the current point, and lies inside every rectangle that contains both |
| Geometry.HitTest | src/components/AppleGame.js:193-207 | the selection is strictly increasing and every index lies in [0, number of cells) |
| Geometry.HitTestSelects | src/components/AppleGame.js:195-202 | index i is selected iff its circle (centre (i mod 20)·50+125, (i div 20)·50+125, radius 20) reaches the rectangle on both axes, whatever the cell's value |
| Geometry.CircleTouchesGrownArea | src/components/AppleGame.js:197-202 | the circle test holds iff the padded centre lies in the drag rectangle widened by the radius 20 on every side |
| Geometry.IndicesWhereMembers | src/AppleGame.js:121-135 | for either rule, index i is selected iff the rule hits it; for the single-player rule that means its centre ((i mod 20)·50+25, (i div 20)·50+25) lies in the closed rectangle |
| Geometry.CentreHitIsCircleHit | src/AppleGame.js:123-130 | the same drag on each canvas: every cell whose centre the single-player test finds inside is also touched by the multiplayer circle test |
| Geometry.HitTestMonotone | src/components/AppleGame.js:197-202 | enlarging the rectangle never removes an index from the selection |
| Puzzle.Scale | src/components/AppleGame.js:141 | the scale at frame 0..10 lies in [0, 1]; it is 1 only at frame 0 and 0 only at frame 10 |
| Puzzle.SetScale | src/components/AppleGame.js:138-144 | every animated index maps to the frame's scale; every other entry is unchanged and none is added |
| Puzzle.WithoutKeys | src/components/AppleGame.js:154-158 | the animated indices lose their entries and every other entry is unchanged |
| Puzzle.RescaleOverwrites | src/components/AppleGame.js:138-144 | a later tick's scales replace the earlier tick's on the same indices |
| Puzzle.AnimationLeavesNoTrace | src/components/AppleGame.js:150-158 | after the entries are deleted, the map is as if the animation had never written it |
| Puzzle.Board.constructor | src/components/AppleGame.js:23-31 | a board starts with the given grid, no selection, no drag, no animation entries and score 0 |
| Puzzle.Board.MouseDown | src/components/AppleGame.js:171-178 | a new drag starts at the point, with a zero-size area there and an empty selection |
| Puzzle.Board.MouseMove | src/components/AppleGame.js:180-210 | while dragging, the area is the normalised rectangle and the selection is its hit test; without a drag nothing changes |
| Puzzle.Board.MouseUp | src/components/AppleGame.js:212-222 | an animation starts iff the selected values sum to exactly 10, and then the score rises by the selection's length; grid and animation map are untouched; selection, drag area and drag start are cleared in both cases |
| Puzzle.Animation.constructor | src/components/AppleGame.js:136 | an animation starts at frame 0 over the given indices |
| Puzzle.Animation.Tick | src/components/AppleGame.js:137-168 | each tick writes scale 1 − frame/10 on every animated index and advances the frame; the tick past frame 10 zeroes the animated cells, deletes their entries and returns exactly those indices |
| Puzzle.Animation.Run | src/components/AppleGame.js:135-169 | after eleven uninterrupted ticks every animated index is 0 with no entry, all other cells and entries are unchanged, and exactly the animated indices are returned |
| Puzzle.AcceptedMatchScenario | src/components/AppleGame.js:193-222 | on grid [3, 3, 4, 0], a drag over the first three apples selects [0, 1, 2], scores 3, and leaves those cells 0 after the animation |
| Puzzle.RejectedMatchScenario | src/components/AppleGame.js:212-222 | a drag over the first two apples (sum 6) is rejected, and grid and score are unchanged; the selection is cleared |
| Puzzle.RemovedCellScenario | src/components/AppleGame.js:193-217 | a drag that also covers a removed cell still sums to 10 and scores 4, counting the removed cell |
| SoloGame.Digit | src/AppleGame.js:14 | each drawn value lies in 1..9 |
| SoloGame.DrawBoard | src/AppleGame.js:13-15 | a board has one digit in 1..9 per draw |
| SoloGame.AcceptableTotals | src/AppleGame.js:12 | for a non-negative total, the loop stops exactly when the total is a multiple of 10 that is at least 10 |
| SoloGame.GenerateApples | src/AppleGame.js:9-19 | the result is the first drawn board whose total is a non-zero multiple of 10, and every earlier board failed the test; None only when the draws run out first |
| SoloGame.GeneratedBoard | src/AppleGame.js:12-16 | an accepted board has 300 digits in 1..9, and its total is a multiple of 10 and at least 300 |
| SoloGame.Mount | src/AppleGame.js:21-28 | a board exists exactly when the generator returned a grid. It holds exactly that grid (300 digits, total a multiple of 10). It has no selection, no drag, no animation entry and score 0, and it uses the centre-point test |
| Multiplayer.Subscribed | src/components/AppleGame.js:39-69 | the setup records one live handle per subscribed topic, in subscription order |
| Multiplayer.Released | src/components/AppleGame.js:83 | the cleanup keeps every recorded handle but none stays live |
| Multiplayer.ReleasedHasNoLive | src/components/AppleGame.js:80-84 | after the cleanup no topic has a live subscription |
| Multiplayer.OneLivePerGameTopic | src/components/AppleGame.js:39-69 | one setup gives exactly one live subscription for each of the four game topics and none for any other topic |
| Multiplayer.GameRoom.constructor | src/components/AppleGame.js:17-31 | the screen starts uninitialised with no subscriptions, countdown 3, an empty grid and score 0 |
| Multiplayer.GameRoom.Setup | src/components/AppleGame.js:33-79 | a repeated run changes nothing and registers no cleanup. The first run subscribes to the four game topics, recording each handle in the list and at the client, and registers the cleanup. It publishes the start-countdown request iff this guest is the room's host |
| Multiplayer.GameRoom.Teardown | src/components/AppleGame.js:80-84 | the cleanup unsubscribes every recorded handle, in the list and at the client, and leaves `hasInitialized` set; afterwards no topic has a live handle at the client |
| Multiplayer.GameRoom.TeardownForRemount | src/components/AppleGame.js:80-84 | corrected cleanup: unsubscribes every handle at the client (none stays live there), empties the list and clears the guard |
| Multiplayer.GameRoom.LiveAtClientAreListed | src/components/AppleGame.js:39-83 | for every topic, the client has exactly as many live handles as the list holds live ones; every handle the list no longer holds has been unsubscribed |
| Multiplayer.GameRoom.OnCountdown | src/components/AppleGame.js:40-43 | the countdown shows the received seconds |
| Multiplayer.GameRoom.OnGameStart | src/components/AppleGame.js:47-50 | the countdown shows the raw start message body |
| Multiplayer.GameRoom.OnGameState | src/components/AppleGame.js:54-59 | the received grid replaces the local grid |
| Multiplayer.GameRoom.OnAppleUpdate | src/components/AppleGame.js:61-68 | the received indices are zeroed, and the grid's length and all other cells are kept |
| Multiplayer.GameRoom.AnimationTick | src/components/AppleGame.js:137-168 | one animation tick; the committing tick also publishes the removed indices iff the client is set |
| Multiplayer.GameRoom.FinishAnimation | src/components/AppleGame.js:135-169 | a whole animation zeroes the animated cells and deletes their entries, and then publishes exactly those indices once if the client is set |
| Multiplayer.SetupTwice | src/components/AppleGame.js:33-85 | running setup twice registers one cleanup. The client has exactly four handles, one live per game topic. Start-countdown is published once and only for the host |
| Multiplayer.StrictRemount | src/components/AppleGame.js:33-84 | as written, setup then cleanup then setup leaves the client with the first setup's four handles and none of them live, and no cleanup registered |
| Multiplayer.StrictRemountWithReset | src/components/AppleGame.js:33-84 | with the corrected cleanup, the client ends with eight handles and exactly one live per game topic, counting the released ones too, and a cleanup is registered |
| LobbyScreen.Upsert | src/components/Lobby.js:21-29 | a listed id: same length, and every entry with that id is replaced in place. An unlisted id: the room is appended at the end. Rooms with other ids are unchanged |
| LobbyScreen.UpsertKeepsOthers | src/components/Lobby.js:24-28 | the rooms with another id keep their values and relative order |
| LobbyScreen.UpsertListsIds | src/components/Lobby.js:22 | after an update, an id is listed iff it was listed before or is the updated room's id |
| LobbyScreen.UpsertKeepsIdsUnique | src/components/Lobby.js:21-29 | unique ids stay unique, and the updated room is listed, so it appears exactly once under its id |
| LobbyScreen.UpsertIdempotent | src/components/Lobby.js:21-29 | receiving the same update twice equals receiving it once |
| LobbyScreen.Lobby.constructor | src/components/Lobby.js:6-8 | the lobby starts with no rooms, an empty name and no client |
| LobbyScreen.Lobby.Mount | src/components/Lobby.js:37-38 | after mounting the client is set |
| LobbyScreen.Lobby.OnConnect | src/components/Lobby.js:15-18 | on connect the lobby subscribes to room updates |
| LobbyScreen.Lobby.OnRoomUpdate | src/components/Lobby.js:18-30 | a pushed room is upserted into the list |
| LobbyScreen.Lobby.OnFetchRooms | src/components/Lobby.js:52-60 | a parsed response replaces the list wholesale; a failure leaves it unchanged |
| LobbyScreen.Lobby.SetRoomName | src/components/Lobby.js:98 | the typed name is kept |
| LobbyScreen.Lobby.CreateRoom | src/components/Lobby.js:62-74 | publishes only with a client, sending the typed name, this guest as user and `maxPlayers` 8 |
| LobbyScreen.Lobby.JoinRoom | src/components/Lobby.js:77-88 | publishes only with a client, sending the room id and this guest as user |
| LobbyScreen.Lobby.ClickAction | src/components/Lobby.js:122-126 | a join request is sent only for a row whose room `isJoinable` (and only with a client); the Full button does nothing |
| WaitingRoomScreen.WaitingRoom.constructor | src/components/WaitingRoom.js:6-7 | the waiting room starts with no players, no client and an empty log |
| WaitingRoomScreen.WaitingRoom.Mount | src/components/WaitingRoom.js:31-32 | after mounting the client is set |
| WaitingRoomScreen.WaitingRoom.OnConnect | src/components/WaitingRoom.js:14-25 | subscribes to the roster topic, then publishes the roster refresh, in that order |
| WaitingRoomScreen.WaitingRoom.OnPlayers | src/components/WaitingRoom.js:17-21 | a roster message replaces the player list |
| WaitingRoomScreen.WaitingRoom.StartGame | src/components/WaitingRoom.js:43-48 | publishes the start request iff a client exists, with no host check |
| WaitingRoomScreen.WaitingRoom.LeaveRoom | src/components/WaitingRoom.js:50-71 | a non-ok response alerts and stays, without publishing or leaving. An ok response with a client publishes the roster refresh and then leaves to the lobby. A thrown error, or a missing client, stays silently |
| WaitingRoomScreen.ConnectThenLeave | src/components/WaitingRoom.js:14-66 | connect then an ok leave: the roster subscription precedes the first publish, and the refresh publish precedes `onLeaveRoom` |
| AppShell.Decimal | src/App.js:12 | the rendered number is a non-empty string of digits |
| AppShell.DecimalRoundTrip | src/App.js:12 | reading the rendered digits back gives the number |
| AppShell.DecimalLength | src/App.js:11-12 | a w-digit number renders as w characters |
| AppShell.GuestNumber | src/App.js:11 | the random suffix lies in 10000..99999 |
| AppShell.GenerateGuestName | src/App.js:10-13 | a generated name is "GUEST_" followed by a non-empty string of digits |
| AppShell.GuestNameShape | src/App.js:10-13 | a generated name is "GUEST_" and five digits, 11 characters, spelling the drawn number |
| AppShell.GuestNameFor | src/App.js:28-38 | the result is non-empty and stored under the key. A stored non-empty name is reused and storage is unchanged. Otherwise a new name is generated and stored |
| AppShell.SecondInitReusesName | src/App.js:30-36 | a second initialisation in the same session returns the same name and changes no storage |
| AppShell.App.constructor | src/App.js:17-26 | the app starts on the lobby with no room, an empty guest name and no client |
| AppShell.App.Mount | src/App.js:28-58 | the guest name and storage come from the get-or-create and the client is created, so a rendered screen always has its client |
| AppShell.App.JoinRoom | src/App.js:61-65 | activates the client and shows the waiting room of the given room |
| AppShell.App.LeaveRoom | src/App.js:68-72 | deactivates the client and returns to the lobby with no room |
| AppShell.App.Render | src/App.js:74-105 | shows "Loading" exactly while the guest name is empty. In a valid state it never shows the game, the waiting room always has a room, and any other screen has its client |

## Left out

- Canvas drawing, fonts and colours, JSX layout and console logging: rendering only.
- Audio playback (`playSound`): a browser API with no state in the model.
- STOMP/SockJS client construction and `activate`/`deactivate`: network I/O.
  Each client appears as a `hasClient` flag (or `clientActive` in `App`).
- Reconnection (`reconnectDelay`), `onDisconnect`, `onStompError` and `isConnected`: these only log or set flags the core never reads.
- Multiplayer.GameRoom.Setup: assumes each `stompClient.subscribe` succeeds.
  On an unconnected client the subscribe throws, after the guard is already set.
  Nothing is then subscribed, and the effect never runs again, since its dependency list is empty.
  The model does not capture that outcome.
- The STOMP client throwing on a publish while disconnected is not modelled.
  A publish with a client present always succeeds in the model.
- HTTP calls (`fetch`) are replaced by their outcome, passed as a parameter (`OnFetchRooms`, `LeaveRoom`).
- Delivering a message to every live subscription is not modelled. Handlers are called directly, and `LiveCount` says how many handlers a message on a topic would reach.
- Tick timing (`setInterval`, 30 ms) is a discrete `Tick`.
  `Run` and `FinishAnimation` run the eleven ticks with no other event in between.
  Interleavings appear only as separate `Tick` calls.
- React's scheduling of updaters: if React deferred an updater past `frame++`, it would read the incremented frame. The model evaluates each updater at its call.
- `Math.random()` is a supplied value or sequence in [0, 1).
- SoloGame.GenerateApples: the retries are bounded by the supplied draws and it returns `None` when they run out. The source retries without bound. SoloGame.Mount therefore yields no board when the draws run out.
- Pointer coordinates are integers. The source subtracts fractional client-rect offsets.
- The single-player mouse-down and mouse-move handlers are the same as the multiplayer ones except for the hit rule, so `Puzzle.Board` covers both through its `rule` field. The single-player board never publishes.
- `GameRoom` needs a client to run `Setup`, because the effect calls `stompClient.subscribe` without a guard.
- The unmount cleanups of `Lobby` and `WaitingRoom` only deactivate their clients, which is network I/O.
- Server-side behaviour (capacity checks, countdown generation, score reconciliation) is not part of this model.

## Findings

| source | as written | input that shows it | evidently intended | confidence | as-written member | corrected member |
|---|---|---|---|---|---|---|
| src/components/AppleGame.js:33-85 | the cleanup unsubscribes every recorded handle but leaves `hasInitialized` set, so when the effect runs again it returns before subscribing | React's development double run of effects: setup, cleanup, setup | the comment on lines 15-16 says the guard exists for this double run; after it each game topic should have one live subscription | medium, not executed; only when the app runs under React's StrictMode, which is set in a file not part of this model | Multiplayer.StrictRemount | Multiplayer.GameRoom.TeardownForRemount |
