/**
 * The application shell (src/App.js): the guest identity kept in session
 * storage, the shared STOMP client, and the screen switch between the lobby
 * and the waiting room. Session storage is a map from keys to strings, and
 * `Math.random()` is a supplied draw in [0, 1).
 */
module AppShell {
  import opened Wrappers
  import opened Messaging

  const GuestKey := "guestName"
  const GuestPrefix := "GUEST_"

  function Pow10(k: nat): nat {
    if k == 0 then 1 else 10 * Pow10(k - 1)
  }

  predicate AllDigits(s: string) {
    forall k :: 0 <= k < |s| ==> '0' <= s[k] <= '9'
  }

  /** The decimal numeral of n, as a template literal renders an integer. */
  function Decimal(n: nat): (s: string)
    ensures |s| >= 1 && AllDigits(s)
    decreases n
  {
    var last := ('0' as int + n % 10) as char;
    if n < 10 then [last] else Decimal(n / 10) + [last]
  }

  /** The value of a numeral. */
  function ParseDecimal(s: string): nat
    requires AllDigits(s)
  {
    if s == [] then 0
    else ParseDecimal(s[..|s| - 1]) * 10 + (s[|s| - 1] as int - '0' as int)
  }

  lemma {:induction false} DecimalRoundTrip(n: nat)
    ensures ParseDecimal(Decimal(n)) == n
    decreases n
  {
    if n >= 10 {
      DecimalRoundTrip(n / 10);
      assert Decimal(n)[..|Decimal(n)| - 1] == Decimal(n / 10);
    }
  }

  /** A number with w digits has a numeral of length w. */
  lemma {:induction false} DecimalLength(n: nat, w: nat)
    requires w >= 1 && (w == 1 || Pow10(w - 1) <= n) && n < Pow10(w)
    ensures |Decimal(n)| == w
  {
    if w > 1 {
      DecimalLength(n / 10, w - 1);
    }
  }

  /** `Math.floor(10000 + Math.random() * 90000)`. */
  function GuestNumber(random: real): (n: int)
    requires 0.0 <= random < 1.0
    ensures 10000 <= n <= 99999
  {
    (10000.0 + random * 90000.0).Floor
  }

  /** `GUEST_${randomNumber}`: the prefix followed by a non-empty numeral. */
  function GenerateGuestName(random: real): (name: string)
    requires 0.0 <= random < 1.0
    ensures |name| > |GuestPrefix| && name[..|GuestPrefix|] == GuestPrefix
    ensures AllDigits(name[|GuestPrefix|..])
  {
    GuestPrefix + Decimal(GuestNumber(random))
  }

  /**
   * A generated name is "GUEST_" followed by five digits that spell a
   * number in 10000..99999, the one drawn.
   */
  lemma GuestNameShape(random: real)
    requires 0.0 <= random < 1.0
    ensures var name := GenerateGuestName(random);
      && |name| == 11 && name[..6] == GuestPrefix && AllDigits(name[6..])
      && ParseDecimal(name[6..]) == GuestNumber(random)
      && 10000 <= ParseDecimal(name[6..]) <= 99999
  {
    var n := GuestNumber(random);
    assert Pow10(4) == 10000 by {
      assert Pow10(1) == 10 && Pow10(2) == 100 && Pow10(3) == 1000;
    }
    assert Pow10(5) == 100000;
    DecimalLength(n, 5);
    DecimalRoundTrip(n);
    assert GenerateGuestName(random)[6..] == Decimal(n);
  }

  /** Session storage holds a usable name: present and not the empty string. */
  predicate HasStoredName(storage: map<string, string>) {
    GuestKey in storage && storage[GuestKey] != ""
  }

  /**
   * The mount effect's get-or-create: a stored name is reused and storage is
   * left alone; otherwise a name is generated and stored under the key.
   */
  function GuestNameFor(storage: map<string, string>, random: real): (r: (string, map<string, string>))
    requires 0.0 <= random < 1.0
    ensures r.0 != "" && HasStoredName(r.1) && r.1[GuestKey] == r.0
    ensures HasStoredName(storage) ==> r == (storage[GuestKey], storage)
    ensures !HasStoredName(storage) ==> r.0 == GenerateGuestName(random) && r.1 == storage[GuestKey := r.0]
  {
    if HasStoredName(storage) then (storage[GuestKey], storage)
    else
      var name := GenerateGuestName(random);
      (name, storage[GuestKey := name])
  }

  /** A second initialisation in the same session returns the same name and stores nothing new. */
  lemma SecondInitReusesName(storage: map<string, string>, first: real, second: real)
    requires 0.0 <= first < 1.0 && 0.0 <= second < 1.0
    ensures GuestNameFor(GuestNameFor(storage, first).1, second) == GuestNameFor(storage, first)
  {
  }

  datatype Screen = Lobby | WaitingRoom | AppleGame

  /** What the shell renders. */
  datatype View = Loading | LobbyView | WaitingRoomView(roomInfo: Option<Room>) | AppleGameView

  class App {
    var currentRoom: Option<Room>
    var currentScreen: Screen
    var guestName: string
    var storage: map<string, string>
    var hasClient: bool
    var clientActive: bool

    /**
     * Only the lobby and the waiting room are ever shown, a room is current
     * exactly while the waiting room is, and once the guest name is set (so
     * that a screen is rendered) the client exists.
     */
    ghost predicate Valid()
      reads this
    {
      && currentScreen != AppleGame
      && (currentScreen == WaitingRoom <==> currentRoom.Some?)
      && (guestName != "" ==> hasClient)
    }

    constructor (storage: map<string, string>)
      ensures Valid()
      ensures currentScreen == Lobby && currentRoom == None && guestName == ""
      ensures this.storage == storage && !hasClient && !clientActive
    {
      currentRoom := None;
      currentScreen := Lobby;
      guestName := "";
      this.storage := storage;
      hasClient := false;
      clientActive := false;
    }

    /** The mount effect: get or create the guest name, then create the client. */
    method Mount(random: real)
      requires Valid() && 0.0 <= random < 1.0
      modifies this`guestName, this`storage, this`hasClient
      ensures Valid()
      ensures (guestName, storage) == GuestNameFor(old(storage), random)
      ensures hasClient
    {
      var stored := if GuestKey in storage then storage[GuestKey] else "";
      if stored == "" {
        stored := GenerateGuestName(random);
        storage := storage[GuestKey := stored];
      }
      guestName := stored;
      hasClient := true;
    }

    /** `joinRoom(room)`: activate the client and show the waiting room of `room`. */
    method JoinRoom(room: Room)
      requires Valid() && hasClient
      modifies this`clientActive, this`currentRoom, this`currentScreen
      ensures Valid()
      ensures clientActive && currentRoom == Some(room) && currentScreen == WaitingRoom
    {
      clientActive := true;
      currentRoom := Some(room);
      currentScreen := WaitingRoom;
    }

    /** `leaveRoom()`: deactivate the client and go back to the lobby with no room. */
    method LeaveRoom()
      requires Valid() && hasClient
      modifies this`clientActive, this`currentRoom, this`currentScreen
      ensures Valid()
      ensures !clientActive && currentRoom == None && currentScreen == Lobby
    {
      clientActive := false;
      currentRoom := None;
      currentScreen := Lobby;
    }

    /**
     * The rendered screen: nothing but a loading line until the guest name
     * is set; after that the current screen, which is never the game, and
     * whose join and leave callbacks find the client in place.
     */
    function Render(): (v: View)
      reads this
      ensures v == Loading <==> guestName == ""
      ensures Valid() ==> !v.AppleGameView?
      ensures Valid() && v.WaitingRoomView? ==> v.roomInfo.Some?
      ensures Valid() && v != Loading ==> hasClient
    {
      if guestName == "" then Loading
      else match currentScreen
        case Lobby => LobbyView
        case WaitingRoom => WaitingRoomView(currentRoom)
        case AppleGame => AppleGameView
    }
  }
}
