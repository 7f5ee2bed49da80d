/** The browser's game client (static/game.js): the held-keys table, the
    move messages it sends, the lobby's join button, and the client state
    the server's `room_joined`, `game_state` and `win` messages overwrite.
    Every `socket.emit` is recorded in `log`. */
module Game {
  import opened Protocol

  /** Messages the game client emits. */
  datatype ClientEmit =
    | Move(room: RoomId, vx: int, jump: bool)
    | JoinRoom(nickname: string, room: string)

  /** The payload of `game_state`: the room's players in the server's order,
      the key, the door and the platforms. */
  datatype StatePayload = StatePayload(players: seq<Player>, key: Key, door: Door, platforms: seq<Platform>)

  /** A key counts as held when its entry is present and true (an absent
      entry is `undefined`, which is falsy). */
  predicate Held(keys: map<string, bool>, k: string)
  {
    k in keys && keys[k]
  }

  predicate LeftHeld(keys: map<string, bool>)
  {
    Held(keys, "ArrowLeft") || Held(keys, "a")
  }

  predicate RightHeld(keys: map<string, bool>)
  {
    Held(keys, "ArrowRight") || Held(keys, "d")
  }

  /** The horizontal velocity a move asks for: left alone gives -5, right
      alone gives 5, and both or neither cancel out. */
  function Velocity(keys: map<string, bool>): (vx: int)
    ensures vx == -5 <==> LeftHeld(keys) && !RightHeld(keys)
    ensures vx == 5 <==> RightHeld(keys) && !LeftHeld(keys)
    ensures vx == 0 <==> (LeftHeld(keys) <==> RightHeld(keys))
  {
    (if LeftHeld(keys) then -5 else 0) + (if RightHeld(keys) then 5 else 0)
  }

  /** What one call of sendMove emits: nothing before a room is joined,
      otherwise one move for that room with the held keys' velocity and
      whether the space bar is held. */
  function MoveFor(myRoom: Option<RoomId>, keys: map<string, bool>): (e: seq<ClientEmit>)
    ensures e == [] <==> !Truthy(myRoom)
    ensures |e| <= 1
    ensures e != [] ==>
      && e[0].Move? && e[0].room == myRoom.value
      && e[0].vx == Velocity(keys) && e[0].vx in {-5, 0, 5}
      && (e[0].jump <==> Held(keys, " "))
  {
    if Truthy(myRoom) then [Move(myRoom.value, Velocity(keys), Held(keys, " "))] else []
  }

  /** The code points JavaScript's `String.prototype.trim` strips: the
      white-space and line-terminator characters of ECMAScript (tab, line
      feed, vertical tab, form feed, carriage return, space, no-break space,
      the space separators of Unicode, the line and paragraph separators,
      and the byte-order mark). */
  const JS_SPACE: set<int> := {
    0x09, 0x0A, 0x0B, 0x0C, 0x0D, 0x20, 0xA0, 0x1680,
    0x2000, 0x2001, 0x2002, 0x2003, 0x2004, 0x2005, 0x2006, 0x2007, 0x2008, 0x2009, 0x200A,
    0x2028, 0x2029, 0x202F, 0x205F, 0x3000, 0xFEFF }

  predicate IsJsSpace(c: char)
  {
    c as int in JS_SPACE
  }

  /** How many white-space characters `s` starts with. */
  function LeadingSpaces(s: string): (k: nat)
    ensures k <= |s|
    ensures forall i :: 0 <= i < k ==> IsJsSpace(s[i])
    ensures k == |s| || !IsJsSpace(s[k])
    decreases |s|
  {
    if s != [] && IsJsSpace(s[0]) then
      var k := LeadingSpaces(s[1..]);
      assert forall i :: 1 <= i <= k ==> s[i] == s[1..][i - 1];
      1 + k
    else 0
  }

  /** Where the white space that `s` ends with begins. */
  function TrailingStart(s: string): (k: nat)
    ensures k <= |s|
    ensures forall i :: k <= i < |s| ==> IsJsSpace(s[i])
    ensures k == 0 || !IsJsSpace(s[k - 1])
    decreases |s|
  {
    if s != [] && IsJsSpace(s[|s| - 1]) then TrailingStart(s[..|s| - 1]) else |s|
  }

  /** `String.prototype.trim`: the slice of `s` that neither starts nor ends
      with white space and has only white space around it. */
  function Trim(s: string): (r: string)
    ensures var a := LeadingSpaces(s);
      && a + |r| <= |s| && r == s[a..a + |r|]
      && (forall i :: a + |r| <= i < |s| ==> IsJsSpace(s[i]))
    ensures r == [] || (!IsJsSpace(r[0]) && !IsJsSpace(r[|r| - 1]))
  {
    var a := LeadingSpaces(s);
    var b := TrailingStart(s);
    if b <= a then [] else s[a..b]
  }

  /** A trimmed string is empty exactly when the input is all white space;
      this is the join button's empty-nickname test. */
  lemma TrimBlank(s: string)
    ensures Trim(s) == "" <==> forall i :: 0 <= i < |s| ==> IsJsSpace(s[i])
  {
  }

  /** Trimming twice trims nothing more. */
  lemma TrimIdempotent(s: string)
    ensures Trim(Trim(s)) == Trim(s)
  {
  }

  class GameClient {
    var myRoom: Option<RoomId>
    var myColor: Option<string>
    var myNickname: Option<string>
    /** The `keys` table: which keys are held. */
    var keys: map<string, bool>
    var players: seq<Player>
    var key: Option<Key>
    var door: Option<Door>
    /** Whether the win message is shown. */
    var win: bool
    var platforms: seq<Platform>
    /** Every message emitted so far. */
    var log: seq<ClientEmit>

    /** The page's initial state: in the lobby, no keys held, nothing drawn. */
    constructor ()
      ensures myRoom == None && myColor == None && myNickname == None
      ensures keys == map[] && players == [] && key == None && door == None
      ensures !win && platforms == [] && log == []
    {
      myRoom := None;
      myColor := None;
      myNickname := None;
      keys := map[];
      players := [];
      key := None;
      door := None;
      win := false;
      platforms := [];
      log := [];
    }

    /** sendMove: in a room, emit one move with the velocity built up from
        the held arrow keys and the jump flag of the space bar. */
    method SendMove()
      modifies this
      ensures log == old(log) + MoveFor(myRoom, keys)
      ensures myRoom == old(myRoom) && myColor == old(myColor) && myNickname == old(myNickname)
      ensures keys == old(keys) && players == old(players) && key == old(key) && door == old(door)
      ensures win == old(win) && platforms == old(platforms)
    {
      if myRoom.None? || myRoom.value == "" {
        return;
      }
      var vx := 0;
      if Held(keys, "ArrowLeft") || Held(keys, "a") {
        vx := vx - 5;
      }
      if Held(keys, "ArrowRight") || Held(keys, "d") {
        vx := vx + 5;
      }
      var jump := Held(keys, " ");
      log := log + [Move(myRoom.value, vx, jump)];
    }

    /** The keydown listener: mark the key held, then send a move. */
    method KeyDown(k: string)
      modifies this
      ensures keys == old(keys)[k := true]
      ensures log == old(log) + MoveFor(myRoom, keys)
      ensures myRoom == old(myRoom) && myColor == old(myColor) && myNickname == old(myNickname)
      ensures players == old(players) && key == old(key) && door == old(door)
      ensures win == old(win) && platforms == old(platforms)
    {
      keys := keys[k := true];
      SendMove();
    }

    /** The keyup listener: mark the key released, then send a move. */
    method KeyUp(k: string)
      modifies this
      ensures keys == old(keys)[k := false]
      ensures log == old(log) + MoveFor(myRoom, keys)
      ensures myRoom == old(myRoom) && myColor == old(myColor) && myNickname == old(myNickname)
      ensures players == old(players) && key == old(key) && door == old(door)
      ensures win == old(win) && platforms == old(platforms)
    {
      keys := keys[k := false];
      SendMove();
    }

    /** The join button: trim both inputs; without a nickname nothing is
        sent, otherwise a join request with the trimmed nickname and room. */
    method JoinClicked(nicknameInput: string, roomInput: string)
      modifies this
      ensures Trim(nicknameInput) == "" ==> log == old(log)
      ensures Trim(nicknameInput) != "" ==> log == old(log) + [JoinRoom(Trim(nicknameInput), Trim(roomInput))]
      ensures myRoom == old(myRoom) && myColor == old(myColor) && myNickname == old(myNickname)
      ensures keys == old(keys) && players == old(players) && key == old(key) && door == old(door)
      ensures win == old(win) && platforms == old(platforms)
    {
      var nickname := Trim(nicknameInput);
      var room := Trim(roomInput);
      if nickname == "" {
        return;
      }
      log := log + [JoinRoom(nickname, room)];
    }

    /** The `room_joined` handler: remember the room, colour and nickname
        the server assigned. */
    method RoomJoined(room: RoomId, color: string, nickname: Option<string>)
      modifies this
      ensures myRoom == Some(room) && myColor == Some(color) && myNickname == nickname
      ensures keys == old(keys) && players == old(players) && key == old(key) && door == old(door)
      ensures win == old(win) && platforms == old(platforms) && log == old(log)
    {
      myRoom := Some(room);
      myColor := Some(color);
      myNickname := nickname;
    }

    /** The `game_state` handler: replace the players, the key, the door and
        the platforms with the payload's, and hide the win message. */
    method GameStateArrived(state: StatePayload)
      modifies this
      ensures players == state.players && key == Some(state.key) && door == Some(state.door)
      ensures platforms == state.platforms && !win
      ensures myRoom == old(myRoom) && myColor == old(myColor) && myNickname == old(myNickname)
      ensures keys == old(keys) && log == old(log)
    {
      players := state.players;
      key := Some(state.key);
      door := Some(state.door);
      platforms := state.platforms;
      win := false;
    }

    /** The `win` handler: show the win message. */
    method WinArrived()
      modifies this
      ensures win
      ensures myRoom == old(myRoom) && myColor == old(myColor) && myNickname == old(myNickname)
      ensures keys == old(keys) && players == old(players) && key == old(key) && door == old(door)
      ensures platforms == old(platforms) && log == old(log)
    {
      win := true;
    }
  }
}
