/** The game server's table of rooms (app.py) and its three game handlers:
    join, move and disconnect. Every `emit` is recorded in `log`. */
module Server {
  import opened Protocol
  import opened Room

  /** Messages the server emits; `to` and `room` name the recipients. */
  datatype Emit =
    | RoomJoined(to: Sid, room: RoomId, nickname: Option<string>, color: string)
    | Win(room: RoomId)
    | GameState(room: RoomId)

  /** What `os.urandom(4).hex()` yields: eight lower-case hex digits. */
  predicate IsHexId(s: string)
  {
    |s| == 8 && forall i :: 0 <= i < |s| ==> s[i] in "0123456789abcdef"
  }

  /** The room a join lands in: the requested one when it is truthy,
      otherwise the freshly generated id; never the empty name. */
  function JoinTarget(requested: Option<string>, freshId: RoomId): (id: RoomId)
    requires IsHexId(freshId)
    ensures id != ""
    ensures Truthy(requested) ==> Some(id) == requested
    ensures !Truthy(requested) ==> id == freshId
  {
    if Truthy(requested) then requested.value else freshId
  }

  /** The guard of handle_move: a truthy room that exists and has the mover
      among its players. */
  predicate Accepts(rooms: map<RoomId, RoomState>, room: Option<RoomId>, sid: Sid)
  {
    Truthy(room) && room.value in rooms && sid in rooms[room.value].players
  }

  /** The first room, in the table's insertion order, that has `sid` among
      its players. */
  function FirstRoomWith(order: seq<RoomId>, rooms: map<RoomId, RoomState>, sid: Sid): (r: Option<RoomId>)
    requires forall i :: 0 <= i < |order| ==> order[i] in rooms
    ensures r.None? <==> forall i :: 0 <= i < |order| ==> sid !in rooms[order[i]].players
    ensures r.Some? ==> exists k :: (0 <= k < |order| && order[k] == r.value
      && sid in rooms[order[k]].players
      && forall i :: 0 <= i < k ==> sid !in rooms[order[i]].players)
  {
    if order == [] then None
    else if sid in rooms[order[0]].players then Some(order[0])
    else
      var rest := FirstRoomWith(order[1..], rooms, sid);
      assert forall i :: 1 <= i < |order| ==> order[i] == order[1..][i - 1];
      rest
  }

  /** The table invariant: `order` lists every room exactly once, and every
      room record keeps the room invariant. */
  ghost predicate TableInv(rooms: map<RoomId, RoomState>, order: seq<RoomId>)
  {
    && (forall i, j :: 0 <= i < j < |order| ==> order[i] != order[j])
    && (forall i :: 0 <= i < |order| ==> order[i] in rooms)
    && (forall id :: id in rooms ==> id in order)
    && (forall id {:trigger RoomInv(rooms[id])} :: id in rooms ==> RoomInv(rooms[id]))
  }

  /** Replacing one room's record by a record that keeps the room invariant
      keeps the table invariant. */
  lemma ReplaceKeepsTableInv(rooms: map<RoomId, RoomState>, order: seq<RoomId>, id: RoomId, r: RoomState)
    requires TableInv(rooms, order) && id in rooms && RoomInv(r)
    ensures TableInv(rooms[id := r], order)
  {
  }

  /** Adding a new room at the end of the insertion order keeps the table
      invariant. */
  lemma InsertKeepsTableInv(rooms: map<RoomId, RoomState>, order: seq<RoomId>, id: RoomId, r: RoomState)
    requires TableInv(rooms, order) && id !in rooms && RoomInv(r)
    ensures TableInv(rooms[id := r], order + [id])
  {
  }

  /** A room that has `sid` and is preceded in `order` only by rooms that
      do not is the one FirstRoomWith finds. */
  lemma FirstRoomWithIsFirst(order: seq<RoomId>, rooms: map<RoomId, RoomState>, sid: Sid, i: nat)
    requires forall j :: 0 <= j < |order| ==> order[j] in rooms
    requires i < |order| && sid in rooms[order[i]].players
    requires forall j :: 0 <= j < i ==> sid !in rooms[order[j]].players
    ensures FirstRoomWith(order, rooms, sid) == Some(order[i])
  {
    var r := FirstRoomWith(order, rooms, sid);
    var k :| 0 <= k < |order| && order[k] == r.value && sid in rooms[order[k]].players
      && forall j :: 0 <= j < k ==> sid !in rooms[order[j]].players;
    assert k == i;
  }

  class GameServer {
    /** The `rooms` dictionary. */
    var rooms: map<RoomId, RoomState>
    /** The insertion order of `rooms`, which is the order Python iterates it in. */
    var order: seq<RoomId>
    /** Every message emitted so far. */
    var log: seq<Emit>

    ghost predicate Valid()
      reads this
    {
      TableInv(rooms, order)
    }

    constructor ()
      ensures Valid()
      ensures rooms == map[] && order == [] && log == []
    {
      rooms := map[];
      order := [];
      log := [];
    }

    /** handle_join_room: create the room if it is absent, then add the
        player, tell it its room and colour, and broadcast the room state. */
    method Join(sid: Sid, nickname: Option<string>, requested: Option<string>, freshId: RoomId, choice: LevelChoice)
      requires Valid() && IsHexId(freshId) && ValidChoice(choice)
      modifies this
      ensures Valid()
      ensures var id := JoinTarget(requested, freshId);
        var base := if id in old(rooms) then old(rooms)[id] else FreshRoom(choice);
        && rooms == old(rooms)[id := Joined(base, sid, nickname)]
        && order == (if id in old(rooms) then old(order) else old(order) + [id])
        && log == old(log) + [RoomJoined(sid, id, nickname, PLAYER_COLORS[|base.players| % 8]), GameState(id)]
    {
      var room := if requested.Some? && requested.value != "" then requested.value else freshId;
      assert room == JoinTarget(requested, freshId);
      var base: RoomState;
      var isNew := room !in rooms;
      if isNew {
        var platforms, key, door := NewLevel(choice);
        base := RoomState(map[], false, false, key, door, {}, platforms);
        assert base == FreshRoom(choice);
        FreshRoomKeepsInv(choice);
      } else {
        base := rooms[room];
      }
      var state, color := AddPlayer(base, sid, nickname);
      JoinKeepsInv(base, sid, nickname);
      if isNew {
        InsertKeepsTableInv(rooms, order, room, state);
        order := order + [room];
      } else {
        ReplaceKeepsTableInv(rooms, order, room, state);
      }
      rooms := rooms[room := state];
      log := log + [RoomJoined(sid, room, nickname, color), GameState(room)];
    }

    /** handle_move, from the mover's position and velocity after the
        velocity and gravity integration (`motion`) on: the guard, the
        collision loop, key collection, the door zone, the win check with its
        replay reset, and the state broadcast. */
    method Move(sid: Sid, room: Option<RoomId>, motion: Motion, choice: LevelChoice)
      requires Valid() && ValidChoice(choice)
      modifies this
      ensures Valid()
      ensures order == old(order)
      ensures !Accepts(old(rooms), room, sid) ==> rooms == old(rooms) && log == old(log)
      ensures Accepts(old(rooms), room, sid) ==>
        var res := MoveRoom(old(rooms)[room.value], sid, motion, choice);
        && rooms == old(rooms)[room.value := res.room]
        && log == old(log) + (if res.won then [Win(room.value)] else []) + [GameState(room.value)]
    {
      if room.None? || room.value == "" || room.value !in rooms || sid !in rooms[room.value].players {
        return;
      }
      var id := room.value;
      var state, won := ApplyMove(rooms[id], sid, motion, choice);
      MoveKeepsInv(rooms[id], sid, motion, choice);
      if won {
        log := log + [Win(id)];
      }
      ReplaceKeepsTableInv(rooms, order, id, state);
      rooms := rooms[id := state];
      log := log + [GameState(id)];
    }

    /** handle_disconnect: walk the rooms in insertion order and remove the
        player from the first one that has it; the room record stays, even
        when it becomes empty. */
    method Disconnect(sid: Sid)
      requires Valid()
      modifies this
      ensures Valid()
      ensures order == old(order)
      ensures match FirstRoomWith(old(order), old(rooms), sid)
        case None => rooms == old(rooms) && log == old(log)
        case Some(id) =>
          && rooms == old(rooms)[id := RemovePlayer(old(rooms)[id], sid)]
          && log == old(log) + [GameState(id)]
    {
      var i := 0;
      while i < |order|
        invariant 0 <= i <= |order|
        invariant rooms == old(rooms) && log == old(log)
        invariant forall j :: 0 <= j < i ==> sid !in rooms[order[j]].players
      {
        var id := order[i];
        if sid in rooms[id].players {
          FirstRoomWithIsFirst(order, rooms, sid, i);
          RemoveKeepsInv(rooms[id], sid);
          ReplaceKeepsTableInv(rooms, order, id, RemovePlayer(rooms[id], sid));
          rooms := rooms[id := RemovePlayer(rooms[id], sid)];
          log := log + [GameState(id)];
          return;
        }
        i := i + 1;
      }
    }
  }
}
