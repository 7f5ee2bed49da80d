/** One room record of the game server (app.py), as a value: its players,
    the key, the door, the set of players standing at the open door, and the
    level. The functions here are the meaning of the server's handlers on one
    room; the `GameServer` class applies them to its table of rooms. */
module Room {
  import opened Protocol
  import opened Level

  const PLAYER_COLORS: seq<string> :=
    ["#e74c3c", "#3498db", "#2ecc71", "#f1c40f", "#9b59b6", "#e67e22", "#1abc9c", "#34495e"]

  datatype RoomState = RoomState(
    players: map<Sid, Player>,
    keyCollected: bool,
    doorOpen: bool,
    key: Key,
    door: Door,
    atDoor: set<Sid>,
    platforms: seq<Platform>)

  /** The random draws behind a fresh level: the platform layout, then the
      candidate index of the key's platform, then that of the door's. */
  datatype LevelChoice = LevelChoice(rolls: seq<PlatformRoll>, keyPick: nat, doorPick: nat)

  predicate ValidChoice(c: LevelChoice)
  {
    ValidRolls(c.rolls) && c.keyPick < PLATFORM_COUNT && c.doorPick < PLATFORM_COUNT
  }

  /** The key and the door each rest on a non-ground platform of the level. */
  predicate PlacedOnLevel(r: RoomState)
  {
    && IsLevel(r.platforms)
    && (exists j :: 1 <= j < |r.platforms| && KeyRestsOn(r.key, r.platforms[j]))
    && (exists j :: 1 <= j < |r.platforms| && DoorRestsOn(r.door, r.platforms[j]))
  }

  /** What every room record satisfies between two handlers: the two room
      flags mirror the key and door records, the door is open exactly when
      the key is collected, only present players stand at the door and only
      while it is open, every player is filed under its own sid, and the key
      and the door sit on the level. */
  ghost predicate RoomInv(r: RoomState)
  {
    && r.keyCollected == r.key.collected
    && r.doorOpen == r.door.open
    && r.key.collected == r.door.open
    && (!r.door.open ==> r.atDoor == {})
    && r.atDoor <= r.players.Keys
    && (forall s :: s in r.players ==> r.players[s].sid == s)
    && PlacedOnLevel(r)
  }

  /** The record a join creates for an absent room (app.py lines 48-59). */
  function FreshRoom(c: LevelChoice): (r: RoomState)
    requires ValidChoice(c)
    ensures r.players == map[] && r.atDoor == {}
    ensures !r.keyCollected && !r.key.collected && !r.doorOpen && !r.door.open
    ensures r.platforms == Layout(c.rolls)
    ensures KeyRestsOn(r.key, r.platforms[c.keyPick + 1]) && DoorRestsOn(r.door, r.platforms[c.doorPick + 1])
  {
    var ps := Layout(c.rolls);
    RandomPlatformNeverGround(ps, c.keyPick);
    RandomPlatformNeverGround(ps, c.doorPick);
    var keyPlat := GetRandomPlatform(ps, true, c.keyPick).value;
    var doorPlat := GetRandomPlatform(ps, true, c.doorPick).value;
    RoomState(map[], false, false, KeyAbove(keyPlat), DoorAbove(doorPlat), {}, ps)
  }

  /** The record of the `n`-th player to join a room (counted from 0). */
  function NewPlayer(sid: Sid, nickname: Option<string>, n: nat): (p: Player)
    ensures p.sid == sid && p.nickname == nickname
    ensures p.color == PLAYER_COLORS[n % 8] && p.color in PLAYER_COLORS
    ensures p.x == (100 + 50 * n) as real && p.y == 500.0
    ensures p.vx == 0.0 && p.vy == 0.0 && p.onGround
  {
    Player(sid, nickname, PLAYER_COLORS[n % |PLAYER_COLORS|], (100 + 50 * n) as real, 500.0, 0.0, 0.0, true)
  }

  /** A join adds the player to the room; an existing record under the same
      sid is replaced. */
  function Joined(r: RoomState, sid: Sid, nickname: Option<string>): (r': RoomState)
    ensures r'.players.Keys == r.players.Keys + {sid}
    ensures r'.players[sid] == NewPlayer(sid, nickname, |r.players|)
    ensures forall s :: s in r.players && s != sid ==> r'.players[s] == r.players[s]
    ensures r' == r.(players := r'.players)
  {
    r.(players := r.players[sid := NewPlayer(sid, nickname, |r.players|)])
  }

  /** The mover's position and velocity after the velocity and gravity
      integration of app.py lines 83-90. */
  datatype Motion = Motion(x: real, y: real, vx: real, vy: real)

  /** The part of a player the collision loop updates. */
  datatype Body = Body(y: real, vy: real, onGround: bool)

  /** A 40x40 player at horizontal position `x` overlaps `p` horizontally
      and stands on its top edge. */
  predicate StandsOn(x: real, y: real, p: Platform)
  {
    x + 40.0 > p.x as real && x < (p.x + p.width) as real && y == (p.y - 40) as real
  }

  /** The player overlaps `p` horizontally and its feet crossed `p`'s top
      edge during this step. */
  predicate Crosses(p: Platform, x: real, b: Body)
  {
    && x + 40.0 > p.x as real && x < (p.x + p.width) as real
    && b.y + 40.0 >= p.y as real && b.y + 40.0 - b.vy < p.y as real
  }

  /** One iteration of the collision loop: land on `p`, standing still on
      its top edge, exactly when the player crosses it. */
  function LandOn(p: Platform, x: real, b: Body): (r: Body)
    ensures r == b || (r.onGround && r.vy == 0.0 && StandsOn(x, r.y, p))
    ensures r != b ==> Crosses(p, x, b)
    ensures Crosses(p, x, b) ==> r == Body((p.y - 40) as real, 0.0, true)
  {
    if Crosses(p, x, b) then Body((p.y - 40) as real, 0.0, true) else b
  }

  /** The collision loop run over `ps` in order, starting from `b`: the
      player either comes through untouched or ends standing still with
      on_ground set. */
  function Settle(ps: seq<Platform>, x: real, b: Body): (r: Body)
    ensures r == b || (r.onGround && r.vy == 0.0)
  {
    if ps == [] then b else LandOn(ps[|ps| - 1], x, Settle(ps[..|ps| - 1], x, b))
  }

  /** The collision loop either leaves the player as it was, or leaves it
      standing still on top of some platform it overlaps, with on_ground set. */
  lemma {:induction false} SettleOutcome(ps: seq<Platform>, x: real, b: Body)
    ensures var r := Settle(ps, x, b);
      r == b || (r.onGround && r.vy == 0.0 && exists j :: 0 <= j < |ps| && StandsOn(x, r.y, ps[j]))
  {
    if ps != [] {
      var init := ps[..|ps| - 1];
      SettleOutcome(init, x, b);
      var mid := Settle(init, x, b);
      if LandOn(ps[|ps| - 1], x, mid) == mid {
        if mid != b {
          var j :| 0 <= j < |init| && StandsOn(x, mid.y, init[j]);
          assert ps[j] == init[j];
        }
      } else {
        assert StandsOn(x, Settle(ps, x, b).y, ps[|ps| - 1]);
      }
    }
  }

  /** The collision loop of app.py lines 92-98: `on_ground` is cleared, then
      every platform in turn may land the player. */
  method Collide(platforms: seq<Platform>, x: real, y: real, vy: real)
    returns (y': real, vy': real, onGround: bool)
    ensures Body(y', vy', onGround) == Settle(platforms, x, Body(y, vy, false))
  {
    y', vy', onGround := y, vy, false;
    for i := 0 to |platforms|
      invariant Body(y', vy', onGround) == Settle(platforms[..i], x, Body(y, vy, false))
    {
      var plat := platforms[i];
      assert platforms[..i + 1][..i] == platforms[..i];
      if x + 40.0 > plat.x as real && x < (plat.x + plat.width) as real
         && y' + 40.0 >= plat.y as real && y' + 40.0 - vy' < plat.y as real
      {
        y' := (plat.y - 40) as real;
        vy' := 0.0;
        onGround := true;
      }
    }
    assert platforms[..|platforms|] == platforms;
  }

  /** Key collection: a mover within 40 pixels of the key on both axes picks
      up an uncollected key, which opens the door. */
  function CollectKey(r: RoomState, x: real, y: real): (r': RoomState)
    ensures r'.key.collected <==>
      r.key.collected || (Abs(x - r.key.x as real) < 40.0 && Abs(y - r.key.y as real) < 40.0)
    ensures !r.key.collected && r'.key.collected ==>
      r'.keyCollected && r'.doorOpen && r'.door.open
    ensures r'.key.collected == r.key.collected ==> r' == r
    ensures r'.players == r.players && r'.atDoor == r.atDoor && r'.platforms == r.platforms
    ensures r'.key.x == r.key.x && r'.key.y == r.key.y && r'.door.x == r.door.x && r'.door.y == r.door.y
  {
    if !r.key.collected && Abs(x - r.key.x as real) < 40.0 && Abs(y - r.key.y as real) < 40.0 then
      r.(key := r.key.(collected := true), keyCollected := true,
         door := r.door.(open := true), doorOpen := true)
    else
      r
  }

  /** Door zone: the mover is at the door exactly when the door is open and
      the mover is within 40 pixels of it horizontally and 60 vertically. */
  function DoorZone(r: RoomState, sid: Sid, x: real, y: real): (r': RoomState)
    ensures sid in r'.atDoor <==>
      r.door.open && Abs(x - r.door.x as real) < 40.0 && Abs(y - r.door.y as real) < 60.0
    ensures forall s :: s != sid ==> (s in r'.atDoor <==> s in r.atDoor)
    ensures r' == r.(atDoor := r'.atDoor)
  {
    if r.door.open && Abs(x - r.door.x as real) < 40.0 && Abs(y - r.door.y as real) < 60.0 then
      r.(atDoor := r.atDoor + {sid})
    else
      r.(atDoor := r.atDoor - {sid})
  }

  /** The server's win check (app.py line 113). */
  predicate WinFires(r: RoomState)
  {
    r.door.open && |r.atDoor| == |r.players| && |r.players| > 0
  }

  /** The replay reset: a fresh level, the key uncollected, the door closed,
      nobody at the door; the players stay where they are. */
  function Reset(r: RoomState, c: LevelChoice): (r': RoomState)
    requires ValidChoice(c)
    ensures r' == FreshRoom(c).(players := r.players)
    ensures !r'.keyCollected && !r'.key.collected && !r'.doorOpen && !r'.door.open && r'.atDoor == {}
  {
    var f := FreshRoom(c);
    f.(players := r.players)
  }

  /** The mover's record after a move: the new x and vx, then the collision loop. */
  function Moved(p: Player, platforms: seq<Platform>, m: Motion): (p': Player)
    ensures p'.sid == p.sid && p'.nickname == p.nickname && p'.color == p.color
    ensures p'.x == m.x && p'.vx == m.vx
    ensures Body(p'.y, p'.vy, p'.onGround) == Settle(platforms, m.x, Body(m.y, m.vy, false))
  {
    var b := Settle(platforms, m.x, Body(m.y, m.vy, false));
    p.(vx := m.vx, x := m.x, y := b.y, vy := b.vy, onGround := b.onGround)
  }

  datatype MoveResult = MoveResult(room: RoomState, won: bool)

  /** The record before the win check: the mover moved, then key collection,
      then the door zone, all at the mover's new position. */
  function BeforeWinCheck(r: RoomState, sid: Sid, m: Motion): (r': RoomState)
    requires sid in r.players
    ensures r'.players == r.players[sid := Moved(r.players[sid], r.platforms, m)]
    ensures var y := r'.players[sid].y;
      && (r'.key.collected <==>
            r.key.collected || (Abs(m.x - r.key.x as real) < 40.0 && Abs(y - r.key.y as real) < 40.0))
      && (!r.key.collected && r'.key.collected ==> r'.keyCollected && r'.doorOpen && r'.door.open)
      && (r'.key.collected == r.key.collected ==>
            r'.keyCollected == r.keyCollected && r'.doorOpen == r.doorOpen && r'.door == r.door)
      && (sid in r'.atDoor <==>
            r'.door.open && Abs(m.x - r.door.x as real) < 40.0 && Abs(y - r.door.y as real) < 60.0)
    ensures forall s :: s != sid ==> (s in r'.atDoor <==> s in r.atDoor)
    ensures r'.platforms == r.platforms && r'.key.x == r.key.x && r'.key.y == r.key.y
    ensures r'.door.x == r.door.x && r'.door.y == r.door.y
  {
    var p := Moved(r.players[sid], r.platforms, m);
    var r1 := r.(players := r.players[sid := p]);
    DoorZone(CollectKey(r1, p.x, p.y), sid, p.x, p.y)
  }

  /** handle_move on an accepted move: when the win check fires, the room is
      reset for replay; otherwise it keeps the state before the check. */
  function MoveRoom(r: RoomState, sid: Sid, m: Motion, c: LevelChoice): (res: MoveResult)
    requires sid in r.players && ValidChoice(c)
    ensures res.won <==> WinFires(BeforeWinCheck(r, sid, m))
    ensures res.room.players == r.players[sid := Moved(r.players[sid], r.platforms, m)]
    ensures res.won ==> res.room == Reset(BeforeWinCheck(r, sid, m), c)
    ensures !res.won ==> res.room == BeforeWinCheck(r, sid, m)
  {
    var before := BeforeWinCheck(r, sid, m);
    if WinFires(before) then MoveResult(Reset(before, c), true) else MoveResult(before, false)
  }

  /** The level part of a fresh room record, built as handle_join_room and
      the replay reset build it: generate the platforms, then pick the key's
      platform and the door's platform among the non-ground ones. */
  method NewLevel(c: LevelChoice) returns (platforms: seq<Platform>, key: Key, door: Door)
    requires ValidChoice(c)
    ensures platforms == FreshRoom(c).platforms
    ensures key == FreshRoom(c).key && door == FreshRoom(c).door
  {
    platforms := GeneratePlatforms(c.rolls);
    RandomPlatformNeverGround(platforms, c.keyPick);
    RandomPlatformNeverGround(platforms, c.doorPick);
    var keyPlat := GetRandomPlatform(platforms, true, c.keyPick);
    var doorPlat := GetRandomPlatform(platforms, true, c.doorPick);
    key := KeyAbove(keyPlat.value);
    door := DoorAbove(doorPlat.value);
  }

  /** The record keeping of handle_join_room: the joining player's colour
      comes from how many players the room already has, and the record
      goes in under its sid. */
  method AddPlayer(r: RoomState, sid: Sid, nickname: Option<string>) returns (state: RoomState, color: string)
    ensures state == Joined(r, sid, nickname)
    ensures color == PLAYER_COLORS[|r.players| % 8] && state.players[sid].color == color
  {
    var n := |r.players|;
    color := PLAYER_COLORS[n % |PLAYER_COLORS|];
    var player := Player(sid, nickname, color, (100 + 50 * n) as real, 500.0, 0.0, 0.0, true);
    state := r.(players := r.players[sid := player]);
  }

  /** handle_move up to the win check, step by step as the server runs it:
      the mover's new x and vx, the collision loop, key collection and the
      door zone. */
  method AdvanceMover(r: RoomState, sid: Sid, m: Motion) returns (state: RoomState)
    requires sid in r.players
    ensures state == BeforeWinCheck(r, sid, m)
  {
    var player := r.players[sid];
    player := player.(vx := m.vx, x := m.x);
    var y, vy, onGround := Collide(r.platforms, player.x, m.y, m.vy);
    player := player.(y := y, vy := vy, onGround := onGround);
    assert player == Moved(r.players[sid], r.platforms, m);
    state := r.(players := r.players[sid := player]);
    ghost var moved := state;
    if !state.key.collected && Abs(player.x - state.key.x as real) < 40.0 && Abs(player.y - state.key.y as real) < 40.0 {
      state := state.(key := state.key.(collected := true), keyCollected := true);
      state := state.(door := state.door.(open := true), doorOpen := true);
    }
    assert state == CollectKey(moved, player.x, player.y);
    ghost var collected := state;
    if state.door.open && Abs(player.x - state.door.x as real) < 40.0 && Abs(player.y - state.door.y as real) < 60.0 {
      state := state.(atDoor := state.atDoor + {sid});
    } else {
      state := state.(atDoor := state.atDoor - {sid});
    }
    assert state == DoorZone(collected, sid, player.x, player.y);
  }

  /** handle_move on one room record once the guard has accepted the move;
      `won` says whether the win check fired and the room was reset for
      replay. */
  method ApplyMove(r: RoomState, sid: Sid, m: Motion, c: LevelChoice) returns (state: RoomState, won: bool)
    requires sid in r.players && ValidChoice(c)
    ensures state == MoveRoom(r, sid, m, c).room && won == MoveRoom(r, sid, m, c).won
  {
    state := AdvanceMover(r, sid, m);
    ghost var before := state;
    won := state.door.open && |state.atDoor| == |state.players| && |state.players| > 0;
    if won {
      var platforms, key, door := NewLevel(c);
      state := state.(key := key, keyCollected := false);
      state := state.(door := door, doorOpen := false);
      state := state.(atDoor := {}, platforms := platforms);
      assert state == Reset(before, c);
    }
  }

  /** A fresh room record keeps the room invariant. */
  lemma FreshRoomKeepsInv(c: LevelChoice)
    requires ValidChoice(c)
    ensures RoomInv(FreshRoom(c))
  {
    var r := FreshRoom(c);
    assert KeyRestsOn(r.key, r.platforms[c.keyPick + 1]);
    assert DoorRestsOn(r.door, r.platforms[c.doorPick + 1]);
  }

  /** A join keeps the room invariant. */
  lemma JoinKeepsInv(r: RoomState, sid: Sid, nickname: Option<string>)
    requires RoomInv(r)
    ensures RoomInv(Joined(r, sid, nickname))
  {
  }

  /** Key collection keeps the room invariant: the key and the door flags
      change together. */
  lemma CollectKeyKeepsInv(r: RoomState, x: real, y: real)
    requires RoomInv(r)
    ensures RoomInv(CollectKey(r, x, y))
  {
    var r' := CollectKey(r, x, y);
    var j :| 1 <= j < |r.platforms| && KeyRestsOn(r.key, r.platforms[j]);
    var k :| 1 <= k < |r.platforms| && DoorRestsOn(r.door, r.platforms[k]);
    assert KeyRestsOn(r'.key, r'.platforms[j]);
    assert DoorRestsOn(r'.door, r'.platforms[k]);
  }

  /** The door-zone update keeps the room invariant when the mover is a
      player of the room. */
  lemma DoorZoneKeepsInv(r: RoomState, sid: Sid, x: real, y: real)
    requires RoomInv(r) && sid in r.players
    ensures RoomInv(DoorZone(r, sid, x, y))
  {
  }

  /** The replay reset yields a record that keeps the room invariant as soon
      as every player is filed under its own sid. */
  lemma ResetKeepsInv(r: RoomState, c: LevelChoice)
    requires ValidChoice(c) && forall s :: s in r.players ==> r.players[s].sid == s
    ensures RoomInv(Reset(r, c))
  {
    FreshRoomKeepsInv(c);
  }

  /** An accepted move keeps the room invariant. */
  lemma MoveKeepsInv(r: RoomState, sid: Sid, m: Motion, c: LevelChoice)
    requires RoomInv(r) && sid in r.players && ValidChoice(c)
    ensures RoomInv(MoveRoom(r, sid, m, c).room)
  {
    var p := Moved(r.players[sid], r.platforms, m);
    var r1 := r.(players := r.players[sid := p]);
    assert RoomInv(r1) by {
      var j :| 1 <= j < |r.platforms| && KeyRestsOn(r.key, r.platforms[j]);
      var k :| 1 <= k < |r.platforms| && DoorRestsOn(r.door, r.platforms[k]);
      assert KeyRestsOn(r1.key, r1.platforms[j]);
      assert DoorRestsOn(r1.door, r1.platforms[k]);
    }
    CollectKeyKeepsInv(r1, p.x, p.y);
    DoorZoneKeepsInv(CollectKey(r1, p.x, p.y), sid, p.x, p.y);
    var before := BeforeWinCheck(r, sid, m);
    if WinFires(before) {
      ResetKeepsInv(before, c);
    }
  }

  /** Removing a player (with its at-door entry) keeps the room invariant. */
  lemma RemoveKeepsInv(r: RoomState, sid: Sid)
    requires RoomInv(r)
    ensures RoomInv(RemovePlayer(r, sid))
  {
  }

  /** Given the room invariant, the server's count-based win check means
      exactly: the door is open, the room is not empty, and every player in
      the room stands at the door. */
  lemma WinMeansEveryoneAtDoor(r: RoomState)
    requires RoomInv(r)
    ensures WinFires(r) <==> r.door.open && r.players != map[] && r.atDoor == r.players.Keys
  {
    assert |r.players| == |r.players.Keys|;
    if r.atDoor != r.players.Keys {
      var missing := r.players.Keys - r.atDoor;
      assert r.players.Keys == r.atDoor + missing;
      assert missing != {};
      assert |r.players.Keys| == |r.atDoor| + |missing|;
    }
  }

  /** Disconnect as app.py lines 130-132 write it: the player record goes,
      the at-door set keeps the departed sid. */
  function RemovePlayerAsWritten(r: RoomState, sid: Sid): (r': RoomState)
    ensures r'.players.Keys == r.players.Keys - {sid}
    ensures forall s :: s in r'.players ==> r'.players[s] == r.players[s]
    ensures r' == r.(players := r'.players)
  {
    r.(players := r.players - {sid})
  }

  /** Disconnect as the win check needs it: the departed sid also leaves the
      at-door set, so the room invariant survives. */
  function RemovePlayer(r: RoomState, sid: Sid): (r': RoomState)
    ensures r'.players.Keys == r.players.Keys - {sid}
    ensures forall s :: s in r'.players ==> r'.players[s] == r.players[s]
    ensures r'.atDoor == r.atDoor - {sid}
    ensures r' == r.(players := r'.players, atDoor := r'.atDoor)
  {
    r.(players := r.players - {sid}, atDoor := r.atDoor - {sid})
  }

  /** A valid room with two players A and B, the door open and A at the door. */
  function TwoPlayerRoom(): RoomState
  {
    var rolls := seq(PLATFORM_COUNT, i => PlatformRoll(100, 0));
    var ps := Layout(rolls);
    var a := Player("A", None, PLAYER_COLORS[0], 30.0, 340.0, 0.0, 0.0, true);
    var b := Player("B", None, PLAYER_COLORS[1], 700.0, 500.0, 0.0, 0.0, true);
    RoomState(map["A" := a, "B" := b], true, true, Key(35, 370, true), Door(30, 340, true), {"A"}, ps)
  }

  /** The collision loop leaves the player as it was when it crosses no
      platform's top edge. */
  lemma {:induction false} SettleMissesAll(ps: seq<Platform>, x: real, b: Body)
    requires forall j :: 0 <= j < |ps| ==> !Crosses(ps[j], x, b)
    ensures Settle(ps, x, b) == b
  {
    if ps != [] {
      var init := ps[..|ps| - 1];
      assert forall j :: 0 <= j < |init| ==> init[j] == ps[j];
      SettleMissesAll(init, x, b);
    }
  }

  /** The two-player room keeps the room invariant: key and door rest on
      the first row, the door is open with the key collected, and A, at the
      door, is a player. */
  lemma TwoPlayerRoomValid()
    ensures RoomInv(TwoPlayerRoom())
  {
    var r0 := TwoPlayerRoom();
    assert KeyRestsOn(r0.key, r0.platforms[1]);
    assert DoorRestsOn(r0.door, r0.platforms[1]);
  }

  /** In the two-player room, a player at x 700 and y 500 falling no
      further crosses no platform: it overlaps only the ground, whose top
      edge is below it. */
  lemma FarFromEveryPlatform()
    ensures Settle(TwoPlayerRoom().platforms, 700.0, Body(500.0, 0.0, false)) == Body(500.0, 0.0, false)
  {
    SettleMissesAll(TwoPlayerRoom().platforms, 700.0, Body(500.0, 0.0, false));
  }

  /** With the disconnect as written, A leaving while at the door and B
      then moving far from the door makes handle_move declare a win and
      reset the level, whatever level the reset draws, although the only
      player left, B, is not at the door. With RemovePlayer the same move
      wins nothing. */
  lemma StaleDoorWinAsWritten(c: LevelChoice)
    requires ValidChoice(c)
    ensures RoomInv(TwoPlayerRoom())
    ensures var r1 := RemovePlayerAsWritten(TwoPlayerRoom(), "A");
      && !RoomInv(r1) && r1.players.Keys == {"B"}
      && "B" !in BeforeWinCheck(r1, "B", Motion(700.0, 500.0, 0.0, 0.0)).atDoor
      && MoveRoom(r1, "B", Motion(700.0, 500.0, 0.0, 0.0), c).won
    ensures var r1 := RemovePlayer(TwoPlayerRoom(), "A");
      && RoomInv(r1) && r1.players.Keys == {"B"}
      && !MoveRoom(r1, "B", Motion(700.0, 500.0, 0.0, 0.0), c).won
  {
    var r0 := TwoPlayerRoom();
    var m := Motion(700.0, 500.0, 0.0, 0.0);
    TwoPlayerRoomValid();
    FarFromEveryPlatform();
    var w1 := RemovePlayerAsWritten(r0, "A");
    assert w1.players.Keys == {"B"};
    assert "A" !in w1.players.Keys;
    var w2 := BeforeWinCheck(w1, "B", m);
    assert w2.players["B"].y == 500.0;
    assert w2.atDoor == {"A"};
    assert |w2.players| == |w2.players.Keys| == 1;
    var c1 := RemovePlayer(r0, "A");
    var c2 := BeforeWinCheck(c1, "B", m);
    assert c2.players["B"].y == 500.0;
    assert c2.atDoor == {};
  }
}
