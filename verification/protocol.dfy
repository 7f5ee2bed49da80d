/** Values that travel between the game server and its browser clients:
    the records of a level (platforms, the key, the door) and of a player,
    as the server keeps them and as the `game_state` message carries them. */
module Protocol {

  /** A value that may be absent (Python's None, JavaScript's null/undefined). */
  datatype Option<+T> = None | Some(value: T)

  /** Truthiness of an optional string, which Python and JavaScript agree
      on: present and not empty. */
  predicate Truthy(s: Option<string>)
  {
    s.Some? && s.value != ""
  }

  /** The relay's connection id of one client. */
  type Sid = string

  /** A room name, chosen by a client or generated by the server. */
  type RoomId = string

  /** A rectangle of the level, in canvas pixels. */
  datatype Platform = Platform(x: int, y: int, width: int, height: int)

  /** The key: its top-left corner and whether some player picked it up. */
  datatype Key = Key(x: int, y: int, collected: bool)

  /** The exit door: its top-left corner and whether it is open. */
  datatype Door = Door(x: int, y: int, open: bool)

  /** One player's record. Positions and velocities are reals because the
      server's physics turns them into floating-point numbers. */
  datatype Player = Player(
    sid: Sid,
    nickname: Option<string>,
    color: string,
    x: real,
    y: real,
    vx: real,
    vy: real,
    onGround: bool)

  /** Absolute value on reals (Python's `abs`). */
  function Abs(a: real): (r: real)
    ensures r >= 0.0 && (r == a || r == -a)
  {
    if a < 0.0 then -a else a
  }
}
