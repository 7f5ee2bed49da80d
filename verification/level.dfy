/** Level builders of the game server (app.py): the random platform layout
    and the placement of the key and the door above a random platform.
    The server's random draws are parameters here, constrained to the
    ranges the server draws them from. */
module Level {
  import opened Protocol

  const PLATFORM_COUNT: nat := 6
  const PLATFORM_MIN_WIDTH: int := 100
  const PLATFORM_MAX_WIDTH: int := 200
  const PLATFORM_HEIGHT: int := 20
  const PLATFORM_Y_START: int := 400
  const PLATFORM_Y_GAP: int := 60
  /** Width of the playing field in pixels. */
  const FIELD_WIDTH: int := 800

  /** The ground, always the first platform of a level. */
  const Ground: Platform := Platform(0, 550, FIELD_WIDTH, 50)

  /** The two random draws behind one generated platform: its width, then its x. */
  datatype PlatformRoll = PlatformRoll(width: int, x: int)

  /** `random.randint` is inclusive at both ends: the width is drawn from
      [100, 200], then x from [0, 800 - width]. */
  predicate RollInRange(roll: PlatformRoll)
  {
    PLATFORM_MIN_WIDTH <= roll.width <= PLATFORM_MAX_WIDTH && 0 <= roll.x <= FIELD_WIDTH - roll.width
  }

  predicate ValidRolls(rolls: seq<PlatformRoll>)
  {
    |rolls| == PLATFORM_COUNT && forall i :: 0 <= i < |rolls| ==> RollInRange(rolls[i])
  }

  /** Platform of row `row` (counted from 0, bottom up): at the row's height,
      20 pixels thick, 100 to 200 wide, and entirely inside the field. */
  predicate RowPlatform(p: Platform, row: int)
  {
    && p.y == PLATFORM_Y_START - row * PLATFORM_Y_GAP
    && p.height == PLATFORM_HEIGHT
    && PLATFORM_MIN_WIDTH <= p.width <= PLATFORM_MAX_WIDTH
    && 0 <= p.x && p.x + p.width <= FIELD_WIDTH
  }

  /** What every generated level looks like: the ground, then one platform per row. */
  predicate IsLevel(ps: seq<Platform>)
  {
    |ps| == PLATFORM_COUNT + 1 && ps[0] == Ground &&
    RowPlatform(ps[1], 0) && RowPlatform(ps[2], 1) && RowPlatform(ps[3], 2) &&
    RowPlatform(ps[4], 3) && RowPlatform(ps[5], 4) && RowPlatform(ps[6], 5)
  }

  /** The level that `generate_platforms` builds from the given draws. */
  function Layout(rolls: seq<PlatformRoll>): (ps: seq<Platform>)
    requires ValidRolls(rolls)
    ensures IsLevel(ps)
    ensures forall i :: 1 <= i < |ps| ==> ps[i].x == rolls[i - 1].x && ps[i].width == rolls[i - 1].width
  {
    [Ground] + seq(PLATFORM_COUNT, i requires 0 <= i < PLATFORM_COUNT =>
      Platform(rolls[i].x, PLATFORM_Y_START - i * PLATFORM_Y_GAP, rolls[i].width, PLATFORM_HEIGHT))
  }

  /** generate_platforms: append the ground, then one platform per row. */
  method GeneratePlatforms(rolls: seq<PlatformRoll>) returns (platforms: seq<Platform>)
    requires ValidRolls(rolls)
    ensures platforms == Layout(rolls)
    ensures IsLevel(platforms)
  {
    platforms := [];
    platforms := platforms + [Ground];
    for i := 0 to PLATFORM_COUNT
      invariant |platforms| == i + 1
      invariant platforms == Layout(rolls)[..i + 1]
    {
      var width := rolls[i].width;
      var x := rolls[i].x;
      var y := PLATFORM_Y_START - i * PLATFORM_Y_GAP;
      platforms := platforms + [Platform(x, y, width, PLATFORM_HEIGHT)];
    }
  }

  /** The list `random.choice` draws from: everything but the first platform
      when the ground is excluded (Python's `platforms[1:]`, empty for an
      empty list), otherwise the whole list. */
  function Candidates(platforms: seq<Platform>, excludeGround: bool): (cs: seq<Platform>)
    ensures excludeGround ==> |cs| == if platforms == [] then 0 else |platforms| - 1
    ensures excludeGround && platforms != [] ==> forall i :: 0 <= i < |cs| ==> cs[i] == platforms[i + 1]
    ensures !excludeGround ==> cs == platforms
  {
    if excludeGround then (if platforms == [] then [] else platforms[1..]) else platforms
  }

  /** get_random_platform: `pick` is the index `random.choice` draws; an empty
      candidate list is the IndexError that `random.choice` raises. */
  function GetRandomPlatform(platforms: seq<Platform>, excludeGround: bool, pick: nat): (r: Option<Platform>)
    requires pick < |Candidates(platforms, excludeGround)| || Candidates(platforms, excludeGround) == []
    ensures r.None? <==> |platforms| <= (if excludeGround then 1 else 0)
    ensures r.Some? ==> exists j :: (if excludeGround then 1 else 0) <= j < |platforms| && r.value == platforms[j]
  {
    var cs := Candidates(platforms, excludeGround);
    if cs == [] then None else Some(cs[pick])
  }

  /** A 30x30 key resting on the top edge of `p`, centred on it (rounded down). */
  predicate KeyRestsOn(k: Key, p: Platform)
  {
    k.y + 30 == p.y && 0 <= (2 * p.x + p.width) - 2 * (k.x + 15) <= 1
  }

  /** A 40x60 door standing on the top edge of `p`, centred on it (rounded down). */
  predicate DoorRestsOn(d: Door, p: Platform)
  {
    d.y + 60 == p.y && 0 <= (2 * p.x + p.width) - 2 * (d.x + 20) <= 1
  }

  /** The key placed above a platform. Python's `//` floors; Dafny's `/` by
      a positive divisor does too. */
  function KeyAbove(p: Platform): (k: Key)
    ensures !k.collected && KeyRestsOn(k, p)
  {
    Key(p.x + p.width / 2 - 15, p.y - 30, false)
  }

  /** The closed door placed above a platform. */
  function DoorAbove(p: Platform): (d: Door)
    ensures !d.open && DoorRestsOn(d, p)
  {
    Door(p.x + p.width / 2 - 20, p.y - 60, false)
  }

  /** On a generated level, excluding the ground always yields a platform,
      and never the ground: the one picked is the platform of row `pick`. */
  lemma RandomPlatformNeverGround(ps: seq<Platform>, pick: nat)
    requires IsLevel(ps) && pick < PLATFORM_COUNT
    ensures GetRandomPlatform(ps, true, pick) == Some(ps[pick + 1])
    ensures ps[pick + 1] != Ground && RowPlatform(ps[pick + 1], pick)
  {
    assert ps[pick + 1] == Candidates(ps, true)[pick];
  }

  /** A key or a door placed above a generated (non-ground) platform lies
      entirely inside the 800-pixel-wide field and below its top edge. */
  lemma PlacementInsideField(p: Platform, row: int)
    requires RowPlatform(p, row) && 0 <= row < PLATFORM_COUNT
    ensures var k := KeyAbove(p); 0 <= k.x && k.x + 30 <= FIELD_WIDTH && 0 <= k.y
    ensures var d := DoorAbove(p); 0 <= d.x && d.x + 40 <= FIELD_WIDTH && 0 <= d.y
  {
  }
}
