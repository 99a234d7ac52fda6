/** The player's ship (`Character`): a 50x50 box that moves with the held
    direction keys, is clamped into the playfield, faces the last direction
    applied, and dies and respawns. */
module Player {
  import opened Config
  import opened Collision

  /** Held direction keys; each flag is "arrow key or its letter" (A, D, W, S). */
  datatype Keys = Keys(left: bool, right: bool, up: bool, down: bool)

  /** The player's state, with the rectangle given by its top-left corner.
      Times are integer milliseconds of the wall clock. */
  datatype PlayerState = PlayerState(x: int, y: int, direction: int, alive: bool, startMs: int)

  /** Top-left corner of the box whose centre is the playfield's centre. */
  const SPAWN_X: int := SCREEN_WIDTH / 2 - CHAR_SIZE / 2
  const SPAWN_Y: int := SCREEN_HEIGHT / 2 - CHAR_SIZE / 2

  predicate InBounds(p: PlayerState) {
    0 <= p.x && p.x + CHAR_SIZE <= SCREEN_WIDTH && 0 <= p.y && p.y + CHAR_SIZE <= SCREEN_HEIGHT
  }

  predicate IsHeading(d: int) {
    d == HEADING_UP || d == HEADING_LEFT || d == HEADING_DOWN || d == HEADING_RIGHT
  }

  /** What holds of the player in every reachable state. */
  predicate PlayerInv(p: PlayerState) {
    InBounds(p) && IsHeading(p.direction)
  }

  /** The collision circle: centred exactly in the middle of the box. */
  function PlayerCircle(p: PlayerState): (c: Circle)
    ensures c.radius == CHAR_RADIUS
    ensures 2 * (c.cx - p.x) == CHAR_SIZE && 2 * (c.cy - p.y) == CHAR_SIZE
  {
    Circle(Center(p.x, CHAR_SIZE), Center(p.y, CHAR_SIZE), CHAR_RADIUS)
  }

  /** The state a fresh `Character` has at time `now`. */
  function Initial(now: int): (r: PlayerState)
    ensures PlayerInv(r) && r.alive && r.direction == HEADING_UP && r.startMs == now
    ensures PlayerCircle(r).cx == SCREEN_WIDTH / 2 && PlayerCircle(r).cy == SCREEN_HEIGHT / 2
  {
    PlayerState(SPAWN_X, SPAWN_Y, HEADING_UP, true, now)
  }

  function Clamp(v: int, lo: int, hi: int): (r: int)
    requires lo <= hi
    ensures lo <= r <= hi
  {
    if v < lo then lo else if v > hi then hi else v
  }

  /** The clamped value is the point of [lo, hi] nearest to v. */
  lemma ClampNearest(v: int, lo: int, hi: int, z: int)
    requires lo <= hi && lo <= z <= hi
    ensures Abs(Clamp(v, lo, hi) - v) <= Abs(z - v)
  {
  }

  /** Net displacement on one axis: -CHAR_SPEED for the key towards lower
      coordinates, +CHAR_SPEED for the key towards higher ones. */
  function Delta(towardsLow: bool, towardsHigh: bool): (d: int)
    ensures Abs(d) <= CHAR_SPEED
    ensures towardsLow == towardsHigh ==> d == 0
    ensures d < 0 <==> towardsLow && !towardsHigh
  {
    (if towardsHigh then CHAR_SPEED else 0) - (if towardsLow then CHAR_SPEED else 0)
  }

  /** The heading after a key update: the last of left, right, up, down that is
      held wins; with no key held the heading is kept. */
  function Heading(direction: int, k: Keys): (d: int)
    ensures IsHeading(direction) ==> IsHeading(d)
  {
    if k.down then HEADING_DOWN
    else if k.up then HEADING_UP
    else if k.right then HEADING_RIGHT
    else if k.left then HEADING_LEFT
    else direction
  }

  /** `Character.update`: a dead player is left as it is; a live one moves by
      the held keys, is clamped into the playfield and turns. */
  function Updated(p: PlayerState, k: Keys): (r: PlayerState)
    ensures !p.alive ==> r == p
    ensures p.alive ==> InBounds(r)
    ensures r.alive == p.alive && r.startMs == p.startMs
    ensures PlayerInv(p) ==> PlayerInv(r)
  {
    if !p.alive then p
    else
      p.(x := Clamp(p.x + Delta(k.left, k.right), 0, SCREEN_WIDTH - CHAR_SIZE),
         y := Clamp(p.y + Delta(k.up, k.down), 0, SCREEN_HEIGHT - CHAR_SIZE),
         direction := Heading(p.direction, k))
  }

  /** From inside the playfield a tick moves each coordinate by at most CHAR_SPEED. */
  lemma UpdateMovesAtMostSpeed(p: PlayerState, k: Keys)
    requires InBounds(p)
    ensures Abs(Updated(p, k).x - p.x) <= CHAR_SPEED
    ensures Abs(Updated(p, k).y - p.y) <= CHAR_SPEED
  {
  }

  /** Holding both horizontal keys cancels the horizontal move; the heading is
      then the right one unless a vertical key is also held. */
  lemma OppositeKeysCancel(p: PlayerState, k: Keys)
    requires p.alive && InBounds(p) && k.left && k.right
    ensures Updated(p, k).x == p.x
    ensures !k.up && !k.down ==> Updated(p, k).direction == HEADING_RIGHT
  {
  }

  /** A player held against the left edge never goes past it. */
  lemma LeftEdgeHolds(p: PlayerState, k: Keys)
    requires p.alive && InBounds(p) && p.x == 0 && k.left && !k.right
    ensures Updated(p, k).x == 0
  {
  }

  /** `Character.die`: only the alive flag is cleared. */
  function Killed(p: PlayerState): (r: PlayerState)
    ensures !r.alive && r.(alive := p.alive) == p
  {
    p.(alive := false)
  }

  lemma KilledIdempotent(p: PlayerState)
    ensures Killed(Killed(p)) == Killed(p)
  {
  }

  /** `Character.respawn`: back to the centre of the playfield, alive, with the
      timer restarted at `now` and the heading kept. */
  function Respawned(p: PlayerState, now: int): (r: PlayerState)
    ensures r.alive && InBounds(r) && r.direction == p.direction && r.startMs == now
    ensures PlayerCircle(r).cx == SCREEN_WIDTH / 2 && PlayerCircle(r).cy == SCREEN_HEIGHT / 2
    ensures WholeSeconds(now - r.startMs) == 0
    ensures PlayerInv(p) ==> PlayerInv(r)
  {
    p.(x := SPAWN_X, y := SPAWN_Y, alive := true, startMs := now)
  }

  /** `int()` of a time difference: milliseconds to whole seconds, truncated
      toward zero. */
  function WholeSeconds(ms: int): (s: int)
    ensures 0 <= ms ==> 0 <= s * 1000 <= ms < s * 1000 + 1000
    ensures ms < 0 ==> s * 1000 - 1000 < ms <= s * 1000 <= 0
  {
    if ms >= 0 then ms / 1000 else -((-ms) / 1000)
  }

  class Character {
    var x: int
    var y: int
    var direction: int
    var isAlive: bool
    var startMs: int

    function State(): PlayerState
      reads this
    {
      PlayerState(x, y, direction, isAlive, startMs)
    }

    constructor (now: int)
      ensures State() == Initial(now)
    {
      x, y := SPAWN_X, SPAWN_Y;
      isAlive := true;
      startMs := now;
      direction := HEADING_UP;
    }

    /** Key handling and clamping, one statement after the other. */
    method Update(keys: Keys)
      modifies this
      ensures State() == Updated(old(State()), keys)
    {
      if isAlive {
        if keys.left {
          x := x - CHAR_SPEED;
          direction := HEADING_LEFT;
        }
        if keys.right {
          x := x + CHAR_SPEED;
          direction := HEADING_RIGHT;
        }
        if keys.up {
          y := y - CHAR_SPEED;
          direction := HEADING_UP;
        }
        if keys.down {
          y := y + CHAR_SPEED;
          direction := HEADING_DOWN;
        }
        if x < 0 {
          x := 0;
        }
        if x + CHAR_SIZE > SCREEN_WIDTH {
          x := SCREEN_WIDTH - CHAR_SIZE;
        }
        if y < 0 {
          y := 0;
        }
        if y + CHAR_SIZE > SCREEN_HEIGHT {
          y := SCREEN_HEIGHT - CHAR_SIZE;
        }
      }
    }

    /** Whole minutes and the remaining seconds since the timer started. */
    method GetElapsedTime(now: int) returns (minutes: int, seconds: int)
      ensures 0 <= seconds < 60
      ensures minutes * 60 + seconds == WholeSeconds(now - startMs)
    {
      var elapsed := WholeSeconds(now - startMs);
      minutes := elapsed / 60;
      seconds := elapsed % 60;
    }

    method Die()
      modifies this
      ensures State() == Killed(old(State()))
    {
      isAlive := false;
    }

    method Respawn(now: int)
      modifies this
      ensures State() == Respawned(old(State()), now)
    {
      x, y := SPAWN_X, SPAWN_Y;
      isAlive := true;
      startMs := now;
    }
  }
}
