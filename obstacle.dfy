/** The bouncing obstacles (`Enemy`): a 50x50 box that moves by (dx, dy)
    every tick and reverses an axis's velocity when the box is past that
    axis's edges. The position itself is never pulled back. */
module Obstacle {
  import opened Config
  import opened Collision

  datatype EnemyState = EnemyState(x: int, y: int, dx: int, dy: int)

  /** Position and velocity along one axis. */
  datatype Axis = Axis(pos: int, vel: int)

  /** The random choices a new obstacle is made from: a corner inside the
      playfield less one box, and a sign for each velocity component. */
  datatype Spawn = Spawn(x: int, y: int, signX: int, signY: int)

  predicate SpawnOK(s: Spawn) {
    0 <= s.x < SCREEN_WIDTH - ENEMY_SIZE && 0 <= s.y < SCREEN_HEIGHT - ENEMY_SIZE &&
    (s.signX == -1 || s.signX == 1) && (s.signY == -1 || s.signY == 1)
  }

  /** The collision circle: centred exactly in the middle of the box. */
  function EnemyCircle(e: EnemyState): (c: Circle)
    ensures c.radius == ENEMY_RADIUS
    ensures 2 * (c.cx - e.x) == ENEMY_SIZE && 2 * (c.cy - e.y) == ENEMY_SIZE
  {
    Circle(Center(e.x, ENEMY_SIZE), Center(e.y, ENEMY_SIZE), ENEMY_RADIUS)
  }

  /** One axis of one tick, with `limit` the playfield's extent on that axis:
      advance, then reverse if the box has left [0, limit]. */
  function BounceAxis(a: Axis, limit: int): (r: Axis)
    ensures r.pos == a.pos + a.vel
    ensures Abs(r.vel) == Abs(a.vel)
    ensures a.vel != 0 ==> (r.vel == -a.vel <==> (r.pos < 0 || r.pos + ENEMY_SIZE > limit))
  {
    var pos := a.pos + a.vel;
    Axis(pos, if pos < 0 || pos + ENEMY_SIZE > limit then -a.vel else a.vel)
  }

  /** `Enemy.update`: the two axes bounce independently. */
  function EnemyStep(e: EnemyState): (r: EnemyState)
    ensures r.x == e.x + e.dx && r.y == e.y + e.dy
    ensures Abs(r.dx) == Abs(e.dx) && Abs(r.dy) == Abs(e.dy)
  {
    var h := BounceAxis(Axis(e.x, e.dx), SCREEN_WIDTH);
    var v := BounceAxis(Axis(e.y, e.dy), SCREEN_HEIGHT);
    EnemyState(h.pos, v.pos, h.vel, v.vel)
  }

  /** The horizontal result depends only on the horizontal state, and the
      vertical only on the vertical. */
  lemma AxesIndependent(e1: EnemyState, e2: EnemyState)
    ensures e1.x == e2.x && e1.dx == e2.dx ==>
              EnemyStep(e1).x == EnemyStep(e2).x && EnemyStep(e1).dx == EnemyStep(e2).dx
    ensures e1.y == e2.y && e1.dy == e2.dy ==>
              EnemyStep(e1).y == EnemyStep(e2).y && EnemyStep(e1).dy == EnemyStep(e2).dy
  {
  }

  /** An axis in a reachable state: full speed, at most ENEMY_SPEED past an
      edge, and when past an edge already heading back. */
  predicate AxisInv(a: Axis, limit: int) {
    (a.vel == ENEMY_SPEED || a.vel == -ENEMY_SPEED) &&
    -ENEMY_SPEED <= a.pos && a.pos + ENEMY_SIZE <= limit + ENEMY_SPEED &&
    (a.pos < 0 ==> a.vel > 0) &&
    (a.pos + ENEMY_SIZE > limit ==> a.vel < 0)
  }

  predicate EnemyInv(e: EnemyState) {
    AxisInv(Axis(e.x, e.dx), SCREEN_WIDTH) && AxisInv(Axis(e.y, e.dy), SCREEN_HEIGHT)
  }

  lemma BounceAxisKeepsInv(a: Axis, limit: int)
    requires limit >= ENEMY_SIZE + ENEMY_SPEED
    requires AxisInv(a, limit)
    ensures AxisInv(BounceAxis(a, limit), limit)
  {
  }

  lemma EnemyStepKeepsInv(e: EnemyState)
    requires EnemyInv(e)
    ensures EnemyInv(EnemyStep(e))
  {
  }

  /** The state `Enemy.__init__` builds from its random choices. */
  function Spawned(s: Spawn): (r: EnemyState)
    requires SpawnOK(s)
    ensures EnemyInv(r)
    ensures 0 <= r.x && r.x + ENEMY_SIZE < SCREEN_WIDTH && 0 <= r.y && r.y + ENEMY_SIZE < SCREEN_HEIGHT
  {
    EnemyState(s.x, s.y, s.signX * ENEMY_SPEED, s.signY * ENEMY_SPEED)
  }

  /** The obstacle after n ticks. */
  function StepN(e: EnemyState, n: nat): (r: EnemyState)
    ensures Abs(r.dx) == Abs(e.dx) && Abs(r.dy) == Abs(e.dy)
  {
    if n == 0 then e else EnemyStep(StepN(e, n - 1))
  }

  /** However long the game runs, a spawned obstacle keeps its speed and its box
      is never more than ENEMY_SPEED outside the playfield. */
  lemma {:induction false} NeverEscapes(s: Spawn, n: nat)
    requires SpawnOK(s)
    ensures EnemyInv(StepN(Spawned(s), n))
    ensures var r := StepN(Spawned(s), n);
      -ENEMY_SPEED <= r.x && r.x + ENEMY_SIZE <= SCREEN_WIDTH + ENEMY_SPEED &&
      -ENEMY_SPEED <= r.y && r.y + ENEMY_SIZE <= SCREEN_HEIGHT + ENEMY_SPEED &&
      Abs(r.dx) == ENEMY_SPEED && Abs(r.dy) == ENEMY_SPEED
  {
    if n > 0 {
      NeverEscapes(s, n - 1);
      EnemyStepKeepsInv(StepN(Spawned(s), n - 1));
    }
  }

  /** An obstacle at the left edge moving left overshoots by ENEMY_SPEED,
      turns, and is back at the edge one tick later. */
  lemma LeftEdgeBounce(y: int, dy: int)
    ensures EnemyStep(EnemyState(0, y, -ENEMY_SPEED, dy)).x == -ENEMY_SPEED
    ensures EnemyStep(EnemyState(0, y, -ENEMY_SPEED, dy)).dx == ENEMY_SPEED
    ensures EnemyStep(EnemyStep(EnemyState(0, y, -ENEMY_SPEED, dy))).x == 0
  {
  }

  class Enemy {
    var x: int
    var y: int
    var dx: int
    var dy: int

    function State(): EnemyState
      reads this
    {
      EnemyState(x, y, dx, dy)
    }

    constructor (s: Spawn)
      requires SpawnOK(s)
      ensures State() == Spawned(s)
    {
      x, y := s.x, s.y;
      dx, dy := s.signX * ENEMY_SPEED, s.signY * ENEMY_SPEED;
    }

    method Update()
      modifies this
      ensures State() == EnemyStep(old(State()))
    {
      x := x + dx;
      y := y + dy;
      if x < 0 || x + ENEMY_SIZE > SCREEN_WIDTH {
        dx := -dx;
      }
      if y < 0 || y + ENEMY_SIZE > SCREEN_HEIGHT {
        dy := -dy;
      }
    }
  }
}
