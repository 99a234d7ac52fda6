/** One iteration of the game loop, without drawing: drain the events, move
    the live player, move every obstacle, and kill the live player if any
    obstacle overlaps it. */
module Simulation {
  import opened Config
  import opened Collision
  import opened Player
  import opened Obstacle

  /** The events the loop reacts to; every other kind is ignored. */
  datatype Event = Quit | KeyDown | Other

  datatype World = World(player: PlayerState, enemies: seq<EnemyState>)

  predicate WorldInv(w: World) {
    |w.enemies| == ENEMY_COUNT && PlayerInv(w.player) &&
    forall i :: 0 <= i < |w.enemies| ==> EnemyInv(w.enemies[i])
  }

  function InitialWorld(now: int, spawns: seq<Spawn>): (w: World)
    requires |spawns| == ENEMY_COUNT && forall i :: 0 <= i < |spawns| ==> SpawnOK(spawns[i])
    ensures WorldInv(w)
  {
    World(Initial(now), seq(|spawns|, i requires 0 <= i < |spawns| => Spawned(spawns[i])))
  }

  /** The player collides with an obstacle; this needs the two boxes to intersect. */
  predicate Overlaps(p: PlayerState, e: EnemyState)
    ensures Overlaps(p, e) ==>
              Abs(p.x - e.x) < CHAR_RADIUS + ENEMY_RADIUS && Abs(p.y - e.y) < CHAR_RADIUS + ENEMY_RADIUS
  {
    CirclesCollide(PlayerCircle(p), EnemyCircle(e))
  }

  predicate AnyOverlap(p: PlayerState, es: seq<EnemyState>)
    ensures es == [] ==> !AnyOverlap(p, es)
    ensures AnyOverlap(p, es) ==>
              exists j :: 0 <= j < |es| && Abs(p.x - es[j].x) < CHAR_RADIUS + ENEMY_RADIUS &&
                          Abs(p.y - es[j].y) < CHAR_RADIUS + ENEMY_RADIUS
  {
    exists j :: 0 <= j < |es| && Overlaps(p, es[j])
  }

  /** One event: a key press while dead respawns the player. */
  function HandleEvent(p: PlayerState, ev: Event, now: int): (r: PlayerState)
    ensures p.alive || ev != KeyDown ==> r == p
    ensures ev == KeyDown ==> r.alive
    ensures PlayerInv(p) ==> PlayerInv(r)
  {
    if ev == KeyDown && !p.alive then Respawned(p, now) else p
  }

  /** The event list, processed in order. */
  function HandleEvents(p: PlayerState, evs: seq<Event>, now: int): (r: PlayerState)
    ensures r == p || r == Respawned(p, now)
    ensures PlayerInv(p) ==> PlayerInv(r)
    decreases |evs|
  {
    if evs == [] then p
    else HandleEvent(HandleEvents(p, evs[..|evs| - 1], now), evs[|evs| - 1], now)
  }

  /** The events respawn a dead player exactly when there is a key press among
      them, and leave a live player alone. */
  lemma {:induction false} HandleEventsResult(p: PlayerState, evs: seq<Event>, now: int)
    ensures HandleEvents(p, evs, now) ==
              if p.alive || KeyDown !in evs then p else Respawned(p, now)
    decreases |evs|
  {
    if evs != [] {
      var init, last := evs[..|evs| - 1], evs[|evs| - 1];
      assert evs == init + [last];
      HandleEventsResult(p, init, now);
    }
  }

  /** Only the first key press of a dead player's tick does anything: before
      it the player stays as it is, it respawns the player, and the presses
      after it find the player alive and change nothing. */
  lemma FirstKeyDownRespawns(p: PlayerState, evs: seq<Event>, now: int, k: nat)
    requires !p.alive && k < |evs| && evs[k] == KeyDown
    requires forall j :: 0 <= j < k ==> evs[j] != KeyDown
    ensures HandleEvents(p, evs[..k], now) == p
    ensures HandleEvents(p, evs[..k + 1], now) == Respawned(p, now)
    ensures HandleEvents(Respawned(p, now), evs[k + 1..], now) == Respawned(p, now)
    ensures HandleEvents(p, evs, now) == Respawned(p, now)
  {
    HandleEventsResult(p, evs[..k], now);
    assert evs[..k + 1][k] == KeyDown;
    HandleEventsResult(p, evs[..k + 1], now);
    HandleEventsResult(Respawned(p, now), evs[k + 1..], now);
    HandleEventsResult(p, evs, now);
  }

  function StepAll(es: seq<EnemyState>): (r: seq<EnemyState>)
    ensures |r| == |es| && forall i :: 0 <= i < |es| ==> r[i] == EnemyStep(es[i])
  {
    seq(|es|, i requires 0 <= i < |es| => EnemyStep(es[i]))
  }

  /** The player the collision pass sees: after the events and its own update. */
  function MovedPlayer(w: World, evs: seq<Event>, keys: Keys, now: int): (r: PlayerState)
    ensures r.alive == (w.player.alive || KeyDown in evs)
    ensures r.alive ==> InBounds(r)
    ensures PlayerInv(w.player) ==> PlayerInv(r)
  {
    HandleEventsResult(w.player, evs, now);
    Updated(HandleEvents(w.player, evs, now), keys)
  }

  /** The non-drawing part of one pass of the main loop. */
  function TickWorld(w: World, evs: seq<Event>, keys: Keys, now: int): (r: World)
    ensures r.enemies == StepAll(w.enemies)
  {
    var p := MovedPlayer(w, evs, keys, now);
    var es := StepAll(w.enemies);
    World(if p.alive && AnyOverlap(p, es) then Killed(p) else p, es)
  }

  /** The obstacles move the same whatever the player's state, the events and the keys. */
  lemma EnemiesIgnorePlayer(w1: World, w2: World, evs1: seq<Event>, evs2: seq<Event>,
                            k1: Keys, k2: Keys, now1: int, now2: int)
    requires w1.enemies == w2.enemies
    ensures TickWorld(w1, evs1, k1, now1).enemies == TickWorld(w2, evs2, k2, now2).enemies
  {
  }

  /** The player ends the tick dead exactly when it was dead and no key was
      pressed, or it was alive after its update and an obstacle overlaps it. */
  lemma TickDeathIff(w: World, evs: seq<Event>, keys: Keys, now: int)
    ensures !TickWorld(w, evs, keys, now).player.alive <==>
              (!w.player.alive && KeyDown !in evs) ||
              ((w.player.alive || KeyDown in evs) &&
               AnyOverlap(MovedPlayer(w, evs, keys, now), StepAll(w.enemies)))
  {
    HandleEventsResult(w.player, evs, now);
  }

  /** A dead player that gets no key press keeps its whole state through the tick. */
  lemma DeadWithoutKeyStays(w: World, evs: seq<Event>, keys: Keys, now: int)
    requires !w.player.alive && KeyDown !in evs
    ensures TickWorld(w, evs, keys, now).player == w.player
  {
    HandleEventsResult(w.player, evs, now);
  }

  lemma TickKeepsInv(w: World, evs: seq<Event>, keys: Keys, now: int)
    requires WorldInv(w)
    ensures WorldInv(TickWorld(w, evs, keys, now))
  {
    HandleEventsResult(w.player, evs, now);
    var r := TickWorld(w, evs, keys, now);
    forall i | 0 <= i < |r.enemies|
      ensures EnemyInv(r.enemies[i])
    {
      EnemyStepKeepsInv(w.enemies[i]);
    }
  }

  /** An obstacle on the same spot as a live, still player kills it this tick:
      the obstacle has moved by only (+-2, +-2) when the collision is tested. */
  lemma StackedObstacleKills(w: World, now: int, k: nat)
    requires WorldInv(w) && w.player.alive && k < |w.enemies|
    requires w.enemies[k].x == w.player.x && w.enemies[k].y == w.player.y
    ensures !TickWorld(w, [], Keys(false, false, false, false), now).player.alive
  {
  }

  /** What one pass of the loop reads from outside: the pending events, the
      held keys and the clock. */
  datatype Frame = Frame(events: seq<Event>, keys: Keys, now: int)

  /** The world after the given frames, one tick each. */
  function RunWorld(w: World, frames: seq<Frame>): (r: World)
    ensures |r.enemies| == |w.enemies|
    decreases |frames|
  {
    if frames == [] then w
    else
      var f := frames[|frames| - 1];
      TickWorld(RunWorld(w, frames[..|frames| - 1]), f.events, f.keys, f.now)
  }

  /** Playing one more frame is one more tick. */
  lemma RunWorldStep(w: World, frames: seq<Frame>, n: nat)
    requires n < |frames|
    ensures RunWorld(w, frames[..n + 1]) ==
              TickWorld(RunWorld(w, frames[..n]), frames[n].events, frames[n].keys, frames[n].now)
  {
    assert frames[..n + 1][..n] == frames[..n];
  }

  /** After n frames each obstacle is where n of its own steps take it, whatever
      the player did. */
  lemma {:induction false} RunMovesEnemies(w: World, frames: seq<Frame>, i: nat)
    requires i < |w.enemies|
    ensures RunWorld(w, frames).enemies[i] == StepN(w.enemies[i], |frames|)
    decreases |frames|
  {
    if frames != [] {
      RunMovesEnemies(w, frames[..|frames| - 1], i);
    }
  }

  lemma {:induction false} RunKeepsInv(w: World, frames: seq<Frame>)
    requires WorldInv(w)
    ensures WorldInv(RunWorld(w, frames))
    decreases |frames|
  {
    if frames != [] {
      var f := frames[|frames| - 1];
      RunKeepsInv(w, frames[..|frames| - 1]);
      TickKeepsInv(RunWorld(w, frames[..|frames| - 1]), f.events, f.keys, f.now);
    }
  }

  /** Distinct obstacles are distinct objects. */
  predicate Distinct(es: seq<Enemy>) {
    forall i, j :: 0 <= i < j < |es| ==> es[i] != es[j]
  }

  function StatesOf(es: seq<Enemy>): (r: seq<EnemyState>)
    reads es
    ensures |r| == |es| && forall i :: 0 <= i < |es| ==> r[i] == es[i].State()
  {
    if es == [] then [] else [es[0].State()] + StatesOf(es[1..])
  }

  class Game {
    const player: Character
    const enemies: seq<Enemy>

    function WorldOf(): World
      reads player, enemies
    {
      World(player.State(), StatesOf(enemies))
    }

    ghost predicate Valid()
      reads player, enemies
    {
      Distinct(enemies) && WorldInv(WorldOf())
    }

    /** The player and the ten obstacles, from the clock reading and the random choices. */
    constructor (now: int, spawns: seq<Spawn>)
      requires |spawns| == ENEMY_COUNT && forall i :: 0 <= i < |spawns| ==> SpawnOK(spawns[i])
      ensures Valid()
      ensures WorldOf() == InitialWorld(now, spawns)
    {
      var es: seq<Enemy> := [];
      for i := 0 to |spawns|
        invariant |es| == i && Distinct(es)
        invariant forall j :: 0 <= j < i ==> es[j].State() == Spawned(spawns[j])
      {
        var e := new Enemy(spawns[i]);
        es := es + [e];
      }
      player := new Character(now);
      enemies := es;
      new;
      assert StatesOf(enemies) == InitialWorld(now, spawns).enemies;
    }

    /** The event loop: a quit request clears `running`, a key press while
        dead respawns the player. */
    method ProcessEvents(events: seq<Event>, now: int) returns (running: bool)
      modifies player
      ensures running == (Quit !in events)
      ensures player.State() == HandleEvents(old(player.State()), events, now)
      ensures StatesOf(enemies) == old(StatesOf(enemies))
    {
      running := true;
      for i := 0 to |events|
        invariant running == (Quit !in events[..i])
        invariant player.State() == HandleEvents(old(player.State()), events[..i], now)
      {
        assert events[..i + 1] == events[..i] + [events[i]];
        if events[i] == Quit {
          running := false;
        }
        if events[i] == KeyDown && !player.isAlive {
          player.Respawn(now);
        }
      }
      assert events[..|events|] == events;
    }

    /** Every obstacle moves, one after the other. */
    method MoveEnemies()
      requires Distinct(enemies)
      modifies enemies
      ensures StatesOf(enemies) == StepAll(old(StatesOf(enemies)))
      ensures player.State() == old(player.State())
    {
      ghost var before := StatesOf(enemies);
      for i := 0 to |enemies|
        invariant forall j :: 0 <= j < i ==> enemies[j].State() == EnemyStep(before[j])
        invariant forall j :: i <= j < |enemies| ==> enemies[j].State() == before[j]
      {
        enemies[i].Update();
      }
      assert StatesOf(enemies) == StepAll(before);
    }

    /** The collision pass over a live player: each overlapping obstacle kills it. */
    method CheckCollisions()
      requires player.isAlive
      modifies player
      ensures player.State() ==
                if AnyOverlap(old(player.State()), StatesOf(enemies)) then Killed(old(player.State()))
                else old(player.State())
      ensures StatesOf(enemies) == old(StatesOf(enemies))
    {
      ghost var p := player.State();
      ghost var es := StatesOf(enemies);
      for i := 0 to |enemies|
        invariant player.State() == p || player.State() == Killed(p)
        invariant player.isAlive <==> forall j :: 0 <= j < i ==> !Overlaps(p, es[j])
      {
        if CirclesCollide(PlayerCircle(player.State()), EnemyCircle(enemies[i].State())) {
          player.Die();
        }
      }
    }

    /** One pass of the main loop, without drawing; `running` is false when
        the events held a quit request. */
    method Tick(events: seq<Event>, keys: Keys, now: int) returns (running: bool)
      requires Valid()
      modifies player, enemies
      ensures Valid()
      ensures running == (Quit !in events)
      ensures WorldOf() == TickWorld(old(WorldOf()), events, keys, now)
    {
      ghost var w := WorldOf();
      running := ProcessEvents(events, now);
      if player.isAlive {
        player.Update(keys);
      }
      assert StatesOf(enemies) == w.enemies;
      MoveEnemies();
      ghost var p, es := MovedPlayer(w, events, keys, now), StepAll(w.enemies);
      assert player.State() == p;
      if player.isAlive {
        CheckCollisions();
      }
      ghost var r := TickWorld(w, events, keys, now);
      assert StatesOf(enemies) == r.enemies && player.State() == r.player;
      TickKeepsInv(w, events, keys, now);
    }

    /** The `while running` loop over a supply of frames: it stops after the
        first frame whose events hold a quit request (that frame is still
        processed in full), or when the frames run out. */
    method Play(frames: seq<Frame>) returns (played: nat)
      requires Valid()
      modifies player, enemies
      ensures Valid()
      ensures played <= |frames|
      ensures forall j :: 0 <= j < played - 1 ==> Quit !in frames[j].events
      ensures played < |frames| ==> 0 < played && Quit in frames[played - 1].events
      ensures WorldOf() == RunWorld(old(WorldOf()), frames[..played])
    {
      ghost var w := WorldOf();
      var running := true;
      played := 0;
      while running && played < |frames|
        invariant Valid()
        invariant played <= |frames|
        invariant forall j :: 0 <= j < played - 1 ==> Quit !in frames[j].events
        invariant running ==> forall j :: 0 <= j < played ==> Quit !in frames[j].events
        invariant !running ==> 0 < played && Quit in frames[played - 1].events
        invariant WorldOf() == RunWorld(w, frames[..played])
        decreases |frames| - played
      {
        var f := frames[played];
        ghost var before := WorldOf();
        running := Tick(f.events, f.keys, f.now);
        RunWorldStep(w, frames, played);
        played := played + 1;
      }
    }
  }
}
