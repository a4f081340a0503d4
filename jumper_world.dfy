/**
 * The game state of Jurassic-Jumper (Jurassic-Jumper/game.js): the globals
 * `state`, `player`, `platforms`, `cameraY`, `startY`, `score`, `best`,
 * `asteroids`, `asteroidTimer`, `accumulator` and `lastTime`, with `initGame`,
 * `startGame`, `genPlatforms`, the `update` tick and the fixed-timestep `loop`.
 */
module JumperWorld {
  import opened Random
  import opened JumperCommon
  import opened JumperPlatforms
  import opened JumperActors

  datatype GameState = Start | Play | Over

  /** The fixed timestep: 60 updates per second, in milliseconds. */
  const TICK: real := 1000.0 / 60.0
  /** At most this many updates run per frame. */
  const MAX_TICKS := 5
  /** The camera keeps the player this fraction of the screen height below its top. */
  const CAMERA_LEAD: real := 0.38

  /** The Math.random() values of one `update`: `genPlatforms`'s, then the asteroid's position and next delay. */
  datatype TickDraws = TickDraws(gen: nat -> GenDraw, asteroidX: real, spawnDelay: real)

  ghost predicate TickDrawsOk(d: TickDraws) {
    GenDrawsOk(d.gen) && Unit(d.asteroidX) && Unit(d.spawnDelay)
  }

  /** The Math.random() values of `initGame`: the first asteroid delay, then `genPlatforms`'s. */
  datatype StartDraws = StartDraws(spawnDelay: real, gen: nat -> GenDraw)

  ghost predicate StartDrawsOk(d: StartDraws) {
    Unit(d.spawnDelay) && GenDrawsOk(d.gen)
  }

  /** The ticks until the next asteroid: between 6 and 12 seconds. */
  function SpawnDelay(r: real): (t: real)
    requires Unit(r)
    ensures ASTEROID_SPAWN_MIN <= t < ASTEROID_SPAWN_MAX
  {
    ASTEROID_SPAWN_MIN + Scale(r, ASTEROID_SPAWN_MAX - ASTEROID_SPAWN_MIN)
  }

  /** The guaranteed static platform `initGame` puts just below the player. */
  function StartPlatform(pl: Player): (p: Platform)
    ensures p.kind == Static && p.y == pl.y + pl.h + 5.0 && p.w == 130.0
    ensures ShapeOk(p) && !p.broken
  {
    Platform(Static, pl.x - 15.0, pl.y + pl.h + 5.0, 130.0, PLATFORM_H, 0.0, 1, 0.0, 0.0, false, 0, 0)
  }

  /** Some asteroid of the list strikes the player. */
  predicate AnyStrike(rocks: seq<Asteroid>, pl: Player, cameraY: real) {
    exists i :: 0 <= i < |rocks| && Strikes(rocks[i], pl, cameraY)
  }

  /** The platform list after the platform loop of `update`: every platform ticked once. */
  function TickedPlatforms(ps: seq<Platform>): (r: seq<Platform>)
    ensures |r| == |ps| && forall i :: 0 <= i < |r| ==> r[i] == PlatformTick(ps[i])
  {
    seq(|ps|, i requires 0 <= i < |ps| => PlatformTick(ps[i]))
  }

  /**
   * The platform the collision loop of `update` bounces the player off: none
   * unless the player is falling, else the first in list order landed on.
   */
  function Landing(pl: Player, ps: seq<Platform>): (hit: Option<nat>)
    ensures hit.Some? ==> pl.vy > 0.0 && hit.value < |ps| && Lands(pl, ps[hit.value])
    ensures hit.Some? ==> forall j :: 0 <= j < hit.value ==> !Lands(pl, ps[j])
    ensures hit.None? <==> pl.vy <= 0.0 || forall j :: 0 <= j < |ps| ==> !Lands(pl, ps[j])
  {
    if pl.vy > 0.0 then FirstLanding(pl, ps, 0) else None
  }

  /** The `topY` loop of `update`: the lowest y among the camera and the platforms, in list order. */
  function HighestY(ps: seq<Platform>, cameraY: real): (t: real)
    ensures t <= cameraY
    ensures forall i :: 0 <= i < |ps| ==> t <= ps[i].y
    ensures t == cameraY || exists i :: 0 <= i < |ps| && t == ps[i].y
  {
    if ps == [] then cameraY
    else
      var t := HighestY(ps[..|ps| - 1], cameraY);
      assert forall i :: 0 <= i < |ps| - 1 ==> ps[..|ps| - 1][i] == ps[i];
      if ps[|ps| - 1].y < t then ps[|ps| - 1].y else t
  }

  /**
   * The platform list at the end of the platform part of `update`: the
   * survivors of the clean-up, then, when their top (or the camera) is less
   * than two screens above the camera, the strip up to three screens above it.
   */
  function Refilled(ps: seq<Platform>, cameraY: real, score: int, rnd: nat -> GenDraw): seq<Platform>
    requires GenDrawsOk(rnd) && score >= 0
  {
    var kept := KeptPlatforms(ps, cameraY);
    var top := HighestY(kept, cameraY);
    kept + (if top > cameraY - H * 2.0 then Strip(top, cameraY - H * 3.0, Difficulty(score), rnd, 0) else [])
  }

  /** `Refilled` once the top of the survivors is known. */
  lemma RefilledFrom(ps: seq<Platform>, cameraY: real, score: int, rnd: nat -> GenDraw, top: real)
    requires GenDrawsOk(rnd) && score >= 0
    requires top == HighestY(KeptPlatforms(ps, cameraY), cameraY)
    ensures top > cameraY - H * 2.0 ==>
              Refilled(ps, cameraY, score, rnd) ==
              KeptPlatforms(ps, cameraY) + Strip(top, cameraY - H * 3.0, Difficulty(score), rnd, 0)
    ensures top <= cameraY - H * 2.0 ==> Refilled(ps, cameraY, score, rnd) == KeptPlatforms(ps, cameraY) + []
  {
  }

  /** A refill of well-shaped platforms is well shaped, and all of it survives the next clean-up. */
  lemma RefilledShaped(ps: seq<Platform>, cameraY: real, score: int, rnd: nat -> GenDraw)
    requires GenDrawsOk(rnd) && score >= 0
    requires forall i :: 0 <= i < |ps| ==> ShapeOk(ps[i])
    ensures var r := Refilled(ps, cameraY, score, rnd);
      forall i :: 0 <= i < |r| ==> ShapeOk(r[i]) && Survives(r[i], cameraY)
  {
    var kept := KeptPlatforms(ps, cameraY);
    var top := HighestY(kept, cameraY);
    var strip := if top > cameraY - H * 2.0 then Strip(top, cameraY - H * 3.0, Difficulty(score), rnd, 0) else [];
    assert forall i :: 0 <= i < |kept| ==> ShapeOk(kept[i]);
    AppendedStrip(kept, strip, top);
    assert Refilled(ps, cameraY, score, rnd) == kept + strip;
  }

  /** The platforms the clean-up filter of `update` keeps. */
  function KeptPlatforms(ps: seq<Platform>, cameraY: real): (r: seq<Platform>)
    ensures forall i :: 0 <= i < |r| ==> Survives(r[i], cameraY) && r[i] in ps
    ensures forall i :: 0 <= i < |ps| && Survives(ps[i], cameraY) ==> ps[i] in r
  {
    Filter(ps, p => Survives(p, cameraY))
  }

  /** The clean-up keeps the survivors of a list in their order: it works piece by piece. */
  lemma KeptPlatformsInOrder(a: seq<Platform>, b: seq<Platform>, cameraY: real)
    ensures KeptPlatforms(a + b, cameraY) == KeptPlatforms(a, cameraY) + KeptPlatforms(b, cameraY)
    ensures KeptPlatforms([], cameraY) == []
    ensures forall p :: KeptPlatforms([p], cameraY) == if Survives(p, cameraY) then [p] else []
  {
    FilterAppend(a, b, p => Survives(p, cameraY));
  }

  /** The asteroids the clean-up filter of `update` keeps. */
  function KeptAsteroids(rocks: seq<Asteroid>, cameraY: real): (r: seq<Asteroid>)
    ensures forall i :: 0 <= i < |r| ==> OnScreen(r[i], cameraY) && r[i] in rocks
    ensures forall i :: 0 <= i < |rocks| && OnScreen(rocks[i], cameraY) ==> rocks[i] in r
  {
    Filter(rocks, a => OnScreen(a, cameraY))
  }

  /** The asteroid list after the asteroid loop of `update`: every asteroid ticked once against the camera. */
  function TickedAsteroids(rocks: seq<Asteroid>, cameraY: real): (r: seq<Asteroid>)
    ensures |r| == |rocks| && forall i :: 0 <= i < |r| ==> r[i] == AsteroidTick(rocks[i], cameraY)
  {
    seq(|rocks|, i requires 0 <= i < |rocks| => AsteroidTick(rocks[i], cameraY))
  }

  /** The same for the asteroid clean-up. */
  lemma KeptAsteroidsInOrder(a: seq<Asteroid>, b: seq<Asteroid>, cameraY: real)
    ensures KeptAsteroids(a + b, cameraY) == KeptAsteroids(a, cameraY) + KeptAsteroids(b, cameraY)
    ensures KeptAsteroids([], cameraY) == []
    ensures forall r :: KeptAsteroids([r], cameraY) == if OnScreen(r, cameraY) then [r] else []
  {
    FilterAppend(a, b, r => OnScreen(r, cameraY));
  }

  class World {
    var state: GameState
    var player: Player
    var platforms: seq<Platform>
    var cameraY: real
    var startY: real
    var score: int
    var best: int
    var asteroids: seq<Asteroid>
    var asteroidTimer: real
    var accumulator: real
    var lastTime: real

    /** What holds between two ticks. */
    ghost predicate Valid()
      reads this
    {
      && PlayerOk(player)
      && 0 <= score <= best
      && (state != Start ==> 0.0 < asteroidTimer < ASTEROID_SPAWN_MAX)
      && (forall i :: 0 <= i < |platforms| ==> ShapeOk(platforms[i]) && Survives(platforms[i], cameraY))
      && (forall i :: 0 <= i < |asteroids| ==> Pinned(asteroids[i], cameraY) && OnScreen(asteroids[i], cameraY))
    }

    ghost predicate PlatformsShaped()
      reads this
    {
      forall i :: 0 <= i < |platforms| ==> ShapeOk(platforms[i])
    }

    /** The state at page load: the start screen, best 0, no asteroids, the clock read at `now`. */
    constructor (now: real)
      ensures Valid()
      ensures state == Start && best == 0 && score == 0 && asteroids == [] && asteroidTimer == 0.0
      ensures accumulator == 0.0 && lastTime == now
      ensures player == StartPlayer() && platforms == [] && cameraY == 0.0 && startY == player.y
    {
      state := Start;
      player := StartPlayer();
      platforms := [];
      cameraY := 0.0;
      startY := StartPlayer().y;
      score := 0;
      best := 0;
      asteroids := [];
      asteroidTimer := 0.0;
      accumulator := 0.0;
      lastTime := now;
    }

    /** One iteration of `genPlatforms`: y rises by a random gap and a platform is made there. */
    static method NextPlatform(y: real, toY: real, diff: real, rnd: nat -> GenDraw, k: nat)
      returns (ny: real, p: Platform)
      requires 0.0 <= diff && GenDrawsOk(rnd) && y > toY
      ensures Steps(ny, toY) < Steps(y, toY)
      ensures Strip(y, toY, diff, rnd, k) == [p] + Strip(ny, toY, diff, rnd, k + 1)
    {
      ny := y - Gap(diff, rnd(k).gap);
      StepsDecrease(y, ny, toY);
      p := MakePlatform(ny, diff, rnd(k).platform);
    }

    /** `genPlatforms(fromY, toY, diff)`: push a platform a random gap higher until y reaches toY. */
    method GenPlatforms(fromY: real, toY: real, diff: real, rnd: nat -> GenDraw)
      requires 0.0 <= diff && GenDrawsOk(rnd)
      modifies this`platforms
      ensures platforms == old(platforms) + Strip(fromY, toY, diff, rnd, 0)
      ensures forall i :: |old(platforms)| <= i < |platforms| ==>
                platforms[i].y < fromY && ShapeOk(platforms[i]) && !platforms[i].broken
    {
      ghost var strip := Strip(fromY, toY, diff, rnd, 0);
      var y := fromY;
      var k := 0;
      while y > toY
        invariant old(platforms) + strip == platforms + Strip(y, toY, diff, rnd, k)
        decreases Steps(y, toY)
      {
        var ny, p := NextPlatform(y, toY, diff, rnd, k);
        platforms := platforms + [p];
        y := ny;
        k := k + 1;
      }
      AppendedStrip(old(platforms), strip, fromY);
    }

    /** `initGame`: a fresh run; `best` is kept. */
    method InitGame(d: StartDraws)
      requires Valid() && StartDrawsOk(d)
      modifies this`score, this`cameraY, this`platforms, this`asteroids, this`asteroidTimer, this`player, this`startY
      ensures Valid()
      ensures score == 0 && cameraY == 0.0 && asteroids == [] && player == StartPlayer() && startY == player.y
      ensures asteroidTimer == SpawnDelay(d.spawnDelay)
      ensures platforms == [StartPlatform(player)] + Strip(player.y + player.h, -3.0 * H, 0.0, d.gen, 0)
      ensures best == old(best) && state == old(state)
    {
      score := 0;
      cameraY := 0.0;
      platforms := [];
      asteroids := [];
      asteroidTimer := SpawnDelay(d.spawnDelay);
      player := StartPlayer();
      startY := player.y;
      platforms := platforms + [StartPlatform(player)];
      GenPlatforms(player.y + player.h, cameraY - H * 3.0, 0.0, d.gen);
      assert platforms[0] == StartPlatform(player);
    }

    /** `startGame`: a fresh run, in play. */
    method StartGame(d: StartDraws)
      requires Valid() && StartDrawsOk(d)
      modifies this`score, this`cameraY, this`platforms, this`asteroids, this`asteroidTimer, this`player,
               this`startY, this`state
      ensures Valid() && state == Play
      ensures score == 0 && cameraY == 0.0 && asteroids == [] && player == StartPlayer() && startY == player.y
      ensures asteroidTimer == SpawnDelay(d.spawnDelay)
      ensures platforms == [StartPlatform(player)] + Strip(player.y + player.h, -3.0 * H, 0.0, d.gen, 0)
      ensures best == old(best)
    {
      InitGame(d);
      state := Play;
    }

    /** The Space/Enter key and the click handler: start a run unless one is in play. */
    method Begin(d: StartDraws)
      requires Valid() && StartDrawsOk(d)
      modifies this`score, this`cameraY, this`platforms, this`asteroids, this`asteroidTimer, this`player,
               this`startY, this`state
      ensures Valid()
      ensures old(state) == Play ==> unchanged(this)
      ensures old(state) != Play ==>
                && state == Play && score == 0 && cameraY == 0.0 && asteroids == []
                && player == StartPlayer() && startY == player.y
                && asteroidTimer == SpawnDelay(d.spawnDelay)
                && platforms == [StartPlatform(player)] + Strip(player.y + player.h, -3.0 * H, 0.0, d.gen, 0)
                && best == old(best)
    {
      if state != Play {
        StartGame(d);
      }
    }

    /** Input, physics, wrap, camera and score: the first part of `update`. */
    method MoveAndScroll(left: bool, right: bool)
      requires PlayerOk(player) && 0 <= score <= best
      modifies this`player, this`cameraY, this`score, this`best
      ensures player == MovePlayer(old(player), left, right) && PlayerOk(player)
      ensures cameraY == Min(old(cameraY), player.y - H * CAMERA_LEAD)
      ensures score == MaxInt(old(score), (startY - player.y).Floor)
      ensures best == MaxInt(old(best), score)
      ensures 0 <= score <= best
    {
      player := MovePlayer(player, left, right);
      var target := player.y - H * CAMERA_LEAD;
      if target < cameraY {
        cameraY := target;
      }
      score := MaxInt(score, (startY - player.y).Floor);
      best := MaxInt(best, score);
    }

    /** The platform loop of `update`: every platform takes one tick, in place. */
    method TickPlatforms()
      requires PlatformsShaped()
      modifies this`platforms
      ensures PlatformsShaped()
      ensures |platforms| == |old(platforms)|
      ensures forall i :: 0 <= i < |platforms| ==> platforms[i] == PlatformTick(old(platforms)[i])
      ensures platforms == TickedPlatforms(old(platforms))
    {
      for i := 0 to |platforms|
        invariant |platforms| == |old(platforms)|
        invariant forall j :: 0 <= j < i ==> platforms[j] == PlatformTick(old(platforms)[j])
        invariant forall j :: i <= j < |platforms| ==> platforms[j] == old(platforms)[j]
        invariant PlatformsShaped()
      {
        PlatformTickKeepsShape(platforms[i]);
        platforms := platforms[i := PlatformTick(platforms[i])];
      }
      assert platforms == TickedPlatforms(old(platforms));
    }

    /**
     * The collision loop of `update`: only while falling, the first intact
     * platform in list order that the player lands on, and no other, bounces
     * the player and takes the landing's effect.
     */
    method Collide()
      requires PlatformsShaped() && PlayerOk(player)
      modifies this`player, this`platforms
      ensures PlatformsShaped() && PlayerOk(player)
      ensures var hit := Landing(old(player), old(platforms));
        && (hit.None? ==> player == old(player) && platforms == old(platforms))
        && (hit.Some? ==>
              && player == LandOn(old(player), old(platforms)[hit.value])
              && platforms == old(platforms)[hit.value := HitPlatform(old(platforms)[hit.value])])
    {
      if player.vy > 0.0 {
        var i := 0;
        while i < |platforms|
          invariant 0 <= i <= |platforms|
          invariant player == old(player) && platforms == old(platforms)
          invariant FirstLanding(player, platforms, 0) == FirstLanding(player, platforms, i)
        {
          var p := platforms[i];
          if !p.broken {
            var prevBot := player.prevY + player.h;
            var currBot := player.y + player.h;
            if prevBot <= p.y + p.h * 0.5 && currBot >= p.y &&
               player.x + player.w > p.x + 4.0 && player.x < p.x + p.w - 4.0 {
              HitPlatformKeepsShape(p);
              player := player.(y := p.y - player.h);
              if p.kind == Spring {
                player := player.(vy := SPRING_VEL);
                p := p.(pop := POP_TICKS);
              } else {
                player := player.(vy := JUMP_VEL);
              }
              if p.kind == Breakable {
                p := p.(broken := true, breakTimer := BREAK_TICKS);
              }
              platforms := platforms[i := p];
              return;
            }
          }
          i := i + 1;
        }
      }
    }

    /** `topY`: the camera, or the highest platform if one is higher. */
    method TopY() returns (top: real)
      ensures top <= cameraY
      ensures forall i :: 0 <= i < |platforms| ==> top <= platforms[i].y
      ensures top == cameraY || exists i :: 0 <= i < |platforms| && top == platforms[i].y
      ensures top == HighestY(platforms, cameraY)
    {
      top := cameraY;
      for i := 0 to |platforms|
        invariant top <= cameraY
        invariant forall j :: 0 <= j < i ==> top <= platforms[j].y
        invariant top == cameraY || exists j :: 0 <= j < i && top == platforms[j].y
        invariant top == HighestY(platforms[..i], cameraY)
      {
        assert platforms[..i + 1][..i] == platforms[..i];
        if platforms[i].y < top {
          top := platforms[i].y;
        }
      }
      assert platforms[..|platforms|] == platforms;
    }

    /**
     * The platform clean-up and refill of `update`: drop expired and
     * off-screen platforms, then, if the highest remaining one (or the camera)
     * is less than two screens above the camera, generate up to three screens
     * above the camera, starting from it.
     */
    method CleanAndExtend(rnd: nat -> GenDraw)
      requires PlatformsShaped() && GenDrawsOk(rnd) && score >= 0
      modifies this`platforms
      ensures platforms == Refilled(old(platforms), cameraY, score, rnd)
      ensures forall i :: 0 <= i < |platforms| ==> ShapeOk(platforms[i]) && Survives(platforms[i], cameraY)
    {
      ghost var ps := platforms;
      platforms := KeptPlatforms(platforms, cameraY);
      var top := TopY();
      RefilledFrom(ps, cameraY, score, rnd, top);
      if top > cameraY - H * 2.0 {
        GenPlatforms(top, cameraY - H * 3.0, Difficulty(score), rnd);
      } else {
        assert platforms == platforms + [];
      }
      RefilledShaped(ps, cameraY, score, rnd);
    }

    /** Asteroid spawning in `update`: count the timer down, and at zero drop a new asteroid and rearm. */
    method SpawnAsteroid(rx: real, rdelay: real)
      requires Unit(rx) && Unit(rdelay) && 0.0 < asteroidTimer < ASTEROID_SPAWN_MAX
      requires forall i :: 0 <= i < |asteroids| ==> Pending(asteroids[i])
      modifies this`asteroids, this`asteroidTimer
      ensures 0.0 < asteroidTimer < ASTEROID_SPAWN_MAX
      ensures forall i :: 0 <= i < |asteroids| ==> Pending(asteroids[i])
      ensures old(asteroidTimer) - 1.0 <= 0.0 ==>
                && asteroids == old(asteroids) + [Spawn(Scale(rx, W - ASTEROID_SIZE), cameraY)]
                && asteroidTimer == SpawnDelay(rdelay)
      ensures old(asteroidTimer) - 1.0 > 0.0 ==>
                asteroids == old(asteroids) && asteroidTimer == old(asteroidTimer) - 1.0
    {
      asteroidTimer := asteroidTimer - 1.0;
      if asteroidTimer <= 0.0 {
        var ax := Scale(rx, W - ASTEROID_SIZE);
        asteroids := asteroids + [Spawn(ax, cameraY)];
        asteroidTimer := SpawnDelay(rdelay);
      }
    }

    /** The asteroid loop of `update`: every asteroid takes one tick against the current camera. */
    method TickAsteroids()
      requires forall i :: 0 <= i < |asteroids| ==> Pending(asteroids[i])
      modifies this`asteroids
      ensures |asteroids| == |old(asteroids)|
      ensures forall i :: 0 <= i < |asteroids| ==>
                asteroids[i] == AsteroidTick(old(asteroids)[i], cameraY) && Pinned(asteroids[i], cameraY)
      ensures asteroids == TickedAsteroids(old(asteroids), cameraY)
    {
      for i := 0 to |asteroids|
        invariant |asteroids| == |old(asteroids)|
        invariant forall j :: 0 <= j < i ==>
                    asteroids[j] == AsteroidTick(old(asteroids)[j], cameraY) && Pinned(asteroids[j], cameraY)
        invariant forall j :: i <= j < |asteroids| ==> asteroids[j] == old(asteroids)[j]
      {
        AsteroidTickAdvances(asteroids[i], cameraY);
        asteroids := asteroids[i := AsteroidTick(asteroids[i], cameraY)];
      }
      assert asteroids == TickedAsteroids(old(asteroids), cameraY);
    }

    /** The asteroid collision loop of `update`: any striking asteroid ends the run. */
    method CheckStrikes()
      modifies this`state
      ensures state == if AnyStrike(asteroids, player, cameraY) then Over else old(state)
    {
      for i := 0 to |asteroids|
        invariant state == if AnyStrike(asteroids[..i], player, cameraY) then Over else old(state)
      {
        var a := asteroids[i];
        assert asteroids[..i + 1] == asteroids[..i] + [a];
        if a.falling {
          var asx, asy := a.x, a.y - cameraY;
          var px, py := player.x, player.y - cameraY;
          var margin := 10.0;
          if px + player.w - margin > asx + margin && px + margin < asx + ASTEROID_SIZE - margin &&
             py + player.h - margin > asy + margin && py + margin < asy + ASTEROID_SIZE - margin {
            state := Over;
          }
        }
        assert AnyStrike(asteroids[..i + 1], player, cameraY) <==>
               AnyStrike(asteroids[..i], player, cameraY) || Strikes(a, player, cameraY);
      }
      assert asteroids[..|asteroids|] == asteroids;
    }

    /**
     * `update`: one simulation tick, which does nothing unless a run is in
     * play. The camera only rises, score and best never drop, and the run
     * ends exactly when the player has fallen below the screen or a falling
     * asteroid strikes the player.
     */
    method Update(left: bool, right: bool, d: TickDraws)
      requires Valid() && TickDrawsOk(d)
      modifies this`player, this`cameraY, this`score, this`best, this`platforms, this`asteroids,
               this`asteroidTimer, this`state
      ensures Valid()
      ensures old(state) != Play ==> unchanged(this)
      ensures cameraY <= old(cameraY) && score >= old(score) && best >= old(best)
      ensures old(state) == Play ==>
                && cameraY == Min(old(cameraY), MovePlayer(old(player), left, right).y - H * CAMERA_LEAD)
                && score == MaxInt(old(score), (startY - MovePlayer(old(player), left, right).y).Floor)
                && best == MaxInt(old(best), score)
                && player.x == MovePlayer(old(player), left, right).x
                && (state == Over <==> Fell(player, cameraY) || AnyStrike(asteroids, player, cameraY))
                && (state != Over ==> state == Play)
      ensures old(state) == Play ==>
                var moved := MovePlayer(old(player), left, right);
                var ticked := TickedPlatforms(old(platforms));
                var hit := Landing(moved, ticked);
                var spawning := old(asteroidTimer) - 1.0 <= 0.0;
                var spawned := if spawning then old(asteroids) + [Spawn(Scale(d.asteroidX, W - ASTEROID_SIZE), cameraY)]
                               else old(asteroids);
                && player == (if hit.Some? then LandOn(moved, ticked[hit.value]) else moved)
                && platforms == Refilled(if hit.Some? then ticked[hit.value := HitPlatform(ticked[hit.value])] else ticked,
                                         cameraY, score, d.gen)
                && asteroids == KeptAsteroids(TickedAsteroids(spawned, cameraY), cameraY)
                && asteroidTimer == if spawning then SpawnDelay(d.spawnDelay) else old(asteroidTimer) - 1.0
    {
      if state != Play {
        return;
      }
      PlayerAndPlatforms(left, right, d.gen);
      AsteroidsAndEnd(d.asteroidX, d.spawnDelay);
    }

    /** The player, camera, score and platform half of `update`. */
    method PlayerAndPlatforms(left: bool, right: bool, rnd: nat -> GenDraw)
      requires PlayerOk(player) && 0 <= score <= best && PlatformsShaped() && GenDrawsOk(rnd)
      modifies this`player, this`cameraY, this`score, this`best, this`platforms
      ensures PlayerOk(player) && 0 <= score <= best
      ensures forall i :: 0 <= i < |platforms| ==> ShapeOk(platforms[i]) && Survives(platforms[i], cameraY)
      ensures cameraY == Min(old(cameraY), MovePlayer(old(player), left, right).y - H * CAMERA_LEAD)
      ensures score == MaxInt(old(score), (startY - MovePlayer(old(player), left, right).y).Floor)
      ensures best == MaxInt(old(best), score)
      ensures player.x == MovePlayer(old(player), left, right).x
      ensures var moved := MovePlayer(old(player), left, right);
        var ticked := TickedPlatforms(old(platforms));
        var hit := Landing(moved, ticked);
        && player == (if hit.Some? then LandOn(moved, ticked[hit.value]) else moved)
        && platforms == Refilled(if hit.Some? then ticked[hit.value := HitPlatform(ticked[hit.value])] else ticked,
                                 cameraY, score, rnd)
    {
      MoveAndScroll(left, right);
      TickPlatforms();
      Collide();
      CleanAndExtend(rnd);
    }

    /** The asteroid half of `update`, and the end-of-run tests. */
    method AsteroidsAndEnd(rx: real, rdelay: real)
      requires Unit(rx) && Unit(rdelay) && 0.0 < asteroidTimer < ASTEROID_SPAWN_MAX
      requires PlayerOk(player) && state == Play
      requires forall i :: 0 <= i < |asteroids| ==> Pending(asteroids[i])
      modifies this`asteroids, this`asteroidTimer, this`state
      ensures 0.0 < asteroidTimer < ASTEROID_SPAWN_MAX
      ensures forall i :: 0 <= i < |asteroids| ==> Pinned(asteroids[i], cameraY) && OnScreen(asteroids[i], cameraY)
      ensures state == if Fell(player, cameraY) || AnyStrike(asteroids, player, cameraY) then Over else Play
      ensures var spawning := old(asteroidTimer) - 1.0 <= 0.0;
        var spawned := if spawning then old(asteroids) + [Spawn(Scale(rx, W - ASTEROID_SIZE), cameraY)] else old(asteroids);
        && asteroids == KeptAsteroids(TickedAsteroids(spawned, cameraY), cameraY)
        && asteroidTimer == if spawning then SpawnDelay(rdelay) else old(asteroidTimer) - 1.0
    {
      SpawnAsteroid(rx, rdelay);
      TickAsteroids();
      CheckStrikes();
      FinishTick();
    }

    /** The asteroid clean-up and the fall test that close `update`. */
    method FinishTick()
      requires PlayerOk(player)
      requires forall i :: 0 <= i < |asteroids| ==> Pinned(asteroids[i], cameraY)
      requires state == if AnyStrike(asteroids, player, cameraY) then Over else Play
      modifies this`asteroids, this`state
      ensures forall i :: 0 <= i < |asteroids| ==> Pinned(asteroids[i], cameraY) && OnScreen(asteroids[i], cameraY)
      ensures asteroids == KeptAsteroids(old(asteroids), cameraY)
      ensures state == if Fell(player, cameraY) || AnyStrike(asteroids, player, cameraY) then Over else Play
    {
      ghost var ticked := asteroids;
      asteroids := KeptAsteroids(asteroids, cameraY);
      if player.y - cameraY > H + 50.0 {
        state := Over;
      }
      if AnyStrike(ticked, player, cameraY) && !Fell(player, cameraY) {
        var i :| 0 <= i < |ticked| && Strikes(ticked[i], player, cameraY);
        if !OnScreen(ticked[i], cameraY) {
          DroppedStrikeMeansFell(ticked[i], player, cameraY);
        }
        assert ticked[i] in asteroids;
      }
      if AnyStrike(asteroids, player, cameraY) {
        var i :| 0 <= i < |asteroids| && Strikes(asteroids[i], player, cameraY);
        assert asteroids[i] in ticked;
      }
    }

    /**
     * `loop`: add the elapsed time to the accumulator, cap it at five ticks,
     * and run one update per whole tick it holds.
     */
    method Frame(now: real, left: bool, right: bool, draws: seq<TickDraws>) returns (ticks: nat)
      requires Valid() && |draws| >= MAX_TICKS
      requires forall i :: 0 <= i < |draws| ==> TickDrawsOk(draws[i])
      modifies this
      ensures Valid()
      ensures lastTime == now
      ensures ticks <= MAX_TICKS && accumulator < TICK
      ensures var total := Min(old(accumulator) + (now - old(lastTime)), TICK * MAX_TICKS as real);
        && accumulator == total - ticks as real * TICK
        && (total >= 0.0 ==> 0.0 <= accumulator)
      ensures cameraY <= old(cameraY) && score >= old(score) && best >= old(best)
      ensures old(state) != Play ==>
                && state == old(state) && player == old(player) && platforms == old(platforms)
                && asteroids == old(asteroids) && asteroidTimer == old(asteroidTimer)
                && cameraY == old(cameraY) && score == old(score) && best == old(best)
    {
      accumulator := accumulator + (now - lastTime);
      lastTime := now;
      if accumulator > TICK * MAX_TICKS as real {
        accumulator := TICK * MAX_TICKS as real;
      }
      ghost var total := accumulator;
      ticks := 0;
      while accumulator >= TICK
        invariant Valid() && lastTime == now
        invariant ticks <= MAX_TICKS
        invariant accumulator == total - ticks as real * TICK
        invariant ticks > 0 ==> accumulator >= 0.0
        invariant cameraY <= old(cameraY) && score >= old(score) && best >= old(best)
        invariant old(state) != Play ==>
                    && state == old(state) && player == old(player) && platforms == old(platforms)
                    && asteroids == old(asteroids) && asteroidTimer == old(asteroidTimer)
                    && cameraY == old(cameraY) && score == old(score) && best == old(best)
        decreases MAX_TICKS - ticks
      {
        Update(left, right, draws[ticks]);
        accumulator := accumulator - TICK;
        ticks := ticks + 1;
      }
    }
  }
}
