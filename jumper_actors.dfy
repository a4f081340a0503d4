/**
 * The player and the asteroids of Jurassic-Jumper (Jurassic-Jumper/game.js,
 * `update`): steering and physics, the swept landing test, the asteroid's
 * warn-then-fall phases and the two ways a run ends.
 */
module JumperActors {
  import opened JumperCommon
  import opened JumperPlatforms

  datatype Player = Player(x: real, y: real, w: real, h: real, vx: real, vy: real, prevY: real)

  const PLAYER_SIZE: real := 64.0

  /** The player `initGame` places: centred, above the starting platform, already jumping. */
  function StartPlayer(): (pl: Player)
    ensures pl.w == PLAYER_SIZE && pl.h == PLAYER_SIZE && -pl.w <= pl.x <= W
    ensures pl.vy == JUMP_VEL && pl.vx == 0.0
  {
    Player(W / 2.0 - 32.0, H - 130.0, PLAYER_SIZE, PLAYER_SIZE, 0.0, JUMP_VEL, H - 120.0)
  }

  /** The input step: a held left or right key sets the speed, otherwise it decays by a quarter. */
  function Steer(vx: real, left: bool, right: bool): (v: real)
    ensures left ==> v == -SPEED
    ensures !left && right ==> v == SPEED
    ensures !left && !right ==> v == vx * 0.75 && Abs(v) <= Abs(vx)
  {
    if left then -SPEED else if right then SPEED else vx * 0.75
  }

  /**
   * Input, physics and horizontal wrap of `update`. A player who leaves the
   * screen entirely on one side reappears on the other, so the position ends
   * up in [-w, W].
   */
  function MovePlayer(pl: Player, left: bool, right: bool): (r: Player)
    ensures r.w == pl.w && r.h == pl.h
    ensures r.vx == Steer(pl.vx, left, right)
    ensures r.vy == pl.vy + GRAVITY && r.prevY == pl.y && r.y == pl.y + r.vy
    ensures pl.w >= 0.0 ==> -pl.w <= r.x <= W
    ensures -pl.w <= pl.x + r.vx <= W ==> r.x == pl.x + r.vx
    ensures pl.x + r.vx + pl.w < 0.0 ==> r.x == W
    ensures pl.x + r.vx > W && pl.w >= 0.0 ==> r.x == -pl.w
  {
    var vx := Steer(pl.vx, left, right);
    var vy := pl.vy + GRAVITY;
    var x := pl.x + vx;
    var x1 := if x + pl.w < 0.0 then W else x;
    var x2 := if x1 > W then -pl.w else x1;
    Player(x2, pl.y + vy, pl.w, pl.h, vx, vy, pl.y)
  }

  /** The player is on the screen horizontally and has the sprite's size. */
  predicate PlayerOk(pl: Player) {
    pl.w == PLAYER_SIZE && pl.h == PLAYER_SIZE && -pl.w <= pl.x <= W
  }

  /**
   * The swept landing test: the platform is intact, the player's feet were
   * above the platform's middle before the move and are at or below its top
   * after it, and the player overlaps it horizontally by more than 4 on each side.
   */
  predicate Lands(pl: Player, p: Platform) {
    && !p.broken
    && pl.prevY + pl.h <= p.y + p.h * 0.5
    && pl.y + pl.h >= p.y
    && pl.x + pl.w > p.x + 4.0
    && pl.x < p.x + p.w - 4.0
  }

  /** The effect of a landing on the player: stand on the platform and bounce. */
  function LandOn(pl: Player, p: Platform): Player {
    pl.(y := p.y - pl.h, vy := if p.kind == Spring then SPRING_VEL else JUMP_VEL)
  }

  /**
   * A landing puts the player's feet on the platform's top, never lower than
   * the player was, and sends the player upward; a spring sends the player
   * up faster than an ordinary bounce.
   */
  lemma LandingBounces(pl: Player, p: Platform)
    requires Lands(pl, p)
    ensures LandOn(pl, p).y + pl.h == p.y && LandOn(pl, p).y <= pl.y
    ensures LandOn(pl, p).vy < 0.0
    ensures p.kind == Spring <==> LandOn(pl, p).vy < JUMP_VEL
    ensures LandOn(pl, p).(y := pl.y, vy := pl.vy) == pl
  {
  }

  /** The first platform at or after index `from`, in list order, that the player lands on. */
  function FirstLanding(pl: Player, ps: seq<Platform>, from: nat): (r: Option<nat>)
    requires from <= |ps|
    ensures r.Some? ==> from <= r.value < |ps| && Lands(pl, ps[r.value])
    ensures r.Some? ==> forall j :: from <= j < r.value ==> !Lands(pl, ps[j])
    ensures r.None? <==> forall j :: from <= j < |ps| ==> !Lands(pl, ps[j])
    decreases |ps| - from
  {
    if from == |ps| then None
    else if Lands(pl, ps[from]) then Some(from)
    else FirstLanding(pl, ps, from + 1)
  }

  datatype Asteroid = Asteroid(x: real, y: real, warn: int, falling: bool)

  /** A new asteroid: pinned just above the camera and warning for 300 ticks. */
  function Spawn(x: real, cameraY: real): Asteroid {
    Asteroid(x, cameraY - ASTEROID_SIZE, ASTEROID_WARN_TICKS, false)
  }

  /**
   * One iteration of the asteroid loop of `update`: while warning, count down
   * and stay pinned above the camera, starting to fall when the count reaches
   * zero; a falling asteroid drops by 2.5.
   */
  function AsteroidTick(a: Asteroid, cameraY: real): Asteroid {
    var pinned :=
      if a.warn > 0 then
        var w := a.warn - 1;
        a.(warn := w, y := cameraY - ASTEROID_SIZE, falling := if w <= 0 then true else a.falling)
      else a;
    if pinned.falling then pinned.(y := pinned.y + ASTEROID_FALL_SPEED) else pinned
  }

  /** The phase invariant before a tick: warning with a count in 1..300, or falling with count 0. */
  predicate Pending(a: Asteroid) {
    0 <= a.warn <= ASTEROID_WARN_TICKS && (a.falling <==> a.warn == 0)
  }

  /** The phase invariant after a tick: as `Pending`, a warning one pinned above the camera. */
  predicate Pinned(a: Asteroid, cameraY: real) {
    && 0 <= a.warn < ASTEROID_WARN_TICKS
    && (a.falling <==> a.warn == 0)
    && (!a.falling ==> a.y == cameraY - ASTEROID_SIZE)
  }

  /**
   * A tick takes a pending asteroid to a pinned one: the count drops by one
   * (or stays 0), a warning asteroid sits just above the camera, and one that
   * was already falling drops by exactly 2.5.
   */
  lemma AsteroidTickAdvances(a: Asteroid, cameraY: real)
    requires Pending(a)
    ensures Pinned(AsteroidTick(a, cameraY), cameraY)
    ensures AsteroidTick(a, cameraY).warn == MaxInt(0, a.warn - 1)
    ensures AsteroidTick(a, cameraY).x == a.x
    ensures a.falling ==> AsteroidTick(a, cameraY).y == a.y + ASTEROID_FALL_SPEED
    ensures a.warn == 1 ==> AsteroidTick(a, cameraY).y == cameraY - ASTEROID_SIZE + ASTEROID_FALL_SPEED
  {
  }

  /** The asteroid after one tick per camera position of `cams`, in order. */
  function AsteroidTicks(a: Asteroid, cams: seq<real>): Asteroid {
    if cams == [] then a else AsteroidTick(AsteroidTicks(a, cams[..|cams| - 1]), cams[|cams| - 1])
  }

  /**
   * A new asteroid warns for 300 ticks counting the tick that spawns it,
   * pinned above the camera of each tick, then falls 2.5 per tick from where
   * the 300th tick released it.
   */
  lemma {:induction false} AsteroidLifecycle(x: real, spawnCam: real, cams: seq<real>)
    ensures var a := AsteroidTicks(Spawn(x, spawnCam), cams);
      && a.x == x
      && a.warn == MaxInt(0, ASTEROID_WARN_TICKS - |cams|)
      && (a.falling <==> |cams| >= ASTEROID_WARN_TICKS)
      && (0 < |cams| < ASTEROID_WARN_TICKS ==> a.y == cams[|cams| - 1] - ASTEROID_SIZE)
      && (|cams| >= ASTEROID_WARN_TICKS ==>
            a.y == cams[ASTEROID_WARN_TICKS - 1] - ASTEROID_SIZE
                   + ASTEROID_FALL_SPEED * (|cams| - ASTEROID_WARN_TICKS + 1) as real)
  {
    if cams != [] {
      var prefix := cams[..|cams| - 1];
      AsteroidLifecycle(x, spawnCam, prefix);
      if |cams| > ASTEROID_WARN_TICKS {
        assert prefix[ASTEROID_WARN_TICKS - 1] == cams[ASTEROID_WARN_TICKS - 1];
      }
    }
  }

  /**
   * The asteroid hit test: a falling asteroid whose box, shrunk by the
   * 10-pixel margin, overlaps the player's box shrunk the same way (both in
   * screen coordinates).
   */
  predicate Strikes(a: Asteroid, pl: Player, cameraY: real) {
    var asx := a.x;
    var asy := a.y - cameraY;
    var px := pl.x;
    var py := pl.y - cameraY;
    && a.falling
    && px + pl.w - 10.0 > asx + 10.0
    && px + 10.0 < asx + ASTEROID_SIZE - 10.0
    && py + pl.h - 10.0 > asy + 10.0
    && py + 10.0 < asy + ASTEROID_SIZE - 10.0
  }

  /** The asteroid clean-up filter: not more than 100 below the bottom of the screen. */
  predicate OnScreen(a: Asteroid, cameraY: real) {
    a.y - cameraY < H + 100.0
  }

  /** The fall test of `update`: the player is more than 50 below the bottom of the screen. */
  predicate Fell(pl: Player, cameraY: real) {
    pl.y - cameraY > H + 50.0
  }

  /**
   * An asteroid the clean-up filter drops can only have struck a player who
   * has fallen off the screen anyway.
   */
  lemma DroppedStrikeMeansFell(a: Asteroid, pl: Player, cameraY: real)
    requires pl.h == PLAYER_SIZE && Strikes(a, pl, cameraY) && !OnScreen(a, cameraY)
    ensures Fell(pl, cameraY)
  {
  }
}
