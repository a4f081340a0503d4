/**
 * Platforms of Jurassic-Jumper (Jurassic-Jumper/game.js, "Platforms"):
 * difficulty, `makePlatform`, the per-tick platform update, the landing
 * effects and the level strip that `genPlatforms` pushes.
 */
module JumperPlatforms {
  import opened Random
  import opened JumperCommon

  datatype Kind = Static | Moving | Breakable | Spring

  datatype Platform = Platform(
    kind: Kind, x: real, y: real, w: real, h: real,
    startX: real, dir: int, speed: real, range: real,
    broken: bool, breakTimer: int, pop: int)

  const PLATFORM_H: real := 16.0
  /** Ticks a breakable platform stays after it breaks. */
  const BREAK_TICKS: int := 20
  /** Ticks of a spring's "pop" animation. */
  const POP_TICKS: int := 10
  /** The smallest vertical gap between consecutive generated platforms. */
  const MIN_GAP: real := 70.0

  /** `getDiff`: the score scaled to [0, 1], saturating at 6000. */
  function Difficulty(score: int): (d: real)
    ensures d <= 1.0
    ensures score >= 0 ==> 0.0 <= d
    ensures d == 1.0 <==> score as real >= FULL_DIFFICULTY_SCORE
    ensures d < 1.0 ==> d * FULL_DIFFICULTY_SCORE == score as real
  {
    Min(1.0, score as real / FULL_DIFFICULTY_SCORE)
  }

  /** The difficulty never drops as the score grows. */
  lemma DifficultyMonotone(a: int, b: int)
    requires a <= b
    ensures Difficulty(a) <= Difficulty(b)
  {
  }

  /** The platform type chosen by `makePlatform` from its third random draw. */
  function KindFor(diff: real, r: real): (k: Kind)
    ensures k == Breakable ==> diff >= 0.3
    ensures diff < 0.3 ==> (k == Static <==> r < 0.88)
    ensures diff >= 0.3 ==> (k == Static <==> r < (if diff < 0.6 then 0.65 else 0.45))
    ensures r >= 0.94 ==> k != Static
  {
    if diff < 0.3 then
      (if r < 0.88 then Static else if r < 0.94 then Spring else Moving)
    else if diff < 0.6 then
      (if r < 0.65 then Static else if r < 0.78 then Moving else if r < 0.90 then Breakable else Spring)
    else
      (if r < 0.45 then Static else if r < 0.65 then Moving else if r < 0.82 then Breakable else Spring)
  }

  /** The Math.random() values `makePlatform` draws: width, position, type, direction sign, range. */
  datatype PlatformDraws = PlatformDraws(width: real, pos: real, kind: real, sign: real, reach: real)

  predicate PlatformDrawsOk(d: PlatformDraws) {
    Unit(d.width) && Unit(d.pos) && Unit(d.kind) && Unit(d.sign) && Unit(d.reach)
  }

  /** The displacement of a platform in one tick. */
  function Velocity(p: Platform): real {
    p.speed * p.dir as real
  }

  /**
   * The oscillation invariant of a moving platform: it is within `range` of
   * its start, or its next move brings it back within `range`.
   */
  predicate Oscillating(p: Platform) {
    Abs(p.x - p.startX) <= p.range || Abs(p.x + Velocity(p) - p.startX) <= p.range
  }

  /** The invariant every platform in the level keeps. */
  predicate ShapeOk(p: Platform) {
    && p.h == PLATFORM_H
    && (p.dir == 1 || p.dir == -1)
    && 0 <= p.pop <= POP_TICKS
    && (p.broken ==> p.kind == Breakable && 0 <= p.breakTimer <= BREAK_TICKS)
    && (!p.broken ==> p.breakTimer == 0)
    && p.range >= 0.0
    && (p.kind == Moving ==> Oscillating(p))
  }

  /** A broken platform whose timer has run out; the clean-up filter removes it. */
  predicate Expired(p: Platform) {
    p.broken && p.breakTimer <= 0
  }

  /** The clean-up filter of `update`: not expired and not below the screen. */
  predicate Survives(p: Platform, cameraY: real) {
    !Expired(p) && p.y < cameraY + H
  }

  /** `makePlatform(y, diff)` with its random draws supplied. */
  function MakePlatform(y: real, diff: real, d: PlatformDraws): (p: Platform)
    requires PlatformDrawsOk(d)
    ensures 80.0 <= p.w < 140.0
    ensures 0.0 <= p.x < W - p.w
    ensures p.y == y && p.h == PLATFORM_H
    ensures p.kind == KindFor(diff, d.kind)
    ensures diff < 0.3 ==> p.kind != Breakable
    ensures p.kind != Moving ==> p.speed == 0.0
    ensures p.kind == Moving ==> Abs(p.speed) == Abs(1.5 + diff * 3.0)
    ensures diff >= 0.0 ==> 50.0 <= p.range <= 110.0 + diff * 80.0
    ensures p.startX == p.x && p.dir == 1 && !p.broken && p.breakTimer == 0 && p.pop == 0
    ensures diff >= 0.0 ==> ShapeOk(p)
  {
    var w := 80.0 + Scale(d.width, 60.0);
    var x := Scale(d.pos, W - w);
    var kind := KindFor(diff, d.kind);
    var speed := if kind == Moving then (if d.sign < 0.5 then 1.5 + diff * 3.0 else -(1.5 + diff * 3.0)) else 0.0;
    Platform(kind, x, y, w, PLATFORM_H, x, 1, speed, 50.0 + Scale(d.reach, 60.0 + diff * 80.0), false, 0, 0)
  }

  /** One iteration of the platform loop of `update`: move, count down the break timer and the pop. */
  function PlatformTick(p: Platform): Platform {
    var moved :=
      if p.kind == Moving then
        var nx := p.x + Velocity(p);
        p.(x := nx, dir := if Abs(nx - p.startX) > p.range then -p.dir else p.dir)
      else p;
    var timed := if moved.broken && moved.breakTimer > 0 then moved.(breakTimer := moved.breakTimer - 1) else moved;
    if timed.pop > 0 then timed.(pop := timed.pop - 1) else timed
  }

  /**
   * A tick moves a moving platform by its velocity and reverses it exactly
   * when it ends up more than `range` from its start; everything but the
   * position, direction and timers stays.
   */
  lemma PlatformTickMoves(p: Platform)
    requires p.dir == 1 || p.dir == -1
    ensures var r := PlatformTick(p);
      && r.kind == p.kind && r.y == p.y && r.w == p.w && r.h == p.h && r.startX == p.startX
      && r.speed == p.speed && r.range == p.range && r.broken == p.broken
      && (p.kind == Moving ==>
            r.x == p.x + Velocity(p) && (r.dir == -p.dir <==> Abs(r.x - p.startX) > p.range))
      && (p.kind != Moving ==> r.x == p.x && r.dir == p.dir)
  {
  }

  /** The platform invariant survives a tick; in particular a moving platform keeps oscillating. */
  lemma PlatformTickKeepsShape(p: Platform)
    requires ShapeOk(p)
    ensures ShapeOk(PlatformTick(p))
  {
    if p.kind == Moving {
      var r := PlatformTick(p);
      assert Velocity(r) == -Velocity(p) || Velocity(r) == Velocity(p);
      if Abs(p.x + Velocity(p) - p.startX) > p.range {
        assert Velocity(r) == -Velocity(p);
        assert r.x + Velocity(r) == p.x;
      }
    }
  }

  /** A moving platform never strays more than `range` plus one step from where it started. */
  lemma MovingPlatformStaysNearStart(p: Platform)
    requires ShapeOk(p) && p.kind == Moving
    ensures Abs(p.x - p.startX) <= p.range + Abs(p.speed)
  {
    assert Abs(Velocity(p)) == Abs(p.speed);
  }

  /** The effect of a landing on the platform: a spring pops, a breakable breaks. */
  function HitPlatform(p: Platform): Platform {
    var sprung := if p.kind == Spring then p.(pop := POP_TICKS) else p;
    if p.kind == Breakable then sprung.(broken := true, breakTimer := BREAK_TICKS) else sprung
  }

  /** Landing on an intact platform keeps the invariant and does not expire it; only breakables break. */
  lemma HitPlatformKeepsShape(p: Platform)
    requires ShapeOk(p) && !p.broken
    ensures ShapeOk(HitPlatform(p)) && !Expired(HitPlatform(p))
    ensures HitPlatform(p).broken <==> p.kind == Breakable
    ensures p.kind == Breakable ==> HitPlatform(p).breakTimer == BREAK_TICKS
    ensures p.kind == Spring ==> HitPlatform(p).pop == POP_TICKS
    ensures HitPlatform(p).x == p.x && HitPlatform(p).y == p.y && HitPlatform(p).kind == p.kind
  {
  }

  /** `n` consecutive platform ticks. */
  function PlatformTicks(p: Platform, n: nat): Platform {
    if n == 0 then p else PlatformTick(PlatformTicks(p, n - 1))
  }

  /**
   * The timers count down by one per tick and stop at zero: a broken platform
   * with timer t expires exactly on the t-th tick.
   */
  lemma {:induction false} TimersCountDown(p: Platform, n: nat)
    requires p.breakTimer >= 0 && p.pop >= 0
    ensures PlatformTicks(p, n).broken == p.broken
    ensures p.broken ==> PlatformTicks(p, n).breakTimer == MaxInt(0, p.breakTimer - n)
    ensures PlatformTicks(p, n).pop == MaxInt(0, p.pop - n)
    ensures p.broken ==> (Expired(PlatformTicks(p, n)) <==> n >= p.breakTimer)
  {
    if n > 0 {
      TimersCountDown(p, n - 1);
    }
  }

  /** A breakable platform that is landed on fails the clean-up's timer test exactly from the 20th tick after the landing. */
  lemma BrokenPlatformLastsTwentyTicks(p: Platform, n: nat)
    requires ShapeOk(p) && !p.broken && p.kind == Breakable
    ensures Expired(PlatformTicks(HitPlatform(p), n)) <==> n >= BREAK_TICKS
  {
    TimersCountDown(HitPlatform(p), n);
  }

  /** The random draws of one `genPlatforms` iteration: the gap, then `makePlatform`'s draws. */
  datatype GenDraw = GenDraw(gap: real, platform: PlatformDraws)

  predicate GenDrawOk(g: GenDraw) {
    Unit(g.gap) && PlatformDrawsOk(g.platform)
  }

  /** Every iteration's draws are Math.random() values. */
  ghost predicate GenDrawsOk(rnd: nat -> GenDraw) {
    forall i: nat :: GenDrawOk(rnd(i))
  }

  /** The vertical gap of one `genPlatforms` iteration. */
  function Gap(diff: real, g: real): (gap: real)
    requires 0.0 <= diff && Unit(g)
    ensures MIN_GAP <= gap < 90.0 + diff * 100.0
  {
    MIN_GAP + Scale(g, 20.0 + diff * 100.0)
  }

  /** An upper bound on the iterations of `genPlatforms` from y to toY: each lowers y by at least 70. */
  function Steps(y: real, toY: real): (n: nat)
    ensures y > toY ==> n >= 1
  {
    if y <= toY then 0 else ((y - toY) / MIN_GAP).Floor + 1
  }

  lemma StepsDecrease(y: real, ny: real, toY: real)
    requires y > toY && ny <= y - MIN_GAP
    ensures Steps(ny, toY) < Steps(y, toY)
  {
    if ny > toY {
      assert (ny - toY) / MIN_GAP <= (y - toY) / MIN_GAP - 1.0;
    }
  }

  /**
   * The platforms `genPlatforms(fromY, toY, diff)` pushes, in order, when the
   * k-th iteration uses `rnd(k)`: it steps y upward by a gap and places a
   * platform there until y is at or above toY.
   */
  function Strip(fromY: real, toY: real, diff: real, rnd: nat -> GenDraw, k: nat): (r: seq<Platform>)
    requires 0.0 <= diff
    requires GenDrawsOk(rnd)
    ensures fromY <= toY <==> r == []
    ensures |r| <= Steps(fromY, toY)
    ensures forall i :: 0 <= i < |r| ==> r[i].y < fromY && ShapeOk(r[i]) && !r[i].broken
    decreases Steps(fromY, toY)
  {
    if fromY <= toY then []
    else
      var y := fromY - Gap(diff, rnd(k).gap);
      StepsDecrease(fromY, y, toY);
      var rest := Strip(y, toY, diff, rnd, k + 1);
      [MakePlatform(y, diff, rnd(k).platform)] + rest
  }

  /** The first platform of a strip, and the rest of it. */
  lemma StripHead(fromY: real, toY: real, diff: real, rnd: nat -> GenDraw, k: nat)
    requires 0.0 <= diff && GenDrawsOk(rnd) && fromY > toY
    ensures var y := fromY - Gap(diff, rnd(k).gap);
      && Steps(y, toY) < Steps(fromY, toY)
      && |Strip(fromY, toY, diff, rnd, k)| == 1 + |Strip(y, toY, diff, rnd, k + 1)|
      && Strip(fromY, toY, diff, rnd, k)[0].y == y
      && forall i :: 0 < i < |Strip(fromY, toY, diff, rnd, k)| ==>
           Strip(fromY, toY, diff, rnd, k)[i] == Strip(y, toY, diff, rnd, k + 1)[i - 1]
  {
    var y := fromY - Gap(diff, rnd(k).gap);
    StepsDecrease(fromY, y, toY);
  }

  /** Platforms of a strip, appended to a list, keep their shape and their place above fromY. */
  lemma AppendedStrip(ps: seq<Platform>, strip: seq<Platform>, fromY: real)
    requires forall i :: 0 <= i < |strip| ==> strip[i].y < fromY && ShapeOk(strip[i]) && !strip[i].broken
    ensures forall i :: |ps| <= i < |ps + strip| ==>
      (ps + strip)[i].y < fromY && ShapeOk((ps + strip)[i]) && !(ps + strip)[i].broken
  {
    forall i | |ps| <= i < |ps + strip|
      ensures (ps + strip)[i].y < fromY && ShapeOk((ps + strip)[i]) && !(ps + strip)[i].broken
    {
      assert (ps + strip)[i] == strip[i - |ps|];
    }
  }

  /** Each platform of a strip lies a gap in [70, 90 + 100 * diff) above the previous one, the first above fromY. */
  lemma {:induction false} StripGaps(fromY: real, toY: real, diff: real, rnd: nat -> GenDraw, k: nat)
    requires 0.0 <= diff && GenDrawsOk(rnd)
    ensures var r := Strip(fromY, toY, diff, rnd, k);
      && (|r| > 0 ==> MIN_GAP <= fromY - r[0].y < 90.0 + diff * 100.0)
      && (forall i :: 0 < i < |r| ==> MIN_GAP <= r[i - 1].y - r[i].y < 90.0 + diff * 100.0)
    decreases Steps(fromY, toY)
  {
    if fromY > toY {
      var y := fromY - Gap(diff, rnd(k).gap);
      StripHead(fromY, toY, diff, rnd, k);
      StripGaps(y, toY, diff, rnd, k + 1);
      var rest := Strip(y, toY, diff, rnd, k + 1);
      var r := Strip(fromY, toY, diff, rnd, k);
      forall i | 0 < i < |r|
        ensures MIN_GAP <= r[i - 1].y - r[i].y < 90.0 + diff * 100.0
      {
        if i > 1 {
          assert r[i - 1] == rest[i - 2];
        }
      }
    }
  }

  /** Every platform of a strip but the last is still below toY; the last is at or above it. */
  lemma {:induction false} StripStops(fromY: real, toY: real, diff: real, rnd: nat -> GenDraw, k: nat)
    requires 0.0 <= diff && GenDrawsOk(rnd)
    ensures var r := Strip(fromY, toY, diff, rnd, k);
      && (forall i :: 0 <= i < |r| - 1 ==> r[i].y > toY)
      && (|r| > 0 ==> r[|r| - 1].y <= toY)
    decreases Steps(fromY, toY)
  {
    if fromY > toY {
      var y := fromY - Gap(diff, rnd(k).gap);
      StripHead(fromY, toY, diff, rnd, k);
      StripStops(y, toY, diff, rnd, k + 1);
      var rest := Strip(y, toY, diff, rnd, k + 1);
      var r := Strip(fromY, toY, diff, rnd, k);
      if |rest| > 0 {
        assert r[|r| - 1] == rest[|rest| - 1];
        forall i | 0 <= i < |r| - 1
          ensures r[i].y > toY
        {
          if i > 0 {
            assert r[i] == rest[i - 1];
          }
        }
      }
    }
  }
}
