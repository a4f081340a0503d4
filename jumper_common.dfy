/**
 * Constants and small helpers shared by the Jurassic-Jumper modules
 * (Jurassic-Jumper/game.js). Positions and velocities are exact reals.
 */
module JumperCommon {
  import opened Random

  /** Canvas size. */
  const W: real := 480.0
  const H: real := 640.0

  /** Physics, per tick. */
  const GRAVITY: real := 0.45
  const JUMP_VEL: real := -14.0
  /**
   * JUMP_VEL times the square root of two, as the nearest double prints it.
   * Only `SPRING_VEL < JUMP_VEL < 0` is used by the proofs.
   */
  const SPRING_VEL: real := -19.79898987322333
  const SPEED: real := 5.5

  const ASTEROID_SIZE: real := 64.0
  const ASTEROID_FALL_SPEED: real := 2.5
  const ASTEROID_WARN_TICKS: int := 300
  const ASTEROID_SPAWN_MIN: real := 360.0
  const ASTEROID_SPAWN_MAX: real := 720.0

  /** The score at which the difficulty saturates. */
  const FULL_DIFFICULTY_SCORE: real := 6000.0

  datatype Option<T> = None | Some(value: T)

  function Abs(x: real): (r: real)
    ensures r >= 0.0 && (r == x || r == -x)
  {
    if x < 0.0 then -x else x
  }

  function Min(a: real, b: real): (r: real)
    ensures r <= a && r <= b && (r == a || r == b)
  {
    if a <= b then a else b
  }

  function MaxInt(a: int, b: int): (r: int)
    ensures r >= a && r >= b && (r == a || r == b)
  {
    if a >= b then a else b
  }

  /** `Math.random() * m`: a value in [0, m) for a positive m. */
  function Scale(r: real, m: real): (v: real)
    requires Unit(r)
    ensures m > 0.0 ==> 0.0 <= v < m
    ensures m >= 0.0 ==> 0.0 <= v <= m
    ensures m == 0.0 ==> v == 0.0
  {
    assert m > 0.0 ==> r * m < 1.0 * m;
    r * m
  }

  /** `Array.prototype.filter`: the elements that pass `keep`, in their order. */
  function Filter<T>(s: seq<T>, keep: T -> bool): (r: seq<T>)
    ensures |r| <= |s|
    ensures forall i :: 0 <= i < |r| ==> r[i] in s && keep(r[i])
    ensures forall i :: 0 <= i < |s| && keep(s[i]) ==> s[i] in r
    ensures (forall i :: 0 <= i < |s| ==> keep(s[i])) ==> r == s
    ensures |s| == 1 ==> r == (if keep(s[0]) then s else [])
  {
    if s == [] then []
    else if keep(s[0]) then [s[0]] + Filter(s[1..], keep)
    else Filter(s[1..], keep)
  }

  /**
   * Filtering distributes over concatenation; with the one-element case above
   * this determines the result, so the kept elements stay in their order and
   * each occurs as often as it did.
   */
  lemma {:induction false} FilterAppend<T>(a: seq<T>, b: seq<T>, keep: T -> bool)
    ensures Filter(a + b, keep) == Filter(a, keep) + Filter(b, keep)
  {
    if a == [] {
      assert a + b == b;
    } else {
      assert (a + b)[0] == a[0];
      assert (a + b)[1..] == a[1..] + b;
      FilterAppend(a[1..], b, keep);
    }
  }
}
