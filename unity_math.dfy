/**
  Unity's `Mathf` angle helpers, written after Unity's documented
  definitions, over exact reals (no float rounding).
  Angles are in degrees.
 */
module UnityMath {

  function Abs(x: real): real { if x < 0.0 then -x else x }

  /** `Mathf.Sign`: 1 for zero and positive values, -1 otherwise. */
  function Sign(x: real): real { if x >= 0.0 then 1.0 else -1.0 }

  /** `a - b` is a whole number of turns: the two angles name the same direction. */
  ghost predicate Congruent(a: real, b: real)
  {
    ((a - b) / 360.0).Floor as real == (a - b) / 360.0
  }

  /** `Mathf.Clamp`: the lower bound is tested first, so with `min > max` a value below `min` yields `min`. */
  function Clamp(value: real, min: real, max: real): (r: real)
    ensures min <= max ==> min <= r <= max
    ensures min <= value <= max ==> r == value
    ensures value < min ==> r == min
    ensures min <= value && max < value ==> r == max
  {
    if value < min then min
    else if value > max then max
    else value
  }

  lemma MulPositive(a: real, b: real)
    requires a > 0.0 && b > 0.0
    ensures a * b > 0.0
  {}

  lemma MulNonNegative(a: real, b: real)
    requires a >= 0.0 && b >= 0.0
    ensures a * b >= 0.0
  {}

  lemma ScaleBracket(t: real, length: real, q: real, f: real)
    requires length > 0.0 && q * length == t
    requires f <= q < f + 1.0
    ensures f * length <= t < f * length + length
  {
    MulPositive(f + 1.0 - q, length);
    var above := (f + 1.0 - q) * length;
    assert above == f * length + length - q * length;
    assert f * length + length - t > 0.0;
    MulNonNegative(q - f, length);
    var below := (q - f) * length;
    assert below == q * length - f * length;
    assert t - f * length >= 0.0;
  }

  /** The integer part of `t / length` brackets `t` between two consecutive multiples of `length`. */
  lemma FloorBrackets(t: real, length: real)
    requires length > 0.0
    ensures (t / length).Floor as real * length <= t < (t / length).Floor as real * length + length
  {
    var q := t / length;
    assert q * length == t;
    ScaleBracket(t, length, q, q.Floor as real);
  }

  /** `Mathf.Repeat`: `t` folded into `[0, length)`; for a full turn the result names the same direction as `t`. */
  function Repeat(t: real, length: real): (r: real)
    requires length > 0.0
    ensures 0.0 <= r < length
    ensures length == 360.0 ==> Congruent(t, r)
  {
    FloorBrackets(t, length);
    var f := (t / length).Floor;
    var r := Clamp(t - f as real * length, 0.0, length);
    assert length == 360.0 ==> (t - r) / length == f as real;
    r
  }

  /** An angle in `[0, 360)` that names the same direction as `t` is `Repeat(t, 360)`. */
  lemma RepeatUnique(t: real, r: real)
    requires 0.0 <= r < 360.0
    requires Congruent(t, r)
    ensures Repeat(t, 360.0) == r
  {
    var k := ((t - r) / 360.0).Floor;
    assert t == r + k as real * 360.0;
    assert t / 360.0 == r / 360.0 + k as real;
    assert (t / 360.0).Floor == k;
  }

  lemma FloorOfInt(k: int)
    ensures (k as real).Floor == k
  {
  }

  lemma CongruentTrans(a: real, b: real, c: real)
    requires Congruent(a, b) && Congruent(b, c)
    ensures Congruent(a, c)
  {
    var i := ((a - b) / 360.0).Floor;
    var j := ((b - c) / 360.0).Floor;
    assert (a - b) / 360.0 == i as real;
    assert (b - c) / 360.0 == j as real;
    assert (a - c) / 360.0 == (a - b) / 360.0 + (b - c) / 360.0;
    FloorOfInt(i + j);
  }

  /** Congruence depends only on the difference of the two angles. */
  lemma CongruentOfDifference(x: real, y: real, a: real, b: real)
    requires Congruent(a, b) && x - y == a - b
    ensures Congruent(x, y)
  {
  }

  lemma CongruentSym(a: real, b: real)
    requires Congruent(a, b)
    ensures Congruent(b, a)
  {
    var i := ((a - b) / 360.0).Floor;
    assert (a - b) / 360.0 == i as real;
    assert (b - a) / 360.0 == (-i) as real;
    FloorOfInt(-i);
  }

  /** Shifting both angles by the same amount keeps them congruent. */
  lemma CongruentShift(a: real, b: real, c: real)
    requires Congruent(a, b)
    ensures Congruent(a - c, b - c)
  {
    CongruentOfDifference(a - c, b - c, a, b);
  }

  /** `Mathf.DeltaAngle`: the signed shortest turn from `current` to `target`. */
  function DeltaAngle(current: real, target: real): (d: real)
    ensures -180.0 < d <= 180.0
  {
    var delta := Repeat(target - current, 360.0);
    if delta > 180.0 then delta - 360.0 else delta
  }

  /** Congruent differences give the same delta: `DeltaAngle` only sees directions, not turn counts. */
  lemma DeltaAngleCongruent(a: real, b: real, a': real, b': real)
    requires Congruent(b - a, b' - a')
    ensures DeltaAngle(a, b) == DeltaAngle(a', b')
  {
    var r := Repeat(b' - a', 360.0);
    CongruentTrans(b - a, b' - a', r);
    RepeatUnique(b - a, r);
  }

  /** Turning by a delta already in `(-180, 180]` is measured back exactly. */
  lemma {:induction false} DeltaAngleOfOffset(a: real, x: real)
    requires -180.0 < x <= 180.0
    ensures DeltaAngle(a, a + x) == x
  {
    assert (a + x) - a == x;
    if x >= 0.0 {
      assert (x - x) / 360.0 == 0.0;
      RepeatUnique(x, x);
    } else {
      assert (x - (x + 360.0)) / 360.0 == -1.0;
      RepeatUnique(x, x + 360.0);
    }
  }

  /** Two angles naming the same direction have delta zero. */
  lemma DeltaAngleOfSameDirection(a: real, b: real)
    requires Congruent(b, a)
    ensures DeltaAngle(a, b) == 0.0
  {
    assert (b - a - 0.0) / 360.0 == (b - a) / 360.0;
    RepeatUnique(b - a, 0.0);
  }

  /** One full turn back names the same direction. */
  lemma CongruentFullTurn(x: real)
    ensures Congruent(x - 360.0, x)
  {
    assert (x - 360.0 - x) / 360.0 == -1.0;
  }

  /** The delta from `a` to `b` leads to a direction congruent to `b`. */
  lemma DeltaAngleLandsOnTarget(a: real, b: real)
    ensures Congruent(a + DeltaAngle(a, b), b)
  {
    var r := Repeat(b - a, 360.0);
    var d := DeltaAngle(a, b);
    CongruentSym(b - a, r);
    if r > 180.0 {
      CongruentFullTurn(r);
      CongruentTrans(r - 360.0, r, b - a);
    }
    assert Congruent(d, b - a);
    CongruentShift(d, b - a, -a);
    assert d - (-a) == a + d && (b - a) - (-a) == b;
  }

  /** `Mathf.MoveTowards`: step from `current` toward `target` by at most `maxDelta`. */
  function MoveTowards(current: real, target: real, maxDelta: real): (r: real)
    ensures Abs(target - current) <= maxDelta ==> r == target
    ensures 0.0 <= maxDelta ==> Abs(r - current) <= maxDelta
    ensures 0.0 <= maxDelta ==> (current <= r <= target || target <= r <= current)
  {
    if Abs(target - current) <= maxDelta then target
    else current + Sign(target - current) * maxDelta
  }

  /** `Mathf.MoveTowardsAngle`: like `MoveTowards`, but along the shortest turn. */
  function MoveTowardsAngle(current: real, target: real, maxDelta: real): real
  {
    var deltaAngle := DeltaAngle(current, target);
    if -maxDelta < deltaAngle && deltaAngle < maxDelta then target
    else MoveTowards(current, current + deltaAngle, maxDelta)
  }

  /**
    With a non-negative step, `MoveTowardsAngle` turns by at most the step
    (measured wrap-safely), turns the same way as the shortest turn to the
    target without passing it, returns the target itself when it is closer
    than the step, and reaches the target's direction when it is within the step.
   */
  lemma {:induction false} MoveTowardsAngleStep(current: real, target: real, maxDelta: real)
    requires 0.0 <= maxDelta
    ensures Abs(DeltaAngle(current, MoveTowardsAngle(current, target, maxDelta))) <= maxDelta
    ensures var step := DeltaAngle(current, MoveTowardsAngle(current, target, maxDelta));
            var d := DeltaAngle(current, target);
            (0.0 <= step <= d) || (d <= step <= 0.0)
    ensures Abs(DeltaAngle(current, target)) < maxDelta ==> MoveTowardsAngle(current, target, maxDelta) == target
    ensures Abs(DeltaAngle(current, target)) <= maxDelta ==>
              Congruent(MoveTowardsAngle(current, target, maxDelta), target)
  {
    var d := DeltaAngle(current, target);
    if -maxDelta < d && d < maxDelta {
      assert MoveTowardsAngle(current, target, maxDelta) == target;
      assert (target - target) / 360.0 == 0.0;
    } else if Abs(d) <= maxDelta {
      TurnOntoTarget(current, target, maxDelta);
    } else {
      TurnOneStep(current, target, maxDelta);
    }
  }

  /** A target exactly one step away is turned onto: the step is the whole delta. */
  lemma TurnOntoTarget(current: real, target: real, maxDelta: real)
    requires 0.0 <= maxDelta && Abs(DeltaAngle(current, target)) == maxDelta
    ensures MoveTowardsAngle(current, target, maxDelta) == current + DeltaAngle(current, target)
    ensures DeltaAngle(current, MoveTowardsAngle(current, target, maxDelta)) == DeltaAngle(current, target)
    ensures Congruent(MoveTowardsAngle(current, target, maxDelta), target)
  {
    var d := DeltaAngle(current, target);
    DeltaAngleOfOffset(current, d);
    DeltaAngleLandsOnTarget(current, target);
  }

  /** A target farther than one step is turned toward by exactly the step. */
  lemma TurnOneStep(current: real, target: real, maxDelta: real)
    requires 0.0 <= maxDelta && Abs(DeltaAngle(current, target)) > maxDelta
    ensures DeltaAngle(current, MoveTowardsAngle(current, target, maxDelta)) == Sign(DeltaAngle(current, target)) * maxDelta
  {
    var x := Sign(DeltaAngle(current, target)) * maxDelta;
    assert MoveTowardsAngle(current, target, maxDelta) == current + x;
    assert -180.0 < x <= 180.0;
    DeltaAngleOfOffset(current, x);
  }
}
