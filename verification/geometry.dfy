/** Facts of real arithmetic that the solver handles best in isolation from
    the function definitions of the rest of the model. */
module Arith {

  /** `cur + (target - cur) * k` stays between `cur` and `target` for
      0 <= k <= 1, strictly so for 0 < k < 1. The products are first stated
      over plain variables and then tied back to the compound terms. */
  lemma StepUp(cur: real, target: real, k: real)
    requires 0.0 <= k <= 1.0 && cur <= target
    ensures cur <= cur + (target - cur) * k <= target
    ensures cur < target && 0.0 < k < 1.0 ==> cur < cur + (target - cur) * k < target
  {
    var d, e := target - cur, 1.0 - k;
    assert d * k >= 0.0 && d * e >= 0.0;
    assert cur < target && 0.0 < k < 1.0 ==> d * k > 0.0 && d * e > 0.0;
    assert d * k == (target - cur) * k;
    assert d * e == (target - cur) * (1.0 - k);
    assert target - (cur + (target - cur) * k) == (target - cur) * (1.0 - k);
  }

  lemma StepDown(cur: real, target: real, k: real)
    requires 0.0 <= k <= 1.0 && target < cur
    ensures target <= cur + (target - cur) * k <= cur
    ensures 0.0 < k < 1.0 ==> target < cur + (target - cur) * k < cur
  {
    var d, e := cur - target, 1.0 - k;
    assert d * k >= 0.0 && d * e >= 0.0;
    assert 0.0 < k < 1.0 ==> d * k > 0.0 && d * e > 0.0;
    assert d * k == -((target - cur) * k);
    assert d * e == (cur - target) * (1.0 - k);
    assert cur + (target - cur) * k - target == (cur - target) * (1.0 - k);
  }

  /** Multiplying a gap by `a` with 0 <= a < 1 moves it toward zero without
      crossing it, strictly when the gap is non-zero, and keeps it non-zero
      when `a` is positive. */
  lemma Contract(g: real, a: real)
    requires 0.0 <= a < 1.0
    ensures g >= 0.0 ==> 0.0 <= a * g <= g
    ensures g <= 0.0 ==> g <= a * g <= 0.0
    ensures g != 0.0 ==> a * g != g
    ensures g != 0.0 && a > 0.0 ==> a * g != 0.0
  {
    var e := 1.0 - a;
    assert g > 0.0 ==> e * g > 0.0;
    assert g < 0.0 ==> e * g < 0.0;
    assert g - a * g == e * g;
  }

  /** One more step of a geometric decay: a gap that is `p * d` and then
      multiplied by `a` is `(a * p) * d`. */
  lemma ChainGap(next: real, gap: real, a: real, p: real, d: real)
    requires next == a * gap
    requires gap == p * d
    ensures next == (a * p) * d
  {
  }
}

/** Plain geometry shared by the gesture state machine and the formation engine:
    2D points (normalised hand coordinates, spin velocities), 3D vectors
    (particle positions), the clamp helper and the linear interpolation step
    `cur + (target - cur) * k` that every smoothed quantity in the scene uses. */
module Geometry {
  import Arith

  datatype Point = Point(x: real, y: real)

  datatype Vec3 = Vec3(x: real, y: real, z: real)

  const Origin: Point := Point(0.0, 0.0)

  function Abs(x: real): real {
    if x < 0.0 then -x else x
  }

  function Min(a: real, b: real): real {
    if a <= b then a else b
  }

  function Max(a: real, b: real): real {
    if a >= b then a else b
  }

  /** `THREE.MathUtils.clamp(v, lo, hi)`, which is `Math.max(lo, Math.min(hi, v))`. */
  function Clamp(v: real, lo: real, hi: real): (r: real)
    ensures lo <= hi ==> lo <= r <= hi
    ensures lo <= v <= hi ==> r == v
    ensures v < lo <= hi ==> r == lo
    ensures lo <= hi < v ==> r == hi
  {
    Max(lo, Min(hi, v))
  }

  /** True when `v` lies on the closed segment between `a` and `b`. */
  predicate Within(v: real, a: real, b: real) {
    Min(a, b) <= v <= Max(a, b)
  }

  /** One smoothing step: `x += (target - x) * k`, also what
      `THREE.Vector3.lerp` does to each coordinate. The distance to the
      target is multiplied by `1 - k`. */
  function Approach(cur: real, target: real, k: real): (r: real)
    ensures r - target == (1.0 - k) * (cur - target)
  {
    StepFacts(cur, target, k);
    cur + (target - cur) * k
  }

  /** With 0 <= k <= 1 a step lands between the current value and the
      target, and strictly between them for 0 < k < 1. */
  lemma ApproachBetween(cur: real, target: real, k: real)
    ensures 0.0 <= k <= 1.0 ==> Within(Approach(cur, target, k), cur, target)
    ensures 0.0 < k < 1.0 && cur != target ==>
      Approach(cur, target, k) != cur && Approach(cur, target, k) != target
  {
    StepFacts(cur, target, k);
  }

  lemma StepFacts(cur: real, target: real, k: real)
    ensures cur + (target - cur) * k - target == (1.0 - k) * (cur - target)
    ensures 0.0 <= k <= 1.0 ==> Within(cur + (target - cur) * k, cur, target)
    ensures 0.0 < k < 1.0 && cur != target ==>
      cur + (target - cur) * k != cur && cur + (target - cur) * k != target
  {
    if 0.0 <= k <= 1.0 {
      if target >= cur {
        Arith.StepUp(cur, target, k);
      } else {
        Arith.StepDown(cur, target, k);
      }
    }
  }

  /** A smoothing step with 0 <= k <= 1 never leaves an interval that holds
      both the current value and the target. */
  lemma ApproachStaysIn(cur: real, target: real, k: real, lo: real, hi: real)
    requires lo <= cur <= hi && lo <= target <= hi
    requires 0.0 <= k <= 1.0
    ensures lo <= Approach(cur, target, k) <= hi
  {
    ApproachBetween(cur, target, k);
  }

  /** Scaling a value by a factor in [0, 1] keeps it within [-bound, bound]. */
  lemma DecayStaysIn(v: real, f: real, bound: real)
    requires -bound <= v <= bound
    requires 0.0 <= f <= 1.0
    ensures -bound <= v * f <= bound
  {
    if v >= 0.0 {
      assert v * f <= v * 1.0;
    } else {
      assert v * f >= v * 1.0;
    }
  }

  function Pow(b: real, n: nat): real {
    if n == 0 then 1.0 else b * Pow(b, n - 1)
  }

  /** `n` smoothing steps toward a fixed target, as happens over `n` frames
      while the same target stays in force. */
  function ApproachIter(cur: real, target: real, k: real, n: nat): real {
    if n == 0 then cur else Approach(ApproachIter(cur, target, k, n - 1), target, k)
  }

  /** After `n` steps the remaining gap is `(1 - k)^n` times the initial one. */
  lemma {:induction false} ApproachIterGap(cur: real, target: real, k: real, n: nat)
    ensures ApproachIter(cur, target, k, n) - target == Pow(1.0 - k, n) * (cur - target)
  {
    if n > 0 {
      var prev := ApproachIter(cur, target, k, n - 1);
      ApproachIterGap(cur, target, k, n - 1);
      assert ApproachIter(cur, target, k, n) == Approach(prev, target, k);
      assert Pow(1.0 - k, n) == (1.0 - k) * Pow(1.0 - k, n - 1);
      Arith.ChainGap(Approach(prev, target, k) - target, prev - target, 1.0 - k, Pow(1.0 - k, n - 1), cur - target);
    }
  }

  /** With 0 < k <= 1 the gap never grows and, once it is non-zero, shrinks on
      every step: repeated smoothing converges monotonically. */
  lemma {:induction false} ApproachIterShrinks(cur: real, target: real, k: real, n: nat)
    requires 0.0 < k <= 1.0
    ensures Abs(ApproachIter(cur, target, k, n + 1) - target) <= Abs(ApproachIter(cur, target, k, n) - target)
    ensures cur != target && k < 1.0 ==>
      Abs(ApproachIter(cur, target, k, n + 1) - target) < Abs(ApproachIter(cur, target, k, n) - target)
    ensures cur != target && k < 1.0 ==> ApproachIter(cur, target, k, n) != target
  {
    var g := ApproachIter(cur, target, k, n) - target;
    assert ApproachIter(cur, target, k, n + 1) - target == (1.0 - k) * g;
    Arith.Contract(g, 1.0 - k);
    if n > 0 {
      var h := ApproachIter(cur, target, k, n - 1) - target;
      assert g == (1.0 - k) * h;
      ApproachIterShrinks(cur, target, k, n - 1);
      Arith.Contract(h, 1.0 - k);
    }
  }

  /** `THREE.Vector3.lerp(target, k)`: one smoothing step on every coordinate. */
  function Lerp(cur: Vec3, target: Vec3, k: real): (r: Vec3)
    ensures 0.0 <= k <= 1.0 ==>
      Within(r.x, cur.x, target.x) && Within(r.y, cur.y, target.y) && Within(r.z, cur.z, target.z)
    ensures r.x - target.x == (1.0 - k) * (cur.x - target.x)
    ensures r.y - target.y == (1.0 - k) * (cur.y - target.y)
    ensures r.z - target.z == (1.0 - k) * (cur.z - target.z)
  {
    ApproachBetween(cur.x, target.x, k);
    ApproachBetween(cur.y, target.y, k);
    ApproachBetween(cur.z, target.z, k);
    Vec3(Approach(cur.x, target.x, k), Approach(cur.y, target.y, k), Approach(cur.z, target.z, k))
  }

  /** `v.multiplyScalar(k)`. */
  function ScaleVec(v: Vec3, k: real): Vec3 {
    Vec3(v.x * k, v.y * k, v.z * k)
  }

  function AddVec(a: Vec3, b: Vec3): Vec3 {
    Vec3(a.x + b.x, a.y + b.y, a.z + b.z)
  }
}
