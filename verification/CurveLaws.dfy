/**
 * What the curves promise: a curve accepted as falling never rises, a growing cap never shrinks,
 * and adding two falling curves with `combine` is pointwise addition up to one unit.
 */
module CurveLaws {
  import opened Prelude
  import opened Decimals
  import opened Curves

  // ----- monotonicity

  lemma InterpolateFalls(a: Point, b: Point, x: nat, x': nat)
    requires a.x <= x <= x' <= b.x && a.x < b.x && b.y <= a.y
    ensures b.y <= Interpolate(a, b, x') <= Interpolate(a, b, x) <= a.y
  {
    var k, p, q, n := a.y - b.y, x - a.x, x' - a.x, b.x - a.x;
    PartOf(k, p, q, n);
    var fall, fall' := k * p / n, k * q / n;
    assert Interpolate(a, b, x) == a.y - fall;
    assert Interpolate(a, b, x') == a.y - fall';
  }

  lemma InterpolateRises(a: Point, b: Point, x: nat, x': nat)
    requires a.x <= x <= x' <= b.x && a.x < b.x && a.y <= b.y
    ensures a.y <= Interpolate(a, b, x) <= Interpolate(a, b, x') <= b.y
  {
    var k, p, q, n := b.y - a.y, x - a.x, x' - a.x, b.x - a.x;
    PartOf(k, p, q, n);
    if a.y < b.y {
      var rise, rise' := k * p / n, k * q / n;
      assert Interpolate(a, b, x) == a.y + rise;
      assert Interpolate(a, b, x') == a.y + rise';
    } else {
      InterpolateFalls(a, b, x, x');
    }
  }

  lemma InterpolateEnds(a: Point, b: Point)
    requires a.x < b.x
    ensures Interpolate(a, b, a.x) == a.y && Interpolate(a, b, b.x) == b.y
  {
    var k: nat := if b.y > a.y then b.y - a.y else a.y - b.y;
    DivUnique(k * (b.x - a.x), b.x - a.x, k);
    DivUnique(0, b.x - a.x, 0);
    assert k * (a.x - a.x) == 0;
  }

  lemma PartOf(k: nat, p: nat, q: nat, n: nat)
    requires p <= q <= n && 0 < n
    ensures k * p / n <= k * q / n <= k
  {
    MulMono(p, q, k);
    MulMono(q, n, k);
    DivMono(k * p, k * q, n);
    DivMono(k * q, k * n, n);
    DivUnique(k * n, n, k);
  }

  lemma FallingTail(steps: seq<Point>)
    requires 1 < |steps| && Falling(steps)
    ensures Falling(steps[1..]) && steps[1].y <= steps[0].y
  {
  }

  predicate RisingSteps(steps: seq<Point>) {
    forall i :: 0 <= i < |steps| - 1 ==> steps[i].y <= steps[i + 1].y
  }

  lemma RisingTail(steps: seq<Point>)
    requires 1 < |steps| && RisingSteps(steps)
    ensures RisingSteps(steps[1..]) && steps[0].y <= steps[1].y
  {
  }

  lemma {:induction false} EvalFalls(steps: seq<Point>, x: nat, x': nat)
    requires Increasing(steps) && Falling(steps) && x <= x'
    ensures Eval(steps, x') <= Eval(steps, x) <= steps[0].y
  {
    if |steps| == 1 || x' <= steps[0].x {
    } else {
      FallingTail(steps);
      EvalFalls(steps[1..], if x < steps[1].x then steps[1].x else x, if x' < steps[1].x then steps[1].x else x');
      if steps[0].x < x' < steps[1].x {
        InterpolateFalls(steps[0], steps[1], if x < steps[0].x then steps[0].x else x, x');
      } else if steps[0].x < x < steps[1].x {
        InterpolateFalls(steps[0], steps[1], x, x);
      }
    }
  }

  lemma {:induction false} EvalRises(steps: seq<Point>, x: nat, x': nat)
    requires Increasing(steps) && RisingSteps(steps) && x <= x'
    ensures steps[0].y <= Eval(steps, x) <= Eval(steps, x')
  {
    if |steps| == 1 || x' <= steps[0].x {
    } else {
      RisingTail(steps);
      EvalRises(steps[1..], if x < steps[1].x then steps[1].x else x, if x' < steps[1].x then steps[1].x else x');
      if steps[0].x < x' < steps[1].x {
        InterpolateRises(steps[0], steps[1], if x < steps[0].x then steps[0].x else x, x');
      } else if steps[0].x < x < steps[1].x {
        InterpolateRises(steps[0], steps[1], x, x);
      }
    }
  }

  /** The line passes through its steps. */
  lemma {:induction false} EvalAtStep(steps: seq<Point>, i: nat)
    requires Increasing(steps) && i < |steps|
    ensures Eval(steps, steps[i].x) == steps[i].y
  {
    if i > 0 {
      assert steps[1..][i - 1] == steps[i];
      EvalAtStep(steps[1..], i - 1);
    }
  }

  lemma SaturatingIsPiecewise(lo: Point, hi: Point, x: nat)
    requires lo.x < hi.x
    ensures Increasing([lo, hi])
    ensures Value(SaturatingLinear(lo, hi), x) == Eval([lo, hi], x)
  {
    InterpolateEnds(lo, hi);
  }

  /** A curve is accepted as falling exactly when its value never rises. */
  lemma DecreasingMeansNeverRises(c: Curve)
    requires Valid(c)
    ensures Decreasing(c) <==> forall x, x' :: x <= x' ==> Value(c, x') <= Value(c, x)
  {
    if Decreasing(c) {
      forall x: nat, x': nat | x <= x' ensures Value(c, x') <= Value(c, x) {
        ValueFalls(c, x, x');
      }
    } else {
      match c
      case Constant(_) =>
      case SaturatingLinear(lo, hi) =>
        SaturatingIsPiecewise(lo, hi, lo.x);
        SaturatingIsPiecewise(lo, hi, hi.x);
        assert Value(c, hi.x) > Value(c, lo.x);
      case PiecewiseLinear(steps) =>
        var i :| 0 <= i < |steps| - 1 && steps[i + 1].y > steps[i].y;
        EvalAtStep(steps, i);
        EvalAtStep(steps, i + 1);
        assert Value(c, steps[i + 1].x) > Value(c, steps[i].x);
    }
  }

  lemma ValueFalls(c: Curve, x: nat, x': nat)
    requires Decreasing(c) && x <= x'
    ensures Value(c, x') <= Value(c, x)
  {
    match c
    case Constant(_) =>
    case SaturatingLinear(lo, hi) =>
      SaturatingIsPiecewise(lo, hi, x);
      SaturatingIsPiecewise(lo, hi, x');
      EvalFalls([lo, hi], x, x');
    case PiecewiseLinear(steps) =>
      EvalFalls(steps, x, x');
  }

  lemma ValueRises(c: Curve, x: nat, x': nat)
    requires Growing(c) && x <= x'
    ensures Value(c, x) <= Value(c, x')
  {
    match c
    case Constant(_) =>
    case SaturatingLinear(lo, hi) =>
      SaturatingIsPiecewise(lo, hi, x);
      SaturatingIsPiecewise(lo, hi, x');
      EvalRises([lo, hi], x, x');
    case PiecewiseLinear(steps) =>
      EvalRises(steps, x, x');
  }

  // ----- range

  function MaxY(steps: seq<Point>): nat
    requires steps != []
  {
    if |steps| == 1 then steps[0].y
    else if steps[0].y > MaxY(steps[1..]) then steps[0].y else MaxY(steps[1..])
  }

  function MinY(steps: seq<Point>): nat
    requires steps != []
  {
    if |steps| == 1 then steps[0].y
    else if steps[0].y < MinY(steps[1..]) then steps[0].y else MinY(steps[1..])
  }

  /** `Curve::range` */
  function Range(c: Curve): (nat, nat)
    requires Valid(c)
  {
    match c
    case Constant(y) => (y, y)
    case SaturatingLinear(lo, hi) => if hi.y > lo.y then (lo.y, hi.y) else (hi.y, lo.y)
    case PiecewiseLinear(steps) => (MinY(steps), MaxY(steps))
  }

  lemma {:induction false} MaxIsBound(steps: seq<Point>, i: nat)
    requires i < |steps|
    ensures MinY(steps) <= steps[i].y <= MaxY(steps)
  {
    if |steps| > 1 && i > 0 {
      MaxIsBound(steps[1..], i - 1);
      assert steps[1..][i - 1] == steps[i];
    }
  }

  lemma InterpolateBetween(a: Point, b: Point, x: nat)
    requires a.x <= x <= b.x && a.x < b.x
    ensures a.y <= Interpolate(a, b, x) <= b.y || b.y <= Interpolate(a, b, x) <= a.y
  {
    if a.y <= b.y {
      InterpolateRises(a, b, x, x);
    } else {
      InterpolateFalls(a, b, x, x);
    }
  }

  lemma {:induction false} EvalWithin(steps: seq<Point>, x: nat)
    requires Increasing(steps)
    ensures MinY(steps) <= Eval(steps, x) <= MaxY(steps)
  {
    MaxIsBound(steps, 0);
    if |steps| == 1 || x <= steps[0].x {
    } else if x < steps[1].x {
      MaxIsBound(steps, 1);
      InterpolateBetween(steps[0], steps[1], x);
    } else {
      EvalWithin(steps[1..], x);
    }
  }

  /** Every value of a curve, rising, falling or neither, lies in its reported range. */
  lemma WithinRange(c: Curve, x: nat)
    requires Valid(c)
    ensures Range(c).0 <= Value(c, x) <= Range(c).1
  {
    match c
    case Constant(_) =>
    case SaturatingLinear(lo, hi) =>
      if lo.x <= x <= hi.x {
        InterpolateBetween(lo, hi, x);
      }
    case PiecewiseLinear(steps) =>
      EvalWithin(steps, x);
  }

  lemma {:induction false} RangeOfSteps(steps: seq<Point>)
    requires steps != []
    ensures exists i :: 0 <= i < |steps| && steps[i].y == MinY(steps)
    ensures exists i :: 0 <= i < |steps| && steps[i].y == MaxY(steps)
  {
    if |steps| == 1 {
      assert steps[0].y == MinY(steps) == MaxY(steps);
    } else {
      var rest := steps[1..];
      RangeOfSteps(rest);
      var lo :| 0 <= lo < |rest| && rest[lo].y == MinY(rest);
      var hi :| 0 <= hi < |rest| && rest[hi].y == MaxY(rest);
      assert steps[lo + 1].y == MinY(rest) && steps[hi + 1].y == MaxY(rest);
      assert steps[0].y == steps[0].y;
    }
  }

  /** Both ends of the range are taken. */
  lemma RangeIsTight(c: Curve)
    requires Valid(c)
    ensures exists x, x' :: Value(c, x) == Range(c).0 && Value(c, x') == Range(c).1
  {
    match c
    case Constant(_) =>
      assert Value(c, 0) == Range(c).0 && Value(c, 0) == Range(c).1;
    case SaturatingLinear(lo, hi) =>
      InterpolateEnds(lo, hi);
      assert Value(c, lo.x) == lo.y && Value(c, hi.x) == hi.y;
    case PiecewiseLinear(steps) =>
      RangeOfSteps(steps);
      var i :| 0 <= i < |steps| && steps[i].y == MinY(steps);
      var j :| 0 <= j < |steps| && steps[j].y == MaxY(steps);
      EvalAtStep(steps, i);
      EvalAtStep(steps, j);
      assert Value(c, steps[i].x) == Range(c).0 && Value(c, steps[j].x) == Range(c).1;
  }
}
