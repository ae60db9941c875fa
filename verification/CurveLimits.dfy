/**
 * Curves in machine integers. Interpolation multiplies a height by a time before it divides, and
 * `combine` adds heights; both abort when the result leaves `Uint128`. Here is when they do not.
 */
module CurveLimits {
  import opened Prelude
  import opened Decimals
  import opened Curves
  import opened CurveLaws
  import opened CurveSums

  /** One past the largest `u64`. */
  const U64: nat := 0x1_0000_0000_0000_0000

  function MulU128(a: nat, b: nat): Result<nat> {
    if a * b < U128 then Ok(a * b) else Err
  }

  /** `interpolate`, operation by operation */
  function CheckedInterpolate(a: Point, b: Point, x: nat): Result<nat>
    requires a.x <= x <= b.x && a.x < b.x
  {
    if b.y > a.y then
      var product :- MulU128(b.y - a.y, x - a.x);
      AddU128(a.y, product / (b.x - a.x))
    else
      var product :- MulU128(a.y - b.y, x - a.x);
      SubU128(a.y, product / (b.x - a.x))
  }

  function CheckedEval(steps: seq<Point>, x: nat): Result<nat>
    requires Increasing(steps)
  {
    if |steps| == 1 || x <= steps[0].x then Ok(steps[0].y)
    else if x < steps[1].x then CheckedInterpolate(steps[0], steps[1], x)
    else CheckedEval(steps[1..], x)
  }

  /** `Curve::value` */
  function CheckedValue(c: Curve, x: nat): Result<nat>
    requires Valid(c)
  {
    match c
    case Constant(y) => Ok(y)
    case SaturatingLinear(lo, hi) =>
      if x < lo.x then Ok(lo.y) else if x > hi.x then Ok(hi.y) else CheckedInterpolate(lo, hi, x)
    case PiecewiseLinear(steps) => CheckedEval(steps, x)
  }

  function Height(a: Point, b: Point): nat {
    if b.y > a.y then b.y - a.y else a.y - b.y
  }

  /** Heights are stored as `Uint128`. */
  predicate Stored(c: Curve) {
    match c
    case Constant(y) => y < U128
    case SaturatingLinear(lo, hi) => lo.y < U128 && hi.y < U128
    case PiecewiseLinear(steps) => forall p :: p in steps ==> p.y < U128
  }

  /**
   * No segment's height times the longest run taken on it overflows. A saturating curve is still
   * interpolated at its last moment, a step of a piecewise one is read off.
   */
  predicate Computable(c: Curve)
    requires Valid(c)
  {
    match c
    case Constant(_) => true
    case SaturatingLinear(lo, hi) => Height(lo, hi) * (hi.x - lo.x) < U128
    case PiecewiseLinear(steps) => Gentle(steps)
  }

  /** The product one moment before the segment's end fits. */
  predicate Level(a: Point, b: Point)
    requires a.x < b.x
  {
    Height(a, b) * (b.x - a.x - 1) < U128
  }

  predicate Gentle(steps: seq<Point>)
    requires Increasing(steps)
  {
    forall i :: 0 <= i < |steps| - 1 ==> Level(steps[i], steps[i + 1])
  }

  /** The interpolation aborts exactly when its product overflows, and is the unbounded one otherwise. */
  lemma InterpolateChecked(a: Point, b: Point, x: nat)
    requires a.x <= x <= b.x && a.x < b.x && a.y < U128 && b.y < U128
    ensures CheckedInterpolate(a, b, x) == if Height(a, b) * (x - a.x) < U128 then Ok(Interpolate(a, b, x)) else Err
  {
    PartWithin(Height(a, b), x - a.x, b.x - a.x);
  }

  lemma ProductMono(h: nat, run: nat, longest: nat)
    requires run <= longest
    ensures h * run <= h * longest
  {
    MulMono(run, longest, h);
    assert run * h == h * run && longest * h == h * longest;
  }

  lemma {:induction false} GentleEval(steps: seq<Point>, x: nat)
    requires Increasing(steps) && Gentle(steps) && forall p :: p in steps ==> p.y < U128
    ensures CheckedEval(steps, x) == Ok(Eval(steps, x))
  {
    if |steps| > 1 && steps[0].x < x {
      if x < steps[1].x {
        ProductMono(Height(steps[0], steps[1]), x - steps[0].x, steps[1].x - steps[0].x - 1);
        InterpolateChecked(steps[0], steps[1], x);
      } else {
        var rest := steps[1..];
        forall i | 0 <= i < |rest| - 1 ensures Level(rest[i], rest[i + 1]) {
          assert rest[i] == steps[i + 1] && rest[i + 1] == steps[i + 1 + 1];
        }
        GentleEval(steps[1..], x);
      }
    }
  }

  /** On a segment, the moment before its end needs the largest product. */
  lemma {:induction false} SteepEval(steps: seq<Point>, i: nat)
    requires Increasing(steps) && forall p :: p in steps ==> p.y < U128
    requires i + 1 < |steps| && !Level(steps[i], steps[i + 1])
    ensures CheckedEval(steps, steps[i + 1].x - 1).Err?
  {
    var run := steps[i + 1].x - steps[i].x - 1;
    assert 0 < run by {
      assert Height(steps[i], steps[i + 1]) * 0 == 0;
    }
    if i == 0 {
      InterpolateChecked(steps[0], steps[1], steps[1].x - 1);
    } else {
      assert steps[1..][i - 1] == steps[i] && steps[1..][i] == steps[i + 1];
      SteepEval(steps[1..], i - 1);
    }
  }

  lemma ComputableValue(c: Curve, x: nat)
    requires Valid(c) && Stored(c) && Computable(c)
    ensures CheckedValue(c, x) == Ok(Value(c, x))
  {
    match c
    case Constant(_) =>
    case SaturatingLinear(lo, hi) =>
      if lo.x <= x <= hi.x {
        ProductMono(Height(lo, hi), x - lo.x, hi.x - lo.x);
        InterpolateChecked(lo, hi, x);
      }
    case PiecewiseLinear(steps) =>
      GentleEval(steps, x);
  }

  lemma AbortsSomewhere(c: Curve) returns (x: nat)
    requires Valid(c) && Stored(c) && !Computable(c)
    ensures CheckedValue(c, x).Err?
  {
    match c
    case SaturatingLinear(lo, hi) =>
      x := hi.x;
      InterpolateChecked(lo, hi, x);
    case PiecewiseLinear(steps) =>
      var i :| 0 <= i < |steps| - 1 && !Level(steps[i], steps[i + 1]);
      x := steps[i + 1].x - 1;
      SteepEval(steps, i);
  }

  /** A curve can be evaluated at every time exactly when none of its segments overflows. */
  lemma ComputableExactly(c: Curve)
    requires Valid(c) && Stored(c)
    ensures Computable(c) <==> forall x :: CheckedValue(c, x) == Ok(Value(c, x))
  {
    if Computable(c) {
      forall x: nat ensures CheckedValue(c, x) == Ok(Value(c, x)) {
        ComputableValue(c, x);
      }
    } else {
      var x := AbortsSomewhere(c);
      assert CheckedValue(c, x).Err?;
    }
  }

  /** Times in `u64`, amounts below 2^64: any curve is computable. */
  predicate Small(c: Curve) {
    match c
    case Constant(y) => y < U64
    case SaturatingLinear(lo, hi) => lo.y < U64 && hi.y < U64 && hi.x < U64
    case PiecewiseLinear(steps) => forall p :: p in steps ==> p.x < U64 && p.y < U64
  }

  lemma SmallProduct(h: nat, run: nat)
    requires h < U64 && run < U64
    ensures h * run < U128
  {
    ProductMono(h, run, U64);
  }

  lemma SmallIsComputable(c: Curve)
    requires Valid(c) && Small(c)
    ensures Stored(c) && Computable(c)
  {
    match c
    case Constant(_) =>
    case SaturatingLinear(lo, hi) =>
      SmallProduct(Height(lo, hi), hi.x - lo.x);
    case PiecewiseLinear(steps) =>
      forall i | 0 <= i < |steps| - 1 ensures Level(steps[i], steps[i + 1]) {
        assert steps[i] in steps && steps[i + 1] in steps;
        SmallProduct(Height(steps[i], steps[i + 1]), steps[i + 1].x - steps[i].x - 1);
      }
  }

  lemma SmallSteps(c: Curve)
    requires Valid(c) && Small(c) && !c.Constant?
    ensures forall p :: p in StepsOf(c) ==> p.x < U64 && p.y < U64
  {
  }

  /** Amounts that together stay below 2^64 leave a combination whose sums, and values ever after, fit. */
  lemma SmallSumsCombine(c: Curve, d: Curve)
    requires Valid(c) && Valid(d) && Small(c) && Small(d) && Range(c).1 + Range(d).1 < U64
    ensures Small(Combine(c, d)) && Computable(Combine(c, d))
  {
    var sum := Combine(c, d);
    if c.Constant? {
      ConstantStaysSmall(d, c.y);
    } else if d.Constant? {
      ConstantStaysSmall(c, d.y);
    } else {
      forall p | p in sum.steps ensures p.x < U64 && p.y < U64 {
        SumStaysSmall(c, d, p);
      }
    }
    SmallIsComputable(sum);
  }

  lemma ConstantStaysSmall(c: Curve, y: nat)
    requires Valid(c) && Small(c) && Range(c).1 + y < U64
    ensures Small(AddConstant(c, y))
  {
    if c.PiecewiseLinear? {
      forall p | p in Shift(c.steps, y) ensures p.x < U64 && p.y < U64 {
        var i :| 0 <= i < |c.steps| && Shift(c.steps, y)[i] == p;
        MaxIsBound(c.steps, i);
        assert c.steps[i] in c.steps;
      }
    }
  }

  lemma StepValue(c: Curve, x: nat)
    requires Valid(c) && !c.Constant?
    ensures Eval(StepsOf(c), x) <= Range(c).1
  {
    WithinRange(c, x);
    if c.SaturatingLinear? {
      SaturatingIsPiecewise(c.lo, c.hi, x);
    }
  }

  lemma SumStaysSmall(c: Curve, d: Curve, p: Point)
    requires Valid(c) && Valid(d) && Small(c) && Small(d) && !c.Constant? && !d.Constant?
    requires Range(c).1 + Range(d).1 < U64 && p in SumSteps(StepsOf(c), StepsOf(d))
    ensures p.x < U64 && p.y < U64
  {
    var a, b := StepsOf(c), StepsOf(d);
    var sum := SumSteps(a, b);
    var i :| 0 <= i < |sum| && sum[i] == p;
    StepValue(c, p.x);
    StepValue(d, p.x);
    SortDedupSorts(Xs(a) + Xs(b));
    assert Xs(sum)[i] == p.x && p.x in Xs(a) + Xs(b);
    SmallSteps(c);
    SmallSteps(d);
    if p.x in Xs(a) {
      var j :| 0 <= j < |a| && a[j].x == p.x;
      assert a[j] in a;
    } else {
      var j :| 0 <= j < |b| && b[j].x == p.x;
      assert b[j] in b;
    }
  }
}
