/**
 * `combine` against pointwise addition. Between two neighbouring steps of the sum neither operand
 * bends, so both operands and the sum are straight lines rounded up; the rounding costs at most
 * one unit in either direction, and both directions occur.
 */
module CurveSums {
  import opened Prelude
  import opened Decimals
  import opened Curves
  import opened CurveLaws

  // ----- the unrounded line

  function Slope(a: Point, b: Point): real
    requires a.x < b.x
  {
    (b.y - a.y) as real / (b.x - a.x) as real
  }

  function Segment(a: Point, b: Point, x: int): real
    requires a.x < b.x
  {
    a.y as real + Slope(a, b) * (x - a.x) as real
  }

  function Line(steps: seq<Point>, x: int): real
    requires Increasing(steps)
  {
    if |steps| == 1 || x <= steps[0].x then steps[0].y as real
    else if x < steps[1].x then Segment(steps[0], steps[1], x)
    else Line(steps[1..], x)
  }

  lemma SegmentEnds(a: Point, b: Point)
    requires a.x < b.x
    ensures Segment(a, b, a.x) == a.y as real && Segment(a, b, b.x) == b.y as real
  {
  }

  predicate RoundedUp(exact: real, y: int) {
    exact <= y as real < exact + 1.0
  }

  /** A falling interpolation is its segment rounded up. */
  lemma InterpolateRoundsUp(a: Point, b: Point, x: nat)
    requires a.x <= x <= b.x && a.x < b.x && b.y <= a.y
    ensures RoundedUp(Segment(a, b, x), Interpolate(a, b, x))
  {
    var fall, run, all := a.y - b.y, x - a.x, b.x - a.x;
    PartWithin(fall, run, all);
    PartRoundsDown(fall, run, all);
    SlopeTimes(fall as real, all as real, run as real);
    assert (b.y - a.y) as real == -(fall as real);
    var exact := fall as real * run as real / all as real;
    assert Segment(a, b, x) == a.y as real - exact;
    assert Interpolate(a, b, x) == a.y - Part(fall, run, all);
  }

  predicate RoundedDown(exact: real, y: int) {
    y as real <= exact < y as real + 1.0
  }

  /** A rising interpolation is its segment rounded down. */
  lemma InterpolateRoundsDown(a: Point, b: Point, x: nat)
    requires a.x <= x <= b.x && a.x < b.x && a.y <= b.y
    ensures RoundedDown(Segment(a, b, x), Interpolate(a, b, x))
  {
    if a.y < b.y {
      RiseRoundsDown(a, b, x);
    } else {
      InterpolateFalls(a, b, x, x);
    }
  }

  lemma RiseRoundsDown(a: Point, b: Point, x: nat)
    requires a.x <= x <= b.x && a.x < b.x && a.y < b.y
    ensures RoundedDown(Segment(a, b, x), Interpolate(a, b, x))
  {
    var rise, run, all := b.y - a.y, x - a.x, b.x - a.x;
    PartRoundsDown(rise, run, all);
    RiseTimes(rise as real, all as real, run as real);
    var exact := rise as real * run as real / all as real;
    assert Segment(a, b, x) == a.y as real + exact;
    assert Interpolate(a, b, x) == a.y + Part(rise, run, all);
  }

  lemma PartRoundsDown(height: nat, run: nat, all: nat)
    requires 0 < all
    ensures RoundedDown(height as real * run as real / all as real, Part(height, run, all))
  {
    DivBounds(height * run, all);
    RatioWithin((height * run) as real, all as real, (height * run / all) as real);
    assert (height * run) as real == height as real * run as real;
  }

  lemma RiseTimes(rise: real, all: real, run: real)
    requires 0.0 < all
    ensures rise / all * run == rise * run / all
  {
  }

  /** Less than one unit from the line. */
  predicate Near(exact: real, y: int) {
    exact - 1.0 < y as real < exact + 1.0
  }

  /** A curve's value, wherever it rises or falls, is its broken line but for less than one unit. */
  lemma {:induction false} EvalNearLine(steps: seq<Point>, x: nat)
    requires Increasing(steps)
    ensures Near(Line(steps, x), Eval(steps, x))
  {
    if |steps| == 1 || x <= steps[0].x {
    } else if x < steps[1].x {
      if steps[0].y <= steps[1].y {
        InterpolateRoundsDown(steps[0], steps[1], x);
      } else {
        InterpolateRoundsUp(steps[0], steps[1], x);
      }
    } else {
      EvalNearLine(steps[1..], x);
    }
  }

  lemma SlopeTimes(fall: real, all: real, run: real)
    requires 0.0 < all
    ensures (-fall) / all * run == -(fall * run / all)
  {
  }

  lemma RatioWithin(a: real, t: real, i: real)
    requires 0.0 < t && i * t <= a < i * t + t
    ensures i <= a / t < i + 1.0
  {
    var q := a / t;
    assert q * t == a;
    assert (i + 1.0) * t == i * t + t;
    RealOrder(q, i, t);
    RealOrder(i + 1.0, q, t);
  }

  lemma RealOrder(a: real, b: real, t: real)
    requires 0.0 < t
    ensures a < b <==> a * t < b * t
  {
  }

  lemma {:induction false} EvalRoundsUp(steps: seq<Point>, x: nat)
    requires Increasing(steps) && Falling(steps)
    ensures RoundedUp(Line(steps, x), Eval(steps, x))
  {
    if |steps| == 1 || x <= steps[0].x {
    } else if x < steps[1].x {
      FallingTail(steps);
      InterpolateRoundsUp(steps[0], steps[1], x);
    } else {
      FallingTail(steps);
      EvalRoundsUp(steps[1..], x);
    }
  }

  lemma {:induction false} LineAtStep(steps: seq<Point>, i: nat)
    requires Increasing(steps) && i < |steps|
    ensures Line(steps, steps[i].x) == steps[i].y as real
  {
    if i > 0 {
      assert steps[1..][i - 1] == steps[i];
      LineAtStep(steps[1..], i - 1);
    }
  }

  // ----- straight between neighbours

  /** No step lies strictly between the two times. */
  predicate Unbent(steps: seq<Point>, p: nat, q: nat) {
    forall i :: 0 <= i < |steps| ==> steps[i].x <= p || q <= steps[i].x
  }

  /** The point of the chord from `(p, u)` to `(q, v)` at time `t`. */
  function Chord(p: nat, u: real, q: nat, v: real, t: nat): real
    requires p < q
  {
    u + (v - u) * ((t - p) as real / (q - p) as real)
  }

  lemma {:induction false} StraightWhereUnbent(steps: seq<Point>, p: nat, q: nat, t: nat)
    requires Increasing(steps) && p < q && p <= t <= q && Unbent(steps, p, q)
    ensures Line(steps, t) == Chord(p, Line(steps, p), q, Line(steps, q), t)
  {
    if |steps| == 1 || q <= steps[0].x {
    } else if steps[1].x <= p {
      assert Unbent(steps[1..], p, q);
      StraightWhereUnbent(steps[1..], p, q, t);
    } else {
      assert steps[0].x <= p && q <= steps[1].x;
      SegmentEnds(steps[0], steps[1]);
      LineAtStep(steps, 0);
      LineAtStep(steps, 1);
      SegmentIsChord(steps[0], steps[1], p, q, t);
    }
  }

  lemma SegmentIsChord(a: Point, b: Point, p: nat, q: nat, t: nat)
    requires a.x < b.x && p < q
    ensures Segment(a, b, t) == Chord(p, Segment(a, b, p), q, Segment(a, b, q), t)
  {
  }

  /** Chords through nearby end points are nearby. */
  lemma ChordBetween(p: nat, u: real, u': real, q: nat, v: real, v': real, t: nat)
    requires p < q && p <= t <= q
    requires u <= u' < u + 1.0 && v <= v' < v + 1.0
    ensures Chord(p, u, q, v, t) <= Chord(p, u', q, v', t) < Chord(p, u, q, v, t) + 1.0
  {
    var w := (t - p) as real / (q - p) as real;
    WeightWithin((t - p) as real, (q - p) as real);
    assert Chord(p, u, q, v, t) == u * (1.0 - w) + v * w;
    assert Chord(p, u', q, v', t) == u' * (1.0 - w) + v' * w;
    var du, dv := u' - u, v' - v;
    assert Chord(p, u', q, v', t) - Chord(p, u, q, v, t) == du * (1.0 - w) + dv * w;
    Average(du, dv, w);
  }

  lemma WeightWithin(a: real, b: real)
    requires 0.0 <= a <= b && 0.0 < b
    ensures 0.0 <= a / b <= 1.0
  {
  }

  lemma Average(x: real, y: real, w: real)
    requires 0.0 <= x < 1.0 && 0.0 <= y < 1.0 && 0.0 <= w <= 1.0
    ensures 0.0 <= x * (1.0 - w) + y * w < 1.0
  {
    assert 0.0 <= x * (1.0 - w) && 0.0 <= y * w;
    if x <= y {
      assert (y - x) * (1.0 - w) >= 0.0;
      assert y * (1.0 - w) + y * w == y;
    } else {
      assert (x - y) * w >= 0.0;
      assert x * (1.0 - w) + x * w == x;
    }
  }

  lemma ChordSum(p: nat, u: real, u': real, q: nat, v: real, v': real, t: nat)
    requires p < q
    ensures Chord(p, u, q, v, t) + Chord(p, u', q, v', t) == Chord(p, u + u', q, v + v', t)
  {
  }

  // ----- the sum

  ghost predicate Within(a: int, b: int, d: nat) {
    b - d <= a <= b + d
  }

  /** The two operands' steps are among the times of the sum, and between those neither bends. */
  lemma NeighboursUnbent(a: seq<Point>, b: seq<Point>, i: nat)
    requires Increasing(a) && Increasing(b) && i + 1 < |SumSteps(a, b)|
    ensures var sum := SumSteps(a, b);
            && Unbent(a, sum[i].x, sum[i + 1].x) && Unbent(b, sum[i].x, sum[i + 1].x)
  {
    var ts := Times(a, b);
    SortDedupSorts(Xs(a) + Xs(b));
    forall j | 0 <= j < |a| ensures a[j].x <= ts[i] || ts[i + 1] <= a[j].x {
      assert Xs(a)[j] in ts;
    }
    forall j | 0 <= j < |b| ensures b[j].x <= ts[i] || ts[i + 1] <= b[j].x {
      assert Xs(b)[j] in ts;
    }
  }

  /** At each time of the sum one of the operands has a step, so only the other is rounded. */
  lemma SumAtTime(a: seq<Point>, b: seq<Point>, i: nat)
    requires Increasing(a) && Increasing(b) && Falling(a) && Falling(b) && i < |SumSteps(a, b)|
    ensures var p := SumSteps(a, b)[i]; RoundedUp(Line(a, p.x) + Line(b, p.x), p.y)
  {
    var ts := Times(a, b);
    SortDedupSorts(Xs(a) + Xs(b));
    var x := ts[i];
    EvalRoundsUp(a, x);
    EvalRoundsUp(b, x);
    assert x in Xs(a) + Xs(b);
    if x in Xs(a) {
      var j :| 0 <= j < |a| && a[j].x == x;
      EvalAtStep(a, j);
      LineAtStep(a, j);
    } else {
      var j :| 0 <= j < |b| && b[j].x == x;
      EvalAtStep(b, j);
      LineAtStep(b, j);
    }
  }

  lemma SumFalls(a: seq<Point>, b: seq<Point>)
    requires Increasing(a) && Increasing(b) && Falling(a) && Falling(b)
    ensures Falling(SumSteps(a, b))
  {
    var sum := SumSteps(a, b);
    forall i | 0 <= i < |sum| - 1 ensures sum[i + 1].y <= sum[i].y {
      assert sum[i].x < sum[i + 1].x;
      EvalFalls(a, sum[i].x, sum[i + 1].x);
      EvalFalls(b, sum[i].x, sum[i + 1].x);
    }
  }

  /** Two rounded lines against the rounded chord of their sums. */
  lemma RoundedChords(p: Point, q: Point, t: nat, a: real, a': real, b: real, b': real, ya: nat, yb: nat)
    requires p.x < q.x && p.x <= t <= q.x && q.y <= p.y
    requires RoundedUp(a + b, p.y) && RoundedUp(a' + b', q.y)
    requires RoundedUp(Chord(p.x, a, q.x, a', t), ya) && RoundedUp(Chord(p.x, b, q.x, b', t), yb)
    ensures Within(Interpolate(p, q, t), ya + yb, 1)
  {
    ChordSum(p.x, a, b, q.x, a', b', t);
    ChordBetween(p.x, a + b, p.y as real, q.x, a' + b', q.y as real, t);
    SegmentEnds(p, q);
    SegmentIsChord(p, q, p.x, q.x, t);
    InterpolateRoundsUp(p, q, t);
    var exact, chord, y := Chord(p.x, a + b, q.x, a' + b', t), Segment(p, q, t), Interpolate(p, q, t);
    assert exact <= chord < exact + 1.0;
    assert chord <= y as real < chord + 1.0;
    assert exact <= (ya + yb) as real < exact + 2.0;
  }

  /** Between two neighbouring times the sum is within one of the sum of the values. */
  lemma SumBetween(a: seq<Point>, b: seq<Point>, i: nat, t: nat)
    requires Increasing(a) && Increasing(b) && Falling(a) && Falling(b)
    requires i + 1 < |SumSteps(a, b)|
    requires SumSteps(a, b)[i].x <= t <= SumSteps(a, b)[i + 1].x
    ensures var sum := SumSteps(a, b);
            Within(Interpolate(sum[i], sum[i + 1], t), Eval(a, t) + Eval(b, t), 1)
  {
    var sum := SumSteps(a, b);
    var p, q := sum[i], sum[i + 1];
    SumFalls(a, b);
    assert sum[i + 1].y <= sum[i].y;
    NeighboursUnbent(a, b, i);
    StraightWhereUnbent(a, p.x, q.x, t);
    StraightWhereUnbent(b, p.x, q.x, t);
    SumAtTime(a, b, i);
    SumAtTime(a, b, i + 1);
    EvalRoundsUp(a, t);
    EvalRoundsUp(b, t);
    RoundedChords(p, q, t, Line(a, p.x), Line(a, q.x), Line(b, p.x), Line(b, q.x), Eval(a, t), Eval(b, t));
  }

  /** Where the evaluation of a line falls: before it, after it, or between two neighbours. */
  lemma {:induction false} Locate(steps: seq<Point>, t: nat) returns (i: nat)
    requires Increasing(steps)
    ensures i < |steps|
    ensures t <= steps[0].x ==> Eval(steps, t) == steps[0].y
    ensures t > steps[0].x ==>
      && steps[i].x <= t
      && (if i + 1 == |steps| then Eval(steps, t) == steps[i].y
          else t < steps[i + 1].x && Eval(steps, t) == Interpolate(steps[i], steps[i + 1], t))
  {
    i := 0;
    if |steps| > 1 && t > steps[0].x && steps[1].x <= t {
      i := Locate(steps[1..], t);
      if t == steps[1].x {
        i := 1;
        EvalAtStep(steps, 1);
        if |steps| > 2 {
          InterpolateEnds(steps[1], steps[2]);
        }
      } else {
        i := i + 1;
      }
    }
  }

  lemma {:induction false} FlatOutside(steps: seq<Point>, t: nat)
    requires Increasing(steps)
    ensures t <= steps[0].x ==> Eval(steps, t) == Eval(steps, steps[0].x)
    ensures steps[|steps| - 1].x <= t ==> Eval(steps, t) == steps[|steps| - 1].y
  {
    if |steps| > 1 && t > steps[0].x {
      FlatOutside(steps[1..], t);
    }
  }

  /** Before the first and after the last time of the sum both operands are flat. */
  lemma SumOutside(a: seq<Point>, b: seq<Point>, t: nat)
    requires Increasing(a) && Increasing(b)
    ensures var sum := SumSteps(a, b);
            t <= sum[0].x || sum[|sum| - 1].x <= t ==> Eval(sum, t) == Eval(a, t) + Eval(b, t)
  {
    var sum, ts := SumSteps(a, b), Times(a, b);
    SortDedupSorts(Xs(a) + Xs(b));
    assert Xs(a)[0] in ts && Xs(b)[0] in ts && Xs(a)[|a| - 1] in ts && Xs(b)[|b| - 1] in ts;
    FlatOutside(sum, t);
    FlatOutside(a, t);
    FlatOutside(b, t);
    FlatOutside(a, sum[0].x);
    FlatOutside(b, sum[0].x);
    FlatOutside(a, sum[|sum| - 1].x);
    FlatOutside(b, sum[|sum| - 1].x);
    assert ts[0] <= a[0].x && ts[0] <= b[0].x;
    assert a[|a| - 1].x <= ts[|ts| - 1] && b[|b| - 1].x <= ts[|ts| - 1];
  }

  lemma SumStepsWithinOne(a: seq<Point>, b: seq<Point>, t: nat)
    requires Increasing(a) && Increasing(b) && Falling(a) && Falling(b)
    ensures Within(Eval(SumSteps(a, b), t), Eval(a, t) + Eval(b, t), 1)
  {
    var sum := SumSteps(a, b);
    SumOutside(a, b, t);
    if sum[0].x < t < sum[|sum| - 1].x {
      var i := Locate(sum, t);
      SumBetween(a, b, i, t);
    }
  }

  lemma {:induction false} ShiftAddsConstant(steps: seq<Point>, y: nat, t: nat)
    requires Increasing(steps)
    ensures Increasing(Shift(steps, y)) && Eval(Shift(steps, y), t) == y + Eval(steps, t)
  {
    if |steps| > 1 {
      assert Shift(steps, y)[1..] == Shift(steps[1..], y);
      ShiftAddsConstant(steps[1..], y, t);
    }
  }

  lemma AddConstantIsExact(c: Curve, y: nat, t: nat)
    requires Valid(c)
    ensures Valid(AddConstant(c, y)) && Value(AddConstant(c, y), t) == y + Value(c, t)
    ensures Decreasing(c) ==> Decreasing(AddConstant(c, y))
  {
    if c.PiecewiseLinear? {
      ShiftAddsConstant(c.steps, y, t);
      if Falling(c.steps) {
        var up := Shift(c.steps, y);
        forall i | 0 <= i < |up| - 1 ensures up[i + 1].y <= up[i].y {
          assert c.steps[i + 1].y <= c.steps[i].y;
        }
      }
    }
  }

  lemma ValueOfSteps(c: Curve, t: nat)
    requires Decreasing(c) && !c.Constant?
    ensures Value(c, t) == Eval(StepsOf(c), t) && Falling(StepsOf(c))
  {
    if c.SaturatingLinear? {
      SaturatingIsPiecewise(c.lo, c.hi, t);
    }
  }

  /**
   * Combining two falling curves yields a falling curve whose value at every time is within one
   * unit of the sum of the two values, and exactly the sum when one of them is constant.
   */
  lemma CombineIsSumWithinOne(c: Curve, d: Curve, t: nat)
    requires Decreasing(c) && Decreasing(d)
    ensures Decreasing(Combine(c, d))
    ensures Within(Value(Combine(c, d), t), Value(c, t) + Value(d, t), if c.Constant? || d.Constant? then 0 else 1)
  {
    if c.Constant? {
      AddConstantIsExact(d, c.y, t);
    } else if d.Constant? {
      AddConstantIsExact(c, d.y, t);
    } else {
      ValueOfSteps(c, t);
      ValueOfSteps(d, t);
      SumFalls(StepsOf(c), StepsOf(d));
      SumStepsWithinOne(StepsOf(c), StepsOf(d), t);
    }
  }

  lemma SortedTimes()
    ensures SortDedup([0, 4, 3, 4]) == [0, 3, 4] && SortDedup([0, 2, 0, 2]) == [0, 2]
  {
  }

  lemma ExceedingSteps(a: seq<Point>, b: seq<Point>)
    requires a == [Point(0, 2), Point(4, 0)] && b == [Point(3, 5), Point(4, 0)]
    ensures Increasing(a) && Increasing(b) && SumSteps(a, b) == [Point(0, 7), Point(3, 6), Point(4, 0)]
  {
    assert Xs(a) + Xs(b) == [0, 4, 3, 4];
    SortedTimes();
    assert Eval(a, 0) == 2 && Eval(a, 3) == 1 && Eval(a, 4) == 0;
    assert Eval(b, 0) == 5 && Eval(b, 3) == 5 && Eval(b, 4) == 0;
  }

  lemma ShortSteps(e: seq<Point>)
    requires e == [Point(0, 1), Point(2, 0)]
    ensures Increasing(e) && SumSteps(e, e) == [Point(0, 2), Point(2, 0)]
  {
    assert Xs(e) + Xs(e) == [0, 2, 0, 2];
    SortedTimes();
    assert Eval(e, 0) == 1 && Eval(e, 2) == 0;
  }

  /** The sum can lie one above the values ... */
  lemma SumCanExceed()
    ensures var c, d := SaturatingLinear(Point(0, 2), Point(4, 0)), SaturatingLinear(Point(3, 5), Point(4, 0));
            Decreasing(c) && Decreasing(d) && Value(c, 2) == 1 && Value(d, 2) == 5 && Value(Combine(c, d), 2) == 7
            && |Combine(c, d).steps| == 3
  {
    var a, b := [Point(0, 2), Point(4, 0)], [Point(3, 5), Point(4, 0)];
    ExceedingSteps(a, b);
    var sum := SumSteps(a, b);
    assert Eval(sum, 2) == Interpolate(sum[0], sum[1], 2) == 7;
  }

  /** ... and one below them. */
  lemma SumCanFallShort()
    ensures var c := SaturatingLinear(Point(0, 1), Point(2, 0));
            Decreasing(c) && Value(c, 1) == 1 && Value(Combine(c, c), 1) == 1
  {
    ShortSteps([Point(0, 1), Point(2, 0)]);
  }
}
