/**
 * Vesting and cap curves. Interpolation divides with truncation, so a falling segment is rounded
 * up; `combine` samples both curves at every step of either and interpolates the sums again.
 */
module Curves {
  import opened Prelude
  import opened Decimals

  datatype Point = Point(x: nat, y: nat)

  datatype Curve =
    | Constant(y: nat)
    | SaturatingLinear(lo: Point, hi: Point)
    | PiecewiseLinear(steps: seq<Point>)

  // ----- evaluation

  /** `height * run / all`, truncated */
  function Part(height: nat, run: nat, all: nat): nat
    requires 0 < all
  {
    height * run / all
  }

  function Interpolate(a: Point, b: Point, x: nat): nat
    requires a.x <= x <= b.x && a.x < b.x
  {
    if b.y > a.y then a.y + Part(b.y - a.y, x - a.x, b.x - a.x)
    else
      PartWithin(a.y - b.y, x - a.x, b.x - a.x);
      a.y - Part(a.y - b.y, x - a.x, b.x - a.x)
  }

  lemma PartWithin(height: nat, run: nat, all: nat)
    requires 0 < all && run <= all
    ensures Part(height, run, all) <= height
  {
  }

  /** At least one step, at increasing times. */
  predicate Increasing(steps: seq<Point>) {
    steps != [] && forall i, j :: 0 <= i < j < |steps| ==> steps[i].x < steps[j].x
  }

  /** The broken line through the steps, flat before the first and after the last. */
  function Eval(steps: seq<Point>, x: nat): nat
    requires Increasing(steps)
  {
    if |steps| == 1 || x <= steps[0].x then steps[0].y
    else if x < steps[1].x then Interpolate(steps[0], steps[1], x)
    else Eval(steps[1..], x)
  }

  /** The curve has a value at every time. */
  predicate Valid(c: Curve) {
    match c
    case Constant(_) => true
    case SaturatingLinear(lo, hi) => lo.x < hi.x
    case PiecewiseLinear(steps) => Increasing(steps)
  }

  /** `Curve::validate`: of a curve sent by a user the first step must also lie after time zero. */
  predicate Accepted(c: Curve) {
    Valid(c) && (c.PiecewiseLinear? ==> 0 < c.steps[0].x)
  }

  function Value(c: Curve, x: nat): nat
    requires Valid(c)
  {
    match c
    case Constant(y) => y
    case SaturatingLinear(lo, hi) =>
      if x < lo.x then lo.y else if x > hi.x then hi.y else Interpolate(lo, hi, x)
    case PiecewiseLinear(steps) => Eval(steps, x)
  }

  /** `PiecewiseLinear::value` as the contract runs it: find the neighbours, then interpolate. */
  method PiecewiseValue(steps: seq<Point>, x: nat) returns (y: nat)
    requires Increasing(steps)
    ensures y == Eval(steps, x)
  {
    var prev: Option<Point> := None;
    var next := steps[0];
    var i := 1;
    while i < |steps| && x >= next.x
      invariant 1 <= i <= |steps| && next == steps[i - 1]
      invariant prev == if i == 1 then None else Some(steps[i - 2])
      invariant prev.Some? ==> steps[i - 2].x <= x
      invariant Eval(steps, x) == Eval(steps[if i == 1 then 0 else i - 2..], x)
      decreases |steps| - i
    {
      if i >= 2 {
        assert steps[i - 2..][1..] == steps[i - 1..];
        if x == steps[i - 1].x {
          assert Eval(steps[i - 1..], x) == steps[i - 1].y;
        }
      }
      prev := Some(next);
      next := steps[i];
      i := i + 1;
    }
    match prev {
      case Some(last) =>
        ghost var rest := steps[i - 2..];
        assert rest[0] == last && rest[1] == next && rest[1..] == steps[i - 1..];
        if x == last.x {
          y := last.y;
        } else if x >= next.x {
          y := next.y;
        } else {
          y := Interpolate(last, next, x);
        }
      case None =>
        y := next.y;
    }
  }

  // ----- shape

  predicate Falling(steps: seq<Point>) {
    forall i :: 0 <= i < |steps| - 1 ==> steps[i + 1].y <= steps[i].y
  }

  datatype Shape = Flat | Rising | Sinking | Mixed

  function NextShape(shape: Shape, last: nat, y: nat): Shape {
    match shape
    case Mixed => Mixed
    case Sinking => if y > last then Mixed else Sinking
    case Rising => if y < last then Mixed else Rising
    case Flat => if y > last then Rising else if y < last then Sinking else Flat
  }

  /** `classify_curve`: one pass over the steps with the running shape. */
  method Classify(steps: seq<Point>) returns (shape: Shape)
    requires steps != []
    ensures shape == Flat || shape == Sinking <==> Falling(steps)
    ensures shape == Flat || shape == Rising <==> forall i :: 0 <= i < |steps| - 1 ==> steps[i].y <= steps[i + 1].y
  {
    shape := Flat;
    var i := 1;
    while i < |steps|
      invariant 1 <= i <= |steps|
      invariant shape == Flat || shape == Sinking <==> Falling(steps[..i])
      invariant shape == Flat || shape == Rising <==> forall j :: 0 <= j < i - 1 ==> steps[j].y <= steps[j + 1].y
      invariant shape == Flat ==> steps[0].y == steps[i - 1].y
      invariant shape == Mixed ==> !Falling(steps[..i])
    {
      var was := shape;
      shape := NextShape(shape, steps[i - 1].y, steps[i].y);
      assert steps[..i + 1][..i] == steps[..i];
      assert Falling(steps[..i + 1]) <==> Falling(steps[..i]) && steps[i].y <= steps[i - 1].y by {
        var now := steps[..i + 1];
        assert now[i] == steps[i] && now[i - 1] == steps[i - 1];
        assert forall j :: 0 <= j < i ==> now[j] == steps[..i][j];
        if Falling(now) { assert now[i - 1 + 1].y <= now[i - 1].y; }
      }
      i := i + 1;
    }
    assert steps[..|steps|] == steps;
  }

  /** `validate_monotonic_decreasing`, besides `Accepted` */
  predicate Decreasing(c: Curve) {
    Valid(c) && match c
      case Constant(_) => true
      case SaturatingLinear(lo, hi) => hi.y <= lo.y
      case PiecewiseLinear(steps) => Falling(steps)
  }

  /** `validate_monotonic_increasing`, besides `Accepted` */
  predicate Growing(c: Curve) {
    Valid(c) && match c
      case Constant(_) => true
      case SaturatingLinear(lo, hi) => lo.y <= hi.y
      case PiecewiseLinear(steps) => forall i :: 0 <= i < |steps| - 1 ==> steps[i].y <= steps[i + 1].y
  }

  // ----- addition

  function Insert(x: nat, xs: seq<nat>): seq<nat> {
    if xs == [] || x < xs[0] then [x] + xs
    else if x == xs[0] then xs
    else [xs[0]] + Insert(x, xs[1..])
  }

  /** `sort_unstable` and `dedup` */
  function SortDedup(xs: seq<nat>): seq<nat> {
    if xs == [] then [] else Insert(xs[0], SortDedup(xs[1..]))
  }

  predicate Ascending(xs: seq<nat>) {
    forall i, j :: 0 <= i < j < |xs| ==> xs[i] < xs[j]
  }

  lemma {:induction false} InsertKeepsOrder(x: nat, xs: seq<nat>)
    requires Ascending(xs)
    ensures Ascending(Insert(x, xs))
    ensures forall y :: y in Insert(x, xs) <==> y == x || y in xs
  {
    if xs == [] || x <= xs[0] {
    } else {
      var first, rest := xs[0], xs[1..];
      var more := Insert(x, rest);
      InsertKeepsOrder(x, rest);
      assert xs == [first] + rest;
      forall y | y in more ensures first < y {
        assert y == x || y in rest;
      }
      assert forall i :: 0 <= i < |more| ==> more[i] in more;
    }
  }

  lemma {:induction false} SortDedupSorts(xs: seq<nat>)
    ensures Ascending(SortDedup(xs))
    ensures forall y :: y in SortDedup(xs) <==> y in xs
  {
    if xs != [] {
      SortDedupSorts(xs[1..]);
      InsertKeepsOrder(xs[0], SortDedup(xs[1..]));
      assert xs == [xs[0]] + xs[1..];
    }
  }

  function Xs(steps: seq<Point>): seq<nat> {
    seq(|steps|, i requires 0 <= i < |steps| => steps[i].x)
  }

  function Times(a: seq<Point>, b: seq<Point>): seq<nat> {
    SortDedup(Xs(a) + Xs(b))
  }

  /** `PiecewiseLinear::combine` */
  function SumSteps(a: seq<Point>, b: seq<Point>): (sum: seq<Point>)
    requires Increasing(a) && Increasing(b)
    ensures Increasing(sum) && Xs(sum) == Times(a, b)
  {
    var ts := Times(a, b);
    SortDedupSorts(Xs(a) + Xs(b));
    assert Xs(a)[0] in ts;
    var sum := seq(|ts|, i requires 0 <= i < |ts| => Point(ts[i], Eval(a, ts[i]) + Eval(b, ts[i])));
    assert Xs(sum) == ts;
    sum
  }

  function Shift(steps: seq<Point>, y: nat): seq<Point> {
    seq(|steps|, i requires 0 <= i < |steps| => Point(steps[i].x, y + steps[i].y))
  }

  /** `combine_const` */
  function AddConstant(c: Curve, y: nat): Curve {
    match c
    case Constant(z) => Constant(y + z)
    case SaturatingLinear(lo, hi) => SaturatingLinear(Point(lo.x, lo.y + y), Point(hi.x, hi.y + y))
    case PiecewiseLinear(steps) => PiecewiseLinear(Shift(steps, y))
  }

  function StepsOf(c: Curve): (steps: seq<Point>)
    requires Valid(c) && !c.Constant?
    ensures Increasing(steps)
  {
    match c
    case SaturatingLinear(lo, hi) => [lo, hi]
    case PiecewiseLinear(steps) => steps
  }

  /** `Curve::combine` */
  function Combine(c: Curve, d: Curve): (sum: Curve)
    requires Valid(c) && Valid(d)
    ensures Valid(sum)
  {
    if c.Constant? then AddConstant(d, c.y)
    else if d.Constant? then AddConstant(c, d.y)
    else PiecewiseLinear(SumSteps(StepsOf(c), StepsOf(d)))
  }
}
