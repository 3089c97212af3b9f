/**
 * Cubic-Bezier easing, the bezier-easing library bundled at the top of
 * dist/bundle.js, over exact reals.
 *
 * A curve runs from (0, 0) to (1, 1) with control points (x1, y1) and
 * (x2, y2).  Easing x means: find the parameter t with x(t) = x (a sample
 * table, then Newton-Raphson or bisection) and return y(t).
 */
module BezierEasing {
  import opened Base

  const NEWTON_ITERATIONS: nat := 4
  const NEWTON_MIN_SLOPE: real := 0.001
  const SUBDIVISION_PRECISION: real := 0.0000001
  const SUBDIVISION_MAX_ITERATIONS: nat := 10
  const SPLINE_TABLE_SIZE: nat := 11
  const SAMPLE_STEP_SIZE: real := 0.1  // 1 / (SPLINE_TABLE_SIZE - 1)

  // Polynomial coefficients of one coordinate of the curve.
  function A(a1: real, a2: real): real { 1.0 - 3.0 * a2 + 3.0 * a1 }
  function B(a1: real, a2: real): real { 3.0 * a2 - 6.0 * a1 }
  function C(a1: real): real { 3.0 * a1 }

  /** x(t) for control values x1, x2 (or y(t) for y1, y2), evaluated in Horner form;
      the curve starts at 0 and ends at 1 whatever the control values. */
  function CalcBezier(t: real, a1: real, a2: real): (r: real)
    ensures t == 0.0 ==> r == 0.0
    ensures t == 1.0 ==> r == 1.0
  {
    ((A(a1, a2) * t + B(a1, a2)) * t + C(a1)) * t
  }

  /** dx/dt (or dy/dt).  The curve leaves (0, 0) towards the first control point and
      arrives at (1, 1) from the second: the end slopes are 3 a1 and 3 (1 - a2). */
  function GetSlope(t: real, a1: real, a2: real): (r: real)
    ensures t == 0.0 ==> r == 3.0 * a1
    ensures t == 1.0 ==> r == 3.0 * (1.0 - a2)
  {
    3.0 * A(a1, a2) * t * t + 2.0 * B(a1, a2) * t + C(a1)
  }

  /** GetSlope is the derivative of CalcBezier: the exact Taylor expansion at t. */
  lemma SlopeIsDerivative(t: real, h: real, a1: real, a2: real)
    ensures CalcBezier(t + h, a1, a2) - CalcBezier(t, a1, a2)
         == h * GetSlope(t, a1, a2) + h * h * (3.0 * A(a1, a2) * t + B(a1, a2)) + h * h * h * A(a1, a2)
  {
    var a, b, c := A(a1, a2), B(a1, a2), C(a1);
    var u := t + h;
    assert u * u == t * t + 2.0 * t * h + h * h;
    assert u * u * u == t * t * t + 3.0 * t * t * h + 3.0 * t * h * h + h * h * h;
    assert CalcBezier(u, a1, a2) == a * (u * u * u) + b * (u * u) + c * u;
    assert CalcBezier(t, a1, a2) == a * (t * t * t) + b * (t * t) + c * t;
  }

  datatype Curve = Curve(x1: real, y1: real, x2: real, y2: real)

  /** The factory's guard: both x control values lie in [0, 1]; y values may overshoot. */
  predicate ValidX(c: Curve) {
    0.0 <= c.x1 <= 1.0 && 0.0 <= c.x2 <= 1.0
  }

  /** x1 == y1 and x2 == y2: then x(t) == y(t) for every t, so the curve is the line y = x. */
  predicate IsLinear(c: Curve) {
    c.x1 == c.y1 && c.x2 == c.y2
  }

  /** The five named presets, with the control points CSS uses. */
  datatype Preset = Ease | EaseIn | EaseOut | EaseInOut | Linear

  function PresetName(p: Preset): string {
    match p
    case Ease => "ease"
    case EaseIn => "easeIn"
    case EaseOut => "easeOut"
    case EaseInOut => "easeInOut"
    case Linear => "linear"
  }

  function PresetCurve(p: Preset): (c: Curve)
    ensures ValidX(c)
    ensures p == Linear <==> IsLinear(c)
  {
    match p
    case Ease => Curve(0.25, 0.1, 0.25, 1.0)
    case EaseIn => Curve(0.42, 0.0, 1.0, 1.0)
    case EaseOut => Curve(0.0, 0.0, 0.58, 1.0)
    case EaseInOut => Curve(0.42, 0.0, 0.58, 1.0)
    case Linear => Curve(0.0, 0.0, 1.0, 1.0)
  }

  /** Looking a name up in the presets object. */
  function PresetNamed(name: string): (p: Option<Preset>)
    ensures p.Some? ==> PresetName(p.value) == name
    ensures p.None? ==> forall q: Preset :: PresetName(q) != name
  {
    if name == "ease" then Some(Ease)
    else if name == "easeIn" then Some(EaseIn)
    else if name == "easeOut" then Some(EaseOut)
    else if name == "easeInOut" then Some(EaseInOut)
    else if name == "linear" then Some(Linear)
    else None
  }

  /** The sample table: x at t = 0, 0.1, ..., 1. */
  function SampleTable(x1: real, x2: real): (s: seq<real>)
    ensures |s| == SPLINE_TABLE_SIZE
    ensures forall i :: 0 <= i < |s| ==> s[i] == CalcBezier(i as real * SAMPLE_STEP_SIZE, x1, x2)
  {
    seq(SPLINE_TABLE_SIZE, i => CalcBezier(i as real * SAMPLE_STEP_SIZE, x1, x2))
  }

  /** The Horner form is the Bernstein form of the cubic with end points 0 and 1. */
  lemma BernsteinForm(t: real, a1: real, a2: real)
    ensures CalcBezier(t, a1, a2)
         == 3.0 * (t * (1.0 - t) * (1.0 - t)) * a1 + 3.0 * (t * t * (1.0 - t)) * a2 + t * t * t
  {
    assert CalcBezier(t, a1, a2) == A(a1, a2) * (t * t * t) + B(a1, a2) * (t * t) + C(a1) * t;
    assert t * (1.0 - t) * (1.0 - t) == t * t * t - 2.0 * (t * t) + t;
    assert t * t * (1.0 - t) == t * t - t * t * t;
  }

  /** For x control values in [0, 1], consecutive samples strictly increase, so the
      division by the sample gap in getTForX never divides by zero.  At each pair of
      sample points the gap is linear in (x1, x2) with non-negative coefficients and a
      positive constant. */
  lemma SampleGapPositive(x1: real, x2: real, k: nat)
    requires 0.0 <= x1 <= 1.0 && 0.0 <= x2 <= 1.0
    requires k < SPLINE_TABLE_SIZE - 1
    ensures CalcBezier(k as real * SAMPLE_STEP_SIZE, x1, x2) < CalcBezier((k + 1) as real * SAMPLE_STEP_SIZE, x1, x2)
  {
    var t := k as real * SAMPLE_STEP_SIZE;
    var u := (k + 1) as real * SAMPLE_STEP_SIZE;
    BernsteinForm(t, x1, x2);
    BernsteinForm(u, x1, x2);
    if k == 0 {
      assert t == 0.0 && u == 0.1;
    } else if k == 1 {
      assert t == 0.1 && u == 0.2;
    } else if k == 2 {
      assert t == 0.2 && u == 0.3;
    } else if k == 3 {
      assert t == 0.3 && u == 0.4;
    } else if k == 4 {
      assert t == 0.4 && u == 0.5;
    } else if k == 5 {
      assert t == 0.5 && u == 0.6;
    } else if k == 6 {
      assert t == 0.6 && u == 0.7;
    } else if k == 7 {
      assert t == 0.7 && u == 0.8;
    } else if k == 8 {
      assert t == 0.8 && u == 0.9;
    } else {
      assert t == 0.9 && u == 1.0;
    }
  }

  /** What getTForX needs of a sample table: eleven strictly increasing values. */
  predicate Ascending(s: seq<real>) {
    |s| == SPLINE_TABLE_SIZE && forall k :: 0 <= k < SPLINE_TABLE_SIZE - 1 ==> s[k] < s[k + 1]
  }

  /** For a curve that passed the guard the table runs from 0 to 1 and is ascending. */
  lemma SampleTableIncreasing(x1: real, x2: real)
    requires 0.0 <= x1 <= 1.0 && 0.0 <= x2 <= 1.0
    ensures Ascending(SampleTable(x1, x2))
    ensures SampleTable(x1, x2)[0] == 0.0
    ensures SampleTable(x1, x2)[SPLINE_TABLE_SIZE - 1] == 1.0
  {
    var s := SampleTable(x1, x2);
    assert (SPLINE_TABLE_SIZE - 1) as real * SAMPLE_STEP_SIZE == 1.0;
    forall k | 0 <= k < SPLINE_TABLE_SIZE - 1
      ensures s[k] < s[k + 1]
    {
      SampleGapPositive(x1, x2, k);
    }
  }

  /** Where the scan of getTForX leaves currentSample when started at sample k
      (before the final decrement). */
  function ScanFrom(s: seq<real>, x: real, k: nat): (j: nat)
    requires |s| == SPLINE_TABLE_SIZE && 1 <= k < SPLINE_TABLE_SIZE
    ensures k <= j < SPLINE_TABLE_SIZE
    ensures forall m :: k <= m < j ==> s[m] <= x
    ensures j < SPLINE_TABLE_SIZE - 1 ==> x < s[j]
    decreases SPLINE_TABLE_SIZE - k
  {
    if k != SPLINE_TABLE_SIZE - 1 && s[k] <= x then ScanFrom(s, x, k + 1) else k
  }

  /** The index k of the sample interval [k/10, (k+1)/10] that getTForX picks for x:
      every scanned sample up to k is at most x, and the next one exceeds x unless
      the scan ran into the last interval. */
  function Bracket(s: seq<real>, x: real): (k: nat)
    requires |s| == SPLINE_TABLE_SIZE
    ensures k <= SPLINE_TABLE_SIZE - 2
    ensures forall m :: 1 <= m <= k ==> s[m] <= x
    ensures k + 1 < SPLINE_TABLE_SIZE - 1 ==> x < s[k + 1]
  {
    ScanFrom(s, x, 1) - 1
  }

  /** For x between the first and the last sample, the chosen samples enclose x. */
  lemma BracketEncloses(s: seq<real>, x: real)
    requires Ascending(s)
    requires s[0] <= x <= s[SPLINE_TABLE_SIZE - 1]
    ensures s[Bracket(s, x)] <= x <= s[Bracket(s, x) + 1]
  {
    var k := Bracket(s, x);
    if k > 0 {
      assert s[k] <= x;
    }
  }

  /** Linear interpolation of x inside sample interval k: the starting guess for t. */
  function InitialGuess(s: seq<real>, k: nat, x: real): real
    requires Ascending(s) && k < SPLINE_TABLE_SIZE - 1
  {
    var dist := (x - s[k]) / (s[k + 1] - s[k]);
    k as real * SAMPLE_STEP_SIZE + dist * SAMPLE_STEP_SIZE
  }

  /** For x between the first and the last sample the initial guess lies inside the
      chosen interval of t. */
  lemma InitialGuessInInterval(s: seq<real>, x: real)
    requires Ascending(s)
    requires s[0] <= x <= s[SPLINE_TABLE_SIZE - 1]
    ensures var k := Bracket(s, x);
      k as real * SAMPLE_STEP_SIZE <= InitialGuess(s, k, x) <= (k + 1) as real * SAMPLE_STEP_SIZE
  {
    var k := Bracket(s, x);
    BracketEncloses(s, x);
    InterpolationWeight(s[k], s[k + 1], x);
  }

  /** The weight of x between two distinct enclosing samples lies in [0, 1]. */
  lemma InterpolationWeight(lo: real, hi: real, x: real)
    requires lo <= x <= hi && lo < hi
    ensures 0.0 <= (x - lo) / (hi - lo) <= 1.0
  {
    var gap := hi - lo;
    var dist := (x - lo) / gap;
    assert dist * gap == x - lo;
    assert (1.0 - dist) * gap == hi - x;
  }

  /** Newton-Raphson from guess with at most n updates; stops early at a zero slope. */
  function Newton(x: real, guess: real, x1: real, x2: real, n: nat): real
    decreases n
  {
    if n == 0 then guess
    else
      var slope := GetSlope(guess, x1, x2);
      if slope == 0.0 then guess
      else Newton(x, guess - (CalcBezier(guess, x1, x2) - x) / slope, x1, x2, n - 1)
  }

  /** An exact root is a fixed point of the iteration. */
  lemma {:induction false} NewtonKeepsRoot(x: real, guess: real, x1: real, x2: real, n: nat)
    requires CalcBezier(guess, x1, x2) == x
    ensures Newton(x, guess, x1, x2, n) == guess
    decreases n
  {
    if n > 0 {
      var slope := GetSlope(guess, x1, x2);
      if slope != 0.0 {
        assert guess - (CalcBezier(guess, x1, x2) - x) / slope == guess;
        NewtonKeepsRoot(x, guess, x1, x2, n - 1);
      }
    }
  }

  method NewtonRaphsonIterate(x: real, guess: real, x1: real, x2: real) returns (t: real)
    ensures t == Newton(x, guess, x1, x2, NEWTON_ITERATIONS)
    ensures GetSlope(guess, x1, x2) == 0.0 ==> t == guess
    ensures CalcBezier(guess, x1, x2) == x ==> t == guess
  {
    if CalcBezier(guess, x1, x2) == x {
      NewtonKeepsRoot(x, guess, x1, x2, NEWTON_ITERATIONS);
    }
    t := guess;
    for i := 0 to NEWTON_ITERATIONS
      invariant Newton(x, t, x1, x2, NEWTON_ITERATIONS - i) == Newton(x, guess, x1, x2, NEWTON_ITERATIONS)
    {
      var currentSlope := GetSlope(t, x1, x2);
      if currentSlope == 0.0 {
        return;
      }
      var currentX := CalcBezier(t, x1, x2) - x;
      t := t - currentX / currentSlope;
    }
  }

  function Abs(r: real): real {
    if r < 0.0 then -r else r
  }

  /** Bisection of [a, b] from iteration i: the midpoint is kept when x(mid) is
      within precision of x or the iterations run out. */
  function Bisect(x: real, a: real, b: real, x1: real, x2: real, i: nat): (t: real)
    requires i < SUBDIVISION_MAX_ITERATIONS
    ensures a <= b ==> a <= t <= b
    decreases SUBDIVISION_MAX_ITERATIONS - i
  {
    var mid := a + (b - a) / 2.0;
    var currentX := CalcBezier(mid, x1, x2) - x;
    if Abs(currentX) > SUBDIVISION_PRECISION && i + 1 < SUBDIVISION_MAX_ITERATIONS then
      if currentX > 0.0 then Bisect(x, a, mid, x1, x2, i + 1) else Bisect(x, mid, b, x1, x2, i + 1)
    else mid
  }

  /** The do-while loop of binarySubdivide; evaluations counts the midpoints it computes. */
  method BinarySubdivide(x: real, a: real, b: real, x1: real, x2: real) returns (t: real, ghost evaluations: nat)
    ensures t == Bisect(x, a, b, x1, x2, 0)
    ensures a <= b ==> a <= t <= b
    ensures 1 <= evaluations <= SUBDIVISION_MAX_ITERATIONS
  {
    var lo, hi := a, b;
    var i: nat := 0;
    while true
      invariant i < SUBDIVISION_MAX_ITERATIONS
      invariant Bisect(x, lo, hi, x1, x2, i) == Bisect(x, a, b, x1, x2, 0)
      invariant a <= b ==> a <= lo <= hi <= b
      decreases SUBDIVISION_MAX_ITERATIONS - i
    {
      t := lo + (hi - lo) / 2.0;
      var currentX := CalcBezier(t, x1, x2) - x;
      if currentX > 0.0 {
        hi := t;
      } else {
        lo := t;
      }
      evaluations := i + 1;
      if !(Abs(currentX) > SUBDIVISION_PRECISION && i + 1 < SUBDIVISION_MAX_ITERATIONS) {
        break;
      }
      i := i + 1;
    }
  }

  /** getTForX over sample table s: the parameter t whose x(t) approximates x. */
  function TForX(s: seq<real>, x1: real, x2: real, x: real): real
    requires Ascending(s)
  {
    var k := Bracket(s, x);
    Refine(x, InitialGuess(s, k, x), k as real * SAMPLE_STEP_SIZE, x1, x2)
  }

  /** The last step of getTForX: Newton from the guess where the slope is steep enough,
      the guess itself where the slope is zero, bisection of the interval otherwise. */
  function Refine(x: real, guess: real, intervalStart: real, x1: real, x2: real): real {
    var slope := GetSlope(guess, x1, x2);
    if slope >= NEWTON_MIN_SLOPE then Newton(x, guess, x1, x2, NEWTON_ITERATIONS)
    else if slope == 0.0 then guess
    else Bisect(x, intervalStart, intervalStart + SAMPLE_STEP_SIZE, x1, x2, 0)
  }

  /** Off the Newton path, getTForX stays inside the chosen interval of t, hence in [0, 1]. */
  lemma TForXInInterval(s: seq<real>, x1: real, x2: real, x: real)
    requires Ascending(s)
    requires s[0] <= x <= s[SPLINE_TABLE_SIZE - 1]
    requires GetSlope(InitialGuess(s, Bracket(s, x), x), x1, x2) < NEWTON_MIN_SLOPE
    ensures var k := Bracket(s, x);
      k as real * SAMPLE_STEP_SIZE <= TForX(s, x1, x2, x) <= (k + 1) as real * SAMPLE_STEP_SIZE
    ensures 0.0 <= TForX(s, x1, x2, x) <= 1.0
  {
    InitialGuessInInterval(s, x);
    var k := Bracket(s, x);
    var lo := k as real * SAMPLE_STEP_SIZE;
    assert (k + 1) as real * SAMPLE_STEP_SIZE == lo + SAMPLE_STEP_SIZE;
    var guess := InitialGuess(s, k, x);
    if GetSlope(guess, x1, x2) == 0.0 {
      assert TForX(s, x1, x2, x) == guess;
    } else {
      assert TForX(s, x1, x2, x) == Bisect(x, lo, lo + SAMPLE_STEP_SIZE, x1, x2, 0);
    }
  }

  /** The easing function the factory returns, for a curve that passed the guard. */
  function EaseAt(c: Curve, x: real): (y: real)
    requires ValidX(c)
    ensures IsLinear(c) ==> y == x
    ensures x == 0.0 ==> y == 0.0
    ensures x == 1.0 ==> y == 1.0
  {
    if c.x1 == c.y1 && c.x2 == c.y2 then x
    else if x == 0.0 then 0.0
    else if x == 1.0 then 1.0
    else
      SampleTableIncreasing(c.x1, c.x2);
      CalcBezier(TForX(SampleTable(c.x1, c.x2), c.x1, c.x2, x), c.y1, c.y2)
  }

  /** The scan of getTForX over the sample array. */
  method ScanSamples(samples: array<real>, x: real) returns (currentSample: nat, intervalStart: real)
    requires samples.Length == SPLINE_TABLE_SIZE
    ensures currentSample == Bracket(samples[..], x)
    ensures intervalStart == currentSample as real * SAMPLE_STEP_SIZE
  {
    intervalStart := 0.0;
    var sample: nat := 1;
    var lastSample := SPLINE_TABLE_SIZE - 1;
    while sample != lastSample && samples[sample] <= x
      invariant 1 <= sample <= lastSample
      invariant ScanFrom(samples[..], x, sample) == ScanFrom(samples[..], x, 1)
      invariant intervalStart == (sample - 1) as real * SAMPLE_STEP_SIZE
      decreases lastSample - sample
    {
      intervalStart := intervalStart + SAMPLE_STEP_SIZE;
      sample := sample + 1;
    }
    currentSample := sample - 1;
  }

  method GetTForX(samples: array<real>, x1: real, x2: real, x: real) returns (t: real)
    requires Ascending(samples[..])
    ensures t == TForX(samples[..], x1, x2, x)
  {
    ghost var s := samples[..];
    var currentSample, intervalStart := ScanSamples(samples, x);
    var lo, hi := samples[currentSample], samples[currentSample + 1];
    assert lo == s[currentSample] && hi == s[currentSample + 1];
    var dist := (x - lo) / (hi - lo);
    var guessForT := intervalStart + dist * SAMPLE_STEP_SIZE;
    assert guessForT == InitialGuess(s, currentSample, x);
    t := RefineGuess(x, guessForT, intervalStart, x1, x2);
  }

  method RefineGuess(x: real, guess: real, intervalStart: real, x1: real, x2: real) returns (t: real)
    ensures t == Refine(x, guess, intervalStart, x1, x2)
  {
    var initialSlope := GetSlope(guess, x1, x2);
    if initialSlope >= NEWTON_MIN_SLOPE {
      t := NewtonRaphsonIterate(x, guess, x1, x2);
    } else if initialSlope == 0.0 {
      t := guess;
    } else {
      ghost var evaluations;
      t, evaluations := BinarySubdivide(x, intervalStart, intervalStart + SAMPLE_STEP_SIZE, x1, x2);
    }
  }

  /** The closure the factory returns: its curve and its precomputed sample table. */
  class Evaluator {
    const curve: Curve
    const samples: array<real>

    ghost predicate Valid()
      reads samples
    {
      ValidX(curve) && samples.Length == SPLINE_TABLE_SIZE &&
      (!IsLinear(curve) ==> samples[..] == SampleTable(curve.x1, curve.x2))
    }

    /** Precomputes the table, which a linear curve never consults and so leaves zeroed. */
    constructor (c: Curve)
      requires ValidX(c)
      ensures Valid() && curve == c && fresh(samples)
    {
      var table := new real[SPLINE_TABLE_SIZE](_ => 0.0);
      if !IsLinear(c) {
        for i := 0 to SPLINE_TABLE_SIZE
          invariant forall j :: 0 <= j < i ==> table[j] == CalcBezier(j as real * SAMPLE_STEP_SIZE, c.x1, c.x2)
        {
          table[i] := CalcBezier(i as real * SAMPLE_STEP_SIZE, c.x1, c.x2);
        }
        assert table[..] == SampleTable(c.x1, c.x2);
      }
      curve := c;
      samples := table;
    }

    method Ease(x: real) returns (y: real)
      requires Valid()
      ensures y == EaseAt(curve, x)
    {
      if curve.x1 == curve.y1 && curve.x2 == curve.y2 {
        return x;
      }
      if x == 0.0 {
        return 0.0;
      }
      if x == 1.0 {
        return 1.0;
      }
      SampleTableIncreasing(curve.x1, curve.x2);
      var t := GetTForX(samples, curve.x1, curve.x2, x);
      y := CalcBezier(t, curve.y1, curve.y2);
    }
  }

  /** The factory: throws unless both x control values lie in [0, 1]. */
  method Bezier(x1: real, y1: real, x2: real, y2: real) returns (r: Result<Evaluator>)
    ensures r.Err? <==> !(0.0 <= x1 <= 1.0 && 0.0 <= x2 <= 1.0)
    ensures r.Err? ==> r.error == InvalidBezierParameters
    ensures r.Ok? ==> fresh(r.value) && r.value.Valid() && r.value.curve == Curve(x1, y1, x2, y2)
  {
    if !(0.0 <= x1 && x1 <= 1.0 && 0.0 <= x2 && x2 <= 1.0) {
      return Err(InvalidBezierParameters);
    }
    var e := new Evaluator(Curve(x1, y1, x2, y2));
    r := Ok(e);
  }
}
