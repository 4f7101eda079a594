/** When local storage will be full: the least-squares line through the samples of the trailing
    window, over exact numbers. */
module StorageForecast {

  type Vector = seq<real>

  // ---- sums ----------------------------------------------------------------------------

  function Sum(v: Vector): real { if v == [] then 0.0 else v[0] + Sum(v[1..]) }

  function Mean(v: Vector): real
    requires v != []
  {
    Sum(v) / |v| as real
  }

  /** The values less a constant. */
  function Less(v: Vector, c: real): (u: Vector)
    ensures |u| == |v| && forall i :: 0 <= i < |v| ==> u[i] == v[i] - c
  {
    if v == [] then [] else [v[0] - c] + Less(v[1..], c)
  }

  function Deviations(v: Vector): (u: Vector)
    requires v != []
    ensures |u| == |v|
  {
    Less(v, Mean(v))
  }

  /** The sum of the products, pair by pair. */
  function Dot(u: Vector, v: Vector): real
    requires |u| == |v|
  {
    if u == [] then 0.0 else u[0] * v[0] + Dot(u[1..], v[1..])
  }

  function Denominator(x: Vector): real
    requires x != []
  {
    Dot(Deviations(x), Deviations(x))
  }

  function Slope(x: Vector, y: Vector): real
    requires x != [] && |x| == |y| && Denominator(x) != 0.0
  {
    Dot(Deviations(x), Deviations(y)) / Denominator(x)
  }

  // ---- the forecast --------------------------------------------------------------------

  datatype Sample = Sample(at: real, used: real, free: real)

  datatype Forecast =
    | NoSamples
    | AlreadyFull(at: real)
    | TooFewSamples
    | OneInstant
    | NotGrowing(slope: real)
    | BeyondCalendar(slope: real)
    | FullAt(slope: real, days: real, at: real)

  const DAY: real := 86400.0

  function Days(samples: seq<Sample>, origin: real): (x: Vector)
    ensures |x| == |samples| && forall i :: 0 <= i < |samples| ==> x[i] == (samples[i].at - origin) / DAY
  {
    seq(|samples|, i requires 0 <= i < |samples| => (samples[i].at - origin) / DAY)
  }

  function Used(samples: seq<Sample>): (y: Vector)
    ensures |y| == |samples| && forall i :: 0 <= i < |samples| ==> y[i] == samples[i].used
  {
    seq(|samples|, i requires 0 <= i < |samples| => samples[i].used)
  }

  /** `last` is the last moment a date can express. */
  function LinearForecast(samples: seq<Sample>, last: real): Forecast {
    if samples == [] then NoSamples
    else
      var latest := samples[|samples| - 1];
      if latest.free <= 0.0 then AlreadyFull(latest.at)
      else if |samples| < 2 then TooFewSamples
      else
        var x, y := Days(samples, samples[0].at), Used(samples);
        if Denominator(x) == 0.0 then OneInstant
        else if Slope(x, y) <= 0.0 then NotGrowing(Slope(x, y))
        else
          var days := latest.free / Slope(x, y);
          if latest.at + days * DAY > last then BeyondCalendar(Slope(x, y))
          else FullAt(Slope(x, y), days, latest.at + days * DAY)
  }

  // ---- vectors -------------------------------------------------------------------------

  /** u + k v. */
  function Plus(u: Vector, k: real, v: Vector): (w: Vector)
    requires |u| == |v|
    ensures |w| == |u| && forall i :: 0 <= i < |u| ==> w[i] == u[i] + k * v[i]
  {
    if u == [] then [] else [u[0] + k * v[0]] + Plus(u[1..], k, v[1..])
  }

  function Constant(c: real, n: nat): (v: Vector)
    ensures |v| == n && forall i :: 0 <= i < n ==> v[i] == c
  {
    if n == 0 then [] else [c] + Constant(c, n - 1)
  }

  lemma {:induction false} DotIsLinear(u: Vector, k: real, v: Vector, w: Vector)
    requires |u| == |v| == |w|
    ensures Dot(Plus(u, k, v), w) == Dot(u, w) + k * Dot(v, w)
  {
    if u != [] {
      DotIsLinear(u[1..], k, v[1..], w[1..]);
      LinearTerm(u[0], k, v[0], w[0], Dot(v[1..], w[1..]));
      assert Plus(u, k, v)[1..] == Plus(u[1..], k, v[1..]);
    }
  }

  lemma LinearTerm(u: real, k: real, v: real, w: real, rest: real)
    ensures (u + k * v) * w + k * rest == u * w + k * (v * w + rest)
  {
    assert (u + k * v) * w == u * w + k * (v * w);
  }

  lemma {:induction false} DotCommutes(u: Vector, v: Vector)
    requires |u| == |v|
    ensures Dot(u, v) == Dot(v, u)
  {
    if u != [] { DotCommutes(u[1..], v[1..]); }
  }

  lemma {:induction false} DotConstant(c: real, v: Vector)
    ensures Dot(Constant(c, |v|), v) == c * Sum(v)
  {
    if v != [] {
      DotConstant(c, v[1..]);
      assert Constant(c, |v|)[1..] == Constant(c, |v| - 1);
    }
  }

  lemma {:induction false} SumIsLinear(u: Vector, k: real, v: Vector)
    requires |u| == |v|
    ensures Sum(Plus(u, k, v)) == Sum(u) + k * Sum(v)
  {
    if u != [] {
      SumIsLinear(u[1..], k, v[1..]);
      assert Plus(u, k, v)[1..] == Plus(u[1..], k, v[1..]);
    }
  }

  ghost predicate Vanishes(v: Vector) { forall i :: 0 <= i < |v| ==> v[i] == 0.0 }

  /** A vector has no length exactly when it vanishes. */
  lemma {:induction false} DotSelf(v: Vector)
    ensures Dot(v, v) >= 0.0
    ensures Dot(v, v) == 0.0 <==> Vanishes(v)
  {
    if v != [] {
      DotSelf(v[1..]);
      var head, rest := v[0] * v[0], Dot(v[1..], v[1..]);
      SquareIsZeroIff(v[0], head);
      assert Dot(v, v) == head + rest;
      if Dot(v, v) == 0.0 {
        forall i | 0 <= i < |v| ensures v[i] == 0.0 { assert i == 0 || v[i] == v[1..][i - 1]; }
      }
      if Vanishes(v) {
        forall i | 0 <= i < |v[1..]| ensures v[1..][i] == 0.0 { assert v[1..][i] == v[i + 1]; }
      }
    }
  }

  lemma SquareIsZeroIff(v: real, square: real)
    requires square == v * v
    ensures square >= 0.0 && (square == 0.0 <==> v == 0.0)
  {
    if v > 0.0 {
      ProductOfPositives(v, v, square);
    } else if v < 0.0 {
      assert square == (-v) * (-v);
      ProductOfPositives(-v, -v, square);
    } else {
      assert square == v * 0.0;
    }
  }

  lemma ProductOfPositives(a: real, b: real, product: real)
    requires a > 0.0 && b > 0.0 && product == a * b
    ensures product > 0.0
  {
  }

  lemma {:induction false} SumLess(v: Vector, c: real)
    ensures Sum(Less(v, c)) == Sum(v) - |v| as real * c
  {
    if v != [] {
      SumLess(v[1..], c);
      assert |v| as real == |v[1..]| as real + 1.0;
      OneFurther(|v[1..]| as real, c);
    }
  }

  lemma OneFurther(n: real, c: real)
    ensures (n + 1.0) * c == n * c + c
  {
  }

  lemma DeviationsCancel(v: Vector)
    requires v != []
    ensures Sum(Deviations(v)) == 0.0
  {
    SumLess(v, Mean(v));
  }

  // ---- what the slope means ------------------------------------------------------------

  /** How far each sample lies above the line a + b x. */
  function Residual(x: Vector, y: Vector, a: real, b: real): (r: Vector)
    requires |x| == |y|
    ensures |r| == |x| && forall i :: 0 <= i < |x| ==> r[i] == y[i] - (a + b * x[i])
  {
    if x == [] then [] else [y[0] - (a + b * x[0])] + Residual(x[1..], y[1..], a, b)
  }

  function Misfit(x: Vector, y: Vector, a: real, b: real): real
    requires |x| == |y|
  {
    Dot(Residual(x, y, a, b), Residual(x, y, a, b))
  }

  function Intercept(x: Vector, y: Vector): real
    requires x != [] && |x| == |y| && Denominator(x) != 0.0
  {
    Mean(y) - Slope(x, y) * Mean(x)
  }

  /** What the fitted line leaves over. */
  function Leftover(x: Vector, y: Vector): (r: Vector)
    requires x != [] && |x| == |y| && Denominator(x) != 0.0
    ensures |r| == |x|
  {
    Plus(Deviations(y), -Slope(x, y), Deviations(x))
  }

  /** The difference between the fitted line and another one, at every sample. */
  function Gap(x: Vector, y: Vector, a: real, b: real): (w: Vector)
    requires x != [] && |x| == |y| && Denominator(x) != 0.0
    ensures |w| == |x|
  {
    Plus(Constant(Mean(y) - (a + b * Mean(x)), |x|), Slope(x, y) - b, Deviations(x))
  }

  lemma TimesQuotient(product: real, d: real)
    requires d != 0.0
    ensures product == product / d * d
  {
  }

  /** What is left over does not follow the samples' times. */
  lemma LeftoverIgnoresTime(x: Vector, y: Vector)
    requires x != [] && |x| == |y| && Denominator(x) != 0.0
    ensures Dot(Deviations(x), Leftover(x, y)) == 0.0
  {
    var dx, dy := Deviations(x), Deviations(y);
    DotIsLinear(dy, -Slope(x, y), dx, dx);
    DotCommutes(dy, dx);
    DotCommutes(dx, Leftover(x, y));
    TimesQuotient(Dot(dx, dy), Denominator(x));
  }

  lemma LeftoverCancels(x: Vector, y: Vector)
    requires x != [] && |x| == |y| && Denominator(x) != 0.0
    ensures Sum(Leftover(x, y)) == 0.0
  {
    SumIsLinear(Deviations(y), -Slope(x, y), Deviations(x));
    DeviationsCancel(x);
    DeviationsCancel(y);
  }

  /** What is left over has nothing in common with the samples' times, nor with a constant. */
  lemma LeftoverIsOrthogonal(x: Vector, y: Vector, a: real, b: real)
    requires x != [] && |x| == |y| && Denominator(x) != 0.0
    ensures Dot(Gap(x, y, a, b), Leftover(x, y)) == 0.0
  {
    LeftoverIgnoresTime(x, y);
    LeftoverCancels(x, y);
    LineIsOrthogonal(Mean(y) - (a + b * Mean(x)), Slope(x, y) - b, Deviations(x), Leftover(x, y));
  }

  lemma {:induction false} LineIsOrthogonal(c: real, k: real, d: Vector, r: Vector)
    requires |d| == |r| && Dot(d, r) == 0.0 && Sum(r) == 0.0
    ensures Dot(Plus(Constant(c, |d|), k, d), r) == 0.0
  {
    DotConstant(c, r);
    DotIsLinear(Constant(c, |d|), k, d, r);
  }

  lemma {:induction false} SumOfTwo(r: Vector, w: Vector)
    requires |r| == |w| && Dot(w, r) == 0.0
    ensures Dot(Plus(r, 1.0, w), Plus(r, 1.0, w)) == Dot(r, r) + Dot(w, w)
  {
    var t := Plus(r, 1.0, w);
    DotIsLinear(r, 1.0, w, t);
    DotCommutes(r, t);
    DotCommutes(w, t);
    DotIsLinear(r, 1.0, w, r);
    DotIsLinear(r, 1.0, w, w);
    DotCommutes(r, w);
  }

  lemma OneResidual(x: real, y: real, mx: real, my: real, s: real, a: real, b: real)
    ensures y - (a + b * x) == (y - my + -s * (x - mx)) + 1.0 * (my - (a + b * mx) + (s - b) * (x - mx))
  {
  }

  lemma LeftoverAt(x: Vector, y: Vector, i: nat)
    requires x != [] && |x| == |y| && Denominator(x) != 0.0 && i < |x|
    ensures Leftover(x, y)[i] == y[i] - Mean(y) + -Slope(x, y) * (x[i] - Mean(x))
  {
    assert Deviations(x)[i] == x[i] - Mean(x) && Deviations(y)[i] == y[i] - Mean(y);
  }

  lemma GapAt(x: Vector, y: Vector, a: real, b: real, i: nat)
    requires x != [] && |x| == |y| && Denominator(x) != 0.0 && i < |x|
    ensures Gap(x, y, a, b)[i] == Mean(y) - (a + b * Mean(x)) + (Slope(x, y) - b) * (x[i] - Mean(x))
  {
    assert Deviations(x)[i] == x[i] - Mean(x);
  }

  lemma {:induction false} ResidualAt(x: Vector, y: Vector, a: real, b: real, i: nat)
    requires x != [] && |x| == |y| && Denominator(x) != 0.0 && i < |x|
    ensures Residual(x, y, a, b)[i] == Leftover(x, y)[i] + 1.0 * Gap(x, y, a, b)[i]
  {
    LeftoverAt(x, y, i);
    GapAt(x, y, a, b, i);
    OneResidual(x[i], y[i], Mean(x), Mean(y), Slope(x, y), a, b);
  }

  /** The squared residuals of any line are those of the fitted line, plus the squared distance
      between the two lines at the samples. */
  lemma Pythagoras(x: Vector, y: Vector, a: real, b: real)
    requires x != [] && |x| == |y| && Denominator(x) != 0.0
    ensures Misfit(x, y, a, b) == Dot(Leftover(x, y), Leftover(x, y)) + Dot(Gap(x, y, a, b), Gap(x, y, a, b))
  {
    LeftoverIsOrthogonal(x, y, a, b);
    SumOfTwo(Leftover(x, y), Gap(x, y, a, b));
    ResidualIsSum(x, y, a, b);
  }

  lemma {:induction false} ResidualIsSum(x: Vector, y: Vector, a: real, b: real)
    requires x != [] && |x| == |y| && Denominator(x) != 0.0
    ensures Residual(x, y, a, b) == Plus(Leftover(x, y), 1.0, Gap(x, y, a, b))
  {
    var res, sum := Residual(x, y, a, b), Plus(Leftover(x, y), 1.0, Gap(x, y, a, b));
    forall i | 0 <= i < |x| ensures res[i] == sum[i] { ResidualAt(x, y, a, b, i); }
    assert |res| == |sum|;
  }

  /** A constant plus a multiple of a vector without mean vanishes only if both parts do. */
  lemma {:induction false} BothPartsVanish(c: real, k: real, d: Vector)
    requires d != [] && Sum(d) == 0.0 && !Vanishes(d)
    ensures Vanishes(Plus(Constant(c, |d|), k, d)) <==> c == 0.0 && k == 0.0
  {
    var w := Plus(Constant(c, |d|), k, d);
    if Vanishes(w) {
      SumOfZeros(w);
      SumIsLinear(Constant(c, |d|), k, d);
      SumConstant(c, |d|);
      NoZeroDivisors(|d| as real, c);
      var j :| 0 <= j < |d| && d[j] != 0.0;
      assert w[j] == c + k * d[j];
      NoZeroDivisors(k, d[j]);
    }
  }

  lemma NoZeroDivisors(a: real, b: real)
    requires a * b == 0.0
    ensures a == 0.0 || b == 0.0
  {
    if a != 0.0 { assert b == (a * b) / a; }
  }

  /** Two lines agree at all samples only if they are the same line, as long as the samples are
      not all taken at one instant. */
  lemma GapIsZeroIff(x: Vector, y: Vector, a: real, b: real)
    requires x != [] && |x| == |y| && Denominator(x) != 0.0
    ensures Vanishes(Gap(x, y, a, b)) <==> b == Slope(x, y) && a == Intercept(x, y)
  {
    GapVanishes(x, y, a, b);
    SameLine(Mean(x), Mean(y), Slope(x, y), a, b);
  }

  lemma GapVanishes(x: Vector, y: Vector, a: real, b: real)
    requires x != [] && |x| == |y| && Denominator(x) != 0.0
    ensures Vanishes(Gap(x, y, a, b)) <==> Mean(y) - (a + b * Mean(x)) == 0.0 && Slope(x, y) - b == 0.0
  {
    var d := Deviations(x);
    DeviationsCancel(x);
    DotSelf(d);
    BothPartsVanish(Mean(y) - (a + b * Mean(x)), Slope(x, y) - b, d);
  }

  lemma SameLine(mx: real, my: real, s: real, a: real, b: real)
    ensures my - (a + b * mx) == 0.0 && s - b == 0.0 <==> b == s && a == my - s * mx
  {
  }

  lemma {:induction false} SumOfZeros(v: Vector)
    requires forall i :: 0 <= i < |v| ==> v[i] == 0.0
    ensures Sum(v) == 0.0
  {
    if v != [] { SumOfZeros(v[1..]); }
  }

  lemma {:induction false} SumConstant(c: real, n: nat)
    ensures Sum(Constant(c, n)) == n as real * c
  {
    if n > 0 {
      SumConstant(c, n - 1);
      assert Constant(c, n)[1..] == Constant(c, n - 1);
      assert n as real * c == (n - 1) as real * c + c;
    }
  }

  /** No line has smaller squared residuals, and only the fitted one has as small. */
  lemma LeastSquares(x: Vector, y: Vector, a: real, b: real)
    requires x != [] && |x| == |y| && Denominator(x) != 0.0
    ensures var best := Misfit(x, y, Intercept(x, y), Slope(x, y));
      && Misfit(x, y, a, b) >= best
      && (Misfit(x, y, a, b) == best <==> b == Slope(x, y) && a == Intercept(x, y))
  {
    Pythagoras(x, y, a, b);
    Pythagoras(x, y, Intercept(x, y), Slope(x, y));
    GapIsZeroIff(x, y, a, b);
    GapIsZeroIff(x, y, Intercept(x, y), Slope(x, y));
    DotSelf(Gap(x, y, a, b));
    DotSelf(Gap(x, y, Intercept(x, y), Slope(x, y)));
  }

  /** Growth that really is linear is recovered exactly. */
  lemma LinearDataIsRecovered(x: Vector, y: Vector, a: real, b: real)
    requires x != [] && |x| == |y| && Denominator(x) != 0.0
    requires forall i :: 0 <= i < |x| ==> y[i] == a + b * x[i]
    ensures Slope(x, y) == b && Intercept(x, y) == a
  {
    DotSelf(Residual(x, y, a, b));
    DotSelf(Residual(x, y, Intercept(x, y), Slope(x, y)));
    LeastSquares(x, y, a, b);
  }

  // ---- the time axis -------------------------------------------------------------------

  /** Moving every value by the same amount leaves the deviations as they are. */
  lemma {:induction false} ShiftedDeviations(x: Vector, k: real)
    requires x != []
    ensures Less(x, k) != [] && Deviations(Less(x, k)) == Deviations(x)
  {
    SumLess(x, k);
    MeanShifts(|x| as real, Sum(x), k);
  }

  lemma MeanShifts(n: real, sum: real, k: real)
    requires n != 0.0
    ensures (sum - n * k) / n == sum / n - k
  {
  }

  /** Where time is counted from makes no difference. */
  lemma OriginDoesNotMatter(samples: seq<Sample>, p: real, q: real)
    requires samples != []
    ensures Denominator(Days(samples, q)) == Denominator(Days(samples, p))
    ensures Denominator(Days(samples, p)) != 0.0 ==>
      Slope(Days(samples, q), Used(samples)) == Slope(Days(samples, p), Used(samples))
  {
    var k := (q - p) / DAY;
    assert Days(samples, q) == Less(Days(samples, p), k);
    ShiftedDeviations(Days(samples, p), k);
  }

  /** The fit is undefined exactly when all samples were taken at the same instant. */
  lemma DenominatorIsZeroIff(samples: seq<Sample>, origin: real)
    requires samples != []
    ensures Denominator(Days(samples, origin)) == 0.0
            <==> forall i :: 0 <= i < |samples| ==> samples[i].at == samples[0].at
  {
    var x := Days(samples, origin);
    DotSelf(Deviations(x));
    NoDeviationIff(x);
    assert forall i :: 0 <= i < |samples| ==> (x[i] == x[0] <==> samples[i].at == samples[0].at);
  }

  lemma MeanOfEqual(x: Vector)
    requires x != [] && forall i :: 0 <= i < |x| ==> x[i] == x[0]
    ensures Mean(x) == x[0]
  {
    assert x == Constant(x[0], |x|);
    SumConstant(x[0], |x|);
    DivideBack(|x| as real, x[0]);
  }

  lemma NoDeviationIff(x: Vector)
    requires x != []
    ensures Vanishes(Deviations(x)) <==> forall i :: 0 <= i < |x| ==> x[i] == x[0]
  {
    var dx, m := Deviations(x), Mean(x);
    assert dx == Less(x, m);
    assert Vanishes(dx) <==> forall i :: 0 <= i < |x| ==> x[i] == m by { VanishingLess(x, m); }
    if forall i :: 0 <= i < |x| ==> x[i] == x[0] { MeanOfEqual(x); }
  }

  lemma {:induction false} VanishingLess(x: Vector, m: real)
    ensures Vanishes(Less(x, m)) <==> forall i :: 0 <= i < |x| ==> x[i] == m
  {
    var d := Less(x, m);
    forall i | 0 <= i < |x| ensures d[i] == 0.0 <==> x[i] == m {}
  }

  lemma DivideBack(n: real, v: real)
    requires n != 0.0
    ensures (n * v) / n == v
  {
  }

  /** A date is given exactly when there is room left, the samples differ in time, the fit grows
      and the calendar reaches that far; and growing at the fitted rate for that many days uses up
      exactly the free space. */
  lemma FullAtIff(samples: seq<Sample>, last: real)
    requires |samples| >= 2
    ensures var f := LinearForecast(samples, last); var latest := samples[|samples| - 1];
      var x, y := Days(samples, samples[0].at), Used(samples);
      && (f.FullAt? || f.BeyondCalendar? <==> latest.free > 0.0 && Denominator(x) != 0.0 && Slope(x, y) > 0.0)
      && (f.FullAt? <==> latest.free > 0.0 && Denominator(x) != 0.0 && Slope(x, y) > 0.0
                         && latest.at + latest.free / Slope(x, y) * DAY <= last)
      && (f.FullAt? ==> f.slope == Slope(x, y) && f.days * f.slope == latest.free && f.days > 0.0
                        && f.at == latest.at + f.days * DAY)
      && (f.OneInstant? <==> latest.free > 0.0 && forall i :: 0 <= i < |samples| ==> samples[i].at == samples[0].at)
  {
    var x := Days(samples, samples[0].at);
    DenominatorIsZeroIff(samples, samples[0].at);
    if Denominator(x) != 0.0 && Slope(x, Used(samples)) > 0.0 {
      Quotient(samples[|samples| - 1].free, Slope(x, Used(samples)));
    }
  }

  /** When no date ahead can be given, the reason says why: no samples at all, no room left, a single
      sample, samples of one instant, or a line that does not rise. */
  lemma ReasonIff(samples: seq<Sample>, last: real)
    ensures var f := LinearForecast(samples, last);
      && (f.NoSamples? <==> |samples| == 0)
      && (f.AlreadyFull? <==> |samples| > 0 && samples[|samples| - 1].free <= 0.0)
      && (f.AlreadyFull? ==> f.at == samples[|samples| - 1].at)
      && (f.TooFewSamples? <==> |samples| == 1 && samples[0].free > 0.0)
      && (f.NotGrowing? <==>
           |samples| > 1 && samples[|samples| - 1].free > 0.0 && Denominator(Days(samples, samples[0].at)) != 0.0
           && Slope(Days(samples, samples[0].at), Used(samples)) <= 0.0)
      && (f.NotGrowing? || f.BeyondCalendar? ==> f.slope == Slope(Days(samples, samples[0].at), Used(samples)))
  {
  }

  lemma Quotient(free: real, slope: real)
    requires slope > 0.0
    ensures free / slope * slope == free && (free > 0.0 ==> free / slope > 0.0)
  {
  }
}
