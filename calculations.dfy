/** The two numerical procedures of the permeation analysis: the time-lag
    regression, which fits a straight line to the steady-state part of the
    cumulative-flux curve and derives the transport coefficients from it, and
    the explicit finite-difference solver of the one-dimensional diffusion
    equation with a fixed upstream concentration and a zero downstream one. */
module Calculations {
  import opened Common

  // ---------------------------------------------------------------------
  // Ordinary least squares: the closed form of a degree-1 `np.polyfit`

  /** A column minus its own mean (the empty column stays empty). */
  function Centred(s: seq<real>): (c: seq<real>)
    ensures |c| == |s|
    ensures |s| > 0 ==> c == Dev(s, Mean(s))
    ensures Sum(c) == 0.0
  {
    if |s| == 0 then []
    else
      SumDev(s, Mean(s));
      Dev(s, Mean(s))
  }

  /** Σ(t − t̄)², the spread of the times. */
  function Spread(t: seq<real>): (s: real)
    ensures s >= 0.0
    ensures |t| == 0 ==> s == 0.0
  {
    var c := Centred(t);
    if |c| > 0 then DotSelfAtLeastTerm(c, 0); Dot(c, c) else Dot(c, c)
  }

  /** Σ(t − t̄)(y − ȳ). */
  function Covariance(t: seq<real>, y: seq<real>): real
    requires |t| == |y|
  {
    Dot(Centred(t), Centred(y))
  }

  function Slope(t: seq<real>, y: seq<real>): real
    requires |t| == |y| && Spread(t) != 0.0
  {
    Covariance(t, y) / Spread(t)
  }

  function Intercept(t: seq<real>, y: seq<real>): real
    requires |t| == |y| && Spread(t) != 0.0
  {
    Mean(y) - Slope(t, y) * Mean(t)
  }

  /** What the line y = m·t + c misses at each row. */
  function Residuals(t: seq<real>, y: seq<real>, m: real, c: real): (r: seq<real>)
    requires |t| == |y|
    ensures |r| == |t| && forall i :: 0 <= i < |t| ==> r[i] == y[i] - (m * t[i] + c)
  {
    seq(|t|, i requires 0 <= i < |t| => y[i] - (m * t[i] + c))
  }

  /** b − e, element-wise. */
  function Sub(b: seq<real>, e: seq<real>): (r: seq<real>)
    requires |b| == |e|
    ensures |r| == |b| && forall i :: 0 <= i < |b| ==> r[i] == b[i] - e[i]
  {
    seq(|b|, i requires 0 <= i < |b| => b[i] - e[i])
  }

  lemma {:induction false} SumSub(b: seq<real>, e: seq<real>)
    requires |b| == |e|
    ensures Sum(Sub(b, e)) == Sum(b) - Sum(e)
    decreases |b|
  {
    if |b| > 0 {
      var n := |b| - 1;
      assert Sub(b, e)[..n] == Sub(b[..n], e[..n]);
      SumSub(b[..n], e[..n]);
    }
  }

  lemma {:induction false} SumScale(e: seq<real>, m: real)
    ensures Sum(Scale(e, m)) == m * Sum(e)
    decreases |e|
  {
    if |e| > 0 {
      var n := |e| - 1;
      assert forall i :: 0 <= i < n ==> Scale(e, m)[..n][i] == m * e[..n][i];
      assert Scale(e, m)[..n] == Scale(e[..n], m);
      SumScale(e[..n], m);
      var se, x := Sum(e[..n]), e[n];
      assert m * (se + x) == m * se + m * x;
    }
  }

  lemma {:induction false} DotSub(a: seq<real>, b: seq<real>, e: seq<real>)
    requires |a| == |b| == |e|
    ensures Dot(a, Sub(b, e)) == Dot(a, b) - Dot(a, e)
    decreases |a|
  {
    if |a| > 0 {
      var n := |a| - 1;
      assert Sub(b, e)[..n] == Sub(b[..n], e[..n]);
      DotSub(a[..n], b[..n], e[..n]);
      assert Sub(b, e)[n] == b[n] - e[n];
      DistributeRight(a[n], b[n], e[n]);
    }
  }

  lemma {:induction false} DotShift(a: seq<real>, b: seq<real>, c: real)
    requires |a| == |b|
    ensures Dot(Dev(a, c), b) == Dot(a, b) - c * Sum(b)
  {
    DotShiftOf(a, b, Dev(a, c), c);
  }

  /** DotShift for any column d that is a minus c row by row. */
  lemma {:induction false} DotShiftOf(a: seq<real>, b: seq<real>, d: seq<real>, c: real)
    requires |a| == |b| == |d| && forall i :: 0 <= i < |a| ==> d[i] == a[i] - c
    ensures Dot(d, b) == Dot(a, b) - c * Sum(b)
    decreases |a|
  {
    if |a| > 0 {
      var n := |a| - 1;
      DotShiftOf(a[..n], b[..n], d[..n], c);
      ShiftStep(Dot(a[..n], b[..n]), Dot(d[..n], b[..n]), Sum(b[..n]), a[n], d[n], b[n], c);
    }
  }

  /** The times have a positive spread exactly when there are at least two of
      them (they are distinct, being strictly increasing): the fit is
      well-posed exactly then. */
  lemma SpreadPositive(t: seq<real>)
    requires StrictlyIncreasing(t)
    ensures Spread(t) > 0.0 <==> |t| >= 2
  {
    var c := Centred(t);
    if |t| == 1 {
      assert Sum(t) == Sum(t[..0]) + t[0];
      assert c[0] == 0.0;
      assert Dot(c, c) == Dot(c[..0], c[..0]) + c[0] * c[0];
    } else if |t| >= 2 {
      var n := |t| - 1;
      assert c[0] != c[n];
      var k := if c[0] != 0.0 then 0 else n;
      DotSelfAtLeastTerm(c, k);
      SquarePositive(c[k], c[k] * c[k]);
    }
  }

  /** The mean of an affine image of a column is that image of its mean. */
  lemma MeanAffine(t: seq<real>, y: seq<real>, m: real, c: real)
    requires |t| == |y| > 0
    requires forall i :: 0 <= i < |t| ==> y[i] == m * t[i] + c
    ensures Mean(y) == m * Mean(t) + c
  {
    SumAffine(t, y, m, c);
    MeanOfAffine(Sum(y), Sum(t), |t| as real, m, c);
  }

  /** Centring an affine image of a column scales the centred column. */
  lemma CentredAffine(t: seq<real>, y: seq<real>, m: real, c: real)
    requires |t| == |y| > 0
    requires forall i :: 0 <= i < |t| ==> y[i] == m * t[i] + c
    ensures Centred(y) == Scale(Centred(t), m)
  {
    MeanAffine(t, y, m, c);
    forall i | 0 <= i < |t| ensures Centred(y)[i] == Scale(Centred(t), m)[i] {
      AffineShift(t[i], Mean(t), m, c);
    }
  }

  /** A column that lies exactly on y = m·t + c is fitted by that line. */
  lemma ExactLine(t: seq<real>, y: seq<real>, m: real, c: real)
    requires |t| == |y| && Spread(t) != 0.0
    requires forall i :: 0 <= i < |t| ==> y[i] == m * t[i] + c
    ensures Slope(t, y) == m && Intercept(t, y) == c
  {
    ExactSlope(t, y, m, c);
    MeanAffine(t, y, m, c);
  }

  lemma ExactSlope(t: seq<real>, y: seq<real>, m: real, c: real)
    requires |t| == |y| && Spread(t) != 0.0
    requires forall i :: 0 <= i < |t| ==> y[i] == m * t[i] + c
    ensures Slope(t, y) == m
  {
    CentredAffine(t, y, m, c);
    DotScale(Centred(t), Centred(t), m);
    QuotientOfMultiple(m, Spread(t), m * Spread(t));
  }

  /** The residuals of the fitted line, written in centred coordinates. */
  lemma ResidualsCentred(t: seq<real>, y: seq<real>)
    requires |t| == |y| && Spread(t) != 0.0
    ensures Residuals(t, y, Slope(t, y), Intercept(t, y)) == Sub(Centred(y), Scale(Centred(t), Slope(t, y)))
  {
    assert |t| > 0;
    var m := Slope(t, y);
    var mt, my := Mean(t), Mean(y);
    var ct, cy := Centred(t), Centred(y);
    var r := Residuals(t, y, m, Intercept(t, y));
    var sct := Scale(ct, m);
    forall i | 0 <= i < |t| ensures r[i] == Sub(cy, sct)[i] {
      assert cy[i] == y[i] - my && ct[i] == t[i] - mt && sct[i] == m * ct[i];
      ResidualSplit(t[i], y[i], mt, my, m);
    }
  }

  /** The normal equations of least squares: the residuals of the fitted line
      sum to zero and are orthogonal to the times, which characterises the
      line minimising the sum of squared residuals. */
  lemma NormalEquations(t: seq<real>, y: seq<real>)
    requires |t| == |y| && Spread(t) != 0.0
    ensures Sum(Residuals(t, y, Slope(t, y), Intercept(t, y))) == 0.0
    ensures Dot(t, Residuals(t, y, Slope(t, y), Intercept(t, y))) == 0.0
  {
    ResidualsCentred(t, y);
    CentredResidualsFit(t, y);
    OrthogonalToCentred(t, Sub(Centred(y), Scale(Centred(t), Slope(t, y))));
  }

  lemma CentredResidualsFit(t: seq<real>, y: seq<real>)
    requires |t| == |y| && Spread(t) != 0.0
    ensures Sum(Sub(Centred(y), Scale(Centred(t), Slope(t, y)))) == 0.0
    ensures Dot(Centred(t), Sub(Centred(y), Scale(Centred(t), Slope(t, y)))) == 0.0
  {
    SlopeNormal(t, y);
    CentredFit(Centred(t), Centred(y), Slope(t, y));
  }

  /** The slope solves the one-variable normal equation m·Sxx = Sxy. */
  lemma SlopeNormal(t: seq<real>, y: seq<real>)
    requires |t| == |y| && Spread(t) != 0.0
    ensures Slope(t, y) * Dot(Centred(t), Centred(t)) == Dot(Centred(t), Centred(y))
  {
    QuotientTimesDivisor(Covariance(t, y), Spread(t), Slope(t, y));
  }

  /** In centred coordinates, the residuals of the slope Sxy/Sxx sum to zero
      and are orthogonal to the centred times. */
  lemma CentredFit(ct: seq<real>, cy: seq<real>, m: real)
    requires |ct| == |cy| && Sum(ct) == 0.0 && Sum(cy) == 0.0
    requires m * Dot(ct, ct) == Dot(ct, cy)
    ensures Sum(Sub(cy, Scale(ct, m))) == 0.0
    ensures Dot(ct, Sub(cy, Scale(ct, m))) == 0.0
  {
    SumResidual(ct, cy, m);
    DotResidual(ct, cy, m);
  }

  /** Σ(b − m·a) = Σb when Σa = 0. */
  lemma SumResidual(a: seq<real>, b: seq<real>, m: real)
    requires |a| == |b| && Sum(a) == 0.0
    ensures Sum(Sub(b, Scale(a, m))) == Sum(b)
  {
    SumSubScale(a, b, m);
    ZeroFactor(m, Sum(a), m * Sum(a));
  }

  /** Σ(b − m·a) = Σb − m·Σa. */
  lemma SumSubScale(a: seq<real>, b: seq<real>, m: real)
    requires |a| == |b|
    ensures Sum(Sub(b, Scale(a, m))) == Sum(b) - m * Sum(a)
  {
    SumSub(b, Scale(a, m));
    SumScale(a, m);
  }

  /** a·(b − m·a) = a·b − m·(a·a). */
  lemma DotResidual(a: seq<real>, b: seq<real>, m: real)
    requires |a| == |b|
    ensures Dot(a, Sub(b, Scale(a, m))) == Dot(a, b) - m * Dot(a, a)
  {
    DotSub(a, b, Scale(a, m));
    DotScale(a, a, m);
  }

  /** Orthogonality to the centred times and a zero sum give orthogonality to
      the times themselves. */
  lemma OrthogonalToCentred(t: seq<real>, r: seq<real>)
    requires |t| == |r| > 0 && Sum(r) == 0.0 && Dot(Centred(t), r) == 0.0
    ensures Dot(t, r) == 0.0
  {
    DotShiftBalanced(t, r, Mean(t));
  }

  /** Shifting one factor leaves a dot product with a zero-sum column unchanged. */
  lemma DotShiftBalanced(a: seq<real>, b: seq<real>, c: real)
    requires |a| == |b| && Sum(b) == 0.0
    ensures Dot(Dev(a, c), b) == Dot(a, b)
  {
    DotShift(a, b, c);
    NoShift(Dot(Dev(a, c), b), Dot(a, b), c, Sum(b));
  }

  // ---------------------------------------------------------------------
  // Transport coefficients

  /** The values `time_lag_analysis` returns, in its order. */
  datatype Analysis = Analysis(
    timeLag: real,
    diffusionCoefficient: real,
    permeability: real,
    solubilityCoefficient: real,
    pressure: real,
    solubility: real,
    slope: real,
    intercept: real)

  /** The identities of Derive that hold of any successful analysis and
      that the solver's arguments rest on. */
  ghost predicate Coherent(a: Analysis, thickness: real) {
    && thickness != 0.0
    && 6.0 * a.diffusionCoefficient * a.timeLag == thickness * thickness
    && a.solubility == a.solubilityCoefficient * a.pressure
  }
  /** The coefficients derived from a fitted line: the time lag is where the
      line meets the time axis, D = L²/(6·time lag), the permeability is
      L·slope/pressure, the solubility is slope·L/D and the solubility
      coefficient is P/D. Every divisor is non-zero under the requires. */
  function Derive(slope: real, intercept: real, thickness: real, pressure: real): (a: Analysis)
    requires slope != 0.0 && intercept != 0.0 && thickness != 0.0 && pressure != 0.0
    ensures a.timeLag * slope == -intercept
    ensures 6.0 * a.diffusionCoefficient * a.timeLag == thickness * thickness
    ensures a.permeability * pressure == thickness * slope
    ensures a.solubilityCoefficient * a.diffusionCoefficient == a.permeability
    ensures a.solubility == a.solubilityCoefficient * pressure
    ensures a.pressure == pressure && a.slope == slope && a.intercept == intercept
    ensures Coherent(a, thickness)
  {
    var timeLag := -intercept / slope;
    assert timeLag != 0.0;
    SquarePositive(thickness, thickness * thickness);
    var d := thickness * thickness / (6.0 * timeLag);
    assert d != 0.0;
    var p := thickness * slope / pressure;
    var s := p / d;
    var sol := slope * thickness / d;
    assert sol == s * pressure;
    Analysis(timeLag, d, p, s, pressure, sol, slope, intercept)
  }



  /** With a rising line that meets the time axis after t = 0 (slope > 0,
      intercept < 0), a positive thickness and a positive pressure, every
      derived coefficient is positive. */
  lemma DerivedPositive(slope: real, intercept: real, thickness: real, pressure: real)
    requires slope > 0.0 && intercept < 0.0 && thickness > 0.0 && pressure > 0.0
    ensures var a := Derive(slope, intercept, thickness, pressure);
            && a.timeLag > 0.0 && a.diffusionCoefficient > 0.0 && a.permeability > 0.0
            && a.solubilityCoefficient > 0.0 && a.solubility > 0.0
  {
    var a := Derive(slope, intercept, thickness, pressure);
    QuotientPositive(-intercept, slope, a.timeLag);
    SquarePositive(thickness, thickness * thickness);
    QuotientPositive(thickness * thickness, 6.0 * a.timeLag, a.diffusionCoefficient);
    ProductPositive(thickness, slope, thickness * slope);
    QuotientPositive(thickness * slope, pressure, a.permeability);
    QuotientPositive(a.permeability, a.diffusionCoefficient, a.solubilityCoefficient);
    ProductPositive(a.solubilityCoefficient, pressure, a.solubility);
  }

  // ---------------------------------------------------------------------
  // `time_lag_analysis` on a preprocessed frame

  /** The rows after the stabilisation time, the only ones the fit and the
      pressure average look at. */
  function SteadyRows(data: map<Column, seq<real>>, ts: real): (keep: seq<bool>)
    requires Time in data
    ensures |keep| == |data[Time]|
  {
    Above(data[Time], ts)
  }

  /** `time_lag_analysis(df, ts, L)`: the two presence checks, the fit over
      the rows with t > ts, the mean pressure over the same rows, and the
      derived coefficients. A fit through fewer than two distinct times is
      `Degenerate`; a zero slope, intercept, pressure or thickness would make
      a derived value infinite or NaN and is `NonFinite`. */
  function TimeLagAnalysis(data: map<Column, seq<real>>, n: nat, ts: real, thickness: real): (r: Result<Analysis, Error>)
    requires SameLength(data, n)
    ensures Cumulative !in data ==> r == Failure(MissingColumn(Cumulative))
    ensures Cumulative in data && Time !in data ==> r == Failure(MissingColumn(Time))
    ensures Cumulative in data && Time in data ==>
              var keep := SteadyRows(data, ts);
              var t := Where(data[Time], keep);
              (r == Failure(Degenerate) <==> Spread(t) == 0.0)
              && (Spread(t) != 0.0 && Pressure !in data ==> r == Failure(KeyError(Pressure)))
              && (Spread(t) != 0.0 && Pressure in data ==>
                    var y, pressure := Where(data[Cumulative], keep), Mean(Where(data[Pressure], keep));
                    (r.Success? <==> Slope(t, y) != 0.0 && Intercept(t, y) != 0.0 && thickness != 0.0 && pressure != 0.0))
    ensures r.Success? ==>
              && Cumulative in data && Time in data && Pressure in data
              && var keep := SteadyRows(data, ts);
                 var t, y := Where(data[Time], keep), Where(data[Cumulative], keep);
                 && Count(keep) > 0 && Spread(t) != 0.0
                 && var pressure := Mean(Where(data[Pressure], keep));
                    && Slope(t, y) != 0.0 && Intercept(t, y) != 0.0 && thickness != 0.0 && pressure != 0.0
                    && r.value == Derive(Slope(t, y), Intercept(t, y), thickness, pressure)
    ensures r.Success? ==> Coherent(r.value, thickness)
  {
    if Cumulative !in data then Failure(MissingColumn(Cumulative))
    else if Time !in data then Failure(MissingColumn(Time))
    else
      var keep := SteadyRows(data, ts);
      var t, y := Where(data[Time], keep), Where(data[Cumulative], keep);
      if Spread(t) == 0.0 then Failure(Degenerate)
      else if Pressure !in data then Failure(KeyError(Pressure))
      else
        var slope, intercept := Slope(t, y), Intercept(t, y);
        var pressure := Mean(Where(data[Pressure], keep));
        if slope == 0.0 || intercept == 0.0 || pressure == 0.0 || thickness == 0.0 then Failure(NonFinite)
        else Success(Derive(slope, intercept, thickness, pressure))
  }

  /** With strictly increasing times, the fit is degenerate exactly when
      fewer than two rows lie after the stabilisation time. */
  lemma FitNeedsTwoRows(data: map<Column, seq<real>>, n: nat, ts: real, thickness: real)
    requires SameLength(data, n) && Cumulative in data && Time in data
    requires StrictlyIncreasing(data[Time])
    ensures TimeLagAnalysis(data, n, ts, thickness) == Failure(Degenerate) <==> Count(SteadyRows(data, ts)) < 2
  {
    var keep := SteadyRows(data, ts);
    WhereIncreasing(data[Time], keep);
    SpreadPositive(Where(data[Time], keep));
  }

  /** Only the rows after the stabilisation time matter: two frames with the
      same times that agree on those rows in the cumulative-flux and pressure
      columns give the same analysis. */
  lemma SteadyRowsOnly(d1: map<Column, seq<real>>, d2: map<Column, seq<real>>, n: nat, ts: real, thickness: real)
    requires SameLength(d1, n) && SameLength(d2, n)
    requires Cumulative in d1 && Cumulative in d2 && Time in d1 && Time in d2 && d1[Time] == d2[Time]
    requires Pressure in d1 <==> Pressure in d2
    requires forall i :: 0 <= i < n && d1[Time][i] > ts ==> d1[Cumulative][i] == d2[Cumulative][i]
    requires Pressure in d1 ==> forall i :: 0 <= i < n && d1[Time][i] > ts ==> d1[Pressure][i] == d2[Pressure][i]
    ensures TimeLagAnalysis(d1, n, ts, thickness) == TimeLagAnalysis(d2, n, ts, thickness)
  {
    var keep := SteadyRows(d1, ts);
    WhereAgree(d1[Cumulative], d2[Cumulative], keep);
    if Pressure in d1 {
      WhereAgree(d1[Pressure], d2[Pressure], keep);
    }
  }

  /** On data lying exactly on y = m·t + c after the stabilisation time, with
      at least two such rows, the analysis recovers m and c and puts the time
      lag where that line crosses y = 0 (see Derive). */
  lemma ExactLineAnalysis(data: map<Column, seq<real>>, n: nat, ts: real, thickness: real, m: real, c: real)
    requires SameLength(data, n) && Cumulative in data && Time in data && Pressure in data
    requires StrictlyIncreasing(data[Time]) && Count(SteadyRows(data, ts)) >= 2
    requires forall i :: 0 <= i < n && data[Time][i] > ts ==> data[Cumulative][i] == m * data[Time][i] + c
    ensures var r := TimeLagAnalysis(data, n, ts, thickness);
            var keep := SteadyRows(data, ts);
            && (r.Success? <==> m != 0.0 && c != 0.0 && thickness != 0.0 && Mean(Where(data[Pressure], keep)) != 0.0)
            && (r.Success? ==> r.value.slope == m && r.value.intercept == c)
  {
    ExactSteadyFit(data, n, ts, m, c);
  }

  /** The fit part of ExactLineAnalysis, stated on the steady rows. */
  lemma ExactSteadyFit(data: map<Column, seq<real>>, n: nat, ts: real, m: real, c: real)
    requires SameLength(data, n) && Cumulative in data && Time in data
    requires StrictlyIncreasing(data[Time]) && Count(SteadyRows(data, ts)) >= 2
    requires forall i :: 0 <= i < n && data[Time][i] > ts ==> data[Cumulative][i] == m * data[Time][i] + c
    ensures var keep := SteadyRows(data, ts);
            var t, y := Where(data[Time], keep), Where(data[Cumulative], keep);
            Spread(t) > 0.0 && Slope(t, y) == m && Intercept(t, y) == c
  {
    SteadySpread(data, n, ts);
    SteadyAffine(data, n, ts, m, c);
    var keep := SteadyRows(data, ts);
    ExactLine(Where(data[Time], keep), Where(data[Cumulative], keep), m, c);
  }

  /** Two or more steady rows with increasing times have a positive spread. */
  lemma SteadySpread(data: map<Column, seq<real>>, n: nat, ts: real)
    requires SameLength(data, n) && Time in data
    requires StrictlyIncreasing(data[Time]) && Count(SteadyRows(data, ts)) >= 2
    ensures Spread(Where(data[Time], SteadyRows(data, ts))) > 0.0
  {
    WhereIncreasing(data[Time], SteadyRows(data, ts));
    SpreadPositive(Where(data[Time], SteadyRows(data, ts)));
  }

  /** Rows on a line stay on it once the steady ones are picked out. */
  lemma SteadyAffine(data: map<Column, seq<real>>, n: nat, ts: real, m: real, c: real)
    requires SameLength(data, n) && Cumulative in data && Time in data
    requires forall i :: 0 <= i < n && data[Time][i] > ts ==> data[Cumulative][i] == m * data[Time][i] + c
    ensures var keep := SteadyRows(data, ts);
            forall j :: 0 <= j < Count(keep) ==>
              Where(data[Cumulative], keep)[j] == m * Where(data[Time], keep)[j] + c
  {
    WhereAffine(data[Time], data[Cumulative], SteadyRows(data, ts), m, c);
  }

  // ---------------------------------------------------------------------
  // `flux_pde_const_D`: forward time, centred space

  /** The quantities that enter one time step: the diffusion coefficient,
      the upstream (x = 0) concentration and the two step sizes. */
  datatype Scheme = Scheme(D: real, ceq: real, dt: real, dx: real)

  /** Number of grid nodes, `int(L / dx) + 1`; at least two once L/dx >= 1. */
  function NumNodes(thickness: real, dx: real): (k: int)
    requires dx != 0.0
    ensures thickness / dx >= 1.0 ==> k >= 2
  {
    Trunc(thickness / dx) + 1
  }

  /** Number of time samples, `int(T / dt) + 1`: for T/dt >= 0, one more
      than the number of whole steps dt that fit in T. */
  function NumSteps(total: real, dt: real): (k: int)
    requires dt != 0.0
    ensures total / dt >= 0.0 ==> k >= 1 && (k - 1) as real <= total / dt < k as real
    ensures total / dt < 0.0 ==> k <= 1 && (k - 2) as real < total / dt
  {
    Trunc(total / dt) + 1
  }

  /** The stability guard `dt <= dx**2 / (2 * D)`; for D > 0 it says that
      2·D·dt is at most dx². */
  predicate Stable(D: real, dt: real, dx: real): (b: bool)
    requires D != 0.0
    ensures D > 0.0 ==> (b <==> 2.0 * D * dt <= dx * dx)
  {
    GuardForm(D, dt, dx * dx);
    dt <= dx * dx / (2.0 * D)
  }

  /** How the solver stops before stepping: the failed guard first, then
      numpy refusing a negative number of time samples. */
  function SolverError(D: real, total: real, dt: real, dx: real): (e: Option<Error>)
    requires D != 0.0 && dt != 0.0
    ensures e == Some(UnstableStep) <==> !Stable(D, dt, dx)
    ensures e == Some(NegativeDimensions) <==> Stable(D, dt, dx) && NumSteps(total, dt) < 0
    ensures e.None? <==> Stable(D, dt, dx) && NumSteps(total, dt) >= 0
  {
    if !Stable(D, dt, dx) then Some(UnstableStep)
    else if NumSteps(total, dt) < 0 then Some(NegativeDimensions)
    else None
  }

  /** dt·D/dx², the mesh ratio of the scheme. */
  function Ratio(s: Scheme): real
    requires s.dx != 0.0
  {
    SquarePositive(s.dx, s.dx * s.dx);
    s.dt * s.D / (s.dx * s.dx)
  }

  /** The explicit update of interior node i from the previous row. */
  function Stencil(s: Scheme, c: seq<real>, i: int): real
    requires s.dx != 0.0 && 0 < i < |c| - 1
  {
    SquarePositive(s.dx, s.dx * s.dx);
    c[i] + s.dt * s.D * (c[i + 1] - 2.0 * c[i] + c[i - 1]) / (s.dx * s.dx)
  }

  /** The update is the weighted average (1 − 2k)·C[i] + k·C[i+1] + k·C[i−1]
      of the node and its two neighbours, k being the mesh ratio. */
  lemma StencilAverage(s: Scheme, c: seq<real>, i: int)
    requires s.dx != 0.0 && 0 < i < |c| - 1
    ensures Stencil(s, c, i) == (1.0 - 2.0 * Ratio(s)) * c[i] + Ratio(s) * c[i + 1] + Ratio(s) * c[i - 1]
  {
    SquarePositive(s.dx, s.dx * s.dx);
    AverageForm(c[i], c[i + 1], c[i - 1], s.dt * s.D, s.dx * s.dx);
  }

  /** Row 0: the upstream concentration at x = 0, nothing elsewhere. */
  function Initial(nx: nat, ceq: real): (c: seq<real>)
  {
    seq(nx, i => if i == 0 then ceq else 0.0)
  }

  /** One step: every interior node from the previous row, then the two
      Dirichlet boundaries. */
  function Advance(s: Scheme, c: seq<real>): (r: seq<real>)
    requires s.dx != 0.0 && |c| >= 2
    ensures |r| == |c| && r[0] == s.ceq && r[|c| - 1] == 0.0
    ensures forall i :: 0 < i < |c| - 1 ==> r[i] == Stencil(s, c, i)
  {
    seq(|c|, i requires 0 <= i < |c| => if i == 0 then s.ceq else if i == |c| - 1 then 0.0 else Stencil(s, c, i))
  }

  /** Row n of the concentration surface. */
  function Profile(s: Scheme, nx: nat, n: nat): (p: seq<real>)
    requires s.dx != 0.0 && nx >= 2
    ensures |p| == nx && p[0] == s.ceq && p[nx - 1] == 0.0
    ensures n == 0 ==> forall i :: 0 < i < nx ==> p[i] == 0.0
  {
    if n == 0 then Initial(nx, s.ceq) else Advance(s, Profile(s, nx, n - 1))
  }

  /** The one-sided difference −D·(C[Nx−1] − C[Nx−2])/dx at x = L. */
  function BoundaryFlux(s: Scheme, c: seq<real>): real
    requires s.dx != 0.0 && |c| >= 2
  {
    -s.D * (c[|c| - 1] - c[|c| - 2]) / s.dx
  }

  /** `flux_pde_const_D(D, C_eq, L, T, dt, dx)`: checks the guard, then for
      each of the Nt time samples builds the next row from a copy of the
      previous one, stores it in the surface and appends the flux at x = L.
      When it stops early the surface is empty and there is no flux. */
  method FluxPdeConstD(D: real, ceq: real, thickness: real, total: real, dt: real, dx: real)
    returns (e: Option<Error>, surface: array2<real>, flux: seq<real>)
    requires D != 0.0 && dt != 0.0 && dx != 0.0 && thickness / dx >= 1.0
    ensures e == SolverError(D, total, dt, dx)
    ensures e.Some? ==> surface.Length0 == 0 && flux == []
    ensures e.None? ==>
              var s, nx, nt := Scheme(D, ceq, dt, dx), NumNodes(thickness, dx), NumSteps(total, dt);
              && surface.Length0 == nt && surface.Length1 == nx && |flux| == nt
              && (forall n, i :: 0 <= n < nt && 0 <= i < nx ==> surface[n, i] == Profile(s, nx, n)[i])
              && (forall n :: 0 <= n < nt ==> flux[n] == BoundaryFlux(s, Profile(s, nx, n)))
  {
    var s := Scheme(D, ceq, dt, dx);
    var nx := NumNodes(thickness, dx);
    var nt := NumSteps(total, dt);
    e := SolverError(D, total, dt, dx);
    flux := [];
    if e.Some? {
      surface := new real[0, 0];
      return;
    }
    surface, flux := March(s, nx, nt);
  }

  /** The first n rows of the surface and the first n fluxes are those of
      the scheme. */
  ghost predicate Filled(s: Scheme, nx: nat, n: nat, surface: array2<real>, flux: seq<real>)
    requires s.dx != 0.0 && nx >= 2
    reads surface
  {
    && n <= surface.Length0 && surface.Length1 == nx && |flux| == n
    && (forall m, i :: 0 <= m < n && 0 <= i < nx ==> surface[m, i] == Profile(s, nx, m)[i])
    && (forall m :: 0 <= m < n ==> flux[m] == BoundaryFlux(s, Profile(s, nx, m)))
  }

  /** The row the loop body starts from at step n: row 0 is copied as it
      is, every later row is computed from the one before it. */
  function Previous(n: nat): (m: nat)
    ensures n == 0 ==> m == 0
    ensures n > 0 ==> m == n - 1
  {
    if n == 0 then 0 else n - 1
  }

  /** The time loop of `flux_pde_const_D` once the guard has passed. */
  method March(s: Scheme, nx: nat, nt: nat) returns (surface: array2<real>, flux: seq<real>)
    requires s.dx != 0.0 && nx >= 2
    ensures surface.Length0 == nt && Filled(s, nx, nt, surface, flux)
  {
    surface := new real[nt, nx];
    flux := [];
    var c := InitialRow(nx, s.ceq);
    var n := 0;
    while n < nt
      invariant 0 <= n <= nt && surface.Length0 == nt && c.Length == nx
      invariant c[..] == Profile(s, nx, Previous(n))
      invariant Filled(s, nx, n, surface, flux)
    {
      c, flux := Step(s, nx, n, surface, flux, c);
      n := n + 1;
    }
  }

  /** One pass of the outer loop: the next row, stored, and its flux. */
  method Step(s: Scheme, nx: nat, n: nat, surface: array2<real>, flux: seq<real>, c: array<real>)
    returns (next: array<real>, flux': seq<real>)
    requires s.dx != 0.0 && nx >= 2 && n < surface.Length0 && c.Length == nx
    requires c[..] == Profile(s, nx, Previous(n)) && Filled(s, nx, n, surface, flux)
    modifies surface
    ensures next.Length == nx && next[..] == Profile(s, nx, n) && Filled(s, nx, n + 1, surface, flux')
  {
    next := NextRow(s, c, n);
    flux' := Record(s, nx, n, surface, flux, next);
  }

  /** `C = np.zeros(Nx)` followed by `C[0] = C_eq`. */
  method InitialRow(nx: nat, ceq: real) returns (c: array<real>)
    requires nx >= 1
    ensures fresh(c) && c[..] == Initial(nx, ceq)
  {
    c := new real[nx](_ => 0.0);
    c[0] := ceq;
  }

  /** `C_surface[n, :] = C.copy()` and `flux_values.append(flux_L)` for the
      row just computed. */
  method Record(s: Scheme, nx: nat, n: nat, surface: array2<real>, flux: seq<real>, c: array<real>)
    returns (flux': seq<real>)
    requires s.dx != 0.0 && nx >= 2 && n < surface.Length0 && c.Length == nx
    requires Filled(s, nx, n, surface, flux) && c[..] == Profile(s, nx, n)
    modifies surface
    ensures Filled(s, nx, n + 1, surface, flux')
  {
    StoreRow(surface, n, c);
    flux' := flux + [BoundaryFlux(s, c[..])];
  }

  /** One pass of the outer loop: `C_new = C.copy()`, the interior update
      from the previous row (skipped on the first pass) and the two
      boundary assignments. */
  method NextRow(s: Scheme, c: array<real>, n: nat) returns (next: array<real>)
    requires s.dx != 0.0 && c.Length >= 2
    requires c[..] == Profile(s, c.Length, Previous(n))
    ensures fresh(next) && next[..] == Profile(s, c.Length, n)
  {
    var nx := c.Length;
    var prev := c[..];
    SquarePositive(s.dx, s.dx * s.dx);
    next := new real[nx](i requires 0 <= i < nx reads c => c[i]);
    if n > 0 {
      var i := 1;
      while i < nx - 1
        modifies next
        invariant 1 <= i <= nx - 1
        invariant forall j :: 0 <= j < nx && (j == 0 || j >= i) ==> next[j] == prev[j]
        invariant forall j :: 1 <= j < i ==> next[j] == Stencil(s, prev, j)
      {
        next[i] := Stencil(s, prev, i);
        i := i + 1;
      }
    }
    next[0] := s.ceq;
    next[nx - 1] := 0.0;
  }

  /** `C_surface[n, :] = C.copy()`. */
  method StoreRow(surface: array2<real>, n: nat, c: array<real>)
    requires n < surface.Length0 && c.Length == surface.Length1
    modifies surface
    ensures forall m, i :: 0 <= m < surface.Length0 && 0 <= i < surface.Length1 ==>
              surface[m, i] == if m == n then c[i] else old(surface[m, i])
  {
    var j := 0;
    while j < c.Length
      invariant 0 <= j <= c.Length
      invariant forall m, i :: 0 <= m < surface.Length0 && 0 <= i < surface.Length1 ==>
                  surface[m, i] == if m == n && i < j then c[i] else old(surface[m, i])
    {
      surface[n, j] := c[j];
      j := j + 1;
    }
  }

  // ---------------------------------------------------------------------
  // What the stability guard buys: a discrete maximum principle

  /** Under the guard, with D > 0 and dt > 0, the mesh ratio lies in (0, 1/2],
      so every update is a convex combination of three old values. */
  lemma RatioBound(s: Scheme)
    requires s.D > 0.0 && s.dt > 0.0 && s.dx != 0.0 && Stable(s.D, s.dt, s.dx)
    ensures 0.0 < Ratio(s) <= 0.5
  {
    SquarePositive(s.dx, s.dx * s.dx);
    ProductPositive(2.0, s.D, 2.0 * s.D);
    AtMostQuotient(s.dt, 2.0 * s.D, s.dx * s.dx);
    ProductPositive(s.dt, s.D, s.dt * s.D);
    HalfQuotient(s.dt * s.D, s.dx * s.dx);
  }

  /** The update is monotone: a row that is pointwise larger stays larger. */
  lemma StencilMonotone(s: Scheme, c: seq<real>, d: seq<real>, i: int)
    requires s.dx != 0.0 && |c| == |d| && 0 < i < |c| - 1
    requires 0.0 <= Ratio(s) <= 0.5
    requires c[i - 1] <= d[i - 1] && c[i] <= d[i] && c[i + 1] <= d[i + 1]
    ensures Stencil(s, c, i) <= Stencil(s, d, i)
  {
    StencilAverage(s, c, i);
    StencilAverage(s, d, i);
    ConvexMonotone(Ratio(s), 1.0 - 2.0 * Ratio(s), c[i], c[i + 1], c[i - 1], d[i], d[i + 1], d[i - 1]);
  }

  /** The update of a row bounded by lo and hi stays within them. */
  lemma StencilBounded(s: Scheme, c: seq<real>, i: int, lo: real, hi: real)
    requires s.dx != 0.0 && 0 < i < |c| - 1
    requires 0.0 <= Ratio(s) <= 0.5
    requires lo <= c[i - 1] <= hi && lo <= c[i] <= hi && lo <= c[i + 1] <= hi
    ensures lo <= Stencil(s, c, i) <= hi
  {
    StencilAverage(s, c, i);
    ConvexMonotone(Ratio(s), 1.0 - 2.0 * Ratio(s), lo, lo, lo, c[i], c[i + 1], c[i - 1]);
    ConvexMonotone(Ratio(s), 1.0 - 2.0 * Ratio(s), c[i], c[i + 1], c[i - 1], hi, hi, hi);
    ConvexConstant(Ratio(s), lo);
    ConvexConstant(Ratio(s), hi);
  }

  /** Every value of a row lies between 0 and C_eq. */
  ghost predicate WithinBounds(c: seq<real>, ceq: real) {
    forall i :: 0 <= i < |c| ==> 0.0 <= c[i] <= ceq
  }

  /** One step keeps a row within [0, C_eq]. */
  lemma AdvanceBounded(s: Scheme, c: seq<real>)
    requires s.dx != 0.0 && |c| >= 2 && s.ceq >= 0.0
    requires 0.0 <= Ratio(s) <= 0.5 && WithinBounds(c, s.ceq)
    ensures WithinBounds(Advance(s, c), s.ceq)
  {
    forall i | 0 < i < |c| - 1 ensures 0.0 <= Advance(s, c)[i] <= s.ceq {
      StencilBounded(s, c, i, 0.0, s.ceq);
    }
  }

  /** The discrete maximum principle: under the stability guard, with D > 0,
      dt > 0 and C_eq >= 0, every concentration the solver stores lies
      between 0 and C_eq. */
  lemma {:induction false} MaxPrinciple(s: Scheme, nx: nat, n: nat)
    requires s.D > 0.0 && s.dt > 0.0 && s.dx != 0.0 && Stable(s.D, s.dt, s.dx)
    requires nx >= 2 && s.ceq >= 0.0
    ensures WithinBounds(Profile(s, nx, n), s.ceq)
  {
    if n > 0 {
      MaxPrinciple(s, nx, n - 1);
      RatioBound(s);
      AdvanceBounded(s, Profile(s, nx, n - 1));
    }
  }

  /** Pointwise order of two rows of one length. */
  ghost predicate Below(c: seq<real>, d: seq<real>) {
    |c| == |d| && forall i :: 0 <= i < |c| ==> c[i] <= d[i]
  }

  /** One step preserves the pointwise order of rows. */
  lemma AdvanceMonotone(s: Scheme, c: seq<real>, d: seq<real>)
    requires s.dx != 0.0 && |c| >= 2 && 0.0 <= Ratio(s) <= 0.5 && Below(c, d)
    ensures Below(Advance(s, c), Advance(s, d))
  {
    forall i | 0 < i < |c| - 1 ensures Advance(s, c)[i] <= Advance(s, d)[i] {
      StencilMonotone(s, c, d, i);
    }
  }

  /** The membrane only fills up: with C_eq >= 0 under the guard, each row
      lies pointwise below the next one. */
  lemma {:induction false} ProfileRising(s: Scheme, nx: nat, n: nat)
    requires s.D > 0.0 && s.dt > 0.0 && s.dx != 0.0 && Stable(s.D, s.dt, s.dx)
    requires nx >= 2 && s.ceq >= 0.0
    ensures Below(Profile(s, nx, n), Profile(s, nx, n + 1))
  {
    RatioBound(s);
    if n == 0 {
      MaxPrinciple(s, nx, 1);
    } else {
      ProfileRising(s, nx, n - 1);
      AdvanceMonotone(s, Profile(s, nx, n - 1), Profile(s, nx, n));
    }
  }

  /** At x = L the flux is D·C[Nx−2]/dx once C[Nx−1] = 0. */
  lemma BoundaryFluxForm(s: Scheme, c: seq<real>)
    requires s.dx != 0.0 && |c| >= 2 && c[|c| - 1] == 0.0
    ensures BoundaryFlux(s, c) == s.D * c[|c| - 2] / s.dx
  {
    OneSidedForm(s.D, s.dx, c[|c| - 1], c[|c| - 2]);
  }

  /** Two rows that vanish at x = L, the second one larger next to it, have
      non-negative and ordered fluxes there (D > 0, dx > 0). */
  lemma FluxOrder(s: Scheme, c: seq<real>, d: seq<real>)
    requires s.D > 0.0 && s.dx > 0.0 && |c| >= 2 && |d| >= 2
    requires c[|c| - 1] == 0.0 && d[|d| - 1] == 0.0 && 0.0 <= c[|c| - 2] <= d[|d| - 2]
    ensures 0.0 <= BoundaryFlux(s, c) <= BoundaryFlux(s, d)
  {
    BoundaryFluxForm(s, c);
    BoundaryFluxForm(s, d);
    ScaledOrder(s.D, s.dx, c[|c| - 2], d[|d| - 2]);
  }

  /** With D > 0, dx > 0, C_eq >= 0 and the guard, the downstream flux is
      never negative and never decreases from one time step to the next. */
  lemma FluxRising(s: Scheme, nx: nat, n: nat)
    requires s.D > 0.0 && s.dt > 0.0 && s.dx > 0.0 && Stable(s.D, s.dt, s.dx)
    requires nx >= 2 && s.ceq >= 0.0
    ensures 0.0 <= BoundaryFlux(s, Profile(s, nx, n)) <= BoundaryFlux(s, Profile(s, nx, n + 1))
  {
    NextToLastRising(s, nx, n);
    FluxOrder(s, Profile(s, nx, n), Profile(s, nx, n + 1));
  }

  /** The node next to x = L is non-negative and rises with time. */
  lemma NextToLastRising(s: Scheme, nx: nat, n: nat)
    requires s.D > 0.0 && s.dt > 0.0 && s.dx != 0.0 && Stable(s.D, s.dt, s.dx)
    requires nx >= 2 && s.ceq >= 0.0
    ensures 0.0 <= Profile(s, nx, n)[nx - 2] <= Profile(s, nx, n + 1)[nx - 2]
  {
    MaxPrinciple(s, nx, n);
    ProfileRising(s, nx, n);
  }

  // ---------------------------------------------------------------------
  // Arithmetic facts: one-step hints for the nonlinear steps above

  /** Dividing Σy = m·Σt + n·c by n. */
  lemma MeanOfAffine(sy: real, st: real, n: real, m: real, c: real)
    requires n > 0.0 && sy == m * st + n * c
    ensures sy / n == m * (st / n) + c
  {
    assert n * c / n == c;
    assert (m * st) / n == m * (st / n);
  }

  lemma AffineShift(x: real, x0: real, m: real, c: real)
    ensures (m * x + c) - (m * x0 + c) == m * (x - x0)
  {
  }

  lemma QuotientOfMultiple(m: real, b: real, a: real)
    requires b != 0.0 && a == m * b
    ensures a / b == m
  {
  }

  lemma QuotientTimesDivisor(a: real, b: real, q: real)
    requires b != 0.0 && q == a / b
    ensures q * b == a
  {
  }

  lemma ZeroFactor(a: real, b: real, r: real)
    requires b == 0.0 && r == a * b
    ensures r == 0.0
  {
  }

  lemma NoShift(x: real, y: real, c: real, s: real)
    requires s == 0.0 && x == y - c * s
    ensures x == y
  {
  }

  lemma DistributeLeft(x: real, c: real, y: real)
    ensures (x - c) * y == x * y - c * y
  {
  }

  lemma DistributeSum(c: real, x: real, y: real)
    ensures c * (x + y) == c * x + c * y
  {
  }

  lemma DistributeRight(x: real, y: real, z: real)
    ensures x * (y - z) == x * y - x * z
  {
  }

  lemma ResidualSplit(x: real, y: real, x0: real, y0: real, m: real)
    ensures y - (m * x + (y0 - m * x0)) == (y - y0) - m * (x - x0)
  {
  }

  lemma QuotientPositive(a: real, b: real, r: real)
    requires a > 0.0 && b > 0.0 && r == a / b
    ensures r > 0.0
  {
  }

  lemma AverageForm(x: real, a: real, b: real, q: real, h: real)
    requires h != 0.0
    ensures x + q * (a - 2.0 * x + b) / h == (1.0 - 2.0 * (q / h)) * x + (q / h) * a + (q / h) * b
  {
    var k := q / h;
    assert q * (a - 2.0 * x + b) / h == k * (a - 2.0 * x + b);
  }

  /** a ≤ c / b with b > 0 gives a·b ≤ c. */
  lemma AtMostQuotient(a: real, b: real, c: real)
    requires b > 0.0 && a <= c / b
    ensures a * b <= c
  {
    WeightMonotone(b, a, c / b);
    QuotientTimesDivisor(c, b, c / b);
  }

  /** 0 < p with 2p ≤ h gives 0 < p/h ≤ 1/2. */
  lemma HalfQuotient(p: real, h: real)
    requires h > 0.0 && p > 0.0 && p * 2.0 <= h
    ensures 0.0 < p / h <= 0.5
  {
  }

  /** w·x ≤ w·y for a non-negative weight. */
  lemma WeightMonotone(w: real, x: real, y: real)
    requires w >= 0.0 && x <= y
    ensures w * x <= w * y
  {
  }

  /** A combination w·x + k·a + k·b with non-negative weights is monotone in
      each of its three arguments (the stencil has w = 1 − 2k). */
  lemma ConvexMonotone(k: real, w: real, x: real, a: real, b: real, x': real, a': real, b': real)
    requires 0.0 <= k && 0.0 <= w && x <= x' && a <= a' && b <= b'
    ensures w * x + k * a + k * b <= w * x' + k * a' + k * b'
  {
    WeightMonotone(w, x, x');
    WeightMonotone(k, a, a');
    WeightMonotone(k, b, b');
  }

  /** The same combination of three equal values is that value. */
  lemma ConvexConstant(k: real, v: real)
    ensures (1.0 - 2.0 * k) * v + k * v + k * v == v
  {
  }

  lemma OneSidedForm(D: real, dx: real, a: real, b: real)
    requires dx != 0.0 && a == 0.0
    ensures -D * (a - b) / dx == D * b / dx
  {
  }

  /** 0 ≤ x ≤ y gives 0 ≤ D·x/dx ≤ D·y/dx for D, dx > 0. */
  lemma ScaledOrder(D: real, dx: real, x: real, y: real)
    requires D > 0.0 && dx > 0.0 && 0.0 <= x <= y
    ensures 0.0 <= D * x / dx <= D * y / dx
  {
    WeightMonotone(D, x, y);
    WeightMonotone(D, 0.0, x);
  }

  /** For D > 0, dt ≤ h/(2D) exactly when 2·D·dt ≤ h. */
  lemma GuardForm(D: real, dt: real, h: real)
    ensures D > 0.0 ==> (dt <= h / (2.0 * D) <==> 2.0 * D * dt <= h)
  {
    if D > 0.0 {
      var q := h / (2.0 * D);
      assert q * (2.0 * D) == h;
      if dt <= q {
        WeightMonotone(2.0 * D, dt, q);
      } else {
        WeightMonotone(2.0 * D, q, dt);
        assert 2.0 * D * dt != h;
      }
    }
  }

  /** The inductive step of DotShift on the last row. */
  lemma ShiftStep(p: real, q: real, s: real, x: real, d: real, y: real, c: real)
    requires q == p - c * s && d == x - c
    ensures q + d * y == (p + x * y) - c * (s + y)
  {
    DistributeLeft(x, c, y);
    DistributeSum(c, s, y);
  }
}
