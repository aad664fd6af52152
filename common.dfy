/** Shared vocabulary of the permeation-analysis model: the failure-compatible
    wrappers, the error taxonomy of the pipeline, the column names of the data
    frames, and the elementary sequence arithmetic (sums, means, row masks)
    that every stage is built from. All quantities are exact reals. */
module Common {

  datatype Option<+T> = None | Some(value: T)

  datatype Result<+T, +E> = Success(value: T) | Failure(error: E) {
    predicate IsFailure() { Failure? }
    function PropagateFailure<U>(): Result<U, E>
      requires Failure?
    {
      Failure(error)
    }
    function Extract(): T
      requires Success?
    {
      value
    }
  }

  /** The ways the pipeline stops.
      MissingColumn: a ValueError raised by an explicit "column not in df.columns" check.
      KeyError: pandas looking up a column that is absent.
      InvalidRange: the ValueError for an override range whose start is not below its end.
      NoIndex: `.index[0]` (or `.iloc[-1]`) on an empty selection, an IndexError.
      UnstableStep: the AssertionError of the explicit solver's stability guard.
      NegativeDimensions: numpy refusing a negative number of time samples (a ValueError).
      Degenerate: a straight-line fit through fewer than two distinct times, which
        `np.polyfit` cannot solve (it raises on no rows and is rank-deficient on one time).
      MissingRow: `.loc[label, column]` with a row label the frame does not have (a KeyError).
      NonFinite: the point where the source would carry NaN or an infinity forward;
        the model stops there instead (see README, "Left out"). */
  datatype Error =
    | MissingColumn(column: Column)
    | KeyError(key: Column)
    | InvalidRange
    | NoIndex
    | UnstableStep
    | NegativeDimensions
    | Degenerate
    | MissingRow(row: nat)
    | NonFinite

  /** The columns of the raw and preprocessed frames. `Other(name)` is any
      column the pipeline does not use by name (its name is none of the ten
      headers below); the preprocessor only carries such columns along. */
  datatype Column =
    | Time | Ppm | PpmBaseline | Gauge | Pressure | Temperature | FlowRate
    | Flux | Cumulative | Normalised
    | Other(name: string)
  {
    /** The header the source uses for the column. */
    function Label(): string {
      match this
      case Time => "t / s"
      case Ppm => "y_CO2 / ppm"
      case PpmBaseline => "y_CO2_bl / ppm"
      case Gauge => "P_cell / barg"
      case Pressure => "P_cell / bar"
      case Temperature => "T / °C"
      case FlowRate => "qN2 / ml min^-1"
      case Flux => "flux / cm^3(STP) cm^-2 s^-1"
      case Cumulative => "cumulative flux / cm^3(STP) cm^-2"
      case Normalised => "normalised flux"
      case Other(name) => name
    }
  }

  /** Python's `int(x)` on a float: truncation toward zero. */
  function Trunc(x: real): (k: int)
    ensures x >= 0.0 ==> k == x.Floor && 0 <= k && k as real <= x < k as real + 1.0
    ensures x < 0.0 ==> k <= 0 && k as real - 1.0 < x <= k as real
  {
    if x >= 0.0 then x.Floor else -((-x).Floor)
  }

  ghost predicate StrictlyIncreasing(t: seq<real>) {
    forall i, j :: 0 <= i < j < |t| ==> t[i] < t[j]
  }

  ghost predicate NonDecreasing(s: seq<real>) {
    forall i, j :: 0 <= i < j < |s| ==> s[i] <= s[j]
  }

  /** Every column of a frame's data has the frame's length. */
  ghost predicate SameLength(data: map<Column, seq<real>>, n: nat) {
    forall c :: c in data ==> |data[c]| == n
  }

  /** Sum of a column, accumulated from the left as pandas does. */
  function Sum(s: seq<real>): real
    decreases |s|
  {
    if |s| == 0 then 0.0 else Sum(s[..|s| - 1]) + s[|s| - 1]
  }

  /** `Series.mean()` of a non-empty column. */
  function Mean(s: seq<real>): real
    requires |s| > 0
  {
    Sum(s) / |s| as real
  }

  /** pandas' mean, which is NaN (None here) on an empty selection. */
  function MeanOrNaN(s: seq<real>): (r: Option<real>)
    ensures r.Some? <==> |s| > 0
  {
    if |s| == 0 then None else Some(Sum(s) / |s| as real)
  }

  /** Largest element of a non-empty column (`Series.max()`). */
  function Max(s: seq<real>): (m: real)
    requires |s| > 0
    ensures m in s
    ensures forall i :: 0 <= i < |s| ==> s[i] <= m
    decreases |s|
  {
    if |s| == 1 then s[0]
    else
      var m := Max(s[..|s| - 1]);
      if s[|s| - 1] > m then s[|s| - 1] else m
  }

  function Constant(n: nat, c: real): (s: seq<real>)
    ensures |s| == n && forall i :: 0 <= i < n ==> s[i] == c
  {
    seq(n, _ => c)
  }

  /** Element-wise deviation from a reference value. */
  function Dev(s: seq<real>, c: real): (d: seq<real>)
    ensures |d| == |s| && forall i :: 0 <= i < |s| ==> d[i] == s[i] - c
  {
    seq(|s|, i requires 0 <= i < |s| => s[i] - c)
  }

  /** Sum of element-wise products. */
  function Dot(a: seq<real>, b: seq<real>): real
    requires |a| == |b|
    decreases |a|
  {
    if |a| == 0 then 0.0 else Dot(a[..|a| - 1], b[..|b| - 1]) + a[|a| - 1] * b[|b| - 1]
  }

  /** Boolean row mask, the model of `df[mask]` / `df.loc[mask]`. */
  function Count(keep: seq<bool>): nat
    decreases |keep|
  {
    if |keep| == 0 then 0 else Count(keep[..|keep| - 1]) + (if keep[|keep| - 1] then 1 else 0)
  }

  /** The rows of a column that a mask keeps, in their original order. */
  function Where(s: seq<real>, keep: seq<bool>): (r: seq<real>)
    requires |s| == |keep|
    ensures |r| == Count(keep)
    decreases |s|
  {
    if |s| == 0 then []
    else Where(s[..|s| - 1], keep[..|s| - 1]) + (if keep[|s| - 1] then [s[|s| - 1]] else [])
  }

  /** Mask of the rows whose time lies strictly above `lo`. */
  function Above(t: seq<real>, lo: real): (m: seq<bool>)
    ensures |m| == |t| && forall i :: 0 <= i < |t| ==> (m[i] <==> t[i] > lo)
  {
    seq(|t|, i requires 0 <= i < |t| => t[i] > lo)
  }

  /** Mask of the rows whose time is at most `hi`. */
  function AtMost(t: seq<real>, hi: real): (m: seq<bool>)
    ensures |m| == |t| && forall i :: 0 <= i < |t| ==> (m[i] <==> t[i] <= hi)
  {
    seq(|t|, i requires 0 <= i < |t| => t[i] <= hi)
  }

  // ---------------------------------------------------------------------
  // Lemmas about sums and masks

  lemma {:induction false} SumAppend(a: seq<real>, b: seq<real>)
    ensures Sum(a + b) == Sum(a) + Sum(b)
    decreases |b|
  {
    if |b| > 0 {
      assert (a + b)[..|a + b| - 1] == a + b[..|b| - 1];
      SumAppend(a, b[..|b| - 1]);
    } else {
      assert a + b == a;
    }
  }

  /** Summing an affine image: Σ(m·t + c) = m·Σt + n·c. */
  lemma {:induction false} SumAffine(t: seq<real>, y: seq<real>, m: real, c: real)
    requires |t| == |y|
    requires forall i :: 0 <= i < |t| ==> y[i] == m * t[i] + c
    ensures Sum(y) == m * Sum(t) + (|t| as real) * c
    decreases |t|
  {
    if |t| > 0 {
      var n := |t| - 1;
      SumAffine(t[..n], y[..n], m, c);
      assert (n as real + 1.0) * c == n as real * c + c;
    }
  }

  /** Shifting every term by c shifts the sum by n·c. */
  lemma {:induction false} SumDev(s: seq<real>, c: real)
    ensures Sum(Dev(s, c)) == Sum(s) - (|s| as real) * c
    decreases |s|
  {
    if |s| > 0 {
      var n := |s| - 1;
      assert Dev(s, c)[..n] == Dev(s[..n], c);
      SumDev(s[..n], c);
      assert (n as real + 1.0) * c == n as real * c + c;
    }
  }

  /** Every term of a non-negative column is bounded by the column's sum. */
  lemma {:induction false} SumNonNegative(s: seq<real>, k: int)
    requires forall i :: 0 <= i < |s| ==> s[i] >= 0.0
    requires 0 <= k < |s|
    ensures Sum(s) >= s[k] >= 0.0
    decreases |s|
  {
    var n := |s| - 1;
    if k < n {
      SumNonNegative(s[..n], k);
    } else if n > 0 {
      SumNonNegative(s[..n], 0);
    }
  }

  function Scale(s: seq<real>, m: real): (r: seq<real>)
    ensures |r| == |s| && forall i :: 0 <= i < |s| ==> r[i] == m * s[i]
  {
    seq(|s|, i requires 0 <= i < |s| => m * s[i])
  }

  lemma {:induction false} DotScale(a: seq<real>, b: seq<real>, m: real)
    requires |a| == |b|
    ensures Dot(a, Scale(b, m)) == m * Dot(a, b)
    decreases |a|
  {
    if |a| > 0 {
      var n := |a| - 1;
      DotScale(a[..n], b[..n], m);
      assert forall i :: 0 <= i < n ==> Scale(b, m)[..n][i] == m * b[..n][i];
      assert Scale(b, m)[..n] == Scale(b[..n], m);
      assert a[n] * Scale(b, m)[n] == m * (a[n] * b[n]);
    }
  }

  /** A sum of squares is at least each of its squares. */
  lemma {:induction false} DotSelfAtLeastTerm(a: seq<real>, k: int)
    requires 0 <= k < |a|
    ensures Dot(a, a) >= a[k] * a[k]
    decreases |a|
  {
    var n := |a| - 1;
    if k < n {
      DotSelfAtLeastTerm(a[..n], k);
    } else if n > 0 {
      DotSelfAtLeastTerm(a[..n], 0);
    }
  }

  /** Each element of `Where(s, keep)` traces back to a kept row of `s`. */
  lemma {:induction false} WhereOrigin(s: seq<real>, keep: seq<bool>, j: int)
    requires |s| == |keep| && 0 <= j < Count(keep)
    ensures exists i :: 0 <= i < |s| && keep[i] && Where(s, keep)[j] == s[i]
    decreases |s|
  {
    var n := |s| - 1;
    var w := Where(s[..n], keep[..n]);
    if j < |w| {
      WhereOrigin(s[..n], keep[..n], j);
      var i :| 0 <= i < n && keep[..n][i] && w[j] == s[..n][i];
      assert keep[i] && Where(s, keep)[j] == s[i];
    } else {
      assert keep[n] && Where(s, keep)[j] == s[n];
    }
  }

  /** A mask applied to two columns keeps corresponding rows: an indexwise
      relation between the columns on the kept rows survives the filter. */
  lemma {:induction false} WhereAffine(t: seq<real>, y: seq<real>, keep: seq<bool>, m: real, c: real)
    requires |t| == |y| == |keep|
    requires forall i :: 0 <= i < |t| && keep[i] ==> y[i] == m * t[i] + c
    ensures forall j :: 0 <= j < Count(keep) ==> Where(y, keep)[j] == m * Where(t, keep)[j] + c
    decreases |t|
  {
    if |t| > 0 {
      var n := |t| - 1;
      WhereAffine(t[..n], y[..n], keep[..n], m, c);
    }
  }

  /** Two columns that agree on the kept rows filter to the same column. */
  lemma {:induction false} WhereAgree(s: seq<real>, u: seq<real>, keep: seq<bool>)
    requires |s| == |u| == |keep|
    requires forall i :: 0 <= i < |s| && keep[i] ==> s[i] == u[i]
    ensures Where(s, keep) == Where(u, keep)
    decreases |s|
  {
    if |s| > 0 {
      var n := |s| - 1;
      WhereAgree(s[..n], u[..n], keep[..n]);
    }
  }

  /** Filtering keeps a strictly increasing column strictly increasing. */
  lemma {:induction false} WhereIncreasing(s: seq<real>, keep: seq<bool>)
    requires |s| == |keep| && StrictlyIncreasing(s)
    ensures StrictlyIncreasing(Where(s, keep))
    decreases |s|
  {
    if |s| > 0 {
      var n := |s| - 1;
      var w := Where(s[..n], keep[..n]);
      WhereIncreasing(s[..n], keep[..n]);
      if keep[n] {
        forall j | 0 <= j < |w| ensures w[j] < s[n] {
          WhereOrigin(s[..n], keep[..n], j);
        }
      }
    }
  }

  /** Filtering with every row kept is the identity. */
  lemma {:induction false} WhereAll(s: seq<real>, keep: seq<bool>)
    requires |s| == |keep| && forall i :: 0 <= i < |keep| ==> keep[i]
    ensures Where(s, keep) == s
    decreases |s|
  {
    if |s| > 0 {
      WhereAll(s[..|s| - 1], keep[..|s| - 1]);
    }
  }

  /** A mask that keeps exactly the first `k` rows selects the prefix of length `k`. */
  lemma {:induction false} WherePrefix(s: seq<real>, keep: seq<bool>, k: nat)
    requires |s| == |keep| && k <= |s|
    requires forall i :: 0 <= i < |keep| ==> (keep[i] <==> i < k)
    ensures Where(s, keep) == s[..k]
    decreases |s|
  {
    if |s| > 0 {
      var n := |s| - 1;
      if k == |s| {
        WhereAll(s, keep);
      } else {
        WherePrefix(s[..n], keep[..n], k);
        assert s[..n][..k] == s[..k];
      }
    }
  }

  /** On a strictly increasing time column, the rows with `t <= hi` are a
      prefix of the series, so filtering keeps the first `Count` rows of
      every column and the kept rows keep their labels 0, 1, .... */
  lemma {:induction false} AtMostIsPrefix(t: seq<real>, s: seq<real>, hi: real)
    requires |t| == |s| && StrictlyIncreasing(t)
    ensures Count(AtMost(t, hi)) <= |t|
    ensures forall i :: 0 <= i < |t| ==> (t[i] <= hi <==> i < Count(AtMost(t, hi)))
    ensures Where(s, AtMost(t, hi)) == s[..Count(AtMost(t, hi))]
  {
    var m := AtMost(t, hi);
    assert Count(m) == |Where(t, m)|;
    AtMostSplit(t, hi);
    WherePrefix(s, m, Count(m));
  }

  lemma {:induction false} AtMostSplit(t: seq<real>, hi: real)
    requires StrictlyIncreasing(t)
    ensures Count(AtMost(t, hi)) <= |t|
    ensures forall i :: 0 <= i < |t| ==> (t[i] <= hi <==> i < Count(AtMost(t, hi)))
    decreases |t|
  {
    if |t| > 0 {
      var n := |t| - 1;
      var m := AtMost(t, hi);
      assert m[..n] == AtMost(t[..n], hi);
      AtMostSplit(t[..n], hi);
      if t[n] <= hi {
        assert forall i :: 0 <= i < n ==> t[i] <= hi;
      }
    }
  }

  // ---------------------------------------------------------------------
  // Normalising by a mean

  /** A column divided by a non-zero value (the normalised flux divides the
      flux by its steady-state mean). */
  function Normalise(s: seq<real>, d: real): (r: seq<real>)
    requires d != 0.0
    ensures |r| == |s| && forall i :: 0 <= i < |s| ==> r[i] == s[i] / d
  {
    seq(|s|, i requires 0 <= i < |s| => s[i] / d)
  }

  /** Dividing a column by the mean of its kept rows makes that mean 1. */
  lemma NormalisedMean(s: seq<real>, keep: seq<bool>, d: real)
    requires |s| == |keep| && Count(keep) > 0
    requires d != 0.0 && d == Mean(Where(s, keep))
    ensures Mean(Where(Normalise(s, d), keep)) == 1.0
  {
    WhereNormalise(s, keep, d);
    MeanNormalised(Where(s, keep), d);
  }

  lemma MeanNormalised(w: seq<real>, d: real)
    requires |w| > 0 && d != 0.0 && d == Mean(w)
    ensures Mean(Normalise(w, d)) == 1.0
  {
    SumNormalise(w, d);
    UnitRatio(Sum(Normalise(w, d)), Sum(w), |w| as real, d);
  }

  lemma {:induction false} WhereNormalise(s: seq<real>, keep: seq<bool>, d: real)
    requires |s| == |keep| && d != 0.0
    ensures Where(Normalise(s, d), keep) == Normalise(Where(s, keep), d)
    decreases |s|
  {
    if |s| > 0 {
      var n := |s| - 1;
      assert Normalise(s, d)[..n] == Normalise(s[..n], d);
      WhereNormalise(s[..n], keep[..n], d);
    }
  }

  lemma {:induction false} SumNormalise(s: seq<real>, d: real)
    requires d != 0.0
    ensures Sum(Normalise(s, d)) * d == Sum(s)
    decreases |s|
  {
    if |s| > 0 {
      var n := |s| - 1;
      assert Normalise(s, d)[..n] == Normalise(s[..n], d);
      SumNormalise(s[..n], d);
      var x, y := Sum(Normalise(s[..n], d)), Normalise(s, d)[n];
      assert (x + y) * d == x * d + y * d;
    }
  }

  // ---------------------------------------------------------------------
  // Arithmetic facts: one-step hints for the nonlinear steps above

  /** A product of two reals of the same strict sign is positive. The product
      is passed in as `r`: the solver reasons about a named product far more
      reliably than about the product term itself. */
  lemma ProductPositive(a: real, b: real, r: real)
    requires ((a > 0.0 && b > 0.0) || (a < 0.0 && b < 0.0)) && r == a * b
    ensures r > 0.0
  {
  }

  /** The square `r` of a non-zero real is positive. */
  lemma SquarePositive(x: real, r: real)
    requires x != 0.0 && r == x * x
    ensures r > 0.0
  {
    ProductPositive(x, x, r);
  }

  /** x·d = s and d = s/n give x/n = 1. */
  lemma UnitRatio(x: real, s: real, n: real, d: real)
    requires n > 0.0 && d != 0.0 && d == s / n && x * d == s
    ensures x / n == 1.0
  {
    assert d * n == s;
    assert d * (x - n) == 0.0;
    assert x == n;
  }

  /** A mean m with m·w = s is at most θ exactly when s is at most θ·w. */
  lemma MeanAtMost(m: real, w: real, s: real, threshold: real)
    requires w > 0.0 && m * w == s
    ensures m <= threshold <==> s <= threshold * w
  {
    if m <= threshold {
      assert (threshold - m) * w >= 0.0;
    } else {
      assert (m - threshold) * w > 0.0;
    }
  }
}
