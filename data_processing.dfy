/** The preprocessor and the stabilisation detector (src/data_processing.py):
    baseline correction of the CO2 reading, gauge to absolute pressure, ppm to
    flux, the running cumulative flux, and the search for the first time at
    which the relative change of a column's gradient has settled. */
module DataProcessing {
  import opened Common
  import opened Frames

  /** Atmospheric pressure added to a gauge reading, in bar. */
  const ATMOSPHERE: real := 1.01325
  /** Python's `math.pi`, the double closest to pi, written out in decimal. */
  const PI: real := 3.141592653589793
  /** Number of leading rows (labels 0 to 10 inclusive) averaged for the baseline. */
  const BASELINE_ROWS: nat := 11
  /** The one flux unit `calculate_flux` knows how to compute (as well as "None"). */
  const FLUX_UNIT: string := "cm^3 cm^-2 s^-1"

  /** The seven columns the preprocessor keeps, in this order. */
  const MAIN_COLUMNS: seq<Column> := [Time, Pressure, Temperature, Ppm, PpmBaseline, Flux, Cumulative]

  /** The main columns are seven different names. */
  lemma MainColumnsDistinct()
    ensures forall i, j :: 0 <= i < j < |MAIN_COLUMNS| ==> MAIN_COLUMNS[i] != MAIN_COLUMNS[j]
  {
  }

  function Abs(x: real): (r: real)
    ensures r >= 0.0 && (r == x || r == -x)
  {
    if x < 0.0 then -x else x
  }

  function Min(a: nat, b: nat): nat { if a < b then a else b }

  // ---------------------------------------------------------------------
  // Baseline correction

  /** The baseline: mean of the rows labelled 0 to 10 inclusive. That is
      eleven samples, or every sample of a shorter column; NaN (None) on an
      empty column. */
  function Baseline(ppm: seq<real>): (b: Option<real>)
    ensures b.Some? <==> |ppm| > 0
    ensures b.Some? ==> b.value * (Min(BASELINE_ROWS, |ppm|) as real) == Sum(ppm[..Min(BASELINE_ROWS, |ppm|)])
  {
    MeanOrNaN(ppm[..Min(BASELINE_ROWS, |ppm|)])
  }

  /** `correct_baseline`: the concentration column minus a constant; a
      KeyError when the frame has no concentration column. */
  function CorrectBaseline(data: map<Column, seq<real>>, baseline: real): (r: Result<seq<real>, Error>)
    ensures Ppm !in data ==> r == Failure(KeyError(Ppm))
    ensures Ppm in data ==> r.Success? && |r.value| == |data[Ppm]|
    ensures r.Success? ==> forall i :: 0 <= i < |r.value| ==> r.value[i] + baseline == data[Ppm][i]
  {
    if Ppm !in data then Failure(KeyError(Ppm)) else Success(Dev(data[Ppm], baseline))
  }

  /** Subtracting the baseline computed from the first rows leaves those rows
      with mean zero: the correction calibrates the detector's zero. */
  lemma BaselineWindowMeanZero(ppm: seq<real>)
    requires |ppm| > 0
    ensures Sum(Dev(ppm, Baseline(ppm).value)[..Min(BASELINE_ROWS, |ppm|)]) == 0.0
  {
    var k := Min(BASELINE_ROWS, |ppm|);
    var b := Baseline(ppm).value;
    var w := ppm[..k];
    assert Dev(ppm, b)[..k] == Dev(w, b);
    SumDev(w, b);
  }

  // ---------------------------------------------------------------------
  // Pressure

  /** Absolute pressure of each row from its gauge reading. The gauge reading
      is recovered exactly by subtracting the atmosphere again. */
  function AbsolutePressure(gauge: seq<real>): (p: seq<real>)
    ensures |p| == |gauge|
    ensures forall i :: 0 <= i < |p| ==> p[i] - ATMOSPHERE == gauge[i]
  {
    seq(|gauge|, i requires 0 <= i < |gauge| => gauge[i] + ATMOSPHERE)
  }

  /** `calculate_pressure`: a KeyError without the gauge column. */
  function CalculatePressure(data: map<Column, seq<real>>): (r: Result<seq<real>, Error>)
    ensures Gauge !in data <==> r == Failure(KeyError(Gauge))
    ensures r.Success? ==> r.value == AbsolutePressure(data[Gauge])
  {
    if Gauge !in data then Failure(KeyError(Gauge)) else Success(AbsolutePressure(data[Gauge]))
  }

  /** An absolute pressure exceeds its gauge reading, row by row, and the
      conversion keeps the order of readings. */
  lemma AbsolutePressureMonotone(gauge: seq<real>, i: int, j: int)
    requires 0 <= i < |gauge| && 0 <= j < |gauge| && gauge[i] <= gauge[j]
    ensures AbsolutePressure(gauge)[i] <= AbsolutePressure(gauge)[j]
    ensures AbsolutePressure(gauge)[i] > gauge[i]
  {
  }

  // ---------------------------------------------------------------------
  // Flux

  /** Area of the membrane disc, pi d^2 / 4, in cm^2. */
  function DiscArea(d: real): (a: real)
    requires d != 0.0
    ensures a > 0.0
    ensures 4.0 * a == PI * (d * d)
  {
    SquarePositive(d, d * d);
    PI * (d * d) / 4.0
  }

  /** ppm to flux: (q / 60) * (bl * 1e-6) / A per row, with q in ml/min. Each
      flux times area gives back the CO2 volume rate q * bl * 1e-6 / 60. */
  function FluxOf(q: seq<real>, bl: seq<real>, d: real): (f: seq<real>)
    requires |q| == |bl| && d != 0.0
    ensures |f| == |bl|
    ensures forall i :: 0 <= i < |f| ==> f[i] * DiscArea(d) * 60.0 * 1000000.0 == q[i] * bl[i]
  {
    var a := DiscArea(d);
    seq(|bl|, i requires 0 <= i < |bl| => (q[i] / 60.0) * (bl[i] * 0.000001) / a)
  }

  /** Non-negative flow and corrected concentration give non-negative flux. */
  lemma FluxNonNegative(q: seq<real>, bl: seq<real>, d: real)
    requires |q| == |bl| && d != 0.0
    requires forall i :: 0 <= i < |q| ==> q[i] >= 0.0 && bl[i] >= 0.0
    ensures forall i :: 0 <= i < |bl| ==> FluxOf(q, bl, d)[i] >= 0.0
  {
    var f := FluxOf(q, bl, d);
    var a := DiscArea(d);
    forall i | 0 <= i < |bl| ensures f[i] >= 0.0 {
      assert f[i] * (a * 60.0 * 1000000.0) == q[i] * bl[i];
      assert q[i] * bl[i] >= 0.0;
    }
  }

  /** The flow-rate column `calculate_flux` uses: the explicit rate broadcast
      to every row when one is given, else the frame's own column. */
  function FlowColumn(data: map<Column, seq<real>>, n: nat, q: Option<real>): (r: Result<seq<real>, Error>)
    requires forall c :: c in data ==> |data[c]| == n
    ensures q.Some? ==> r == Success(Constant(n, q.value))
    ensures q.None? && FlowRate !in data ==> r == Failure(MissingColumn(FlowRate))
    ensures q.None? && FlowRate in data ==> r == Success(data[FlowRate])
    ensures r.Success? ==> |r.value| == n
  {
    if q.Some? then Success(Constant(n, q.value))
    else if FlowRate !in data then Failure(MissingColumn(FlowRate))
    else Success(data[FlowRate])
  }

  /** `calculate_flux`: a ValueError without the baseline-corrected column, or
      when neither an explicit flow rate nor a flow-rate column is available.
      For a unit other than the known one it computes nothing and hands back
      the frame's existing flux column (a KeyError if there is none). */
  function CalculateFlux(data: map<Column, seq<real>>, n: nat, d: real, q: Option<real>, unit: string): (r: Result<seq<real>, Error>)
    requires forall c :: c in data ==> |data[c]| == n
    requires d != 0.0
    ensures PpmBaseline !in data ==> r == Failure(MissingColumn(PpmBaseline))
    ensures PpmBaseline in data && q.None? && FlowRate !in data ==> r == Failure(MissingColumn(FlowRate))
    ensures (PpmBaseline in data && FlowColumn(data, n, q).Success? && (unit == FLUX_UNIT || unit == "None"))
              ==> r == Success(FluxOf(FlowColumn(data, n, q).value, data[PpmBaseline], d))
    ensures (PpmBaseline in data && FlowColumn(data, n, q).Success? && unit != FLUX_UNIT && unit != "None")
              ==> r == (if Flux in data then Success(data[Flux]) else Failure(KeyError(Flux)))
    ensures r.Success? ==> |r.value| == n
  {
    if PpmBaseline !in data then Failure(MissingColumn(PpmBaseline))
    else
      var qs :- FlowColumn(data, n, q);
      if unit == FLUX_UNIT || unit == "None" then Success(FluxOf(qs, data[PpmBaseline], d))
      else if Flux in data then Success(data[Flux])
      else Failure(KeyError(Flux))
  }

  /** An explicit flow rate overrides the frame's flow-rate column. */
  lemma ExplicitFlowOverrides(data: map<Column, seq<real>>, n: nat, d: real, q: real)
    requires forall c :: c in data ==> |data[c]| == n
    requires d != 0.0 && PpmBaseline in data
    ensures CalculateFlux(data, n, d, Some(q), FLUX_UNIT) == Success(FluxOf(Constant(n, q), data[PpmBaseline], d))
  {
  }

  // ---------------------------------------------------------------------
  // Cumulative flux

  /** The per-row increments `flux * t.diff().fillna(0)`: zero on the first
      row, flux[i] * (t[i] - t[i-1]) after it (the right-hand flux). */
  function Increments(f: seq<real>, t: seq<real>): (inc: seq<real>)
    requires |f| == |t|
    ensures |inc| == |f|
    ensures |f| > 0 ==> inc[0] == 0.0
    ensures forall i :: 0 < i < |f| ==> inc[i] == f[i] * (t[i] - t[i - 1])
  {
    seq(|f|, i requires 0 <= i < |f| => if i == 0 then 0.0 else f[i] * (t[i] - t[i - 1]))
  }

  /** The cumulative flux column: running sums of the increments. */
  function CumulativeFlux(f: seq<real>, t: seq<real>): (cum: seq<real>)
    requires |f| == |t|
    ensures |cum| == |f|
    ensures |f| > 0 ==> cum[0] == 0.0
    ensures forall i :: 0 < i < |f| ==> cum[i] == cum[i - 1] + f[i] * (t[i] - t[i - 1])
  {
    var inc := Increments(f, t);
    var cum := seq(|f|, i requires 0 <= i < |f| => Sum(inc[..i + 1]));
    assert |f| > 0 ==> inc[..1][..0] == [] && Sum(inc[..1]) == inc[0];
    assert forall i :: 0 < i < |f| ==> inc[..i + 1][..i] == inc[..i];
    cum
  }

  /** With non-negative flux and non-decreasing times the cumulative flux
      never decreases. */
  lemma {:induction false} CumulativeNonDecreasing(f: seq<real>, t: seq<real>)
    requires |f| == |t| && NonDecreasing(t)
    requires forall i :: 0 <= i < |f| ==> f[i] >= 0.0
    ensures NonDecreasing(CumulativeFlux(f, t))
  {
    var cum := CumulativeFlux(f, t);
    forall i | 0 < i < |f| ensures cum[i - 1] <= cum[i] {
      assert f[i] * (t[i] - t[i - 1]) >= 0.0;
    }
    forall i, j | 0 <= i < j < |cum| ensures cum[i] <= cum[j] {
      StepsAccumulate(cum, i, j);
    }
  }

  lemma {:induction false} StepsAccumulate(s: seq<real>, i: int, j: int)
    requires 0 <= i <= j < |s|
    requires forall k :: 0 < k < |s| ==> s[k - 1] <= s[k]
    ensures s[i] <= s[j]
    decreases j - i
  {
    if i < j {
      StepsAccumulate(s, i, j - 1);
    }
  }

  /** A constant flux c accumulates to c times the elapsed time. */
  lemma {:induction false} CumulativeConstantFlux(f: seq<real>, t: seq<real>, c: real, k: int)
    requires |f| == |t| && 0 <= k < |f|
    requires forall i :: 0 <= i < |f| ==> f[i] == c
    ensures CumulativeFlux(f, t)[k] == c * (t[k] - t[0])
    decreases k
  {
    if k > 0 {
      CumulativeConstantFlux(f, t, c, k - 1);
      assert c * (t[k - 1] - t[0]) + c * (t[k] - t[k - 1]) == c * (t[k] - t[0]);
    }
  }

  /** `calculate_cumulative_flux`: computes the running sum and writes it
      into the caller's frame as a new (or replaced) column; a KeyError when
      the frame lacks the flux or the time column. */
  method CalculateCumulativeFlux(df: DataFrame) returns (r: Result<seq<real>, Error>)
    requires df.Valid()
    modifies df
    ensures df.Valid() && df.length == old(df.length)
    ensures Flux !in old(df.data) ==> r == Failure(KeyError(Flux)) && df.data == old(df.data) && df.columns == old(df.columns)
    ensures (Flux in old(df.data) && Time !in old(df.data))
              ==> r == Failure(KeyError(Time)) && df.data == old(df.data) && df.columns == old(df.columns)
    ensures (Flux in old(df.data) && Time in old(df.data)) ==>
              && r == Success(CumulativeFlux(old(df.data)[Flux], old(df.data)[Time]))
              && df.data == old(df.data)[Cumulative := r.value]
              && df.columns == (if Cumulative in old(df.columns) then old(df.columns) else old(df.columns) + [Cumulative])
  {
    if Flux !in df.data {
      return Failure(KeyError(Flux));
    }
    if Time !in df.data {
      return Failure(KeyError(Time));
    }
    var f, t := df.data[Flux], df.data[Time];
    var cum := CumSum(Increments(f, t));
    assert cum == CumulativeFlux(f, t);
    df.SetColumn(Cumulative, cum);
    r := Success(cum);
  }

  /** `Series.cumsum()`: entry k is the sum of the first k + 1 entries. */
  method CumSum(inc: seq<real>) returns (cum: seq<real>)
    ensures |cum| == |inc|
    ensures forall k :: 0 <= k < |inc| ==> cum[k] == Sum(inc[..k + 1])
  {
    cum := [];
    var acc := 0.0;
    var i := 0;
    while i < |inc|
      invariant 0 <= i <= |inc| && |cum| == i
      invariant acc == Sum(inc[..i])
      invariant forall k :: 0 <= k < i ==> cum[k] == Sum(inc[..k + 1])
    {
      acc := acc + inc[i];
      assert inc[..i + 1][..i] == inc[..i];
      cum := cum + [acc];
      i := i + 1;
    }
  }

  // ---------------------------------------------------------------------
  // Stabilisation detector

  /** `df[column].diff() / df['t / s'].diff()`: undefined on the first row. */
  function Gradient(y: seq<real>, t: seq<real>): (g: seq<Option<real>>)
    requires |y| == |t| && StrictlyIncreasing(t)
    ensures |g| == |y|
    ensures |g| > 0 ==> g[0] == None
    ensures forall i :: 0 < i < |g| ==> g[i].Some? && g[i].value * (t[i] - t[i - 1]) == y[i] - y[i - 1]
  {
    assert forall i :: 0 < i < |t| ==> t[i - 1] < t[i];
    seq(|y|, i requires 0 <= i < |y| => if i == 0 then None else Some((y[i] - y[i - 1]) / (t[i] - t[i - 1])))
  }

  /** One term of `.pct_change().abs()`: |cur / prev - 1|, the size of the
      change relative to the previous value. Undefined (None) where pandas
      has NaN or an infinity: either value undefined, or a zero previous value. */
  function Change(prev: Option<real>, cur: Option<real>): (r: Option<real>)
    ensures r.Some? <==> prev.Some? && cur.Some? && prev.value != 0.0
    ensures r.Some? ==> r.value >= 0.0 && r.value * Abs(prev.value) == Abs(cur.value - prev.value)
  {
    if prev.Some? && cur.Some? && prev.value != 0.0 then
      var p, c := prev.value, cur.value;
      var x := c / p - 1.0;
      assert x * p == c - p;
      assert Abs(x) * Abs(p) == Abs(c - p) by {
        if x >= 0.0 && p >= 0.0 {} else if x >= 0.0 {} else if p >= 0.0 {} else {}
      }
      Some(Abs(x))
    else None
  }

  /** `.pct_change().abs()` of the gradient, row by row; the first row has no
      predecessor and is undefined. */
  function RelativeChange(g: seq<Option<real>>): (pc: seq<Option<real>>)
    ensures |pc| == |g|
    ensures |g| > 0 ==> pc[0] == None
    ensures forall i :: 0 < i < |g| ==> pc[i] == Change(g[i - 1], g[i])
  {
    seq(|g|, i requires 0 <= i < |g| => if i == 0 then None else Change(g[i - 1], g[i]))
  }

  ghost predicate AllDefined(w: seq<Option<real>>) {
    forall k :: 0 <= k < |w| ==> w[k].Some?
  }

  function Values(w: seq<Option<real>>): (v: seq<real>)
    requires AllDefined(w)
    ensures |v| == |w| && forall k :: 0 <= k < |w| ==> v[k] == w[k].value
  {
    seq(|w|, k requires 0 <= k < |w| && AllDefined(w) => w[k].value)
  }

  /** `.rolling(window=W).mean()` at row i: the mean of the W terms ending at
      row i, defined only when all W of them are defined (pandas' default
      minimum of W observations). */
  function RollingMean(pc: seq<Option<real>>, i: nat, w: nat): (m: Option<real>)
    requires i < |pc|
    ensures m.Some? <==> w > 0 && i + 1 >= w && AllDefined(pc[i + 1 - w..i + 1])
    ensures m.Some? ==> m.value * (w as real) == Sum(Values(pc[i + 1 - w..i + 1]))
  {
    if w == 0 || i + 1 < w then None
    else
      var win := pc[i + 1 - w..i + 1];
      if forall k :: 0 <= k < |win| ==> win[k].Some? then Some(Sum(Values(win)) / w as real) else None
  }

  /** Row i passes the gate: its rolling mean is defined and at most the
      threshold, that is, the W trailing terms are all defined and sum to at
      most W times the threshold. Only the mean is gated. */
  function Passes(pc: seq<Option<real>>, i: nat, w: nat, threshold: real): (b: bool)
    requires i < |pc|
    ensures b <==> w > 0 && i + 1 >= w && AllDefined(pc[i + 1 - w..i + 1])
                   && Sum(Values(pc[i + 1 - w..i + 1])) <= threshold * (w as real)
  {
    var m := RollingMean(pc, i, w);
    if m.Some? then
      MeanAtMost(m.value, w as real, Sum(Values(pc[i + 1 - w..i + 1])), threshold);
      m.value <= threshold
    else false
  }

  /** The least row at or after `from` that passes the gate, if any. */
  function FirstQualifying(pc: seq<Option<real>>, w: nat, threshold: real, from: nat): (r: Option<nat>)
    requires from <= |pc|
    ensures r.Some? ==> from <= r.value < |pc| && Passes(pc, r.value, w, threshold)
    ensures r.Some? ==> forall j :: from <= j < r.value ==> !Passes(pc, j, w, threshold)
    ensures r.None? ==> forall j :: from <= j < |pc| ==> !Passes(pc, j, w, threshold)
    decreases |pc| - from
  {
    if from == |pc| then None
    else if Passes(pc, from, w, threshold) then Some(from)
    else FirstQualifying(pc, w, threshold, from + 1)
  }

  /** The relative-change terms the detector gates on. */
  function Changes(y: seq<real>, t: seq<real>): (pc: seq<Option<real>>)
    requires |y| == |t| && StrictlyIncreasing(t)
    ensures |pc| == |y|
  {
    RelativeChange(Gradient(y, t))
  }

  /** The detector on columns: the time of the first row that passes the
      gate; the IndexError of `.index[0]` when no row does (no default time
      is substituted). */
  function StabilisationTime(y: seq<real>, t: seq<real>, w: nat, threshold: real): (r: Result<real, Error>)
    requires |y| == |t| && StrictlyIncreasing(t)
    ensures r.Success? <==> exists i :: 0 <= i < |t| && Passes(Changes(y, t), i, w, threshold)
    ensures r.Failure? ==> r.error == NoIndex
    ensures r.Success? ==> exists i :: 0 <= i < |t| && r.value == t[i]
                                       && Passes(Changes(y, t), i, w, threshold)
                                       && forall j :: 0 <= j < i ==> !Passes(Changes(y, t), j, w, threshold)
  {
    match FirstQualifying(Changes(y, t), w, threshold, 0)
    case None => Failure(NoIndex)
    case Some(i) => Success(t[i])
  }

  /** No row before W + 1 can pass: the first two relative changes are
      undefined and the window needs W defined terms. */
  lemma NoEarlyStabilisation(y: seq<real>, t: seq<real>, w: nat, threshold: real, i: nat)
    requires |y| == |t| && StrictlyIncreasing(t) && i < |t|
    requires Passes(Changes(y, t), i, w, threshold)
    ensures i >= w + 1
  {
    var g := Gradient(y, t);
    var pc := Changes(y, t);
    var start := i + 1 - w;
    var win := pc[start..i + 1];
    assert win[0] == pc[start] && pc[start].Some?;
    assert start != 0;
    assert g[0] == None && start != 1;
  }

  /** `identify_stabilisation_time`: a ValueError when the target column or
      the time column is missing, otherwise the detector on those columns. */
  function IdentifyStabilisationTime(data: map<Column, seq<real>>, column: Column, w: nat, threshold: real): (r: Result<real, Error>)
    requires column in data && Time in data ==> |data[column]| == |data[Time]| && StrictlyIncreasing(data[Time])
    ensures column !in data ==> r == Failure(MissingColumn(column))
    ensures column in data && Time !in data ==> r == Failure(MissingColumn(Time))
    ensures column in data && Time in data ==> r == StabilisationTime(data[column], data[Time], w, threshold)
  {
    if column !in data then Failure(MissingColumn(column))
    else if Time !in data then Failure(MissingColumn(Time))
    else StabilisationTime(data[column], data[Time], w, threshold)
  }

  // ---------------------------------------------------------------------
  // The whole preprocessor

  /** The first failure of `preprocess_data`, in the order the source meets
      them: no concentration column (ValueError), no gauge column (KeyError in
      `calculate_pressure`), no flow rate at all (ValueError in
      `calculate_flux`), no time column (KeyError in the cumulative sum), no
      temperature column (KeyError when the main columns are selected). */
  function PreprocessError(data: map<Column, seq<real>>, q: Option<real>): (e: Option<Error>)
    ensures e.None? <==> Ppm in data && Gauge in data && (q.Some? || FlowRate in data) && Time in data && Temperature in data
  {
    if Ppm !in data then Some(MissingColumn(Ppm))
    else if Gauge !in data then Some(KeyError(Gauge))
    else if q.None? && FlowRate !in data then Some(MissingColumn(FlowRate))
    else if Time !in data then Some(KeyError(Time))
    else if Temperature !in data then Some(KeyError(Temperature))
    else None
  }

  /** The baseline-corrected column (empty for an empty frame, where the
      baseline itself is NaN). */
  function CorrectedPpm(ppm: seq<real>): (bl: seq<real>)
    ensures |bl| == |ppm|
    ensures |ppm| > 0 ==> forall i :: 0 <= i < |ppm| ==> bl[i] == ppm[i] - Baseline(ppm).value
  {
    match Baseline(ppm)
    case None => []
    case Some(b) => Dev(ppm, b)
  }

  /** The flow-rate column as `calculate_flux` sees it inside the preprocessor. */
  function FlowRates(data: map<Column, seq<real>>, n: nat, q: Option<real>): (qs: seq<real>)
    requires q.Some? || FlowRate in data
    requires FlowRate in data ==> |data[FlowRate]| == n
    ensures |qs| == n
  {
    if q.Some? then Constant(n, q.value) else data[FlowRate]
  }

  /** The frame `preprocess_data` returns: the seven main columns, four of
      them computed from the input. */
  function Preprocessed(data: map<Column, seq<real>>, n: nat, d: real, q: Option<real>): (out: map<Column, seq<real>>)
    requires d != 0.0
    requires PreprocessError(data, q).None?
    requires forall c :: c in data ==> |data[c]| == n
    ensures forall c :: c in out <==> c in MAIN_COLUMNS
    ensures forall c :: c in out ==> |out[c]| == n
    ensures out[Time] == data[Time] && out[Temperature] == data[Temperature] && out[Ppm] == data[Ppm]
    ensures out[PpmBaseline] == CorrectedPpm(data[Ppm])
    ensures out[Pressure] == AbsolutePressure(data[Gauge])
    ensures out[Flux] == FluxOf(FlowRates(data, n, q), out[PpmBaseline], d)
    ensures out[Cumulative] == CumulativeFlux(out[Flux], out[Time])
  {
    var bl := CorrectedPpm(data[Ppm]);
    var f := FluxOf(FlowRates(data, n, q), bl, d);
    Main(data, n, AbsolutePressure(data[Gauge]), bl, f, CumulativeFlux(f, data[Time]))
  }

  /** The main columns, given the four computed ones. */
  function Main(data: map<Column, seq<real>>, n: nat, pressure: seq<real>, bl: seq<real>, flux: seq<real>, cum: seq<real>): (out: map<Column, seq<real>>)
    requires Time in data && Temperature in data && Ppm in data
    requires |data[Time]| == |data[Temperature]| == |data[Ppm]| == n
    requires |pressure| == |bl| == |flux| == |cum| == n
    ensures forall c :: c in out <==> c in MAIN_COLUMNS
    ensures forall c :: c in out ==> |out[c]| == n
    ensures out[Time] == data[Time] && out[Temperature] == data[Temperature] && out[Ppm] == data[Ppm]
    ensures out[Pressure] == pressure && out[PpmBaseline] == bl && out[Flux] == flux && out[Cumulative] == cum
  {
    map[Time := data[Time], Pressure := pressure, Temperature := data[Temperature], Ppm := data[Ppm],
        PpmBaseline := bl, Flux := flux, Cumulative := cum]
  }

  /** Selecting the main columns after the four writes gives Main. */
  lemma SelectMain(data: map<Column, seq<real>>, n: nat, pressure: seq<real>, bl: seq<real>, flux: seq<real>, cum: seq<real>)
    requires Time in data && Temperature in data && Ppm in data
    requires |data[Time]| == |data[Temperature]| == |data[Ppm]| == n
    requires |pressure| == |bl| == |flux| == |cum| == n
    ensures var m := data[PpmBaseline := bl][Pressure := pressure][Flux := flux][Cumulative := cum];
            (map c | c in MAIN_COLUMNS :: m[c]) == Main(data, n, pressure, bl, flux, cum)
  {
  }

  /** `m[k := v]` written twice is written once. */
  lemma UpdateTwice(m: map<Column, seq<real>>, k: Column, v: seq<real>)
    ensures m[k := v][k := v] == m[k := v]
  {
  }

  /** The first two steps on the working copy: the baseline-corrected column,
      then the absolute pressure (a KeyError without the gauge column). */
  method AddCorrectedAndPressure(work: DataFrame) returns (e: Option<Error>)
    requires work.Valid() && Ppm in work.data
    modifies work
    ensures work.Valid() && work.length == old(work.length)
    ensures e.Some? <==> Gauge !in old(work.data)
    ensures e.Some? ==> e.value == KeyError(Gauge)
    ensures e.None? ==> work.data == old(work.data)[PpmBaseline := CorrectedPpm(old(work.data)[Ppm])]
                                                   [Pressure := AbsolutePressure(old(work.data)[Gauge])]
  {
    ghost var d0 := work.data;
    var baseline := Baseline(work.data[Ppm]);
    var bl: seq<real>;
    match baseline {
      case None =>
        bl := [];
      case Some(b) =>
        var corrected := CorrectBaseline(work.data, b);
        bl := corrected.value;
    }
    assert bl == CorrectedPpm(d0[Ppm]);
    work.SetColumn(PpmBaseline, bl);
    var pressure := CalculatePressure(work.data);
    if pressure.Failure? {
      return Some(pressure.error);
    }
    work.SetColumn(Pressure, pressure.value);
    e := None;
  }

  /** The last two steps on the working copy: the flux (a ValueError without
      any flow rate), then the cumulative flux written in place (a KeyError
      without the time column). */
  method AddFluxAndCumulative(work: DataFrame, d: real, q: Option<real>) returns (e: Option<Error>)
    requires work.Valid() && d != 0.0 && PpmBaseline in work.data
    modifies work
    ensures work.Valid() && work.length == old(work.length)
    ensures e.Some? <==> (q.None? && FlowRate !in old(work.data)) || Time !in old(work.data)
    ensures e.Some? ==> e.value == if q.None? && FlowRate !in old(work.data) then MissingColumn(FlowRate) else KeyError(Time)
    ensures e.None? ==>
              var f := FluxOf(FlowRates(old(work.data), old(work.length), q), old(work.data)[PpmBaseline], d);
              work.data == old(work.data)[Flux := f][Cumulative := CumulativeFlux(f, old(work.data)[Time])]
  {
    ghost var d0 := work.data;
    ghost var n := work.length;
    var flux := CalculateFlux(work.data, work.length, d, q, FLUX_UNIT);
    if flux.Failure? {
      return Some(flux.error);
    }
    ghost var f := FluxOf(FlowRates(d0, n, q), d0[PpmBaseline], d);
    assert flux.value == f;
    work.SetColumn(Flux, flux.value);
    ghost var d1 := work.data;
    assert d1[Flux] == f && (Time in d0 ==> d1[Time] == d0[Time]);
    var cum := CalculateCumulativeFlux(work);
    if cum.Failure? {
      return Some(cum.error);
    }
    assert cum.value == CumulativeFlux(d1[Flux], d1[Time]);
    work.SetColumn(Cumulative, cum.value);
    UpdateTwice(d1, Cumulative, cum.value);
    e := None;
  }

  /** Selecting the main columns of the finished working copy gives the
      preprocessed frame. */
  lemma SelectedIsPreprocessed(d0: map<Column, seq<real>>, n: nat, d: real, q: Option<real>, m: map<Column, seq<real>>)
    requires d != 0.0
    requires PreprocessError(d0, q).None?
    requires forall k :: k in d0 ==> |d0[k]| == n
    requires var d1 := d0[PpmBaseline := CorrectedPpm(d0[Ppm])][Pressure := AbsolutePressure(d0[Gauge])];
             var f := FluxOf(FlowRates(d1, n, q), d1[PpmBaseline], d);
             m == d1[Flux := f][Cumulative := CumulativeFlux(f, d1[Time])]
    ensures forall c :: c in MAIN_COLUMNS ==> c in m
    ensures (map c | c in MAIN_COLUMNS :: m[c]) == Preprocessed(d0, n, d, q)
  {
    var d1 := d0[PpmBaseline := CorrectedPpm(d0[Ppm])][Pressure := AbsolutePressure(d0[Gauge])];
    assert FlowRates(d1, n, q) == FlowRates(d0, n, q);
    assert d1[Time] == d0[Time];
    var f := FluxOf(FlowRates(d0, n, q), CorrectedPpm(d0[Ppm]), d);
    SelectMain(d0, n, AbsolutePressure(d0[Gauge]), CorrectedPpm(d0[Ppm]), f, CumulativeFlux(f, d0[Time]));
  }

  /** When only the temperature column is missing, it is the name the final
      selection reports. */
  lemma OnlyTemperatureMissing(d0: map<Column, seq<real>>, m: map<Column, seq<real>>)
    requires Ppm in d0 && Time in d0 && Temperature !in d0
    requires m.Keys == d0.Keys + {PpmBaseline, Pressure, Flux, Cumulative}
    ensures FirstMissing(MAIN_COLUMNS, m) == Some(Temperature)
  {
    assert Temperature !in m && Temperature == MAIN_COLUMNS[2];
    assert forall c :: c in MAIN_COLUMNS && c != Temperature ==> c in m;
  }

  /** `preprocess_data`: works on a copy (the caller's frame is not in the
      modifies clause, so it is left as it was) and returns a new frame with
      exactly the seven main columns, in order, of the input's length. */
  method PreprocessData(df: DataFrame, d: real, q: Option<real>) returns (r: Result<DataFrame, Error>)
    requires df.Valid() && d != 0.0
    ensures r.Failure? <==> PreprocessError(df.data, q).Some?
    ensures r.Failure? ==> r.error == PreprocessError(df.data, q).value
    ensures r.Success? ==> && fresh(r.value) && r.value.Valid()
                           && r.value.columns == MAIN_COLUMNS
                           && r.value.length == df.length
                           && r.value.data == Preprocessed(df.data, df.length, d, q)
  {
    var work := df.Copy();
    if Ppm !in work.data {
      return Failure(MissingColumn(Ppm));
    }
    var e := AddCorrectedAndPressure(work);
    if e.Some? {
      return Failure(e.value);
    }
    e := AddFluxAndCumulative(work, d, q);
    if e.Some? {
      return Failure(e.value);
    }
    if Temperature !in df.data {
      assert work.data.Keys == df.data.Keys + {PpmBaseline, Pressure, Flux, Cumulative};
      OnlyTemperatureMissing(df.data, work.data);
    } else {
      SelectedIsPreprocessed(df.data, df.length, d, q, work.data);
    }
    MainColumnsDistinct();
    r := SelectColumns(work, MAIN_COLUMNS);
  }
}
