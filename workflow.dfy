/** The selection and wiring part of `time_lag_analysis_workflow`: after the
    raw frame has been preprocessed, the workflow checks the override range,
    chooses the stabilisation time and the end of the series, caps the series
    there, averages the steady-state flux, normalises the flux by it, runs the
    time-lag analysis on the capped frame, averages the temperature after the
    stabilisation row, and hands the fitted D and C_eq = S·pressure to the
    finite-difference solver. Frames are assumed to carry the default index,
    so a row label is a row position of the uncapped frame. */
module Workflow {
  import opened Common
  import opened Frames
  import opened DataProcessing
  import opened Calculations

  /** Window and threshold the workflow passes to the detector. */
  const WINDOW: nat := 70
  const THRESHOLD: real := 0.003
  /** Time step of the simulation and number of grid intervals across L. */
  const DT: real := 1.0
  const SEGMENTS: real := 50.0

  // ---------------------------------------------------------------------
  // Choosing the window

  /** A ValueError when both overrides are given and the start is not
      before the end; no check is made when only one of them is given. */
  function RangeError(start: Option<real>, end: Option<real>): (e: Option<Error>)
    ensures e.Some? <==> start.Some? && end.Some? && start.value >= end.value
    ensures e.Some? ==> e.value == InvalidRange
  {
    if start.Some? && end.Some? && start.value >= end.value then Some(InvalidRange) else None
  }

  /** The stabilisation time: the override start if there is one, otherwise
      the detector on the cumulative flux with window 70 and threshold 0.003. */
  function StartTime(data: map<Column, seq<real>>, start: Option<real>): (r: Result<real, Error>)
    requires Cumulative in data && Time in data ==> |data[Cumulative]| == |data[Time]| && StrictlyIncreasing(data[Time])
    ensures start.Some? ==> r == Success(start.value)
    ensures start.None? ==> r == IdentifyStabilisationTime(data, Cumulative, WINDOW, THRESHOLD)
  {
    if start.Some? then Success(start.value)
    else IdentifyStabilisationTime(data, Cumulative, WINDOW, THRESHOLD)
  }

  /** The end of the series: the override end if there is one, otherwise
      the largest time. */
  function EndTime(t: seq<real>, end: Option<real>): (m: real)
    requires end.Some? || |t| > 0
    ensures end.Some? ==> m == end.value
    ensures end.None? ==> m in t && forall i :: 0 <= i < |t| ==> t[i] <= m
  {
    if end.Some? then end.value else Max(t)
  }

  /** `df.loc[df['t / s'] >= ts].index[0]`: the first row whose time is at
      least ts; the IndexError of `.index[0]` when there is none. */
  function FirstAtOrAfter(t: seq<real>, ts: real): (r: Result<nat, Error>)
    ensures r.Success? <==> exists i :: 0 <= i < |t| && t[i] >= ts
    ensures r.Failure? ==> r.error == NoIndex
    ensures r.Success? ==> r.value < |t| && t[r.value] >= ts && forall j :: 0 <= j < r.value ==> t[j] < ts
  {
    FirstFrom(t, ts, 0)
  }

  /** The search of FirstAtOrAfter from row `from` on, all earlier rows
      being below ts. */
  function FirstFrom(t: seq<real>, ts: real, from: nat): (r: Result<nat, Error>)
    requires from <= |t| && forall j :: 0 <= j < from ==> t[j] < ts
    ensures r.Success? <==> exists i :: 0 <= i < |t| && t[i] >= ts
    ensures r.Failure? ==> r.error == NoIndex
    ensures r.Success? ==> from <= r.value < |t| && t[r.value] >= ts && forall j :: 0 <= j < r.value ==> t[j] < ts
    decreases |t| - from
  {
    if from == |t| then Failure(NoIndex)
    else if t[from] >= ts then Success(from)
    else FirstFrom(t, ts, from + 1)
  }

  /** What the workflow settles before it caps the series: the stabilisation
      time, the end of the series and the stabilisation row. */
  datatype Window = Window(start: real, maxTime: real, index: nat)

  /** The range check, then the stabilisation time, then the stabilisation
      row, in the order the source meets them. `max_time` is computed before
      the row in the source; computing it cannot fail, and placing it after
      the row search lets the largest time be taken of a non-empty series. */
  function Select(data: map<Column, seq<real>>, start: Option<real>, end: Option<real>): (r: Result<Window, Error>)
    requires Cumulative in data && Time in data
    requires |data[Cumulative]| == |data[Time]| && StrictlyIncreasing(data[Time])
    ensures RangeError(start, end).Some? ==> r == Failure(InvalidRange)
    ensures RangeError(start, end).None? && StartTime(data, start).Failure? ==> r == Failure(StartTime(data, start).error)
    ensures RangeError(start, end).None? && StartTime(data, start).Success? ==>
              var ts := StartTime(data, start).value;
              && (FirstAtOrAfter(data[Time], ts).Failure? ==> r == Failure(NoIndex))
              && (FirstAtOrAfter(data[Time], ts).Success? ==>
                    r == Success(Window(ts, EndTime(data[Time], end), FirstAtOrAfter(data[Time], ts).value)))
  {
    if RangeError(start, end).Some? then Failure(InvalidRange)
    else
      var ts :- StartTime(data, start);
      var index :- FirstAtOrAfter(data[Time], ts);
      Success(Window(ts, EndTime(data[Time], end), index))
  }

  // ---------------------------------------------------------------------
  // Capping, the steady-state flux and the normalised column

  /** `df.loc[mask]` on a column map. */
  function Rows(data: map<Column, seq<real>>, n: nat, keep: seq<bool>): (out: map<Column, seq<real>>)
    requires SameLength(data, n) && |keep| == n
    ensures out.Keys == data.Keys && SameLength(out, Count(keep))
    ensures forall c :: c in data ==> out[c] == Where(data[c], keep)
  {
    map c | c in data :: Where(data[c], keep)
  }

  /** The steady-state rows `ts < t < max_time`, strict at both ends. */
  function SteadyState(t: seq<real>, ts: real, maxTime: real): (m: seq<bool>)
    ensures |m| == |t| && forall i :: 0 <= i < |t| ==> (m[i] <==> ts < t[i] < maxTime)
  {
    seq(|t|, i requires 0 <= i < |t| => ts < t[i] < maxTime)
  }

  /** The rows whose label is greater than the stabilisation row. */
  function Later(n: nat, index: nat): (m: seq<bool>)
    ensures |m| == n && forall i :: 0 <= i < n ==> (m[i] <==> i > index)
  {
    seq(n, i => i > index)
  }

  /** What the workflow computes before it runs the solver: the window, the
      number of rows that survive capping, the steady-state flux, the capped
      frame with its normalised column, the analysis, the mean temperature
      after the stabilisation row (NaN, here None, when no row follows it)
      and the last capped time. */
  datatype Plan = Plan(
    window: Window,
    kept: nat,
    steadyFlux: real,
    frame: map<Column, seq<real>>,
    analysis: Analysis,
    temperature: Option<real>,
    finalTime: real)

  /** The mean flux over the steady-state rows of a capped frame; None when
      that selection is empty (pandas' NaN). */
  function SteadyFlux(capped: map<Column, seq<real>>, ts: real, maxTime: real): (f: Option<real>)
    requires Flux in capped && Time in capped && |capped[Flux]| == |capped[Time]|
    ensures f.Some? <==> Count(SteadyState(capped[Time], ts, maxTime)) > 0
    ensures f.Some? ==> f.value == Mean(Where(capped[Flux], SteadyState(capped[Time], ts, maxTime)))
  {
    MeanOrNaN(Where(capped[Flux], SteadyState(capped[Time], ts, maxTime)))
  }

  /** The steps of the workflow between preprocessing and the solver, on the
      preprocessed columns: the window, then the capped rows. */
  function Analyse(data: map<Column, seq<real>>, n: nat, thickness: real, start: Option<real>, end: Option<real>): (r: Result<Plan, Error>)
    requires SameLength(data, n)
    requires Time in data && Cumulative in data && Flux in data && Temperature in data
    requires StrictlyIncreasing(data[Time])
    ensures Select(data, start, end).Failure? ==> r == Failure(Select(data, start, end).error)
    ensures r.Success? ==> && Select(data, start, end).Success?
                           && r.value.window == Select(data, start, end).value
                           && r.value.kept == Count(AtMost(data[Time], r.value.window.maxTime))
                           && r.value.frame.Keys == data.Keys + {Normalised}
                           && SameLength(r.value.frame, r.value.kept)
  {
    var w :- Select(data, start, end);
    var keep := AtMost(data[Time], w.maxTime);
    Finish(Rows(data, n, keep), Count(keep), thickness, w)
  }

  /** The steps after capping. An undefined or zero steady-state flux is
      `NonFinite` where the source divides by it. The KeyError of
      `.loc[stabilisation_index, 't / s']` comes after the analysis and the
      temperature, as in the source; FinishErrors and NoMissingRow say when
      each error comes out. */
  function Finish(capped: map<Column, seq<real>>, k: nat, thickness: real, w: Window): (r: Result<Plan, Error>)
    requires SameLength(capped, k) && Time in capped && Flux in capped && Temperature in capped
    ensures r.Success? ==> && r.value.window == w && r.value.kept == k && w.index < k
                           && r.value.frame.Keys == capped.Keys + {Normalised}
                           && SameLength(r.value.frame, k)
                           && TimeLagAnalysis(r.value.frame, k, w.start, thickness) == Success(r.value.analysis)
                           && r.value.finalTime == capped[Time][k - 1]
                           && Coherent(r.value.analysis, thickness)
    ensures r.Success? ==> && SteadyFlux(capped, w.start, w.maxTime) == Some(r.value.steadyFlux)
                           && r.value.steadyFlux != 0.0
                           && r.value.frame == capped[Normalised := Normalise(capped[Flux], r.value.steadyFlux)]
                           && r.value.temperature == MeanOrNaN(Where(capped[Temperature], Later(k, w.index)))
    ensures var f := SteadyFlux(capped, w.start, w.maxTime);
            (f.None? || f.value == 0.0) ==> r == Failure(NonFinite)
  {
    var fss := SteadyFlux(capped, w.start, w.maxTime);
    if fss.None? || fss.value == 0.0 then Failure(NonFinite)
    else
      var frame := capped[Normalised := Normalise(capped[Flux], fss.value)];
      var a :- TimeLagAnalysis(frame, k, w.start, thickness);
      var temperature := MeanOrNaN(Where(frame[Temperature], Later(k, w.index)));
      if w.index >= k then Failure(MissingRow(w.index))
      else Success(Plan(w, k, fss.value, frame, a, temperature, frame[Time][k - 1]))
  }

  // ---------------------------------------------------------------------
  // The returned record and the workflow

  /** The numeric fields of the record the workflow returns (the experiment
      name comes from the file path and is not modelled). */
  datatype Results = Results(
    thickness: real,
    temperature: Option<real>,
    pressure: real,
    stabilisationTime: real,
    slope: real,
    intercept: real,
    timeLag: real,
    diffusionCoefficient: real,
    permeability: real,
    solubilityCoefficient: real,
    solubility: real)

  /** The record, field by field from the plan. */
  function Report(p: Plan, thickness: real): (r: Results)
    ensures r.thickness == thickness && r.temperature == p.temperature
    ensures r.stabilisationTime == p.window.start
    ensures r.pressure == p.analysis.pressure && r.slope == p.analysis.slope && r.intercept == p.analysis.intercept
    ensures r.timeLag == p.analysis.timeLag && r.diffusionCoefficient == p.analysis.diffusionCoefficient
    ensures r.permeability == p.analysis.permeability && r.solubility == p.analysis.solubility
    ensures r.solubilityCoefficient == p.analysis.solubilityCoefficient
  {
    var a := p.analysis;
    Results(thickness, p.temperature, a.pressure, p.window.start, a.slope, a.intercept,
            a.timeLag, a.diffusionCoefficient, a.permeability, a.solubilityCoefficient, a.solubility)
  }

  /** What the workflow returns: the record, the capped frame with its
      normalised column, the concentration surface and the flux at x = L. */
  datatype Outcome = Outcome(results: Results, frame: DataFrame, surface: array2<real>, flux: seq<real>)

  /** The scheme the workflow runs: the fitted D, C_eq = S·pressure, dt = 1
      and dx = L/50. */
  function Simulation(a: Analysis, thickness: real): Scheme
  {
    Scheme(a.diffusionCoefficient, a.solubilityCoefficient * a.pressure, DT, thickness / SEGMENTS)
  }

  /** `time_lag_analysis_workflow` after `load_data`: preprocesses a copy of
      the frame, then runs the rest of the workflow on it. */
  method TimeLagAnalysisWorkflow(df: DataFrame, thickness: real, d: real, q: Option<real>, start: Option<real>, end: Option<real>)
    returns (r: Result<Outcome, Error>)
    requires df.Valid() && d != 0.0
    requires Time in df.data ==> StrictlyIncreasing(df.data[Time])
    ensures PreprocessError(df.data, q).Some? ==> r == Failure(PreprocessError(df.data, q).value)
    ensures PreprocessError(df.data, q).None? ==>
              Outcomes(r, Analyse(Preprocessed(df.data, df.length, d, q), df.length, thickness, start, end), thickness)
  {
    var pre :- PreprocessData(df, d, q);
    MainKeys(pre.data);
    r := AnalyseFrame(pre, thickness, start, end);
  }

  /** How the workflow ends, given the plan: the plan's own failure, else the
      solver's refusal, else the record built from the plan, the capped frame
      with its normalised column, and the solver's surface and flux for the
      fitted D, C_eq = S·pressure, L, the last capped time, dt = 1 and
      dx = L/50 (51 grid columns). */
  ghost predicate Outcomes(r: Result<Outcome, Error>, p: Result<Plan, Error>, thickness: real)
    reads if r.Success? then {r.value.frame, r.value.surface} else {}
  {
    && (p.Failure? ==> r == Failure(p.error))
    && (p.Success? ==>
          var a := p.value.analysis;
          && a.diffusionCoefficient != 0.0 && thickness != 0.0
          && var e := SolverError(a.diffusionCoefficient, p.value.finalTime, DT, thickness / SEGMENTS);
             && (e.Some? ==> r == Failure(e.value))
             && (e.None? ==>
                   var s, nt := Simulation(a, thickness), NumSteps(p.value.finalTime, DT);
                   && r.Success? && r.value.results == Report(p.value, thickness)
                   && r.value.frame.Valid()
                   && r.value.frame.data == p.value.frame && r.value.frame.length == p.value.kept
                   && r.value.frame.columns == MAIN_COLUMNS + [Normalised]
                   && r.value.surface.Length0 == nt && r.value.surface.Length1 == 51 && |r.value.flux| == nt
                   && (forall n, i :: 0 <= n < nt && 0 <= i < 51 ==> r.value.surface[n, i] == Profile(s, 51, n)[i])
                   && (forall n :: 0 <= n < nt ==> r.value.flux[n] == BoundaryFlux(s, Profile(s, 51, n)))))
  }

  /** The workflow on the preprocessed frame: the window, then the capped
      series as a new frame (`df.loc[mask]`). */
  method AnalyseFrame(pre: DataFrame, thickness: real, start: Option<real>, end: Option<real>)
    returns (r: Result<Outcome, Error>)
    requires pre.Valid() && pre.columns == MAIN_COLUMNS
    requires Time in pre.data && Cumulative in pre.data && Flux in pre.data && Temperature in pre.data
    requires Normalised !in pre.data && StrictlyIncreasing(pre.data[Time])
    ensures Outcomes(r, Analyse(pre.data, pre.length, thickness, start, end), thickness)
    ensures r.Success? ==> fresh(r.value.frame)
  {
    var w :- Select(pre.data, start, end);
    var capped := Cap(pre, w.maxTime);
    AnalyseCapped(pre.data, pre.length, thickness, start, end);
    var p := NormaliseAndAnalyse(capped, thickness, w);
    if p.Failure? {
      return Failure(p.error);
    }
    r := Simulate(p, capped, thickness);
  }

  /** `df.loc[df['t / s'] <= max_time]`: the capped series as a new frame. */
  method Cap(pre: DataFrame, maxTime: real) returns (capped: DataFrame)
    requires pre.Valid() && Time in pre.data
    ensures fresh(capped) && capped.Valid() && capped.columns == pre.columns
    ensures capped.length == Count(AtMost(pre.data[Time], maxTime))
    ensures capped.data == Rows(pre.data, pre.length, AtMost(pre.data[Time], maxTime))
  {
    var keep := AtMost(pre.data[Time], maxTime);
    capped := FilterRows(pre, keep);
    assert capped.data == Rows(pre.data, pre.length, keep);
  }

  /** Analyse, once the window is settled, is Finish on the capped rows. */
  lemma AnalyseCapped(data: map<Column, seq<real>>, n: nat, thickness: real, start: Option<real>, end: Option<real>)
    requires SameLength(data, n)
    requires Time in data && Cumulative in data && Flux in data && Temperature in data
    requires StrictlyIncreasing(data[Time])
    ensures Select(data, start, end).Success? ==>
              var w := Select(data, start, end).value;
              var keep := AtMost(data[Time], w.maxTime);
              Analyse(data, n, thickness, start, end) == Finish(Rows(data, n, keep), Count(keep), thickness, w)
  {
  }

  /** The failures of Finish past the NonFinite gate: a failing analysis
      passes its own error through, and the KeyError of
      `.loc[stabilisation_index, 't / s']` comes out only when the
      stabilisation row is not among the capped rows. */
  lemma FinishErrors(capped: map<Column, seq<real>>, k: nat, thickness: real, w: Window)
    requires SameLength(capped, k) && Time in capped && Flux in capped && Temperature in capped
    ensures var f := SteadyFlux(capped, w.start, w.maxTime);
            f.Some? && f.value != 0.0 ==>
              var a := TimeLagAnalysis(capped[Normalised := Normalise(capped[Flux], f.value)], k, w.start, thickness);
              a.Failure? ==> Finish(capped, k, thickness, w) == Failure(a.error)
    ensures Finish(capped, k, thickness, w).Failure? && Finish(capped, k, thickness, w).error.MissingRow? ==>
              && SteadyFlux(capped, w.start, w.maxTime).Some? && w.index >= k
  {
  }

  /** The KeyError of `.loc[stabilisation_index, 't / s']` is unreachable
      in the model: it needs a defined steady-state flux, which needs a
      capped row with t > ts, and the stabilisation row, the first with
      t >= ts, comes no later than that row. In the source the KeyError
      needs an empty steady-state selection, which the model has already
      stopped as NonFinite. */
  lemma NoMissingRow(data: map<Column, seq<real>>, n: nat, thickness: real, start: Option<real>, end: Option<real>)
    requires SameLength(data, n)
    requires Time in data && Cumulative in data && Flux in data && Temperature in data
    requires StrictlyIncreasing(data[Time])
    ensures Analyse(data, n, thickness, start, end).Failure? ==> !Analyse(data, n, thickness, start, end).error.MissingRow?
  {
    AnalyseCapped(data, n, thickness, start, end);
    var s := Select(data, start, end);
    if s.Success? {
      var w := s.value;
      var keep := AtMost(data[Time], w.maxTime);
      var capped := Rows(data, n, keep);
      FinishErrors(capped, Count(keep), thickness, w);
      if SteadyFlux(capped, w.start, w.maxTime).Some? {
        SelectedRow(data, start, end);
        CappedPrefix(data, n, w.maxTime);
        StabilisationRowCapped(data[Time], Count(keep), w.start, w.maxTime, w.index);
      }
    }
  }

  /** A selected window's row is the first with t >= ts. */
  lemma SelectedRow(data: map<Column, seq<real>>, start: Option<real>, end: Option<real>)
    requires Cumulative in data && Time in data
    requires |data[Cumulative]| == |data[Time]| && StrictlyIncreasing(data[Time])
    ensures var s := Select(data, start, end);
            s.Success? ==> && s.value.index < |data[Time]|
                           && forall j :: 0 <= j < s.value.index ==> data[Time][j] < s.value.start
  {
  }

  /** The first row with t >= ts lies inside a prefix that holds a row with
      ts < t < mt. */
  lemma StabilisationRowCapped(t: seq<real>, k: nat, ts: real, mt: real, index: nat)
    requires k <= |t| && Count(SteadyState(t[..k], ts, mt)) > 0
    requires index < |t| && forall j :: 0 <= j < index ==> t[j] < ts
    ensures index < k
  {
    var m := SteadyState(t[..k], ts, mt);
    WhereOrigin(t[..k], m, 0);
    var i :| 0 <= i < k && m[i];
    assert ts < t[i];
  }

  /** The steady-state flux, the normalised column added to the capped frame
      in place, the analysis and the temperature. */
  method NormaliseAndAnalyse(capped: DataFrame, thickness: real, w: Window) returns (r: Result<Plan, Error>)
    requires capped.Valid() && Time in capped.data && Flux in capped.data && Temperature in capped.data
    requires Normalised !in capped.data
    modifies capped
    ensures r == Finish(old(capped.data), old(capped.length), thickness, w)
    ensures capped.length == old(capped.length)
    ensures r.Success? ==> && capped.Valid() && capped.data == r.value.frame
                           && capped.columns == old(capped.columns) + [Normalised]
  {
    var fss := SteadyFlux(capped.data, w.start, w.maxTime);
    if fss.None? || fss.value == 0.0 {
      return Failure(NonFinite);
    }
    capped.SetColumn(Normalised, Normalise(capped.data[Flux], fss.value));
    var a :- TimeLagAnalysis(capped.data, capped.length, w.start, thickness);
    var temperature := MeanOrNaN(Where(capped.data[Temperature], Later(capped.length, w.index)));
    if w.index >= capped.length {
      return Failure(MissingRow(w.index));
    }
    r := Success(Plan(w, capped.length, fss.value, capped.data, a, temperature, capped.data[Time][capped.length - 1]));
  }

  /** The solver run on the fitted coefficients, and the returned values. */
  method Simulate(plan: Result<Plan, Error>, frame: DataFrame, thickness: real) returns (r: Result<Outcome, Error>)
    requires plan.Success? && frame.Valid() && frame.data == plan.value.frame && frame.length == plan.value.kept
    requires frame.columns == MAIN_COLUMNS + [Normalised]
    requires Coherent(plan.value.analysis, thickness)
    ensures Outcomes(r, plan, thickness)
    ensures r.Success? ==> r.value.frame == frame
  {
    var p := plan.value;
    var a := p.analysis;
    Wiring(a, thickness);
    var err, surface, flux := FluxPdeConstD(a.diffusionCoefficient, a.solubilityCoefficient * a.pressure,
                                            thickness, p.finalTime, DT, thickness / SEGMENTS);
    if err.Some? {
      return Failure(err.value);
    }
    r := Success(Outcome(Report(p, thickness), frame, surface, flux));
  }

  // ---------------------------------------------------------------------
  // Properties of the workflow

  /** A frame holding exactly the main columns has the ones the workflow
      reads and no normalised column yet. */
  lemma MainKeys(data: map<Column, seq<real>>)
    requires forall c :: c in data <==> c in MAIN_COLUMNS
    ensures Time in data && Cumulative in data && Flux in data && Temperature in data && Normalised !in data
  {
    assert MAIN_COLUMNS[0] == Time && MAIN_COLUMNS[2] == Temperature;
    assert MAIN_COLUMNS[5] == Flux && MAIN_COLUMNS[6] == Cumulative;
  }

  /** The solver's arguments are admissible once the analysis succeeded:
      D ≠ 0 (D·time lag = L²/6 with L ≠ 0), dx = L/50 ≠ 0, and L/dx = 50, so
      the grid has 51 columns; and the upstream concentration S·pressure is
      the analysis' solubility. */
  lemma Wiring(a: Analysis, thickness: real)
    requires Coherent(a, thickness)
    ensures a.diffusionCoefficient != 0.0
    ensures thickness / SEGMENTS != 0.0 && thickness / (thickness / SEGMENTS) == SEGMENTS
    ensures NumNodes(thickness, thickness / SEGMENTS) == 51
    ensures Simulation(a, thickness).ceq == a.solubility
  {
    SquarePositive(thickness, thickness * thickness);
    var dx := thickness / SEGMENTS;
    assert dx * SEGMENTS == thickness;
  }

  /** On increasing times the capped series is a prefix of the preprocessed
      one: the rows with t <= max_time are the first `Count` rows, in their
      order, so a capped row's position is its label. */
  lemma CappedPrefix(data: map<Column, seq<real>>, n: nat, maxTime: real)
    requires SameLength(data, n) && Time in data && StrictlyIncreasing(data[Time])
    ensures var keep := AtMost(data[Time], maxTime);
            && Count(keep) <= n
            && (forall i :: 0 <= i < n ==> (data[Time][i] <= maxTime <==> i < Count(keep)))
            && forall c :: c in data ==> Rows(data, n, keep)[c] == data[c][..Count(keep)]
  {
    AtMostSplit(data[Time], maxTime);
    forall c | c in data
      ensures Rows(data, n, AtMost(data[Time], maxTime))[c] == data[c][..Count(AtMost(data[Time], maxTime))]
    {
      AtMostIsPrefix(data[Time], data[c], maxTime);
    }
  }

  /** Without an override end, max_time is the largest time and capping
      keeps every row. */
  lemma DefaultEndKeepsAll(t: seq<real>)
    requires |t| > 0 && StrictlyIncreasing(t)
    ensures Count(AtMost(t, EndTime(t, None))) == |t|
  {
    AtMostSplit(t, EndTime(t, None));
    assert t[|t| - 1] <= EndTime(t, None);
  }

  /** The two row sets of a successful run: the regression sees the capped
      rows with t > ts, which include a row at t = max_time, while the
      steady-state flux averages the rows with ts < t < max_time, strict at
      both ends. */
  lemma WindowRows(data: map<Column, seq<real>>, n: nat, thickness: real, start: Option<real>, end: Option<real>, p: Plan)
    requires SameLength(data, n)
    requires Time in data && Cumulative in data && Flux in data && Temperature in data
    requires StrictlyIncreasing(data[Time])
    requires Analyse(data, n, thickness, start, end) == Success(p)
    ensures var ts, mt, t := p.window.start, p.window.maxTime, data[Time];
            && p.kept <= n && Time in p.frame && |p.frame[Time]| == p.kept
            && forall i :: 0 <= i < p.kept ==>
                 && (SteadyRows(p.frame, ts)[i] <==> ts < t[i] <= mt)
                 && (SteadyState(p.frame[Time], ts, mt)[i] <==> ts < t[i] < mt)
  {
    Planned(data, n, thickness, start, end, p);
    CappedRows(data, n, p.window.maxTime, p.kept, p.frame[Time], p.window.start);
  }

  /** The row masks of the capped time column, read on the full series. */
  lemma CappedRows(data: map<Column, seq<real>>, n: nat, mt: real, k: nat, ft: seq<real>, ts: real)
    requires SameLength(data, n) && Time in data && StrictlyIncreasing(data[Time])
    requires k == Count(AtMost(data[Time], mt))
    requires ft == Rows(data, n, AtMost(data[Time], mt))[Time]
    ensures && k <= n && |ft| == k
            && forall i :: 0 <= i < k ==>
                 && (Above(ft, ts)[i] <==> ts < data[Time][i] <= mt)
                 && (SteadyState(ft, ts, mt)[i] <==> ts < data[Time][i] < mt)
  {
    CappedPrefix(data, n, mt);
    PrefixRows(data[Time], ft, k, ts, mt);
  }

  /** The row masks of a prefix `t[..k]` that holds exactly the times up to
      `mt`, read on the full series. */
  lemma PrefixRows(t: seq<real>, ft: seq<real>, k: nat, ts: real, mt: real)
    requires k <= |t| && ft == t[..k]
    requires forall i :: 0 <= i < |t| ==> (t[i] <= mt <==> i < k)
    ensures forall i :: 0 <= i < k ==>
              && (Above(ft, ts)[i] <==> ts < t[i] <= mt)
              && (SteadyState(ft, ts, mt)[i] <==> ts < t[i] < mt)
  {
    forall i | 0 <= i < k
      ensures ft[i] == t[i] && t[i] <= mt
    {
    }
  }

  /** A successful run keeps the first `kept` rows, the ones with
      t <= max_time, and the stabilisation row is one of them. */
  lemma WindowPrefix(data: map<Column, seq<real>>, n: nat, thickness: real, start: Option<real>, end: Option<real>, p: Plan)
    requires SameLength(data, n)
    requires Time in data && Cumulative in data && Flux in data && Temperature in data
    requires StrictlyIncreasing(data[Time])
    requires Analyse(data, n, thickness, start, end) == Success(p)
    ensures && p.kept <= n && Time in p.frame && p.frame[Time] == data[Time][..p.kept]
            && (forall i :: 0 <= i < n ==> (data[Time][i] <= p.window.maxTime <==> i < p.kept))
            && data[Time][p.window.index] <= p.window.maxTime
  {
    Planned(data, n, thickness, start, end, p);
    PrefixOf(data, n, p.window.maxTime, p.kept, p.window.index, p.frame[Time]);
  }

  /** The capped time column is the prefix of the times up to `mt`. */
  lemma PrefixOf(data: map<Column, seq<real>>, n: nat, mt: real, k: nat, index: nat, ft: seq<real>)
    requires SameLength(data, n) && Time in data && StrictlyIncreasing(data[Time])
    requires k == Count(AtMost(data[Time], mt)) && index < k
    requires ft == Rows(data, n, AtMost(data[Time], mt))[Time]
    ensures && k <= n && ft == data[Time][..k]
            && (forall i :: 0 <= i < n ==> (data[Time][i] <= mt <==> i < k))
            && data[Time][index] <= mt
  {
    CappedPrefix(data, n, mt);
  }

  /** The normalised column averages to exactly 1 over the steady-state
      rows, the rows its divisor was averaged over. */
  lemma NormalisedSteadyMean(data: map<Column, seq<real>>, n: nat, thickness: real, start: Option<real>, end: Option<real>, p: Plan)
    requires SameLength(data, n)
    requires Time in data && Cumulative in data && Flux in data && Temperature in data
    requires StrictlyIncreasing(data[Time])
    requires Analyse(data, n, thickness, start, end) == Success(p)
    ensures var keep := SteadyState(p.frame[Time], p.window.start, p.window.maxTime);
            Count(keep) > 0 && Mean(Where(p.frame[Normalised], keep)) == 1.0
  {
    Planned(data, n, thickness, start, end, p);
    var capped := Rows(data, n, AtMost(data[Time], p.window.maxTime));
    NormalisedMean(capped[Flux], SteadyState(capped[Time], p.window.start, p.window.maxTime), p.steadyFlux);
  }

  /** A successful plan is Finish on the capped rows: its frame is the
      capped frame with the normalised column added, and the stabilisation
      row is one of the capped rows. */
  lemma Planned(data: map<Column, seq<real>>, n: nat, thickness: real, start: Option<real>, end: Option<real>, p: Plan)
    requires SameLength(data, n)
    requires Time in data && Cumulative in data && Flux in data && Temperature in data
    requires StrictlyIncreasing(data[Time])
    requires Analyse(data, n, thickness, start, end) == Success(p)
    ensures var capped := Rows(data, n, AtMost(data[Time], p.window.maxTime));
            && p.kept == Count(AtMost(data[Time], p.window.maxTime)) && p.window.index < p.kept
            && p.frame[Time] == capped[Time] && p.frame[Flux] == capped[Flux]
            && p.frame[Normalised] == Normalise(capped[Flux], p.steadyFlux)
            && SteadyFlux(capped, p.window.start, p.window.maxTime) == Some(p.steadyFlux)
  {
    AnalyseCapped(data, n, thickness, start, end);
  }
}
