/** The concrete cases the repository's tests run, evaluated on the model. */
module Scenarios {
  import opened Common
  import opened DataProcessing
  import opened Calculations
  import opened Workflow

  /** The solver test's grid: L = 0.1 cm, dx = L/50, T = 1000 s, dt = 1 s
      gives 51 spatial nodes and 1001 time samples, the same grid the
      workflow builds for a 0.1 cm membrane. */
  lemma TestGrid()
    ensures NumNodes(0.1, 0.002) == 51 && NumSteps(1000.0, 1.0) == 1001
    ensures 0.1 / SEGMENTS == 0.002
  {
  }

  /** The stability bound dx²/(2D) for D = 1e-7 cm²/s and dx = 0.002 cm is
      20 s: dt = 1 s runs, dt = 10 s runs as well (the stability test
      expects it to be refused), and dt = 30 s is refused. */
  lemma TestStability()
    ensures 0.002 * 0.002 / (2.0 * 0.0000001) == 20.0
    ensures SolverError(0.0000001, 1000.0, 1.0, 0.002).None?
    ensures SolverError(0.0000001, 1000.0, 10.0, 0.002).None?
    ensures SolverError(0.0000001, 1000.0, 30.0, 0.002) == Some(UnstableStep)
  {
  }

  /** The analysis test's line y = 1e-6·t − 5e-3 over a 0.1 cm membrane at
      50 bar: the line meets the time axis at 5000 s, and every coefficient
      is positive. */
  lemma TestLine()
    ensures var a := Derive(0.000001, -0.005, 0.1, 50.0);
            && a.timeLag == 5000.0
            && a.diffusionCoefficient * 3000000.0 == 1.0
            && a.diffusionCoefficient > 0.0 && a.permeability > 0.0
            && a.solubilityCoefficient > 0.0 && a.solubility > 0.0
  {
    DerivedPositive(0.000001, -0.005, 0.1, 50.0);
  }

  /** Cumulative flux uses the flux of the later row of each interval:
      fluxes 1, 2, 3 at t = 0, 1, 2 accumulate to 0, 2, 5 (the left-hand
      rule would give 0, 1, 3). */
  lemma RightHandCumulative()
    ensures CumulativeFlux([1.0, 2.0, 3.0], [0.0, 1.0, 2.0]) == [0.0, 2.0, 5.0]
  {
    var cum := CumulativeFlux([1.0, 2.0, 3.0], [0.0, 1.0, 2.0]);
    assert cum[1] == 2.0 && cum[2] == 5.0;
  }

  /** Override bounds with start >= end are refused before anything else;
      an end alone is not compared with the detected start. */
  lemma TestRange()
    ensures RangeError(Some(500.0), Some(500.0)) == Some(InvalidRange)
    ensures RangeError(None, Some(1.0)).None?
  {
  }
}
