/**
  The interface of the compartmental model's numerics, which this model does not contain:
  the integrand and the solver (`evolve` and `solve_ivp`), and the aggregation of compartments
  into an infectious level (`sepir.aggregate` and `sepir.scale`). They enter the model as
  function-valued parameters; the predicates below are all that is assumed of them.
*/
module Sepir {

  /** Fractions of the population per compartment: S, E, P, I, It, R, Rt. */
  type State = seq<real>

  /** The rate constants passed to the integrand, apart from R0. */
  datatype Params = Params(
    N: real,        // population size
    c: real,        // testing rate for symptomatic cases
    alpha: real,    // E to P transition rate
    gamma: real,    // I to R transition rate
    delta: real,    // P to I transition rate
    epsilon: real,  // relative infectiousness
    CFR1: real,     // case fatality rate above ICU capacity
    CFR0: real,     // case fatality rate below ICU capacity
    nICU: real,     // number of ICU beds
    pICU: real)     // proportion of cases requiring ICU

  /**
    What `solve_ivp` returns for one interval: the sample times `t`, and `y` holding one row
    per compartment with one entry per sample (so `y[j][i]` is compartment j at time `t[i]`).
  */
  datatype Segment = Segment(t: seq<real>, y: seq<seq<real>>)

  /** `evolve(t0, t1, y, R0, params)`: integrate from state y over [t0, t1] at fixed R0. */
  type Solver = (int, int, State, real, Params) -> Segment

  /** `sepir.scale(sepir.aggregate(y, selector=range(3,5)), N)`: the infectious level of each sample. */
  type Series = (seq<seq<real>>, real) -> seq<real>

  /** A solution with at least one sample and a full row of samples per compartment. */
  predicate WellShaped(s: Segment, n: nat)
  {
    |s.t| > 0 && |s.y| == n && forall j :: 0 <= j < n ==> |s.y[j]| == |s.t|
  }

  /** The only assumption made of the integrator: it returns a well-shaped, non-empty solution. */
  ghost predicate ValidSolver(solve: Solver)
  {
    forall t0, t1, y, r0, p :: WellShaped(solve(t0, t1, y, r0, p), |y|)
  }

  /** One call of a valid solver. */
  lemma SolverShaped(solve: Solver, t0: int, t1: int, y: State, r0: real, p: Params)
    requires ValidSolver(solve)
    ensures WellShaped(solve(t0, t1, y, r0, p), |y|)
  {
  }

  /** Number of samples in a solution's rows. */
  function SampleCount(y: seq<seq<real>>): (n: nat)
  {
    if |y| == 0 then 0 else |y[0]|
  }

  /** The only assumption made of the aggregation: one value per sample. */
  ghost predicate ValidSeries(infectious: Series)
  {
    forall y, n :: |infectious(y, n)| == SampleCount(y)
  }

  /**
    `[y[-1] for y in sol.y]`: the state at the last sample of a solution. A row with no sample
    (which Python would reject with an IndexError, and which a valid solver never returns)
    contributes 0.
  */
  function LastSample(s: Segment): (y: State)
    ensures |y| == |s.y|
  {
    LastOfRows(s.y)
  }

  /** The last entry of each row. */
  function LastOfRows(rows: seq<seq<real>>): (y: State)
    ensures |y| == |rows|
  {
    if rows == [] then []
    else [if rows[0] == [] then 0.0 else rows[0][|rows[0]| - 1]] + LastOfRows(rows[1..])
  }

  /** Entry j of the last sample is the last entry of row j, for every row that has one. */
  lemma {:induction false} LastOfRowsAt(rows: seq<seq<real>>, j: nat)
    requires j < |rows| && |rows[j]| > 0
    ensures LastOfRows(rows)[j] == rows[j][|rows[j]| - 1]
  {
    if j > 0 {
      LastOfRowsAt(rows[1..], j - 1);
    }
  }

  /** Entry j of a solution's last sample is the last sample of compartment j. */
  lemma LastSampleAt(s: Segment, j: nat)
    requires j < |s.y| && |s.y[j]| > 0
    ensures LastSample(s)[j] == s.y[j][|s.y[j]| - 1]
  {
    LastOfRowsAt(s.y, j);
  }

  /** Total of the compartment fractions. */
  function Sum(y: State): (total: real)
  {
    if y == [] then 0.0 else y[0] + Sum(y[1..])
  }

  lemma SumSeven(y: State)
    requires |y| == 7
    ensures Sum(y) == y[0] + y[1] + y[2] + y[3] + y[4] + y[5] + y[6]
  {
    assert Sum(y[6..]) == y[6] by { assert y[6..][1..] == []; }
    assert Sum(y[5..]) == y[5] + Sum(y[6..]) by { assert y[5..][1..] == y[6..]; }
    assert Sum(y[4..]) == y[4] + Sum(y[5..]) by { assert y[4..][1..] == y[5..]; }
    assert Sum(y[3..]) == y[3] + Sum(y[4..]) by { assert y[3..][1..] == y[4..]; }
    assert Sum(y[2..]) == y[2] + Sum(y[3..]) by { assert y[2..][1..] == y[3..]; }
    assert Sum(y[1..]) == y[1] + Sum(y[2..]) by { assert y[1..][1..] == y[2..]; }
  }
}
