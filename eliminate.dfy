/**
  eliminate.py: intervention schedules that drive R0 below 1 and keep it there. Its
  `create_NPIs` is `Schedule.CreateNpis` with factors drawn from [0.9, 0.99] by default; its
  `evolve` integrates every segment with one fixed set of parameters, and its `change_R0`
  always starts from 20 exposed people in a population of 5,000,000.
*/
module Eliminate {
  import opened Results
  import opened Sepir
  import opened Schedule
  import opened Trajectory
  import T028

  /** The parameters `evolve` passes to the integrand for every segment. */
  const Fixed := Params(5000.0, 0.1, 0.25, 0.1, 1.0, 0.15, 0.02, 0.01, 300.0, 0.0125)

  /**
    The fixed integrand arguments are t028.py's `evolve` defaults except for the population,
    which is 5000; `get_beta` gets the same gamma, delta and epsilon as the integrand.
  */
  lemma FixedArguments()
    ensures Fixed == T028.EvolveDefaults.(N := 5000.0)
    ensures Fixed.N == 5000.0 && Fixed.c == 0.1 && Fixed.alpha == 0.25
    ensures Fixed.gamma == 0.1 && Fixed.delta == 1.0 && Fixed.epsilon == 0.15
    ensures Fixed.CFR1 == 2.0 / 100.0 && Fixed.CFR0 == 1.0 / 100.0 && Fixed.nICU == 300.0 && Fixed.pICU == 1.25 / 100.0
  {
  }

  /** The defaults of `create_NPIs`. */
  const FirstDay := 150
  const InitialR0 := 2.5
  const DefaultLowerBound := 0.9
  const DefaultUpperBound := 0.99
  const Dt := 5

  /** `[1 - 20/5000000, 20/5000000, 0, 0, 0, 0, 0]`, the state every run starts from. */
  const Initial := InitialState(20.0, 5000000.0)

  /** `change_R0` of eliminate.py: every segment runs with the fixed parameters. */
  method ChangeR0(solve: Solver, tRange: (int, int), npis: seq<Npi>, R0: real) returns (r: Result<Run>)
    ensures r == Chain(solve, tRange, npis, R0, Initial, Fixed, Fixed)
  {
    r := Compose(solve, tRange, npis, R0, Initial, Fixed, Fixed);
  }

  /**
    What each segment is integrated from: the first from 20 exposed in 5,000,000, every later
    one from the previous segment's last sample; all with the fixed parameters and the
    running R0. An empty schedule is an error.
  */
  lemma ChangeR0Inputs(solve: Solver, tRange: (int, int), npis: seq<Npi>, R0: real)
    ensures Chain(solve, tRange, npis, R0, Initial, Fixed, Fixed).Err? <==> npis == []
    ensures npis != [] ==>
      var run := Chain(solve, tRange, npis, R0, Initial, Fixed, Fixed).value;
      && run.sols[0] == solve(tRange.0, npis[0].t, [0.999996, 0.000004, 0.0, 0.0, 0.0, 0.0, 0.0], R0, Fixed)
      && forall k :: 0 < k <= |npis| ==>
           run.sols[k] == solve(Start(tRange, npis, k), End(tRange, npis, k), LastSample(run.sols[k - 1]),
                                run.R0s[k], Fixed)
  {
    ChainSegments(solve, tRange, npis, R0, Initial, Fixed, Fixed);
    assert Initial == [0.999996, 0.000004, 0.0, 0.0, 0.0, 0.0, 0.0];
  }

  /** With the default bounds, 248 passes always bring R0 = 2.5 below 1. */
  lemma DefaultHaltBound()
    ensures HaltBound(InitialR0, DefaultUpperBound) == 248
  {
    var d := 1.0 / DefaultUpperBound - 1.0;
    assert d == 1.0 / 99.0;
    assert InitialR0 / d == 247.5;
  }

  /**
    One run with the defaults, as the script's main loop makes it: on a stream of at least
    248 draws (each uniform in [0, 1] and each step in [1, 5]) the schedule is never empty and
    has at most 248 breakpoints, from day 150 on, with factors in [0.9, 0.99]. The run over
    days 0 to 400 has one more segment than breakpoints; R0 stays at or above 1 in every
    segment but the tail, where it is below 1, and never increases.
  */
  lemma DefaultRunEliminates(solve: Solver, draws: seq<Draw>)
    requires DrawsValid(draws, Dt) && |draws| >= 248
    ensures Generate(FirstDay, InitialR0, DefaultLowerBound, DefaultUpperBound, draws).Ok?
    ensures var npis := Generate(FirstDay, InitialR0, DefaultLowerBound, DefaultUpperBound, draws).value;
      && 0 < |npis| <= 248
      && npis[0].t == FirstDay && Increasing(npis)
      && (forall i :: 0 <= i < |npis| ==> DefaultLowerBound <= npis[i].factor <= DefaultUpperBound)
      && Chain(solve, (0, 400), npis, InitialR0, Initial, Fixed, Fixed).Ok?
      && var rs := Chain(solve, (0, 400), npis, InitialR0, Initial, Fixed, Fixed).value.R0s;
         && |rs| == |npis| + 1
         && rs[|npis|] < 1.0
         && (forall k :: 0 <= k < |npis| ==> rs[k] >= 1.0)
         && (forall j, k :: 0 <= j <= k <= |npis| ==> 0.0 <= rs[k] <= rs[j])
  {
    DefaultHaltBound();
    GenerateHalts(FirstDay, InitialR0, DefaultLowerBound, DefaultUpperBound, draws);
    var npis := Generate(FirstDay, InitialR0, DefaultLowerBound, DefaultUpperBound, draws).value;
    GenerateSchedule(FirstDay, InitialR0, DefaultLowerBound, DefaultUpperBound, Dt, draws);
    GenerateStops(FirstDay, InitialR0, DefaultLowerBound, DefaultUpperBound, draws);
    RatesCrossOneAtTail(FirstDay, InitialR0, DefaultLowerBound, DefaultUpperBound, draws);
    RatesNonIncreasing(InitialR0, npis);
  }

  /**
    One pass of the script's main loop: draw a schedule with the defaults and compose its
    trajectory over days 0 to 400 at R0 = 2.5.
  */
  method Simulate(solve: Solver, draws: seq<Draw>) returns (r: Result<Run>)
    ensures var g := Generate(FirstDay, InitialR0, DefaultLowerBound, DefaultUpperBound, draws);
      && (g.Err? ==> r == Err(g.error))
      && (g.Ok? ==> r == Chain(solve, (0, 400), g.value, InitialR0, Initial, Fixed, Fixed))
  {
    var npis := CreateNpis(FirstDay, InitialR0, DefaultLowerBound, DefaultUpperBound, Dt, draws);
    if npis.Err? {
      return Err(npis.error);
    }
    r := ChangeR0(solve, (0, 400), npis.value, InitialR0);
  }
}
