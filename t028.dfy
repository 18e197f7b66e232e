/**
  t028.py: the Monte Carlo study of random intervention schedules. Each trial draws a schedule
  with `create_NPIs` (here `Schedule.CreateNpis`), integrates it piecewise with `change_R0`,
  and reduces the stitched trajectory to four numbers: the time of the infection peak, its
  height, the number of people affected and the number of deaths.
*/
module T028 {
  import opened Results
  import opened Sepir
  import opened Schedule
  import opened Trajectory

  /** The keyword defaults of `evolve`, in force for whatever a call does not pass. */
  const EvolveDefaults := Params(5000000.0, 0.1, 0.25, 0.1, 1.0, 0.15, 0.02, 0.01, 300.0, 0.0125)

  /**
    The parameters a later segment is integrated with: `change_R0` passes only R0, gamma,
    delta and epsilon on, so everything else is `evolve`'s default.
  */
  function Later(p: Params): (q: Params)
    ensures q.gamma == p.gamma && q.delta == p.delta && q.epsilon == p.epsilon
    ensures q.(gamma := 0.1, delta := 1.0, epsilon := 0.15) == EvolveDefaults
  {
    EvolveDefaults.(gamma := p.gamma, delta := p.delta, epsilon := p.epsilon)
  }

  /** The keyword defaults of `evolve`, by the names t028.py gives them. */
  lemma EvolveDefaultsNamed()
    ensures EvolveDefaults.N == 5000000.0 && EvolveDefaults.c == 0.1 && EvolveDefaults.alpha == 0.25
    ensures EvolveDefaults.gamma == 0.1 && EvolveDefaults.delta == 1.0 && EvolveDefaults.epsilon == 0.15
    ensures EvolveDefaults.CFR1 == 2.0 / 100.0 && EvolveDefaults.CFR0 == 1.0 / 100.0
    ensures EvolveDefaults.nICU == 300.0 && EvolveDefaults.pICU == 1.25 / 100.0
  {
  }

  /**
    `change_R0` of t028.py: the first segment starts with `initial` of N people exposed and
    runs with the caller's parameters; the later ones run with `Later(p)`. Reading the first
    breakpoint of an empty schedule fails first; then `initial/N` fails for N = 0.
  */
  method ChangeR0(solve: Solver, tRange: (int, int), npis: seq<Npi>, R0: real, initial: real, p: Params)
    returns (r: Result<Run>)
    ensures npis == [] ==> r == Err(EmptySchedule)
    ensures npis != [] && p.N == 0.0 ==> r == Err(ZeroPopulation)
    ensures p.N != 0.0 ==> r == Chain(solve, tRange, npis, R0, InitialState(initial, p.N), p, Later(p))
  {
    if npis == [] {
      return Err(EmptySchedule);
    }
    if p.N == 0.0 {
      return Err(ZeroPopulation);
    }
    r := Compose(solve, tRange, npis, R0, InitialState(initial, p.N), p, Later(p));
  }

  /**
    What each segment of a t028 run is integrated from and with: the first from
    `[1 - initial/N, initial/N, 0, 0, 0, 0, 0]` with all of the caller's parameters, every
    later one from the previous segment's last sample with the caller's gamma, delta and
    epsilon but `evolve`'s default N, c, alpha, CFR1, CFR0, nICU and pICU.
  */
  lemma ChangeR0Inputs(solve: Solver, tRange: (int, int), npis: seq<Npi>, R0: real, initial: real, p: Params)
    requires p.N != 0.0 && npis != []
    ensures var run := Chain(solve, tRange, npis, R0, InitialState(initial, p.N), p, Later(p)).value;
      && run.sols[0] == solve(tRange.0, npis[0].t, [1.0 - initial / p.N, initial / p.N, 0.0, 0.0, 0.0, 0.0, 0.0], R0, p)
      && forall k :: 0 < k <= |npis| ==>
           run.sols[k] == solve(Start(tRange, npis, k), End(tRange, npis, k), LastSample(run.sols[k - 1]), run.R0s[k],
                                Params(5000000.0, 0.1, 0.25, p.gamma, p.delta, p.epsilon, 0.02, 0.01, 300.0, 0.0125))
  {
    ChainSegments(solve, tRange, npis, R0, InitialState(initial, p.N), p, Later(p));
  }

  /** `round(x, n)`: x rounded down to a multiple of n (`n * (x // n)`, floor division). */
  function Round(x: real, n: int): (r: real)
    requires n != 0
    ensures n > 0 ==> r <= x < r + n as real
    ensures n < 0 ==> r + n as real < x <= r
    ensures IsMultiple(r, n)
  {
    var d := n as real;
    var k := (x / d).Floor;
    RoundFacts(x, n, d, k);
    d * (k as real)
  }

  /** y is an integer multiple of n. */
  predicate IsMultiple(y: real, n: int)
    requires n != 0
  {
    (y / n as real).Floor as real == y / n as real
  }

  lemma RoundFacts(x: real, n: int, d: real, k: int)
    requires n != 0 && d == n as real && k == (x / d).Floor
    ensures n > 0 ==> d * (k as real) <= x < d * (k as real) + d
    ensures n < 0 ==> d * (k as real) + d < x <= d * (k as real)
    ensures IsMultiple(d * (k as real), n)
  {
    if n > 0 {
      FloorScaledUp(x, d, k);
    } else {
      FloorScaledDown(x, d, k);
    }
    MultipleOf(n, d, k);
  }

  lemma DivCancel(x: real, d: real)
    requires d != 0.0
    ensures (x / d) * d == x && d * (x / d) == x
  {
  }

  lemma FloorScaledUp(x: real, d: real, k: int)
    requires d > 0.0 && k == (x / d).Floor
    ensures d * (k as real) <= x < d * (k as real) + d
  {
    var q, y := k as real, x / d;
    assert q <= y < q + 1.0;
    calc {
      d * q;
    <= { MulLeLeft(d, q, y); }
      d * y;
    == { DivCancel(x, d); }
      x;
    }
    calc {
      x;
    == { DivCancel(x, d); }
      y * d;
    < { MulLtRight(y, q + 1.0, d); }
      (q + 1.0) * d;
    ==
      d * q + d;
    }
  }

  lemma FloorScaledDown(x: real, d: real, k: int)
    requires d < 0.0 && k == (x / d).Floor
    ensures d * (k as real) + d < x <= d * (k as real)
  {
    var q, y := k as real, x / d;
    assert q <= y < q + 1.0;
    calc {
      d * q + d;
    ==
      -((q + 1.0) * -d);
    < { MulLtRight(y, q + 1.0, -d); }
      -(y * -d);
    == { DivCancel(x, d); }
      x;
    }
    calc {
      x;
    == { DivCancel(x, d); }
      -(-d * y);
    <= { MulLeLeft(-d, q, y); }
      -(-d * q);
    ==
      d * q;
    }
  }

  lemma MultipleOf(n: int, d: real, k: int)
    requires n != 0 && d == n as real
    ensures IsMultiple(d * (k as real), n)
  {
    assert (d * (k as real)) / d == k as real;
    assert (k as real).Floor == k;
  }

  /** The default step of `round`, `n=1000`. */
  const DefaultTick := 1000

  /** `round(x)` with its default step: the multiple of 1000 at or below x. */
  lemma RoundDefault(x: real)
    ensures var r := Round(x, DefaultTick); IsMultiple(r, 1000) && r <= x < r + 1000.0
  { }

  /** Rounding a multiple of n leaves it unchanged, so rounding twice is rounding once. */
  lemma RoundIdempotent(x: real, n: int)
    requires n != 0
    ensures Round(Round(x, n), n) == Round(x, n)
  {
    var r := Round(x, n);
    var d := n as real;
    var k := (r / d).Floor as real;
    assert k == r / d;
    assert d * k == r;
  }

  /** Round(x, n) is the only multiple of n within n below x, so `round` is floor to a multiple. */
  lemma RoundUnique(x: real, n: int, m: real)
    requires n > 0 && IsMultiple(m, n) && m <= x < m + n as real
    ensures m == Round(x, n)
  {
    var d := n as real;
    var k := (m / d).Floor;
    assert m == d * (k as real);
    assert x / d < (k as real) + 1.0 by {
      assert x < d * ((k as real) + 1.0);
    }
    assert (k as real) <= x / d by {
      MulLeLeft(1.0 / d, m, x);
    }
    assert (x / d).Floor == k;
  }

  /** `affected = 1 - final_population[0]`: everyone who is no longer susceptible. */
  function Affected(fp: State): (a: real)
    requires |fp| == 7
    ensures a == (1.0 - Sum(fp)) + fp[1] + fp[2] + fp[3] + fp[4] + fp[5] + fp[6]
  {
    SumSeven(fp);
    1.0 - fp[0]
  }

  /**
    `deaths = affected - final_population[-1] - final_population[-2]`: the affected who are
    not in one of the two recovered compartments, that is the population lost from the
    compartments plus those still exposed or infectious.
  */
  function Deaths(fp: State): (d: real)
    requires |fp| == 7
    ensures d == (1.0 - Sum(fp)) + fp[1] + fp[2] + fp[3] + fp[4]
    ensures d == Affected(fp) - fp[5] - fp[6]
  {
    Affected(fp) - fp[|fp| - 1] - fp[|fp| - 2]
  }

  /** For a final state of fractions that sum to at most 1, 0 <= deaths <= affected <= 1. */
  lemma SummaryBounds(fp: State)
    requires |fp| == 7 && (forall j :: 0 <= j < 7 ==> 0.0 <= fp[j] <= 1.0) && Sum(fp) <= 1.0
    ensures 0.0 <= Deaths(fp) <= Affected(fp) <= 1.0
  {
    SumSeven(fp);
  }

  /**
    `[t for sol in sols for t in sol.t]`: the sample times of all segments, in order; the
    first segment's come first.
  */
  function Times(sols: seq<Segment>): (ts: seq<real>)
    ensures sols == [] ==> ts == []
    ensures sols != [] ==> |sols[0].t| <= |ts| && ts[..|sols[0].t|] == sols[0].t
  {
    if sols == [] then [] else sols[0].t + Times(sols[1..])
  }

  /**
    `[y for sol in sols for y in sepir.scale(sepir.aggregate(sol.y, ...), N)]`: the infectious
    level of every sample of every segment, in order; the first segment's come first.
  */
  function InfectiousSeries(sols: seq<Segment>, infectious: Series, N: real): (ys: seq<real>)
    ensures sols == [] ==> ys == []
    ensures sols != [] ==> |infectious(sols[0].y, N)| <= |ys| && ys[..|infectious(sols[0].y, N)|] == infectious(sols[0].y, N)
  {
    if sols == [] then [] else infectious(sols[0].y, N) + InfectiousSeries(sols[1..], infectious, N)
  }

  /**
    For well-shaped segments the two concatenations line up: one infectious level per sample
    time, and at least one sample when there is a segment.
  */
  lemma {:induction false} SeriesAligned(sols: seq<Segment>, infectious: Series, N: real, n: nat)
    requires ValidSeries(infectious) && n > 0 && forall k :: 0 <= k < |sols| ==> WellShaped(sols[k], n)
    ensures |InfectiousSeries(sols, infectious, N)| == |Times(sols)|
    ensures sols != [] ==> |Times(sols)| > 0
  {
    if sols != [] {
      SeriesAligned(sols[1..], infectious, N, n);
      assert |infectious(sols[0].y, N)| == SampleCount(sols[0].y) == |sols[0].t|;
    }
  }

  /**
    Every sample of every segment appears in the concatenations at one common position, with
    its time and its infectious level.
  */
  lemma {:induction false} SeriesCovers(sols: seq<Segment>, infectious: Series, N: real, n: nat, k: nat, i: nat)
    requires ValidSeries(infectious) && n > 0 && forall m :: 0 <= m < |sols| ==> WellShaped(sols[m], n)
    requires k < |sols| && i < |sols[k].t|
    ensures i < |infectious(sols[k].y, N)|
    ensures exists j :: 0 <= j < |Times(sols)| && j < |InfectiousSeries(sols, infectious, N)|
                        && Times(sols)[j] == sols[k].t[i]
                        && InfectiousSeries(sols, infectious, N)[j] == infectious(sols[k].y, N)[i]
  {
    assert |infectious(sols[k].y, N)| == SampleCount(sols[k].y) == |sols[k].t|;
    var t0, y0 := sols[0].t, infectious(sols[0].y, N);
    assert |y0| == SampleCount(sols[0].y) == |t0|;
    var rest := sols[1..];
    ConcatFirst(sols, infectious, N);
    if k == 0 {
      Shifted(t0, Times(rest), true, 0, i);
      Shifted(y0, InfectiousSeries(rest, infectious, N), true, 0, i);
    } else {
      SeriesCovers(rest, infectious, N, n, k - 1, i);
      assert rest[k - 1] == sols[k];
      var ts, ys := Times(rest), InfectiousSeries(rest, infectious, N);
      var j' :| 0 <= j' < |ts| && j' < |ys| && ts[j'] == sols[k].t[i] && ys[j'] == infectious(sols[k].y, N)[i];
      Shifted(t0, ts, false, |t0|, j');
      Shifted(y0, ys, false, |t0|, j');
    }
  }

  /** Both concatenations start with the first segment and go on with the rest. */
  lemma ConcatFirst(sols: seq<Segment>, infectious: Series, N: real)
    requires sols != []
    ensures Times(sols) == sols[0].t + Times(sols[1..])
    ensures InfectiousSeries(sols, infectious, N) == infectious(sols[0].y, N) + InfectiousSeries(sols[1..], infectious, N)
  {
  }

  /** Index `off + j` of `a + b`: index j of `a` at offset 0, index j of `b` at offset |a|. */
  lemma Shifted(a: seq<real>, b: seq<real>, inA: bool, off: nat, j: nat)
    requires if inA then off == 0 && j < |a| else off == |a| && j < |b|
    ensures off + j < |a + b|
    ensures (a + b)[off + j] == if inA then a[j] else b[j]
  {
  }

  /** `np.argmax(ys)`: the first index at which the maximum of a non-empty list occurs. */
  function ArgMax(ys: seq<real>): (i: nat)
    requires ys != []
    ensures i < |ys|
    ensures forall j :: 0 <= j < |ys| ==> ys[j] <= ys[i]
    ensures forall j :: 0 <= j < i ==> ys[j] < ys[i]
  {
    if |ys| == 1 then 0
    else
      var k := ArgMax(ys[..|ys| - 1]);
      if ys[|ys| - 1] > ys[k] then |ys| - 1 else k
  }

  /** The four numbers one trial contributes to the four distributions. */
  datatype Stats = Stats(duration: real, mortality: real, peak: real, infection: real)

  /**
    The summary of one trial: mortality and infections are N times the deaths and the
    affected of the last sample of the last segment; the peak is the largest infectious
    level over the stitched trajectory and the duration the time of its first occurrence.
  */
  function Summarize(sols: seq<Segment>, infectious: Series, N: real): (s: Stats)
    requires ValidSeries(infectious) && sols != [] && forall k :: 0 <= k < |sols| ==> WellShaped(sols[k], 7)
    ensures WellShaped(sols[|sols| - 1], 7)
    ensures var fp := LastSample(sols[|sols| - 1]);
      s.mortality == N * Deaths(fp) && s.infection == N * Affected(fp)
    ensures var ys, ts := InfectiousSeries(sols, infectious, N), Times(sols);
      && |ys| == |ts|
      && (forall j :: 0 <= j < |ys| ==> ys[j] <= s.peak)
      && exists i :: 0 <= i < |ys| && ys[i] == s.peak && ts[i] == s.duration
                     && forall j :: 0 <= j < i ==> ys[j] < s.peak
  {
    SeriesAligned(sols, infectious, N, 7);
    var fp := LastSample(sols[|sols| - 1]);
    var ys, ts := InfectiousSeries(sols, infectious, N), Times(sols);
    var i := ArgMax(ys);
    Stats(ts[i], N * Deaths(fp), ys[i], N * Affected(fp))
  }

  /** The peak is at least the infectious level of every sample of every segment. */
  lemma PeakDominates(sols: seq<Segment>, infectious: Series, N: real, k: nat, i: nat)
    requires ValidSeries(infectious) && sols != [] && forall m :: 0 <= m < |sols| ==> WellShaped(sols[m], 7)
    requires k < |sols| && i < |sols[k].t|
    ensures i < |infectious(sols[k].y, N)|
    ensures infectious(sols[k].y, N)[i] <= Summarize(sols, infectious, N).peak
  {
    assert |infectious(sols[k].y, N)| == SampleCount(sols[k].y);
    SeriesCovers(sols, infectious, N, 7, k, i);
  }

  /** The command-line options of the Monte Carlo study that the model reads. */
  datatype Config = Config(
    M: nat,         // number of trials
    R0: real,       // basic reproduction number
    initial: real,  // number exposed at the start
    p: Params,      // N, c, alpha, gamma, delta, epsilon, CFR1, CFR0, nICU, pICU
    end: int,       // last day simulated
    start: int,     // first breakpoint
    dt: int,        // largest gap between breakpoints
    average: real)  // average effect of an intervention on R0

  /** A trial draws its factors from [2 * average - 1, 1], an interval whose midpoint is `average`. */
  function LowerBound(cfg: Config): (lb: real)
    ensures (lb + 1.0) / 2.0 == cfg.average
    ensures lb <= 1.0 <==> cfg.average <= 1.0
  {
    2.0 * cfg.average - 1.0
  }

  /**
    One trial on the stream `draws`: its summary and the number of draws its schedule took,
    or the error that ends the study. The schedule's own errors come first, then the empty
    schedule that `change_R0` cannot index, then the division by N = 0.
  */
  function Trial(cfg: Config, solve: Solver, infectious: Series, draws: seq<Draw>): (r: Result<(Stats, nat)>)
    requires ValidSolver(solve) && ValidSeries(infectious)
    ensures r.Ok? ==> r.value.1 <= |draws|
    ensures var g := CreateSchedule(cfg.start, cfg.R0, LowerBound(cfg), 1.0, cfg.dt, draws);
      && (r.Err? <==> g.Err? || g.value == [] || cfg.p.N == 0.0)
      && (g.Err? ==> r == Err(g.error))
      && (g.Ok? && g.value == [] ==> r == Err(EmptySchedule))
      && (g.Ok? && g.value != [] && cfg.p.N == 0.0 ==> r == Err(ZeroPopulation))
      && (r.Ok? ==> r.value.1 == |g.value|)
  {
    var g := CreateSchedule(cfg.start, cfg.R0, LowerBound(cfg), 1.0, cfg.dt, draws);
    if g.Err? then Err(g.error)
    else if g.value == [] then Err(EmptySchedule)
    else if cfg.p.N == 0.0 then Err(ZeroPopulation)
    else
      var y0 := InitialState(cfg.initial, cfg.p.N);
      var run := Chain(solve, (0, cfg.end), g.value, cfg.R0, y0, cfg.p, Later(cfg.p)).value;
      assert forall k :: 0 <= k < |run.sols| ==> WellShaped(run.sols[k], 7) by {
        ChainShaped(solve, (0, cfg.end), g.value, cfg.R0, y0, cfg.p, Later(cfg.p));
      }
      Ok((Summarize(run.sols, infectious, cfg.p.N), |g.value|))
  }

  /** A trial as a function of the draws it is fed: its summary and the number of draws it took. */
  type TrialFn = seq<Draw> -> Result<(Stats, nat)>

  /** Every successful trial reports a number of draws it actually had. */
  ghost predicate Consumes(trial: TrialFn)
  {
    forall d :: trial(d).Ok? ==> trial(d).value.1 <= |d|
  }

  /**
    With average >= 1 the bounds [2 * average - 1, 1] are both at least 1 (the lower one above
    the upper one once average > 1), so while R0 >= 1 a trial's schedule never ends: the trial
    fails on `randint(1, dt)` when dt < 1 and otherwise runs out of every finite stream.
  */
  lemma TrialNeverStops(cfg: Config, solve: Solver, infectious: Series, draws: seq<Draw>)
    requires ValidSolver(solve) && ValidSeries(infectious)
    requires cfg.average >= 1.0 && cfg.R0 >= 1.0 && UnitDraws(draws)
    ensures Trial(cfg, solve, infectious, draws) == Err(if cfg.dt < 1 then EmptyStepRange else DrawsExhausted)
  {
    GenerateNeverStops(cfg.start, cfg.R0, LowerBound(cfg), 1.0, draws);
  }

  /** The trial of t028.py with the study's configuration fixed. */
  function TrialOf(cfg: Config, solve: Solver, infectious: Series): (trial: TrialFn)
    requires ValidSolver(solve) && ValidSeries(infectious)
    ensures Consumes(trial)
    ensures forall d :: trial(d) == Trial(cfg, solve, infectious, d)
  {
    d => Trial(cfg, solve, infectious, d)
  }

  /** m trials in turn, each on the draws the ones before it left. */
  function Trials(trial: TrialFn, draws: seq<Draw>, m: nat): (r: Result<seq<Stats>>)
    requires Consumes(trial)
    ensures r.Ok? ==> |r.value| == m
    decreases m
  {
    if m == 0 then Ok([])
    else
      match trial(draws)
      case Err(e) => Err(e)
      case Ok((s, used)) => Prepend([s], Trials(trial, draws[used..], m - 1))
  }

  /**
    One pass of the Monte Carlo loop: draw a schedule, compose its trajectory and summarize
    it, reporting how many draws the schedule took.
  */
  method RunTrial(cfg: Config, solve: Solver, infectious: Series, draws: seq<Draw>) returns (r: Result<(Stats, nat)>)
    requires ValidSolver(solve) && ValidSeries(infectious)
    ensures r == Trial(cfg, solve, infectious, draws)
  {
    var npis := CreateNpis(cfg.start, cfg.R0, LowerBound(cfg), 1.0, cfg.dt, draws);
    if npis.Err? {
      return Err(npis.error);
    }
    var run := ChangeR0(solve, (0, cfg.end), npis.value, cfg.R0, cfg.initial, cfg.p);
    if run.Err? {
      return Err(run.error);
    }
    ChainShaped(solve, (0, cfg.end), npis.value, cfg.R0, InitialState(cfg.initial, cfg.p.N), cfg.p, Later(cfg.p));
    r := Ok((Summarize(run.value.sols, infectious, cfg.p.N), |npis.value|));
  }

  /** The four distributions the study collects, one entry per trial. */
  datatype Columns = Columns(durations: seq<real>, mortalities: seq<real>, peaks: seq<real>, infections: seq<real>)

  /** Column k of the table holds field k of each trial's summary, in trial order. */
  predicate Tabulates(c: Columns, trials: seq<Stats>)
  {
    && |c.durations| == |c.mortalities| == |c.peaks| == |c.infections| == |trials|
    && forall k :: 0 <= k < |trials| ==>
         && c.durations[k] == trials[k].duration && c.mortalities[k] == trials[k].mortality
         && c.peaks[k] == trials[k].peak && c.infections[k] == trials[k].infection
  }

  /** A trial that fails ends the study with its error. */
  lemma TrialsFail(trial: TrialFn, draws: seq<Draw>, m: nat, done: seq<Stats>, e: Error)
    requires Consumes(trial) && m > 0 && trial(draws) == Err(e)
    ensures Prepend(done, Trials(trial, draws, m)) == Err(e)
  {
  }

  /** A trial that succeeds contributes its summary, and the study goes on past its draws. */
  lemma TrialsAdvance(trial: TrialFn, draws: seq<Draw>, m: nat, done: seq<Stats>, s: Stats, used: nat)
    requires Consumes(trial) && m > 0 && trial(draws) == Ok((s, used))
    ensures used <= |draws|
    ensures Prepend(done, Trials(trial, draws, m)) == Prepend(done + [s], Trials(trial, draws[used..], m - 1))
  {
    PrependTwice(done, [s], Trials(trial, draws[used..], m - 1));
  }

  /** The four columns of a table of trials, built row by row in trial order. */
  function Table(trials: seq<Stats>): (c: Columns)
    ensures |c.durations| == |c.mortalities| == |c.peaks| == |c.infections| == |trials|
  {
    if trials == [] then Columns([], [], [], [])
    else
      var c := Table(trials[..|trials| - 1]);
      var s := trials[|trials| - 1];
      Columns(c.durations + [s.duration], c.mortalities + [s.mortality], c.peaks + [s.peak], c.infections + [s.infection])
  }

  /** Table really is the tabulation of its trials. */
  lemma {:induction false} TableTabulates(trials: seq<Stats>)
    ensures Tabulates(Table(trials), trials)
  {
    if trials != [] {
      var prev := trials[..|trials| - 1];
      TableTabulates(prev);
      assert forall k :: 0 <= k < |prev| ==> trials[k] == prev[k];
    }
  }

  /** One more trial appends one row to the table. */
  lemma TableSnoc(trials: seq<Stats>, s: Stats)
    ensures var c := Table(trials);
      Table(trials + [s])
      == Columns(c.durations + [s.duration], c.mortalities + [s.mortality], c.peaks + [s.peak], c.infections + [s.infection])
  {
    assert (trials + [s])[..|trials|] == trials;
  }

  /**
    The Monte Carlo loop: M trials, each appending its summary to the four lists. The lists
    end with M entries each, holding the summaries of `Trials` in order; an error in any
    trial ends the study with that error.
  */
  method MonteCarlo(M: nat, trial: TrialFn, draws: seq<Draw>) returns (r: Result<Columns>)
    requires Consumes(trial)
    ensures var trials := Trials(trial, draws, M);
      && (r.Ok? <==> trials.Ok?)
      && (r.Ok? ==> r.value == Table(trials.value) && Tabulates(r.value, trials.value) && |r.value.durations| == M)
      && (r.Err? ==> r.error == trials.error)
  {
    var durations, mortalities, peaks, infections := [], [], [], [];
    ghost var done: seq<Stats> := [];
    ghost var goal := Trials(trial, draws, M);
    var rest := draws;
    PrependNil(goal);
    for i := 0 to M
      invariant goal == Prepend(done, Trials(trial, rest, M - i))
      invariant Columns(durations, mortalities, peaks, infections) == Table(done) && |done| == i
    {
      var outcome := trial(rest);
      if outcome.Err? {
        TrialsFail(trial, rest, M - i, done, outcome.error);
        return Err(outcome.error);
      }
      var (s, used) := outcome.value;
      TrialsAdvance(trial, rest, M - i, done, s, used);
      TableSnoc(done, s);
      durations := durations + [s.duration];
      mortalities := mortalities + [s.mortality];
      peaks := peaks + [s.peak];
      infections := infections + [s.infection];
      done := done + [s];
      rest := rest[used..];
    }
    PrependNil(Trials(trial, rest, 0));
    assert done + [] == done;
    TableTabulates(done);
    r := Ok(Columns(durations, mortalities, peaks, infections));
  }

  /** The t028 study: the Monte Carlo loop over `cfg.M` trials of t028.py. */
  method Study(cfg: Config, solve: Solver, infectious: Series, draws: seq<Draw>) returns (r: Result<Columns>)
    requires ValidSolver(solve) && ValidSeries(infectious)
    ensures var trials := Trials(TrialOf(cfg, solve, infectious), draws, cfg.M);
      && (r.Ok? <==> trials.Ok?)
      && (r.Ok? ==> Tabulates(r.value, trials.value) && |r.value.durations| == cfg.M)
      && (r.Err? ==> r.error == trials.error)
  {
    r := MonteCarlo(cfg.M, TrialOf(cfg, solve, infectious), draws);
  }
}
