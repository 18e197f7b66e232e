/**
  The piecewise trajectory composer `change_R0`, which t028.py and eliminate.py define with
  the same loop and differ only in the arguments they hand to `evolve`. One segment runs from
  the start of the time range to the first breakpoint, one between each pair of consecutive
  breakpoints and one from the last breakpoint to the end of the range. Each segment starts
  from the last sample of the one before, at the R0 in force: the initial R0 multiplied by the
  factors of the breakpoints passed so far.
*/
module Trajectory {
  import opened Results
  import opened Sepir
  import opened Schedule

  /** What `change_R0` returns: the segments `sols` and the R0 in force during each, `R0s`. */
  datatype Run = Run(sols: seq<Segment>, R0s: seq<real>)

  /**
    `[1 - initial/N, initial/N, 0, 0, 0, 0, 0]`: everyone susceptible except `exposed`
    people, as fractions of a population of N.
  */
  function InitialState(exposed: real, N: real): (y: State)
    requires N != 0.0
    ensures |y| == 7 && Sum(y) == 1.0
    ensures y[1] == exposed / N && forall j :: 2 <= j < 7 ==> y[j] == 0.0
    ensures 0.0 <= exposed <= N ==> forall j :: 0 <= j < 7 ==> 0.0 <= y[j] <= 1.0
  {
    var y := [1.0 - exposed / N, exposed / N, 0.0, 0.0, 0.0, 0.0, 0.0];
    SumSeven(y);
    y
  }

  /** The R0 in force during segment k: R0 multiplied by the first k factors in turn. */
  function RateAt(R0: real, npis: seq<Npi>, k: nat): (r: real)
    requires k <= |npis|
  {
    Running(R0, Factors(npis)[..k])
  }

  /**
    The R0 of every segment, one more than there are breakpoints: the list `change_R0`
    builds, starting from R0.
  */
  function Rates(R0: real, npis: seq<Npi>): (rs: seq<real>)
    ensures |rs| == |npis| + 1 && rs[0] == R0
  {
    RatesUpTo(R0, npis, |npis| + 1)
  }

  /**
    The R0 of the first n segments: R0, then each one the R0 before it multiplied by the
    factor of the breakpoint that opens its segment.
  */
  function RatesUpTo(R0: real, npis: seq<Npi>, n: nat): (rs: seq<real>)
    requires n <= |npis| + 1
    ensures |rs| == n && (n > 0 ==> rs[0] == R0)
  {
    if n == 0 then []
    else if n == 1 then [R0]
    else
      var prev := RatesUpTo(R0, npis, n - 1);
      prev + [Scaled(prev[n - 2], npis[n - 2].factor)]
  }

  /** Listing more segments' R0 leaves the earlier entries as they were. */
  lemma {:induction false} RatesPrefix(R0: real, npis: seq<Npi>, m: nat, n: nat)
    requires m <= n <= |npis| + 1
    ensures RatesUpTo(R0, npis, n)[..m] == RatesUpTo(R0, npis, m)
    decreases n
  {
    if m < n {
      RatesPrefix(R0, npis, m, n - 1);
      assert RatesUpTo(R0, npis, n)[..n - 1] == RatesUpTo(R0, npis, n - 1);
      PrefixOfPrefix(RatesUpTo(R0, npis, n), RatesUpTo(R0, npis, n - 1), RatesUpTo(R0, npis, m), m);
    }
  }

  lemma RateStep(R0: real, npis: seq<Npi>, k: nat)
    requires k < |npis|
    ensures RateAt(R0, npis, k + 1) == Scaled(RateAt(R0, npis, k), npis[k].factor)
  {
    assert Factors(npis)[..k + 1] == Factors(npis)[..k] + [npis[k].factor];
    RunningSnoc(R0, Factors(npis)[..k], npis[k].factor);
  }

  /** Segment k runs to the breakpoint after it, the tail segment to the end of the range ... */
  function End(tRange: (int, int), npis: seq<Npi>, k: nat): (t1: int)
    requires k <= |npis|
  {
    if k < |npis| then npis[k].t else tRange.1
  }

  /** ... from the start of the range, or from where the segment before it ended. */
  function Start(tRange: (int, int), npis: seq<Npi>, k: nat): (t0: int)
    requires k <= |npis|
    ensures k == 0 ==> t0 == tRange.0
    ensures k > 0 ==> t0 == End(tRange, npis, k - 1) == npis[k - 1].t
  {
    if k == 0 then tRange.0 else npis[k - 1].t
  }

  /**
    The intervals tile the time range: the first starts at its start, the tail ends at its
    end, and each interval ends where the next begins. For an increasing schedule inside the
    range every interval runs forward, and every interval between two breakpoints has
    positive length.
  */
  lemma IntervalsTile(tRange: (int, int), npis: seq<Npi>)
    ensures Start(tRange, npis, 0) == tRange.0
    ensures End(tRange, npis, |npis|) == tRange.1
    ensures forall k :: 0 <= k < |npis| ==> End(tRange, npis, k) == Start(tRange, npis, k + 1)
    ensures Increasing(npis) && npis != [] && tRange.0 <= npis[0].t && npis[|npis| - 1].t <= tRange.1 ==>
      && (forall k :: 0 <= k <= |npis| ==> Start(tRange, npis, k) <= End(tRange, npis, k))
      && (forall k :: 0 < k < |npis| ==> Start(tRange, npis, k) < End(tRange, npis, k))
  {
  }

  /**
    The first n segments `change_R0` integrates: segment k starts from `y0` (k = 0) or from
    the last sample of segment k - 1, and is integrated at `rs[k]` with `first` (k = 0) or
    `later`.
  */
  function Segments(solve: Solver, tRange: (int, int), npis: seq<Npi>, rs: seq<real>, y0: State,
                    first: Params, later: Params, n: nat): (sols: seq<Segment>)
    requires |rs| == |npis| + 1 && n <= |rs|
    ensures |sols| == n
    decreases n
  {
    if n == 0 then []
    else
      var prev := Segments(solve, tRange, npis, rs, y0, first, later, n - 1);
      var k := n - 1;
      var y := if k == 0 then y0 else LastSample(prev[k - 1]);
      prev + [solve(Start(tRange, npis, k), End(tRange, npis, k), y, rs[k],
                    if k == 0 then first else later)]
  }

  /** What `change_R0` returns; an empty schedule fails on reading its first breakpoint. */
  function Chain(solve: Solver, tRange: (int, int), npis: seq<Npi>, R0: real, y0: State,
                 first: Params, later: Params): (r: Result<Run>)
    ensures r.Err? <==> npis == []
    ensures r.Ok? ==> |r.value.sols| == |r.value.R0s| == |npis| + 1
  {
    if npis == [] then Err(EmptySchedule)
    else
      var rs := Rates(R0, npis);
      Ok(Run(Segments(solve, tRange, npis, rs, y0, first, later, |npis| + 1), rs))
  }

  /** With a valid solver every segment of a run is a well-shaped solution over all compartments. */
  lemma ChainShaped(solve: Solver, tRange: (int, int), npis: seq<Npi>, R0: real, y0: State,
                    first: Params, later: Params)
    requires ValidSolver(solve)
    ensures var r := Chain(solve, tRange, npis, R0, y0, first, later);
      r.Ok? ==> forall k :: 0 <= k < |r.value.sols| ==> WellShaped(r.value.sols[k], |y0|)
  {
    if npis != [] {
      SegmentsShaped(solve, tRange, npis, Rates(R0, npis), y0, first, later, |npis| + 1);
    }
  }

  /** Every segment is a well-shaped solution over all compartments. */
  lemma {:induction false} SegmentsShaped(solve: Solver, tRange: (int, int), npis: seq<Npi>, rs: seq<real>,
                                          y0: State, first: Params, later: Params, n: nat)
    requires ValidSolver(solve) && |rs| == |npis| + 1 && n <= |rs|
    ensures forall k :: 0 <= k < n ==> WellShaped(Segments(solve, tRange, npis, rs, y0, first, later, n)[k], |y0|)
    decreases n
  {
    if n > 0 {
      var prev := Segments(solve, tRange, npis, rs, y0, first, later, n - 1);
      var s := Segments(solve, tRange, npis, rs, y0, first, later, n);
      SegmentsShaped(solve, tRange, npis, rs, y0, first, later, n - 1);
      assert s[..n - 1] == prev;
      forall k | 0 <= k < n - 1 ensures WellShaped(s[k], |y0|) {
        assert s[k] == prev[k];
      }
      var y := if n == 1 then y0 else LastSample(prev[n - 2]);
      assert |y| == |y0|;
      assert s[n - 1] == solve(Start(tRange, npis, n - 1), End(tRange, npis, n - 1), y,
                               rs[n - 1], if n == 1 then first else later);
      SolverShaped(solve, Start(tRange, npis, n - 1), End(tRange, npis, n - 1), y,
                   rs[n - 1], if n == 1 then first else later);
    }
  }

  /**
    The loop of `change_R0`: the first segment at R0 with `first`, one segment per pair of
    consecutive breakpoints and a tail segment to the end of the range, each at the running
    R0 and with `later`, each starting from the previous segment's last sample.
  */
  method Compose(solve: Solver, tRange: (int, int), npis: seq<Npi>, R0: real, y0: State,
                 first: Params, later: Params) returns (r: Result<Run>)
    ensures r == Chain(solve, tRange, npis, R0, y0, first, later)
  {
    if |npis| == 0 {
      return Err(EmptySchedule);
    }
    ghost var rs := Rates(R0, npis);
    var t0 := tRange.0;
    var t1 := npis[0].t;
    var sols := [solve(t0, t1, y0, R0, first)];
    var R0s := [R0];
    var r0 := R0;
    for i := 0 to |npis| - 1
      invariant sols == Segments(solve, tRange, npis, rs, y0, first, later, i + 1)
      invariant R0s == RatesUpTo(R0, npis, i + 1)
      invariant r0 == R0s[i]
      invariant t1 == npis[i].t
    {
      ChainStep(solve, tRange, npis, R0, y0, first, later, i + 1);
      t0 := t1;
      t1 := npis[i + 1].t;
      r0 := Scaled(r0, npis[i].factor);
      sols := sols + [solve(t0, t1, LastSample(sols[|sols| - 1]), r0, later)];
      R0s := R0s + [r0];
    }
    ChainStep(solve, tRange, npis, R0, y0, first, later, |npis|);
    t0 := t1;
    t1 := tRange.1;
    r0 := Scaled(r0, npis[|npis| - 1].factor);
    sols := sols + [solve(t0, t1, LastSample(sols[|sols| - 1]), r0, later)];
    R0s := R0s + [r0];
    r := Ok(Run(sols, R0s));
  }

  /** One pass of the loop in `change_R0`: the next rate and the next segment. */
  lemma ChainStep(solve: Solver, tRange: (int, int), npis: seq<Npi>, R0: real, y0: State,
                  first: Params, later: Params, n: nat)
    requires 0 < n <= |npis|
    ensures var rs := Rates(R0, npis);
      var prevR := RatesUpTo(R0, npis, n);
      var next := Scaled(prevR[n - 1], npis[n - 1].factor);
      var prev := Segments(solve, tRange, npis, rs, y0, first, later, n);
      && RatesUpTo(R0, npis, n + 1) == prevR + [next]
      && Segments(solve, tRange, npis, rs, y0, first, later, n + 1)
         == prev + [solve(Start(tRange, npis, n), End(tRange, npis, n), LastSample(prev[n - 1]), next, later)]
  {
    var rs := Rates(R0, npis);
    RatesPrefix(R0, npis, n + 1, |npis| + 1);
    assert rs[n] == RatesUpTo(R0, npis, n + 1)[n];
    SegmentsNext(solve, tRange, npis, rs, y0, first, later, n);
  }

  /** Segment n, the one after the first n, starts from the last sample of segment n - 1. */
  lemma SegmentsNext(solve: Solver, tRange: (int, int), npis: seq<Npi>, rs: seq<real>,
                     y0: State, first: Params, later: Params, n: nat)
    requires |rs| == |npis| + 1 && 0 < n < |rs|
    ensures var prev := Segments(solve, tRange, npis, rs, y0, first, later, n);
      Segments(solve, tRange, npis, rs, y0, first, later, n + 1)
      == prev + [solve(Start(tRange, npis, n), End(tRange, npis, n), LastSample(prev[n - 1]), rs[n], later)]
  {
  }

  /** One more segment leaves the earlier ones as they were. */
  lemma SegmentsSnoc(solve: Solver, tRange: (int, int), npis: seq<Npi>, rs: seq<real>,
                     y0: State, first: Params, later: Params, n: nat)
    requires |rs| == |npis| + 1 && 0 < n <= |rs|
    ensures Segments(solve, tRange, npis, rs, y0, first, later, n)[..n - 1]
         == Segments(solve, tRange, npis, rs, y0, first, later, n - 1)
  {
  }

  lemma PrefixOfPrefix<T>(s: seq<T>, p: seq<T>, q: seq<T>, m: nat)
    requires 0 < |s| && m <= |p| && s[..|s| - 1] == p && p[..m] == q
    ensures s[..m] == q
  {
    assert s[..m] == s[..|s| - 1][..m];
  }

  /** Segment k of the first n, in terms of the segment before it. */
  lemma {:induction false} SegmentAt(solve: Solver, tRange: (int, int), npis: seq<Npi>, rs: seq<real>, y0: State,
                                     first: Params, later: Params, n: nat, k: nat)
    requires |rs| == |npis| + 1 && k < n <= |rs|
    ensures var sols := Segments(solve, tRange, npis, rs, y0, first, later, n);
      sols[k] == solve(Start(tRange, npis, k), End(tRange, npis, k),
                       if k == 0 then y0 else LastSample(sols[k - 1]),
                       rs[k], if k == 0 then first else later)
    decreases n
  {
    if k < n - 1 {
      SegmentAt(solve, tRange, npis, rs, y0, first, later, n - 1, k);
      SegmentsSnoc(solve, tRange, npis, rs, y0, first, later, n);
      var sols := Segments(solve, tRange, npis, rs, y0, first, later, n);
      var prev := Segments(solve, tRange, npis, rs, y0, first, later, n - 1);
      assert sols[k] == prev[k];
      if k > 0 {
        assert sols[k - 1] == prev[k - 1];
      }
    } else if k > 0 {
      SegmentsNext(solve, tRange, npis, rs, y0, first, later, k);
    }
  }

  /**
    Segment intervals chain exactly and the state carries over: the first segment runs from
    the start of the range to the first breakpoint from `y0` at R0 with `first`; segment k
    runs between breakpoints k - 1 and k (the last one to the end of the range) from the last
    sample of segment k - 1 at R0s[k] with `later`. An empty schedule gives no run.
  */
  lemma ChainSegments(solve: Solver, tRange: (int, int), npis: seq<Npi>, R0: real, y0: State,
                      first: Params, later: Params)
    ensures Chain(solve, tRange, npis, R0, y0, first, later).Err? <==> npis == []
    ensures npis != [] ==>
      var run := Chain(solve, tRange, npis, R0, y0, first, later).value;
      && |run.sols| == |run.R0s| == |npis| + 1
      && run.sols[0] == solve(tRange.0, npis[0].t, y0, R0, first)
      && (forall k :: 0 < k < |npis| ==>
            run.sols[k] == solve(npis[k - 1].t, npis[k].t, LastSample(run.sols[k - 1]), run.R0s[k], later))
      && run.sols[|npis|]
         == solve(npis[|npis| - 1].t, tRange.1, LastSample(run.sols[|npis| - 1]), run.R0s[|npis|], later)
  {
    if npis != [] {
      var n := |npis| + 1;
      var rs := Rates(R0, npis);
      SegmentAt(solve, tRange, npis, rs, y0, first, later, n, 0);
      forall k | 0 < k < n
        ensures Segments(solve, tRange, npis, rs, y0, first, later, n)[k]
             == solve(Start(tRange, npis, k), End(tRange, npis, k),
                      LastSample(Segments(solve, tRange, npis, rs, y0, first, later, n)[k - 1]),
                      rs[k], later)
      {
        SegmentAt(solve, tRange, npis, rs, y0, first, later, n, k);
      }
    }
  }

  /**
    The R0 list starts at R0 and each later entry is the one before multiplied by the factor
    of the breakpoint that opens its segment (`R0 *= npi[1]` in the loop).
  */
  lemma RatesRecurrence(R0: real, npis: seq<Npi>)
    ensures Rates(R0, npis)[0] == R0
    ensures forall k :: 0 <= k < |npis| ==> Rates(R0, npis)[k + 1] == Rates(R0, npis)[k] * npis[k].factor
  {
    forall k | 0 <= k < |npis| ensures Rates(R0, npis)[k + 1] == Scaled(Rates(R0, npis)[k], npis[k].factor) {
      RatesPrefix(R0, npis, k + 2, |npis| + 1);
      assert Rates(R0, npis)[k + 1] == RatesUpTo(R0, npis, k + 2)[k + 1];
      assert Rates(R0, npis)[k] == RatesUpTo(R0, npis, k + 2)[k];
    }
  }

  /** The list the loop builds agrees with the running product of the factors, segment by segment. */
  lemma RatesRunning(R0: real, npis: seq<Npi>)
    ensures forall k :: 0 <= k <= |npis| ==> Rates(R0, npis)[k] == RateAt(R0, npis, k)
  {
    var rs := Rates(R0, npis);
    RatesRecurrence(R0, npis);
    assert Factors(npis)[..0] == [];
    for k := 0 to |npis|
      invariant forall j :: 0 <= j <= k ==> rs[j] == RateAt(R0, npis, j)
    {
      RateStep(R0, npis, k);
    }
  }

  /** Entry k of the R0 list is R0 times the product of the first k factors. */
  lemma RatesProduct(R0: real, npis: seq<Npi>)
    ensures forall k :: 0 <= k <= |npis| ==> Rates(R0, npis)[k] == R0 * Prod(Factors(npis)[..k])
  {
    RatesRunning(R0, npis);
    forall k | 0 <= k <= |npis| ensures Rates(R0, npis)[k] == R0 * Prod(Factors(npis)[..k]) {
      RunningIsProduct(R0, Factors(npis)[..k]);
    }
  }

  /**
    With R0 >= 0 and every factor in [0, 1], the R0 in force never increases from one
    segment to a later one and never becomes negative.
  */
  lemma RatesNonIncreasing(R0: real, npis: seq<Npi>)
    requires R0 >= 0.0
    requires forall i :: 0 <= i < |npis| ==> 0.0 <= npis[i].factor <= 1.0
    ensures forall j, k :: 0 <= j <= k <= |npis| ==> 0.0 <= Rates(R0, npis)[k] <= Rates(R0, npis)[j]
  {
    var rs := Rates(R0, npis);
    for k := 0 to |npis|
      invariant forall j, m :: 0 <= j <= m <= k ==> 0.0 <= rs[m] <= rs[j]
    {
      RateStepDown(R0, npis, k);
      forall j, m | 0 <= j <= m <= k + 1 ensures 0.0 <= rs[m] <= rs[j] {
        if m <= k {
          assert 0.0 <= rs[m] <= rs[j];
        } else if j <= k {
          assert rs[k] <= rs[j];
        }
      }
    }
  }

  lemma RateStepDown(R0: real, npis: seq<Npi>, k: nat)
    requires k < |npis| && Rates(R0, npis)[k] >= 0.0 && 0.0 <= npis[k].factor <= 1.0
    ensures 0.0 <= Rates(R0, npis)[k + 1] <= Rates(R0, npis)[k]
  {
    RatesRecurrence(R0, npis);
    var a, f := Rates(R0, npis)[k], npis[k].factor;
    assert Rates(R0, npis)[k + 1] == a * f;
    ScaleWithin(a, f);
    assert 0.0 <= a * f <= a;
  }

  /**
    Fed a schedule `create_NPIs` built from the same R0, the composer keeps R0 at or above 1
    in every segment but the tail, and below 1 in the tail.
  */
  lemma RatesCrossOneAtTail(start: int, R0: real, lower: real, upper: real, draws: seq<Draw>)
    requires Generate(start, R0, lower, upper, draws).Ok?
    ensures var npis := Generate(start, R0, lower, upper, draws).value;
      var rs := Rates(R0, npis);
      && rs[|npis|] < 1.0
      && forall k :: 0 <= k < |npis| ==> rs[k] >= 1.0
  {
    var npis := Generate(start, R0, lower, upper, draws).value;
    GenerateStops(start, R0, lower, upper, draws);
    RatesRunning(R0, npis);
    assert Factors(npis)[..|npis|] == Factors(npis);
  }

  /**
    The default arguments of `change_R0`: R0 = 2.5 over days 0 to 400 with breakpoints on
    days 145, 150, 155 and 160 give five segments, [0, 145], [145, 150], [150, 155],
    [155, 160] and [160, 400], at R0 2.5, 1.75, 1.4, 1.26 and 0.945.
  */
  lemma DefaultScenario(solve: Solver, y0: State, first: Params, later: Params)
    ensures var npis := [Npi(145, 0.7), Npi(150, 0.8), Npi(155, 0.9), Npi(160, 0.75)];
      var r := Chain(solve, (0, 400), npis, 2.5, y0, first, later);
      && r.Ok?
      && |r.value.sols| == 5
      && r.value.R0s == [2.5, 1.75, 1.4, 1.26, 0.945]
      && [Start((0, 400), npis, 0), Start((0, 400), npis, 1), Start((0, 400), npis, 2),
          Start((0, 400), npis, 3), Start((0, 400), npis, 4)] == [0, 145, 150, 155, 160]
      && [End((0, 400), npis, 0), End((0, 400), npis, 1), End((0, 400), npis, 2),
          End((0, 400), npis, 3), End((0, 400), npis, 4)] == [145, 150, 155, 160, 400]
  {
    var npis := [Npi(145, 0.7), Npi(150, 0.8), Npi(155, 0.9), Npi(160, 0.75)];
    ChainSegments(solve, (0, 400), npis, 2.5, y0, first, later);
    RatesRecurrence(2.5, npis);
    var rs := Rates(2.5, npis);
    assert rs[1] == 1.75 && rs[2] == 1.4 && rs[3] == 1.26 && rs[4] == 0.945;
  }
}
