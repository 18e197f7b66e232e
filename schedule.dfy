/**
  The intervention schedule generator `create_NPIs`, which t028.py and eliminate.py define
  with the same body. Starting at `start`, it draws a factor, records (time, factor),
  multiplies the running R0 by the factor and advances time by a drawn step, for as long as
  the running R0 is at least 1.

  The random module is replaced by an explicit stream of draws, one per pass of the loop.
*/
module Schedule {
  import opened Results

  /** One breakpoint: from day `t` on, R0 is multiplied by `factor`. */
  datatype Npi = Npi(t: int, factor: real)

  /**
    The randomness one pass of the loop consumes: `u` is the `random.random()` value behind
    `random.uniform`, and `step` is the value `random.randint(1, dt)` returned.
  */
  datatype Draw = Draw(u: real, step: int)

  /** Every `random.random()` value lies in the unit interval. */
  predicate UnitDraws(draws: seq<Draw>)
  {
    forall i :: 0 <= i < |draws| ==> 0.0 <= draws[i].u <= 1.0
  }

  /** Draws as the random module delivers them for a maximum step of `dt`. */
  predicate DrawsValid(draws: seq<Draw>, dt: int)
  {
    UnitDraws(draws) && forall i :: 0 <= i < |draws| ==> 1 <= draws[i].step <= dt
  }

  /** `random.uniform(lower, upper)`, computed from the underlying unit draw `u`. */
  function Uniform(lower: real, upper: real, u: real): (f: real)
    ensures 0.0 <= u <= 1.0 && lower <= upper ==> lower <= f <= upper
    ensures 0.0 <= u <= 1.0 && upper <= lower ==> upper <= f <= lower
  {
    var f := lower + (upper - lower) * u;
    UniformWithin(lower, upper, u, f);
    f
  }

  lemma UniformWithin(lower: real, upper: real, u: real, f: real)
    requires f == lower + (upper - lower) * u
    ensures 0.0 <= u <= 1.0 && lower <= upper ==> lower <= f <= upper
    ensures 0.0 <= u <= 1.0 && upper <= lower ==> upper <= f <= lower
  {
    if 0.0 <= u <= 1.0 {
      var d := upper - lower;
      assert f == lower + d * u;
      if lower <= upper {
        MulLeLeft(d, 0.0, u);
        MulLeLeft(d, u, 1.0);
        assert d * 0.0 == 0.0 && d * 1.0 == d;
        assert 0.0 <= d * u <= d;
      }
      if upper <= lower {
        var e := lower - upper;
        MulLeLeft(e, 0.0, u);
        MulLeLeft(e, u, 1.0);
        assert e * 0.0 == 0.0 && e * 1.0 == e;
        assert 0.0 <= e * u <= e;
        assert d * u == -(e * u);
      }
    }
  }

  /** The factors of a schedule, in order. */
  function Factors(npis: seq<Npi>): (fs: seq<real>)
    ensures |fs| == |npis|
  {
    seq(|npis|, i requires 0 <= i < |npis| => npis[i].factor)
  }

  /** `R0 *= factor`: the running value after one more factor. */
  function Scaled(r0: real, factor: real): (r: real)
  {
    r0 * factor
  }

  /** The running value after multiplying `r0` by each of `fs` in turn, as the loop does. */
  function Running(r0: real, fs: seq<real>): (r: real)
    decreases |fs|
  {
    if fs == [] then r0 else Running(Scaled(r0, fs[0]), fs[1..])
  }

  lemma {:induction false} RunningSnoc(r0: real, fs: seq<real>, x: real)
    ensures Running(r0, fs + [x]) == Scaled(Running(r0, fs), x)
    decreases |fs|
  {
    if fs != [] {
      assert (fs + [x])[1..] == fs[1..] + [x];
      RunningSnoc(Scaled(r0, fs[0]), fs[1..], x);
    }
  }

  /** The product of a list of factors. */
  function Prod(fs: seq<real>): (p: real)
  {
    if fs == [] then 1.0 else fs[0] * Prod(fs[1..])
  }

  lemma MulAssoc(a: real, b: real, c: real)
    ensures (a * b) * c == a * (b * c)
  {
  }

  /** The running value is R0 times the product of the factors applied so far. */
  lemma {:induction false} RunningIsProduct(r0: real, fs: seq<real>)
    ensures Running(r0, fs) == r0 * Prod(fs)
    decreases |fs|
  {
    if fs != [] {
      RunningIsProduct(Scaled(r0, fs[0]), fs[1..]);
      MulAssoc(r0, fs[0], Prod(fs[1..]));
    }
  }

  /**
    The schedule `create_NPIs` returns when it starts at time `t` with running value `r0`
    and is fed `draws`: the loop as a recursion on its remaining draws. Every step a draw
    carries is taken as drawn; a maximum step below 1 is handled by `CreateSchedule`.
  */
  function Generate(t: int, r0: real, lower: real, upper: real, draws: seq<Draw>): (r: Result<seq<Npi>>)
    ensures r.Ok? ==> |r.value| <= |draws|
    ensures r.Err? ==> r.error == DrawsExhausted
    decreases |draws|
  {
    if r0 < 1.0 then Ok([])
    else if draws == [] then Err(DrawsExhausted)
    else
      var f := Uniform(lower, upper, draws[0].u);
      Prepend([Npi(t, f)], Generate(t + draws[0].step, Scaled(r0, f), lower, upper, draws[1..]))
  }

  /** One pass of the loop: record the breakpoint, then continue from the next time and value. */
  lemma GenerateStep(t: int, r0: real, lower: real, upper: real, draws: seq<Draw>, f: real)
    requires r0 >= 1.0 && draws != [] && f == Uniform(lower, upper, draws[0].u)
    ensures Generate(t, r0, lower, upper, draws)
         == Prepend([Npi(t, f)], Generate(t + draws[0].step, Scaled(r0, f), lower, upper, draws[1..]))
  {
  }

  /**
    `create_NPIs(start, R0, lower_bound, upper_bound, dt)` on the stream `draws`: the schedule
    `Generate` describes, except that a maximum step below 1 ends the first pass with the
    ValueError of `random.randint(1, dt)`.
  */
  function CreateSchedule(start: int, R0: real, lowerBound: real, upperBound: real, dt: int, draws: seq<Draw>)
    : (r: Result<seq<Npi>>)
    ensures r == Err(EmptyStepRange) <==> R0 >= 1.0 && dt < 1
    ensures dt >= 1 || R0 < 1.0 ==> r == Generate(start, R0, lowerBound, upperBound, draws)
  {
    if R0 >= 1.0 && dt < 1 then Err(EmptyStepRange) else Generate(start, R0, lowerBound, upperBound, draws)
  }

  /** `create_NPIs(start, R0, lower_bound, upper_bound, dt)`, with the draws made explicit. */
  method CreateNpis(start: int, R0: real, lowerBound: real, upperBound: real, dt: int, draws: seq<Draw>)
    returns (r: Result<seq<Npi>>)
    ensures r == CreateSchedule(start, R0, lowerBound, upperBound, dt, draws)
  {
    var npis: seq<Npi> := [];
    var t := start;
    var r0 := R0;
    var i := 0;
    PrependNil(Generate(start, R0, lowerBound, upperBound, draws));
    while r0 >= 1.0
      invariant 0 <= i <= |draws|
      invariant i == 0 ==> r0 == R0
      invariant dt < 1 ==> i == 0
      invariant Generate(start, R0, lowerBound, upperBound, draws)
             == Prepend(npis, Generate(t, r0, lowerBound, upperBound, draws[i..]))
      decreases |draws| - i
    {
      if dt < 1 {
        return Err(EmptyStepRange);
      }
      if i == |draws| {
        return Err(DrawsExhausted);
      }
      var factor := Uniform(lowerBound, upperBound, draws[i].u);
      assert draws[i..][1..] == draws[i + 1..];
      GenerateStep(t, r0, lowerBound, upperBound, draws[i..], factor);
      PrependTwice(npis, [Npi(t, factor)], Generate(t + draws[i].step, Scaled(r0, factor), lowerBound, upperBound, draws[i + 1..]));
      npis := npis + [Npi(t, factor)];
      r0 := Scaled(r0, factor);
      t := t + draws[i].step;
      i := i + 1;
    }
    assert npis + [] == npis;
    r := Ok(npis);
  }

  /** Strictly increasing breakpoint times. */
  predicate Increasing(npis: seq<Npi>)
  {
    forall i, j :: 0 <= i < j < |npis| ==> npis[i].t < npis[j].t
  }

  /**
    Each pass consumes one draw: breakpoint i carries the factor drawn from draw i, and the
    gap to breakpoint i + 1 is the step of draw i.
  */
  lemma {:induction false} GenerateUsesDraws(t: int, r0: real, lower: real, upper: real, draws: seq<Draw>)
    requires Generate(t, r0, lower, upper, draws).Ok?
    ensures var npis := Generate(t, r0, lower, upper, draws).value;
      && (npis != [] ==> npis[0].t == t)
      && (forall i :: 0 <= i < |npis| ==> npis[i].factor == Uniform(lower, upper, draws[i].u))
      && (forall i :: 0 < i < |npis| ==> npis[i].t == npis[i - 1].t + draws[i - 1].step)
    decreases |draws|
  {
    if r0 >= 1.0 {
      var f := Uniform(lower, upper, draws[0].u);
      GenerateStep(t, r0, lower, upper, draws, f);
      GenerateUsesDraws(t + draws[0].step, Scaled(r0, f), lower, upper, draws[1..]);
    }
  }

  /** Gaps of at least 1 between neighbours make the times strictly increasing. */
  lemma GapsIncreasing(npis: seq<Npi>)
    requires forall i :: 0 < i < |npis| ==> npis[i - 1].t < npis[i].t
    ensures Increasing(npis)
  {
    forall i, j | 0 <= i < j < |npis| ensures npis[i].t < npis[j].t {
      var k := i + 1;
      while k < j
        invariant i < k <= j && npis[i].t < npis[k].t
      {
        k := k + 1;
      }
    }
  }

  /**
    The schedule starts at `t`, its times strictly increase with every gap in [1, dt], and
    every factor lies within the bounds.
  */
  lemma GenerateSchedule(t: int, r0: real, lower: real, upper: real, dt: int, draws: seq<Draw>)
    requires DrawsValid(draws, dt) && lower <= upper
    requires Generate(t, r0, lower, upper, draws).Ok?
    ensures var npis := Generate(t, r0, lower, upper, draws).value;
      && (npis != [] ==> npis[0].t == t)
      && (forall i :: 0 < i < |npis| ==> 1 <= npis[i].t - npis[i - 1].t <= dt)
      && Increasing(npis)
      && (forall i :: 0 <= i < |npis| ==> lower <= npis[i].factor <= upper)
  {
    var npis := Generate(t, r0, lower, upper, draws).value;
    GenerateUsesDraws(t, r0, lower, upper, draws);
    DrawnGaps(npis, draws, dt);
    GapsIncreasing(npis);
  }

  /** Times that advance by the drawn steps advance by at least 1 and at most dt. */
  lemma DrawnGaps(npis: seq<Npi>, draws: seq<Draw>, dt: int)
    requires DrawsValid(draws, dt) && |npis| <= |draws|
    requires forall i :: 0 < i < |npis| ==> npis[i].t == npis[i - 1].t + draws[i - 1].step
    ensures forall i :: 0 < i < |npis| ==> 1 <= npis[i].t - npis[i - 1].t <= dt
  {
    forall i | 0 < i < |npis| ensures 1 <= npis[i].t - npis[i - 1].t <= dt {
      assert npis[i].t == npis[i - 1].t + draws[i - 1].step;
    }
  }

  /**
    The loop stops exactly when the running value falls below 1: R0 run through all recorded
    factors is below 1, R0 run through every proper prefix of them is at least 1, and the
    schedule is empty exactly when R0 itself is below 1.
  */
  lemma {:induction false} GenerateStops(t: int, r0: real, lower: real, upper: real, draws: seq<Draw>)
    requires Generate(t, r0, lower, upper, draws).Ok?
    ensures var npis := Generate(t, r0, lower, upper, draws).value;
      && Running(r0, Factors(npis)) < 1.0
      && (forall k :: 0 <= k < |npis| ==> Running(r0, Factors(npis)[..k]) >= 1.0)
      && (npis == [] <==> r0 < 1.0)
    decreases |draws|
  {
    var npis := Generate(t, r0, lower, upper, draws).value;
    if r0 >= 1.0 {
      var f := Uniform(lower, upper, draws[0].u);
      GenerateStep(t, r0, lower, upper, draws, f);
      var rest := Generate(t + draws[0].step, Scaled(r0, f), lower, upper, draws[1..]).value;
      GenerateStops(t + draws[0].step, Scaled(r0, f), lower, upper, draws[1..]);
      var fs := Factors(rest);
      assert npis == [Npi(t, f)] + rest;
      assert Factors(npis) == [f] + fs;
      assert ([f] + fs)[1..] == fs;
      forall k | 0 <= k < |npis| ensures Running(r0, Factors(npis)[..k]) >= 1.0 {
        if k == 0 {
          assert Factors(npis)[..k] == [];
        } else {
          assert Factors(npis)[..k] == [f] + fs[..k - 1];
          assert ([f] + fs[..k - 1])[1..] == fs[..k - 1];
        }
      }
    }
  }

  lemma MulLeLeft(a: real, x: real, y: real)
    requires x <= y && a >= 0.0
    ensures a * x <= a * y
  {
    assert a * y - a * x == a * (y - x);
  }

  /** Scaling a non-negative value by a factor in [0, 1] keeps it in [0, a]. */
  lemma ScaleWithin(a: real, f: real)
    requires a >= 0.0 && 0.0 <= f <= 1.0
    ensures 0.0 <= a * f <= a
  {
    MulLeLeft(a, f, 1.0);
    MulLeLeft(a, 0.0, f);
  }

  lemma MulLeRight(x: real, y: real, a: real)
    requires x <= y && a >= 0.0
    ensures x * a <= y * a
  {
    assert y * a - x * a == (y - x) * a;
  }

  lemma MulLtRight(x: real, y: real, a: real)
    requires x < y && a > 0.0
    ensures x * a < y * a
  {
    assert y * a - x * a == (y - x) * a;
  }

  /** The running value after n factors all equal to q. */
  function Decay(r0: real, q: real, n: nat): (r: real)
    decreases n
  {
    if n == 0 then r0 else Decay(Scaled(r0, q), q, n - 1)
  }

  lemma {:induction false} DecayMonotone(a: real, b: real, q: real, n: nat)
    requires 0.0 <= a <= b && q >= 0.0
    ensures 0.0 <= Decay(a, q, n) <= Decay(b, q, n)
    decreases n
  {
    if n > 0 {
      MulLeRight(a, b, q);
      MulLeRight(0.0, a, q);
      DecayMonotone(Scaled(a, q), Scaled(b, q), q, n - 1);
    }
  }

  function Pow(q: real, n: nat): (p: real)
  {
    if n == 0 then 1.0 else q * Pow(q, n - 1)
  }

  lemma {:induction false} PowNonNegative(q: real, n: nat)
    requires q >= 0.0
    ensures Pow(q, n) >= 0.0
  {
    if n > 0 {
      PowNonNegative(q, n - 1);
      MulLeRight(0.0, q, Pow(q, n - 1));
    }
  }

  lemma {:induction false} DecayIsPower(r0: real, q: real, n: nat)
    ensures Decay(r0, q, n) == r0 * Pow(q, n)
    decreases n
  {
    if n > 0 {
      DecayIsPower(Scaled(r0, q), q, n - 1);
      MulAssoc(r0, q, Pow(q, n - 1));
    }
  }

  /** Bernoulli's inequality: (1 + d)^n >= 1 + n d for d >= 0. */
  lemma {:induction false} Bernoulli(d: real, n: nat)
    requires d >= 0.0
    ensures Pow(1.0 + d, n) >= 1.0 + (n as real) * d
  {
    if n > 0 {
      Bernoulli(d, n - 1);
      BernoulliStep(d, (n - 1) as real, Pow(1.0 + d, n - 1));
    }
  }

  lemma BernoulliStep(d: real, m: real, p: real)
    requires d >= 0.0 && m >= 0.0 && p >= 1.0 + m * d
    ensures (1.0 + d) * p >= 1.0 + (m + 1.0) * d
  {
    MulLeLeft(1.0 + d, 1.0 + m * d, p);
    MulLeRight(0.0, m * d, d);
    assert (1.0 + d) * (1.0 + m * d) == 1.0 + (m + 1.0) * d + (m * d) * d;
  }

  lemma {:induction false} PowInverse(q: real, n: nat)
    requires q > 0.0
    ensures Pow(q, n) * Pow(1.0 / q, n) == 1.0
  {
    if n > 0 {
      PowInverse(q, n - 1);
      InverseStep(q, Pow(q, n - 1), Pow(1.0 / q, n - 1));
    }
  }

  lemma InverseStep(q: real, a: real, b: real)
    requires q > 0.0 && a * b == 1.0
    ensures (q * a) * ((1.0 / q) * b) == 1.0
  {
    assert q * (1.0 / q) == 1.0;
    assert (q * a) * ((1.0 / q) * b) == (q * (1.0 / q)) * (a * b);
  }

  /**
    How many passes suffice for the running value to fall below 1 when every factor is at
    most `upper` < 1: none if R0 < 1, else the first n with n (1/upper - 1) > R0.
  */
  function HaltBound(r0: real, upper: real): (n: nat)
    requires 0.0 <= upper < 1.0
  {
    if r0 < 1.0 then 0
    else if upper == 0.0 then 1
    else
      var d := 1.0 / upper - 1.0;
      assert d > 0.0 && r0 / d > 0.0;
      ((r0 / d).Floor + 1) as nat
  }

  lemma HaltBoundExceeds(r0: real, upper: real)
    requires 0.0 < upper < 1.0 && r0 >= 1.0
    ensures (HaltBound(r0, upper) as real) * (1.0 / upper - 1.0) > r0
  {
    var d := 1.0 / upper - 1.0;
    var n := HaltBound(r0, upper);
    assert d > 0.0;
    assert (n as real) > r0 / d;
    MulLtRight(r0 / d, n as real, d);
    assert (r0 / d) * d == r0;
  }

  lemma BelowReciprocal(r0: real, small: real, big: real)
    requires r0 >= 0.0 && small >= 0.0 && small * big == 1.0 && big > r0
    ensures r0 * small < 1.0
  {
    assert small > 0.0;
    MulLtRight(r0, big, small);
    calc {
      r0 * small;
    < big * small;
    == small * big;
    == 1.0;
    }
  }

  lemma HaltBoundSuffices(r0: real, upper: real)
    requires 0.0 <= upper < 1.0 && r0 >= 1.0
    ensures Decay(r0, upper, HaltBound(r0, upper)) < 1.0
  {
    var n := HaltBound(r0, upper);
    DecayIsPower(r0, upper, n);
    if upper == 0.0 {
      assert Pow(upper, 1) == 0.0;
    } else {
      var d := 1.0 / upper - 1.0;
      HaltBoundExceeds(r0, upper);
      Bernoulli(d, n);
      assert 1.0 + d == 1.0 / upper;
      PowInverse(upper, n);
      PowNonNegative(upper, n);
      BelowReciprocal(r0, Pow(upper, n), Pow(1.0 / upper, n));
    }
  }

  /** If the running value would fall below 1 after n factors equal to `upper`, n more draws suffice. */
  lemma {:induction false} GenerateHaltsWithin(t: int, r0: real, lower: real, upper: real, draws: seq<Draw>, n: nat)
    requires 0.0 <= lower <= upper < 1.0 && UnitDraws(draws)
    requires |draws| >= n && Decay(r0, upper, n) < 1.0
    ensures Generate(t, r0, lower, upper, draws).Ok?
    ensures |Generate(t, r0, lower, upper, draws).value| <= n
    decreases n
  {
    if r0 >= 1.0 {
      var f := Uniform(lower, upper, draws[0].u);
      GenerateStep(t, r0, lower, upper, draws, f);
      DecayStep(r0, f, upper, n);
      GenerateHaltsWithin(t + draws[0].step, Scaled(r0, f), lower, upper, draws[1..], n - 1);
    }
  }

  /** A pass with factor f <= upper leaves at most the decay that n - 1 factors `upper` would. */
  lemma DecayStep(r0: real, f: real, upper: real, n: nat)
    requires r0 >= 1.0 && 0.0 <= f <= upper && Decay(r0, upper, n) < 1.0
    ensures n > 0 && Decay(Scaled(r0, f), upper, n - 1) < 1.0
  {
    MulLeLeft(r0, f, upper);
    MulLeLeft(r0, 0.0, f);
    DecayMonotone(Scaled(r0, f), Scaled(r0, upper), upper, n - 1);
  }

  /**
    With factors drawn from [lower, upper] inside [0, 1), the loop terminates: at most
    HaltBound(R0, upper) passes, and that many draws always suffice.
  */
  lemma GenerateHalts(t: int, r0: real, lower: real, upper: real, draws: seq<Draw>)
    requires 0.0 <= lower <= upper < 1.0 && UnitDraws(draws)
    requires |draws| >= HaltBound(r0, upper)
    ensures Generate(t, r0, lower, upper, draws).Ok?
    ensures |Generate(t, r0, lower, upper, draws).value| <= HaltBound(r0, upper)
  {
    if r0 >= 1.0 {
      HaltBoundSuffices(r0, upper);
    }
    GenerateHaltsWithin(t, r0, lower, upper, draws, HaltBound(r0, upper));
  }

  /**
    With both bounds at least 1, in either order, every factor is at least 1 and the running
    value never falls below 1, so `create_NPIs` never returns: every finite stream of draws
    runs out.
  */
  lemma {:induction false} GenerateNeverStops(t: int, r0: real, lower: real, upper: real, draws: seq<Draw>)
    requires 1.0 <= lower && 1.0 <= upper && UnitDraws(draws) && r0 >= 1.0
    ensures Generate(t, r0, lower, upper, draws) == Err(DrawsExhausted)
    decreases |draws|
  {
    if draws != [] {
      var f := Uniform(lower, upper, draws[0].u);
      GenerateStep(t, r0, lower, upper, draws, f);
      MulLeLeft(r0, 1.0, f);
      GenerateNeverStops(t + draws[0].step, Scaled(r0, f), lower, upper, draws[1..]);
    }
  }
}
