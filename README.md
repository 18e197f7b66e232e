# Intervention schedules and piecewise epidemic trajectories

This project models the driver logic of two epidemic scripts, `t028.py` and `eliminate.py`. Both
draw a random schedule of non-pharmaceutical interventions (NPIs) with `create_NPIs`:

- each breakpoint is a day and a factor;
- the running R0 is multiplied by each factor until it falls below 1.

Both then integrate a seven-compartment model (S, E, P, I, It, R, Rt) piecewise over the schedule
with `change_R0`:

- one segment runs from the start of the time range to the first breakpoint;
- one runs between each pair of consecutive breakpoints;
- a tail segment runs to the end of the range;
- each segment uses the R0 in force and starts from the last sample of the segment before.

`t028.py` repeats this M times in a Monte Carlo loop. From each trial it keeps four numbers:

- the time of the infection peak;
- the peak's height;
- the number of people affected;
- the number of deaths.

Modules:

- `Results` (results.dfy): the `Result` type and the errors of the model: the empty schedule, the exhausted stream of draws, the empty range of `random.randint(1, dt)` and the division by a population of 0.
- `Sepir` (sepir.dfy): the interface to the numerics, which are not modelled.
  - The integrator (`evolve` with `solve_ivp`) is a function-valued parameter `solve`.
  - The aggregation of the infectious compartments (`sepir.scale(sepir.aggregate(...))`) is a function-valued parameter `infectious`.
  - Only their output shape is assumed: a non-empty solution with one full row per compartment, and one infectious level per sample.
- `Schedule` (schedule.dfy): `create_NPIs`.
  - The specification functions are `Generate` (the loop's passes) and `CreateSchedule` (with the check on dt); the loop is the method `CreateNpis`.
  - Lemmas cover the timing and factors, the stopping condition and termination.
- `Trajectory` (trajectory.dfy): `change_R0`, which is the same loop in both scripts.
  - The specification is `Segments`, `Rates` and `Chain`; the loop is the method `Compose`.
  - Lemmas cover segment count, interval chaining, state continuity and the cumulative R0 products.
- `T028` (t028.dfy): the parameters of `t028.py`, `round`, and the per-trial summary (affected, deaths, first-occurrence argmax).
  - It also holds the Monte Carlo loop, `MonteCarlo`, which appends to four lists. The loop takes the trial as a function of the draws; `Study` runs it with the trial of `t028.py`.
- `Eliminate` (eliminate.dfy): the fixed parameters and defaults of `eliminate.py`, with the termination and elimination guarantees for its defaults.

Randomness is an explicit input: a sequence of draws `Draw(u, step)`.

- `u` is the `random.random()` value behind `random.uniform(lower, upper)`, which returns `lower + (upper - lower) * u`. Python's `random.random()` lies in [0, 1). The model admits the closed interval [0, 1], so its bounds also cover the upper end point that `random.uniform` may reach by rounding.
- `step` is the value `random.randint(1, dt)` returned.
- For dt < 1, `random.randint(1, dt)` raises a ValueError on the first pass of the loop. The model reports this as the error `EmptyStepRange` (`Schedule.CreateSchedule`).
- Each pass of the `create_NPIs` loop consumes one draw.
- The operations take any stream. The lemmas that rely on the ranges the random module guarantees (`Schedule.GenerateSchedule`, `Eliminate.DefaultRunEliminates`) require `DrawsValid(draws, dt)`: every `u` in [0, 1] and every step in [1, dt].
- Consecutive trials of the Monte Carlo loop consume consecutive parts of the stream.

Points where the model follows the code rather than a natural reading of it:

- `t028.py` passes only R0, gamma, delta and epsilon to the `evolve` calls for later segments (t028.py:84, 89).
  - Those segments therefore run with `evolve`'s default N, c, alpha, CFR1, CFR0, nICU and pICU, not the caller's.
  - `T028.Later` and `T028.ChangeR0Inputs` reproduce this.
- `t028.py` has no convergence check and never discards a trial. Every trial's summary is appended.
- In `eliminate.py`, `evolve` always integrates with N = 5000 (eliminate.py:37), while the initial state is built from 20 exposed in 5,000,000 (eliminate.py:44). Both constants are modelled as written.
- An empty schedule makes `change_R0` fail on `NPIs[0]`. This is the error `EmptySchedule`.
  - In `t028.py` it happens exactly when the initial R0 is below 1, so the study stops there.
- In `t028.py`, `change_R0` computes `initial/N` (t028.py:67) after reading `NPIs[0]`. For `--N 0` this raises a ZeroDivisionError, the error `ZeroPopulation`, on every non-empty schedule.

## Model

| member | source | states |
|---|---|---|
| Schedule.Uniform | t028.py:25 | the drawn factor lies between the two bounds, in either order of the bounds |
| Schedule.Generate | t028.py:21-29 | a schedule has at most one breakpoint per draw; the only error is the stream running out |
| Schedule.CreateSchedule | t028.py:24-28 | with R0 >= 1, a maximum step below 1 is the error of `random.randint(1, dt)`, and no other input gives that error; otherwise the schedule is `Generate`'s |
| Schedule.CreateNpis | t028.py:21-29 | the while loop returns exactly the schedule or the error `CreateSchedule` specifies |
| Schedule.GenerateUsesDraws | t028.py:25-28 | breakpoint i carries the factor drawn from draw i; the first time is `start`; each later time is the previous one plus the step of the previous draw |
| Schedule.GenerateSchedule | t028.py:23-28 | first time is `start`; times strictly increase; every gap lies in [1, dt]; every factor lies in [lower_bound, upper_bound] |
| Schedule.GenerateStops | t028.py:24-29 | R0 times all factors is below 1; R0 times every proper prefix of them is at least 1; the schedule is empty exactly when R0 < 1 |
| Schedule.RunningIsProduct | t028.py:27 | repeated `R0 *= factor` equals R0 times the product of the factors |
| Schedule.HaltBoundSuffices | eliminate.py:26-29 | with every factor at most upper_bound < 1, R0 falls below 1 after HaltBound(R0, upper_bound) passes |
| Schedule.GenerateHaltsWithin | eliminate.py:26-30 | with factors in [lower_bound, upper_bound] inside [0, 1), any n passes that would bring R0 below 1 at factor upper_bound suffice: n draws give a schedule of at most n breakpoints |
| Schedule.GenerateHalts | eliminate.py:23-31 | with 0 <= lower_bound <= upper_bound < 1, the loop terminates within HaltBound(R0, upper_bound) passes |
| Schedule.GenerateNeverStops | t028.py:24-28 | with both bounds >= 1 (in either order, as t028 passes them for average > 1) and R0 >= 1 the loop never stops: every finite stream of draws runs out |
| Sepir.LastSample | t028.py:159 | the final state `[final_sequence[j][-1] for j in ...]` has one entry per compartment |
| Sepir.LastSampleAt | t028.py:84 | entry j of `[y[-1] for y in sols[-1].y]` is the last sample of compartment j |
| Sepir.LastOfRows | t028.py:84 | `[y[-1] for y in sols[-1].y]` holds one entry per compartment |
| Sepir.LastOfRowsAt | t028.py:84 | entry j of `[y[-1] for y in sols[-1].y]` is the last sample of compartment j's row |
| Trajectory.InitialState | t028.py:67 | the initial state has seven compartments summing to 1; it holds initial/N exposed, 1 - initial/N susceptible and nobody else; all entries lie in [0, 1] when 0 <= initial <= N |
| Trajectory.Rates | t028.py:79-90 | the R0 list has one entry per segment and starts with the caller's R0 |
| Trajectory.RatesRunning | t028.py:79-90 | entry k of the R0 list is R0 run through the first k factors by repeated `R0 *= factor` |
| Trajectory.RateStep | t028.py:83 | the R0 of segment k+1 is the R0 of segment k times factor k |
| Trajectory.Start | t028.py:64-86 | the first segment starts at t_range[0]; every later segment starts where the one before it ends (`t0 = t1`), at the breakpoint before it |
| Trajectory.IntervalsTile | t028.py:64-87 | the first interval starts at t_range[0], the tail ends at t_range[1], and each interval ends where the next begins; for an increasing schedule inside the range every interval runs forward and every interval between two breakpoints has positive length |
| Trajectory.Segments | t028.py:64-89 | the loop's first n segments are n solutions |
| Trajectory.SegmentsShaped | t028.py:64-89 | with a solver that returns well-shaped solutions, each of the first n segments has one full row per compartment of the initial state |
| Trajectory.SegmentAt | t028.py:80-89 | segment k is integrated over [Start k, End k] at R0s[k]; the first from the initial state, each later one from the last sample of the one before |
| Trajectory.Chain | t028.py:64-91 | an empty schedule is an error; otherwise there are len(NPIs)+1 segments and len(NPIs)+1 R0 values |
| Trajectory.ChainShaped | t028.py:64-91 | with a solver that returns well-shaped solutions, every segment of the run is well shaped over the initial state's compartments |
| Trajectory.ChainStep | t028.py:80-85 | one pass of the for loop appends the previous R0 times factor i to the R0 list, and appends the segment from the previous last sample at that R0 |
| Trajectory.Compose | t028.py:64-91 | the for loop returns exactly the run that `Chain` specifies |
| Trajectory.ChainSegments | t028.py:64-91 | the first segment runs from t_range[0] to NPIs[0].t from the initial state with the first parameters; segment k runs from NPIs[k-1].t to NPIs[k].t, the last to t_range[1], from the previous segment's last sample at R0s[k] with the later parameters |
| Trajectory.RatesRecurrence | t028.py:79-90 | R0s[0] = R0 and R0s[k+1] = R0s[k] * factor_k |
| Trajectory.RatesProduct | t028.py:83-88 | R0s[k] = R0 * factor_0 * ... * factor_{k-1} |
| Trajectory.RatesNonIncreasing | t028.py:83-88 | with R0 >= 0 and factors in [0, 1], the R0 list never increases and never becomes negative |
| Trajectory.RatesCrossOneAtTail | t028.py:80-90 | for a schedule drawn from the same R0, every segment but the tail runs at R0 >= 1 and the tail runs below 1 |
| Trajectory.DefaultScenario | t028.py:50-52 | the default arguments give five segments [0,145], [145,150], [150,155], [155,160], [160,400] at R0 2.5, 1.75, 1.4, 1.26, 0.945 |
| T028.EvolveDefaultsNamed | t028.py:31-42 | the defaults of `evolve`, field by field: N = 5000000, c = 0.1, alpha = 0.25, gamma = 0.1, delta = 1, epsilon = 0.15, CFR1 = 2/100, CFR0 = 1/100, nICU = 300, pICU = 1.25/100 |
| T028.Later | t028.py:84 | a later segment's parameters carry the caller's gamma, delta and epsilon and `evolve`'s defaults for everything else |
| T028.ChangeR0 | t028.py:50-91 | an empty schedule is the IndexError; otherwise N = 0 is the ZeroDivisionError; otherwise `change_R0` composes the run from `[1-initial/N, initial/N, 0, 0, 0, 0, 0]` with the caller's parameters first and `Later` ones after |
| T028.ChangeR0Inputs | t028.py:64-89 | the first segment starts from `[1-initial/N, initial/N, 0, ...]` with all caller parameters; every later segment starts from the previous last sample with the caller's gamma, delta, epsilon and the default N, c, alpha, CFR1, CFR0, nICU, pICU |
| T028.Round | t028.py:93-94 | `round(x, n)` is a multiple of n; for n > 0, round(x,n) <= x < round(x,n) + n; for n < 0 the mirrored bounds hold |
| T028.RoundDefault | t028.py:93-94 | with the default n = 1000, `round(x)` is a multiple of 1000 with round(x) <= x < round(x) + 1000 |
| T028.RoundIdempotent | t028.py:93-94 | rounding a rounded value changes nothing |
| T028.RoundUnique | t028.py:93-94 | for n > 0, round(x, n) is the only multiple m of n with m <= x < m + n |
| T028.Affected | t028.py:162 | affected = 1 - S is everyone outside S, counting the population lost from the compartments |
| T028.Deaths | t028.py:164 | deaths = affected - y[6] - y[5] is the lost population plus those still in E, P, I and It |
| T028.SummaryBounds | t028.py:160-164 | for a final state of fractions summing to at most 1, 0 <= deaths <= affected <= 1 |
| T028.InfectiousSeries | t028.py:169 | the concatenated infectious series is empty without segments and starts with the first segment's levels |
| T028.Times | t028.py:170 | the concatenated time series is empty without segments and starts with the first segment's sample times |
| T028.SeriesAligned | t028.py:169-170 | the concatenated infectious series and time series have equal length, and are non-empty when there is a segment |
| T028.SeriesCovers | t028.py:169-170 | every sample of every segment sits at one common index of both concatenations |
| T028.ArgMax | t028.py:171 | `np.argmax` returns the first index of the maximum |
| T028.Summarize | t028.py:158-173 | mortality is N times deaths and infections is N times affected, from the last sample of the last segment; the peak is the maximum of the concatenated series; the duration is the time at the first index where the maximum occurs |
| T028.PeakDominates | t028.py:169-172 | the peak is at least the infectious level of every sample of every segment |
| T028.LowerBound | t028.py:141 | factors are drawn from [2*average - 1, 1], whose midpoint is `average`; the interval is non-empty exactly when average <= 1 |
| T028.TrialNeverStops | t028.py:141-142 | for average >= 1 the study's bounds 2*average - 1 and 1 are both >= 1, so with R0 >= 1 a trial never produces a schedule: it fails with the `randint` ValueError when dt < 1 and otherwise runs out of every finite stream of draws |
| T028.Trial | t028.py:137-173 | a trial fails exactly when its schedule cannot be drawn, is empty, or N = 0, with the schedule's error, the IndexError or the ZeroDivisionError in that order; a successful trial consumes one draw per breakpoint, no more than the stream holds |
| T028.TrialOf | t028.py:137-173 | with the configuration fixed, a trial is a function of the draws that never claims more draws than it was given, and equals `Trial` on every stream |
| T028.Trials | t028.py:136-173 | M successful trials give M summaries |
| T028.RunTrial | t028.py:137-173 | one pass of the loop body, through `create_NPIs` and `change_R0`, returns exactly what `Trial` specifies |
| T028.TrialsFail | t028.py:136-173 | a failing trial ends the whole study with its error, whatever came before |
| T028.TrialsAdvance | t028.py:136-173 | a successful trial contributes its summary, and the rest of the study runs on the draws after the ones it took |
| T028.Table | t028.py:131-173 | the four lists hold one entry per trial |
| T028.TableTabulates | t028.py:165-173 | entry k of durations, mortalities, peaks and infections is the duration, mortality, peak and infection of trial k |
| T028.TableSnoc | t028.py:165-173 | one more trial appends one entry to each of the four lists |
| T028.MonteCarlo | t028.py:130-173 | the loop leaves durations, mortalities, peaks and infections with M entries each, entry k holding trial k's summary; any error ends the loop with that error |
| T028.Study | t028.py:130-173 | the t028 study gives the four lists of the M trials of `Trial` in order, or the error of the first trial that fails |
| Eliminate.FixedArguments | eliminate.py:37-39 | the fixed integrand arguments are `evolve`'s t028 defaults with N = 5000 |
| Eliminate.ChangeR0 | eliminate.py:41-57 | `change_R0` composes the run from 20 exposed in 5,000,000 with the fixed parameters for every segment |
| Eliminate.ChangeR0Inputs | eliminate.py:41-57 | an empty schedule is an error; the first segment starts from `[1-20/5000000, 20/5000000, 0, ...]`; each later one starts from the previous last sample; all use the fixed parameters |
| Eliminate.DefaultHaltBound | eliminate.py:23 | with the defaults R0 = 2.5 and upper_bound = 0.99, the bound on the passes is 248 |
| Eliminate.DefaultRunEliminates | eliminate.py:23-57 | with default arguments and 248 or more draws, the schedule is non-empty, has at most 248 breakpoints from day 150, increases and has factors in [0.9, 0.99]; its run's R0 stays >= 1 before the tail, drops below 1 in the tail and never increases |
| Eliminate.Simulate | eliminate.py:62-63 | one pass of the main loop draws a default schedule and composes its run, or fails with the schedule's error |

## Left out

- The numerics are parameters, not models: `solve_ivp`, `sepir.dy`, `sepir.get_beta`, `sepir.aggregate` and `sepir.scale`. The model assumes only the shape of their output. No property of the trajectories' values, such as conservation, is derived from the integrand.
- Floating point is not modelled: R0, factors and states are exact reals.
  - The IEEE behaviour of the `R0 >= 1.0` test and of `random.uniform`'s endpoint is not modelled.
  - Python's float floor division in `round` is not modelled.
- The `random` module and its seeding are replaced by an explicit, finite stream of draws.
  - The model adds the error `DrawsExhausted` when the stream runs out. It is not in the scripts, where the stream is unbounded.
- T028.Study: its trials draw factors from [2*average - 1, 1], so it has no termination guarantee. For average < 1 the factors stay below 1 but come arbitrarily close to it, so no bound on the number of passes exists; the halting lemmas need an upper bound below 1. For average >= 1 both bounds, 2*average - 1 and 1, are at least 1 (in either order), so every factor is at least 1 and `create_NPIs` never returns while R0 >= 1; the model then reports `DrawsExhausted` on every finite stream (`Schedule.GenerateNeverStops`, `T028.TrialNeverStops`).
- T028.MonteCarlo: applies the trial as a function (`Trial`), not through the methods `CreateNpis` and `ChangeR0`. `RunTrial` proves that those methods compute the same value, so the lists are the same. Keeping the trial abstract keeps the loop's proof independent of the trial's definition.
- Sepir.LastSample: a row with no samples gives 0 where Python raises an IndexError. A valid solver never returns such a row.
- `get_ticks` (t028.py:96-99) is left out: it needs the mean and standard deviation of floats, including a square root. It is the only caller that relies on `round`'s default n = 1000; the model keeps that default as `T028.DefaultTick`, and `T028.RoundDefault` states what it gives.
- Plotting and output are left out: the matplotlib calls (t028.py:177-206, eliminate.py:64-68) and the loop over five plotted runs (eliminate.py:62).
- Command-line parsing (t028.py:101-126) is left out. `T028.Config` holds the options the study reads: M, R0, initial, end, start, dt and average, with N, c, alpha, gamma, delta, epsilon, CFR1, CFR0, nICU and pICU in its parameter bundle `p`. `--seed` is replaced by the explicit stream of draws. `--show` and `--out` only concern plotting and output, which are left out.
- `tidy-CORD-19.py`, `extract-keys.py` and `sepir-mc.py` are not part of this model. They hold file, JSON and pandas handling and an unfinished stub.
