# Geometric-Liquidity-Dynamics in Dafny

A model of the two Python implementations of the Geometric-Liquidity-Dynamics price
simulator: class `GeometricLiquidityDynamics` in `GLD_Engine.py` and class `GLDEngine` in
`engine.py`. Each engine keeps a price and a momentum in fields. Every step it moves the
momentum towards a noisy, oscillating target price, clamps the momentum to [-20, 20],
integrates the price by `momentum * dt` with `dt = 0.05` and `k = 0.15`, and appends the
new price to a list. An audit over that list then computes:

- a series of returns;
- the quantity under the volatility's square root (a mean-centred variance in the first
  engine, an uncentred second moment in the second);
- the maximum drawdown, from a loop that keeps a running peak.

Layout:

- `Common.dfy`: Python's `min`/`max`, the `Fault` values, and `Result`. A fault stands
  for a `ZeroDivisionError` the code can raise.
- `Dynamics.dfy`: one step of the loop (`Target`, `Clamp`, `Step`) and the state and
  trajectory of a whole run (`After`, `Trajectory`), with their bounds.
- `Risk.dfy`: sums and second moments of a return series, and the running peak and
  drawdown of a price path (`Peak`, `Drawdown`), with their lemmas.
- `GldEngine.dfy`: the class `GeometricLiquidityDynamics`. Its `Run` and `Audit` are
  loops proved against `After`/`Trajectory` and `AuditOf`.
- `Engine.dfy`: the class `GLDEngine`, laid out the same way.
- `Equivalence.dfy`: the two engines agree on trajectory, final state, faults and
  drawdown whenever their progress checks agree: always when the first engine runs
  verbose (its default), and otherwise for any step count outside 1 to 9. Their return
  formulas agree. Their volatility radicands are related.

The model works over exact reals. Each step's `math.sin(step * 0.1)` and
`random.uniform(-1, 1)` are inputs of `Run`: two sequences whose entry i holds the values
of step i + 1.

Failures follow the code:

- Every `ZeroDivisionError` the code can raise is modelled as a `Failure` with its
  `Fault`. These are the progress modulo when `steps // 10 == 0`, a zero price used as a
  return's base, an empty return list, and a zero running peak.
- The code validates none of its parameters and raises no error of its own:
  - A non-positive `steps` gives an empty loop, then `NoReturns` from the audit.
  - A negative price is processed as is. Only an exact zero fails.

## Model

| member | source | states |
|---|---|---|
| Common.Min | GLD_Engine.py:88 | `min` returns one of its arguments and is below both |
| Common.Max | GLD_Engine.py:87 | `max` returns one of its arguments and is above both |
| Dynamics.Target | GLD_Engine.py:53 | with the sine and the uniform draw in [-1, 1] the target lies in [75, 125]; with both zero it is the baseline 100 |
| Dynamics.Clamp | GLD_Engine.py:55 | `max(min(x, 20), -20)`: the momentum clamp, with Python's argument order for ties (its bounds are ClampBounds) |
| Dynamics.ClampBounds | GLD_Engine.py:55 | the clamp lands in [-20, 20], keeps a value already in range, and otherwise gives the bound on the value's side |
| Dynamics.StepCount | GLD_Engine.py:52 | the length of `range(1, steps + 1)`: steps when positive, otherwise 0 |
| Dynamics.ProgressFaults | GLD_Engine.py:61 | the progress modulo divides by zero exactly when it is evaluated (verbose) and 1 <= steps <= 9 |
| Dynamics.Executed | GLD_Engine.py:52-61 | the number of iterations of `range(1, steps + 1)` a run completes: none for steps <= 0, one when the progress check faults, otherwise steps |
| Dynamics.Step | GLD_Engine.py:55-57 | one loop body: momentum plus (target - price) * k * dt, clamped, then price plus the new momentum * dt (its bounds are StepBounds) |
| Dynamics.StepBounds | GLD_Engine.py:55-58 | after a step the momentum is in [-20, 20] and equals the unclamped update when that is in range; the price moves by momentum * dt, so by at most 1 |
| Dynamics.Targets | GLD_Engine.py:52-53 | the target of every step of a run, in step order, from that step's sine and draw (its bound is TargetsBounded) |
| Dynamics.TargetsBounded | GLD_Engine.py:52-53 | with every sine and every draw of a run in [-1, 1], the run has one target per step and every one of them lies in [75, 125] |
| Dynamics.After | GLD_Engine.py:52-57 | after any positive number of steps the momentum lies in [-20, 20] |
| Dynamics.Trajectory | GLD_Engine.py:52-58 | n steps record exactly n prices |
| Dynamics.TrajectoryPrefix | GLD_Engine.py:58 | later steps only append: the first m recorded prices of a longer run are those of the m-step run |
| Dynamics.PriceAt | GLD_Engine.py:57-58 | recorded price i is the price after step i + 1 |
| Dynamics.Increment | GLD_Engine.py:55-58 | each recorded price is the previous one (the initial price for step 1) plus that step's momentum * dt; the momentum is in [-20, 20], so the change is at most 1 in size, and dividing it by dt gives back the momentum |
| Risk.Sum | GLD_Engine.py:78 | Python's `sum(..)` over a list of reals, first entry plus the sum of the rest |
| Risk.SumSquaredDeviations | GLD_Engine.py:81 | `sum((r - c)**2 for r in rs)`: with c the mean it is the sum of GLD_Engine.py:81, with c = 0 that of engine.py:22; never negative (SquaredDeviationsNonNegative) |
| Risk.SquaredDeviationsNonNegative | GLD_Engine.py:81 | a sum of squared deviations is never negative |
| Risk.Mean | GLD_Engine.py:78 | `sum(returns) / len(returns)` over a non-empty return list |
| Risk.CenteredRadicand | GLD_Engine.py:78-81 | the mean-centred variance under the square root is never negative, so `math.sqrt` is defined |
| Risk.SecondMoment | engine.py:22 | the uncentred second moment under the square root is never negative |
| Risk.SquaredDeviationsExpand | GLD_Engine.py:81 | squared deviations around c expand to the sum of squares minus 2c times the sum plus n c squared |
| Risk.SecondMomentDecomposes | engine.py:22 | the second moment is the centred variance plus the squared mean return: never smaller, and equal exactly when the mean return is zero |
| Risk.Peak | GLD_Engine.py:84-87 | the running `max(peak, px)` seeded at the first price, after visiting every price (PeakIsMaximum proves it is the prefix maximum) |
| Risk.Drawdown | GLD_Engine.py:85-88 | the running `min(max_dd, (px - peak) / peak)` seeded at 0; fails with PeakZero when the running peak is 0 |
| Risk.PeakIsMaximum | GLD_Engine.py:84-87 | the running peak dominates every price visited and is one of them (the prefix maximum) |
| Risk.DrawdownNonPositive | GLD_Engine.py:85-88 | the maximum drawdown, seeded at 0, is never positive |
| Risk.DrawdownDefined | GLD_Engine.py:84-88 | with a positive first price the drawdown loop never divides by a zero peak |
| Risk.DrawdownZeroIffNonDecreasing | GLD_Engine.py:84-88 | with a positive first price the maximum drawdown is 0 if and only if the prices never fall |
| Risk.NonzeroBases | GLD_Engine.py:77 | every price that serves as a return's base (all but the last) is non-zero: exactly when the return comprehension does not divide by zero |
| GldEngine.Returns | GLD_Engine.py:77 | one return per consecutive pair of prices |
| GldEngine.Compound | GLD_Engine.py:77 | a difference-based return compounds back to the price it came from |
| GldEngine.ReturnsCompound | GLD_Engine.py:77 | every price is the one before it times one plus its return |
| GldEngine.AuditOf | GLD_Engine.py:77-88 | fails on a zero return base, then on fewer than 2 prices; on success it reports the last price, a non-negative radicand and a non-positive drawdown; a positive first price guarantees success, and then the drawdown is 0 exactly when the prices never fall |
| GldEngine.GeometricLiquidityDynamics.constructor | GLD_Engine.py:29-38 | price is the initial price, momentum 0, no prices recorded, steps and seed stored |
| GldEngine.GeometricLiquidityDynamics.Run | GLD_Engine.py:52-64 | the final price and momentum are the state after the executed steps, and the recorded prices are the old list plus that trajectory; momentum ends in [-20, 20]; verbose with 1 to 9 steps fails with the progress fault after the first step, otherwise the outcome is the audit of the prices |
| GldEngine.GeometricLiquidityDynamics.Audit | GLD_Engine.py:77-88 | the audit loop, with its running peak and running minimum, computes `AuditOf` of the recorded prices |
| Engine.Returns | engine.py:21 | one return per consecutive pair of prices |
| Engine.Compound | engine.py:21 | a ratio-based return compounds back to the price it came from |
| Engine.ReturnsCompound | engine.py:21 | every price is the one before it times one plus its return |
| Engine.AuditOf | engine.py:20-26 | fails on a zero return base, then on fewer than 2 prices; on success the radicand is non-negative and the drawdown non-positive; a positive first price guarantees success, and then the drawdown is 0 exactly when the prices never fall |
| Engine.GLDEngine.constructor | engine.py:4-7 | price q is 100, momentum p is 0, no prices recorded, rounds stored |
| Engine.GLDEngine.Run | engine.py:11-18 | q and p end as the state after the executed rounds, and the recorded prices are the old list plus that trajectory; p ends in [-20, 20]; 1 to 9 rounds fail with the progress fault after the first round, since the check is unconditional; otherwise the outcome is the audit of the prices |
| Engine.GLDEngine.Audit | engine.py:20-26 | the audit loop computes `AuditOf` of the recorded prices |
| Equivalence.ReturnFormulasAgree | engine.py:21 | `b / a - 1` equals `(b - a) / a` for any a other than 0 |
| Equivalence.ReturnsAgree | engine.py:21 | the two engines' return lists are equal entry for entry |
| Equivalence.AuditsAgree | engine.py:20-26 | the audits fail together and with the same fault; on success they report the same drawdown and measure volatility over the same returns, the second moment never below the centred variance and equal to it exactly when the mean return is zero |
| Equivalence.ProgressDiverges | engine.py:16 | with 1 to 9 steps a non-verbose run of the first engine completes every step, while the second engine's unconditional progress check stops it after one |
| Equivalence.RunBoth | engine.py:11-18 | built with the same seed and step count and run on the same draws, the first engine verbose or the step count outside 1 to 9, both engines record the same prices and end in the same price and momentum; their outcomes fail together with the same fault, and on success they have equal drawdowns and the second moment is at least the variance |

## Left out

- Output: every `print`, the progress lines and the audit report. Only the progress
  line's `step % (steps // 10)` is kept, because it can divide by zero. The `verbose`
  argument of `audit` only controls printing, so it is not modelled.
- Plotting: `plot_prices` and matplotlib are a foreign UI library, and the `plot` argument
  of `run` is not modelled.
- Randomness: `random.seed`, `random.uniform` and `random.getstate` are a global Mersenne
  Twister. The draws are an input of `Run`. The first engine's constructor stores the
  seed, as `self.seed` does; the second engine's constructor takes it and drops it, as
  its source does. Bounds on a draw are hypotheses of `Dynamics.Target` and
  `Dynamics.TargetsBounded` rather than facts.
- Transcendental functions: `math.sin` values are an input of `Run`. `math.sqrt` and the
  factor `math.sqrt(252)` are not modelled, so the audits report the radicand under the
  square root rather than the annualised volatility.
- Float rounding: the model works over exact reals, so IEEE-754 rounding, infinities and
  NaN are not captured, and neither are the numbers the program prints for seed 888.
  `Equivalence.ReturnFormulasAgree` holds over reals but not bit-for-bit in floats.
- Constructor defaults (`seed=888`, `steps=1000`, `initial_price=100.0`, `rounds=1000`)
  and the `__main__` blocks are invocation only. The constructors take every parameter
  explicitly.
- The attributes `dt` and `k`: they are set once in the constructors and never changed,
  so the model writes their values 0.05 and 0.15 into the step rather than storing them
  as fields.
- GldEngine.GeometricLiquidityDynamics.Run, Engine.GLDEngine.Run: the ensures give the
  momentum bound only for the final state. The bound after every step is the contract of
  `Dynamics.After`, and `Dynamics.Increment` gives it for every recorded price.
