/** The first engine, class `GeometricLiquidityDynamics`: a verbose-optional run over
    fields `price` and `momentum`, followed by an audit with difference-based returns
    and a mean-centred variance. */
module GldEngine {
  import opened Common
  import opened Dynamics
  import opened Risk

  /** What the audit reports: the last price, the quantity under the volatility's square
      root (the volatility is its square root times the square root of 252) and the
      maximum drawdown. */
  datatype AuditReport = AuditReport(finalPrice: real, varianceRadicand: real, maxDrawdown: real)

  /** `(prices[i] - prices[i-1]) / prices[i-1]` for every i from 1: the relative change
      from each price to the next. */
  function Returns(p: seq<real>): (rs: seq<real>)
    requires NonzeroBases(p)
    ensures |rs| == if |p| == 0 then 0 else |p| - 1
  {
    if |p| == 0 then []
    else seq(|p| - 1, i requires 0 <= i < |p| - 1 => (p[i + 1] - p[i]) / p[i])
  }

  /** One return compounds back to the price it came from. */
  lemma Compound(a: real, b: real, r: real)
    requires a != 0.0 && r == (b - a) / a
    ensures b == a * (1.0 + r)
  {
  }

  /** Compounding the returns rebuilds the prices: each price is the one before it
      times one plus its return, so the price list is recovered from its first entry. */
  lemma ReturnsCompound(p: seq<real>)
    requires NonzeroBases(p)
    ensures var rs := Returns(p);
            forall i :: 0 <= i < |rs| ==> p[i + 1] == p[i] * (1.0 + rs[i])
  {
    var rs := Returns(p);
    forall i | 0 <= i < |rs| ensures p[i + 1] == p[i] * (1.0 + rs[i]) {
      Compound(p[i], p[i + 1], rs[i]);
    }
  }

  /** The audit of a price list, in the order the source evaluates it: the return list
      (a zero base divides by zero), its mean (an empty list divides by zero), the
      centred variance, then the drawdown loop (a zero peak divides by zero). */
  function AuditOf(p: seq<real>): (r: Result<AuditReport>)
    ensures !NonzeroBases(p) ==> r == Failure(ReturnBaseZero)
    ensures |p| < 2 ==> r == Failure(NoReturns)
    ensures r.Success? ==> |p| >= 2 && r.value.finalPrice == p[|p| - 1]
    ensures r.Success? ==> r.value.varianceRadicand >= 0.0 && r.value.maxDrawdown <= 0.0
    ensures |p| >= 2 && p[0] > 0.0 && NonzeroBases(p) ==> r.Success?
    ensures r.Success? && p[0] > 0.0 ==> (r.value.maxDrawdown == 0.0 <==> NonDecreasing(p))
  {
    if !NonzeroBases(p) then Failure(ReturnBaseZero)
    else if |p| < 2 then Failure(NoReturns)
    else
      var radicand := CenteredRadicand(Returns(p));
      assert p[0] > 0.0 ==> Drawdown(p).Success? && (Drawdown(p) == Success(0.0) <==> NonDecreasing(p)) by {
        if p[0] > 0.0 {
          DrawdownDefined(p);
          DrawdownZeroIffNonDecreasing(p);
        }
      }
      match Drawdown(p)
      case Failure(f) => Failure(f)
      case Success(dd) =>
        DrawdownNonPositive(p);
        Success(AuditReport(p[|p| - 1], radicand, dd))
  }

  class GeometricLiquidityDynamics {
    var price: real
    var momentum: real
    var steps: int
    var prices: seq<real>
    /** Kept for reporting; seeding the global generator is not modelled, the draws are an input of Run. */
    var seed: int

    constructor (seed: int, steps: int, initialPrice: real)
      ensures price == initialPrice && momentum == 0.0
      ensures this.steps == steps && this.seed == seed && prices == []
    {
      price := initialPrice;
      momentum := 0.0;
      this.steps := steps;
      prices := [];
      this.seed := seed;
    }

    /** The simulation loop, then the audit. `sines[i]` and `draws[i]` stand for
        `sin((i + 1) * 0.1)` and the uniform draw of step i + 1. Every step appends one
        price; with `verbose` and fewer than ten steps the progress check divides by zero
        right after the first step. */
    method Run(verbose: bool, sines: seq<real>, draws: seq<real>) returns (outcome: Result<AuditReport>)
      requires |sines| == StepCount(steps) && |draws| == StepCount(steps)
      modifies this`price, this`momentum, this`prices
      ensures var ts, n, s0 := Targets(sines, draws), Executed(verbose, steps), State(old(price), old(momentum));
              State(price, momentum) == After(s0, ts, n) && prices == old(prices) + Trajectory(s0, ts, n)
      ensures steps >= 1 ==> -Bound <= momentum <= Bound
      ensures outcome == if ProgressFaults(verbose, steps) then Failure(ProgressPeriodZero) else AuditOf(prices)
    {
      ghost var s0 := State(price, momentum);
      ghost var before := prices;
      ghost var ts := Targets(sines, draws);
      var n := steps;
      var step := 1;
      while step <= n
        invariant 1 <= step <= StepCount(n) + 1
        invariant ProgressFaults(verbose, n) ==> step == 1
        invariant State(price, momentum) == After(s0, ts, step - 1)
        invariant prices == before + Trajectory(s0, ts, step - 1)
      {
        ghost var pre := State(price, momentum);
        var target := Target(sines[step - 1], draws[step - 1]);
        momentum := Max(Min(momentum + (target - price) * 0.15 * 0.05, 20.0), -20.0);
        price := price + momentum * 0.05;
        prices := prices + [price];
        StepWritten(pre, target, momentum, price);
        assert target == ts[step - 1];
        assert State(price, momentum) == After(s0, ts, step);
        assert prices == before + Trajectory(s0, ts, step);
        if verbose && n / 10 == 0 {
          outcome := Failure(ProgressPeriodZero);
          return;
        }
        step := step + 1;
      }
      outcome := Audit();
    }

    /** The audit over the recorded prices; the drawdown loop keeps the running peak and
        the running minimum of the drawdowns. */
    method Audit() returns (r: Result<AuditReport>)
      ensures r == AuditOf(prices)
    {
      if !NonzeroBases(prices) {
        return Failure(ReturnBaseZero);
      }
      var rets := Returns(prices);
      if |rets| == 0 {
        return Failure(NoReturns);
      }
      var radicand := CenteredRadicand(rets);
      var peak := prices[0];
      var maxDd := 0.0;
      var i := 0;
      while i < |prices|
        invariant 0 <= i <= |prices|
        invariant i == 0 ==> peak == prices[0]
        invariant i > 0 ==> peak == Peak(prices[..i])
        invariant forall j :: 0 <= j < i ==> prices[j] <= peak
        invariant Drawdown(prices[..i]) == Success(maxDd)
        invariant maxDd <= 0.0
      {
        var px := prices[i];
        peak := Max(peak, px);
        assert prices[..i + 1][..i] == prices[..i];
        if peak == 0.0 {
          return Failure(PeakZero);
        }
        maxDd := Min(maxDd, (px - peak) / peak);
        i := i + 1;
      }
      assert prices[..i] == prices;
      r := Success(AuditReport(prices[|prices| - 1], radicand, maxDd));
    }
  }
}
