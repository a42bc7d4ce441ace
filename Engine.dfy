/** The second engine, class `GLDEngine`: the same loop over fields `q` (price) and
    `p` (momentum) with an unconditional progress check, followed by an audit with
    ratio-based returns and an uncentred second moment. */
module Engine {
  import opened Common
  import opened Dynamics
  import opened Risk

  /** What the audit reports: the quantity under the volatility's square root (the
      volatility is its square root times the square root of 252) and the maximum
      drawdown. */
  datatype Metrics = Metrics(secondMoment: real, maxDrawdown: real)

  /** `prices[j] / prices[j-1] - 1` for every j from 1: the relative change from each
      price to the next. */
  function Returns(p: seq<real>): (rs: seq<real>)
    requires NonzeroBases(p)
    ensures |rs| == if |p| == 0 then 0 else |p| - 1
  {
    if |p| == 0 then []
    else seq(|p| - 1, j requires 0 <= j < |p| - 1 => p[j + 1] / p[j] - 1.0)
  }

  /** One return compounds back to the price it came from. */
  lemma Compound(a: real, b: real, r: real)
    requires a != 0.0 && r == b / a - 1.0
    ensures b == a * (1.0 + r)
  {
  }

  /** Compounding the returns rebuilds the prices: each price is the one before it
      times one plus its return, so the price list is recovered from its first entry. */
  lemma ReturnsCompound(p: seq<real>)
    requires NonzeroBases(p)
    ensures var rs := Returns(p);
            forall i :: 0 <= i < |rs| ==> p[i + 1] == p[i] * (1.0 + rs[i])
  {
    var rs := Returns(p);
    forall i | 0 <= i < |rs| ensures p[i + 1] == p[i] * (1.0 + rs[i]) {
      Compound(p[i], p[i + 1], rs[i]);
    }
  }

  /** The audit of a price list, in the order the source evaluates it: the return list
      (a zero base divides by zero), the second moment (an empty list divides by zero),
      then the drawdown loop (a zero peak divides by zero). */
  function AuditOf(p: seq<real>): (r: Result<Metrics>)
    ensures !NonzeroBases(p) ==> r == Failure(ReturnBaseZero)
    ensures |p| < 2 ==> r == Failure(NoReturns)
    ensures r.Success? ==> |p| >= 2
    ensures r.Success? ==> r.value.secondMoment >= 0.0 && r.value.maxDrawdown <= 0.0
    ensures |p| >= 2 && p[0] > 0.0 && NonzeroBases(p) ==> r.Success?
    ensures r.Success? && p[0] > 0.0 ==> (r.value.maxDrawdown == 0.0 <==> NonDecreasing(p))
  {
    if !NonzeroBases(p) then Failure(ReturnBaseZero)
    else if |p| < 2 then Failure(NoReturns)
    else
      var moment := SecondMoment(Returns(p));
      assert p[0] > 0.0 ==> Drawdown(p).Success? && (Drawdown(p) == Success(0.0) <==> NonDecreasing(p)) by {
        if p[0] > 0.0 {
          DrawdownDefined(p);
          DrawdownZeroIffNonDecreasing(p);
        }
      }
      match Drawdown(p)
      case Failure(f) => Failure(f)
      case Success(dd) =>
        DrawdownNonPositive(p);
        Success(Metrics(moment, dd))
  }

  class GLDEngine {
    /** The price. */
    var q: real
    /** The momentum. */
    var p: real
    var rounds: int
    var prices: seq<real>

    /** Seeding the global generator is not modelled; the draws are an input of Run. */
    constructor (seed: int, rounds: int)
      ensures q == 100.0 && p == 0.0 && this.rounds == rounds && prices == []
    {
      q, p := 100.0, 0.0;
      this.rounds, prices := rounds, [];
    }

    /** The simulation loop, then the audit. `sines[i]` and `draws[i]` stand for
        `sin((i + 1) * 0.1)` and the uniform draw of round i + 1. The progress check runs
        every round, so fewer than ten rounds (but at least one) divide by zero right
        after the first round. */
    method Run(sines: seq<real>, draws: seq<real>) returns (outcome: Result<Metrics>)
      requires |sines| == StepCount(rounds) && |draws| == StepCount(rounds)
      modifies this`q, this`p, this`prices
      ensures var ts, n, s0 := Targets(sines, draws), Executed(true, rounds), State(old(q), old(p));
              State(q, p) == After(s0, ts, n) && prices == old(prices) + Trajectory(s0, ts, n)
      ensures rounds >= 1 ==> -Bound <= p <= Bound
      ensures outcome == if ProgressFaults(true, rounds) then Failure(ProgressPeriodZero) else AuditOf(prices)
    {
      ghost var s0 := State(q, p);
      ghost var before := prices;
      ghost var ts := Targets(sines, draws);
      var n := rounds;
      var i := 1;
      while i <= n
        invariant 1 <= i <= StepCount(n) + 1
        invariant ProgressFaults(true, n) ==> i == 1
        invariant State(q, p) == After(s0, ts, i - 1)
        invariant prices == before + Trajectory(s0, ts, i - 1)
      {
        ghost var pre := State(q, p);
        var target := Target(sines[i - 1], draws[i - 1]);
        p := Max(Min(p + (target - q) * 0.15 * 0.05, 20.0), -20.0);
        q := q + p * 0.05;
        prices := prices + [q];
        StepWritten(pre, target, p, q);
        assert target == ts[i - 1];
        assert State(q, p) == After(s0, ts, i);
        assert prices == before + Trajectory(s0, ts, i);
        if n / 10 == 0 {
          outcome := Failure(ProgressPeriodZero);
          return;
        }
        i := i + 1;
      }
      outcome := Audit();
    }

    /** The audit over the recorded prices; the drawdown loop keeps the running peak and
        the running minimum of the drawdowns. */
    method Audit() returns (r: Result<Metrics>)
      ensures r == AuditOf(prices)
    {
      if !NonzeroBases(prices) {
        return Failure(ReturnBaseZero);
      }
      var rets := Returns(prices);
      if |rets| == 0 {
        return Failure(NoReturns);
      }
      var moment := SecondMoment(rets);
      var mdd, peak := 0.0, prices[0];
      var j := 0;
      while j < |prices|
        invariant 0 <= j <= |prices|
        invariant j == 0 ==> peak == prices[0]
        invariant j > 0 ==> peak == Peak(prices[..j])
        invariant Drawdown(prices[..j]) == Success(mdd)
      {
        var px := prices[j];
        peak := Max(peak, px);
        assert prices[..j + 1][..j] == prices[..j];
        if peak == 0.0 {
          return Failure(PeakZero);
        }
        mdd := Min(mdd, (px - peak) / peak);
        j := j + 1;
      }
      assert prices[..j] == prices;
      r := Success(Metrics(moment, mdd));
    }
  }
}
