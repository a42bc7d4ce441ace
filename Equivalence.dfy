/** The two engines run the same loop and differ only in their audit formulas and in
    when the progress check runs. This module proves that for the same draws they
    produce the same trajectory and the same final state whenever their progress checks
    agree (always when the first engine runs verbose, its default; otherwise for any
    step count outside 1 to 9), that their return formulas agree over the reals, and
    how their two volatility radicands relate. */
module Equivalence {
  import opened Common
  import opened Dynamics
  import opened Risk
  import GldEngine
  import Engine

  /** `b / a - 1` and `(b - a) / a` are the same number whenever a is not zero. */
  lemma ReturnFormulasAgree(a: real, b: real)
    requires a != 0.0
    ensures b / a - 1.0 == (b - a) / a
  {
    assert (b - a) / a == b / a - a / a;
  }

  /** The two return lists are equal, entry for entry. */
  lemma ReturnsAgree(p: seq<real>)
    requires NonzeroBases(p)
    ensures GldEngine.Returns(p) == Engine.Returns(p)
  {
    var g, e := GldEngine.Returns(p), Engine.Returns(p);
    forall i | 0 <= i < |g| ensures g[i] == e[i] {
      ReturnFormulasAgree(p[i], p[i + 1]);
    }
  }

  /** Where both audits get past their return computation, each is decided by the
      drawdown scan alone: its fault, or a report built from the drawdown. */
  lemma AuditsByDrawdown(p: seq<real>)
    requires NonzeroBases(p) && |p| >= 2
    ensures var d, rs := Drawdown(p), GldEngine.Returns(p);
            (d.Failure? ==> GldEngine.AuditOf(p) == Failure(d.fault) && Engine.AuditOf(p) == Failure(d.fault)) &&
            (d.Success? ==> GldEngine.AuditOf(p) == Success(GldEngine.AuditReport(p[|p| - 1], CenteredRadicand(rs), d.value)) &&
                            Engine.AuditOf(p) == Success(Engine.Metrics(SecondMoment(Engine.Returns(p)), d.value)))
  {
  }

  /** On any price list the two audits fail together and with the same fault. When they
      succeed they report the same maximum drawdown and measure volatility over the same
      returns: one as the centred variance, the other as the uncentred second moment,
      which is never smaller and equals it exactly when the mean return is zero
      (SecondMomentDecomposes gives the difference as the squared mean). */
  lemma AuditsAgree(p: seq<real>)
    ensures GldEngine.AuditOf(p).Success? <==> Engine.AuditOf(p).Success?
    ensures GldEngine.AuditOf(p).Failure? ==> GldEngine.AuditOf(p).fault == Engine.AuditOf(p).fault
    ensures GldEngine.AuditOf(p).Success? ==>
              var g, e, rs := GldEngine.AuditOf(p).value, Engine.AuditOf(p).value, GldEngine.Returns(p);
              g.maxDrawdown == e.maxDrawdown &&
              g.varianceRadicand == CenteredRadicand(rs) && e.secondMoment == SecondMoment(rs) &&
              g.varianceRadicand <= e.secondMoment &&
              (g.varianceRadicand == e.secondMoment <==> Mean(rs) == 0.0)
  {
    if NonzeroBases(p) && |p| >= 2 {
      ReturnsAgree(p);
      AuditsByDrawdown(p);
      if Drawdown(p).Success? {
        SecondMomentDecomposes(GldEngine.Returns(p));
      }
    }
  }

  /** Where the progress checks part ways: with 1 to 9 steps, a non-verbose run of the
      first engine completes every step, while the second engine stops after one. */
  lemma ProgressDiverges(steps: int)
    requires 1 <= steps <= 9
    ensures !ProgressFaults(false, steps) && Executed(false, steps) == steps
    ensures ProgressFaults(true, steps) && Executed(true, steps) == 1
  {
  }

  /** Both engines built with the same seed and step count and run on the same draws,
      the first one verbose or with a step count at which the second engine's progress
      check does not fail: same prices, same final price and momentum, and audits that
      agree as AuditsAgree says. */
  method RunBoth(seed: int, steps: int, verbose: bool, sines: seq<real>, draws: seq<real>)
    returns (gldPrices: seq<real>, enginePrices: seq<real>,
             gldState: State, engineState: State,
             gldOutcome: Result<GldEngine.AuditReport>, engineOutcome: Result<Engine.Metrics>)
    requires |sines| == StepCount(steps) && |draws| == StepCount(steps)
    requires verbose || !ProgressFaults(true, steps)
    ensures gldPrices == enginePrices && gldState == engineState
    ensures gldOutcome.Success? <==> engineOutcome.Success?
    ensures gldOutcome.Failure? ==> gldOutcome.fault == engineOutcome.fault
    ensures gldOutcome.Success? ==>
              gldOutcome.value.maxDrawdown == engineOutcome.value.maxDrawdown &&
              gldOutcome.value.varianceRadicand <= engineOutcome.value.secondMoment
  {
    var a := new GldEngine.GeometricLiquidityDynamics(seed, steps, 100.0);
    gldOutcome := a.Run(verbose, sines, draws);
    var b := new Engine.GLDEngine(seed, steps);
    engineOutcome := b.Run(sines, draws);
    gldPrices, enginePrices := a.prices, b.prices;
    gldState, engineState := State(a.price, a.momentum), State(b.q, b.p);
    AuditsAgree(gldPrices);
  }
}
