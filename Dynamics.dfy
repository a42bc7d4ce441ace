/** The per-step physics that both engines run: an oscillating, noisy target price,
    a momentum that reverts towards it and is clamped to [-20, 20], and a price that
    integrates the momentum. `sin(step * 0.1)` and `random.uniform(-1, 1)` cannot be
    computed here, so a run takes them as two input sequences; index i holds the
    values the source computes at step i + 1. */
module Dynamics {
  import opened Common

  /** Symmetric bound on momentum. The integration step dt = 0.05 and the momentum gain
      k = 0.15, fixed in both engines' constructors, are written as literals below so
      that every product in the step stays linear for the verifier. */
  const Bound: real := 20.0

  /** The target of one step: baseline 100, oscillation amplitude 15, noise amplitude 10. */
  function Target(sine: real, draw: real): (t: real)
    ensures -1.0 <= sine <= 1.0 && -1.0 <= draw <= 1.0 ==> 75.0 <= t <= 125.0
    ensures sine == 0.0 && draw == 0.0 ==> t == 100.0
  {
    100.0 + sine * 15.0 + draw * 10.0
  }

  /** `max(min(x, 20), -20)`: x itself when it already lies in the bounds. */
  function Clamp(x: real): real
  {
    Max(Min(x, Bound), -Bound)
  }

  /** The clamp lands in [-20, 20], keeps x when it is already there, and otherwise
      gives the bound on x's side. */
  lemma ClampBounds(x: real)
    ensures -Bound <= Clamp(x) <= Bound
    ensures -Bound <= x <= Bound ==> Clamp(x) == x
    ensures x > Bound ==> Clamp(x) == Bound
    ensures x < -Bound ==> Clamp(x) == -Bound
  {
  }

  /** Number of iterations of `for step in range(1, steps + 1)`: none for steps <= 0. */
  function StepCount(steps: int): nat
  {
    if steps < 0 then 0 else steps
  }

  /** The progress check `step % (steps // 10)` is evaluated (only when `checked`, and only
      inside the loop, so only when steps >= 1) and divides by zero: that is, for a
      checked run of 1 to 9 steps, which then fails on its first step. */
  predicate ProgressFaults(checked: bool, steps: int)
    ensures ProgressFaults(checked, steps) <==> checked && 1 <= steps <= 9
  {
    checked && 1 <= steps && steps / 10 == 0
  }

  /** Number of loop iterations a run completes before it stops. */
  function Executed(checked: bool, steps: int): nat
  {
    if ProgressFaults(checked, steps) then 1 else StepCount(steps)
  }

  /** The simulation state the engines keep in fields. */
  datatype State = State(price: real, momentum: real)

  /** One step of the loop body: momentum first, then price from the new momentum. */
  function Step(s: State, target: real): State
  {
    var m := Clamp(s.momentum + (target - s.price) * 0.15 * 0.05);
    State(s.price + m * 0.05, m)
  }

  /** A step leaves momentum in [-20, 20], keeps the unclamped update when it is already
      in range, and moves the price by momentum * dt, so by at most 1. */
  lemma StepBounds(s: State, target: real)
    ensures var u, m := Step(s, target), s.momentum + (target - s.price) * 0.15 * 0.05;
            -Bound <= u.momentum <= Bound &&
            (-Bound <= m <= Bound ==> u.momentum == m) &&
            u.price - s.price == u.momentum * 0.05 &&
            -1.0 <= u.price - s.price <= 1.0
  {
  }

  /** The loop body as the engines write it, with `max(min(..))`, computes Step. */
  lemma StepWritten(s: State, target: real, momentum: real, price: real)
    requires momentum == Max(Min(s.momentum + (target - s.price) * 0.15 * 0.05, 20.0), -20.0)
    requires price == s.price + momentum * 0.05
    ensures State(price, momentum) == Step(s, target)
  {
  }

  /** The targets of a whole run, one per step, in step order. */
  function Targets(sines: seq<real>, draws: seq<real>): seq<real>
    requires |sines| == |draws|
  {
    seq(|sines|, i requires 0 <= i < |sines| => Target(sines[i], draws[i]))
  }

  /** When every sine and every draw of a run lies in [-1, 1], every target of the run,
      one per step, lies in [75, 125]. */
  lemma TargetsBounded(sines: seq<real>, draws: seq<real>)
    requires |sines| == |draws|
    requires forall i :: 0 <= i < |sines| ==> -1.0 <= sines[i] <= 1.0 && -1.0 <= draws[i] <= 1.0
    ensures var ts := Targets(sines, draws);
            |ts| == |sines| && forall i :: 0 <= i < |ts| ==> 75.0 <= ts[i] <= 125.0
  {
  }

  /** The state after the first n steps of a run whose targets are `ts`, from `s0`. */
  function After(s0: State, ts: seq<real>, n: nat): (s: State)
    requires n <= |ts|
    ensures n > 0 ==> -Bound <= s.momentum <= Bound
  {
    if n == 0 then s0
    else StepBounds(After(s0, ts, n - 1), ts[n - 1]); Step(After(s0, ts, n - 1), ts[n - 1])
  }

  /** The prices recorded by the first n steps: one per step, the price after that step. */
  function Trajectory(s0: State, ts: seq<real>, n: nat): (ps: seq<real>)
    requires n <= |ts|
    ensures |ps| == n
  {
    if n == 0 then [] else Trajectory(s0, ts, n - 1) + [After(s0, ts, n).price]
  }

  /** Entries already recorded are never changed by later steps: the trajectory of m
      steps is a prefix of the trajectory of any longer run. */
  lemma {:induction false} TrajectoryPrefix(s0: State, ts: seq<real>, m: nat, n: nat)
    requires m <= n <= |ts|
    ensures Trajectory(s0, ts, m) == Trajectory(s0, ts, n)[..m]
  {
    if m < n {
      TrajectoryPrefix(s0, ts, m, n - 1);
      assert Trajectory(s0, ts, n)[..n - 1] == Trajectory(s0, ts, n - 1);
    }
  }

  /** Entry i of the recorded prices is the price after step i + 1. */
  lemma PriceAt(s0: State, ts: seq<real>, n: nat, i: nat)
    requires i < n <= |ts|
    ensures Trajectory(s0, ts, n)[i] == After(s0, ts, i + 1).price
  {
    TrajectoryPrefix(s0, ts, i + 1, n);
  }

  /** Each recorded price is the one before it (the start price for the first step) plus
      momentum * dt, with the momentum of that step in [-20, 20]. So consecutive prices
      differ by at most 1, and the momentum can be read back from the trajectory as the
      difference divided by dt. */
  lemma Increment(s0: State, ts: seq<real>, n: nat, i: nat)
    requires i < n <= |ts|
    ensures var ps := Trajectory(s0, ts, n);
            var m := After(s0, ts, i + 1).momentum;
            var d := ps[i] - (if i == 0 then s0.price else ps[i - 1]);
            d == m * 0.05 && d / 0.05 == m && -Bound <= m <= Bound && -1.0 <= d <= 1.0
  {
    PriceAt(s0, ts, n, i);
    StepBounds(After(s0, ts, i), ts[i]);
    if i > 0 {
      PriceAt(s0, ts, n, i - 1);
    }
  }
}
