/** The pure parts of both audits: sums and second moments of a return series, and the
    running peak and maximum drawdown of a price path. The drawdown functions describe
    what the audits' loops compute; the loops themselves are in the engines. */
module Risk {
  import opened Common

  /** Python's `sum(..)` over a list of reals. */
  function Sum(rs: seq<real>): real
  {
    if |rs| == 0 then 0.0 else rs[0] + Sum(rs[1..])
  }

  /** `sum((r - c)**2 for r in rs)`. */
  function SumSquaredDeviations(rs: seq<real>, c: real): real
  {
    if |rs| == 0 then 0.0
    else var d := rs[0] - c; d * d + SumSquaredDeviations(rs[1..], c)
  }

  /** A sum of squares is never negative. */
  lemma {:induction false} SquaredDeviationsNonNegative(rs: seq<real>, c: real)
    ensures SumSquaredDeviations(rs, c) >= 0.0
  {
    if |rs| > 0 {
      SquaredDeviationsNonNegative(rs[1..], c);
      var d := rs[0] - c;
      assert d * d >= 0.0;
    }
  }

  /** `sum(rs) / len(rs)`. */
  function Mean(rs: seq<real>): real
    requires |rs| > 0
  {
    Sum(rs) / (|rs| as real)
  }

  /** Population variance around the mean: the quantity under the square root of the
      mean-centred volatility. It is never negative, so the square root is defined. */
  function CenteredRadicand(rs: seq<real>): (v: real)
    requires |rs| > 0
    ensures v >= 0.0
  {
    SquaredDeviationsNonNegative(rs, Mean(rs));
    SumSquaredDeviations(rs, Mean(rs)) / (|rs| as real)
  }

  /** Uncentred second moment: the quantity under the square root of the zero-mean
      volatility. It is never negative, so the square root is defined. */
  function SecondMoment(rs: seq<real>): (v: real)
    requires |rs| > 0
    ensures v >= 0.0
  {
    SquaredDeviationsNonNegative(rs, 0.0);
    SumSquaredDeviations(rs, 0.0) / (|rs| as real)
  }

  /** Expanding the square: the deviations around c are the squares less 2c times the
      sum plus n copies of c squared. */
  lemma {:induction false} SquaredDeviationsExpand(rs: seq<real>, c: real)
    ensures SumSquaredDeviations(rs, c)
         == SumSquaredDeviations(rs, 0.0) - 2.0 * c * Sum(rs) + (|rs| as real) * (c * c)
  {
    if |rs| > 0 {
      SquaredDeviationsExpand(rs[1..], c);
    }
  }

  /** The two volatility conventions differ by the squared mean return: the uncentred
      second moment is the centred variance plus mean squared. So it is never smaller,
      and the two agree exactly when the mean return is zero. */
  lemma SecondMomentDecomposes(rs: seq<real>)
    requires |rs| > 0
    ensures SecondMoment(rs) == CenteredRadicand(rs) + Mean(rs) * Mean(rs)
    ensures CenteredRadicand(rs) <= SecondMoment(rs)
    ensures CenteredRadicand(rs) == SecondMoment(rs) <==> Mean(rs) == 0.0
  {
    var n, m, sum := |rs| as real, Mean(rs), Sum(rs);
    var squares, deviations := SumSquaredDeviations(rs, 0.0), SumSquaredDeviations(rs, m);
    SquaredDeviationsExpand(rs, m);
    assert deviations == squares - 2.0 * m * sum + n * (m * m);
    DivideExpansion(squares, sum, n, m);
    assert CenteredRadicand(rs) == deviations / n == squares / n - m * m;
    SquareZero(m);
  }

  /** The arithmetic of the step above: with m the mean sum / n,
      (s - 2 m sum + n m^2) / n is s / n - m^2. */
  lemma DivideExpansion(s: real, sum: real, n: real, m: real)
    requires n > 0.0 && m == sum / n
    ensures (s - 2.0 * m * sum + n * (m * m)) / n == s / n - m * m
  {
    assert sum == m * n;
    assert 2.0 * m * sum == 2.0 * n * (m * m);
  }

  /** Arithmetic helper for SecondMomentDecomposes: a square is never negative, and is
      zero exactly for zero. */
  lemma SquareZero(m: real)
    ensures m * m >= 0.0
    ensures m != 0.0 ==> m * m > 0.0
    ensures m == 0.0 ==> m * m == 0.0
  {
    if m == 0.0 {
      assert m * m == 0.0 * 0.0;
    } else if m > 0.0 {
      PositiveProduct(m, m);
    } else if m < 0.0 {
      var a := -m;
      PositiveProduct(a, a);
      assert m * m == a * a;
      assert m * m > 0.0;
    }
  }

  /** Arithmetic helper for SecondMomentDecomposes: two positive factors give a positive
      product. */
  lemma PositiveProduct(a: real, b: real)
    requires a > 0.0 && b > 0.0
    ensures a * b > 0.0
  {
  }

  /** No price that serves as a return's base (every price but the last) is zero. */
  predicate NonzeroBases(p: seq<real>)
  {
    forall i :: 0 <= i < |p| - 1 ==> p[i] != 0.0
  }

  /** `forall i <= j: p[i] <= p[j]`. */
  ghost predicate NonDecreasing(p: seq<real>)
  {
    forall i, j :: 0 <= i <= j < |p| ==> p[i] <= p[j]
  }

  /** The running peak after visiting every entry of p: starts at p[0] and takes
      `max(peak, px)` with each visited price. */
  function Peak(p: seq<real>): real
    requires |p| > 0
  {
    if |p| == 1 then Max(p[0], p[0]) else Max(Peak(p[..|p| - 1]), p[|p| - 1])
  }

  /** The running maximum drawdown after visiting every entry of p: seeded at 0, it takes
      `min(max_dd, (px - peak) / peak)` with each visited price, and fails when the
      running peak it divides by is zero. */
  function Drawdown(p: seq<real>): Result<real>
  {
    if |p| == 0 then Success(0.0)
    else match Drawdown(p[..|p| - 1])
      case Failure(f) => Failure(f)
      case Success(dd) =>
        var peak := Peak(p);
        if peak == 0.0 then Failure(PeakZero)
        else Success(Min(dd, (p[|p| - 1] - peak) / peak))
  }

  /** The running peak is the prefix maximum: it dominates every price visited and is
      one of them. */
  lemma {:induction false} PeakIsMaximum(p: seq<real>)
    requires |p| > 0
    ensures forall i :: 0 <= i < |p| ==> p[i] <= Peak(p)
    ensures exists i :: 0 <= i < |p| && Peak(p) == p[i]
  {
    if |p| > 1 {
      var init := p[..|p| - 1];
      PeakIsMaximum(init);
      forall i | 0 <= i < |p| ensures p[i] <= Peak(p) {
        if i < |p| - 1 { assert p[i] == init[i]; }
      }
      if Peak(p) == p[|p| - 1] {
      } else {
        var j :| 0 <= j < |init| && Peak(init) == init[j];
        assert Peak(p) == p[j];
      }
    } else {
      assert Peak(p) == p[0];
    }
  }

  /** The maximum drawdown is never positive. */
  lemma {:induction false} DrawdownNonPositive(p: seq<real>)
    requires Drawdown(p).Success?
    ensures Drawdown(p).value <= 0.0
  {
    if |p| > 0 {
      DrawdownNonPositive(p[..|p| - 1]);
    }
  }

  /** With a positive first price every running peak is positive, so the drawdown never
      divides by zero. */
  lemma {:induction false} DrawdownDefined(p: seq<real>)
    requires |p| > 0 && p[0] > 0.0
    ensures Drawdown(p).Success?
  {
    if |p| > 1 {
      var init := p[..|p| - 1];
      DrawdownDefined(init);
    }
    PeakIsMaximum(p);
  }

  /** With a positive first price, the maximum drawdown is exactly zero if and only if
      the prices never fall. */
  lemma {:induction false} DrawdownZeroIffNonDecreasing(p: seq<real>)
    requires |p| > 0 && p[0] > 0.0
    ensures Drawdown(p) == Success(0.0) <==> NonDecreasing(p)
  {
    DrawdownDefined(p);
    PeakIsMaximum(p);
    var last := p[|p| - 1];
    var peak := Peak(p);
    var x := (last - peak) / peak;
    assert peak > 0.0;
    if |p| == 1 {
      assert peak == last;
      assert Drawdown(p) == Success(0.0);
    } else {
      var init := p[..|p| - 1];
      DrawdownDefined(init);
      DrawdownNonPositive(init);
      DrawdownZeroIffNonDecreasing(init);
      var dd := Drawdown(init).value;
      assert Drawdown(p) == Success(Min(dd, x));
      if NonDecreasing(p) {
        assert NonDecreasing(init);
        assert peak == last;
      }
      if Drawdown(p) == Success(0.0) {
        assert dd == 0.0 && x == 0.0;
        assert last == peak;
        assert NonDecreasing(init);
        forall i, j | 0 <= i <= j < |p| ensures p[i] <= p[j] {
          if j < |p| - 1 { assert p[i] == init[i] && p[j] == init[j]; }
        }
      }
    }
  }
}
