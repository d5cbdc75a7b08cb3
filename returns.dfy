/**
 The monthly resampler and the annualizer shared by the beta factors.

 A month is approximated by 21 trading days: `close[0::21, :]` keeps days
 0, 21, 42, ... of the window. `np.diff(np.log(...), axis=0)` turns
 consecutive samples into monthly log returns, `np.exp(r) - 1.0` into simple
 returns and `(1.0 + R) ** 12 - 1.0` into annualized returns. A reference
 level series is sampled the same way and its first sample dropped
 (`rate[0::21, :][1:, :]`), so that its row k and row k of the returns both
 belong to sampled day 21 * (k + 1).

 Prices are `real`s; `ln` and `exp` stand for numpy's `np.log` and `np.exp`
 and are parameters, so nothing here depends on their values.
 */
module Returns {
  import opened Matrix

  /** Trading days per month: the sampling stride of every beta factor. */
  const MonthStride: nat := 21

  /** Months per year: the exponent of the annualizer. */
  const MonthsPerYear: nat := 12

  /** Number of monthly rows obtained from a window of `days` daily rows: ceil(days / 21) - 1, or none. */
  function MonthlyRows(days: nat): nat {
    if days == 0 then 0 else (days + 20) / 21 - 1
  }

  /**
   The monthly row count is ceil(days / 21) - 1: the last monthly row ends
   on a day inside the window and one row more would end past it.
   */
  lemma MonthlyRowsBounds(days: nat)
    requires days > 0
    ensures 21 * MonthlyRows(days) < days <= 21 * (MonthlyRows(days) + 1)
  {
  }

  /** Monthly row k exists exactly when its closing day 21 * (k + 1) lies inside the window. */
  lemma MonthlyRowExists(days: nat, k: nat)
    ensures k < MonthlyRows(days) <==> 21 * (k + 1) < days
  {
  }

  /**
   `r` holds the monthly log returns of `close`: one row per month of the
   window, row k being, column by column, the log of day 21 * (k + 1) minus
   the log of day 21 * k.
   */
  ghost predicate IsMonthlyLogReturns(r: Matrix, close: Matrix, n: nat, ln: real -> real) {
    Rect(close, n) && Rect(r, n) && |r| == MonthlyRows(|close|) &&
    forall k, j :: 0 <= k < |r| && 0 <= j < n ==>
      r[k][j] == ln(close[21 * (k + 1)][j]) - ln(close[21 * k][j])
  }

  /**
   `r` holds the annualized monthly simple returns of `close`: row k
   annualizes exp(log return) - 1 from day 21 * k to day 21 * (k + 1).
   */
  ghost predicate IsAnnualizedMonthlyReturns(r: Matrix, close: Matrix, n: nat, ln: real -> real, exp: real -> real) {
    Rect(close, n) && Rect(r, n) && |r| == MonthlyRows(|close|) &&
    forall k, j :: 0 <= k < |r| && 0 <= j < n ==>
      r[k][j] == Annualize(exp(ln(close[21 * (k + 1)][j]) - ln(close[21 * k][j])) - 1.0)
  }

  /** `r` holds the level of `rate` on the sampled days after the first: row k is day 21 * (k + 1). */
  ghost predicate IsMonthlyLevels(r: Matrix, rate: Matrix) {
    |r| == MonthlyRows(|rate|) &&
    forall k :: 0 <= k < |r| ==> r[k] == rate[21 * (k + 1)]
  }

  /**
   `m[0::21]`: the elements on days 0, 21, 42, ... of the window, that is
   ceil(|m| / 21) of them, sample k being day 21 * k; every sample is an
   element of `m`.
   */
  function MonthlySample(m: Matrix): (r: Matrix)
    ensures |r| == (|m| + 20) / 21
    ensures forall k :: 0 <= k < |r| ==> 21 * k < |m| && r[k] == m[21 * k]
  {
    seq((|m| + 20) / 21, k requires 0 <= k < (|m| + 20) / 21 => m[21 * k])
  }

  /** Sampling keeps columns: a matrix of `n` columns samples to one of `n` columns. */
  lemma MonthlySampleRect(m: Matrix, n: nat)
    requires Rect(m, n)
    ensures Rect(MonthlySample(m), n)
  {
    var sampled := MonthlySample(m);
    forall k | 0 <= k < |sampled| ensures |sampled[k]| == n {
      assert sampled[k] == m[21 * k];
    }
  }

  /**
   Extracting a column and then sampling its rows gives the same one-column
   series as sampling the rows first and extracting the column afterwards.
   */
  lemma MonthlySampleColumn(m: Matrix, i: nat)
    requires forall k :: 0 <= k < |m| ==> i < |m[k]|
    ensures MonthlySample(Column(m, i)) == Column(MonthlySample(m), i)
  {
    var left, right := MonthlySample(Column(m, i)), Column(MonthlySample(m), i);
    forall k | 0 <= k < |left| ensures left[k] == right[k] {
      assert left[k] == Column(m, i)[21 * k];
    }
  }

  /**
   `np.diff(np.log(close[0::21, :]), axis=0)`: row k is, column by column,
   the log of sampled day 21 * (k + 1) minus the log of sampled day 21 * k.
   */
  function MonthlyLogReturns(close: Matrix, n: nat, ln: real -> real): (r: Matrix)
    requires Rect(close, n)
    ensures IsMonthlyLogReturns(r, close, n, ln)
  {
    var sampled := MonthlySample(close);
    MonthlySampleRect(close, n);
    Diff(MapM(sampled, ln), n)
  }

  /** `x ** n` for a natural exponent. */
  function Pow(x: real, n: nat): real {
    if n == 0 then 1.0 else x * Pow(x, n - 1)
  }

  /** `(1.0 + r) ** 12 - 1.0`: the yearly rate that compounds to the monthly rate `r`. */
  function Annualize(r: real): real {
    Pow(1.0 + r, MonthsPerYear) - 1.0
  }

  /** Bernoulli's inequality: (1 + x) ** n >= 1 + n * x when x >= -1. */
  lemma {:induction false} PowBernoulli(x: real, n: nat)
    requires x >= -1.0
    ensures Pow(1.0 + x, n) >= 1.0 + (n as real) * x
  {
    if n > 0 {
      PowBernoulli(x, n - 1);
      var a, m := 1.0 + x, (n - 1) as real;
      var p, q := Pow(a, n - 1), 1.0 + m * x;
      MulMonotone(p, q, a);
      assert a * q == 1.0 + (m + 1.0) * x + m * (x * x);
      MulMonotone(x * x, 0.0, m);
    }
  }

  /** Multiplying both sides of `p >= q` by a non-negative `a` keeps the order. */
  lemma MulMonotone(p: real, q: real, a: real)
    requires p >= q && a >= 0.0
    ensures a * p >= a * q
  {
  }

  /** Powers of a number strictly between 0 and 1 stay strictly between 0 and 1. */
  lemma {:induction false} PowInUnit(x: real, n: nat)
    requires 0.0 < x < 1.0 && n >= 1
    ensures 0.0 < Pow(x, n) < 1.0
  {
    if n > 1 {
      PowInUnit(x, n - 1);
      assert Pow(x, n) == x * Pow(x, n - 1);
    }
  }

  /** Powers of a positive number are positive. */
  lemma {:induction false} PowPositive(x: real, n: nat)
    requires x > 0.0
    ensures Pow(x, n) > 0.0
  {
    if n > 0 {
      PowPositive(x, n - 1);
    }
  }

  /**
   On the domain of a monthly return (above -100%), the annualized return is
   above -100% too, is at least twelve times the monthly one, and has the
   same sign.
   */
  lemma AnnualizeBounds(r: real)
    requires r > -1.0
    ensures Annualize(r) > -1.0
    ensures Annualize(r) >= 12.0 * r
    ensures (Annualize(r) > 0.0 <==> r > 0.0) && (Annualize(r) < 0.0 <==> r < 0.0)
  {
    PowPositive(1.0 + r, MonthsPerYear);
    PowBernoulli(r, MonthsPerYear);
    if r < 0.0 {
      PowInUnit(1.0 + r, MonthsPerYear);
    }
    if r == 0.0 {
      assert Pow(1.0, MonthsPerYear) == 1.0 by {
        PowOfOne(MonthsPerYear);
      }
    }
  }

  /** Every power of one is one. */
  lemma {:induction false} PowOfOne(n: nat)
    ensures Pow(1.0, n) == 1.0
  {
    if n > 0 {
      PowOfOne(n - 1);
    }
  }

  /**
   `R = (1.0 + (np.exp(monthly_r) - 1.0)) ** 12 - 1.0` over the monthly log
   returns: row k annualizes the simple return from sampled day 21 * k to
   sampled day 21 * (k + 1), column by column.
   */
  function AnnualizedMonthlyReturns(close: Matrix, n: nat, ln: real -> real, exp: real -> real): (r: Matrix)
    requires Rect(close, n)
    ensures IsAnnualizedMonthlyReturns(r, close, n, ln, exp)
  {
    var logReturns := MonthlyLogReturns(close, n, ln);
    AnnualizedOfLogReturns(logReturns, close, n, ln, exp);
    MapM(SimpleReturns(logReturns, exp), Annualize)
  }

  /** Annualizing the simple returns of any monthly log returns of `close` gives its annualized monthly returns. */
  lemma AnnualizedOfLogReturns(logReturns: Matrix, close: Matrix, n: nat, ln: real -> real, exp: real -> real)
    requires IsMonthlyLogReturns(logReturns, close, n, ln)
    ensures IsAnnualizedMonthlyReturns(MapM(SimpleReturns(logReturns, exp), Annualize), close, n, ln, exp)
  {
    var simple := SimpleReturns(logReturns, exp);
    var r := MapM(simple, Annualize);
    forall k, j | 0 <= k < |r| && 0 <= j < n
      ensures r[k][j] == Annualize(exp(ln(close[21 * (k + 1)][j]) - ln(close[21 * k][j])) - 1.0)
    {
      assert r[k][j] == Annualize(simple[k][j]);
      assert simple[k][j] == exp(logReturns[k][j]) - 1.0;
    }
  }

  /** `np.exp(monthly_r) - 1.0`: log returns to simple returns, element by element. */
  function SimpleReturns(logReturns: Matrix, exp: real -> real): (r: Matrix)
    ensures |r| == |logReturns|
    ensures forall k :: 0 <= k < |r| ==> |r[k]| == |logReturns[k]|
    ensures forall k, j :: 0 <= k < |r| && 0 <= j < |r[k]| ==> r[k][j] == exp(logReturns[k][j]) - 1.0
  {
    MapM(logReturns, (x: real) => exp(x) - 1.0)
  }

  /**
   `rate[0::21, :][1:, :]`: the level on every sampled day but the first, so
   that row k is day 21 * (k + 1), the same count of rows as the monthly
   returns over a window of the same length.
   */
  function MonthlyLevels(rate: Matrix): (r: Matrix)
    ensures IsMonthlyLevels(r, rate)
  {
    Tail(MonthlySample(rate))
  }
}
