/**
 The seven factor computations of the arbitrage-pricing pipeline: for one
 evaluation day each fills the caller's `out` buffer (one slot per asset)
 from the day-by-asset windows the pipeline engine hands it.

 - `Closes`, `InterestRate`, `InflationRate` write the latest row of their
   window (`window_length = 1`).
 - `TBillBeta`, `TBillBondSpreadBeta`, `PurchaseManagerIndexBeta`,
   `InflationRateBeta` build a dependent monthly series from the close
   window and a reference monthly series, hand both to the external
   `beta_residual` regression and write the beta vector it returns.

 The regression is a parameter (`BetaResidual`); this module states which
 rows and columns reach it, that both sides have the same number of rows,
 and what ends up in `out`.
 */
module Factors {
  import opened Matrix
  import opened Lookup
  import opened Returns

  /** Asset id of the 30-year Treasury bond series. */
  const TBond30ySid: int := 10240
  /** Asset id of the 3-month Treasury bill series. */
  const TBill3mSid: int := 10003
  /** Asset id of the Purchasing Managers Index series. */
  const PmiSid: int := 10430
  /** Asset id of the US year-over-year inflation rate series. */
  const InflationSid: int := 10450

  /** Trailing window of the latest-value factors. */
  const LatestWindowLength: nat := 1
  /** Trailing window of the beta factors: about one year of trading days. */
  const BetaWindowLength: nat := 252

  /** `beta_residual(R, t_rates, standardize=True)`: the per-asset betas and the residuals. */
  type BetaResidual = (Matrix, Matrix) -> (seq<real>, Matrix)

  /** The two sides of one beta regression: monthly asset returns and the monthly reference series. */
  datatype Regression = Regression(dependent: Matrix, reference: Matrix)

  /** `beta_residual(...)[0]`: the beta vector of a regression. */
  function Beta(betaResidual: BetaResidual, inputs: Regression): seq<real> {
    betaResidual(inputs.dependent, inputs.reference).0
  }

  /** A window of a year of days gives eleven monthly rows. */
  lemma BetaWindowMonths()
    ensures MonthlyRows(BetaWindowLength) == 11
  {
  }

  // ---------------------------------------------------------------------
  // Writing into `out`

  /** `out[:] = v` is legal: `v` has one entry per slot, or a single entry that numpy broadcasts. */
  predicate Fits(v: seq<real>, len: nat) {
    |v| == len || |v| == 1
  }

  /** `out` holds what `out[:] = v` writes: `v` itself, or its single entry in every slot. */
  ghost predicate Filled(out: seq<real>, v: seq<real>)
    requires Fits(v, |out|)
  {
    forall i :: 0 <= i < |out| ==> out[i] == (if |v| == |out| then v[i] else v[0])
  }

  /** `out[:] = v`: overwrites every slot of `out`. */
  method Assign(out: array<real>, v: seq<real>)
    requires Fits(v, out.Length)
    modifies out
    ensures Filled(out[..], v)
  {
    forall i | 0 <= i < out.Length {
      out[i] := if |v| == out.Length then v[i] else v[0];
    }
  }

  /** `out[:] = window[-windowLength]`. */
  method WriteLatest(out: array<real>, window: Matrix, windowLength: nat)
    requires 1 <= windowLength <= |window|
    requires Fits(window[|window| - windowLength], out.Length)
    modifies out
    ensures Filled(out[..], window[|window| - windowLength])
  {
    Assign(out, window[|window| - windowLength]);
  }

  // ---------------------------------------------------------------------
  // Latest-value factors

  /** `Closes.compute`: every asset's close on the last day of the window. */
  method ClosesCompute(out: array<real>, close: Matrix)
    requires |close| >= LatestWindowLength
    requires Fits(close[|close| - 1], out.Length)
    modifies out
    ensures Filled(out[..], close[|close| - 1])
  {
    WriteLatest(out, close, LatestWindowLength);
  }

  /**
   `InterestRate.compute`: the one-year rate of the last day, in every slot.
   The window is the one-column series of a single rate symbol.
   */
  method InterestRateCompute(out: array<real>, intRate: Matrix)
    requires |intRate| >= LatestWindowLength && Rect(intRate, 1)
    modifies out
    ensures Filled(out[..], intRate[|intRate| - 1])
    ensures forall i :: 0 <= i < out.Length ==> out[i] == intRate[|intRate| - 1][0]
  {
    WriteLatest(out, intRate, LatestWindowLength);
  }

  /**
   `InflationRate.compute`: the inflation rate of the last day, taken from the
   column of id 10450, in every slot; when that id is missing the source
   raises before writing, so `out` is left as it was.
   */
  method InflationRateCompute(assets: seq<int>, out: array<real>, prices: Matrix) returns (ok: bool)
    requires Rect(prices, |assets|) && |prices| >= LatestWindowLength
    modifies out
    ensures ok <==> InflationSid in assets
    ensures ok ==> Filled(out[..], [prices[|prices| - 1][FirstMatch(assets, InflationSid)]])
    ensures !ok ==> out[..] == old(out[..])
  {
    var rate := PricesBySid(assets, prices, InflationSid);
    if rate.IndexError? {
      return false;
    }
    WriteLatest(out, rate.value, LatestWindowLength);
    ok := true;
  }

  // ---------------------------------------------------------------------
  // Regression inputs of the beta factors

  /**
   `TBillBeta`: annualized monthly returns of every asset against the
   sampled T-bill rate. When both windows have the same length the two
   sides have the same number of rows, and row k of both is day 21 * (k + 1).
   */
  function TBillBetaInputs(close: Matrix, n: nat, rate: Matrix, ln: real -> real, exp: real -> real): (r: Regression)
    requires Rect(close, n)
    ensures IsAnnualizedMonthlyReturns(r.dependent, close, n, ln, exp)
    ensures IsMonthlyLevels(r.reference, rate)
    ensures |close| == |rate| ==> |r.dependent| == |r.reference|
  {
    Regression(AnnualizedMonthlyReturns(close, n, ln, exp), MonthlyLevels(rate))
  }

  /**
   `TBillBondSpreadBeta`: annualized monthly returns against the 30-year bond
   level minus the 3-month bill level, both taken from the close window by
   id. Fails on the bond id first, then on the bill id.
   */
  function SpreadBetaInputs(assets: seq<int>, close: Matrix, ln: real -> real, exp: real -> real): (r: Result<Regression>)
    requires Rect(close, |assets|)
    ensures r.Ok? <==> TBond30ySid in assets && TBill3mSid in assets
    ensures r.IndexError? ==> r.sid == if TBond30ySid !in assets then TBond30ySid else TBill3mSid
    ensures r.Ok? ==> IsAnnualizedMonthlyReturns(r.value.dependent, close, |assets|, ln, exp)
    ensures r.Ok? ==> |r.value.reference| == |r.value.dependent|
    ensures r.Ok? ==> IsSpreadReference(r.value.reference, close, |assets|,
                                        FirstMatch(assets, TBond30ySid), FirstMatch(assets, TBill3mSid))
  {
    var bond :- PricesBySid(assets, close, TBond30ySid);
    var bill :- PricesBySid(assets, close, TBill3mSid);
    var reference := Spread(bond, bill);
    SpreadOfColumns(close, |assets|, FirstMatch(assets, TBond30ySid), FirstMatch(assets, TBill3mSid), bond, bill, reference);
    Ok(Regression(AnnualizedMonthlyReturns(close, |assets|, ln, exp), reference))
  }

  /**
   `bond[0::21, :][1:, :] - bill[0::21, :][1:, :]` for two one-column series
   of the same length: row k is the bond level minus the bill level of day
   21 * (k + 1).
   */
  function Spread(bond: Matrix, bill: Matrix): (r: Matrix)
    requires |bond| == |bill| && Rect(bond, 1) && Rect(bill, 1)
    ensures Rect(r, 1) && |r| == MonthlyRows(|bond|)
    ensures forall k :: 0 <= k < |r| ==> r[k][0] == bond[21 * (k + 1)][0] - bill[21 * (k + 1)][0]
  {
    SubM(MonthlyLevels(bond), MonthlyLevels(bill), 1)
  }

  /**
   `reference` is the spread of columns `i` and `j` of `close`: one column,
   a row per month of the window, row k being the level in column `i` minus
   the level in column `j` on day 21 * (k + 1).
   */
  ghost predicate IsSpreadReference(reference: Matrix, close: Matrix, n: nat, i: nat, j: nat) {
    Rect(close, n) && i < n && j < n &&
    Rect(reference, 1) && |reference| == MonthlyRows(|close|) &&
    forall k :: 0 <= k < |reference| ==>
      reference[k][0] == close[21 * (k + 1)][i] - close[21 * (k + 1)][j]
  }

  /**
   A spread of two one-column series read from columns `i` and `j` of
   `close` is the spread of those columns.
   */
  lemma SpreadOfColumns(close: Matrix, n: nat, i: nat, j: nat, a: Matrix, b: Matrix, spread: Matrix)
    requires Rect(close, n) && i < n && j < n
    requires |a| == |close| && |b| == |close|
    requires forall k :: 0 <= k < |close| ==> a[k] == [close[k][i]] && b[k] == [close[k][j]]
    requires |spread| == MonthlyRows(|a|) && Rect(spread, 1)
    requires forall k :: 0 <= k < |spread| ==> spread[k][0] == a[21 * (k + 1)][0] - b[21 * (k + 1)][0]
    ensures IsSpreadReference(spread, close, n, i, j)
  {
    forall k | 0 <= k < |spread|
      ensures spread[k][0] == close[21 * (k + 1)][i] - close[21 * (k + 1)][j]
    {
      var day := 21 * (k + 1);
      assert a[day] == [close[day][i]] && b[day] == [close[day][j]];
    }
  }

  /**
   `PurchaseManagerIndexBeta`: monthly log returns of every asset against the
   monthly log returns of the PMI column (id 10430) of the same window, taken
   from the first column holding that id.
   */
  function PmiBetaInputs(assets: seq<int>, close: Matrix, ln: real -> real): (r: Result<Regression>)
    requires Rect(close, |assets|)
    ensures r.Ok? <==> PmiSid in assets
    ensures r.IndexError? ==> r.sid == PmiSid
    ensures r.Ok? ==> IsMonthlyLogReturns(r.value.dependent, close, |assets|, ln)
    ensures r.Ok? ==> |r.value.reference| == |r.value.dependent|
    ensures r.Ok? ==> IsColumnLogReturns(r.value.reference, close, |assets|, FirstMatch(assets, PmiSid), ln)
  {
    var pmi :- PricesBySid(assets, close, PmiSid);
    var reference := MonthlyLogReturns(pmi, 1, ln);
    LogReturnsOfColumn(close, |assets|, FirstMatch(assets, PmiSid), ln, pmi, reference);
    Ok(Regression(MonthlyLogReturns(close, |assets|, ln), reference))
  }

  /**
   `reference` holds the monthly log returns of column `i` of `close`: one
   column, a row per month of the window, row k being the log of column `i`
   on day 21 * (k + 1) minus its log on day 21 * k.
   */
  ghost predicate IsColumnLogReturns(reference: Matrix, close: Matrix, n: nat, i: nat, ln: real -> real) {
    Rect(close, n) && i < n &&
    Rect(reference, 1) && |reference| == MonthlyRows(|close|) &&
    forall k :: 0 <= k < |reference| ==>
      reference[k][0] == ln(close[21 * (k + 1)][i]) - ln(close[21 * k][i])
  }

  /**
   The monthly log returns of a one-column series read from column `i` of
   `close` are the monthly log returns of that column.
   */
  lemma LogReturnsOfColumn(close: Matrix, n: nat, i: nat, ln: real -> real, a: Matrix, reference: Matrix)
    requires Rect(close, n) && i < n
    requires |a| == |close|
    requires forall k :: 0 <= k < |close| ==> a[k] == [close[k][i]]
    requires IsMonthlyLogReturns(reference, a, 1, ln)
    ensures IsColumnLogReturns(reference, close, n, i, ln)
  {
    forall k | 0 <= k < |reference|
      ensures reference[k][0] == ln(close[21 * (k + 1)][i]) - ln(close[21 * k][i])
    {
      var day := 21 * k;
      assert a[day + 21] == [close[day + 21][i]] && a[day] == [close[day][i]];
    }
  }

  /**
   `InflationRateBeta`: monthly log returns of every asset against the
   inflation level itself (not its change) on the sampled days after the
   first.
   */
  function InflationBetaInputs(close: Matrix, n: nat, rateinf: Matrix, ln: real -> real): (r: Regression)
    requires Rect(close, n)
    ensures IsMonthlyLogReturns(r.dependent, close, n, ln)
    ensures IsMonthlyLevels(r.reference, rateinf)
    ensures |close| == |rateinf| ==> |r.dependent| == |r.reference|
  {
    Regression(MonthlyLogReturns(close, n, ln), MonthlyLevels(rateinf))
  }

  // ---------------------------------------------------------------------
  // Beta factors

  /** `TBillBeta.compute`: writes the betas of the T-bill regression. */
  method TBillBetaCompute(assets: seq<int>, out: array<real>, close: Matrix, rate: Matrix,
                          ln: real -> real, exp: real -> real, betaResidual: BetaResidual)
    requires Rect(close, |assets|)
    requires Fits(Beta(betaResidual, TBillBetaInputs(close, |assets|, rate, ln, exp)), out.Length)
    modifies out
    ensures Filled(out[..], Beta(betaResidual, TBillBetaInputs(close, |assets|, rate, ln, exp)))
  {
    var inputs := TBillBetaInputs(close, |assets|, rate, ln, exp);
    Assign(out, Beta(betaResidual, inputs));
  }

  /** `TBillBondSpreadBeta.compute`: writes the betas of the spread regression, or nothing when an id is missing. */
  method SpreadBetaCompute(assets: seq<int>, out: array<real>, close: Matrix,
                           ln: real -> real, exp: real -> real, betaResidual: BetaResidual) returns (ok: bool)
    requires Rect(close, |assets|)
    requires SpreadBetaInputs(assets, close, ln, exp).Ok? ==>
      Fits(Beta(betaResidual, SpreadBetaInputs(assets, close, ln, exp).value), out.Length)
    modifies out
    ensures ok <==> TBond30ySid in assets && TBill3mSid in assets
    ensures ok ==> Filled(out[..], Beta(betaResidual, SpreadBetaInputs(assets, close, ln, exp).value))
    ensures !ok ==> out[..] == old(out[..])
  {
    var inputs := SpreadBetaInputs(assets, close, ln, exp);
    if inputs.IndexError? {
      return false;
    }
    Assign(out, Beta(betaResidual, inputs.value));
    ok := true;
  }

  /** `PurchaseManagerIndexBeta.compute`: writes the betas of the PMI regression, or nothing when id 10430 is missing. */
  method PmiBetaCompute(assets: seq<int>, out: array<real>, close: Matrix,
                        ln: real -> real, betaResidual: BetaResidual) returns (ok: bool)
    requires Rect(close, |assets|)
    requires PmiBetaInputs(assets, close, ln).Ok? ==>
      Fits(Beta(betaResidual, PmiBetaInputs(assets, close, ln).value), out.Length)
    modifies out
    ensures ok <==> PmiSid in assets
    ensures ok ==> Filled(out[..], Beta(betaResidual, PmiBetaInputs(assets, close, ln).value))
    ensures !ok ==> out[..] == old(out[..])
  {
    var inputs := PmiBetaInputs(assets, close, ln);
    if inputs.IndexError? {
      return false;
    }
    Assign(out, Beta(betaResidual, inputs.value));
    ok := true;
  }

  /** `InflationRateBeta.compute`: writes the betas of the inflation regression. */
  method InflationBetaCompute(assets: seq<int>, out: array<real>, close: Matrix, rateinf: Matrix,
                              ln: real -> real, betaResidual: BetaResidual)
    requires Rect(close, |assets|)
    requires Fits(Beta(betaResidual, InflationBetaInputs(close, |assets|, rateinf, ln)), out.Length)
    modifies out
    ensures Filled(out[..], Beta(betaResidual, InflationBetaInputs(close, |assets|, rateinf, ln)))
  {
    var inputs := InflationBetaInputs(close, |assets|, rateinf, ln);
    Assign(out, Beta(betaResidual, inputs));
  }
}
