/** Regression of the model's elo difference toward the market's
    (nfelo/Utilities/market_regression.py). */
module MarketRegression {
  import opened Numerics

  /** Regression strength before adjustments: 4 / (1 + base * d^2) + d / 14
      with d the absolute gap between the model and market lines. */
  function InitialMrFactor(modelLine: real, marketLine: real, spreadDeltaBase: real): (r: real)
    requires spreadDeltaBase >= 0.0
  {
    var d := Abs(modelLine - marketLine);
    4.0 / (1.0 + spreadDeltaBase * d * d) + d / 14.0
  }

  lemma InitialMrFactorShape(modelLine: real, marketLine: real, spreadDeltaBase: real)
    requires spreadDeltaBase >= 0.0
    ensures InitialMrFactor(modelLine, marketLine, spreadDeltaBase)
         == InitialMrFactor(marketLine, modelLine, spreadDeltaBase)
    ensures modelLine == marketLine ==> InitialMrFactor(modelLine, marketLine, spreadDeltaBase) == 4.0
    ensures InitialMrFactor(modelLine, marketLine, spreadDeltaBase) > 0.0
  {
    assert Abs(modelLine - marketLine) == Abs(marketLine - modelLine);
  }

  /** Mean of the two teams' rolling RMSEs (square roots of the rolling
      squared errors), model minus market, scaled by `rmseBase`; applied only
      when the two lines differ by more than a point. */
  function RmseAdj(m: Math, modelLine: real, marketLine: real, rmseBase: real,
                   modelSeHome: real, marketSeHome: real,
                   modelSeAway: real, marketSeAway: real): (r: real)
    requires rmseBase != 0.0
    ensures Abs(modelLine - marketLine) <= 1.0 ==> r == 1.0
    ensures Abs(modelLine - marketLine) > 1.0 ==>
      r == 1.0 + ((m.sqrt(modelSeHome) + m.sqrt(modelSeAway)) / 2.0
                - (m.sqrt(marketSeHome) + m.sqrt(marketSeAway)) / 2.0) / rmseBase
  {
    var modelRmse := (m.sqrt(modelSeHome) + m.sqrt(modelSeAway)) / 2.0;
    var marketRmse := (m.sqrt(marketSeHome) + m.sqrt(marketSeAway)) / 2.0;
    if Abs(modelLine - marketLine) > 1.0 then 1.0 + (modelRmse - marketRmse) / rmseBase else 1.0
  }

  /** Long lines: inflate when the market makes home a big favourite and the
      model is less sure. */
  function LongAdj(modelLine: real, marketLine: real, llInflator: real): (r: real)
    ensures marketLine < -7.5 && modelLine > marketLine ==> r == 1.0 + llInflator
    ensures marketLine >= -7.5 || modelLine <= marketLine ==> r == 1.0
  {
    if marketLine < -7.5 && modelLine > marketLine then 1.0 + llInflator else 1.0
  }

  /** Hooks (half-point lines) are regressed by `1 + hookCertainty`. */
  function HookAdj(modelLine: real, marketLine: real, hookCertainty: real): (r: real)
    ensures IsWhole(marketLine) ==> r == 1.0
    ensures !IsWhole(marketLine) ==> r == 1.0 + hookCertainty
  {
    // market_line == round(market_line) holds exactly for whole numbers
    if marketLine == RoundHalfEven(marketLine) as real then 1.0 else 1.0 + hookCertainty
  }

  datatype Config = Config(
    marketRegression: real, minRegression: real, spreadDeltaBase: real,
    rmseBase: real, llInflator: real, hookCertainty: real)

  predicate ValidConfig(c: Config) {
    c.spreadDeltaBase >= 0.0 && c.rmseBase != 0.0
  }

  datatype SeContext = SeContext(modelSeHome: real, marketSeHome: real, modelSeAway: real, marketSeAway: real)

  datatype Regression = Regression(regressedDif: real, factorUsed: real)

  /** The factor used: max(min_regression, min(1, market_regression * product)). */
  function ClampFactor(c: Config, product: real): (r: real)
    ensures r == Max(c.minRegression, Min(1.0, c.marketRegression * product))
    ensures c.minRegression <= 1.0 ==> c.minRegression <= r <= 1.0
  {
    Max(c.minRegression, Min(1.0, c.marketRegression * product))
  }

  /** Blend from the model's difference toward the market's by factor f. */
  function Blend(modelDif: real, marketDif: real, f: real): (r: real)
    ensures f == 0.0 ==> r == modelDif
    ensures f == 1.0 ==> r == marketDif
    ensures 0.0 <= f <= 1.0 ==> Min(modelDif, marketDif) <= r <= Max(modelDif, marketDif)
  {
    BlendStep(modelDif, marketDif, f);
    modelDif + f * (marketDif - modelDif)
  }

  lemma BlendStep(modelDif: real, marketDif: real, f: real)
    ensures 0.0 <= f <= 1.0 ==> Min(modelDif, marketDif) <= modelDif + f * (marketDif - modelDif) <= Max(modelDif, marketDif)
  {
    if 0.0 <= f <= 1.0 {
      var d := marketDif - modelDif;
      if d >= 0.0 {
        MulNonneg(f, d);
        MulNonneg(1.0 - f, d);
      } else {
        MulNonneg(f, -d);
        MulNonneg(1.0 - f, -d);
      }
      assert d - f * d == (1.0 - f) * d;
    }
  }

  /** The four factors multiplied together.  `rmseModelLine` is the line the
      RMSE term is given as the model's: the source passes the market line. */
  function Product(m: Math, c: Config, rmseModelLine: real, modelLine: real, marketLine: real, se: SeContext): real
    requires ValidConfig(c)
  {
    InitialMrFactor(modelLine, marketLine, c.spreadDeltaBase)
      * RmseAdj(m, rmseModelLine, marketLine, c.rmseBase,
                se.modelSeHome, se.marketSeHome, se.modelSeAway, se.marketSeAway)
      * LongAdj(modelLine, marketLine, c.llInflator)
      * HookAdj(modelLine, marketLine, c.hookCertainty)
  }

  /** regress_to_market as written: the RMSE term is computed from
      rmse_adj(market_line, market_line, ...) (market_regression.py:147-151). */
  function RegressToMarket(m: Math, c: Config, modelDif: real, marketDif: real,
                           modelLine: real, marketLine: real, se: SeContext): (r: Regression)
    requires ValidConfig(c)
    ensures r.factorUsed == ClampFactor(c, AsWrittenProduct(c, modelLine, marketLine))
    ensures c.minRegression <= 1.0 ==> c.minRegression <= r.factorUsed <= 1.0
    ensures r.regressedDif == Blend(modelDif, marketDif, r.factorUsed)
  {
    RmseTermIsOneAsWritten(m, c, modelLine, marketLine, se);
    var f := ClampFactor(c, Product(m, c, marketLine, modelLine, marketLine, se));
    Regression(Blend(modelDif, marketDif, f), f)
  }

  /** As called, the RMSE adjustment compares the market line with itself,
      so it is always exactly 1 whatever the rolling errors are. */
  lemma RmseTermIsOneAsWritten(m: Math, c: Config, modelLine: real, marketLine: real, se: SeContext)
    requires ValidConfig(c)
    ensures Product(m, c, marketLine, modelLine, marketLine, se) == AsWrittenProduct(c, modelLine, marketLine)
  {
    var one := RmseAdj(m, marketLine, marketLine, c.rmseBase,
                       se.modelSeHome, se.marketSeHome, se.modelSeAway, se.marketSeAway);
    assert one == 1.0;
  }

  /** The product with the RMSE factor dropped. */
  function AsWrittenProduct(c: Config, modelLine: real, marketLine: real): real
    requires ValidConfig(c)
  {
    InitialMrFactor(modelLine, marketLine, c.spreadDeltaBase)
      * LongAdj(modelLine, marketLine, c.llInflator)
      * HookAdj(modelLine, marketLine, c.hookCertainty)
  }

  /** The same regression with the model line passed to the RMSE term, which
      the parameter names of rmse_adj call for. */
  function RegressToMarketIntended(m: Math, c: Config, modelDif: real, marketDif: real,
                                   modelLine: real, marketLine: real, se: SeContext): (r: Regression)
    requires ValidConfig(c)
    ensures r.factorUsed == ClampFactor(c, Product(m, c, modelLine, modelLine, marketLine, se))
    ensures c.minRegression <= 1.0 ==> c.minRegression <= r.factorUsed <= 1.0
    ensures r.regressedDif == Blend(modelDif, marketDif, r.factorUsed)
  {
    var f := ClampFactor(c, Product(m, c, modelLine, modelLine, marketLine, se));
    Regression(Blend(modelDif, marketDif, f), f)
  }

  /** A model that has tracked results worse than the market (larger rolling
      errors) is regressed at least as hard by the intended form, whereas the
      as-written form ignores the errors entirely. */
  lemma IntendedRmseTermReactsToErrors(m: Math, c: Config, modelLine: real, marketLine: real, se: SeContext)
    requires ValidConfig(c) && c.rmseBase > 0.0
    requires Abs(modelLine - marketLine) > 1.0
    requires m.sqrt(se.modelSeHome) + m.sqrt(se.modelSeAway) > m.sqrt(se.marketSeHome) + m.sqrt(se.marketSeAway)
    ensures RmseAdj(m, modelLine, marketLine, c.rmseBase,
                    se.modelSeHome, se.marketSeHome, se.modelSeAway, se.marketSeAway) > 1.0
    ensures RmseAdj(m, marketLine, marketLine, c.rmseBase,
                    se.modelSeHome, se.marketSeHome, se.modelSeAway, se.marketSeAway) == 1.0
  {
  }

  /** Regressing with factor f in [0, 1] lands between model and market; the
      ends give exactly the model and exactly the market. */
  lemma RegressedBetweenModelAndMarket(m: Math, c: Config, modelDif: real, marketDif: real,
                                       modelLine: real, marketLine: real, se: SeContext)
    requires ValidConfig(c) && 0.0 <= c.minRegression <= 1.0
    ensures var r := RegressToMarket(m, c, modelDif, marketDif, modelLine, marketLine, se);
      Min(modelDif, marketDif) <= r.regressedDif <= Max(modelDif, marketDif)
  {
    var r := RegressToMarket(m, c, modelDif, marketDif, modelLine, marketLine, se);
    assert 0.0 <= r.factorUsed <= 1.0;
    assert r.regressedDif == Blend(modelDif, marketDif, r.factorUsed);
  }

  /** With hook_certainty <= 0 and a nonnegative base product, a half-point
      market line never gets a larger factor than a whole-number line with
      everything else equal. */
  lemma HookNeverIncreasesFactor(c: Config, baseProduct: real, wholeLine: real, hookLine: real, modelLine: real)
    requires c.hookCertainty <= 0.0 && baseProduct >= 0.0 && c.marketRegression >= 0.0
    requires IsWhole(wholeLine) && !IsWhole(hookLine)
    ensures ClampFactor(c, baseProduct * HookAdj(modelLine, hookLine, c.hookCertainty))
         <= ClampFactor(c, baseProduct * HookAdj(modelLine, wholeLine, c.hookCertainty))
  {
    var hooked := baseProduct * (1.0 + c.hookCertainty);
    assert c.marketRegression * hooked <= c.marketRegression * baseProduct;
  }
}
