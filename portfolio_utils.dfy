/** The metric calculator and the portfolio aggregator (`PortfolioUtils`).
    JavaScript numbers are modelled as reals; the one non-finite value the
    calculator can produce from finite inputs, NaN from 0/0, is explicit. */
module PortfolioUtils {
  import opened Wrappers

  /** A JavaScript number as the calculator produces it: finite, or NaN. */
  datatype JsNumber = Num(x: real) | NaN

  function Abs(x: real): (r: real)
    ensures r >= 0.0 && (r == x || r == -x)
  {
    if x < 0.0 then -x else x
  }

  function Min(a: real, b: real): real { if a <= b then a else b }

  function Max(a: real, b: real): real { if a >= b then a else b }

  /** `Math.round`: the nearest integer, a half rounded towards +infinity. */
  function Round(x: real): (r: int)
    ensures x - 0.5 < r as real <= x + 0.5
  {
    (x + 0.5).Floor
  }

  /** `Math.round` lifted to NaN, which it returns unchanged. */
  function RoundNumber(n: JsNumber): (r: JsNumber)
    ensures r.NaN? <==> n.NaN?
    ensures n.Num? ==> r.x == r.x.Floor as real && n.x - 0.5 < r.x <= n.x + 0.5
  {
    match n
    case NaN => NaN
    case Num(x) => Num(Round(x) as real)
  }

  /** `Math.round(p * 100) / 100`: rounding to two decimals. */
  function RoundCents(n: JsNumber): (r: JsNumber)
    ensures r.NaN? <==> n.NaN?
    ensures n.Num? ==> r.x * 100.0 == (r.x * 100.0).Floor as real
    ensures n.Num? ==> n.x - 0.005 < r.x <= n.x + 0.005
  {
    match n
    case NaN => NaN
    case Num(p) => Num(Round(p * 100.0) as real / 100.0)
  }

  // ---------------------------------------------------------------------
  // calculatePositionMetrics
  // ---------------------------------------------------------------------

  datatype PositionMetrics = PositionMetrics(
    value: real,
    pnl: real,
    pnlPercentage: JsNumber,
    risk: JsNumber,
    diversification: JsNumber)

  /** The unrounded pnl percentage: `pnl / (entryPrice * amount) * 100` when
      the entry price is positive, and 0 otherwise. With a positive entry
      price and a zero amount the division is 0/0, which is NaN. */
  function PnlRatio(entryPrice: real, currentPrice: real, amount: real): (r: JsNumber)
    ensures r.NaN? <==> entryPrice > 0.0 && amount == 0.0
    ensures entryPrice <= 0.0 ==> r == Num(0.0)
  {
    var pnl := (currentPrice - entryPrice) * amount;
    if entryPrice > 0.0 then
      if amount == 0.0 then NaN
      else
        NonZeroProduct(entryPrice, amount);
        Num(pnl / (entryPrice * amount) * 100.0)
    else Num(0.0)
  }

  lemma NonZeroProduct(a: real, b: real)
    requires a != 0.0 && b != 0.0
    ensures a * b != 0.0
  {
  }

  /** The unrounded risk: 80 above 20 percent either way, four times the
      percentage otherwise. `Math.abs(NaN) > 20` is false and `NaN * 4` is NaN. */
  function RawRisk(p: JsNumber): (r: JsNumber)
    ensures r.NaN? <==> p.NaN?
    ensures r.Num? ==> 0.0 <= r.x <= 80.0
  {
    match p
    case NaN => NaN
    case Num(x) => if Abs(x) > 20.0 then Num(80.0) else Num(Abs(x) * 4.0)
  }

  /** The unrounded diversification `min(100, max(0, 100 - risk))`; both
      `Math.max` and `Math.min` return NaN when given NaN. */
  function RawDiversification(risk: JsNumber): (d: JsNumber)
    ensures d.NaN? <==> risk.NaN?
    ensures risk.Num? ==> 0.0 <= d.x <= 100.0
  {
    match risk
    case NaN => NaN
    case Num(r) => Num(Min(100.0, Max(0.0, 100.0 - r)))
  }

  function CalculatePositionMetrics(entryPrice: real, currentPrice: real, amount: real): (m: PositionMetrics)
    ensures m.value == currentPrice * amount
    ensures m.pnl == Round((currentPrice - entryPrice) * amount) as real
    ensures m.pnlPercentage.NaN? <==> entryPrice > 0.0 && amount == 0.0
    ensures m.risk.NaN? <==> entryPrice > 0.0 && amount == 0.0
    ensures m.diversification.NaN? <==> entryPrice > 0.0 && amount == 0.0
    ensures entryPrice <= 0.0 ==>
              m.pnlPercentage == Num(0.0) && m.risk == Num(0.0) && m.diversification == Num(100.0)
  {
    var p := PnlRatio(entryPrice, currentPrice, amount);
    var risk := RawRisk(p);
    PositionMetrics(
      currentPrice * amount,
      Round((currentPrice - entryPrice) * amount) as real,
      RoundCents(p),
      RoundNumber(risk),
      RoundNumber(RawDiversification(risk)))
  }

  /** Whenever defined, the risk lies in [0, 80], the diversification in
      [20, 100], and the two add up to 100 (101 when the unrounded risk ends
      in exactly .5, since both halves then round upwards). */
  lemma MetricBounds(entryPrice: real, currentPrice: real, amount: real)
    ensures var m := CalculatePositionMetrics(entryPrice, currentPrice, amount);
            m.risk.Num? ==>
              0.0 <= m.risk.x <= 80.0 && 20.0 <= m.diversification.x <= 100.0 &&
              100.0 <= m.risk.x + m.diversification.x <= 101.0
  {
    var p := PnlRatio(entryPrice, currentPrice, amount);
    if p.Num? {
      DiversificationComplementsRisk(p);
      var r := RawRisk(p).x;
      var r1, r2 := Round(r), Round(100.0 - r);
      assert 0 <= r1 <= 80;
      assert 20 <= r2 <= 100;
      assert 100 <= r1 + r2 <= 101;
    }
  }

  /** With a non-zero amount the percentage is the price change relative to
      the entry price, so it does not depend on the amount. */
  lemma PnlRatioIndependentOfAmount(entryPrice: real, currentPrice: real, amount: real)
    requires entryPrice > 0.0 && amount != 0.0
    ensures PnlRatio(entryPrice, currentPrice, amount) == Num((currentPrice - entryPrice) / entryPrice * 100.0)
  {
    var d := currentPrice - entryPrice;
    NonZeroProduct(entryPrice, amount);
    assert d * amount / (entryPrice * amount) == d / entryPrice by {
      assert d * amount == (d / entryPrice) * (entryPrice * amount);
    }
  }

  /** The returned percentage is the relative price change, in percent,
      rounded to two decimals. */
  lemma PnlPercentageClosedForm(entryPrice: real, currentPrice: real, amount: real)
    requires entryPrice > 0.0 && amount != 0.0
    ensures CalculatePositionMetrics(entryPrice, currentPrice, amount).pnlPercentage
         == RoundCents(Num((currentPrice - entryPrice) / entryPrice * 100.0))
  {
    PnlRatioIndependentOfAmount(entryPrice, currentPrice, amount);
  }

  lemma PnlPercentageIndependentOfAmount(entryPrice: real, currentPrice: real, a1: real, a2: real)
    requires a1 != 0.0 && a2 != 0.0
    ensures CalculatePositionMetrics(entryPrice, currentPrice, a1).pnlPercentage
         == CalculatePositionMetrics(entryPrice, currentPrice, a2).pnlPercentage
    ensures CalculatePositionMetrics(entryPrice, currentPrice, a1).risk
         == CalculatePositionMetrics(entryPrice, currentPrice, a2).risk
  {
    if entryPrice > 0.0 {
      PnlRatioIndependentOfAmount(entryPrice, currentPrice, a1);
      PnlRatioIndependentOfAmount(entryPrice, currentPrice, a2);
    }
  }

  /** The risk is capped at 80 (and the diversification is then 20) when
      the unrounded percentage exceeds 20 either way; otherwise the risk is
      four times the percentage, rounded, and the diversification is 100
      minus that product, rounded. (A percentage in [19.875, 20] also
      rounds to the cap.) */
  lemma RiskCap(entryPrice: real, currentPrice: real, amount: real)
    requires entryPrice > 0.0 && amount != 0.0
    ensures var p := (currentPrice - entryPrice) / entryPrice * 100.0;
            var m := CalculatePositionMetrics(entryPrice, currentPrice, amount);
            (Abs(p) > 20.0 ==> m.risk == Num(80.0) && m.diversification == Num(20.0)) &&
            (Abs(p) <= 20.0 ==> m.risk == Num(Round(Abs(p) * 4.0) as real) &&
                                m.diversification == Num(Round(100.0 - Abs(p) * 4.0) as real))
  {
    PnlRatioIndependentOfAmount(entryPrice, currentPrice, amount);
  }

  /** Before rounding, diversification is exactly 100 minus risk: the clamp to
      [0, 100] never binds, because the unrounded risk lies in [0, 80]. */
  lemma DiversificationComplementsRisk(p: JsNumber)
    requires p.Num?
    ensures RawRisk(p).Num? && 0.0 <= RawRisk(p).x <= 80.0
    ensures RawDiversification(RawRisk(p)) == Num(100.0 - RawRisk(p).x)
  {
  }

  /** The worked example: entry 100, current 130, amount 10. */
  lemma PositionMetricsExample()
    ensures CalculatePositionMetrics(100.0, 130.0, 10.0)
         == PositionMetrics(1300.0, 300.0, Num(30.0), Num(80.0), Num(20.0))
  {
    PnlRatioIndependentOfAmount(100.0, 130.0, 10.0);
    assert PnlRatio(100.0, 130.0, 10.0) == Num(30.0);
    assert Round(3000.0) == 3000;
    assert Round(300.0) == 300;
    assert Round(80.0) == 80;
    assert Round(20.0) == 20;
  }

  // ---------------------------------------------------------------------
  // calculatePortfolioMetrics
  // ---------------------------------------------------------------------

  /** A position as the aggregator reads it: any field may be missing. */
  datatype Holding = Holding(
    value: Option<JsNumber>,
    pnl: Option<JsNumber>,
    risk: Option<JsNumber>,
    diversification: Option<JsNumber>)

  /** The four fields the aggregator accumulates. */
  datatype Field = Value | Pnl | Risk | Diversification

  /** `position.<field> || 0`: a missing, NaN or zero field counts as 0. */
  function FieldOrZero(h: Holding, f: Field): real
  {
    var v := match f
      case Value => h.value
      case Pnl => h.pnl
      case Risk => h.risk
      case Diversification => h.diversification;
    match v
    case Some(Num(x)) => x
    case _ => 0.0
  }

  /** The sum of one field over a list of positions, in list order. */
  function Sum(hs: seq<Holding>, f: Field): real
    decreases |hs|
  {
    if hs == [] then 0.0 else Sum(hs[..|hs| - 1], f) + FieldOrZero(hs[|hs| - 1], f)
  }

  /** `Math.round(total / n) || 0`: for n = 0 the quotient is NaN, which the
      `|| 0` turns into 0. */
  function MeanOrZero(total: real, n: nat): (r: int)
    ensures n == 0 ==> r == 0
    ensures n > 0 ==> total / n as real - 0.5 < r as real <= total / n as real + 0.5
  {
    if n == 0 then 0 else Round(total / n as real)
  }

  datatype PortfolioSummary = PortfolioSummary(
    totalValue: int,
    totalPnl: int,
    riskExposure: int,
    diversificationScore: int)

  /** What `calculatePortfolioMetrics` returns: rounded totals of value and
      pnl, and rounded means of risk and diversification. */
  function PortfolioMetrics(hs: seq<Holding>): (s: PortfolioSummary)
    ensures Sum(hs, Value) - 0.5 < s.totalValue as real <= Sum(hs, Value) + 0.5
    ensures Sum(hs, Pnl) - 0.5 < s.totalPnl as real <= Sum(hs, Pnl) + 0.5
    ensures hs == [] ==> s.riskExposure == 0 && s.diversificationScore == 0
    ensures hs != [] ==>
              var n := |hs| as real;
              Sum(hs, Risk) / n - 0.5 < s.riskExposure as real <= Sum(hs, Risk) / n + 0.5 &&
              Sum(hs, Diversification) / n - 0.5 < s.diversificationScore as real
                <= Sum(hs, Diversification) / n + 0.5
  {
    PortfolioSummary(
      Round(Sum(hs, Value)),
      Round(Sum(hs, Pnl)),
      MeanOrZero(Sum(hs, Risk), |hs|),
      MeanOrZero(Sum(hs, Diversification), |hs|))
  }

  /** The accumulating loop of `calculatePortfolioMetrics`. */
  method CalculatePortfolioMetrics(positions: seq<Holding>) returns (s: PortfolioSummary)
    ensures s == PortfolioMetrics(positions)
  {
    var totalValue, totalPnl, riskExposure, diversificationScore := 0.0, 0.0, 0.0, 0.0;
    var i := 0;
    while i < |positions|
      invariant 0 <= i <= |positions|
      invariant totalValue == Sum(positions[..i], Value)
      invariant totalPnl == Sum(positions[..i], Pnl)
      invariant riskExposure == Sum(positions[..i], Risk)
      invariant diversificationScore == Sum(positions[..i], Diversification)
    {
      var position := positions[i];
      assert positions[..i + 1][..i] == positions[..i];
      totalValue := totalValue + FieldOrZero(position, Value);
      totalPnl := totalPnl + FieldOrZero(position, Pnl);
      riskExposure := riskExposure + FieldOrZero(position, Risk);
      diversificationScore := diversificationScore + FieldOrZero(position, Diversification);
      i := i + 1;
    }
    assert positions[..i] == positions;
    s := PortfolioSummary(
      Round(totalValue),
      Round(totalPnl),
      MeanOrZero(riskExposure, |positions|),
      MeanOrZero(diversificationScore, |positions|));
  }

  /** The empty portfolio has every field exactly 0. */
  lemma EmptyPortfolio()
    ensures PortfolioMetrics([]) == PortfolioSummary(0, 0, 0, 0)
  {
  }

  /** A sum of fields that each lie in [lo, hi] lies in [n * lo, n * hi]. */
  lemma {:induction false} SumBounds(hs: seq<Holding>, f: Field, lo: real, hi: real)
    requires forall i :: 0 <= i < |hs| ==> lo <= FieldOrZero(hs[i], f) <= hi
    ensures |hs| as real * lo <= Sum(hs, f) <= |hs| as real * hi
  {
    if hs != [] {
      var n := |hs|;
      SumBounds(hs[..n - 1], f, lo, hi);
      assert n as real * lo == (n - 1) as real * lo + lo;
      assert n as real * hi == (n - 1) as real * hi + hi;
    }
  }

  /** A rounded mean of n values in [lo, hi] lies in [lo, hi]. */
  lemma MeanBounds(total: real, n: nat, lo: int, hi: int)
    requires n > 0
    requires n as real * lo as real <= total <= n as real * hi as real
    ensures lo <= MeanOrZero(total, n) <= hi
  {
    var m := total / n as real;
    assert (m - lo as real) * n as real == total - lo as real * n as real;
    assert (hi as real - m) * n as real == hi as real * n as real - total;
    NonNegativeFactor(m - lo as real, n as real);
    NonNegativeFactor(hi as real - m, n as real);
  }

  lemma NonNegativeFactor(x: real, n: real)
    requires n > 0.0 && x * n >= 0.0
    ensures x >= 0.0
  {
  }

  /** When every position's risk lies in [0, 80] and its diversification in
      [0, 100] (missing or NaN fields counting as 0), so do the portfolio's. */
  lemma PortfolioScoresBounded(hs: seq<Holding>)
    requires forall i :: 0 <= i < |hs| ==> 0.0 <= FieldOrZero(hs[i], Risk) <= 80.0
    requires forall i :: 0 <= i < |hs| ==> 0.0 <= FieldOrZero(hs[i], Diversification) <= 100.0
    ensures 0 <= PortfolioMetrics(hs).riskExposure <= 80
    ensures 0 <= PortfolioMetrics(hs).diversificationScore <= 100
  {
    if hs != [] {
      SumBounds(hs, Risk, 0.0, 80.0);
      SumBounds(hs, Diversification, 0.0, 100.0);
      MeanBounds(Sum(hs, Risk), |hs|, 0, 80);
      MeanBounds(Sum(hs, Diversification), |hs|, 0, 100);
    }
  }

  /** Positions with values 100, 200, 300 and risks 10, 20, 30 (other fields
      missing) total 600 in value and average 20 in risk. */
  lemma PortfolioMetricsExample()
    ensures PortfolioMetrics([
              Holding(Some(Num(100.0)), None, Some(Num(10.0)), None),
              Holding(Some(Num(200.0)), None, Some(Num(20.0)), None),
              Holding(Some(Num(300.0)), None, Some(Num(30.0)), None)])
         == PortfolioSummary(600, 0, 20, 0)
  {
    var hs := [
      Holding(Some(Num(100.0)), None, Some(Num(10.0)), None),
      Holding(Some(Num(200.0)), None, Some(Num(20.0)), None),
      Holding(Some(Num(300.0)), None, Some(Num(30.0)), None)];
    assert hs[..2] == [hs[0], hs[1]];
    assert hs[..2][..1] == [hs[0]];
    assert [hs[0]][..0] == [];
    forall f: Field
      ensures Sum(hs, f) == FieldOrZero(hs[0], f) + FieldOrZero(hs[1], f) + FieldOrZero(hs[2], f)
    {
      assert Sum([hs[0]], f) == FieldOrZero(hs[0], f);
      assert Sum(hs[..2], f) == FieldOrZero(hs[0], f) + FieldOrZero(hs[1], f);
    }
    assert Round(600.0) == 600;
    assert Round(0.0) == 0;
    assert Round(60.0 / 3.0) == 20;
  }
}
