/** `PortfolioManager`: position records built and updated from the metric
    calculator, and the portfolio summary of a list of them. The clock is a
    parameter (`now`), and the unused contract argument of the source's
    `createPosition` is dropped. */
module PortfolioManager {
  import opened Wrappers
  import opened PortfolioUtils

  /** A position record: the inputs, the derived metrics, and the creation
      and last-update timestamps. */
  datatype Position = Position(
    amount: real,
    shares: real,
    entryPrice: real,
    currentPrice: real,
    value: real,
    pnl: real,
    pnlPercentage: JsNumber,
    risk: JsNumber,
    diversification: JsNumber,
    timestamp: int,
    lastUpdate: Option<int>)

  /** The record-shape invariant: the five metrics are those the calculator
      derives from the record's own entry price, current price and amount. */
  predicate Derived(p: Position)
  {
    var m := CalculatePositionMetrics(p.entryPrice, p.currentPrice, p.amount);
    p.value == m.value && p.pnl == m.pnl && p.pnlPercentage == m.pnlPercentage &&
    p.risk == m.risk && p.diversification == m.diversification
  }

  /** `createPosition`: a position priced at its entry price, so with no
      profit or loss; its percentage, risk and diversification are 0, 0 and
      100 unless the division of the calculator is 0/0 (a positive entry
      price and a zero amount), where all three are NaN. */
  function CreatePosition(amount: real, shares: real, entryPrice: real, now: int): (p: Position)
    ensures Derived(p)
    ensures p.amount == amount && p.shares == shares && p.entryPrice == entryPrice
    ensures p.currentPrice == entryPrice && p.timestamp == now && p.lastUpdate == None
    ensures p.value == entryPrice * amount && p.pnl == 0.0
    ensures amount != 0.0 || entryPrice <= 0.0 ==>
              p.pnlPercentage == Num(0.0) && p.risk == Num(0.0) && p.diversification == Num(100.0)
    ensures amount == 0.0 && entryPrice > 0.0 ==>
              p.pnlPercentage.NaN? && p.risk.NaN? && p.diversification.NaN?
  {
    var metrics := CalculatePositionMetrics(entryPrice, entryPrice, amount);
    UnmovedPriceMetrics(entryPrice, amount);
    Position(amount, shares, entryPrice, entryPrice,
             metrics.value, metrics.pnl, metrics.pnlPercentage, metrics.risk, metrics.diversification,
             now, None)
  }

  /** At an unchanged price there is no profit or loss, so no risk. */
  lemma UnmovedPriceMetrics(entryPrice: real, amount: real)
    ensures amount != 0.0 || entryPrice <= 0.0 ==>
              CalculatePositionMetrics(entryPrice, entryPrice, amount)
              == PositionMetrics(entryPrice * amount, 0.0, Num(0.0), Num(0.0), Num(100.0))
  {
    if amount != 0.0 && entryPrice > 0.0 {
      PnlRatioIndependentOfAmount(entryPrice, entryPrice, amount);
      assert Round(0.0) == 0 && Round(100.0) == 100;
    }
  }

  /** `updatePosition`: the amount, shares, current price, metrics and
      last-update time are replaced; the entry price, the creation time and
      every other field are kept. The result is derived whatever the input. */
  function UpdatePosition(position: Position, newAmount: real, newShares: real,
                          newCurrentPrice: real, now: int): (q: Position)
    ensures Derived(q)
    ensures q.entryPrice == position.entryPrice && q.timestamp == position.timestamp
    ensures q.amount == newAmount && q.shares == newShares && q.currentPrice == newCurrentPrice
    ensures q.lastUpdate == Some(now)
  {
    var metrics := CalculatePositionMetrics(position.entryPrice, newCurrentPrice, newAmount);
    position.(
      amount := newAmount,
      shares := newShares,
      currentPrice := newCurrentPrice,
      value := metrics.value,
      pnl := metrics.pnl,
      pnlPercentage := metrics.pnlPercentage,
      risk := metrics.risk,
      diversification := metrics.diversification,
      lastUpdate := Some(now))
  }

  /** A later update overrides an earlier one entirely. */
  lemma UpdateOverridesUpdate(p: Position, a1: real, s1: real, c1: real, t1: int,
                              a2: real, s2: real, c2: real, t2: int)
    ensures UpdatePosition(UpdatePosition(p, a1, s1, c1, t1), a2, s2, c2, t2) == UpdatePosition(p, a2, s2, c2, t2)
  {
  }

  /** Updating a derived position to its own amount, shares and current
      price changes only its last-update time. */
  lemma UpdateWithSameInputs(p: Position, now: int)
    requires Derived(p)
    ensures UpdatePosition(p, p.amount, p.shares, p.currentPrice, now) == p.(lastUpdate := Some(now))
  {
  }

  /** The aggregator's view of a position: every field is present. */
  function ToHolding(p: Position): Holding
  {
    Holding(Some(Num(p.value)), Some(Num(p.pnl)), Some(p.risk), Some(p.diversification))
  }

  function Holdings(positions: seq<Position>): (hs: seq<Holding>)
    ensures |hs| == |positions|
    ensures forall i :: 0 <= i < |positions| ==> hs[i] == ToHolding(positions[i])
  {
    seq(|positions|, i requires 0 <= i < |positions| => ToHolding(positions[i]))
  }

  /** The risk and diversification of a derived position, as the aggregator
      counts them (NaN as 0), lie in [0, 80] and [0, 100]. */
  lemma DerivedScoresBounded(p: Position)
    requires Derived(p)
    ensures 0.0 <= FieldOrZero(ToHolding(p), Risk) <= 80.0
    ensures 0.0 <= FieldOrZero(ToHolding(p), Diversification) <= 100.0
  {
    MetricBounds(p.entryPrice, p.currentPrice, p.amount);
  }

  /** `calculatePortfolioSummary`: the aggregator applied to the records.
      For derived records the mean risk lies in [0, 80] and the mean
      diversification in [0, 100]. */
  method CalculatePortfolioSummary(positions: seq<Position>) returns (s: PortfolioSummary)
    ensures s == PortfolioMetrics(Holdings(positions))
    ensures (forall i :: 0 <= i < |positions| ==> Derived(positions[i])) ==>
              0 <= s.riskExposure <= 80 && 0 <= s.diversificationScore <= 100
  {
    s := CalculatePortfolioMetrics(Holdings(positions));
    if forall i :: 0 <= i < |positions| ==> Derived(positions[i]) {
      SummaryBounded(positions);
    }
  }

  lemma SummaryBounded(positions: seq<Position>)
    requires forall i :: 0 <= i < |positions| ==> Derived(positions[i])
    ensures 0 <= PortfolioMetrics(Holdings(positions)).riskExposure <= 80
    ensures 0 <= PortfolioMetrics(Holdings(positions)).diversificationScore <= 100
  {
    var hs := Holdings(positions);
    forall i | 0 <= i < |hs|
      ensures 0.0 <= FieldOrZero(hs[i], Risk) <= 80.0
      ensures 0.0 <= FieldOrZero(hs[i], Diversification) <= 100.0
    {
      DerivedScoresBounded(positions[i]);
    }
    PortfolioScoresBounded(hs);
  }
}
