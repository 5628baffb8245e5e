/** The trading-signal card: four simulated technical indicators, biased by
    the 24-hour price change, each vote buy, sell or hold; the overall
    signal is the majority of at least two votes. */
module TradingSignals {
  import opened Collections
  import opened Market

  datatype Signal = Buy | Sell | Hold

  /** What an indicator shows as its value. */
  datatype Reading = Bullish | Bearish | Level(rsi: real) | High | Low

  datatype Indicator = Indicator(name: string, value: Reading, signal: Signal)

  /** The `Math.random()` draws in call order: MACD, RSI, moving averages,
      the volume indicator's value, its signal and its description, and
      finally the hold confidence (drawn only for a hold). */
  datatype SignalDraws = SignalDraws(macd: real, rsi: real, movingAverages: real,
                                     volumeValue: real, volumeSignal: real,
                                     volumeDescription: real, holdConfidence: real)

  predicate DrawsInRange(d: SignalDraws) {
    Unit(d.macd) && Unit(d.rsi) && Unit(d.movingAverages) && Unit(d.volumeValue) &&
    Unit(d.volumeSignal) && Unit(d.volumeDescription) && Unit(d.holdConfidence)
  }

  /** The MACD leans bullish (70%) after a rise and bearish (70%) otherwise. */
  function MacdBullish(priceChange: real, draw: real): bool {
    if priceChange > 0.0 then draw > 0.3 else draw > 0.7
  }

  /** The simulated RSI: [30, 70) after a rise, [40, 80) otherwise. */
  function RsiValue(priceChange: real, draw: real): (r: real)
    ensures Unit(draw) && priceChange > 0.0 ==> 30.0 <= r < 70.0
    ensures Unit(draw) && priceChange <= 0.0 ==> 40.0 <= r < 80.0
  {
    if priceChange > 0.0 then 30.0 + draw * 40.0 else 40.0 + draw * 40.0
  }

  /** Oversold below 30 is a buy, overbought above 70 a sell. */
  function RsiSignal(rsi: real): Signal {
    if rsi < 30.0 then Buy else if rsi > 70.0 then Sell else Hold
  }

  /** The moving averages lean bullish (60%) after a rise, bearish otherwise. */
  function MovingAveragesBullish(priceChange: real, draw: real): bool {
    if priceChange > 0.0 then draw > 0.4 else draw > 0.6
  }

  function Vote(bullish: bool): Signal {
    if bullish then Buy else Sell
  }

  function Indicators(priceChange: real, d: SignalDraws): (r: seq<Indicator>)
    ensures |r| == 4
  {
    var macd := MacdBullish(priceChange, d.macd);
    var rsi := RsiValue(priceChange, d.rsi);
    var ma := MovingAveragesBullish(priceChange, d.movingAverages);
    [ Indicator("MACD", if macd then Bullish else Bearish, Vote(macd)),
      Indicator("RSI", Level(rsi), RsiSignal(rsi)),
      Indicator("Moving Averages", if ma then Bullish else Bearish, Vote(ma)),
      Indicator("Volume Analysis", if d.volumeValue > 0.5 then High else Low,
                if d.volumeSignal > 0.5 then Buy else Hold) ]
  }

  function Votes(s: Signal): Indicator -> bool {
    (i: Indicator) => i.signal == s
  }

  /** `filter(i => i.signal === s).length`. */
  function Count(indicators: seq<Indicator>, s: Signal): nat {
    |Filter(indicators, Votes(s))|
  }

  /** The RSI indicator can never vote buy: its simulated value never falls
      below 30. */
  lemma RsiNeverBuys(priceChange: real, d: SignalDraws)
    requires Unit(d.rsi)
    ensures Indicators(priceChange, d)[1].signal != Buy
    ensures priceChange > 0.0 ==> Indicators(priceChange, d)[1].signal == Hold
  {
  }

  lemma {:induction false} CountBounds(indicators: seq<Indicator>)
    ensures Count(indicators, Buy) + Count(indicators, Sell) + Count(indicators, Hold) == |indicators|
    decreases |indicators|
  {
    if indicators != [] {
      CountBounds(indicators[1..]);
    }
  }

  /** Each vote is one of the four indicators; only MACD, the moving
      averages and the volume indicator can buy and only MACD, the RSI and
      the moving averages can sell. */
  lemma {:induction false} VoteCounts(priceChange: real, d: SignalDraws)
    requires Unit(d.rsi)
    ensures var inds := Indicators(priceChange, d);
            Count(inds, Buy) + Count(inds, Sell) <= 4 &&
            Count(inds, Buy) <= 3 && Count(inds, Sell) <= 3
  {
    var inds := Indicators(priceChange, d);
    CountBounds(inds);
    CountBounds(inds[1..]);
    CountBounds(inds[2..]);
    CountBounds(inds[3..]);
    assert inds[3..][1..] == [];
    assert inds[1].signal != Buy;
    assert inds[3].signal != Sell;
  }

  /** The overall signal and its confidence in percent. */
  datatype Outcome = Outcome(indicators: seq<Indicator>, signal: Signal, confidence: real)

  function Overall(indicators: seq<Indicator>, holdDraw: real): (r: (Signal, real))
    requires |indicators| > 0
  {
    var buy := Count(indicators, Buy);
    var sell := Count(indicators, Sell);
    if buy > sell && buy >= 2 then (Buy, (buy as real) / (|indicators| as real) * 100.0)
    else if sell > buy && sell >= 2 then (Sell, (sell as real) / (|indicators| as real) * 100.0)
    else (Hold, 50.0 + holdDraw * 20.0)
  }

  function GenerateSignals(priceChange: real, d: SignalDraws): Outcome {
    var inds := Indicators(priceChange, d);
    var overall := Overall(inds, d.holdConfidence);
    Outcome(inds, overall.0, overall.1)
  }

  /** The overall signal is buy exactly when buy votes outnumber sell votes
      and there are at least two of them, sell symmetrically, and hold
      otherwise; a buy or sell carries the share of agreeing indicators as
      confidence, which (with four indicators and at most three agreeing)
      is 50 or 75, a hold 50 up to 70. */
  lemma {:induction false} SignalSpec(priceChange: real, d: SignalDraws)
    requires DrawsInRange(d)
    ensures var o := GenerateSignals(priceChange, d);
            var buy, sell := Count(o.indicators, Buy), Count(o.indicators, Sell);
            (o.signal == Buy <==> buy > sell && buy >= 2) &&
            (o.signal == Sell <==> sell > buy && sell >= 2) &&
            (o.signal == Buy ==> o.confidence == (buy as real) * 25.0) &&
            (o.signal == Sell ==> o.confidence == (sell as real) * 25.0) &&
            (o.signal != Hold ==> o.confidence == 50.0 || o.confidence == 75.0) &&
            (o.signal == Hold ==> 50.0 <= o.confidence < 70.0)
  {
    var inds := Indicators(priceChange, d);
    VoteCounts(priceChange, d);
    var buy, sell := Count(inds, Buy), Count(inds, Sell);
    assert buy >= 2 && buy > sell ==> buy == 2 || buy == 3;
    assert sell >= 2 && sell > buy ==> sell == 2 || sell == 3;
  }

  /** A price rise can still end in a sell: MACD and the moving averages
      both bearish outvote a volume hold. */
  lemma RiseCanSell()
    ensures GenerateSignals(1.0, SignalDraws(0.0, 0.5, 0.0, 0.0, 0.0, 0.0, 0.0)).signal == Sell
  {
    var o := GenerateSignals(1.0, SignalDraws(0.0, 0.5, 0.0, 0.0, 0.0, 0.0, 0.0));
    var inds := o.indicators;
    assert inds[0].signal == Sell && inds[1].signal == Hold;
    assert inds[2].signal == Sell && inds[3].signal == Hold;
    assert Filter(inds, Votes(Sell)) == [inds[0], inds[2]];
    assert Filter(inds, Votes(Buy)) == [];
  }
}
