/** The synthetic market-data source: the coin snapshot with its random
    perturbation, the hourly candle generator with its per-coin parameter
    table, Fisher-Yates shuffling and the related-coin augmentation of the
    news feed. Every `Math.random()` draw is a parameter in [0, 1). */
module Market {
  import opened Collections
  import opened Text

  /** One entry of the market snapshot (the image URL is left out). */
  datatype Coin = Coin(id: string, symbol: string, name: string, currentPrice: real,
                       marketCap: real, totalVolume: real, priceChange24h: real)

  /** `cryptoData.find((c) => c.id === id)`. */
  function FindCoin(coins: seq<Coin>, id: string): Option<Coin> {
    Find(coins, HasId(id))
  }

  function HasId(id: string): Coin -> bool {
    (c: Coin) => c.id == id
  }

  lemma FindCoinSpec(coins: seq<Coin>, id: string)
    ensures FindCoin(coins, id).None? <==> forall k :: 0 <= k < |coins| ==> coins[k].id != id
    ensures FindCoin(coins, id).Some? ==> FindCoin(coins, id).value in coins &&
                                          FindCoin(coins, id).value.id == id
  {
    FindSpec(coins, HasId(id));
    assert forall k :: 0 <= k < |coins| ==> (HasId(id)(coins[k]) <==> coins[k].id == id);
  }

  lemma MulMono(a: real, x: real, y: real)
    requires a >= 0.0 && x <= y
    ensures a * x <= a * y
    ensures a > 0.0 && x < y ==> a * x < a * y
  {
  }

  /** A draw in [0, 1) scaled by a positive `k` lies in [0, k). */
  lemma UnitScale(draw: real, k: real)
    requires 0.0 <= draw < 1.0 && k > 0.0
    ensures 0.0 <= draw * k < k
  {
    MulMono(k, 0.0, draw);
    MulMono(k, draw, 1.0);
  }

  /** A `Math.random()` draw. */
  predicate Unit(x: real) {
    0.0 <= x < 1.0
  }

  // ---------------------------------------------------------------------
  // simulateCryptoData: the snapshot with small random movements
  // ---------------------------------------------------------------------

  /** The two draws taken per coin, in call order. */
  datatype PriceDraws = PriceDraws(price: real, change: real)

  function Perturb(c: Coin, d: PriceDraws): Coin {
    c.(currentPrice := c.currentPrice * (1.0 + (d.price * 0.01 - 0.005)),
       priceChange24h := c.priceChange24h + (d.change * 0.5 - 0.25))
  }

  lemma {:induction false} PerturbBounds(c: Coin, d: PriceDraws)
    requires Unit(d.price) && Unit(d.change) && c.currentPrice >= 0.0
    ensures c.currentPrice * 0.995 <= Perturb(c, d).currentPrice <= c.currentPrice * 1.005
    ensures c.currentPrice > 0.0 ==> Perturb(c, d).currentPrice < c.currentPrice * 1.005
    ensures c.priceChange24h - 0.25 <= Perturb(c, d).priceChange24h < c.priceChange24h + 0.25
  {
    var p := c.currentPrice;
    assert Perturb(c, d).currentPrice == p * 0.995 + p * (d.price * 0.01);
    assert p * (d.price * 0.01) >= 0.0;
    assert p * (d.price * 0.01) <= p * 0.01;
    assert p > 0.0 ==> p * (d.price * 0.01) < p * 0.01;
  }

  /** `cryptos.map(...)`: every price scaled by a factor in [0.995, 1.005),
      every 24h change shifted by an amount in [-0.25, 0.25); ids, names,
      symbols, caps, volumes and order are unchanged. */
  function SimulateCryptoData(base: seq<Coin>, draws: seq<PriceDraws>): (r: seq<Coin>)
    requires |draws| == |base|
    ensures |r| == |base|
    ensures forall k :: 0 <= k < |r| ==>
              r[k].id == base[k].id && r[k].symbol == base[k].symbol && r[k].name == base[k].name &&
              r[k].marketCap == base[k].marketCap && r[k].totalVolume == base[k].totalVolume
    ensures forall k :: 0 <= k < |r| && Unit(draws[k].price) && Unit(draws[k].change) &&
                        base[k].currentPrice >= 0.0 ==>
              base[k].currentPrice * 0.995 <= r[k].currentPrice <= base[k].currentPrice * 1.005 &&
              base[k].priceChange24h - 0.25 <= r[k].priceChange24h < base[k].priceChange24h + 0.25
  {
    var r := seq(|base|, k requires 0 <= k < |base| => Perturb(base[k], draws[k]));
    forall k | 0 <= k < |r| && Unit(draws[k].price) && Unit(draws[k].change) && base[k].currentPrice >= 0.0
      ensures base[k].currentPrice * 0.995 <= r[k].currentPrice <= base[k].currentPrice * 1.005
      ensures base[k].priceChange24h - 0.25 <= r[k].priceChange24h < base[k].priceChange24h + 0.25
    {
      PerturbBounds(base[k], draws[k]);
    }
    r
  }

  // ---------------------------------------------------------------------
  // simulateHistoricalData: hourly OHLC candles
  // ---------------------------------------------------------------------

  /** The initial values, which are also the `default:` branch. */
  const DefaultBasePrice: real := 63852.0
  const DefaultVolatility: real := 0.01

  /** The labels of the `switch (coinId)` of the generator. */
  const CasedCoins: set<string> := {
    "ethereum", "solana", "cardano", "binancecoin", "ripple", "polkadot",
    "dogecoin", "shiba-inu", "avalanche", "chainlink", "polygon", "uniswap",
    "litecoin", "tron", "stellar", "bitcoin-cash", "monero", "cosmos",
    "filecoin", "near", "aave", "maker", "algorand", "vechain",
    "apecoin", "the-graph", "decentraland", "the-sandbox", "optimism", "arbitrum"
  }

  /** The `switch (coinId)`: base price and volatility of the coin; every
      other id, including "bitcoin", takes the `default:` branch. */
  function CoinParams(coinId: string): (r: (real, real))
    ensures coinId !in CasedCoins ==> r == (DefaultBasePrice, DefaultVolatility)
    ensures r.0 > 0.0 && 0.0 < r.1 <= 0.04
  {
    match coinId
    case "ethereum" => (3078.0, 0.015)
    case "solana" => (137.0, 0.025)
    case "cardano" => (0.45, 0.02)
    case "binancecoin" => (552.0, 0.012)
    case "ripple" => (0.51, 0.018)
    case "polkadot" => (6.23, 0.022)
    case "dogecoin" => (0.14, 0.035)
    case "shiba-inu" => (0.000023, 0.04)
    case "avalanche" => (33.76, 0.023)
    case "chainlink" => (13.92, 0.019)
    case "polygon" => (0.58, 0.021)
    case "uniswap" => (7.76, 0.017)
    case "litecoin" => (72.9, 0.014)
    case "tron" => (0.11, 0.02)
    case "stellar" => (0.1, 0.016)
    case "bitcoin-cash" => (362.48, 0.018)
    case "monero" => (163.21, 0.02)
    case "cosmos" => (8.42, 0.022)
    case "filecoin" => (4.87, 0.025)
    case "near" => (5.76, 0.023)
    case "aave" => (92.34, 0.02)
    case "maker" => (1876.23, 0.015)
    case "algorand" => (0.17, 0.025)
    case "vechain" => (0.026, 0.03)
    case "apecoin" => (1.42, 0.035)
    case "the-graph" => (0.14, 0.028)
    case "decentraland" => (0.42, 0.03)
    case "the-sandbox" => (0.46, 0.032)
    case "optimism" => (2.34, 0.025)
    case "arbitrum" => (1.12, 0.027)
    case _ => (DefaultBasePrice, DefaultVolatility)
  }

  /** "bitcoin" has no case of its own: it takes the default branch, whose
      values coincide with the initial ones. */
  lemma BitcoinTakesDefault()
    ensures CoinParams("bitcoin") == (63852.0, 0.01)
  {
  }

  const HourMs: int := 3600 * 1000

  /** Candle `[timestamp, open, high, low, close]`. */
  datatype Candle = Candle(timestamp: int, open: real, high: real, low: real, close: real)

  predicate OhlcValid(c: Candle) {
    c.low <= c.open && c.low <= c.close && c.open <= c.high && c.close <= c.high
  }

  /** What one iteration reads from its environment: the local hour and
      weekday of its timestamp, the coin-specific trend term, and the
      `Math.random()` draws in call order. */
  datatype CandleInputs = CandleInputs(hour: int, weekday: int, trend: real, noise: real,
                                       volDraw: real, bullDraw: real, bodyDraw: real,
                                       highDraw: real, lowDraw: real)

  /** Every draw lies in [0, 1) and the trend term lies in the range that
      all of the source's trend formulas stay within for any sine value
      (from -0.2 for the meme-coin oscillation to 0.3 for its pump). */
  predicate InputsInRange(d: CandleInputs) {
    -0.2 <= d.trend <= 0.3 &&
    Unit(d.noise) && Unit(d.volDraw) && Unit(d.bullDraw) && Unit(d.bodyDraw) &&
    Unit(d.highDraw) && Unit(d.lowDraw)
  }

  /** +0.5% during trading hours 9..17, -0.3% on Saturday and Sunday. */
  function SessionModifier(hour: int, weekday: int): (m: real)
    ensures 0.997 <= m <= 1.005
    ensures m > 1.0 <==> 9 <= hour <= 17
  {
    var m := 1.0 + (if 9 <= hour <= 17 then 0.005 else 0.0);
    m - (if weekday == 0 || weekday == 6 then 0.003 else 0.0)
  }

  /** `volatility * (1 + Math.random())`. */
  function CandleVolatility(volatility: real, draw: real): (cv: real)
    ensures volatility >= 0.0 && Unit(draw) ==> volatility <= cv <= 2.0 * volatility
    ensures volatility > 0.0 && Unit(draw) ==> cv < 2.0 * volatility
  {
    if volatility >= 0.0 && Unit(draw) then
      MulMono(volatility, draw, 1.0);
      MulMono(volatility, 0.0, draw);
      volatility * (1.0 + draw)
    else
      volatility * (1.0 + draw)
  }

  /** The candle built from `baseForThisCandle`, the candle volatility and
      the four direction, body and wick draws. */
  function MakeCandle(timestamp: int, base: real, cv: real,
                      bullDraw: real, bodyDraw: real, highDraw: real, lowDraw: real): Candle
  {
    var open := base;
    var close := if bullDraw > 0.5 then base * (1.0 + bodyDraw * cv * 0.8)
                 else base * (1.0 - bodyDraw * cv * 0.8);
    var high := (if open >= close then open else close) + highDraw * cv * base;
    var low := (if open <= close then open else close) - lowDraw * cv * base;
    Candle(timestamp, open, high, low, close)
  }

  lemma {:induction false} MakeCandleShape(timestamp: int, base: real, cv: real,
                                           bullDraw: real, bodyDraw: real, highDraw: real, lowDraw: real)
    requires base >= 0.0 && cv >= 0.0 && Unit(bodyDraw) && Unit(highDraw) && Unit(lowDraw)
    ensures var c := MakeCandle(timestamp, base, cv, bullDraw, bodyDraw, highDraw, lowDraw);
      OhlcValid(c) && c.open == base && c.timestamp == timestamp &&
      (bullDraw > 0.5 ==> c.close >= c.open) && (bullDraw <= 0.5 ==> c.close <= c.open) &&
      c.close - c.open <= 0.8 * cv * base && c.open - c.close <= 0.8 * cv * base
  {
    var body := base * (bodyDraw * cv * 0.8);
    assert bodyDraw * cv >= 0.0;
    assert body >= 0.0;
    assert body <= base * (cv * 0.8) by {
      assert bodyDraw * cv * 0.8 <= cv * 0.8;
    }
    assert base * (1.0 + bodyDraw * cv * 0.8) == base + body;
    assert base * (1.0 - bodyDraw * cv * 0.8) == base - body;
    assert highDraw * cv >= 0.0;
    assert highDraw * cv * base >= 0.0;
    assert lowDraw * cv >= 0.0;
    assert lowDraw * cv * base >= 0.0;
  }

  /** With a positive base and a volatility of at most 0.04 (every entry of
      the table) all four prices of a candle are positive. */
  lemma {:induction false} MakeCandlePositive(timestamp: int, base: real, cv: real,
                                              bullDraw: real, bodyDraw: real, highDraw: real, lowDraw: real)
    requires base > 0.0 && 0.0 <= cv < 0.08 && Unit(bodyDraw) && Unit(highDraw) && Unit(lowDraw)
    ensures var c := MakeCandle(timestamp, base, cv, bullDraw, bodyDraw, highDraw, lowDraw);
      c.low > 0.0 && c.open > 0.0 && c.close > 0.0 && c.high > 0.0
  {
    var c := MakeCandle(timestamp, base, cv, bullDraw, bodyDraw, highDraw, lowDraw);
    var body := bodyDraw * cv * 0.8;
    MulMono(cv, bodyDraw, 1.0);
    assert cv * bodyDraw == bodyDraw * cv;
    assert 0.0 <= body < 0.064;
    var wick := lowDraw * cv;
    MulMono(cv, lowDraw, 1.0);
    assert cv * lowDraw == lowDraw * cv;
    assert 0.0 <= wick < 0.08;
    var floor := base * (1.0 - body);
    MulMono(base, 0.0, 1.0 - body);
    assert c.close >= floor by {
      MulMono(base, 1.0 - body, 1.0 + body);
    }
    assert c.open >= floor by {
      MulMono(base, 1.0 - body, 1.0);
    }
    assert c.low >= floor - wick * base;
    assert floor - wick * base == base * (1.0 - body - wick);
    MulMono(base, 0.0, 1.0 - body - wick);
    assert hi: highDraw * cv * base >= 0.0 by {
      MulMono(cv, 0.0, highDraw);
      MulMono(base, 0.0, highDraw * cv);
      assert base * (highDraw * cv) == highDraw * cv * base;
    }
  }

  /** `basePrice * (1 + trend + random) * modifier`, with
      `random = (Math.random() - 0.5) * 0.03`. */
  function CandleBase(basePrice: real, trend: real, noise: real, modifier: real): real {
    basePrice * (1.0 + trend + (noise - 0.5) * 0.03) * modifier
  }

  lemma {:induction false} CandleBasePositive(basePrice: real, trend: real, noise: real, modifier: real)
    requires basePrice > 0.0 && -0.2 <= trend && Unit(noise) && modifier > 0.0
    ensures CandleBase(basePrice, trend, noise, modifier) > 0.0
  {
    var f := 1.0 + trend + (noise - 0.5) * 0.03;
    assert f > 0.0;
    assert basePrice * f > 0.0;
  }

  /** Iteration `i` of the loop of a series of `days * 24` candles ending
      at `now`, for a coin with the given base price and volatility. */
  function CandleAt(basePrice: real, volatility: real, days: nat, now: int, i: int, d: CandleInputs): Candle {
    var timestamp := now - (days * 24 - i) * HourMs;
    var base := CandleBase(basePrice, d.trend, d.noise, SessionModifier(d.hour, d.weekday));
    var cv := CandleVolatility(volatility, d.volDraw);
    MakeCandle(timestamp, base, cv, d.bullDraw, d.bodyDraw, d.highDraw, d.lowDraw)
  }

  /** Each generated candle satisfies the OHLC invariant, has `open` equal
      to its base, a body of at most `0.8 * cv * base` in the drawn
      direction, and only positive prices. */
  lemma CandleAtShape(basePrice: real, volatility: real, days: nat, now: int, i: int, d: CandleInputs)
    requires basePrice > 0.0 && 0.0 < volatility <= 0.04 && InputsInRange(d)
    ensures var c := CandleAt(basePrice, volatility, days, now, i, d);
      var base := CandleBase(basePrice, d.trend, d.noise, SessionModifier(d.hour, d.weekday));
      var cv := CandleVolatility(volatility, d.volDraw);
      OhlcValid(c) && c.open == base && c.low > 0.0 &&
      volatility <= cv < 2.0 * volatility &&
      (d.bullDraw > 0.5 ==> c.close >= c.open) && (d.bullDraw <= 0.5 ==> c.close <= c.open) &&
      c.close - c.open <= 0.8 * cv * base && c.open - c.close <= 0.8 * cv * base
  {
    var m := SessionModifier(d.hour, d.weekday);
    CandleBasePositive(basePrice, d.trend, d.noise, m);
    var base := CandleBase(basePrice, d.trend, d.noise, m);
    var cv := CandleVolatility(volatility, d.volDraw);
    var ts := now - (days * 24 - i) * HourMs;
    var c := MakeCandle(ts, base, cv, d.bullDraw, d.bodyDraw, d.highDraw, d.lowDraw);
    assert CandleAt(basePrice, volatility, days, now, i, d) == c;
    MakeCandleShape(ts, base, cv, d.bullDraw, d.bodyDraw, d.highDraw, d.lowDraw);
    MakeCandlePositive(ts, base, cv, d.bullDraw, d.bodyDraw, d.highDraw, d.lowDraw);
    assert OhlcValid(c) && c.open == base && c.low > 0.0;
    assert c.close - c.open <= 0.8 * cv * base && c.open - c.close <= 0.8 * cv * base;
  }

  /** `simulateHistoricalData(days, coinId)`: one candle pushed per
      iteration, timestamps an hour apart ending one hour before `now`. */
  method SimulateHistoricalData(days: nat, coinId: string, now: int, inputs: seq<CandleInputs>)
    returns (data: seq<Candle>)
    requires |inputs| == days * 24
    ensures |data| == days * 24
    ensures forall i :: 0 <= i < |data| ==>
              data[i] == CandleAt(CoinParams(coinId).0, CoinParams(coinId).1, days, now, i, inputs[i])
    ensures forall i :: 0 <= i < |data| ==> data[i].timestamp == now - (days * 24 - i) * HourMs
    ensures forall i :: 0 <= i < |data| - 1 ==> data[i + 1].timestamp == data[i].timestamp + HourMs
    ensures |data| > 0 ==> data[|data| - 1].timestamp == now - HourMs
    ensures forall i :: 0 <= i < |data| && InputsInRange(inputs[i]) ==>
              OhlcValid(data[i]) && data[i].low > 0.0
  {
    var params := CoinParams(coinId);
    var basePrice, volatility := params.0, params.1;
    data := [];
    var i := 0;
    while i < days * 24
      invariant 0 <= i <= days * 24
      invariant |data| == i
      invariant forall k :: 0 <= k < i ==> data[k] == CandleAt(basePrice, volatility, days, now, k, inputs[k])
    {
      var d := inputs[i];
      var timestamp := now - (days * 24 - i) * HourMs;
      var modifier := SessionModifier(d.hour, d.weekday);
      var baseForThisCandle := CandleBase(basePrice, d.trend, d.noise, modifier);
      var candleVolatility := CandleVolatility(volatility, d.volDraw);
      var candle := MakeCandle(timestamp, baseForThisCandle, candleVolatility,
                               d.bullDraw, d.bodyDraw, d.highDraw, d.lowDraw);
      data := data + [candle];
      i := i + 1;
    }
    forall i | 0 <= i < |data| && InputsInRange(inputs[i])
      ensures OhlcValid(data[i]) && data[i].low > 0.0
    {
      CandleAtShape(basePrice, volatility, days, now, i, inputs[i]);
    }
  }

  // ---------------------------------------------------------------------
  // shuffleArray: in-place Fisher-Yates
  // ---------------------------------------------------------------------

  /** `Math.floor(Math.random() * (i + 1))`. */
  function PickIndex(draw: real, i: nat): (j: nat)
    requires Unit(draw)
    ensures j <= i
  {
    UnitScale(draw, (i + 1) as real);
    (draw * ((i + 1) as real)).Floor
  }

  function Swap<T>(s: seq<T>, i: nat, j: nat): (r: seq<T>)
    requires i < |s| && j < |s|
    ensures |r| == |s|
  {
    s[i := s[j]][j := s[i]]
  }

  lemma SwapPermutes<T>(s: seq<T>, i: nat, j: nat)
    requires i < |s| && j < |s|
    ensures multiset(Swap(s, i, j)) == multiset(s)
  {
  }

  ghost predicate ShuffleDraws(n: nat, draws: seq<real>) {
    n <= |draws| + 1 && forall k :: 0 <= k < |draws| ==> Unit(draws[k])
  }

  /** The swaps still to be done when the loop counter is `i`: iteration
      `i` uses the draw numbered `|s| - 1 - i` in call order. */
  function ShuffleDown<T>(s: seq<T>, draws: seq<real>, i: int): seq<T>
    requires ShuffleDraws(|s|, draws) && i < |s|
    decreases i
  {
    if i <= 0 then s
    else ShuffleDown(Swap(s, i, PickIndex(draws[|s| - 1 - i], i)), draws, i - 1)
  }

  function Shuffled<T>(s: seq<T>, draws: seq<real>): seq<T>
    requires ShuffleDraws(|s|, draws)
  {
    ShuffleDown(s, draws, |s| - 1)
  }

  /** Shuffling permutes: same length, same multiset of elements. */
  lemma {:induction false} ShuffleDownPermutes<T>(s: seq<T>, draws: seq<real>, i: int)
    requires ShuffleDraws(|s|, draws) && i < |s|
    ensures |ShuffleDown(s, draws, i)| == |s|
    ensures multiset(ShuffleDown(s, draws, i)) == multiset(s)
    decreases i
  {
    if i > 0 {
      var t := Swap(s, i, PickIndex(draws[|s| - 1 - i], i));
      SwapPermutes(s, i, PickIndex(draws[|s| - 1 - i], i));
      ShuffleDownPermutes(t, draws, i - 1);
    }
  }

  /** One iteration of the loop is one unfolding of `ShuffleDown`. */
  lemma ShuffleStep<T>(s: seq<T>, draws: seq<real>, i: int)
    requires ShuffleDraws(|s|, draws) && 0 < i < |s|
    ensures ShuffleDown(s, draws, i) ==
            ShuffleDown(Swap(s, i, PickIndex(draws[|s| - 1 - i], i)), draws, i - 1)
  {
  }

  method ShuffleArray<T>(a: array<T>, draws: seq<real>)
    requires ShuffleDraws(a.Length, draws)
    modifies a
    ensures a[..] == Shuffled(old(a[..]), draws)
    ensures multiset(a[..]) == multiset(old(a[..]))
  {
    ghost var orig := a[..];
    ghost var goal := Shuffled(orig, draws);
    var i := a.Length - 1;
    while i > 0
      invariant -1 <= i < a.Length
      invariant a.Length == 0 ==> i == -1
      invariant ShuffleDown(a[..], draws, i) == goal
      decreases i
    {
      var j := PickIndex(draws[a.Length - 1 - i], i);
      ghost var before := a[..];
      a[i], a[j] := a[j], a[i];
      assert a[..] == Swap(before, i, j);
      ShuffleStep(before, draws, i);
      i := i - 1;
    }
    ShuffledIsPermutation(a[..], orig, draws);
  }

  lemma ShuffledIsPermutation<T>(result: seq<T>, orig: seq<T>, draws: seq<real>)
    requires ShuffleDraws(|orig|, draws) && result == Shuffled(orig, draws)
    ensures multiset(result) == multiset(orig)
  {
    ShuffleDownPermutes(orig, draws, |orig| - 1);
  }

  // ---------------------------------------------------------------------
  // simulateCryptoNews: related-coin augmentation
  // ---------------------------------------------------------------------

  const AllCoins: seq<string> := [
    "bitcoin", "ethereum", "solana", "cardano", "binancecoin", "ripple", "polkadot",
    "dogecoin", "shiba-inu", "avalanche", "chainlink", "polygon", "uniswap", "litecoin",
    "tron", "stellar"
  ]

  /** `if (!related.includes(coin) && Math.random() > threshold) related.push(coin)`.
      A draw is consumed only when the coin is absent (`&&` short-circuits);
      `cursor` is the number of draws consumed so far. */
  function AddIfAbsent(related: seq<string>, coin: string, threshold: real,
                       draws: seq<real>, cursor: nat): (r: (seq<string>, nat))
    requires cursor < |draws|
  {
    if coin in related then (related, cursor)
    else if draws[cursor] > threshold then (related + [coin], cursor + 1)
    else (related, cursor + 1)
  }

  /** The inner `allCoins.forEach`, over the first `|coins|` candidates. */
  function AddEach(related: seq<string>, coins: seq<string>, draws: seq<real>, cursor: nat): (r: (seq<string>, nat))
    requires cursor + |coins| <= |draws|
    ensures cursor <= r.1 <= cursor + |coins|
    ensures |related| <= |r.0| && r.0[..|related|] == related
    ensures forall k :: |related| <= k < |r.0| ==> r.0[k] in coins
    ensures NoDup(related) ==> NoDup(r.0)
    decreases |coins|
  {
    if coins == [] then (related, cursor)
    else
      var prev := AddEach(related, coins[..|coins| - 1], draws, cursor);
      var r := AddIfAbsent(prev.0, coins[|coins| - 1], 0.9, draws, prev.1);
      assert forall k :: |related| <= k < |prev.0| ==> prev.0[k] in coins by {
        forall k | |related| <= k < |prev.0| ensures prev.0[k] in coins {
          assert prev.0[k] in coins[..|coins| - 1];
        }
      }
      assert r.0[..|prev.0|] == prev.0;
      assert r.0[..|related|] == prev.0[..|related|];
      r
  }

  /** One general news item's augmentation: first the selected coin with
      threshold 0.7, then every coin of `AllCoins` with threshold 0.9. */
  function Augment(related: seq<string>, cryptoId: string, draws: seq<real>, cursor: nat): (r: (seq<string>, nat))
    requires cursor + 1 + |AllCoins| <= |draws|
    ensures cursor <= r.1 <= cursor + 1 + |AllCoins|
  {
    var first := AddIfAbsent(related, cryptoId, 0.7, draws, cursor);
    AddEach(first.0, AllCoins, draws, first.1)
  }

  /** `r` is `related` with appended coins only: the original list is a
      prefix, every appended coin is the selected coin or one of `AllCoins`,
      and a list without duplicates stays without duplicates. */
  ghost predicate Extends(related: seq<string>, r: seq<string>, cryptoId: string) {
    |related| <= |r| && r[..|related|] == related &&
    (forall k :: |related| <= k < |r| ==> r[k] == cryptoId || r[k] in AllCoins) &&
    (NoDup(related) ==> NoDup(r))
  }

  /** Augmentation only appends. */
  lemma AugmentSpec(related: seq<string>, cryptoId: string, draws: seq<real>, cursor: nat)
    requires cursor + 1 + |AllCoins| <= |draws|
    ensures Extends(related, Augment(related, cryptoId, draws, cursor).0, cryptoId)
  {
    var first := AddIfAbsent(related, cryptoId, 0.7, draws, cursor);
    var r := AddEach(first.0, AllCoins, draws, first.1).0;
    assert first.0[..|related|] == related;
    assert r[..|related|] == first.0[..|related|];
  }

  /** `generalNews.forEach(...)`: augment every item's `relatedCoins` in
      turn, consuming one shared stream of draws. */
  method AugmentRelatedCoins(lists: seq<seq<string>>, cryptoId: string, draws: seq<real>)
    returns (result: seq<seq<string>>, used: nat)
    requires |lists| * (1 + |AllCoins|) <= |draws|
    ensures |result| == |lists| && used <= |draws|
    ensures forall n :: 0 <= n < |lists| ==> Extends(lists[n], result[n], cryptoId)
  {
    result := [];
    used := 0;
    var n := 0;
    while n < |lists|
      invariant 0 <= n <= |lists|
      invariant |result| == n
      invariant used <= n * (1 + |AllCoins|)
      invariant forall m :: 0 <= m < n ==> Extends(lists[m], result[m], cryptoId)
    {
      DrawsLeft(n, |lists|, 1 + |AllCoins|, used, |draws|);
      var step := Augment(lists[n], cryptoId, draws, used);
      AugmentSpec(lists[n], cryptoId, draws, used);
      result := result + [step.0];
      StepWithin(n, 1 + |AllCoins|, used, step.1);
      used := step.1;
      n := n + 1;
    }
  }

  /** Each item consumes at most `width` draws. */
  lemma StepWithin(n: nat, width: nat, used: nat, used': nat)
    requires used <= n * width && used' <= used + width
    ensures used' <= (n + 1) * width
  {
  }

  /** The draws left for the item at `n`. */
  lemma DrawsLeft(n: nat, items: nat, width: nat, used: nat, available: nat)
    requires n < items && used <= n * width && items * width <= available
    ensures used + width <= available
  {
    assert (n + 1) * width <= items * width;
  }

  /** `capitalizeFirstLetter`: `charAt(0).toUpperCase() + slice(1)`; the
      empty string maps to itself. */
  function CapitalizeFirstLetter(s: string): (r: string)
    ensures |r| == |s|
    ensures |s| > 0 ==> r[0] == UpperChar(s[0]) && r[1..] == s[1..]
    ensures forall k :: 0 < k < |s| ==> r[k] == s[k]
  {
    if s == [] then [] else [UpperChar(s[0])] + s[1..]
  }
}
