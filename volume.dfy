/** The volume panel: a simulated volume series built from the price candles,
    its average, the first-half/second-half trend, the anomalies above 1.8
    times the average, the price/volume change correlation and the B/M/K
    volume formatting. Results JavaScript would make non-finite (a division
    by zero) are `None`. */
module VolumeAnalysis {
  import opened Collections
  import opened Market

  // ---------------------------------------------------------------------
  // The simulated series
  // ---------------------------------------------------------------------

  /** One point of the series; the chart's `date` is the timestamp again. */
  datatype VolumePoint = VolumePoint(timestamp: int, price: real, volume: real, isSpike: bool)

  /** The `Math.random()` draws for one point, in call order: the volume
      jitter, the spike roll and the spike size (used only for a spike). */
  datatype VolumeDraws = VolumeDraws(jitter: real, spikeRoll: real, spikeSize: real)

  predicate DrawsInRange(d: VolumeDraws) {
    Unit(d.jitter) && Unit(d.spikeRoll) && Unit(d.spikeSize)
  }

  function Abs(x: real): real {
    if x < 0.0 then -x else x
  }

  /** Daily volume spread over the hours: `total_volume / 24`. */
  function BaseVolume(totalVolume: real): real {
    totalVolume / 24.0
  }

  /** Every close but the last is divided by when the next point's price
      volatility is computed. */
  predicate PreviousClosesNonZero(candles: seq<Candle>) {
    forall k :: 0 <= k < |candles| - 1 ==> candles[k].close != 0.0
  }

  /** Relative move of the close against the previous candle's close
      (zero for the first candle). */
  function PriceVolatility(candles: seq<Candle>, k: nat): real
    requires k < |candles| && PreviousClosesNonZero(candles)
  {
    if k == 0 then 0.0
    else Abs(candles[k].close - candles[k - 1].close) / candles[k - 1].close
  }

  /** Busier hours follow bigger price moves, plus up to 50% jitter. */
  function VolumeMultiplier(volatility: real, d: VolumeDraws): real {
    1.0 + volatility * 10.0 + d.jitter * 0.5
  }

  /** A spike (a roll above 0.95) multiplies the volume by 2 to 5. */
  function SpikeMultiplier(d: VolumeDraws): real {
    if d.spikeRoll > 0.95 then 2.0 + d.spikeSize * 3.0 else 1.0
  }

  function PointVolume(base: real, multiplier: real, spike: real): real {
    base * multiplier * spike
  }

  function PointAt(candles: seq<Candle>, totalVolume: real, d: VolumeDraws, k: nat): VolumePoint
    requires k < |candles| && PreviousClosesNonZero(candles)
  {
    VolumePoint(candles[k].timestamp, candles[k].close,
                PointVolume(BaseVolume(totalVolume), VolumeMultiplier(PriceVolatility(candles, k), d),
                            SpikeMultiplier(d)),
                d.spikeRoll > 0.95)
  }

  /** `historicalData.map(...)`: one volume point per candle. */
  function Series(candles: seq<Candle>, totalVolume: real, draws: seq<VolumeDraws>): (r: seq<VolumePoint>)
    requires |draws| == |candles| && PreviousClosesNonZero(candles)
    ensures |r| == |candles|
    ensures forall k :: 0 <= k < |r| ==>
              r[k].timestamp == candles[k].timestamp && r[k].price == candles[k].close
  {
    seq(|candles|, k requires 0 <= k < |candles| => PointAt(candles, totalVolume, draws[k], k))
  }

  /** With a non-negative daily volume, positive closes and draws in [0, 1),
      every point carries at least the hourly base volume, and a spike at
      least twice it. */
  lemma {:induction false} SeriesVolumeBounds(candles: seq<Candle>, totalVolume: real,
                                              draws: seq<VolumeDraws>, k: nat)
    requires |draws| == |candles| && k < |candles|
    requires forall j :: 0 <= j < |candles| ==> candles[j].close > 0.0
    requires totalVolume >= 0.0 && forall j :: 0 <= j < |draws| ==> DrawsInRange(draws[j])
    ensures Series(candles, totalVolume, draws)[k].volume >= BaseVolume(totalVolume)
    ensures Series(candles, totalVolume, draws)[k].isSpike ==>
              Series(candles, totalVolume, draws)[k].volume >= 2.0 * BaseVolume(totalVolume)
  {
    var d := draws[k];
    var volatility := PriceVolatility(candles, k);
    assert volatility >= 0.0 by {
      if k > 0 {
        assert candles[k - 1].close > 0.0;
        assert Abs(candles[k].close - candles[k - 1].close) >= 0.0;
      }
    }
    assert Series(candles, totalVolume, draws)[k] == PointAt(candles, totalVolume, d, k);
    ScaledVolume(BaseVolume(totalVolume), VolumeMultiplier(volatility, d), SpikeMultiplier(d));
  }

  lemma ScaledVolume(base: real, multiplier: real, spike: real)
    requires base >= 0.0 && multiplier >= 1.0 && spike >= 1.0
    ensures PointVolume(base, multiplier, spike) >= base
    ensures spike >= 2.0 ==> PointVolume(base, multiplier, spike) >= 2.0 * base
  {
    MulMono(base, 1.0, multiplier);
    var scaled := base * multiplier;
    assert scaled >= base;
    MulMono(scaled, 1.0, spike);
    assert PointVolume(base, multiplier, spike) == scaled * spike;
    if spike >= 2.0 {
      MulMono(scaled, 2.0, spike);
      assert scaled * 2.0 >= base * 2.0;
    }
  }

  // ---------------------------------------------------------------------
  // Total, average and the half-over-half trend
  // ---------------------------------------------------------------------

  function Vol(p: VolumePoint): real {
    p.volume
  }

  function TotalVolume(points: seq<VolumePoint>): real {
    SumOf(points, Vol)
  }

  /** `totalVolume / length`; the component only computes it for a
      non-empty series. */
  function AverageVolume(points: seq<VolumePoint>): real
    requires |points| > 0
  {
    TotalVolume(points) / (|points| as real)
  }

  /** `Math.floor(length / 2)`. */
  function HalfIndex(points: seq<VolumePoint>): (h: nat)
    ensures h <= |points| && |points| - h - 1 <= h <= |points| - h
  {
    |points| / 2
  }

  function FirstHalfVolume(points: seq<VolumePoint>): real {
    TotalVolume(points[..HalfIndex(points)])
  }

  function SecondHalfVolume(points: seq<VolumePoint>): real {
    TotalVolume(points[HalfIndex(points)..])
  }

  /** The two halves partition the series, so their volumes add up to the total. */
  lemma {:induction false} HalvesSumToTotal(points: seq<VolumePoint>)
    ensures FirstHalfVolume(points) + SecondHalfVolume(points) == TotalVolume(points)
  {
    var h := HalfIndex(points);
    assert points[..h] + points[h..] == points;
    SumConcat(points[..h], points[h..], Vol);
  }

  /** Percentage change from the first half to the second; `None` when the
      first half's volume is zero (JavaScript divides by zero there). */
  function VolumeChange(points: seq<VolumePoint>): (r: Option<real>)
    ensures r.None? <==> FirstHalfVolume(points) == 0.0
  {
    var first := FirstHalfVolume(points);
    if first == 0.0 then None
    else Some((SecondHalfVolume(points) - first) / first * 100.0)
  }

  /** With a positive first half, the trend arrow points up exactly when the
      second half traded at least as much as the first. */
  lemma {:induction false} VolumeChangeSign(points: seq<VolumePoint>)
    requires FirstHalfVolume(points) > 0.0
    ensures VolumeChange(points).Some?
    ensures VolumeChange(points).value >= 0.0 <==> SecondHalfVolume(points) >= FirstHalfVolume(points)
    ensures VolumeChange(points).value > 0.0 <==> SecondHalfVolume(points) > FirstHalfVolume(points)
  {
    var first := FirstHalfVolume(points);
    var diff := SecondHalfVolume(points) - first;
    var q := diff / first;
    assert q * first == diff;
    if diff >= 0.0 {
      assert q >= 0.0 by {
        if q < 0.0 {
          MulMono(first, q, 0.0);
        }
      }
    }
    if diff > 0.0 {
      assert q > 0.0 by {
        if q <= 0.0 {
          MulMono(first, q, 0.0);
        }
      }
    }
    if diff < 0.0 {
      assert q < 0.0 by {
        if q >= 0.0 {
          MulMono(first, 0.0, q);
        }
      }
    }
  }

  /** Each volume at least the base makes the average at least the base. */
  lemma {:induction false} AverageAtLeastBase(points: seq<VolumePoint>, base: real)
    requires |points| > 0
    requires forall k :: 0 <= k < |points| ==> points[k].volume >= base
    ensures AverageVolume(points) >= base
  {
    var n := |points| as real;
    SumAtLeast(points, base);
    var avg := TotalVolume(points) / n;
    assert avg * n == TotalVolume(points);
    if avg < base {
      MulMono(n, avg, base);
    }
  }

  lemma {:induction false} SumAtLeast(points: seq<VolumePoint>, base: real)
    requires forall k :: 0 <= k < |points| ==> points[k].volume >= base
    ensures TotalVolume(points) >= (|points| as real) * base
    decreases |points|
  {
    if points != [] {
      var init := points[..|points| - 1];
      assert forall k :: 0 <= k < |init| ==> init[k] == points[k];
      SumAtLeast(init, base);
    }
  }

  // ---------------------------------------------------------------------
  // Anomalies
  // ---------------------------------------------------------------------

  /** An anomaly as listed; `percentAboveAverage` is `None` for a zero
      average (a division by zero in JavaScript). */
  datatype Anomaly = Anomaly(timestamp: int, volume: real, percentAboveAverage: Option<real>)

  /** The anomaly filter: strictly above 1.8 times the average. */
  function Above(average: real): VolumePoint -> bool {
    (p: VolumePoint) => p.volume > average * 1.8
  }

  function AnomalyOf(p: VolumePoint, average: real): Anomaly {
    Anomaly(p.timestamp, p.volume,
            if average == 0.0 then None else Some((p.volume - average) / average * 100.0))
  }

  /** `filter(volume > threshold).map(...)`. */
  function Anomalies(points: seq<VolumePoint>, average: real): (r: seq<Anomaly>)
    ensures |r| == |Filter(points, Above(average))|
  {
    var kept := Filter(points, Above(average));
    seq(|kept|, k requires 0 <= k < |kept| => AnomalyOf(kept[k], average))
  }

  /** The anomalies are exactly the points above the threshold: each comes
      from such a point, each such point yields one, and with a positive
      average each lies more than 80% above it. */
  lemma {:induction false} AnomaliesSpec(points: seq<VolumePoint>, average: real)
    ensures forall k :: 0 <= k < |Anomalies(points, average)| ==>
              exists j :: 0 <= j < |points| && points[j].volume > average * 1.8 &&
                          Anomalies(points, average)[k] == AnomalyOf(points[j], average)
    ensures forall j :: 0 <= j < |points| && points[j].volume > average * 1.8 ==>
              AnomalyOf(points[j], average) in Anomalies(points, average)
    ensures average > 0.0 ==> forall k :: 0 <= k < |Anomalies(points, average)| ==>
              Anomalies(points, average)[k].percentAboveAverage.Some? &&
              Anomalies(points, average)[k].percentAboveAverage.value > 80.0
  {
    var kept := Filter(points, Above(average));
    FilterSpec(points, Above(average));
    var r := Anomalies(points, average);
    forall k | 0 <= k < |r|
      ensures exists j :: 0 <= j < |points| && points[j].volume > average * 1.8 &&
                          r[k] == AnomalyOf(points[j], average)
    {
      assert kept[k] in points && Above(average)(kept[k]);
      var j :| 0 <= j < |points| && points[j] == kept[k];
      assert r[k] == AnomalyOf(points[j], average);
    }
    forall j | 0 <= j < |points| && points[j].volume > average * 1.8
      ensures AnomalyOf(points[j], average) in r
    {
      assert Above(average)(points[j]);
      assert points[j] in kept;
      var k :| 0 <= k < |kept| && kept[k] == points[j];
      assert r[k] == AnomalyOf(points[j], average);
    }
    if average > 0.0 {
      forall k | 0 <= k < |Anomalies(points, average)|
        ensures Anomalies(points, average)[k].percentAboveAverage.Some?
        ensures Anomalies(points, average)[k].percentAboveAverage.value > 80.0
      {
        assert Above(average)(kept[k]);
        assert Anomalies(points, average)[k] == AnomalyOf(kept[k], average);
        PercentAbove(kept[k].volume, average);
      }
    }
  }

  lemma PercentAbove(v: real, average: real)
    requires average > 0.0 && v > average * 1.8
    ensures (v - average) / average * 100.0 > 80.0
  {
    var q := (v - average) / average;
    assert q * average == v - average;
    if q <= 0.8 {
      MulMono(average, q, 0.8);
    }
  }

  /** The anomaly list keeps the series order: the anomalies of a
      concatenation are those of each part, one after the other. */
  lemma {:induction false} AnomaliesConcat(a: seq<VolumePoint>, b: seq<VolumePoint>, average: real)
    ensures Anomalies(a + b, average) == Anomalies(a, average) + Anomalies(b, average)
  {
    FilterConcat(a, b, Above(average));
  }

  // ---------------------------------------------------------------------
  // Price/volume correlation
  // ---------------------------------------------------------------------

  /** The step-to-step changes divide by every point but the last. */
  predicate PreviousNonZero(points: seq<VolumePoint>) {
    forall k :: 0 <= k < |points| - 1 ==> points[k].price != 0.0 && points[k].volume != 0.0
  }

  function PriceChange(points: seq<VolumePoint>, k: nat): real
    requires k + 1 < |points| && points[k].price != 0.0
  {
    (points[k + 1].price - points[k].price) / points[k].price
  }

  function VolumeStep(points: seq<VolumePoint>, k: nat): real
    requires k + 1 < |points| && points[k].volume != 0.0
  {
    (points[k + 1].volume - points[k].volume) / points[k].volume
  }

  /** The relative changes between neighbouring points, one fewer than the
      points; `None` when some divisor is zero. */
  function Changes(points: seq<VolumePoint>): (r: Option<(seq<real>, seq<real>)>)
    ensures r.None? <==> !PreviousNonZero(points)
    ensures r.Some? ==> |r.value.0| == |r.value.1| == if |points| == 0 then 0 else |points| - 1
  {
    if !PreviousNonZero(points) then None
    else
      var n := if |points| == 0 then 0 else |points| - 1;
      Some((seq(n, k requires 0 <= k < n => PriceChange(points, k)),
            seq(n, k requires 0 <= k < n => VolumeStep(points, k))))
  }

  /** The first loop: push one price change and one volume change per
      neighbouring pair. */
  method StepChanges(points: seq<VolumePoint>) returns (r: Option<(seq<real>, seq<real>)>)
    ensures r == Changes(points)
  {
    var priceChanges: seq<real> := [];
    var volumeChanges: seq<real> := [];
    var i := 1;
    while i < |points|
      invariant 1 <= i <= if |points| == 0 then 1 else |points|
      invariant |priceChanges| == |volumeChanges| == i - 1
      invariant forall k :: 0 <= k < i - 1 ==> points[k].price != 0.0 && points[k].volume != 0.0
      invariant forall k :: 0 <= k < i - 1 ==> priceChanges[k] == PriceChange(points, k)
      invariant forall k :: 0 <= k < i - 1 ==> volumeChanges[k] == VolumeStep(points, k)
    {
      var prev := points[i - 1];
      if prev.price == 0.0 || prev.volume == 0.0 {
        assert !PreviousNonZero(points);
        return None;
      }
      priceChanges := priceChanges + [(points[i].price - prev.price) / prev.price];
      volumeChanges := volumeChanges + [(points[i].volume - prev.volume) / prev.volume];
      i := i + 1;
    }
    assert PreviousNonZero(points);
    var n := if |points| == 0 then 0 else |points| - 1;
    assert priceChanges == seq(n, k requires 0 <= k < n => PriceChange(points, k));
    assert volumeChanges == seq(n, k requires 0 <= k < n => VolumeStep(points, k));
    r := Some((priceChanges, volumeChanges));
  }

  function Id(x: real): real {
    x
  }

  /** `reduce(+) / length`; `None` for an empty list (0 / 0). */
  function Mean(s: seq<real>): Option<real> {
    if s == [] then None else Some(SumOf(s, Id) / (|s| as real))
  }

  /** Each value minus the mean. */
  function Centered(s: seq<real>, mean: real): (r: seq<real>)
    ensures |r| == |s| && forall k :: 0 <= k < |s| ==> r[k] == s[k] - mean
  {
    seq(|s|, k requires 0 <= k < |s| => s[k] - mean)
  }

  /** Sum of products, accumulated from the front. */
  function Dot(a: seq<real>, b: seq<real>): real
    requires |a| == |b|
    decreases |a|
  {
    if a == [] then 0.0 else Dot(a[..|a| - 1], b[..|b| - 1]) + a[|a| - 1] * b[|b| - 1]
  }

  /** The three accumulators of the second loop; the coefficient is
      `numerator / (sqrt(priceVariance) * sqrt(volumeVariance))`. */
  datatype Moments = Moments(numerator: real, priceVariance: real, volumeVariance: real)

  function MomentsOf(priceChanges: seq<real>, volumeChanges: seq<real>,
                     priceAvg: real, volumeAvg: real): Moments
    requires |priceChanges| == |volumeChanges|
  {
    var p := Centered(priceChanges, priceAvg);
    var v := Centered(volumeChanges, volumeAvg);
    Moments(Dot(p, v), Dot(p, p), Dot(v, v))
  }

  /** The second loop: accumulate the products of the deviations. */
  method Accumulate(priceChanges: seq<real>, volumeChanges: seq<real>,
                    priceAvg: real, volumeAvg: real) returns (m: Moments)
    requires |priceChanges| == |volumeChanges|
    ensures m == MomentsOf(priceChanges, volumeChanges, priceAvg, volumeAvg)
  {
    ghost var p := Centered(priceChanges, priceAvg);
    ghost var v := Centered(volumeChanges, volumeAvg);
    var numerator := 0.0;
    var priceVariance := 0.0;
    var volumeVariance := 0.0;
    var i := 0;
    while i < |priceChanges|
      invariant 0 <= i <= |priceChanges|
      invariant numerator == Dot(p[..i], v[..i])
      invariant priceVariance == Dot(p[..i], p[..i])
      invariant volumeVariance == Dot(v[..i], v[..i])
    {
      var priceDiff := priceChanges[i] - priceAvg;
      var volumeDiff := volumeChanges[i] - volumeAvg;
      assert p[..i + 1][..i] == p[..i] && v[..i + 1][..i] == v[..i];
      numerator := numerator + priceDiff * volumeDiff;
      priceVariance := priceVariance + priceDiff * priceDiff;
      volumeVariance := volumeVariance + volumeDiff * volumeDiff;
      i := i + 1;
    }
    assert p[..i] == p && v[..i] == v;
    m := Moments(numerator, priceVariance, volumeVariance);
  }

  /** Sum over the list of `(a[i]*y - x*b[i])^2`. */
  function SkewSquares(a: seq<real>, b: seq<real>, x: real, y: real): real
    requires |a| == |b|
    decreases |a|
  {
    if a == [] then 0.0
    else
      var d := a[|a| - 1] * y - x * b[|b| - 1];
      SkewSquares(a[..|a| - 1], b[..|b| - 1], x, y) + d * d
  }

  lemma {:induction false} SkewSquaresNonNegative(a: seq<real>, b: seq<real>, x: real, y: real)
    requires |a| == |b|
    ensures SkewSquares(a, b, x, y) >= 0.0
    decreases |a|
  {
    if a != [] {
      SkewSquaresNonNegative(a[..|a| - 1], b[..|b| - 1], x, y);
      SquareNonNegative(a[|a| - 1] * y - x * b[|b| - 1]);
    }
  }

  lemma SquareNonNegative(d: real)
    ensures d * d >= 0.0
  {
    if d >= 0.0 {
      MulMono(d, 0.0, d);
    } else {
      MulMono(-d, 0.0, -d);
    }
  }

  lemma {:induction false} SkewSquaresExpand(a: seq<real>, b: seq<real>, x: real, y: real)
    requires |a| == |b|
    ensures SkewSquares(a, b, x, y) == y * y * Dot(a, a) + x * x * Dot(b, b) - 2.0 * x * y * Dot(a, b)
    decreases |a|
  {
    if a != [] {
      var a', b' := a[..|a| - 1], b[..|b| - 1];
      var p, q := a[|a| - 1], b[|b| - 1];
      SkewSquaresExpand(a', b', x, y);
      var A, B, C := Dot(a', a'), Dot(b', b'), Dot(a', b');
      assert (p * y - x * q) * (p * y - x * q) == y * y * p * p + x * x * q * q - 2.0 * x * y * p * q;
      assert y * y * (A + p * p) == y * y * A + y * y * p * p;
      assert x * x * (B + q * q) == x * x * B + x * x * q * q;
      assert 2.0 * x * y * (C + p * q) == 2.0 * x * y * C + 2.0 * x * y * p * q;
    }
  }

  /** Cauchy-Schwarz: the squared sum of products is at most the product of
      the sums of squares. */
  lemma {:induction false} CauchySchwarz(a: seq<real>, b: seq<real>)
    requires |a| == |b|
    ensures Dot(a, b) * Dot(a, b) <= Dot(a, a) * Dot(b, b)
    decreases |a|
  {
    if a != [] {
      var a', b' := a[..|a| - 1], b[..|b| - 1];
      var x, y := a[|a| - 1], b[|b| - 1];
      CauchySchwarz(a', b');
      SkewSquaresExpand(a', b', x, y);
      SkewSquaresNonNegative(a', b', x, y);
      var A, B, C := Dot(a', a'), Dot(b', b'), Dot(a', b');
      assert (A + x * x) * (B + y * y) - (C + x * y) * (C + x * y)
          == (A * B - C * C) + (y * y * A + x * x * B - 2.0 * x * y * C);
    }
  }

  lemma {:induction false} SquaresNonNegative(a: seq<real>)
    ensures Dot(a, a) >= 0.0
    decreases |a|
  {
    if a != [] {
      SquaresNonNegative(a[..|a| - 1]);
      SquareNonNegative(a[|a| - 1]);
    }
  }

  /** Both variances are never negative and the squared numerator is at
      most their product. */
  lemma {:induction false} CorrelationBounded(priceChanges: seq<real>, volumeChanges: seq<real>,
                                              priceAvg: real, volumeAvg: real)
    requires |priceChanges| == |volumeChanges|
    ensures var m := MomentsOf(priceChanges, volumeChanges, priceAvg, volumeAvg);
            m.priceVariance >= 0.0 && m.volumeVariance >= 0.0 &&
            m.numerator * m.numerator <= m.priceVariance * m.volumeVariance
  {
    var p := Centered(priceChanges, priceAvg);
    var v := Centered(volumeChanges, volumeAvg);
    SquaresNonNegative(p);
    SquaresNonNegative(v);
    CauchySchwarz(p, v);
    assert MomentsOf(priceChanges, volumeChanges, priceAvg, volumeAvg) == Moments(Dot(p, v), Dot(p, p), Dot(v, v));
  }

  /** So with both variances positive the squared coefficient
      `numerator^2 / (priceVariance * volumeVariance)` is at most 1, that
      is the coefficient lies in [-1, 1]. */
  lemma CoefficientBounded(priceChanges: seq<real>, volumeChanges: seq<real>, priceAvg: real, volumeAvg: real)
    requires |priceChanges| == |volumeChanges|
    requires MomentsOf(priceChanges, volumeChanges, priceAvg, volumeAvg).priceVariance > 0.0
    requires MomentsOf(priceChanges, volumeChanges, priceAvg, volumeAvg).volumeVariance > 0.0
    ensures var m := MomentsOf(priceChanges, volumeChanges, priceAvg, volumeAvg);
            m.numerator * m.numerator / (m.priceVariance * m.volumeVariance) <= 1.0
  {
    CorrelationBounded(priceChanges, volumeChanges, priceAvg, volumeAvg);
    var m := MomentsOf(priceChanges, volumeChanges, priceAvg, volumeAvg);
    RatioAtMostOne(m.numerator, m.priceVariance, m.volumeVariance);
  }

  lemma RatioAtMostOne(n: real, pv: real, vv: real)
    requires pv > 0.0 && vv > 0.0 && n * n <= pv * vv
    ensures n * n / (pv * vv) <= 1.0
  {
    MulMono(pv, 0.0, vv);
    var d := pv * vv;
    var q := n * n / d;
    assert q * d == n * n;
    if q > 1.0 {
      MulMono(d, 1.0, q);
    }
  }

  /** Correlation inputs of a series: `None` when a change or a mean would
      divide by zero. */
  function CorrelationOf(points: seq<VolumePoint>): Option<Moments> {
    match Changes(points)
    case None => None
    case Some((pc, vc)) =>
      if pc == [] then None
      else Some(MomentsOf(pc, vc, Mean(pc).value, Mean(vc).value))
  }

  // ---------------------------------------------------------------------
  // generateVolumeData
  // ---------------------------------------------------------------------

  datatype Metrics = Metrics(averageVolume: real, volumeChange: Option<real>,
                             anomalies: seq<Anomaly>, correlation: Option<Moments>)

  function MetricsOf(points: seq<VolumePoint>): Metrics
    requires |points| > 0
  {
    var average := AverageVolume(points);
    Metrics(average, VolumeChange(points), Anomalies(points, average), CorrelationOf(points))
  }

  /** The effect: nothing happens without candles; otherwise the series and
      its metrics, with the two correlation loops run imperatively. */
  method GenerateVolumeData(candles: seq<Candle>, totalVolume: real, draws: seq<VolumeDraws>)
    returns (r: Option<(seq<VolumePoint>, Metrics)>)
    requires |draws| == |candles| && PreviousClosesNonZero(candles)
    ensures r.None? <==> |candles| == 0
    ensures r.Some? ==> r.value.0 == Series(candles, totalVolume, draws) &&
                        r.value.1 == MetricsOf(r.value.0)
  {
    if |candles| == 0 {
      return None;
    }
    var points := Series(candles, totalVolume, draws);
    var average := AverageVolume(points);
    var changes := StepChanges(points);
    var correlation: Option<Moments> := None;
    if changes.Some? && changes.value.0 != [] {
      var priceChanges := changes.value.0;
      var volumeChanges := changes.value.1;
      var priceAvg := SumOf(priceChanges, Id) / (|priceChanges| as real);
      var volumeAvg := SumOf(volumeChanges, Id) / (|volumeChanges| as real);
      var m := Accumulate(priceChanges, volumeChanges, priceAvg, volumeAvg);
      correlation := Some(m);
    }
    r := Some((points, Metrics(average, VolumeChange(points), Anomalies(points, average), correlation)));
  }

  // ---------------------------------------------------------------------
  // formatVolume
  // ---------------------------------------------------------------------

  datatype VolumeUnit = Billions | Millions | Thousands | Units

  /** The unit suffix and the scaled amount shown before it (the rounding
      of `toFixed` is left to the display). */
  function FormatVolume(volume: real): (r: (VolumeUnit, real))
    ensures r.0 == Billions <==> volume >= 1000000000.0
    ensures r.0 == Millions <==> 1000000.0 <= volume < 1000000000.0
    ensures r.0 == Thousands <==> 1000.0 <= volume < 1000000.0
    ensures r.0 == Units <==> volume < 1000.0
    ensures r.0 == Units ==> r.1 == volume
    ensures r.0 != Units ==> r.1 >= 1.0
    ensures r.0 == Millions || r.0 == Thousands ==> r.1 < 1000.0
  {
    if volume >= 1000000000.0 then (Billions, volume / 1000000000.0)
    else if volume >= 1000000.0 then (Millions, volume / 1000000.0)
    else if volume >= 1000.0 then (Thousands, volume / 1000.0)
    else (Units, volume)
  }
}
