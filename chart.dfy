/** The price chart (components/crypto-chart.tsx): the synthetic series the
    chart falls back to when CoinAPI is unreachable, the label granularity and
    candle period chosen per time range, and the down-sampling of the four
    live series into at most one point per `interval` candles. */
module Chart {
  import opened Builtins

  // The `value` of each time-range button.
  const Day1 := "1DAY"
  const Day7 := "7DAY"
  const Month1 := "1MTH"
  const Month3 := "3MTH"
  const Year1 := "1YRS"
  const Ytd := "YTD"

  datatype Coin = Bitcoin | Ethereum | Ripple | Dogecoin

  datatype TimeUnit = Hours | Days | Months | Years

  /** The instant a mock series starts from, relative to the moment it is made:
      unchanged, moved back by a number of units, or January 1st of the current
      year (keeping the time of day). */
  datatype StartDate = Now | Ago(unit: TimeUnit, amount: nat) | January1

  /** The instant of one chart point: the start moved forward by a number of
      units (`setHours`, `setDate`, `setMonth`), or the `time_period_start`
      CoinAPI reported for a candle. */
  datatype Moment = After(start: StartDate, unit: TimeUnit, amount: int) | Reported(timestamp: string)

  /** What `formatDate` prints: hour and minute, month and day, or month and year. */
  datatype LabelKind = HourMinute | MonthDay | MonthYear

  datatype DateLabel = DateLabel(kind: LabelKind, at: Moment)

  /** One `CryptoData` record: a date label and a price for each coin. */
  datatype ChartPoint = ChartPoint(date: DateLabel, bitcoin: real, ethereum: real, ripple: real, dogecoin: real) {
    function Price(c: Coin): real {
      match c
      case Bitcoin => bitcoin
      case Ethereum => ethereum
      case Ripple => ripple
      case Dogecoin => dogecoin
    }
  }

  // ---------------------------------------------------------------------------
  // formatDate and the candle period

  /** The label granularity `formatDate` uses for a range. */
  function FormatDate(range: string): (k: LabelKind)
    ensures k == HourMinute <==> range == Day1
    ensures k == MonthDay <==> range == Day7 || range == Month1
  {
    if range == Day1 then HourMinute
    else if range == Day7 || range == Month1 then MonthDay
    else MonthYear
  }

  /** The `period_id` requested from CoinAPI for a range. */
  function Period(range: string): (p: string)
    ensures p == "1HRS" <==> range == Day1
    ensures p == "6HRS" <==> range == Day7
    ensures p == "1DAY" <==> range != Day1 && range != Day7
  {
    if range == Day1 then "1HRS"
    else if range == Day7 then "6HRS"
    else if range == Month1 then "1DAY"
    else "1DAY"
  }

  // ---------------------------------------------------------------------------
  // generateMockData

  /** The number of points of a mock series. */
  function DataPoints(range: string): (n: nat)
    ensures 0 < n <= 30
    ensures n == if range == Day1 then 24 else if range == Day7 then 7
      else if range == Year1 || range == Ytd then 12 else 30
  {
    if range == Day1 then 24
    else if range == Day7 then 7
    else if range == Month1 then 30
    else if range == Month3 then 30
    else if range == Year1 || range == Ytd then 12
    else 30
  }

  /** Where `startDate` is placed before the points are laid out. */
  function MockStart(range: string): StartDate {
    if range == Day1 then Ago(Hours, 24)
    else if range == Day7 then Ago(Days, 7)
    else if range == Month1 then Ago(Days, 30)
    else if range == Month3 then Ago(Days, 90)
    else if range == Year1 then Ago(Years, 1)
    else if range == Ytd then January1
    else Now
  }

  /** `Math.floor((Number.parseInt(range) / dataPoints) * i)`, the day offset of
      point i on the one- and three-month ranges, in exact arithmetic. */
  function SpreadDays(range: string, i: nat, n: nat): int
    requires range == Month1 || range == Month3
    requires n > 0
  {
    ParseIntOfMonthRanges();
    ParseInt(range).value * i / n
  }

  /** `Number.parseInt` reads the month count at the head of the range code. */
  lemma ParseIntOfMonthRanges()
    ensures ParseInt(Month1) == Some(1) && ParseInt(Month3) == Some(3)
  {
    assert IntToString(1) + "MTH" == Month1;
    assert IntToString(3) + "MTH" == Month3;
    ParseIntOfIntToString(1, "MTH");
    ParseIntOfIntToString(3, "MTH");
  }

  /** The instant of point i of a mock series. */
  function PointMoment(range: string, i: nat): Moment {
    var start := MockStart(range);
    if range == Day1 then After(start, Hours, i)
    else if range == Day7 then After(start, Days, i)
    else if range == Month1 || range == Month3 then After(start, Days, SpreadDays(range, i, DataPoints(range)))
    else After(start, Months, i)
  }

  function BasePrice(c: Coin): real {
    match c
    case Bitcoin => 43000.0
    case Ethereum => 2300.0
    case Ripple => 0.58
    case Dogecoin => 0.12
  }

  function Volatility(c: Coin): real {
    match c
    case Bitcoin => 0.05
    case Ethereum => 0.07
    case Ripple => 0.09
    case Dogecoin => 0.11
  }

  /** The slope of the upward drift; steeper on the year-to-date range. */
  function TrendCoefficient(c: Coin, ytd: bool): real {
    match c
    case Bitcoin => if ytd then 0.15 else 0.1
    case Ethereum => if ytd then 0.2 else 0.12
    case Ripple => if ytd then 0.1 else 0.08
    case Dogecoin => if ytd then 0.3 else 0.18
  }

  /** `(Math.random() - 0.5) * 2 * volatility` for a draw r. */
  function Noise(c: Coin, r: real): real {
    (r - 0.5) * 2.0 * Volatility(c)
  }

  /** `i / dataPoints`. */
  function TrendFactor(i: nat, n: nat): real
    requires n > 0
  {
    i as real / n as real
  }

  function Trend(c: Coin, range: string, i: nat): real {
    TrendCoefficient(c, range == Ytd) * TrendFactor(i, DataPoints(range))
  }

  /** `basePrice * (1 + change + trend)` for coin c at point i, given draw r. */
  function MockPrice(c: Coin, range: string, i: nat, r: real): real {
    BasePrice(c) * (1.0 + Noise(c, r) + Trend(c, range, i))
  }

  /** The index of the `Math.random()` call that gives coin c its change at
      point i: four calls per point, in the order bitcoin, ethereum, ripple,
      dogecoin. */
  function DrawIndex(i: nat, c: Coin): nat {
    4 * i + match c case Bitcoin => 0 case Ethereum => 1 case Ripple => 2 case Dogecoin => 3
  }

  /** Point i of the mock series for a range. */
  function MockPoint(range: string, i: nat, random: nat -> real): (p: ChartPoint)
    ensures forall c :: p.Price(c) == MockPrice(c, range, i, random(DrawIndex(i, c)))
  {
    ChartPoint(DateLabel(FormatDate(range), PointMoment(range, i)),
      MockPrice(Bitcoin, range, i, random(DrawIndex(i, Bitcoin))),
      MockPrice(Ethereum, range, i, random(DrawIndex(i, Ethereum))),
      MockPrice(Ripple, range, i, random(DrawIndex(i, Ripple))),
      MockPrice(Dogecoin, range, i, random(DrawIndex(i, Dogecoin))))
  }

  /** `generateMockData(range)`: one point per index below `dataPoints`, each
      placed after the start date and priced from four fresh draws. */
  method GenerateMockData(range: string, random: nat -> real) returns (data: seq<ChartPoint>)
    ensures |data| == DataPoints(range)
    ensures forall i :: 0 <= i < |data| ==> data[i] == MockPoint(range, i, random)
    ensures IsRandomStream(random) ==>
      forall i, c :: 0 <= i < |data| ==> data[i].Price(c) > 0.0
  {
    var dataPoints := DataPoints(range);
    var startDate := MockStart(range);
    data := [];
    for i := 0 to dataPoints
      invariant |data| == i
      invariant forall j :: 0 <= j < i ==> data[j] == MockPoint(range, j, random)
    {
      var pointDate := PointDate(range, startDate, dataPoints, i);

      var btcChange := Noise(Bitcoin, random(4 * i));
      var ethChange := Noise(Ethereum, random(4 * i + 1));
      var xrpChange := Noise(Ripple, random(4 * i + 2));
      var dogeChange := Noise(Dogecoin, random(4 * i + 3));

      var trendFactor := TrendFactor(i, dataPoints);
      var btcTrend := TrendCoefficient(Bitcoin, range == Ytd) * trendFactor;
      var ethTrend := TrendCoefficient(Ethereum, range == Ytd) * trendFactor;
      var xrpTrend := TrendCoefficient(Ripple, range == Ytd) * trendFactor;
      var dogeTrend := TrendCoefficient(Dogecoin, range == Ytd) * trendFactor;

      var point := ChartPoint(DateLabel(FormatDate(range), pointDate),
        BasePrice(Bitcoin) * (1.0 + btcChange + btcTrend),
        BasePrice(Ethereum) * (1.0 + ethChange + ethTrend),
        BasePrice(Ripple) * (1.0 + xrpChange + xrpTrend),
        BasePrice(Dogecoin) * (1.0 + dogeChange + dogeTrend));
      PriceAt(Bitcoin, range, i, random(4 * i), btcChange, trendFactor);
      PriceAt(Ethereum, range, i, random(4 * i + 1), ethChange, trendFactor);
      PriceAt(Ripple, range, i, random(4 * i + 2), xrpChange, trendFactor);
      PriceAt(Dogecoin, range, i, random(4 * i + 3), dogeChange, trendFactor);
      MockPointParts(range, i, random, point);
      data := data + [point];
    }
    if IsRandomStream(random) {
      forall i, c | 0 <= i < |data| ensures data[i].Price(c) > 0.0 {
        MockPointPositive(range, i, random, c);
      }
    }
  }

  /** The `pointDate` of point i: a copy of the start date moved forward in
      place by hours, days or months as the range asks. It is the statement
      form of `PointMoment`, which the lemmas reason about. */
  method PointDate(range: string, startDate: StartDate, dataPoints: nat, i: nat) returns (pointDate: Moment)
    requires startDate == MockStart(range) && dataPoints == DataPoints(range)
    ensures pointDate == PointMoment(range, i)
  {
    if range == Day1 {
      pointDate := After(startDate, Hours, i);
    } else if range == Day7 {
      pointDate := After(startDate, Days, i);
    } else if range == Month1 || range == Month3 {
      pointDate := After(startDate, Days, SpreadDays(range, i, dataPoints));
    } else {
      pointDate := After(startDate, Months, i);
    }
  }

  /** The price computed from the draw's change and `i / dataPoints` is the
      price of coin c at point i. */
  lemma PriceAt(c: Coin, range: string, i: nat, r: real, change: real, trendFactor: real)
    requires change == Noise(c, r) && trendFactor == TrendFactor(i, DataPoints(range))
    ensures BasePrice(c) * (1.0 + change + TrendCoefficient(c, range == Ytd) * trendFactor) == MockPrice(c, range, i, r)
  { }

  /** A point whose date and four prices are those of point i is `MockPoint`. */
  lemma MockPointParts(range: string, i: nat, random: nat -> real, point: ChartPoint)
    requires point.date == DateLabel(FormatDate(range), PointMoment(range, i))
    requires point.bitcoin == MockPrice(Bitcoin, range, i, random(4 * i))
    requires point.ethereum == MockPrice(Ethereum, range, i, random(4 * i + 1))
    requires point.ripple == MockPrice(Ripple, range, i, random(4 * i + 2))
    requires point.dogecoin == MockPrice(Dogecoin, range, i, random(4 * i + 3))
    ensures point == MockPoint(range, i, random)
  {
    assert DrawIndex(i, Bitcoin) == 4 * i && DrawIndex(i, Ethereum) == 4 * i + 1;
    assert DrawIndex(i, Ripple) == 4 * i + 2 && DrawIndex(i, Dogecoin) == 4 * i + 3;
  }

  /** With draws in [0, 1), every price of a mock point is positive. */
  lemma MockPointPositive(range: string, i: nat, random: nat -> real, c: Coin)
    requires IsRandomStream(random)
    requires i < DataPoints(range)
    ensures MockPoint(range, i, random).Price(c) > 0.0
  {
    MockPriceBounds(c, range, i, random(DrawIndex(i, c)));
  }

  // ---------------------------------------------------------------------------
  // Properties of the mock series

  /** The offset of each point from the start date, per range: hours on the
      one-day range, days on the seven-day range, floor(m * i / 30) days on the
      m-month ranges (so every one-month point sits on the start day and the
      three-month points advance one day every ten points), months otherwise. */
  lemma MockOffsets(range: string, i: nat)
    requires i < DataPoints(range)
    ensures PointMoment(range, i) == After(MockStart(range),
      if range == Day1 then Hours else if range == Day7 || range == Month1 || range == Month3 then Days else Months,
      if range == Month1 then 0 else if range == Month3 then i / 10 else i)
  {
    if range == Month1 || range == Month3 {
      MonthSpread(i);
    }
  }

  /** Point i of 30 on the one-month range sits on the start day; on the
      three-month range it is i / 10 days on. */
  lemma MonthSpread(i: nat)
    requires i < 30
    ensures SpreadDays(Month1, i, 30) == 0
    ensures SpreadDays(Month3, i, 30) == i / 10
  {
    ParseIntOfMonthRanges();
    assert SpreadDays(Month1, i, 30) == 1 * i / 30;
    assert SpreadDays(Month3, i, 30) == 3 * i / 30;
    ThreeThirtieths(i);
  }

  /** floor(3i / 30) = floor(i / 10). */
  lemma ThreeThirtieths(i: nat)
    ensures 3 * i / 30 == i / 10
  {
    var q, r := i / 10, i % 10;
    assert i == 10 * q + r && 0 <= r < 10;
    assert 3 * i == 30 * q + 3 * r && 0 <= 3 * r < 30;
  }

  /** Later points never come before earlier ones, and on every range but the
      one- and three-month ones each point is strictly later than the last. */
  lemma MockMomentsOrdered(range: string, i: nat, j: nat)
    requires i < j < DataPoints(range)
    ensures PointMoment(range, i).After? && PointMoment(range, j).After?
    ensures PointMoment(range, i).unit == PointMoment(range, j).unit
    ensures PointMoment(range, i).amount <= PointMoment(range, j).amount
    ensures range != Month1 && range != Month3 ==>
      PointMoment(range, i).amount < PointMoment(range, j).amount
  {
    MockOffsets(range, i);
    MockOffsets(range, j);
  }

  /** On the ranges with a fixed look-back, every point lies before the moment
      the series is made: its offset is below the look-back in the same unit
      (twelve months for the one-year look-back). */
  lemma MockPointsWithinLookBack(range: string, i: nat)
    requires range in {Day1, Day7, Month1, Month3, Year1}
    requires i < DataPoints(range)
    ensures MockStart(range).Ago? && PointMoment(range, i).After?
    ensures var lookBack := MockStart(range);
      if lookBack.unit == Years then PointMoment(range, i).unit == Months && PointMoment(range, i).amount < 12 * lookBack.amount
      else PointMoment(range, i).unit == lookBack.unit && PointMoment(range, i).amount < lookBack.amount
  {
    MockOffsets(range, i);
  }

  /** The trend factor lies in [0, 1) and grows with the index. */
  lemma TrendFactorBounds(i: nat, j: nat, n: nat)
    requires i <= j < n
    ensures 0.0 <= TrendFactor(i, n) <= TrendFactor(j, n) < 1.0
  {
    var fi, fj := TrendFactor(i, n), TrendFactor(j, n);
    assert fi * n as real == i as real;
    assert fj * n as real == j as real;
  }

  /** Every coin drifts upward faster on the year-to-date range. */
  lemma YtdTrendSteeper(c: Coin)
    ensures TrendCoefficient(c, true) > TrendCoefficient(c, false) > 0.0
  {
  }

  /** A change lies in [-volatility, volatility), and no volatility exceeds 0.11. */
  lemma NoiseBounds(c: Coin, r: real)
    requires 0.0 <= r < 1.0
    ensures -Volatility(c) <= Noise(c, r) < Volatility(c) <= 0.11
  {
  }

  /** Each mock price stays within [base * (1 - volatility), base * (1 + volatility
      + trend coefficient)), hence strictly positive. */
  lemma MockPriceBounds(c: Coin, range: string, i: nat, r: real)
    requires 0.0 <= r < 1.0
    requires i < DataPoints(range)
    ensures BasePrice(c) * (1.0 - Volatility(c)) <= MockPrice(c, range, i, r)
    ensures MockPrice(c, range, i, r) < BasePrice(c) * (1.0 + Volatility(c) + TrendCoefficient(c, range == Ytd))
    ensures MockPrice(c, range, i, r) > 0.0
  {
    var n := DataPoints(range);
    TrendFactorBounds(0, i, n);
    NoiseBounds(c, r);
    YtdTrendSteeper(c);
    ScaledBounds(BasePrice(c), Volatility(c), Noise(c, r), TrendCoefficient(c, range == Ytd), TrendFactor(i, n));
  }

  /** base * (1 + noise + k * t) for |noise| below vol < 1 and t in [0, 1). */
  lemma ScaledBounds(base: real, vol: real, noise: real, k: real, t: real)
    requires base > 0.0 && 0.0 < vol < 1.0 && -vol <= noise < vol
    requires k > 0.0 && 0.0 <= t < 1.0
    ensures base * (1.0 - vol) <= base * (1.0 + noise + k * t) < base * (1.0 + vol + k)
    ensures base * (1.0 + noise + k * t) > 0.0
  {
    assert 0.0 <= k * t < k;
  }

  // ---------------------------------------------------------------------------
  // fetchCryptoData: combining the four live series

  /** One OHLCV candle, as far as the chart reads it. */
  datatype Candle = Candle(timePeriodStart: string, priceClose: real)

  const MaxDataPoints := 30

  /** `Math.min(...results.map(r => r.length))`. */
  function MinLength(results: seq<seq<Candle>>): (m: nat)
    requires |results| > 0
    ensures forall k :: 0 <= k < |results| ==> m <= |results[k]|
    ensures exists k :: 0 <= k < |results| && m == |results[k]|
  {
    if |results| == 1 then |results[0]|
    else
      var rest := MinLength(results[1..]);
      assert forall k :: 1 <= k < |results| ==> results[k] == results[1..][k - 1];
      if |results[0]| <= rest then |results[0]| else rest
  }

  /** `Math.max(1, Math.floor(minLength / maxDataPoints))`: at least one, and
      otherwise the largest step that still leaves 30 samples. */
  function Interval(minLength: nat): (d: nat)
    ensures d >= 1
    ensures minLength >= MaxDataPoints ==> d * MaxDataPoints <= minLength < (d + 1) * MaxDataPoints
    ensures minLength < MaxDataPoints ==> d == 1
  {
    if minLength / MaxDataPoints < 1 then 1 else minLength / MaxDataPoints
  }

  /** The combined point for candle index i of the four series. */
  function LivePoint(results: seq<seq<Candle>>, range: string, i: nat): ChartPoint
    requires |results| == 4 && i < MinLength(results)
  {
    ChartPoint(DateLabel(FormatDate(range), Reported(results[0][i].timePeriodStart)),
      results[0][i].priceClose, results[1][i].priceClose,
      results[2][i].priceClose, results[3][i].priceClose)
  }

  /** The points for candle indices from, from + d, from + 2d, ... below the
      shortest series length. */
  function Samples(results: seq<seq<Candle>>, range: string, from: nat, d: nat): seq<ChartPoint>
    requires |results| == 4 && d >= 1
    decreases MinLength(results) - from
  {
    if from >= MinLength(results) then []
    else [LivePoint(results, range, from)] + Samples(results, range, from + d, d)
  }

  /** The chart data built from a successful fetch. */
  function Downsample(results: seq<seq<Candle>>, range: string): seq<ChartPoint>
    requires |results| == 4
  {
    Samples(results, range, 0, Interval(MinLength(results)))
  }

  /** The loop of `fetchCryptoData` that walks i = 0, interval, 2 * interval, ...
      and pushes the point for each candle index. */
  method CombineSeries(results: seq<seq<Candle>>, range: string) returns (combinedData: seq<ChartPoint>)
    requires |results| == 4
    ensures combinedData == Downsample(results, range)
  {
    combinedData := [];
    var minLength := MinLength(results);
    var interval := Interval(minLength);
    var i := 0;
    while i < minLength
      invariant combinedData + Samples(results, range, i, interval) == Downsample(results, range)
      decreases minLength - i
    {
      ghost var rest := Samples(results, range, i + interval, interval);
      assert Samples(results, range, i, interval) == [LivePoint(results, range, i)] + rest;
      if i < |results[0]| {
        combinedData := combinedData + [LivePoint(results, range, i)];
      }
      assert combinedData + rest == Downsample(results, range);
      i := i + interval;
    }
  }

  /** Sample k of the combined data is the point for candle index from + k * d,
      an index below every series' length. */
  lemma {:induction false} SamplesAt(results: seq<seq<Candle>>, range: string, from: nat, d: nat, k: nat)
    requires |results| == 4 && d >= 1
    requires k < |Samples(results, range, from, d)|
    ensures from + k * d < MinLength(results)
    ensures forall s :: 0 <= s < 4 ==> from + k * d < |results[s]|
    ensures Samples(results, range, from, d)[k] == LivePoint(results, range, from + k * d)
    decreases k
  {
    if k > 0 {
      SamplesAt(results, range, from + d, d, k - 1);
      assert from + d + (k - 1) * d == from + k * d;
    }
  }

  /** The number of samples is the ceiling of (MinLength - from) / d. */
  lemma {:induction false} SamplesLength(results: seq<seq<Candle>>, range: string, from: nat, d: nat)
    requires |results| == 4 && d >= 1
    ensures |Samples(results, range, from, d)| * d >= MinLength(results) - from
    ensures |Samples(results, range, from, d)| > 0 ==>
      (|Samples(results, range, from, d)| - 1) * d < MinLength(results) - from
    decreases MinLength(results) - from
  {
    if from < MinLength(results) {
      SamplesLength(results, range, from + d, d);
      var c := |Samples(results, range, from + d, d)|;
      assert (c + 1) * d == c * d + d;
    }
  }

  /** The combined data has ceil(minLength / interval) points; the k-th is
      candle index k * interval, strictly increasing in k and valid in all
      four series. */
  lemma DownsampleShape(results: seq<seq<Candle>>, range: string)
    requires |results| == 4
    ensures var d, n := Interval(MinLength(results)), |Downsample(results, range)|;
      n * d >= MinLength(results) && (n > 0 ==> (n - 1) * d < MinLength(results))
    ensures forall k :: 0 <= k < |Downsample(results, range)| ==>
      var i := k * Interval(MinLength(results));
      (forall s :: 0 <= s < 4 ==> i < |results[s]|) &&
      Downsample(results, range)[k] == LivePoint(results, range, i)
  {
    var d := Interval(MinLength(results));
    SamplesLength(results, range, 0, d);
    forall k | 0 <= k < |Downsample(results, range)| {
      DownsampleAt(results, range, k);
    }
  }

  /** Sample k of the combined data is candle index k * interval. */
  lemma DownsampleAt(results: seq<seq<Candle>>, range: string, k: nat)
    requires |results| == 4 && k < |Downsample(results, range)|
    ensures forall s :: 0 <= s < 4 ==> k * Interval(MinLength(results)) < |results[s]|
    ensures Downsample(results, range)[k] == LivePoint(results, range, k * Interval(MinLength(results)))
  {
    SamplesAt(results, range, 0, Interval(MinLength(results)), k);
  }

  /** Below 60 candles the step is one and every candle is kept. */
  lemma DownsampleKeepsShortSeries(results: seq<seq<Candle>>, range: string)
    requires |results| == 4 && MinLength(results) < 2 * MaxDataPoints
    ensures |Downsample(results, range)| == MinLength(results)
    ensures forall k :: 0 <= k < MinLength(results) ==> Downsample(results, range)[k] == LivePoint(results, range, k)
  {
    assert Interval(MinLength(results)) == 1;
    SamplesLength(results, range, 0, 1);
    forall k | 0 <= k < MinLength(results)
      ensures Downsample(results, range)[k] == LivePoint(results, range, k)
    {
      SamplesAt(results, range, 0, 1, k);
    }
  }

  /** The step keeps the chart near 30 points but not under it: never more
      than 59 points (reached at exactly 59 candles). */
  lemma DownsampleAtMost59(results: seq<seq<Candle>>, range: string)
    requires |results| == 4
    ensures |Downsample(results, range)| <= 2 * MaxDataPoints - 1
  {
    var m, d := MinLength(results), Interval(MinLength(results));
    SamplesLength(results, range, 0, d);
    var n := |Downsample(results, range)|;
    if n > 0 {
      CeilingAtMost59(m, d, n);
    }
  }

  /** If n steps of size d are needed to pass m, with d the interval for m,
      then n is at most 59. */
  lemma CeilingAtMost59(m: nat, d: nat, n: nat)
    requires d == Interval(m)
    requires 0 < n && (n - 1) * d < m
    ensures n <= 2 * MaxDataPoints - 1
  {
    if m >= MaxDataPoints {
      assert m <= 30 * d + 29 <= 59 * d;
      assert ((n - 1) - 59) * d < 0;
    }
  }

  /** `fetchCryptoData` after the request settled: the combined live series on
      success, otherwise the mock series (with the "demo data" flag). The four
      requests succeed or fail together, as `Promise.all` does. */
  method FetchCryptoData(range: string, outcome: Fetch<seq<seq<Candle>>>, random: nat -> real)
    returns (data: seq<ChartPoint>, usingMockData: bool)
    requires outcome.Fetched? ==> |outcome.payload| == 4
    ensures usingMockData <==> outcome.Failed?
    ensures outcome.Fetched? ==> data == Downsample(outcome.payload, range)
    ensures outcome.Failed? ==>
      |data| == DataPoints(range) && forall i :: 0 <= i < |data| ==> data[i] == MockPoint(range, i, random)
  {
    match outcome
    case Fetched(results) =>
      data := CombineSeries(results, range);
      usingMockData := false;
    case Failed =>
      data := GenerateMockData(range, random);
      usingMockData := true;
  }

  // ---------------------------------------------------------------------------
  // The component

  /** The chart's state: the selected range, the points shown and the
      loading and demo-data flags. */
  class CryptoChart {
    var timeRange: string
    var data: seq<ChartPoint>
    var loading: bool
    var usingMockData: bool

    constructor ()
      ensures timeRange == Month1 && data == [] && loading && !usingMockData
    {
      timeRange := Month1;
      data := [];
      loading := true;
      usingMockData := false;
    }

    /** A time-range button's `onClick`. */
    method SelectRange(range: string)
      modifies this
      ensures timeRange == range
      ensures data == old(data) && loading == old(loading) && usingMockData == old(usingMockData)
    {
      timeRange := range;
    }

    /** The effect run for the selected range, after its requests settled. */
    method Refresh(outcome: Fetch<seq<seq<Candle>>>, random: nat -> real)
      requires outcome.Fetched? ==> |outcome.payload| == 4
      modifies this
      ensures timeRange == old(timeRange) && !loading
      ensures usingMockData <==> outcome.Failed?
      ensures outcome.Fetched? ==> data == Downsample(outcome.payload, timeRange)
      ensures outcome.Failed? ==>
        |data| == DataPoints(timeRange) && forall i :: 0 <= i < |data| ==> data[i] == MockPoint(timeRange, i, random)
    {
      loading := true;
      data, usingMockData := FetchCryptoData(timeRange, outcome, random);
      loading := false;
    }
  }
}
