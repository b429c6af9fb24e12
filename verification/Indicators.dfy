/** Moving averages, RSI, MACD, ATR and the volume profile (`app/data/indicators.py`). */
module Indicators {
  import opened Common
  import opened Market
  import opened Sums

  /** One value per input; None where the indicator is not defined yet. */
  type Line = seq<Option<real>>

  function Mean(window: seq<real>): real
    requires window != []
  {
    SumSeq(window) / (|window| as real)
  }

  lemma {:induction false} SumSeqDropFirst(s: seq<real>)
    requires s != []
    ensures SumSeq(s) == s[0] + SumSeq(s[1..])
  {
    if |s| > 1 {
      SumSeqDropFirst(s[..|s| - 1]);
      assert s[1..][..|s[1..]| - 1] == s[..|s| - 1][1..];
    }
  }

  /** A sliding window that gains one value and loses one. */
  lemma SlideWindow(s: seq<real>, low: nat, high: nat)
    requires low <= high < |s|
    ensures SumSeq(s[low..high + 1]) == SumSeq(s[low..high]) + s[high]
    ensures SumSeq(s[low + 1..high + 1]) == SumSeq(s[low..high + 1]) - s[low]
  {
    assert s[low..high + 1] == s[low..high] + [s[high]];
    SumSeqSnoc(s[low..high], s[high]);
    SumSeqDropFirst(s[low..high + 1]);
    assert s[low..high + 1][1..] == s[low + 1..high + 1];
  }

  /** The running sum is the window's mean at every index from `period - 1` on; None reports an invalid period. */
  method SimpleMovingAverage(values: seq<real>, period: int) returns (result: Option<Line>)
    ensures result.None? <==> period <= 0
    ensures result.Some? ==> |result.value| == |values| && forall i :: 0 <= i < |values| ==>
      result.value[i] == if i + 1 >= period then Some(Mean(values[i + 1 - period..i + 1])) else None
  {
    if period <= 0 {
      return None;
    }
    var line: Line, running := [], 0.0;
    for i := 0 to |values|
      invariant |line| == i
      invariant running == SumSeq(values[(if i >= period then i - period else 0)..i])
      invariant forall k :: 0 <= k < i ==>
        line[k] == if k + 1 >= period then Some(Mean(values[k + 1 - period..k + 1])) else None
    {
      SlideWindow(values, if i >= period then i - period else 0, i);
      running := running + values[i];
      if i >= period {
        running := running - values[i - period];
      }
      line := line + [if i + 1 >= period then Some(running / (period as real)) else None];
    }
    result := Some(line);
  }

  lemma {:induction false} SumWithin(s: seq<real>, low: real, high: real)
    requires forall x :: x in s ==> low <= x <= high
    ensures Times(|s| as real, low) <= SumSeq(s) <= Times(|s| as real, high)
  {
    if s != [] {
      var init := s[..|s| - 1];
      assert s == init + [s[|s| - 1]];
      assert forall x :: x in init ==> x in s;
      SumWithin(init, low, high);
      TimesSum(|init| as real, 1.0, low);
      TimesSum(|init| as real, 1.0, high);
      assert s[|s| - 1] in s;
    }
  }

  lemma MeanWithin(s: seq<real>, low: real, high: real)
    requires s != [] && forall x :: x in s ==> low <= x <= high
    ensures low <= Mean(s) <= high
  {
    SumWithin(s, low, high);
    Between(|s| as real, SumSeq(s), low, high);
  }

  lemma Between(n: real, sum: real, low: real, high: real)
    requires n > 0.0 && Times(n, low) <= sum <= Times(n, high)
    ensures low <= sum / n <= high
  {
    var q := sum / n;
    assert Times(n, q) == sum;
    if q < low { TimesStrict(n, q, low); }
    if q > high { TimesStrict(n, high, q); }
  }

  // ------------------------------------------------------------------ exponential averages

  /** A smoothing step toward `x` by the weight `k`. */
  function Toward(average: real, x: real, k: real): real { (x - average) * k + average }

  /** The first `period` values' mean, then smoothed toward each further value. */
  function Ema(values: seq<real>, period: nat, i: nat): real
    requires period > 0 && period - 1 <= i < |values|
  {
    if i == period - 1 then Mean(values[..period])
    else Toward(Ema(values, period, i - 1), values[i], 2.0 / ((period + 1) as real))
  }

  /** Each value enters with weight 2 of period + 1. */
  lemma EmaSteps(values: seq<real>, period: nat, i: nat)
    requires period > 0 && period <= i < |values|
    ensures Times((period + 1) as real, Ema(values, period, i)) ==
      Times(2.0, values[i]) + Times((period - 1) as real, Ema(values, period, i - 1))
  {
    Smoothed((period + 1) as real, Ema(values, period, i - 1), values[i]);
  }

  lemma Smoothed(n: real, average: real, x: real)
    requires n > 0.0
    ensures Times(n, Toward(average, x, 2.0 / n)) == Times(2.0, x) + Times(n - 2.0, average)
  {
    var k := 2.0 / n;
    assert k * n == 2.0;
    assert Times(n, Toward(average, x, k)) == (k * n) * (x - average) + n * average;
  }

  /** And the first average is the mean. */
  lemma MeanIs(window: seq<real>)
    requires window != []
    ensures Times(|window| as real, Mean(window)) == SumSeq(window)
  {
  }

  lemma TowardWithin(average: real, x: real, k: real, low: real, high: real)
    requires 0.0 <= k <= 1.0 && low <= average <= high && low <= x <= high
    ensures low <= Toward(average, x, k) <= high
  {
    var a, b := 1.0 - k, k;
    assert Toward(average, x, k) == Times(a, average) + Times(b, x);
    TimesOrder(a, low, average);
    TimesOrder(a, average, high);
    TimesOrder(b, low, x);
    TimesOrder(b, x, high);
    TimesSum(a, b, low);
    TimesSum(a, b, high);
  }

  lemma WeightBelowOne(period: nat)
    requires period > 0
    ensures 0.0 < 2.0 / ((period + 1) as real) <= 1.0
  {
  }

  /** The average never leaves the range of the values it has seen. */
  lemma {:induction false} EmaWithin(values: seq<real>, period: nat, i: nat, low: real, high: real)
    requires period > 0 && period - 1 <= i < |values|
    requires forall k :: 0 <= k <= i ==> low <= values[k] <= high
    ensures low <= Ema(values, period, i) <= high
  {
    if i == period - 1 {
      MeanWithin(values[..period], low, high);
    } else {
      EmaWithin(values, period, i - 1, low, high);
      WeightBelowOne(period);
      TowardWithin(Ema(values, period, i - 1), values[i], 2.0 / ((period + 1) as real), low, high);
    }
  }

  ghost predicate IsEma(line: Line, values: seq<real>, period: nat)
    requires period > 0
  {
    |line| == |values| && forall i :: 0 <= i < |values| ==>
      line[i] == if i + 1 >= period then Some(Ema(values, period, i)) else None
  }

  method ExponentialMovingAverage(values: seq<real>, period: int) returns (result: Option<Line>)
    ensures result.None? <==> period <= 0
    ensures result.Some? ==> IsEma(result.value, values, period)
  {
    if period <= 0 {
      return None;
    }
    var multiplier := 2.0 / ((period + 1) as real);
    var line: Line, ema := [], 0.0;
    for i := 0 to |values|
      invariant |line| == i
      invariant i >= period ==> ema == Ema(values, period, i - 1)
      invariant forall k :: 0 <= k < i ==> line[k] == if k + 1 >= period then Some(Ema(values, period, k)) else None
    {
      if i + 1 < period {
        line := line + [None];
      } else {
        if i + 1 == period {
          ema := Mean(values[..period]);
        } else {
          ema := Toward(ema, values[i], multiplier);
        }
        line := line + [Some(ema)];
      }
    }
    result := Some(line);
  }

  // ------------------------------------------------------------------ MACD

  datatype MacdPoint = MacdPoint(macd: real, signal: real, histogram: real)

  /** Fast minus slow average, from the first index on which both exist. */
  function Spread(values: seq<real>, fast: nat, slow: nat): seq<real>
    requires 0 < fast < slow
  {
    seq(if |values| >= slow then |values| - slow + 1 else 0, k requires 0 <= k < |values| - slow + 1 =>
      Ema(values, fast, k + slow - 1) - Ema(values, slow, k + slow - 1))
  }

  /** The signal line averages the spread, `slow - 1` indices earlier than the value it belongs to. */
  ghost predicate IsMacd(points: seq<Option<MacdPoint>>, values: seq<real>, fast: nat, slow: nat, signal: nat)
    requires 0 < fast < slow && signal > 0
  {
    |points| == |values| && forall i :: 0 <= i < |values| ==> MacdAt(points[i], values, fast, slow, signal, i)
  }

  ghost predicate MacdAt(p: Option<MacdPoint>, values: seq<real>, fast: nat, slow: nat, signal: nat, i: nat)
    requires 0 < fast < slow && signal > 0 && i < |values|
  {
    if i < slow + signal - 2 then p.None?
    else
      var m, s := Ema(values, fast, i) - Ema(values, slow, i), Ema(Spread(values, fast, slow), signal, i - (slow - 1));
      p == Some(MacdPoint(m, s, m - s))
  }

  /** `[value for value in line if value is not None]`. */
  function Compact(line: Line): seq<real>
  {
    if line == [] then []
    else Compact(line[..|line| - 1]) + (if line[|line| - 1].Some? then [line[|line| - 1].value] else [])
  }

  /** The pointwise difference of two lines, where both are defined. */
  method Difference(fast: Line, slow: Line) returns (line: Line)
    requires |fast| == |slow|
    ensures |line| == |fast|
    ensures forall i :: 0 <= i < |line| ==>
      line[i] == if fast[i].Some? && slow[i].Some? then Some(fast[i].value - slow[i].value) else None
  {
    line := [];
    for i := 0 to |fast|
      invariant |line| == i
      invariant forall k :: 0 <= k < i ==>
        line[k] == if fast[k].Some? && slow[k].Some? then Some(fast[k].value - slow[k].value) else None
    {
      line := line + [if fast[i].Some? && slow[i].Some? then Some(fast[i].value - slow[i].value) else None];
    }
  }

  /** A line that is defined exactly from index `from` on. */
  ghost predicate StartsAt(line: Line, from: nat, values: seq<real>)
  {
    && |values| == (if |line| >= from then |line| - from else 0)
    && forall i :: 0 <= i < |line| ==> line[i] == if i < from then None else Some(values[i - from])
  }

  lemma {:induction false} CompactStartsAt(line: Line, from: nat, values: seq<real>)
    requires StartsAt(line, from, values)
    ensures Compact(line) == values
  {
    if line != [] {
      var init := line[..|line| - 1];
      CompactStartsAt(init, from, if |line| > from then values[..|values| - 1] else values);
    }
  }

  /** Put a compact line back at the indices on which `line` is defined. */
  method Realign(line: Line, compact: Line, from: nat, ghost values: seq<real>) returns (result: Line)
    requires StartsAt(line, from, values) && |compact| == |values|
    ensures |result| == |line|
    ensures forall i :: 0 <= i < |line| ==> result[i] == if i < from then None else compact[i - from]
  {
    result := [];
    var next := 0;
    for i := 0 to |line|
      invariant |result| == i && next == (if i > from then i - from else 0)
      invariant forall k :: 0 <= k < i ==> result[k] == if k < from then None else compact[k - from]
    {
      if line[i].None? {
        result := result + [None];
      } else {
        result := result + [compact[next]];
        next := next + 1;
      }
    }
  }

  /** The spread of the two averages, as a line. */
  method MacdLine(values: seq<real>, fast: nat, slow: nat) returns (line: Line)
    requires 0 < fast < slow
    ensures |line| == |values| && StartsAt(line, slow - 1, Spread(values, fast, slow))
  {
    var f := ExponentialMovingAverage(values, fast);
    var s := ExponentialMovingAverage(values, slow);
    line := Difference(f.value, s.value);
  }

  /** The spread's average, moved back to the indices the spread has in the closes. */
  method SignalLine(line: Line, from: nat, signal: nat, ghost spread: seq<real>) returns (signals: Line)
    requires signal > 0 && StartsAt(line, from, spread)
    ensures |signals| == |line|
    ensures forall i :: 0 <= i < |line| ==>
      signals[i] == if i >= from + signal - 1 then Some(Ema(spread, signal, i - from)) else None
  {
    CompactStartsAt(line, from, spread);
    var smoothed := ExponentialMovingAverage(Compact(line), signal);
    signals := Realign(line, smoothed.value, from, spread);
  }

  /** Points exist exactly from index `slow + signal - 2` on, aligned with the closes; None reports invalid periods. */
  method Macd(values: seq<real>, fast: int, slow: int, signal: int) returns (result: Option<seq<Option<MacdPoint>>>)
    ensures result.None? <==> fast <= 0 || slow <= 0 || signal <= 0 || fast >= slow
    ensures result.Some? ==> IsMacd(result.value, values, fast, slow, signal)
  {
    if fast <= 0 || slow <= 0 || signal <= 0 || fast >= slow {
      return None;
    }
    var line := MacdLine(values, fast, slow);
    var signals := SignalLine(line, slow - 1, signal, Spread(values, fast, slow));
    var points: seq<Option<MacdPoint>> := [];
    for i := 0 to |values|
      invariant |points| == i
      invariant forall k :: 0 <= k < i ==> MacdAt(points[k], values, fast, slow, signal, k)
    {
      var point := if line[i].None? || signals[i].None? then None
                   else Some(MacdPoint(line[i].value, signals[i].value, line[i].value - signals[i].value));
      assert MacdAt(point, values, fast, slow, signal, i);
      points := points + [point];
    }
    result := Some(points);
  }

  // ------------------------------------------------------------------ Wilder averages: ATR and RSI

  function WilderNext(average: real, x: real, period: nat): real
    requires period > 0
  {
    (average * ((period - 1) as real) + x) / (period as real)
  }

  /** The mean of the first `period` values, then each further value enters with weight 1/period. */
  function Wilder(values: seq<real>, period: nat, i: nat): real
    requires period > 0 && period - 1 <= i < |values|
  {
    if i == period - 1 then Mean(values[..period])
    else WilderNext(Wilder(values, period, i - 1), values[i], period)
  }

  /** Each value enters with weight 1 of period. */
  lemma WilderSteps(values: seq<real>, period: nat, i: nat)
    requires period > 0 && period <= i < |values|
    ensures Times(period as real, Wilder(values, period, i)) ==
      values[i] + Times((period - 1) as real, Wilder(values, period, i - 1))
  {
    Scaled(period as real, Wilder(values, period, i - 1) * ((period - 1) as real) + values[i]);
  }

  lemma Scaled(n: real, x: real)
    requires n > 0.0
    ensures Times(n, x / n) == x
  {
  }

  lemma WilderNextWithin(average: real, x: real, period: nat, low: real, high: real)
    requires period > 0 && low <= average <= high && low <= x <= high
    ensures low <= WilderNext(average, x, period) <= high
  {
    var p := period as real;
    assert WilderNext(average, x, period) == (Times(p - 1.0, average) + x) / p;
    WeightedWithin(p, average, x, low, high);
  }

  lemma WeightedWithin(p: real, average: real, x: real, low: real, high: real)
    requires p >= 1.0 && low <= average <= high && low <= x <= high
    ensures low <= (Times(p - 1.0, average) + x) / p <= high
  {
    TimesOrder(p - 1.0, low, average);
    TimesOrder(p - 1.0, average, high);
    TimesSum(p - 1.0, 1.0, low);
    TimesSum(p - 1.0, 1.0, high);
    assert Times(1.0, low) == low && Times(1.0, high) == high;
    Between(p, Times(p - 1.0, average) + x, low, high);
  }

  lemma {:induction false} WilderWithin(values: seq<real>, period: nat, i: nat, low: real, high: real)
    requires period > 0 && period - 1 <= i < |values|
    requires forall k :: 0 <= k <= i ==> low <= values[k] <= high
    ensures low <= Wilder(values, period, i) <= high
  {
    if i == period - 1 {
      MeanWithin(values[..period], low, high);
    } else {
      WilderWithin(values, period, i - 1, low, high);
      WilderNextWithin(Wilder(values, period, i - 1), values[i], period, low, high);
    }
  }

  /** The range of a candle, widened to the previous close if there is one. */
  function TrueRange(candles: seq<Candle>, i: nat): real
    requires i < |candles|
  {
    var c := candles[i];
    if i == 0 then c.high - c.low
    else Max(Max(c.high - c.low, Abs(c.high - candles[i - 1].close)), Abs(c.low - candles[i - 1].close))
  }

  /** It is the distance the price covers: from the previous close through the candle. */
  lemma TrueRangeCovers(candles: seq<Candle>, i: nat)
    requires i < |candles| && candles[i].WellFormed()
    ensures var c := candles[i];
      TrueRange(candles, i) ==
        if i == 0 then c.high - c.low else Max(c.high, candles[i - 1].close) - Min(c.low, candles[i - 1].close)
  {
  }

  function TrueRanges(candles: seq<Candle>): seq<real>
  {
    seq(|candles|, i requires 0 <= i < |candles| => TrueRange(candles, i))
  }

  ghost predicate IsWilder(line: Line, values: seq<real>, period: nat, n: nat)
    requires period > 0
  {
    |line| == |values| && forall i :: 0 <= i < |values| ==>
      line[i] == if period <= i + 1 <= n then Some(Wilder(values, period, i)) else None
  }

  lemma WilderExtends(line: Line, values: seq<real>, period: nat, n: nat)
    requires period > 0 && period - 1 <= n < |values| && IsWilder(line, values, period, n)
    ensures IsWilder(line[n := Some(Wilder(values, period, n))], values, period, n + 1)
  {
  }

  /** The loop of `average_true_range` over the true ranges. */
  method WilderLine(values: seq<real>, period: nat) returns (line: Line)
    requires period > 0
    ensures IsWilder(line, values, period, |values|)
  {
    line := seq(|values|, i => None);
    if |values| < period {
      return;
    }
    var average := Mean(values[..period]);
    WilderExtends(line, values, period, period - 1);
    line := line[period - 1 := Some(average)];
    for i := period to |values|
      invariant average == Wilder(values, period, i - 1) && IsWilder(line, values, period, i)
    {
      average := WilderNext(average, values[i], period);
      WilderExtends(line, values, period, i);
      line := line[i := Some(average)];
    }
  }

  method AverageTrueRange(candles: seq<Candle>, period: int) returns (result: Option<Line>)
    ensures result.None? <==> period <= 0
    ensures result.Some? ==> |result.value| == |candles| && forall i :: 0 <= i < |candles| ==>
      result.value[i] == if i + 1 >= period then Some(Wilder(TrueRanges(candles), period, i)) else None
  {
    if period <= 0 {
      return None;
    }
    var ranges := CollectTrueRanges(candles);
    var line := WilderLine(ranges, period);
    result := Some(line);
  }

  method CollectTrueRanges(candles: seq<Candle>) returns (ranges: seq<real>)
    ensures ranges == TrueRanges(candles)
  {
    ranges := [];
    var previousClose: Option<real> := None;
    for i := 0 to |candles|
      invariant |ranges| == i && (previousClose == if i == 0 then None else Some(candles[i - 1].close))
      invariant forall k :: 0 <= k < i ==> ranges[k] == TrueRange(candles, k)
    {
      var c := candles[i];
      var range := if previousClose.None? then c.high - c.low
                   else Max(Max(c.high - c.low, Abs(c.high - previousClose.value)), Abs(c.low - previousClose.value));
      ranges := ranges + [range];
      previousClose := Some(c.close);
    }
  }

  /** On well-formed candles the average true range is never negative. */
  lemma AtrNonNegative(candles: seq<Candle>, period: nat, i: nat)
    requires period > 0 && period - 1 <= i < |candles| && forall c :: c in candles ==> c.WellFormed()
    ensures Wilder(TrueRanges(candles), period, i) >= 0.0
  {
    var ranges := TrueRanges(candles);
    var top := Highest(ranges[..i + 1]);
    forall k | 0 <= k <= i ensures 0.0 <= ranges[k] <= top {
      assert candles[k] in candles;
      assert ranges[..i + 1][k] in ranges[..i + 1];
      HighestBounds(ranges[..i + 1], ranges[k]);
    }
    WilderWithin(ranges, period, i, 0.0, top);
  }

  function Highest(s: seq<real>): real
    requires s != []
  {
    if |s| == 1 then s[0] else Max(Highest(s[..|s| - 1]), s[|s| - 1])
  }

  lemma {:induction false} HighestBounds(s: seq<real>, x: real)
    requires s != [] && x in s
    ensures x <= Highest(s)
  {
    if |s| > 1 && x != s[|s| - 1] {
      var init := s[..|s| - 1];
      assert s == init + [s[|s| - 1]];
      HighestBounds(init, x);
    }
  }

  function Gain(closes: seq<real>, i: nat): real
    requires 0 < i < |closes|
  {
    Max(closes[i] - closes[i - 1], 0.0)
  }

  function Loss(closes: seq<real>, i: nat): real
    requires 0 < i < |closes|
  {
    Abs(Min(closes[i] - closes[i - 1], 0.0))
  }

  function Gains(closes: seq<real>): seq<real>
  {
    seq(if closes == [] then 0 else |closes| - 1, i requires 0 <= i < |closes| - 1 => Gain(closes, i + 1))
  }

  function Losses(closes: seq<real>): seq<real>
  {
    seq(if closes == [] then 0 else |closes| - 1, i requires 0 <= i < |closes| - 1 => Loss(closes, i + 1))
  }

  function RsiFromAverages(gain: real, loss: real): real
    requires gain >= 0.0 && loss >= 0.0
  {
    if gain == 0.0 && loss == 0.0 then 50.0
    else if loss == 0.0 then 100.0
    else 100.0 - 100.0 / (1.0 + gain / loss)
  }

  /**
   * RSI lies in [0, 100]; it is above 50 exactly when gains outweigh losses, and at the ends when one side is absent.
   */
  lemma RsiMeaning(gain: real, loss: real)
    requires gain >= 0.0 && loss >= 0.0
    ensures var r := RsiFromAverages(gain, loss);
      && 0.0 <= r <= 100.0 && (r > 50.0 <==> gain > loss) && (r < 50.0 <==> gain < loss)
      && (r == 0.0 <==> gain == 0.0 < loss) && (r == 100.0 <==> loss == 0.0 < gain)
  {
    if loss > 0.0 {
      var q := gain / loss;
      assert Times(loss, q) == gain;
      assert q >= 0.0 && (q > 1.0 <==> gain > loss) && (q < 1.0 <==> gain < loss) && (q == 0.0 <==> gain == 0.0) by {
        Scale(loss, q);
      }
      Share(q);
    }
  }

  /** It is the gains' share of all movement, in percent; without any movement it is 50. */
  lemma RsiIsShare(gain: real, loss: real)
    requires gain >= 0.0 && loss >= 0.0
    ensures Times(gain + loss, RsiFromAverages(gain, loss)) == Times(gain, 100.0)
    ensures gain + loss == 0.0 ==> RsiFromAverages(gain, loss) == 50.0
  {
    if loss > 0.0 { Quotient(gain, loss); }
  }

  lemma Quotient(gain: real, loss: real)
    requires gain >= 0.0 && loss > 0.0
    ensures Times(gain + loss, 100.0 - 100.0 / (1.0 + gain / loss)) == Times(gain, 100.0)
  {
    var q := gain / loss;
    assert q * loss == gain;
    var x := 100.0 / (1.0 + q);
    if q < 0.0 { TimesStrict(loss, q, 0.0); }
    assert x * (1.0 + q) == 100.0;
    assert (gain + loss) * x == loss * (x * (1.0 + q));
  }

  /** A change is its gain less its loss, and one of them is zero. */
  lemma ChangeSplits(closes: seq<real>, i: nat)
    requires 0 < i < |closes|
    ensures Gain(closes, i) - Loss(closes, i) == closes[i] - closes[i - 1]
    ensures Gain(closes, i) >= 0.0 && Loss(closes, i) >= 0.0 && (Gain(closes, i) == 0.0 || Loss(closes, i) == 0.0)
  {
  }

  lemma Scale(n: real, q: real)
    requires n > 0.0
    ensures Times(n, q) >= 0.0 ==> q >= 0.0
    ensures (q > 1.0 <==> Times(n, q) > n) && (q < 1.0 <==> Times(n, q) < n) && (q == 0.0 <==> Times(n, q) == 0.0)
  {
    if q < 0.0 { TimesStrict(n, q, 0.0); }
    if q > 0.0 { TimesStrict(n, 0.0, q); }
    if q > 1.0 { TimesStrict(n, 1.0, q); }
    if q < 1.0 { TimesStrict(n, q, 1.0); }
  }

  lemma Share(q: real)
    requires q >= 0.0
    ensures var x := 100.0 / (1.0 + q);
      0.0 < x <= 100.0 && (x < 50.0 <==> q > 1.0) && (x > 50.0 <==> q < 1.0) && (x == 100.0 <==> q == 0.0)
  {
    var x, n := 100.0 / (1.0 + q), 1.0 + q;
    assert Times(n, x) == 100.0;
    if x <= 0.0 { TimesOrder(n, x, 0.0); }
    if x < 50.0 { TimesStrict(n, x, 50.0); }
    if x > 50.0 { TimesStrict(n, 50.0, x); }
    if x < 100.0 { TimesStrict(n, x, 100.0); }
    if x > 100.0 { TimesStrict(n, 100.0, x); }
  }

  /** The RSI at an index of the closes. */
  ghost predicate RsiAt(r: Option<real>, closes: seq<real>, period: nat, i: nat)
    requires period > 0 && i < |closes|
  {
    if i < period then r.None?
    else
      var gain, loss := Wilder(Gains(closes), period, i - 1), Wilder(Losses(closes), period, i - 1);
      gain >= 0.0 && loss >= 0.0 && r == Some(RsiFromAverages(gain, loss))
  }

  lemma {:induction false} WilderNonNegative(values: seq<real>, period: nat, i: nat)
    requires period > 0 && period - 1 <= i < |values| && forall k :: 0 <= k < |values| ==> values[k] >= 0.0
    ensures Wilder(values, period, i) >= 0.0
  {
    var top := Highest(values[..i + 1]);
    forall k | 0 <= k <= i ensures 0.0 <= values[k] <= top {
      assert values[..i + 1][k] in values[..i + 1];
      HighestBounds(values[..i + 1], values[k]);
    }
    WilderWithin(values, period, i, 0.0, top);
  }

  method Changes(closes: seq<real>) returns (gains: seq<real>, losses: seq<real>)
    ensures gains == Gains(closes) && losses == Losses(closes)
  {
    gains, losses := [], [];
    var i := 1;
    while i < |closes|
      invariant |gains| == |losses| == i - 1 && (i <= |closes| || (i == 1 && closes == []))
      invariant forall k :: 0 <= k < i - 1 ==> gains[k] == Gain(closes, k + 1) && losses[k] == Loss(closes, k + 1)
    {
      var change := closes[i] - closes[i - 1];
      gains := gains + [Max(change, 0.0)];
      losses := losses + [Abs(Min(change, 0.0))];
      i := i + 1;
    }
  }

  /** RSI from the Wilder averages of gains and losses; with `RsiMeaning`, always within [0, 100]. */
  method RelativeStrengthIndex(closes: seq<real>, period: int) returns (result: Option<Line>)
    ensures result.None? <==> period <= 0
    ensures result.Some? ==>
      |result.value| == |closes| && forall i :: 0 <= i < |closes| ==> RsiAt(result.value[i], closes, period, i)
  {
    if period <= 0 {
      return None;
    }
    if |closes| < 2 {
      return Some(seq(|closes|, i => None));
    }
    var gains, losses := Changes(closes);
    var line: Line, gain, loss := [], 0.0, 0.0;
    for i := 0 to |closes|
      invariant |line| == i
      invariant i > period ==> gain == Wilder(gains, period, i - 2) && loss == Wilder(losses, period, i - 2)
      invariant forall k :: 0 <= k < i ==> RsiAt(line[k], closes, period, k)
    {
      if i < period {
        line := line + [None];
      } else {
        if i == period {
          gain, loss := Mean(gains[..period]), Mean(losses[..period]);
        } else {
          gain, loss := WilderNext(gain, gains[i - 1], period), WilderNext(loss, losses[i - 1], period);
        }
        WilderNonNegative(gains, period, i - 1);
        WilderNonNegative(losses, period, i - 1);
        var r: Option<real> := Some(RsiFromAverages(gain, loss));
        assert RsiAt(r, closes, period, i);
        line := line + [r];
      }
    }
    result := Some(line);
  }
}
