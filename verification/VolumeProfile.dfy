/** How much volume traded at which price (`volume_profile` in `app/data/indicators.py`). */
module VolumeProfile {
  import opened Common
  import opened Market
  import opened Sums

  datatype Bin = Bin(low: real, high: real, volume: real)

  function LowestLow(candles: seq<Candle>): real
    requires candles != []
  {
    if |candles| == 1 then candles[0].low else Min(LowestLow(candles[..|candles| - 1]), candles[|candles| - 1].low)
  }

  function HighestHigh(candles: seq<Candle>): real
    requires candles != []
  {
    if |candles| == 1 then candles[0].high else Max(HighestHigh(candles[..|candles| - 1]), candles[|candles| - 1].high)
  }

  lemma {:induction false} RangeCovers(candles: seq<Candle>, c: Candle)
    requires c in candles
    ensures LowestLow(candles) <= c.low && c.high <= HighestHigh(candles)
  {
    if |candles| > 1 && c != candles[|candles| - 1] {
      assert candles == candles[..|candles| - 1] + [candles[|candles| - 1]];
      RangeCovers(candles[..|candles| - 1], c);
    }
  }

  function TotalVolume(candles: seq<Candle>): real
  {
    if candles == [] then 0.0 else TotalVolume(candles[..|candles| - 1]) + candles[|candles| - 1].volume
  }

  /** `min(max(int((price - lowest) / step), 0), bins - 1)`. */
  function BinIndex(price: real, lowest: real, step: real, bins: nat): (k: nat)
    requires step != 0.0 && bins > 0
    ensures k < bins
  {
    var i := Truncate((price - lowest) / step);
    if i < 0 then 0 else if i > bins - 1 then bins - 1 else i
  }

  /** The volume of the candles whose typical price belongs to bin `k`. */
  function VolumeIn(candles: seq<Candle>, lowest: real, step: real, bins: nat, k: nat): real
    requires step != 0.0 && bins > 0
  {
    if candles == [] then 0.0
    else
      var c := candles[|candles| - 1];
      VolumeIn(candles[..|candles| - 1], lowest, step, bins, k)
      + (if BinIndex(c.TypicalPrice(), lowest, step, bins) == k then c.volume else 0.0)
  }

  function Edge(lowest: real, step: real, k: int): real { lowest + step * (k as real) }

  /** A price inside the range belongs to the bin whose edges enclose it; only the top edge belongs to the last bin. */
  lemma BinEncloses(price: real, lowest: real, highest: real, bins: nat)
    requires bins > 0 && lowest < highest && lowest <= price <= highest
    ensures (highest - lowest) / (bins as real) > 0.0
    ensures var step := (highest - lowest) / (bins as real);
      var k := BinIndex(price, lowest, step, bins);
      Edge(lowest, step, k) <= price && (price < Edge(lowest, step, k + 1)
                                         || price == highest == Edge(lowest, step, bins))
  {
    var n, step := bins as real, (highest - lowest) / (bins as real);
    assert Times(n, step) == highest - lowest;
    StepPositive(n, step, highest - lowest);
    var q := (price - lowest) / step;
    assert Times(step, q) == price - lowest;
    QuotientRange(step, q, n, price - lowest, highest - lowest);
    var i := q.Floor;
    assert i as real <= q < (i + 1) as real;
    FloorSteps(step, q, i);
    if i > bins - 1 {
      Whole(q, bins, i);
    }
    TimesOrder(step, (bins - 1) as real, n);
  }

  /** A well-formed candle is counted in the bin around its typical price. */
  lemma CandleInItsBin(candles: seq<Candle>, c: Candle, bins: nat)
    requires bins > 0 && c in candles && c.WellFormed() && LowestLow(candles) < HighestHigh(candles)
    ensures (HighestHigh(candles) - LowestLow(candles)) / (bins as real) > 0.0
    ensures var low, price := LowestLow(candles), c.TypicalPrice();
      && 3.0 * price == c.high + c.low + c.close
      && var step := (HighestHigh(candles) - low) / (bins as real);
      var k := BinIndex(price, low, step, bins);
      Edge(low, step, k) <= price && (price < Edge(low, step, k + 1)
                                      || price == HighestHigh(candles) == Edge(low, step, bins))
  {
    RangeCovers(candles, c);
    BinEncloses(c.TypicalPrice(), LowestLow(candles), HighestHigh(candles), bins);
  }

  lemma StepPositive(n: real, step: real, width: real)
    requires n > 0.0 && width > 0.0 && Times(n, step) == width
    ensures step > 0.0
  {
    if step <= 0.0 { TimesOrder(n, step, 0.0); }
  }

  lemma StepNotZero(n: real, width: real)
    requires n > 0.0 && width != 0.0
    ensures width / n != 0.0
  {
    assert Times(n, width / n) == width;
  }

  lemma QuotientRange(step: real, q: real, n: real, x: real, width: real)
    requires step > 0.0 && Times(step, q) == x && Times(n, step) == width && 0.0 <= x <= width
    ensures 0.0 <= q <= n && (q == n ==> x == width)
  {
    if q < 0.0 { Less(step, q, 0.0); }
    if q > n { Less(step, n, q); }
  }

  lemma Less(n: real, x: real, y: real)
    requires n > 0.0 && x < y
    ensures Times(n, x) < Times(n, y)
  {
  }

  lemma FloorSteps(step: real, q: real, i: int)
    requires step > 0.0 && i as real <= q < (i + 1) as real
    ensures Times(step, i as real) <= Times(step, q) < Times(step, (i + 1) as real)
  {
    TimesOrder(step, i as real, q);
    Less(step, q, (i + 1) as real);
  }

  lemma Whole(q: real, bins: nat, i: int)
    requires i > bins - 1 && i as real <= q <= bins as real
    ensures i == bins && q == bins as real
  {
  }

  lemma {:induction false} AddAt(s: seq<real>, k: nat, x: real)
    requires k < |s|
    ensures SumSeq(s[k := s[k] + x]) == SumSeq(s) + x
  {
    var init, t := s[..|s| - 1], s[k := s[k] + x];
    if k < |s| - 1 {
      AddAt(init, k, x);
      assert t[..|s| - 1] == init[k := init[k] + x];
    } else {
      assert t[..|s| - 1] == init;
    }
  }

  lemma {:induction false} ZeroSum(s: seq<real>)
    requires forall k :: 0 <= k < |s| ==> s[k] == 0.0
    ensures SumSeq(s) == 0.0
  {
    if s != [] { ZeroSum(s[..|s| - 1]); }
  }

  /** The accumulating loop: each bin gets the volume that belongs to it, and none is lost. */
  method Accumulate(candles: seq<Candle>, lowest: real, step: real, bins: nat) returns (volumes: seq<real>)
    requires step != 0.0 && bins > 0
    ensures |volumes| == bins && SumSeq(volumes) == TotalVolume(candles)
    ensures forall k :: 0 <= k < bins ==> volumes[k] == VolumeIn(candles, lowest, step, bins, k)
  {
    volumes := seq(bins, k => 0.0);
    ZeroSum(volumes);
    for n := 0 to |candles|
      invariant |volumes| == bins && SumSeq(volumes) == TotalVolume(candles[..n])
      invariant forall k :: 0 <= k < bins ==> volumes[k] == VolumeIn(candles[..n], lowest, step, bins, k)
    {
      assert candles[..n + 1][..n] == candles[..n];
      var index := BinIndex(candles[n].TypicalPrice(), lowest, step, bins);
      AddAt(volumes, index, candles[n].volume);
      volumes := volumes[index := volumes[index] + candles[n].volume];
    }
    assert candles[..|candles|] == candles;
  }

  function BinVolumes(profile: seq<Bin>): seq<real>
  {
    seq(|profile|, k requires 0 <= k < |profile| => profile[k].volume)
  }

  /** Adjacent bins span the whole price range, each with exactly its own volume, and together with all of it. */
  method Profile(candles: seq<Candle>, bins: int) returns (result: Option<seq<Bin>>)
    ensures result.None? <==> bins <= 0
    ensures result.Some? ==> SumSeq(BinVolumes(result.value)) == TotalVolume(candles)
    ensures result.Some? && candles != [] && HighestHigh(candles) != LowestLow(candles) ==>
      (var low, step := LowestLow(candles), (HighestHigh(candles) - LowestLow(candles)) / (bins as real);
       |result.value| == bins && step != 0.0 && forall k :: 0 <= k < bins ==>
         result.value[k] == Bin(Edge(low, step, k), Edge(low, step, k + 1), VolumeIn(candles, low, step, bins, k)))
  {
    if bins <= 0 {
      return None;
    }
    if candles == [] {
      return Some([]);
    }
    var lowest, highest := LowestLow(candles), HighestHigh(candles);
    if highest == lowest {
      var total := Bin(lowest, highest, TotalVolume(candles));
      assert BinVolumes([total]) == [total.volume];
      assert SumSeq([total.volume]) == total.volume by { SumSeqSnoc([], total.volume);
                                                        assert [] + [total.volume] == [total.volume]; }
      return Some([total]);
    }
    var step := (highest - lowest) / (bins as real);
    StepNotZero(bins as real, highest - lowest);
    var volumes := Accumulate(candles, lowest, step, bins);
    var profile := seq(bins, k requires 0 <= k < |volumes| => Bin(Edge(lowest, step, k), Edge(lowest, step, k + 1),
                                                                  volumes[k]));
    assert BinVolumes(profile) == volumes;
    result := Some(profile);
  }
}
