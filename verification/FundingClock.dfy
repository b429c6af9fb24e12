/** When the backtest charges funding (`_funding_boundary_ms`). */
module FundingClock {
  import opened Market

  const HOUR_MS := 3_600_000

  /** The candle closes just before a multiple of the funding interval. */
  predicate AtBoundary(c: Candle, hours: int)
  {
    hours > 0 && (c.closeTime + 1) % (hours * HOUR_MS) == 0
  }

  /** Boundaries are so many hours apart, counted from midnight UTC of the first day. */
  lemma BoundaryIsMultiple(c: Candle, hours: int)
    requires hours > 0
    ensures AtBoundary(c, hours) <==> exists k: int :: c.closeTime + 1 == k * (hours * (60 * 60 * 1000))
  {
    var y := hours * (60 * 60 * 1000);
    var q, r := (c.closeTime + 1) / y, (c.closeTime + 1) % y;
    assert c.closeTime + 1 == q * y + r;
    if r == 0 { assert c.closeTime + 1 == q * y; }
    forall k: int | c.closeTime + 1 == k * y ensures r == 0 {
      Unique(k, 0, q, r, y);
    }
  }

  /** How many of the candles are charged. */
  function Boundaries(candles: seq<Candle>, hours: int): nat
  {
    if candles == [] then 0
    else Boundaries(candles[..|candles| - 1], hours) + (if AtBoundary(candles[|candles| - 1], hours) then 1 else 0)
  }

  /** Candles of any lengths, each opening where the last one closed. */
  ghost predicate Adjacent(candles: seq<Candle>)
  {
    && (forall i :: 0 <= i < |candles| ==> candles[i].openTime <= candles[i].closeTime)
    && forall i, j :: 0 <= i < j < |candles| && j == i + 1 ==> candles[j].openTime == candles[i].closeTime + 1
  }

  /** Aligned candles of one length, each opening where the last one closed. */
  ghost predicate Contiguous(candles: seq<Candle>, length: int)
  {
    && length > 0 && Adjacent(candles)
    && forall i :: 0 <= i < |candles| ==>
         candles[i].openTime % length == 0 && candles[i].closeTime + 1 == candles[i].openTime + length
  }

  /** The candle opens and closes within one funding period. */
  predicate InOnePeriod(c: Candle, hours: int)
    requires hours > 0
  {
    c.openTime / (hours * HOUR_MS) == c.closeTime / (hours * HOUR_MS)
  }

  /** Funding boundaries from the first open to just after the last close. */
  function Covered(candles: seq<Candle>, hours: int): int
    requires candles != [] && hours > 0
  {
    (candles[|candles| - 1].closeTime + 1) / (hours * HOUR_MS) - candles[0].openTime / (hours * HOUR_MS)
  }

  lemma AtLeastOnce(k: int, y: int)
    requires y > 0
    ensures k >= 1 ==> k * y >= y
    ensures k <= -1 ==> k * y <= -y
  {
    if k >= 1 { assert (k - 1) * y >= 0; }
    if k <= -1 { assert (-k - 1) * y >= 0; }
  }

  /** A quotient with a remainder in range is the quotient. */
  lemma Unique(p: int, s: int, q: int, r: int, y: int)
    requires p * y + s == q * y + r && 0 <= s < y && 0 <= r < y
    ensures p == q && s == r
  {
    assert (p - q) * y == r - s;
    AtLeastOnce(p - q, y);
  }

  lemma Quotient(x: int, y: int, q: int, r: int)
    requires y > 0 && x == q * y + r && 0 <= r < y
    ensures x / y == q && x % y == r
  {
    Unique(x / y, x % y, q, r, y);
  }

  lemma Split(k: int, length: int, parts: int, q: int, r: int)
    requires k == q * parts + r && 0 <= r < parts && length > 0
    ensures k * length == q * (length * parts) + r * length
    ensures 0 <= r * length && r * length + length <= length * parts
    ensures r + 1 < parts ==> r * length + length < length * parts
    ensures r + 1 == parts ==> k * length + length == (q + 1) * (length * parts)
  {
    assert (q * parts + r) * length == q * (length * parts) + r * length;
    AtLeastOnce(parts - r, length);
    AtLeastOnce(parts - r - 1, length);
    assert (parts - r) * length == length * parts - r * length;
    assert (parts - r - 1) * length == length * parts - r * length - length;
    assert (q + 1) * (length * parts) == q * (length * parts) + length * parts;
  }

  /** The millisecond after `x` starts a new period exactly when it is a multiple of the period. */
  lemma NextPeriod(x: int, period: int)
    requires period > 0
    ensures (x + 1) / period == x / period + (if (x + 1) % period == 0 then 1 else 0)
  {
    var q, r := x / period, x % period;
    assert x == q * period + r;
    if r + 1 == period {
      assert x + 1 == (q + 1) * period;
      Quotient(x + 1, period, q + 1, 0);
    } else {
      Quotient(x + 1, period, q, r + 1);
    }
  }

  lemma PeriodsFollow(x: int, y: int, period: int)
    requires period > 0 && x <= y
    ensures x / period <= y / period
  {
    var p, q := x / period, y / period;
    assert x == p * period + x % period && y == q * period + y % period;
    AtLeastOnce(p - q, period);
    assert (p - q) * period == p * period - q * period;
  }

  /**
   * On adjacent candles of any lengths no funding boundary is charged twice, and none is
   * missed if and only if no candle straddles one.
   */
  lemma {:induction false} FundingOncePerBoundary(candles: seq<Candle>, hours: int)
    requires candles != [] && Adjacent(candles) && hours > 0
    ensures Boundaries(candles, hours) <= Covered(candles, hours)
    ensures Boundaries(candles, hours) == Covered(candles, hours) <==>
      forall i :: 0 <= i < |candles| ==> InOnePeriod(candles[i], hours)
  {
    var last, period := candles[|candles| - 1], hours * HOUR_MS;
    NextPeriod(last.closeTime, period);
    PeriodsFollow(last.openTime, last.closeTime, period);
    var init := candles[..|candles| - 1];
    if init == [] {
      assert Boundaries(candles, hours) == if AtBoundary(last, hours) then 1 else 0;
    } else {
      FundingOncePerBoundary(init, hours);
      assert candles[|candles| - 1].openTime == candles[|candles| - 2].closeTime + 1;
      assert forall i :: 0 <= i < |candles| ==> candles[i] == if i < |init| then init[i] else last;
    }
  }

  /** An aligned candle whose length divides the period stays within one. */
  lemma AlignedInOnePeriod(c: Candle, length: int, parts: int, hours: int)
    requires length > 0 && parts > 0 && hours > 0 && hours * HOUR_MS == length * parts
    requires c.openTime % length == 0 && c.closeTime + 1 == c.openTime + length
    ensures InOnePeriod(c, hours)
  {
    var period := length * parts;
    var k := c.openTime / length;
    var q, r := k / parts, k % parts;
    Split(k, length, parts, q, r);
    assert c.openTime == k * length;
    Quotient(c.openTime, period, q, r * length);
    Quotient(c.closeTime, period, q, r * length + length - 1);
  }

  /** So aligned contiguous candles whose length divides the period miss nothing. */
  lemma AlignedFundedOnce(candles: seq<Candle>, length: int, parts: int, hours: int)
    requires candles != [] && Contiguous(candles, length)
    requires hours > 0 && parts > 0 && hours * HOUR_MS == length * parts
    ensures Boundaries(candles, hours) == Covered(candles, hours)
  {
    forall i | 0 <= i < |candles| ensures InOnePeriod(candles[i], hours) {
      AlignedInOnePeriod(candles[i], length, parts, hours);
    }
    FundingOncePerBoundary(candles, hours);
  }

  /** A five-hour candle straddles the four-hour boundary, which is missed. */
  lemma BoundaryMissed(c: Candle)
    requires c.openTime == 0 && c.closeTime == 5 * HOUR_MS - 1
    ensures !InOnePeriod(c, 4) && Boundaries([c], 4) == 0 && Covered([c], 4) == 1
  {
    assert [c][..0] == [];
  }
}
