/** Filling against the visible order book (`_paper_fill_price`, `update_orderbook`). */
module OrderBook {
  import opened Common
  import opened Market
  import Sorting

  function ApplySlippage(price: real, side: Side, pct: real): real
  {
    if pct == 0.0 then price
    else
      var adjustment := price * (pct / 100.0);
      if side.Buy? then price + adjustment else price - adjustment
  }

  /** What a sweep took from the book: quantity and money. */
  datatype Taken = Taken(filled: real, cost: real)

  /** Walk the levels in order, taking as much as is still wanted from each. */
  function Sweep(levels: seq<Level>, wanted: real): Taken
  {
    if levels == [] || wanted <= 0.0 then Taken(0.0, 0.0)
    else
      var take := Min(wanted, levels[0].quantity);
      var rest := Sweep(levels[1..], wanted - take);
      Taken(take + rest.filled, Times(take, levels[0].price) + rest.cost)
  }

  function BookSide(b: Book, side: Side): seq<Level> { if side.Buy? then b.asks else b.bids }

  /** The price per unit a market order is simulated at. */
  function FillPrice(book: Option<Book>, side: Side, quantity: real, base: real, pct: real): real
  {
    var fixed := ApplySlippage(base, side, pct);
    if book.None? || quantity <= 0.0 then fixed
    else
      var t := Sweep(BookSide(book.value, side), quantity);
      if t.filled <= 0.0 then fixed
      else (t.cost + (if quantity - t.filled > 0.0 then Times(quantity - t.filled, fixed) else 0.0)) / quantity
  }

  function Price(l: Level): real { l.price }

  function NegatedPrice(l: Level): real { -l.price }

  function Positive(levels: seq<Level>): seq<Level>
  {
    if levels == [] then []
    else
      var rest := Positive(levels[..|levels| - 1]);
      var l := levels[|levels| - 1];
      if l.price > 0.0 && l.quantity > 0.0 then rest + [l] else rest
  }

  /** The stored book: bad levels dropped, asks ascending, bids descending. */
  function CleanBook(bids: seq<Level>, asks: seq<Level>): Book
  {
    Book(Sorting.Sort(Positive(bids), NegatedPrice), Sorting.Sort(Positive(asks), Price))
  }

  ghost predicate Usable(levels: seq<Level>) { forall l :: l in levels ==> l.price > 0.0 && l.quantity > 0.0 }

  /** Best price first: ascending for a buyer, descending for a seller. */
  ghost predicate BestFirst(levels: seq<Level>, side: Side)
  {
    forall i, j :: 0 <= i < j < |levels| ==>
      if side.Buy? then levels[i].price <= levels[j].price else levels[i].price >= levels[j].price
  }

  lemma {:induction false} PositiveIsUsable(levels: seq<Level>)
    ensures Usable(Positive(levels))
    ensures forall l :: l in levels && l.price > 0.0 && l.quantity > 0.0 ==> l in Positive(levels)
  {
    if levels != [] {
      PositiveIsUsable(levels[..|levels| - 1]);
      assert levels == levels[..|levels| - 1] + [levels[|levels| - 1]];
    }
  }

  /** Every stored book meets what the sweep theorems below assume. */
  lemma CleanBookIsSwept(bids: seq<Level>, asks: seq<Level>, side: Side)
    ensures var levels := BookSide(CleanBook(bids, asks), side);
            Usable(levels) && BestFirst(levels, side)
  {
    PositiveIsUsable(bids);
    PositiveIsUsable(asks);
    Sorting.SortSorts(Positive(bids), NegatedPrice);
    Sorting.SortSorts(Positive(asks), Price);
    Sorting.SortEntries(Positive(bids), NegatedPrice);
    Sorting.SortEntries(Positive(asks), Price);
    var b := CleanBook(bids, asks);
    forall l | l in b.bids ensures l.price > 0.0 && l.quantity > 0.0 {
      assert l in Positive(bids);
    }
    forall l | l in b.asks ensures l.price > 0.0 && l.quantity > 0.0 {
      assert l in Positive(asks);
    }
    forall i, j | 0 <= i < j < |b.bids| ensures b.bids[i].price >= b.bids[j].price {
      assert NegatedPrice(b.bids[i]) <= NegatedPrice(b.bids[j]);
    }
    forall i, j | 0 <= i < j < |b.asks| ensures b.asks[i].price <= b.asks[j].price {
      assert Price(b.asks[i]) <= Price(b.asks[j]);
    }
  }

  lemma {:induction false} PositiveCounts(levels: seq<Level>, l: Level)
    ensures multiset(Positive(levels))[l] == if l.price > 0.0 && l.quantity > 0.0 then multiset(levels)[l] else 0
  {
    if levels != [] {
      assert levels == levels[..|levels| - 1] + [levels[|levels| - 1]];
      PositiveCounts(levels[..|levels| - 1], l);
    }
  }

  /** And it keeps every usable level that arrived, as often as it arrived. */
  lemma CleanBookKeeps(bids: seq<Level>, asks: seq<Level>, l: Level)
    ensures var b, n := CleanBook(bids, asks), if l.price > 0.0 && l.quantity > 0.0 then 1 else 0;
      multiset(b.bids)[l] == n * multiset(bids)[l] && multiset(b.asks)[l] == n * multiset(asks)[l]
  {
    PositiveCounts(bids, l);
    PositiveCounts(asks, l);
    Sorting.SortKeeps(Positive(bids), NegatedPrice);
    Sorting.SortKeeps(Positive(asks), Price);
  }

  function Depth(levels: seq<Level>): real
  {
    if levels == [] then 0.0 else levels[0].quantity + Depth(levels[1..])
  }

  /** Any way of splitting an order over the levels. */
  ghost predicate Allocation(levels: seq<Level>, alloc: seq<real>)
  {
    |alloc| == |levels| && forall i :: 0 <= i < |alloc| ==> 0.0 <= alloc[i] <= levels[i].quantity
  }

  function Total(alloc: seq<real>): real { if alloc == [] then 0.0 else alloc[0] + Total(alloc[1..]) }

  /** Money paid (buyer) or received (seller) for an allocation. */
  function Cost(levels: seq<Level>, alloc: seq<real>): real
    requires |alloc| == |levels|
  {
    if levels == [] then 0.0 else Times(alloc[0], levels[0].price) + Cost(levels[1..], alloc[1..])
  }

  /** How bad a price is for the trader: high for a buyer, low for a seller. */
  function Badness(price: real, side: Side): real { if side.Buy? then price else -price }

  /** The sweep fills the order exactly when the book is deep enough, and never overfills. */
  lemma {:induction false} SweepFills(levels: seq<Level>, wanted: real)
    requires Usable(levels) && wanted >= 0.0
    ensures Sweep(levels, wanted).filled == Min(wanted, Depth(levels))
    ensures Depth(levels) >= 0.0
  {
    if levels != [] {
      var take := Min(wanted, levels[0].quantity);
      SweepFills(levels[1..], wanted - take);
    }
  }

  /** The sweep is itself one of the allocations. */
  lemma {:induction false} SweepIsAllocation(levels: seq<Level>, wanted: real) returns (alloc: seq<real>)
    requires Usable(levels) && wanted >= 0.0
    ensures Allocation(levels, alloc)
    ensures Total(alloc) == Sweep(levels, wanted).filled
    ensures Cost(levels, alloc) == Sweep(levels, wanted).cost
  {
    if levels == [] {
      alloc := [];
    } else {
      var take := if wanted <= 0.0 then 0.0 else Min(wanted, levels[0].quantity);
      var rest := SweepIsAllocation(levels[1..], wanted - take);
      alloc := [take] + rest;
      assert alloc[1..] == rest;
    }
  }

  /** Every level of the list is at least as bad as `best`. */
  ghost predicate NoBetter(levels: seq<Level>, best: real, side: Side)
  {
    forall l :: l in levels ==> Badness(best, side) <= Badness(l.price, side)
  }

  lemma TailNoBetter(levels: seq<Level>, side: Side)
    requires levels != [] && BestFirst(levels, side)
    ensures NoBetter(levels[1..], levels[0].price, side) && BestFirst(levels[1..], side)
  {
    forall l | l in levels[1..] ensures Badness(levels[0].price, side) <= Badness(l.price, side) {
      var i :| 0 <= i < |levels[1..]| && levels[1..][i] == l;
      assert levels[i + 1] == l;
    }
  }

  /** `n` units at a worse price are worse in money. */
  lemma WorseTimes(n: real, good: real, bad: real, side: Side)
    requires n >= 0.0 && Badness(good, side) <= Badness(bad, side)
    ensures Badness(Times(n, good), side) <= Badness(Times(n, bad), side)
  {
    if side.Buy? { TimesOrder(n, good, bad); } else { TimesOrder(n, bad, good); }
  }

  lemma {:induction false} TotalNonNegative(levels: seq<Level>, alloc: seq<real>)
    requires Allocation(levels, alloc)
    ensures Total(alloc) >= 0.0
  {
    if levels != [] { TotalNonNegative(levels[1..], alloc[1..]); }
  }

  /**
   * The exchange argument: taking `d` units out of an allocation saves the trader at
   * most what those units would cost at a price no level beats.
   */
  lemma {:induction false} TrimTail(levels: seq<Level>, alloc: seq<real>, d: real, side: Side, best: real)
    returns (trimmed: seq<real>)
    requires Allocation(levels, alloc) && 0.0 <= d <= Total(alloc) && NoBetter(levels, best, side)
    ensures Allocation(levels, trimmed) && Total(trimmed) == Total(alloc) - d
    ensures Badness(Cost(levels, trimmed), side) + Badness(Times(d, best), side) <= Badness(Cost(levels, alloc), side)
  {
    if levels == [] {
      trimmed := [];
    } else {
      TotalNonNegative(levels[1..], alloc[1..]);
      var a, p := alloc[0], levels[0].price;
      var cut := Min(a, d);
      assert NoBetter(levels[1..], best, side) by {
        assert forall l :: l in levels[1..] ==> l in levels;
      }
      var rest := TrimTail(levels[1..], alloc[1..], d - cut, side, best);
      trimmed := [a - cut] + rest;
      assert trimmed[1..] == rest;
      assert levels[0] in levels;
      TimesSum(a - cut, cut, p);
      TimesSum(cut, d - cut, best);
      WorseTimes(cut, best, p, side);
    }
  }

  /** No way of filling the order is better than the greedy sweep. */
  lemma {:induction false} SweepIsOptimal(levels: seq<Level>, side: Side, wanted: real, alloc: seq<real>)
    requires Usable(levels) && BestFirst(levels, side)
    requires Allocation(levels, alloc) && Total(alloc) == wanted
    ensures Badness(Sweep(levels, wanted).cost, side) <= Badness(Cost(levels, alloc), side)
  {
    if levels != [] {
      var p, tail := levels[0].price, levels[1..];
      TailNoBetter(levels, side);
      TotalNonNegative(tail, alloc[1..]);
      var take := Min(wanted, levels[0].quantity);
      var rest := TrimTail(tail, alloc[1..], take - alloc[0], side, p);
      TimesSum(alloc[0], take - alloc[0], p);
      if wanted <= 0.0 {
        SweepNothing(tail, rest, side);
      } else {
        SweepIsOptimal(tail, side, wanted - take, rest);
      }
    }
  }

  lemma {:induction false} SweepNothing(levels: seq<Level>, alloc: seq<real>, side: Side)
    requires Allocation(levels, alloc) && Total(alloc) == 0.0
    ensures Cost(levels, alloc) == 0.0
  {
    if levels != [] {
      TotalNonNegative(levels[1..], alloc[1..]);
      SweepNothing(levels[1..], alloc[1..], side);
    }
  }

  /** The levels a sweep takes something from. */
  function Touched(levels: seq<Level>, wanted: real): (r: seq<Level>)
    ensures r <= levels
  {
    if levels == [] || wanted <= 0.0 then []
    else [levels[0]] + Touched(levels[1..], wanted - Min(wanted, levels[0].quantity))
  }

  /** Every level of the list is priced between `best` and `worst`. */
  ghost predicate Within(levels: seq<Level>, best: real, worst: real, side: Side)
  {
    forall l :: l in levels ==> Badness(best, side) <= Badness(l.price, side) <= Badness(worst, side)
  }

  lemma {:induction false} SweepWithin(levels: seq<Level>, wanted: real, side: Side, best: real, worst: real)
    requires Usable(levels) && Within(Touched(levels, wanted), best, worst, side)
    ensures var t := Sweep(levels, wanted);
      Badness(Times(t.filled, best), side) <= Badness(t.cost, side) <= Badness(Times(t.filled, worst), side)
  {
    if levels != [] && wanted > 0.0 {
      var l, take := levels[0], Min(wanted, levels[0].quantity);
      var rest := Sweep(levels[1..], wanted - take);
      assert l in Touched(levels, wanted);
      RestWithin(levels, wanted, best, worst, side);
      SweepWithin(levels[1..], wanted - take, side, best, worst);
      assert take >= 0.0 by { assert levels[0] in levels; }
      AddWithin(take, l.price, rest, side, best, worst);
    }
  }

  lemma RestWithin(levels: seq<Level>, wanted: real, best: real, worst: real, side: Side)
    requires levels != [] && wanted > 0.0 && Within(Touched(levels, wanted), best, worst, side)
    ensures Within(Touched(levels[1..], wanted - Min(wanted, levels[0].quantity)), best, worst, side)
  {
    var rest := Touched(levels[1..], wanted - Min(wanted, levels[0].quantity));
    forall l | l in rest ensures Badness(best, side) <= Badness(l.price, side) <= Badness(worst, side) {
      assert l in [levels[0]] + rest;
    }
  }

  lemma AddWithin(take: real, price: real, rest: Taken, side: Side, best: real, worst: real)
    requires take >= 0.0 && Badness(best, side) <= Badness(price, side) <= Badness(worst, side)
    requires Badness(Times(rest.filled, best), side) <= Badness(rest.cost, side)
    requires Badness(rest.cost, side) <= Badness(Times(rest.filled, worst), side)
    ensures Badness(Times(take + rest.filled, best), side) <= Badness(Times(take, price) + rest.cost, side)
    ensures Badness(Times(take, price) + rest.cost, side) <= Badness(Times(take + rest.filled, worst), side)
  {
    WorseTimes(take, best, price, side);
    WorseTimes(take, price, worst, side);
    TimesSum(take, rest.filled, best);
    TimesSum(take, rest.filled, worst);
  }

  /** Best-first levels lie between the first and the last of any prefix. */
  lemma PrefixWithin(levels: seq<Level>, used: seq<Level>, side: Side)
    requires BestFirst(levels, side) && used <= levels && used != []
    ensures Within(used, levels[0].price, used[|used| - 1].price, side)
  {
    forall l | l in used
      ensures Badness(levels[0].price, side) <= Badness(l.price, side) <= Badness(used[|used| - 1].price, side)
    {
      var i :| 0 <= i < |used| && used[i] == l;
      assert levels[i] == l && levels[|used| - 1] == used[|used| - 1];
    }
  }

  lemma PriceWithin(n: real, cost: real, best: real, worst: real, side: Side)
    requires n > 0.0 && Badness(Times(n, best), side) <= Badness(cost, side) <= Badness(Times(n, worst), side)
    ensures Badness(best, side) <= Badness(cost / n, side) <= Badness(worst, side)
  {
    DivideOut(n, best, cost);
    DivideOut(n, worst, cost);
  }

  /** With enough depth the fill price is the average price of the sweep. */
  lemma DeepFillPrice(b: Book, side: Side, quantity: real, base: real, pct: real)
    requires Usable(BookSide(b, side)) && 0.0 < quantity <= Depth(BookSide(b, side))
    ensures FillPrice(Some(b), side, quantity, base, pct) == Sweep(BookSide(b, side), quantity).cost / quantity
    ensures Sweep(BookSide(b, side), quantity).filled == quantity
  {
    SweepFills(BookSide(b, side), quantity);
  }

  /** What all of the levels cost. */
  function Worth(levels: seq<Level>): real
  {
    if levels == [] then 0.0 else Times(levels[0].quantity, levels[0].price) + Worth(levels[1..])
  }

  lemma {:induction false} SweepAll(levels: seq<Level>, wanted: real)
    requires Usable(levels) && wanted >= Depth(levels)
    ensures Sweep(levels, wanted) == Taken(Depth(levels), Worth(levels)) && Depth(levels) >= 0.0
    ensures levels != [] ==> Depth(levels) > 0.0
  {
    if levels != [] {
      assert levels[0] in levels;
      SweepAll(levels[1..], wanted - levels[0].quantity);
    }
  }

  /** What an order takes beyond the visible depth is filled at the base price moved by the slippage. */
  lemma ShallowFillPrice(b: Book, side: Side, quantity: real, base: real, pct: real)
    requires var levels := BookSide(b, side); Usable(levels) && levels != [] && quantity > Depth(levels)
    ensures var levels := BookSide(b, side);
      Times(quantity, FillPrice(Some(b), side, quantity, base, pct)) ==
        Worth(levels) + Times(quantity - Depth(levels), ApplySlippage(base, side, pct))
  {
    var levels := BookSide(b, side);
    SweepAll(levels, quantity);
    var cost := Worth(levels) + Times(quantity - Depth(levels), ApplySlippage(base, side, pct));
    DivideOut(quantity, 0.0, cost);
  }

  /** With enough depth the fill price is between the best price and the worst one touched. */
  lemma FillPriceBetweenTouchedLevels(b: Book, side: Side, quantity: real, base: real, pct: real)
    requires var levels := BookSide(b, side);
      Usable(levels) && BestFirst(levels, side) && 0.0 < quantity <= Depth(levels)
    ensures var levels := BookSide(b, side); var used := Touched(levels, quantity);
      && used != []
      && Badness(levels[0].price, side)
         <= Badness(FillPrice(Some(b), side, quantity, base, pct), side)
         <= Badness(used[|used| - 1].price, side)
  {
    var levels := BookSide(b, side);
    var used := Touched(levels, quantity);
    var best, worst := levels[0].price, used[|used| - 1].price;
    DeepFillPrice(b, side, quantity, base, pct);
    PrefixWithin(levels, used, side);
    SweepWithin(levels, quantity, side, best, worst);
    PriceWithin(quantity, Sweep(levels, quantity).cost, best, worst, side);
  }

  lemma DivideOut(n: real, price: real, cost: real)
    requires n > 0.0
    ensures Times(n, price) <= cost ==> price <= cost / n
    ensures Times(n, price) >= cost ==> price >= cost / n
    ensures Times(n, cost / n) == cost
  {
    var q := cost / n;
    assert q * n == cost;
    if q < price { TimesStrict(n, q, price); }
    if q > price { TimesStrict(n, price, q); }
  }

  /** Part of an allocation, taken evenly from every level. */
  function Shrink(alloc: seq<real>, share: real): (r: seq<real>)
    ensures |r| == |alloc|
  {
    if alloc == [] then [] else [Times(alloc[0], share)] + Shrink(alloc[1..], share)
  }

  lemma {:induction false} ShrinkScales(levels: seq<Level>, alloc: seq<real>, share: real)
    requires Allocation(levels, alloc) && 0.0 <= share <= 1.0
    ensures Allocation(levels, Shrink(alloc, share))
    ensures Total(Shrink(alloc, share)) == Times(Total(alloc), share)
    ensures Cost(levels, Shrink(alloc, share)) == Times(Cost(levels, alloc), share)
  {
    if levels != [] {
      ShrinkScales(levels[1..], alloc[1..], share);
      var a, p := alloc[0], levels[0].price;
      assert Shrink(alloc, share)[1..] == Shrink(alloc[1..], share);
      TimesSum(a, Total(alloc[1..]), share);
      TimesSum(Times(a, p), Cost(levels[1..], alloc[1..]), share);
      assert Times(Times(a, share), p) == Times(Times(a, p), share);
      assert 0.0 <= Times(a, share) <= a by {
        TimesOrder(a, 0.0, share);
        TimesOrder(a, share, 1.0);
      }
    }
  }

  /** The average price never improves as the order grows, while the book covers it. */
  lemma AveragePriceWorsens(b: Book, side: Side, small: real, large: real, base: real, pct: real)
    requires var levels := BookSide(b, side);
      Usable(levels) && BestFirst(levels, side) && 0.0 < small <= large <= Depth(levels)
    ensures Badness(FillPrice(Some(b), side, small, base, pct), side)
         <= Badness(FillPrice(Some(b), side, large, base, pct), side)
  {
    var levels := BookSide(b, side);
    SweepFills(levels, small);
    SweepFills(levels, large);
    var all := SweepIsAllocation(levels, large);
    var share := Share(small, large);
    ShrinkScales(levels, all, share);
    SweepIsOptimal(levels, side, small, Shrink(all, share));
    AverageFromShare(small, large, share, Sweep(levels, small).cost, Sweep(levels, large).cost, side);
  }

  lemma Share(small: real, large: real) returns (share: real)
    requires 0.0 < small <= large
    ensures 0.0 <= share <= 1.0 && Times(large, share) == small
  {
    share := small / large;
    DivideOut(large, 0.0, small);
    DivideOut(large, 1.0, small);
  }

  lemma AverageFromShare(small: real, large: real, share: real, c1: real, c2: real, side: Side)
    requires 0.0 < small <= large && Times(large, share) == small
    requires Badness(c1, side) <= Badness(Times(c2, share), side)
    ensures Badness(c1 / small, side) <= Badness(c2 / large, side)
  {
    var average := c2 / large;
    assert Times(c2, share) == Times(small, average) by {
      DivideOut(large, average, c2);
      assert c2 == large * average;
      assert c2 * share == large * average * share;
    }
    DivideOut(small, average, c1);
  }
}
