/** The depth chart of the order book: bids and asks are grouped into price
    levels at a precision chosen from the spread of all prices, and each level
    shows bid volume only at or below the mid price and ask volume only at or
    above it. */
module OrderBookChart {
  import opened Common

  /** One order-book entry `[price, volume]`. */
  datatype Level = Level(price: real, volume: real)

  datatype Book = Book(asks: seq<Level>, bids: seq<Level>)

  /** One bar of the chart. `level` is the price level as a whole number of
      steps of 10^-precision, which is the number `toFixed(precision)`
      prints; the volumes are already masked around the mid price. */
  datatype DepthPoint = DepthPoint(level: int, bidVolume: real, askVolume: real)

  function Pow10(n: nat): (r: nat)
    ensures r >= 1
  {
    if n == 0 then 1 else 10 * Pow10(n - 1)
  }

  function Prices(levels: seq<Level>): (r: seq<real>)
    ensures |r| == |levels|
    ensures forall i :: 0 <= i < |levels| ==> r[i] == levels[i].price
  {
    seq(|levels|, i requires 0 <= i < |levels| => levels[i].price)
  }

  /** `Math.max(...xs)` of a non-empty list. */
  function Max(xs: seq<real>): (r: real)
    requires xs != []
    ensures r in xs
    ensures forall i :: 0 <= i < |xs| ==> xs[i] <= r
  {
    if |xs| == 1 then xs[0]
    else
      var m := Max(xs[1..]);
      if xs[0] >= m then xs[0] else m
  }

  /** `Math.min(...xs)` of a non-empty list. */
  function Min(xs: seq<real>): (r: real)
    requires xs != []
    ensures r in xs
    ensures forall i :: 0 <= i < |xs| ==> r <= xs[i]
  {
    if |xs| == 1 then xs[0]
    else
      var m := Min(xs[1..]);
      if xs[0] <= m then xs[0] else m
  }

  function AllPrices(book: Book): seq<real>
  {
    Prices(book.asks) + Prices(book.bids)
  }

  /** Decimal places of the price levels: 4 when the spread of all prices is
      below one, 2 otherwise. With no prices at all the spread is
      `-Infinity - Infinity`, which is below one, so 4. */
  function Precision(book: Book): (p: nat)
    ensures p == 4 || p == 2
  {
    var all := AllPrices(book);
    if all == [] then 4
    else if Max(all) - Min(all) < 1.0 then 4
    else 2
  }

  /** Two prices at least one apart force two decimal places. */
  lemma PrecisionCoarse(book: Book, i: int, j: int)
    requires 0 <= i < |AllPrices(book)| && 0 <= j < |AllPrices(book)|
    requires AllPrices(book)[j] - AllPrices(book)[i] >= 1.0
    ensures Precision(book) == 2
  {
  }

  /** Prices that all fit in a window narrower than one get four decimal
      places. */
  lemma PrecisionFine(book: Book, lo: real)
    requires forall k :: 0 <= k < |AllPrices(book)| ==> lo <= AllPrices(book)[k] < lo + 1.0
    ensures Precision(book) == 4
  {
  }

  /** Highest bid price, 0 for an empty bid side. */
  function HighestBid(book: Book): (r: real)
    ensures book.bids == [] ==> r == 0.0
    ensures book.bids != [] ==> exists i :: 0 <= i < |book.bids| && book.bids[i].price == r
    ensures forall i :: 0 <= i < |book.bids| ==> book.bids[i].price <= r
  {
    if book.bids == [] then 0.0 else Max(Prices(book.bids))
  }

  /** Lowest ask price, 0 for an empty ask side. */
  function LowestAsk(book: Book): (r: real)
    ensures book.asks == [] ==> r == 0.0
    ensures book.asks != [] ==> exists i :: 0 <= i < |book.asks| && book.asks[i].price == r
    ensures forall i :: 0 <= i < |book.asks| ==> r <= book.asks[i].price
  {
    if book.asks == [] then 0.0 else Min(Prices(book.asks))
  }

  function MidPrice(book: Book): real
  {
    (HighestBid(book) + LowestAsk(book)) / 2.0
  }

  /** In an uncrossed book the mid price lies between the best bid and the
      best ask. */
  lemma MidPriceBetween(book: Book)
    requires book.bids != [] && book.asks != []
    requires HighestBid(book) <= LowestAsk(book)
    ensures forall i :: 0 <= i < |book.bids| ==> book.bids[i].price <= MidPrice(book)
    ensures forall i :: 0 <= i < |book.asks| ==> MidPrice(book) <= book.asks[i].price
  {
  }

  /** `price.toFixed(precision)` as a level number: the nearest multiple of
      10^-precision, ties going away from zero (toFixed rounds the magnitude
      and puts the sign back). */
  function ToLevel(price: real, precision: nat): (k: int)
    ensures var scaled := price * Pow10(precision) as real;
            k as real - 0.5 <= scaled <= k as real + 0.5
    ensures var scaled := price * Pow10(precision) as real;
            price >= 0.0 ==> k as real <= scaled + 0.5 < k as real + 1.0
    ensures var scaled := price * Pow10(precision) as real;
            price < 0.0 ==> k as real - 1.0 < scaled - 0.5 <= k as real
  {
    var scaled := price * Pow10(precision) as real;
    if price >= 0.0 then (scaled + 0.5).Floor else -((-scaled + 0.5).Floor)
  }

  /** The number a level stands for: `Number(priceStr)`. */
  function LevelPrice(level: int, precision: nat): real
  {
    level as real / Pow10(precision) as real
  }

  /** The levels that some entry rounds to. */
  function LevelSet(levels: seq<Level>, precision: nat): set<int>
  {
    if levels == [] then {}
    else LevelSet(levels[..|levels| - 1], precision) + {ToLevel(levels[|levels| - 1].price, precision)}
  }

  /** Sum of the volumes of the entries that round to `level`. */
  function VolumeAt(levels: seq<Level>, precision: nat, level: int): real
  {
    if levels == [] then 0.0
    else
      var e := levels[|levels| - 1];
      VolumeAt(levels[..|levels| - 1], precision, level)
        + (if ToLevel(e.price, precision) == level then e.volume else 0.0)
  }

  /** The chart bar at `level`: the grouped volumes, bids kept only at or
      below the mid price and asks only at or above it. */
  function DepthAt(book: Book, level: int): DepthPoint
  {
    var p := Precision(book);
    var price := LevelPrice(level, p);
    DepthPoint(level,
               if price <= MidPrice(book) then VolumeAt(book.bids, p, level) else 0.0,
               if price >= MidPrice(book) then VolumeAt(book.asks, p, level) else 0.0)
  }

  function LevelsOf(chart: seq<DepthPoint>): seq<int>
  {
    seq(|chart|, j requires 0 <= j < |chart| => chart[j].level)
  }

  /** The `reduce` that groups one side of the book by price level. */
  method GroupByLevel(levels: seq<Level>, precision: nat) returns (byLevel: map<int, real>, keys: seq<int>)
    ensures byLevel.Keys == LevelSet(levels, precision)
    ensures Elems(keys) == byLevel.Keys
    ensures forall k :: k in byLevel ==> byLevel[k] == VolumeAt(levels, precision, k)
  {
    byLevel, keys := map[], [];
    for i := 0 to |levels|
      invariant byLevel.Keys == LevelSet(levels[..i], precision)
      invariant Elems(keys) == byLevel.Keys
      invariant forall k :: k in byLevel ==> byLevel[k] == VolumeAt(levels[..i], precision, k)
    {
      var entry := levels[i];
      var rounded := ToLevel(entry.price, precision);
      assert levels[..i + 1] == levels[..i] + [entry];
      VolumeAtSnoc(levels[..i], entry, precision);
      var acc := 0.0;
      if rounded in byLevel {
        acc := byLevel[rounded];
      } else {
        NoVolumeOff(levels[..i], precision, rounded);
        keys := keys + [rounded];
      }
      byLevel := byLevel[rounded := acc + entry.volume];
    }
    assert levels[..|levels|] == levels;
  }

  lemma VolumeAtSnoc(levels: seq<Level>, e: Level, precision: nat)
    ensures forall k ::
      VolumeAt(levels + [e], precision, k)
      == VolumeAt(levels, precision, k) + (if ToLevel(e.price, precision) == k then e.volume else 0.0)
    ensures LevelSet(levels + [e], precision) == LevelSet(levels, precision) + {ToLevel(e.price, precision)}
  {
    assert (levels + [e])[..|levels|] == levels;
  }

  /** A level no entry rounds to holds no volume. */
  lemma {:induction false} NoVolumeOff(levels: seq<Level>, precision: nat, level: int)
    requires level !in LevelSet(levels, precision)
    ensures VolumeAt(levels, precision, level) == 0.0
  {
    if levels != [] {
      NoVolumeOff(levels[..|levels| - 1], precision, level);
    }
  }

  /** `transformedData`: one bar per level that some bid or ask rounds to,
      in ascending order, each the masked grouped volume of its level. */
  method TransformedData(book: Book) returns (chart: seq<DepthPoint>)
    ensures StrictlyAscending(LevelsOf(chart))
    ensures Elems(LevelsOf(chart)) == LevelSet(book.bids, Precision(book)) + LevelSet(book.asks, Precision(book))
    ensures |chart| == |LevelSet(book.bids, Precision(book)) + LevelSet(book.asks, Precision(book))|
    ensures forall j :: 0 <= j < |chart| ==> chart[j] == DepthAt(book, chart[j].level)
  {
    var precision := Precision(book);
    var bidsByPrice, bidKeys := GroupByLevel(book.bids, precision);
    var asksByPrice, askKeys := GroupByLevel(book.asks, precision);
    assert Elems(bidKeys + askKeys) == Elems(bidKeys) + Elems(askKeys);
    var uniquePrices := SortedDistinct(bidKeys + askKeys);
    chart := MaskedBars(book, uniquePrices, bidsByPrice, asksByPrice);
  }

  /** The `forEach` over the sorted levels that pushes one masked bar each. */
  method MaskedBars(book: Book, uniquePrices: seq<int>, bidsByPrice: map<int, real>, asksByPrice: map<int, real>)
    returns (chart: seq<DepthPoint>)
    requires bidsByPrice.Keys == LevelSet(book.bids, Precision(book))
    requires asksByPrice.Keys == LevelSet(book.asks, Precision(book))
    requires forall k :: k in bidsByPrice ==> bidsByPrice[k] == VolumeAt(book.bids, Precision(book), k)
    requires forall k :: k in asksByPrice ==> asksByPrice[k] == VolumeAt(book.asks, Precision(book), k)
    ensures LevelsOf(chart) == uniquePrices
    ensures forall k :: 0 <= k < |chart| ==> chart[k] == DepthAt(book, uniquePrices[k])
  {
    var precision := Precision(book);
    var midPrice := MidPrice(book);
    chart := [];
    for j := 0 to |uniquePrices|
      invariant LevelsOf(chart) == uniquePrices[..j]
      invariant forall k :: 0 <= k < j ==> chart[k] == DepthAt(book, uniquePrices[k])
    {
      var level := uniquePrices[j];
      var bidVolume := if level in bidsByPrice then bidsByPrice[level] else 0.0;
      var askVolume := if level in asksByPrice then asksByPrice[level] else 0.0;
      GroupedVolume(book.bids, precision, bidsByPrice, level);
      GroupedVolume(book.asks, precision, asksByPrice, level);
      var price := LevelPrice(level, precision);
      var point := DepthPoint(level,
                              if price <= midPrice then bidVolume else 0.0,
                              if price >= midPrice then askVolume else 0.0);
      assert point == DepthAt(book, level);
      assert LevelsOf(chart + [point]) == LevelsOf(chart) + [level];
      assert uniquePrices[..j + 1] == uniquePrices[..j] + [level];
      chart := chart + [point];
    }
    assert uniquePrices[..|uniquePrices|] == uniquePrices;
  }

  /** Reading a grouped map with the `|| 0` default gives the level's volume. */
  lemma GroupedVolume(levels: seq<Level>, precision: nat, byLevel: map<int, real>, level: int)
    requires byLevel.Keys == LevelSet(levels, precision)
    requires forall k :: k in byLevel ==> byLevel[k] == VolumeAt(levels, precision, k)
    ensures (if level in byLevel then byLevel[level] else 0.0) == VolumeAt(levels, precision, level)
  {
    if level !in byLevel {
      NoVolumeOff(levels, precision, level);
    }
  }

  /** Masking around the mid price: above it a level shows no bid volume,
      below it no ask volume, and at it both keep their grouped volume. */
  lemma MaskAroundMid(book: Book, level: int)
    ensures var price, mid, d := LevelPrice(level, Precision(book)), MidPrice(book), DepthAt(book, level);
            && (price > mid ==> d.bidVolume == 0.0 && d.askVolume == VolumeAt(book.asks, Precision(book), level))
            && (price < mid ==> d.askVolume == 0.0 && d.bidVolume == VolumeAt(book.bids, Precision(book), level))
            && (price == mid ==>
                  d.bidVolume == VolumeAt(book.bids, Precision(book), level)
                  && d.askVolume == VolumeAt(book.asks, Precision(book), level))
  {
  }

  predicate NonNegative(levels: seq<Level>)
  {
    forall i :: 0 <= i < |levels| ==> levels[i].volume >= 0.0
  }

  lemma {:induction false} VolumeAtNonNegative(levels: seq<Level>, precision: nat, level: int)
    requires NonNegative(levels)
    ensures VolumeAt(levels, precision, level) >= 0.0
  {
    if levels != [] {
      VolumeAtNonNegative(levels[..|levels| - 1], precision, level);
    }
  }

  /** With non-negative input volumes every bar's volumes are non-negative. */
  lemma DepthNonNegative(book: Book, level: int)
    requires NonNegative(book.bids) && NonNegative(book.asks)
    ensures DepthAt(book, level).bidVolume >= 0.0 && DepthAt(book, level).askVolume >= 0.0
  {
    VolumeAtNonNegative(book.bids, Precision(book), level);
    VolumeAtNonNegative(book.asks, Precision(book), level);
  }

  /** Every bid and every ask has its level in the chart's level set. */
  lemma {:induction false} EntryHasLevel(levels: seq<Level>, precision: nat, i: int)
    requires 0 <= i < |levels|
    ensures ToLevel(levels[i].price, precision) in LevelSet(levels, precision)
  {
    if i < |levels| - 1 {
      EntryHasLevel(levels[..|levels| - 1], precision, i);
    }
  }
}
