/** The trade-volume time series behind the volume chart: trades are grouped
    into one-minute buckets, each keeping its buy, sell and total volume, and
    the buckets come out in time order. */
module VolumeTimeChart {
  import opened Common

  /** One trade as the chart receives it; `time` is in seconds. Any `side`
      other than "buy" is counted as a sell. */
  datatype Trade = Trade(time: real, price: real, volume: real, side: string)

  /** One point of the series: the bucket that starts at `time`. */
  datatype Bucket = Bucket(time: int, buyVolume: real, sellVolume: real, totalVolume: real)

  /** Which of the three sums of a bucket a trade contributes to. */
  datatype Column = Buy | Sell | Total

  /** Width of a bucket in seconds (the source's 60000 ms interval). */
  const BucketSeconds: int := 60

  /** `Math.floor(time / 60) * 60`: the start of the trade's bucket. */
  function BucketTime(time: real): (b: int)
    ensures b % BucketSeconds == 0
    ensures b as real <= time < (b + BucketSeconds) as real
  {
    (time / 60.0).Floor * 60
  }

  predicate Counts(t: Trade, col: Column)
  {
    match col
    case Buy => t.side == "buy"
    case Sell => t.side != "buy"
    case Total => true
  }

  /** Volume that the trades of `trades` add to column `col` of bucket `b`. */
  function VolumeIn(trades: seq<Trade>, b: int, col: Column): real
  {
    if trades == [] then 0.0
    else
      var t := trades[|trades| - 1];
      VolumeIn(trades[..|trades| - 1], b, col)
        + (if BucketTime(t.time) == b && Counts(t, col) then t.volume else 0.0)
  }

  /** Volume of all trades counted in column `col`, whatever their bucket. */
  function ColumnVolume(trades: seq<Trade>, col: Column): real
  {
    if trades == [] then 0.0
    else
      var t := trades[|trades| - 1];
      ColumnVolume(trades[..|trades| - 1], col) + (if Counts(t, col) then t.volume else 0.0)
  }

  /** The distinct bucket keys of the trades. */
  function BucketTimes(trades: seq<Trade>): set<int>
  {
    if trades == [] then {}
    else BucketTimes(trades[..|trades| - 1]) + {BucketTime(trades[|trades| - 1].time)}
  }

  function Times(chart: seq<Bucket>): seq<int>
  {
    seq(|chart|, j requires 0 <= j < |chart| => chart[j].time)
  }

  /** The bucket that the grouping builds for key `b` out of `trades`. */
  function BucketOf(trades: seq<Trade>, b: int): Bucket
  {
    Bucket(b, VolumeIn(trades, b, Buy), VolumeIn(trades, b, Sell), VolumeIn(trades, b, Total))
  }

  /** `processChartData`: one bucket per distinct key, ascending by time, each
      holding the sums of exactly the trades that fall into it. */
  method ProcessChartData(data: seq<Trade>) returns (chart: seq<Bucket>)
    ensures data == [] ==> chart == []
    ensures StrictlyAscending(Times(chart))
    ensures Elems(Times(chart)) == BucketTimes(data)
    ensures |chart| == |BucketTimes(data)|
    ensures forall j :: 0 <= j < |chart| ==> chart[j] == BucketOf(data, chart[j].time)
  {
    if |data| == 0 {
      return [];
    }
    var buckets, keys := FillBuckets(data);
    var times := SortedDistinct(keys);
    chart := ValuesInOrder(buckets, times);
  }

  /** The buckets listed in the order of `times`. */
  method ValuesInOrder(buckets: map<int, Bucket>, times: seq<int>) returns (chart: seq<Bucket>)
    requires Elems(times) <= buckets.Keys
    requires forall b :: b in buckets ==> buckets[b].time == b
    ensures Times(chart) == times
    ensures forall k :: 0 <= k < |chart| ==> chart[k] == buckets[times[k]]
  {
    chart := [];
    for j := 0 to |times|
      invariant Times(chart) == times[..j]
      invariant forall k :: 0 <= k < j ==> chart[k] == buckets[times[k]]
    {
      assert times[j] in Elems(times);
      var next := buckets[times[j]];
      assert next.time == times[j];
      assert Times(chart + [next]) == Times(chart) + [next.time];
      assert times[..j + 1] == times[..j] + [times[j]];
      chart := chart + [next];
    }
    assert times[..|times|] == times;
  }

  /** The `forEach` over the trades: `buckets` maps every bucket key met so
      far to its running sums; `keys` lists the keys in creation order, as
      `Object.values` visits them. */
  method FillBuckets(data: seq<Trade>) returns (buckets: map<int, Bucket>, keys: seq<int>)
    ensures buckets.Keys == BucketTimes(data)
    ensures Elems(keys) == buckets.Keys
    ensures forall b :: b in buckets ==> buckets[b] == BucketOf(data, b)
  {
    buckets, keys := map[], [];
    for i := 0 to |data|
      invariant buckets.Keys == BucketTimes(data[..i])
      invariant Elems(keys) == buckets.Keys
      invariant forall b :: b in buckets ==> buckets[b] == BucketOf(data[..i], b)
    {
      var trade := data[i];
      var bt := BucketTime(trade.time);
      assert data[..i + 1] == data[..i] + [trade];
      if bt !in buckets {
        NoVolumeOutside(data[..i], bt);
        buckets := buckets[bt := Bucket(bt, 0.0, 0.0, 0.0)];
        keys := keys + [bt];
      }
      var cur := buckets[bt];
      if trade.side == "buy" {
        cur := cur.(buyVolume := cur.buyVolume + trade.volume);
      } else {
        cur := cur.(sellVolume := cur.sellVolume + trade.volume);
      }
      cur := cur.(totalVolume := cur.totalVolume + trade.volume);
      buckets := buckets[bt := cur];
      forall b | b in buckets
        ensures buckets[b] == BucketOf(data[..i + 1], b)
      {
        BucketOfSnoc(data[..i], trade, b);
      }
    }
    assert data[..|data|] == data;
  }

  lemma VolumeInSnoc(trades: seq<Trade>, t: Trade, b: int, col: Column)
    ensures VolumeIn(trades + [t], b, col)
      == VolumeIn(trades, b, col) + (if BucketTime(t.time) == b && Counts(t, col) then t.volume else 0.0)
  {
    assert (trades + [t])[..|trades|] == trades;
  }

  /** Adding one trade changes only the bucket it falls into. */
  lemma BucketOfSnoc(trades: seq<Trade>, t: Trade, b: int)
    ensures BucketOf(trades + [t], b)
      == if BucketTime(t.time) != b then BucketOf(trades, b)
         else
           var old_ := BucketOf(trades, b);
           Bucket(b,
                  old_.buyVolume + (if t.side == "buy" then t.volume else 0.0),
                  old_.sellVolume + (if t.side == "buy" then 0.0 else t.volume),
                  old_.totalVolume + t.volume)
  {
    VolumeInSnoc(trades, t, b, Buy);
    VolumeInSnoc(trades, t, b, Sell);
    VolumeInSnoc(trades, t, b, Total);
  }

  /** A key that no trade falls into has nothing in any column. */
  lemma {:induction false} NoVolumeOutside(trades: seq<Trade>, b: int)
    requires b !in BucketTimes(trades)
    ensures forall col :: VolumeIn(trades, b, col) == 0.0
  {
    if trades != [] {
      NoVolumeOutside(trades[..|trades| - 1], b);
    }
  }

  /** In every bucket the total is the buy volume plus the sell volume. */
  lemma {:induction false} TotalIsBuyPlusSell(trades: seq<Trade>, b: int)
    ensures VolumeIn(trades, b, Total) == VolumeIn(trades, b, Buy) + VolumeIn(trades, b, Sell)
  {
    if trades != [] {
      TotalIsBuyPlusSell(trades[..|trades| - 1], b);
    }
  }

  /** Every trade has its bucket in the series' key set. */
  lemma {:induction false} TradeHasBucket(trades: seq<Trade>, i: int)
    requires 0 <= i < |trades|
    ensures BucketTime(trades[i].time) in BucketTimes(trades)
  {
    if i < |trades| - 1 {
      TradeHasBucket(trades[..|trades| - 1], i);
    }
  }

  /** At most one bucket per trade. */
  lemma {:induction false} AtMostOneBucketPerTrade(trades: seq<Trade>)
    ensures |BucketTimes(trades)| <= |trades|
  {
    if trades != [] {
      AtMostOneBucketPerTrade(trades[..|trades| - 1]);
    }
  }

  /** Sum of column `col` over the given bucket keys. */
  function SumOver(keys: seq<int>, trades: seq<Trade>, col: Column): real
  {
    if keys == [] then 0.0 else VolumeIn(trades, keys[0], col) + SumOver(keys[1..], trades, col)
  }

  /** A trade whose bucket is not among `keys` leaves the sum unchanged. */
  lemma {:induction false} SumOverSkip(keys: seq<int>, trades: seq<Trade>, t: Trade, col: Column)
    requires BucketTime(t.time) !in keys
    ensures SumOver(keys, trades + [t], col) == SumOver(keys, trades, col)
  {
    if keys != [] {
      VolumeInSnoc(trades, t, keys[0], col);
      SumOverSkip(keys[1..], trades, t, col);
    }
  }

  /** A trade whose bucket occurs once among `keys` adds its volume once. */
  lemma {:induction false} SumOverHit(keys: seq<int>, trades: seq<Trade>, t: Trade, col: Column)
    requires StrictlyAscending(keys)
    requires BucketTime(t.time) in keys
    ensures SumOver(keys, trades + [t], col)
      == SumOver(keys, trades, col) + (if Counts(t, col) then t.volume else 0.0)
  {
    VolumeInSnoc(trades, t, keys[0], col);
    if keys[0] == BucketTime(t.time) {
      assert BucketTime(t.time) !in keys[1..];
      SumOverSkip(keys[1..], trades, t, col);
    } else {
      SumOverHit(keys[1..], trades, t, col);
    }
  }

  /** Summing a column over a set of distinct keys that covers every trade's
      bucket gives the column's volume over all trades. */
  lemma {:induction false} SumOverConserves(keys: seq<int>, trades: seq<Trade>, col: Column)
    requires StrictlyAscending(keys)
    requires BucketTimes(trades) <= Elems(keys)
    ensures SumOver(keys, trades, col) == ColumnVolume(trades, col)
  {
    if trades == [] {
      NoVolumeAnywhere(keys, col);
    } else {
      var init, t := trades[..|trades| - 1], trades[|trades| - 1];
      assert init + [t] == trades;
      SumOverConserves(keys, init, col);
      SumOverHit(keys, init, t, col);
    }
  }

  lemma {:induction false} NoVolumeAnywhere(keys: seq<int>, col: Column)
    ensures SumOver(keys, [], col) == 0.0
  {
    if keys != [] {
      NoVolumeAnywhere(keys[1..], col);
    }
  }

  function ChartSum(chart: seq<Bucket>, col: Column): real
  {
    if chart == [] then 0.0
    else
      (match col
       case Buy => chart[0].buyVolume
       case Sell => chart[0].sellVolume
       case Total => chart[0].totalVolume)
      + ChartSum(chart[1..], col)
  }

  lemma {:induction false} ChartSumIsSumOver(chart: seq<Bucket>, trades: seq<Trade>, col: Column)
    requires forall j :: 0 <= j < |chart| ==> chart[j] == BucketOf(trades, chart[j].time)
    ensures ChartSum(chart, col) == SumOver(Times(chart), trades, col)
  {
    if chart != [] {
      ChartSumIsSumOver(chart[1..], trades, col);
      assert Times(chart)[1..] == Times(chart[1..]);
    }
  }

  /** Volume is conserved: over the series, each column sums to the volume of
      the trades it counts, so the totals add up to all traded volume, the
      buy sums to the "buy" trades and the sell sums to all the others. */
  lemma VolumeConserved(data: seq<Trade>, chart: seq<Bucket>, col: Column)
    requires StrictlyAscending(Times(chart))
    requires Elems(Times(chart)) == BucketTimes(data)
    requires forall j :: 0 <= j < |chart| ==> chart[j] == BucketOf(data, chart[j].time)
    ensures ChartSum(chart, col) == ColumnVolume(data, col)
  {
    ChartSumIsSumOver(chart, data, col);
    SumOverConserves(Times(chart), data, col);
  }
}
