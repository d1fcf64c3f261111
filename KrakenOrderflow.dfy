/** The computations of the `/api/kraken-orderflow` handler on the three
    public Kraken responses it fetches (recent trades, order-book depth and
    ticker): query defaults, the choice of the result key in each response,
    the ticker summary and the order-flow metrics. */
module KrakenOrderflow {
  import opened Common

  /** The query string; a parameter that is absent takes its default. */
  datatype Query = Query(pair: Option<string>, depthCount: Option<string>)

  const DefaultPair: string := "BTCUSD"
  /** The default depth count 500, as it appears in the request URL. */
  const DefaultDepthCount: string := "500"
  /** The volume above which an order-book level counts as a wall. */
  const WallVolume: real := 5.0

  /** One trade row of Kraken's Trades response. Only field 1 (volume) and
      field 3 (the side flag, "b" or "s") are read. */
  datatype TradeRow = TradeRow(price: real, volume: real, time: real, side: string)

  /** The value under one key of the Trades result: the trade rows of the
      pair, or the `last` cursor. */
  datatype TradesValue = Rows(rows: seq<TradeRow>) | Cursor(last: string)

  /** One depth level `[price, volume, timestamp]`; only the volume is read. */
  datatype BookEntry = BookEntry(price: real, volume: real)

  datatype Depth = Depth(asks: seq<BookEntry>, bids: seq<BookEntry>)

  /** A ticker record: field name (a, b, c, v, p, h, l) to its list of
      numbers. A field may be missing. */
  type TickerData = map<string, seq<real>>

  /** A response's `result` object: its keys in order, each with its value.
      A parsed JSON object has distinct keys, and Kraken's results have no
      repeated key; a list holding a key twice would be read by `Lookup` at
      its first entry, where `JSON.parse` keeps the last. */
  type ResultObject<V> = seq<(string, V)>

  datatype Ticker = Ticker(ask: real, bid: real, last: real, volume: real,
                           volumeWeightedAvgPrice: real, high: real, low: real)

  datatype Metrics = Metrics(buyVolume: real, sellVolume: real, bidWallsCount: nat, askWallsCount: nat)

  datatype Orderflow = Orderflow(pair: string, krakenPair: string, trades: seq<TradeRow>,
                                 orderbook: Depth, ticker: Ticker, metrics: Metrics)

  /** The 200 reply, or the 500 reply the handler's `catch` sends. */
  datatype Response = Ok(body: Orderflow) | ServerError

  function PairOf(q: Query): (p: string)
    ensures q.pair.None? ==> p == DefaultPair
    ensures q.pair.Some? ==> p == q.pair.value
  {
    match q.pair
    case None => DefaultPair
    case Some(p) => p
  }

  function DepthCountOf(q: Query): (c: string)
    ensures q.depthCount.None? ==> c == DefaultDepthCount
    ensures q.depthCount.Some? ==> c == q.depthCount.value
  {
    match q.depthCount
    case None => DefaultDepthCount
    case Some(c) => c
  }

  function TradesUrl(pair: string): string
  {
    "https://api.kraken.com/0/public/Trades?pair=" + pair + "&count=100"
  }

  function DepthUrl(pair: string, depthCount: string): string
  {
    "https://api.kraken.com/0/public/Depth?pair=" + pair + "&count=" + depthCount
  }

  function TickerUrl(pair: string): string
  {
    "https://api.kraken.com/0/public/Ticker?pair=" + pair
  }

  /** The three requests the handler sends, in order: trades, depth, ticker. */
  function RequestUrls(q: Query): (urls: seq<string>)
    ensures |urls| == 3
  {
    [TradesUrl(PairOf(q)), DepthUrl(PairOf(q), DepthCountOf(q)), TickerUrl(PairOf(q))]
  }

  /** Without a pair the handler asks for 100 BTCUSD trades and the BTCUSD
      ticker; without a depth count it asks for 500 levels of the book; with
      an empty query the three URLs are spelled out in full. */
  lemma DefaultRequests(q: Query)
    ensures q.pair.None? ==>
              && RequestUrls(q)[0] == "https://api.kraken.com/0/public/Trades?pair=BTCUSD&count=100"
              && RequestUrls(q)[2] == "https://api.kraken.com/0/public/Ticker?pair=BTCUSD"
    ensures q.depthCount.None? ==> RequestUrls(q)[1] == DepthUrl(PairOf(q), "500")
    ensures q == Query(None, None) ==> RequestUrls(q) == [
              "https://api.kraken.com/0/public/Trades?pair=BTCUSD&count=100",
              "https://api.kraken.com/0/public/Depth?pair=BTCUSD&count=500",
              "https://api.kraken.com/0/public/Ticker?pair=BTCUSD"]
  {
    assert TradesUrl(DefaultPair) == "https://api.kraken.com/0/public/Trades?pair=BTCUSD&count=100";
    assert DepthUrl(DefaultPair, DefaultDepthCount) == "https://api.kraken.com/0/public/Depth?pair=BTCUSD&count=500";
    assert TickerUrl(DefaultPair) == "https://api.kraken.com/0/public/Ticker?pair=BTCUSD";
  }

  /** `Object.keys(result).find(key => key !== 'last')`. */
  function TradesKey<V>(result: ResultObject<V>): (k: Option<string>)
    ensures k.Some? ==> k.value != "last"
    ensures k.Some? <==> exists i :: 0 <= i < |result| && result[i].0 != "last"
  {
    if result == [] then None
    else if result[0].0 != "last" then Some(result[0].0)
    else TradesKey(result[1..])
  }

  /** `Object.keys(result)[0]`. */
  function FirstKey<V>(result: ResultObject<V>): (k: Option<string>)
    ensures k.None? <==> result == []
    ensures k.Some? ==> k.value == result[0].0
  {
    if result == [] then None else Some(result[0].0)
  }

  /** `result[key]`: the value of the first entry with that key. */
  function Lookup<V>(result: ResultObject<V>, key: string): (v: Option<V>)
    ensures v.Some? <==> exists i :: 0 <= i < |result| && result[i].0 == key
    ensures v.Some? ==> exists i :: 0 <= i < |result| && result[i] == (key, v.value)
                                    && forall j :: 0 <= j < i ==> result[j].0 != key
  {
    if result == [] then None
    else if result[0].0 == key then
      assert result[0] == (key, result[0].1);
      Some(result[0].1)
    else
      var v := Lookup(result[1..], key);
      assert v.Some? ==> exists i :: 1 <= i < |result| && result[i] == (key, v.value)
                                     && forall j :: 0 <= j < i ==> result[j].0 != key by {
        if v.Some? {
          var i :| 0 <= i < |result[1..]| && result[1..][i] == (key, v.value)
                   && forall j :: 0 <= j < i ==> result[1..][j].0 != key;
          assert result[i + 1] == (key, v.value);
          assert forall j :: 1 <= j < i + 1 ==> result[j].0 == result[1..][j - 1].0;
        }
      }
      v
  }

  /** The trades key is the earliest key other than `last`: every key in
      front of it is `last`, and it is a key of the result. */
  lemma {:induction false} TradesKeyIsFirstNonLast<V>(result: ResultObject<V>)
    requires TradesKey(result).Some?
    ensures exists i :: 0 <= i < |result| && result[i].0 == TradesKey(result).value
                        && forall j :: 0 <= j < i ==> result[j].0 == "last"
  {
    if result[0].0 == "last" {
      TradesKeyIsFirstNonLast(result[1..]);
      var i :| 0 <= i < |result[1..]| && result[1..][i].0 == TradesKey(result[1..]).value
               && forall j :: 0 <= j < i ==> result[1..][j].0 == "last";
      assert result[i + 1].0 == TradesKey(result).value;
    } else {
      assert result[0].0 == TradesKey(result).value;
    }
  }

  /** `parseFloat(field?.[index] || 0)`: a missing field or index gives 0. */
  function TickerField(data: Option<TickerData>, name: string, index: nat): (r: real)
    ensures (data.None? || name !in data.value || index >= |data.value[name]|) ==> r == 0.0
    ensures data.Some? && name in data.value && index < |data.value[name]| ==> r == data.value[name][index]
  {
    if data.Some? && name in data.value && index < |data.value[name]| then data.value[name][index] else 0.0
  }

  /** ask, bid and last price take element 0 of their field; volume, VWAP,
      high and low take element 1 (the 24-hour figure). */
  function ExtractTicker(data: Option<TickerData>): Ticker
  {
    Ticker(TickerField(data, "a", 0), TickerField(data, "b", 0), TickerField(data, "c", 0),
           TickerField(data, "v", 1), TickerField(data, "p", 1), TickerField(data, "h", 1),
           TickerField(data, "l", 1))
  }

  /** On a complete ticker record the summary takes the current ask, bid and
      last price and the 24-hour volume, VWAP, high and low. */
  lemma CompleteTickerFields(d: TickerData)
    requires forall f :: f in ["a", "b", "c", "v", "p", "h", "l"] ==> f in d && |d[f]| >= 2
    ensures ExtractTicker(Some(d)) == Ticker(d["a"][0], d["b"][0], d["c"][0], d["v"][1],
                                             d["p"][1], d["h"][1], d["l"][1])
  {
    assert "a" in ["a", "b", "c", "v", "p", "h", "l"];
    assert "b" in ["a", "b", "c", "v", "p", "h", "l"];
    assert "c" in ["a", "b", "c", "v", "p", "h", "l"];
    assert "v" in ["a", "b", "c", "v", "p", "h", "l"];
    assert "p" in ["a", "b", "c", "v", "p", "h", "l"];
    assert "h" in ["a", "b", "c", "v", "p", "h", "l"];
    assert "l" in ["a", "b", "c", "v", "p", "h", "l"];
  }

  /** A missing ticker gives a summary of zeros. */
  lemma MissingTickerIsZero()
    ensures ExtractTicker(None) == Ticker(0.0, 0.0, 0.0, 0.0, 0.0, 0.0, 0.0)
  {
  }

  /** `trades.filter(t => t[3] === flag).reduce((sum, t) => sum + t[1], 0)`. */
  function SideVolume(trades: seq<TradeRow>, flag: string): real
  {
    if trades == [] then 0.0
    else SideVolume(trades[..|trades| - 1], flag)
         + (if trades[|trades| - 1].side == flag then trades[|trades| - 1].volume else 0.0)
  }

  function TotalVolume(trades: seq<TradeRow>): real
  {
    if trades == [] then 0.0 else TotalVolume(trades[..|trades| - 1]) + trades[|trades| - 1].volume
  }

  /** `levels.filter(l => l[1] > 5).length`. */
  function Walls(levels: seq<BookEntry>): (n: nat)
    ensures n == |WallIndices(levels)|
    ensures n <= |levels|
    ensures n == 0 <==> forall i :: 0 <= i < |levels| ==> levels[i].volume <= WallVolume
  {
    if levels == [] then 0
    else
      var init := levels[..|levels| - 1];
      var last := |levels| - 1;
      var rest := Walls(init);
      assert WallIndices(levels) == WallIndices(init) + (if levels[last].volume > WallVolume then {last} else {});
      assert last !in WallIndices(init);
      rest + (if levels[last].volume > WallVolume then 1 else 0)
  }

  /** The positions of the levels whose volume exceeds the wall volume. */
  ghost function WallIndices(levels: seq<BookEntry>): set<int>
  {
    set i | 0 <= i < |levels| && levels[i].volume > WallVolume
  }

  function ComputeMetrics(trades: seq<TradeRow>, depth: Depth): Metrics
  {
    Metrics(SideVolume(trades, "b"), SideVolume(trades, "s"), Walls(depth.bids), Walls(depth.asks))
  }

  /** `tickerResult[Object.keys(tickerResult)[0]]`, missing for an empty
      result. */
  function TickerRecord(ticker: ResultObject<TickerData>): (d: Option<TickerData>)
    ensures ticker == [] ==> d.None?
    ensures ticker != [] ==> d == Some(ticker[0].1)
  {
    var tickerKey := FirstKey(ticker);
    if tickerKey.None? then None else Lookup(ticker, tickerKey.value)
  }

  /** The handler on the three fetched results (None: the request failed).
      A missing trades key or depth key throws inside the `try`, so the reply
      is the 500 error; a missing ticker key only zeros the ticker. */
  function HandleOrderflow(q: Query, trades: Option<ResultObject<TradesValue>>,
                           depth: Option<ResultObject<Depth>>, ticker: Option<ResultObject<TickerData>>): (r: Response)
    ensures r.Ok? ==> r.body.pair == PairOf(q) && r.body.krakenPair != "last"
    ensures r.Ok? ==> && trades.Some? && depth.Some? && ticker.Some?
                      && TradesKey(trades.value) == Some(r.body.krakenPair)
                      && Lookup(trades.value, r.body.krakenPair) == Some(Rows(r.body.trades))
                      && FirstKey(depth.value).Some?
                      && Lookup(depth.value, FirstKey(depth.value).value) == Some(r.body.orderbook)
                      && r.body.ticker == ExtractTicker(TickerRecord(ticker.value))
    ensures r.Ok? ==> r.body.metrics == ComputeMetrics(r.body.trades, r.body.orderbook)
  {
    if trades.None? || depth.None? || ticker.None? then ServerError
    else
      var tradesKey := TradesKey(trades.value);
      var depthKey := FirstKey(depth.value);
      if tradesKey.None? || depthKey.None? then ServerError
      else
        var tradesData := Lookup(trades.value, tradesKey.value);
        if tradesData.None? || !tradesData.value.Rows? then ServerError
        else
          var rows := tradesData.value.rows;
          var book := Lookup(depth.value, depthKey.value).value;
          var tickerData := TickerRecord(ticker.value);
          Ok(Orderflow(PairOf(q), tradesKey.value, rows, book, ExtractTicker(tickerData),
                       ComputeMetrics(rows, book)))
  }

  /** The handler answers 200 exactly when all three requests succeeded, the
      trades result has a key other than `last` whose value is a list of
      trades, and the depth result has a key. */
  lemma HandleOrderflowOk(q: Query, trades: Option<ResultObject<TradesValue>>,
                          depth: Option<ResultObject<Depth>>, ticker: Option<ResultObject<TickerData>>)
    ensures HandleOrderflow(q, trades, depth, ticker).Ok?
      <==> trades.Some? && depth.Some? && ticker.Some? && depth.value != []
           && TradesKey(trades.value).Some?
           && Lookup(trades.value, TradesKey(trades.value).value).Some?
           && Lookup(trades.value, TradesKey(trades.value).value).value.Rows?
  {
    if trades.Some? && depth.Some? && depth.value != [] {
      assert Lookup(depth.value, depth.value[0].0).Some?;
    }
  }

  /** Summing by side splits over a concatenation of trade lists. */
  lemma {:induction false} SideVolumeAppend(a: seq<TradeRow>, b: seq<TradeRow>, flag: string)
    ensures SideVolume(a + b, flag) == SideVolume(a, flag) + SideVolume(b, flag)
  {
    if b != [] {
      assert (a + b)[..|a + b| - 1] == a + b[..|b| - 1];
      SideVolumeAppend(a, b[..|b| - 1], flag);
    } else {
      assert a + b == a;
    }
  }

  /** Counting walls splits over a concatenation of levels. */
  lemma {:induction false} WallsAppend(a: seq<BookEntry>, b: seq<BookEntry>)
    ensures Walls(a + b) == Walls(a) + Walls(b)
  {
    if b != [] {
      assert (a + b)[..|a + b| - 1] == a + b[..|b| - 1];
      WallsAppend(a, b[..|b| - 1]);
    } else {
      assert a + b == a;
    }
  }

  predicate NonNegativeVolumes(trades: seq<TradeRow>)
  {
    forall i :: 0 <= i < |trades| ==> trades[i].volume >= 0.0
  }

  /** Trades flagged neither "b" nor "s" count on neither side, so with
      non-negative volumes the two side volumes add up to at most the total,
      and to exactly the total when every flag is "b" or "s". */
  lemma {:induction false} SidesWithinTotal(trades: seq<TradeRow>)
    requires NonNegativeVolumes(trades)
    ensures SideVolume(trades, "b") + SideVolume(trades, "s") <= TotalVolume(trades)
    ensures (forall i :: 0 <= i < |trades| ==> trades[i].side == "b" || trades[i].side == "s")
            ==> SideVolume(trades, "b") + SideVolume(trades, "s") == TotalVolume(trades)
  {
    if trades != [] {
      SidesWithinTotal(trades[..|trades| - 1]);
    }
  }

  /** With no trades both side volumes are 0, the reduce's initial value. */
  lemma NoTradesNoVolume(depth: Depth)
    ensures ComputeMetrics([], depth).buyVolume == 0.0 && ComputeMetrics([], depth).sellVolume == 0.0
  {
  }
}
