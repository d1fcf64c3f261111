/** The simulated trading state: the selected pair and data mode, the trade
    rules, the flags toggled from the settings panel, the simulated market
    figures, and the bounded log of trades the rules let through. Each
    interval tick moves the price, keeps the running 24-hour high and low,
    and logs a trade when the rules allow it. */
module TradingContext {
  import opened Common

  datatype TradingPair = BtcUsd | EthUsd | XrpUsd | AdaUsd | SolUsd

  datatype DataMode = WebSocket | Rest

  datatype Sentiment = Positive | Neutral | Negative

  datatype Action = Buy | Sell | Hold

  datatype TradeRule = TradeRule(volumeThreshold: real, sentiment: Sentiment, maxUsdPerTrade: real,
                                 minUsdThreshold: real, portfolioPercentage: real)

  /** `Partial<TradeRule>`: the fields a caller supplies. */
  datatype RulePatch = RulePatch(volumeThreshold: Option<real>, sentiment: Option<Sentiment>,
                                 maxUsdPerTrade: Option<real>, minUsdThreshold: Option<real>,
                                 portfolioPercentage: Option<real>)

  /** One logged trade; `id` and `timestamp` both come from the clock, in ms. */
  datatype TradeLog = TradeLog(id: int, timestamp: int, pair: TradingPair, volumeChecked: real,
                               sentiment: Sentiment, action: Action, usdAmount: real, paperMode: bool)

  /** The simulated market figures; None is the source's `null`. */
  datatype MarketData = MarketData(price: Option<real>, volume24h: Option<real>, high24h: Option<real>,
                                   low24h: Option<real>, lastUpdated: Option<int>)

  function PairName(p: TradingPair): string
  {
    match p
    case BtcUsd => "BTC/USD"
    case EthUsd => "ETH/USD"
    case XrpUsd => "XRP/USD"
    case AdaUsd => "ADA/USD"
    case SolUsd => "SOL/USD"
  }

  function SentimentName(s: Sentiment): string
  {
    match s
    case Positive => "positive"
    case Neutral => "neutral"
    case Negative => "negative"
  }

  function ActionName(a: Action): string
  {
    match a
    case Buy => "buy"
    case Sell => "sell"
    case Hold => "hold"
  }

  const DefaultRules: TradeRule := TradeRule(1000000.0, Positive, 500.0, 10.0, 5.0)
  const DefaultRefreshRate: int := 3000
  /** Price assumed when there is no (non-zero) price yet. */
  const StartPrice: real := 40000.0
  /** Distance of a fresh 24-hour high and low from the price. */
  const HighLowMargin: real := 500.0
  /** Length bound of the trade log. */
  const MaxLogs: nat := 100

  /** `{ ...rules, ...patch }`. */
  function MergeRules(rules: TradeRule, patch: RulePatch): TradeRule
  {
    TradeRule(
      if patch.volumeThreshold.Some? then patch.volumeThreshold.value else rules.volumeThreshold,
      if patch.sentiment.Some? then patch.sentiment.value else rules.sentiment,
      if patch.maxUsdPerTrade.Some? then patch.maxUsdPerTrade.value else rules.maxUsdPerTrade,
      if patch.minUsdThreshold.Some? then patch.minUsdThreshold.value else rules.minUsdThreshold,
      if patch.portfolioPercentage.Some? then patch.portfolioPercentage.value else rules.portfolioPercentage)
  }

  /** The patch that sets every field of `rules`. */
  function FullPatch(rules: TradeRule): RulePatch
  {
    RulePatch(Some(rules.volumeThreshold), Some(rules.sentiment), Some(rules.maxUsdPerTrade),
              Some(rules.minUsdThreshold), Some(rules.portfolioPercentage))
  }

  const EmptyPatch: RulePatch := RulePatch(None, None, None, None, None)

  /** One patch applied after another: the later patch's fields win. */
  function ThenPatch(p: RulePatch, q: RulePatch): RulePatch
  {
    RulePatch(if q.volumeThreshold.Some? then q.volumeThreshold else p.volumeThreshold,
              if q.sentiment.Some? then q.sentiment else p.sentiment,
              if q.maxUsdPerTrade.Some? then q.maxUsdPerTrade else p.maxUsdPerTrade,
              if q.minUsdThreshold.Some? then q.minUsdThreshold else p.minUsdThreshold,
              if q.portfolioPercentage.Some? then q.portfolioPercentage else p.portfolioPercentage)
  }

  /** A supplied field is taken from the patch, a missing one kept. */
  lemma MergeOverwritesSupplied(rules: TradeRule, patch: RulePatch)
    ensures var r := MergeRules(rules, patch);
            && (patch.volumeThreshold.Some? ==> r.volumeThreshold == patch.volumeThreshold.value)
            && (patch.volumeThreshold.None? ==> r.volumeThreshold == rules.volumeThreshold)
            && (patch.sentiment.Some? ==> r.sentiment == patch.sentiment.value)
            && (patch.sentiment.None? ==> r.sentiment == rules.sentiment)
            && (patch.maxUsdPerTrade.Some? ==> r.maxUsdPerTrade == patch.maxUsdPerTrade.value)
            && (patch.maxUsdPerTrade.None? ==> r.maxUsdPerTrade == rules.maxUsdPerTrade)
            && (patch.minUsdThreshold.Some? ==> r.minUsdThreshold == patch.minUsdThreshold.value)
            && (patch.minUsdThreshold.None? ==> r.minUsdThreshold == rules.minUsdThreshold)
            && (patch.portfolioPercentage.Some? ==> r.portfolioPercentage == patch.portfolioPercentage.value)
            && (patch.portfolioPercentage.None? ==> r.portfolioPercentage == rules.portfolioPercentage)
  {
  }

  /** A merge is idempotent, the empty patch changes nothing, a full patch
      replaces everything, and two merges in turn are one merge of the
      combined patch. */
  lemma MergeLaws(rules: TradeRule, other: TradeRule, p: RulePatch, q: RulePatch)
    ensures MergeRules(MergeRules(rules, p), p) == MergeRules(rules, p)
    ensures MergeRules(rules, EmptyPatch) == rules
    ensures MergeRules(rules, FullPatch(other)) == other
    ensures MergeRules(MergeRules(rules, p), q) == MergeRules(rules, ThenPatch(p, q))
  {
  }

  /** JavaScript truthiness of a figure: null and 0 both count as absent. */
  predicate Present(x: Option<real>)
  {
    x.Some? && x.value != 0.0
  }

  /** `(Math.random() - 0.5) * 200`. */
  function PriceChange(r: real): (c: real)
    requires 0.0 <= r < 1.0
    ensures -100.0 <= c < 100.0
  {
    (r - 0.5) * 200.0
  }

  /** `Math.random() * 5000000 + 1000000`. */
  function NextVolume(r: real): (v: real)
    requires 0.0 <= r < 1.0
    ensures 1000000.0 <= v < 6000000.0
  {
    r * 5000000.0 + 1000000.0
  }

  /** The new price from the draw `r`: less than 100 away from the current
      price, or from the starting price when there is no (non-zero) price. */
  function NextPrice(price: Option<real>, r: real): (p: real)
    requires 0.0 <= r < 1.0
    ensures var basis := if Present(price) then price.value else StartPrice;
            basis - 100.0 <= p < basis + 100.0
  {
    (if Present(price) then price.value else StartPrice) + PriceChange(r)
  }

  /** The running 24-hour high: never below the new price, never below the
      old high, and moving only to the new price; a missing high starts at
      the new price plus the margin. */
  function NextHigh(high: Option<real>, newPrice: real): (h: real)
    ensures h >= newPrice
    ensures Present(high) ==> h >= high.value && (h == high.value || h == newPrice)
    ensures !Present(high) ==> h == newPrice + HighLowMargin
  {
    if Present(high) then (if high.value >= newPrice then high.value else newPrice) else newPrice + HighLowMargin
  }

  /** The running 24-hour low, the mirror image of the high. */
  function NextLow(low: Option<real>, newPrice: real): (l: real)
    ensures l <= newPrice
    ensures Present(low) ==> l <= low.value && (l == low.value || l == newPrice)
    ensures !Present(low) ==> l == newPrice - HighLowMargin
  {
    if Present(low) then (if low.value <= newPrice then low.value else newPrice) else newPrice - HighLowMargin
  }

  /** `Math.min(r * maxUsdPerTrade, newPrice * portfolioPercentage / 100)`:
      never above either cap, and equal to one of them. */
  function TradeAmount(r: real, rules: TradeRule, newPrice: real): (a: real)
    ensures a <= r * rules.maxUsdPerTrade
    ensures a <= newPrice * rules.portfolioPercentage / 100.0
    ensures a == r * rules.maxUsdPerTrade || a == newPrice * rules.portfolioPercentage / 100.0
  {
    var byCap := r * rules.maxUsdPerTrade;
    var byPortfolio := newPrice * rules.portfolioPercentage / 100.0;
    if byCap <= byPortfolio then byCap else byPortfolio
  }

  /** For a draw in [0, 1) and a non-negative cap, the amount stays under
      the per-trade cap. */
  lemma TradeAmountUnderCap(r: real, rules: TradeRule, newPrice: real)
    requires 0.0 <= r < 1.0
    requires rules.maxUsdPerTrade >= 0.0
    ensures TradeAmount(r, rules, newPrice) <= rules.maxUsdPerTrade
  {
    CapScales(r, rules.maxUsdPerTrade);
    assert TradeAmount(r, rules, newPrice) <= r * rules.maxUsdPerTrade;
  }

  lemma CapScales(r: real, m: real)
    requires 0.0 <= r < 1.0 && m >= 0.0
    ensures r * m <= m
  {
    MulNonNegative(1.0 - r, m);
    assert (1.0 - r) * m == m - r * m;
  }

  lemma MulNonNegative(a: real, b: real)
    requires a >= 0.0 && b >= 0.0
    ensures a * b >= 0.0
  {
  }

  /** `Math.random() > 0.5 ? 'buy' : 'sell'`. */
  function ActionOf(r: real): (a: Action)
    ensures a != Hold
  {
    if r > 0.5 then Buy else Sell
  }

  /** `[log, ...logs].slice(0, 100)`. */
  function PushLog(logs: seq<TradeLog>, log: TradeLog): (r: seq<TradeLog>)
    ensures 1 <= |r| <= MaxLogs
    ensures |r| == if |logs| < MaxLogs then |logs| + 1 else MaxLogs
    ensures r[0] == log
    ensures r[1..] == logs[..|r| - 1]
  {
    var all := [log] + logs;
    if |all| <= MaxLogs then all else all[..MaxLogs]
  }

  /** The newest log comes first; once the log is full, the oldest entry is
      the one dropped. */
  lemma PushLogDropsOldest(logs: seq<TradeLog>, log: TradeLog)
    requires |logs| == MaxLogs
    ensures PushLog(logs, log) == [log] + logs[..MaxLogs - 1]
  {
  }

  /** The gate of the tick: auto-trading on, volume above the threshold and
      an amount of at least the minimum. */
  predicate LogsTrade(autoTrading: bool, newVolume: real, rules: TradeRule, amount: real)
  {
    autoTrading && newVolume > rules.volumeThreshold && amount >= rules.minUsdThreshold
  }

  class Trading {
    var selectedPair: TradingPair
    var dataMode: DataMode
    var refreshRate: int
    var autoTrading: bool
    var paperTrading: bool
    var verboseLogging: bool
    var isConnected: bool
    var tradeRules: TradeRule
    var tradeLogs: seq<TradeLog>
    var market: MarketData

    /** The log stays bounded, and once a tick has set a price the high and
        low bracket it. */
    ghost predicate Valid()
      reads this
    {
      && |tradeLogs| <= MaxLogs
      && (market.price.Some? ==>
            market.high24h.Some? && market.low24h.Some?
            && market.low24h.value <= market.price.value <= market.high24h.value)
    }

    constructor ()
      ensures Valid()
      ensures selectedPair == BtcUsd && dataMode == WebSocket && refreshRate == DefaultRefreshRate
      ensures !autoTrading && paperTrading && !verboseLogging && !isConnected
      ensures tradeRules == DefaultRules && tradeLogs == []
      ensures market == MarketData(None, None, None, None, None)
    {
      selectedPair, dataMode, refreshRate := BtcUsd, WebSocket, DefaultRefreshRate;
      autoTrading, paperTrading, verboseLogging, isConnected := false, true, false, false;
      tradeRules, tradeLogs := DefaultRules, [];
      market := MarketData(None, None, None, None, None);
    }

    /** Selecting a pair while connected disconnects; `reconnect` says that a
        reconnection is scheduled for 500 ms later. */
    method UpdatePair(pair: TradingPair) returns (reconnect: bool)
      requires Valid()
      modifies this
      ensures Valid()
      ensures selectedPair == pair && reconnect == old(isConnected) && !isConnected
      ensures dataMode == old(dataMode) && refreshRate == old(refreshRate) && autoTrading == old(autoTrading)
      ensures paperTrading == old(paperTrading) && verboseLogging == old(verboseLogging)
      ensures tradeRules == old(tradeRules) && tradeLogs == old(tradeLogs) && market == old(market)
    {
      selectedPair := pair;
      reconnect := isConnected;
      if isConnected {
        DisconnectFromMarket();
      }
    }

    method UpdateDataMode(mode: DataMode) returns (reconnect: bool)
      requires Valid()
      modifies this
      ensures Valid()
      ensures dataMode == mode && reconnect == old(isConnected) && !isConnected
      ensures selectedPair == old(selectedPair) && refreshRate == old(refreshRate) && autoTrading == old(autoTrading)
      ensures paperTrading == old(paperTrading) && verboseLogging == old(verboseLogging)
      ensures tradeRules == old(tradeRules) && tradeLogs == old(tradeLogs) && market == old(market)
    {
      dataMode := mode;
      reconnect := isConnected;
      if isConnected {
        DisconnectFromMarket();
      }
    }

    method UpdateRefreshRate(rate: int)
      requires Valid()
      modifies this`refreshRate
      ensures Valid()
      ensures refreshRate == rate
    {
      refreshRate := rate;
    }

    /** Overwrites exactly the supplied rule fields. */
    method UpdateTradeRules(patch: RulePatch)
      requires Valid()
      modifies this`tradeRules
      ensures Valid()
      ensures tradeRules == MergeRules(old(tradeRules), patch)
    {
      tradeRules := MergeRules(tradeRules, patch);
    }

    /** Flips auto-trading; the message is the toast, chosen from the flag
        before the flip. */
    method ToggleAutoTrading() returns (message: string)
      requires Valid()
      modifies this`autoTrading
      ensures Valid()
      ensures autoTrading == !old(autoTrading)
      ensures message == if old(autoTrading) then "Auto-trading disabled" else "Auto-trading enabled"
    {
      message := if autoTrading then "Auto-trading disabled" else "Auto-trading enabled";
      autoTrading := !autoTrading;
    }

    method TogglePaperTrading() returns (message: string)
      requires Valid()
      modifies this`paperTrading
      ensures Valid()
      ensures paperTrading == !old(paperTrading)
      ensures message == if old(paperTrading) then "Live trading mode" else "Paper trading mode"
    {
      message := if paperTrading then "Live trading mode" else "Paper trading mode";
      paperTrading := !paperTrading;
    }

    method ToggleVerboseLogging()
      requires Valid()
      modifies this`verboseLogging
      ensures Valid()
      ensures verboseLogging == !old(verboseLogging)
    {
      verboseLogging := !verboseLogging;
    }

    /** The end of `connectToMarket`, once its simulated delay is over. */
    method ConnectToMarket()
      requires Valid()
      modifies this`isConnected
      ensures Valid()
      ensures isConnected
    {
      isConnected := true;
    }

    method DisconnectFromMarket()
      requires Valid()
      modifies this`isConnected
      ensures Valid()
      ensures !isConnected
    {
      isConnected := false;
    }

    /** One interval tick; it only runs while connected. `rPrice`,
        `rVolume`, `rAction` and `rAmount` are the four `Math.random()`
        draws, `now` the clock. Returns the trade it logged, if any. */
    method Tick(rPrice: real, rVolume: real, rAction: real, rAmount: real, now: int)
      returns (logged: Option<TradeLog>)
      requires Valid() && isConnected
      requires 0.0 <= rPrice < 1.0 && 0.0 <= rVolume < 1.0 && 0.0 <= rAction < 1.0 && 0.0 <= rAmount < 1.0
      modifies this`market, this`tradeLogs
      ensures Valid()
      ensures var newPrice := NextPrice(old(market.price), rPrice);
              market == MarketData(Some(newPrice), Some(NextVolume(rVolume)),
                                   Some(NextHigh(old(market.high24h), newPrice)),
                                   Some(NextLow(old(market.low24h), newPrice)), Some(now))
      ensures var newPrice := NextPrice(old(market.price), rPrice);
              var amount := TradeAmount(rAmount, tradeRules, newPrice);
              if LogsTrade(autoTrading, NextVolume(rVolume), tradeRules, amount) then
                logged == Some(TradeLog(now, now, selectedPair, NextVolume(rVolume), tradeRules.sentiment,
                                        ActionOf(rAction), amount, paperTrading))
                && tradeLogs == PushLog(old(tradeLogs), logged.value)
              else
                logged == None && tradeLogs == old(tradeLogs)
    {
      var newPrice := NextPrice(market.price, rPrice);
      var newVolume := NextVolume(rVolume);
      market := MarketData(Some(newPrice), Some(newVolume), Some(NextHigh(market.high24h, newPrice)),
                           Some(NextLow(market.low24h, newPrice)), Some(now));
      logged := None;
      if autoTrading && newVolume > tradeRules.volumeThreshold {
        var tradeAction := ActionOf(rAction);
        var tradeAmount := TradeAmount(rAmount, tradeRules, newPrice);
        if tradeAmount >= tradeRules.minUsdThreshold {
          var newLog := TradeLog(now, now, selectedPair, newVolume, tradeRules.sentiment,
                                 tradeAction, tradeAmount, paperTrading);
          tradeLogs := PushLog(tradeLogs, newLog);
          logged := Some(newLog);
        }
      }
    }
  }
}
