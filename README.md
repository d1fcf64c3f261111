# Quetzalcoatl dashboard core, modelled in Dafny

Quetzalcoatl is a crypto-trading dashboard. A React front end shows market
charts, a sentiment gauge, rule settings and a trade log. A small Express
back end proxies Kraken's public API and sends scraped pages to a local
LLaMA server for sentiment analysis.

This project models the logic inside those pieces, one Dafny module per
source file:

- `VolumeTimeChart` groups trades into one-minute buckets of buy, sell and
  total volume, sorted by time.
- `OrderBookChart` rounds order-book levels to a precision chosen from the
  price range, sums the volume at each level, and masks bids above and asks
  below the mid price.
- `KrakenOrderflow` is the order-flow handler on the three fetched Kraken
  results. It picks the result keys, builds the ticker summary and computes
  the buy/sell volumes and the counts of "wall" levels.
- `StrategyLogs` covers the trade-log view: pages of ten, the
  "Showing x to y of n" line, button enabling, the CSV export and the colour
  classes.
- `TradingContext` is the trading settings store as a class. It covers the
  rule merge, the toggles, the reconnecting pair/mode updates, and the
  simulated market tick with its trade gate, amount cap and 100-entry
  newest-first log.
- `SentimentGauge` covers the clamp, the colour intensities, the seven
  labels, the two gauge slices and the percentage.
- `Analyze` is the `/analyze` route. It covers the URL check, the
  3000-character cap, the prompt, the reply normalisation and the label.
  Its error replies are modelled too.
- `ApiContext` is the API settings store as a class. It covers the settings
  kept in browser storage, the status reset whenever a setting changes, and
  the per-service connection test.
- `Common` holds the module helpers: an `Option` type, the sorted distinct
  key list that several charts build, and `join`/`split` on one separator.

Random draws (`Math.random`), the clock and the outcomes of network,
scraping and storage calls are parameters. Timers appear as separate
methods for the start and the end of an asynchronous step. Prices and
volumes are `real`. JavaScript truthiness of a number (0 counts as absent)
is made explicit.

## Model

| member | source | states |
|---|---|---|
| `Common.SortedDistinct` | src/components/charts/OrderBookChart.tsx:59-62 | the distinct keys, strictly ascending, each input key exactly once |
| `Common.SplitJoin` | src/components/StrategyLogs.tsx:49-53 | splitting a join at its separator gives the pieces back, when no piece holds the separator |
| `VolumeTimeChart.BucketTime` | src/components/charts/VolumeTimeChart.tsx:52 | a bucket time is a multiple of 60 with `b <= time < b + 60` |
| `VolumeTimeChart.ProcessChartData` | src/components/charts/VolumeTimeChart.tsx:32-76 | no trades give no buckets; times strictly ascending; exactly one bucket per distinct bucket time; each bucket holds the buy, sell and total sums of its trades |
| `VolumeTimeChart.FillBuckets` | src/components/charts/VolumeTimeChart.tsx:49-72 | the dictionary has a key for each bucket time that occurs, and each entry holds the sums of the trades in its minute |
| `VolumeTimeChart.ValuesInOrder` | src/components/charts/VolumeTimeChart.tsx:75 | lists the buckets in the order of the sorted times |
| `VolumeTimeChart.TotalIsBuyPlusSell` | src/components/charts/VolumeTimeChart.tsx:65-71 | in every bucket total volume = buy volume + sell volume |
| `VolumeTimeChart.NoVolumeOutside` | src/components/charts/VolumeTimeChart.tsx:50-72 | a minute no trade falls in has no volume in any column |
| `VolumeTimeChart.TradeHasBucket` | src/components/charts/VolumeTimeChart.tsx:52-63 | every trade's minute is among the bucket times |
| `VolumeTimeChart.AtMostOneBucketPerTrade` | src/components/charts/VolumeTimeChart.tsx:55-63 | there are at most as many buckets as trades |
| `VolumeTimeChart.SumOverConserves` | src/components/charts/VolumeTimeChart.tsx:65-71 | summing a column over distinct keys that cover every minute gives that column's volume over all trades |
| `VolumeTimeChart.ChartSumIsSumOver` | src/components/charts/VolumeTimeChart.tsx:75 | summing the chart column is summing the trades' volume over the chart's times |
| `VolumeTimeChart.VolumeConserved` | src/components/charts/VolumeTimeChart.tsx:65-75 | for every column the chart's sum equals the trades' volume of that column (buy counts only side "buy", sell the rest) |
| `OrderBookChart.Prices` | src/components/charts/OrderBookChart.tsx:33 | the prices of the levels, in order |
| `OrderBookChart.Max` | src/components/charts/OrderBookChart.tsx:35 | `Math.max` of a non-empty list: an element not below any other |
| `OrderBookChart.Min` | src/components/charts/OrderBookChart.tsx:34 | `Math.min` of a non-empty list: an element not above any other |
| `OrderBookChart.Precision` | src/components/charts/OrderBookChart.tsx:33-37 | precision is 4 or 2 |
| `OrderBookChart.PrecisionCoarse` | src/components/charts/OrderBookChart.tsx:36-37 | two prices at least 1 apart give precision 2 |
| `OrderBookChart.PrecisionFine` | src/components/charts/OrderBookChart.tsx:36-37 | all prices within an interval of width 1 (or none) give precision 4 |
| `OrderBookChart.HighestBid` | src/components/charts/OrderBookChart.tsx:40 | 0 with no bids, else a bid price not below any bid |
| `OrderBookChart.LowestAsk` | src/components/charts/OrderBookChart.tsx:41 | 0 with no asks, else an ask price not above any ask |
| `OrderBookChart.MidPriceBetween` | src/components/charts/OrderBookChart.tsx:40-42 | for `MidPrice` (the average of the best bid and best ask): in an uncrossed two-sided book every bid is at or below the mid price and every ask at or above it |
| `OrderBookChart.ToLevel` | src/components/charts/OrderBookChart.tsx:46 | the level is the price scaled by 10^precision, rounded to within half a tick, ties going away from zero as `toFixed` rounds |
| `OrderBookChart.GroupByLevel` | src/components/charts/OrderBookChart.tsx:45-56 | one entry per level that occurs (`LevelSet`), holding the sum of the volumes that round to it (`VolumeAt`) |
| `OrderBookChart.NoVolumeOff` | src/components/charts/OrderBookChart.tsx:66-67 | a level no entry rounds to has volume 0 (the `|| 0`) |
| `OrderBookChart.EntryHasLevel` | src/components/charts/OrderBookChart.tsx:45-49 | every entry's rounded level is among the levels |
| `OrderBookChart.TransformedData` | src/components/charts/OrderBookChart.tsx:29-77 | levels distinct and ascending, exactly the union of bid and ask levels, one point per union level, each point the masked sums at its level |
| `OrderBookChart.MaskedBars` | src/components/charts/OrderBookChart.tsx:64-74 | one point per sorted level, in order, each the masked bid and ask sums |
| `OrderBookChart.GroupedVolume` | src/components/charts/OrderBookChart.tsx:66-67 | reading a grouped map with the `|| 0` default gives the level's volume |
| `OrderBookChart.MaskAroundMid` | src/components/charts/OrderBookChart.tsx:64-74 | for the bar `DepthAt` builds at a level, comparing the level's number `LevelPrice` with `MidPrice`: above the mid price no bid volume, below it no ask volume, at it both kept |
| `OrderBookChart.VolumeAtNonNegative` | src/components/charts/OrderBookChart.tsx:45-56 | level sums are non-negative over non-negative volumes |
| `OrderBookChart.DepthNonNegative` | src/components/charts/OrderBookChart.tsx:64-74 | every chart volume is non-negative when the book's volumes are |
| `KrakenOrderflow.PairOf` | src/routes/kraken.js:32 | a missing pair defaults to BTCUSD |
| `KrakenOrderflow.DepthCountOf` | src/routes/kraken.js:32 | a missing depth count defaults to 500 |
| `KrakenOrderflow.DefaultRequests` | src/routes/kraken.js:38-50 | for the URLs `RequestUrls` builds: without a pair, the trades and ticker URLs name BTCUSD; without a depth count, the depth URL asks for 500 levels; with an empty query, the three URLs are 100 BTCUSD trades, 500 BTCUSD book levels and the BTCUSD ticker |
| `KrakenOrderflow.TradesKey` | src/routes/kraken.js:40 | a key other than `last`, found exactly when the result has one |
| `KrakenOrderflow.TradesKeyIsFirstNonLast` | src/routes/kraken.js:40 | the trades key is the earliest key that is not `last` |
| `KrakenOrderflow.FirstKey` | src/routes/kraken.js:46 | the first key, missing exactly for an empty result |
| `KrakenOrderflow.Lookup` | src/routes/kraken.js:41 | a value is found exactly when the key is present, and it is the value of the first entry with that key |
| `KrakenOrderflow.TickerField` | src/routes/kraken.js:64-70 | the field's element at the index, or 0 when the ticker, field or index is missing |
| `KrakenOrderflow.MissingTickerIsZero` | src/routes/kraken.js:63-71 | `ExtractTicker` on a missing ticker yields a summary of zeros |
| `KrakenOrderflow.CompleteTickerFields` | src/routes/kraken.js:63-71 | `ExtractTicker` on a complete record takes element 0 of the ask, bid and last fields and element 1 of volume, VWAP, high and low |
| `KrakenOrderflow.TickerRecord` | src/routes/kraken.js:52-53 | the ticker record is the value under the first key, missing for an empty result |
| `KrakenOrderflow.Walls` | src/routes/kraken.js:80-85 | the wall count is the number of positions whose volume exceeds 5, at most the number of levels, and 0 exactly when no level exceeds 5 |
| `KrakenOrderflow.HandleOrderflow` | src/routes/kraken.js:31-102 | a 200 reply echoes the requested pair; its Kraken pair is the trades key; its trades are the rows under that key; its book is the depth value under the first key; its ticker is `ExtractTicker` of the first ticker record; its metrics (`ComputeMetrics`) are those of its trades and book |
| `KrakenOrderflow.HandleOrderflowOk` | src/routes/kraken.js:36-101 | the reply is 200 exactly when all three fetches succeed, the trades result has a non-`last` key holding trade rows, and the depth result has a key |
| `KrakenOrderflow.SideVolumeAppend` | src/routes/kraken.js:74-79 | `SideVolume` is additive over concatenated trade lists |
| `KrakenOrderflow.WallsAppend` | src/routes/kraken.js:80-85 | the wall count is additive over concatenated level lists |
| `KrakenOrderflow.SidesWithinTotal` | src/routes/kraken.js:74-79 | for `SideVolume` with non-negative volumes, buy + sell <= total, with equality when every flag is `b` or `s` |
| `KrakenOrderflow.NoTradesNoVolume` | src/routes/kraken.js:74-85 | `ComputeMetrics` on no trades gives buy and sell volume 0 |
| `StrategyLogs.TotalPages` | src/components/StrategyLogs.tsx:12-43 | the number of pages is the ceiling of n/10, and 0 exactly for no logs |
| `StrategyLogs.Slice` | src/components/StrategyLogs.tsx:44 | JavaScript `slice`, which is the plain subsequence for in-range bounds |
| `StrategyLogs.PageContents` | src/components/StrategyLogs.tsx:44 | `PaginatedLogs`: any page holds at most 10 logs; a page in range holds the logs from index (page-1)*10, and 10 of them except on the last page |
| `StrategyLogs.PagesCoverLogs` | src/components/StrategyLogs.tsx:43-44 | pages 1 to totalPages concatenated give the whole log in order |
| `StrategyLogs.ShownMatchesPage` | src/components/StrategyLogs.tsx:131 | `Shown`: "Showing x to y of n" names exactly the 1-based positions of the page's logs |
| `StrategyLogs.NavigationNeedsElevenLogs` | src/components/StrategyLogs.tsx:128 | `ShowsNavigation`: the page buttons appear exactly with more than ten logs |
| `StrategyLogs.ExportDisabled` | src/components/StrategyLogs.tsx:71 | the export button is disabled exactly when there are no pages |
| `StrategyLogs.NavigationStaysInRange` | src/components/StrategyLogs.tsx:137-146 | with `PreviousDisabled` (page 1) and `NextDisabled` (the last page): an enabled Previous or Next button moves to a page still in 1..totalPages |
| `StrategyLogs.CsvRows` | src/components/StrategyLogs.tsx:50-53 | one CSV line per log, in log order |
| `StrategyLogs.CsvTextLines` | src/components/StrategyLogs.tsx:47-53 | `CsvText`: the text is the header and the log lines joined by line breaks; with no logs, the header and one empty line |
| `StrategyLogs.HeaderSplits` | src/components/StrategyLogs.tsx:48 | the header line has no line break and splits into its seven column names |
| `StrategyLogs.RowSplits` | src/components/StrategyLogs.tsx:51-52 | `CsvRow`, the row template: a log line has no line break and splits into the log's seven fields (`CsvFields`) |
| `StrategyLogs.CsvLayout` | src/components/StrategyLogs.tsx:46-53 | `CsvContent`, the `csvContent` string: the export is the data-URL prefix, the header line, then one line per log in order, each splitting into seven fields |
| `StrategyLogs.ClassesTotal` | src/components/StrategyLogs.tsx:25-41 | `SentimentClass` and `ActionClass`: every sentiment and action gets a class, unknown values get `''`, and both maps share one palette |
| `TradingContext.MergeOverwritesSupplied` | src/contexts/TradingContext.tsx:105-107 | `MergeRules`, the spread `{...prev, ...rules}`: a rule update takes the supplied fields and keeps the rest |
| `TradingContext.MergeLaws` | src/contexts/TradingContext.tsx:105-107 | the merge is idempotent, the empty patch changes nothing, a full patch replaces everything, and two merges are one merge of the combined patch |
| `TradingContext.PriceChange` | src/contexts/TradingContext.tsx:130 | the price change lies in [-100, 100) |
| `TradingContext.NextVolume` | src/contexts/TradingContext.tsx:135 | the volume lies in [1000000, 6000000) |
| `TradingContext.NextPrice` | src/contexts/TradingContext.tsx:130-133 | with `Present` (JavaScript truthiness: missing or 0 is absent): the new price is within 100 of the current price, or of 40000 when there is no non-zero price |
| `TradingContext.NextHigh` | src/contexts/TradingContext.tsx:140-142 | with `Present` as the truthiness test: the high is at least the new price and the old high, and moves only to the new price; unset, it starts 500 above the new price |
| `TradingContext.NextLow` | src/contexts/TradingContext.tsx:143-145 | the mirror image of the high |
| `TradingContext.TradeAmount` | src/contexts/TradingContext.tsx:156-159 | the amount is at most both caps and equal to one of them |
| `TradingContext.TradeAmountUnderCap` | src/contexts/TradingContext.tsx:156-159 | for a draw in [0, 1) the amount never exceeds maxUsdPerTrade |
| `TradingContext.ActionOf` | src/contexts/TradingContext.tsx:155 | the tick only buys or sells, never holds |
| `TradingContext.PushLog` | src/contexts/TradingContext.tsx:173 | the new log goes first, the old logs follow in order, and the length stays within 1..100 |
| `TradingContext.PushLogDropsOldest` | src/contexts/TradingContext.tsx:173 | with a full log the oldest entry is the one dropped |
| `TradingContext.Trading.constructor` | src/contexts/TradingContext.tsx:59-83 | the initial settings, rules and empty market data |
| `TradingContext.Trading.UpdatePair` | src/contexts/TradingContext.tsx:85-91 | sets the pair; disconnects and asks for a reconnect exactly when connected; nothing else changes |
| `TradingContext.Trading.UpdateDataMode` | src/contexts/TradingContext.tsx:93-99 | sets the mode; disconnects and asks for a reconnect exactly when connected; nothing else changes |
| `TradingContext.Trading.UpdateRefreshRate` | src/contexts/TradingContext.tsx:101-103 | sets only the refresh rate |
| `TradingContext.Trading.UpdateTradeRules` | src/contexts/TradingContext.tsx:105-107 | the rules become the merge of the old rules and the patch |
| `TradingContext.Trading.ToggleAutoTrading` | src/contexts/TradingContext.tsx:109-112 | flips only the auto-trading flag; the message reflects the flag before the flip |
| `TradingContext.Trading.TogglePaperTrading` | src/contexts/TradingContext.tsx:114-117 | flips only the paper-trading flag; the message reflects the flag before the flip |
| `TradingContext.Trading.ToggleVerboseLogging` | src/contexts/TradingContext.tsx:119-121 | flips only the verbose flag |
| `TradingContext.Trading.ConnectToMarket` | src/contexts/TradingContext.tsx:193-204 | ends connected |
| `TradingContext.Trading.DisconnectFromMarket` | src/contexts/TradingContext.tsx:206-209 | ends disconnected |
| `TradingContext.Trading.Tick` | src/contexts/TradingContext.tsx:127-185 | the new market data from the draws and clock; a trade logged exactly when `LogsTrade` holds, that is when auto-trading is on, the volume exceeds the threshold and the amount reaches the minimum; the entry copies the pair, volume, sentiment and paper mode; the log stays bounded and the high/low bracket the price |
| `SentimentGauge.SafeValue` | src/components/charts/SentimentGauge.tsx:17 | the clamped value lies in [0, 1], equals the value when in range, and is 0 below and 1 above |
| `SentimentGauge.SafeValueIdempotent` | src/components/charts/SentimentGauge.tsx:17 | clamping twice is clamping once |
| `SentimentGauge.IntensitySaturates` | src/components/charts/SentimentGauge.tsx:21 | on [0, 1] `Intensity` lies in 0..255 and is 255 exactly from 0.5 up |
| `SentimentGauge.ColorsSaturateAtNeutral` | src/components/charts/SentimentGauge.tsx:20-28 | for `BullColor` (green) and `BearColor` (red): both channels lie in 0..255, green is full exactly at or above 0.5, red exactly at or below 0.5, and both only at 0.5 |
| `SentimentGauge.LabelTextsDistinct` | src/components/charts/SentimentGauge.tsx:31-39 | the seven label texts are pairwise different |
| `SentimentGauge.LabelBand` | src/components/charts/SentimentGauge.tsx:31-39 | `SentimentLabel` (`getSentimentText`): a value gets a label exactly when it is at or above that label's threshold and below the next one up |
| `SentimentGauge.LabelMonotone` | src/components/charts/SentimentGauge.tsx:31-39 | a larger value never gets a more bearish label |
| `SentimentGauge.GaugeData` | src/components/charts/SentimentGauge.tsx:42-45 | two slices, Bull then Bear |
| `SentimentGauge.GaugeFillsHalfCircle` | src/components/charts/SentimentGauge.tsx:42-45 | the slices are non-negative and sum to 1, the bull slice being the value |
| `SentimentGauge.Round` | src/components/charts/SentimentGauge.tsx:48 | `Math.round` is within half of its argument, halves rounding up |
| `SentimentGauge.PercentageInRange` | src/components/charts/SentimentGauge.tsx:48 | `BullishPercentage`: the percentage is a whole number in 0..100, within half a point of value*100, and 50 at the neutral point |
| `Analyze.TrimmedText` | src/routes/analyze.ts:32 | a prefix of the scraped text of length min(length, 3000) |
| `Analyze.Prompt` | src/routes/analyze.ts:35 | the prompt starts with the instruction, ends with one closing quote, and holds exactly the text in between |
| `Analyze.PromptRoundTrip` | src/routes/analyze.ts:35 | the text is read back between the instruction and the closing quote |
| `Analyze.TrimStart` | src/routes/analyze.ts:48 | drops exactly the leading white space, `IsSpace` being the white space and line terminators `trim()` removes |
| `Analyze.TrimEnd` | src/routes/analyze.ts:48 | drops exactly the trailing white space |
| `Analyze.Trim` | src/routes/analyze.ts:48 | the result is a slice of the input with only white space cut off before and after it, and it neither starts nor ends with white space |
| `Analyze.TrimBothEnds` | src/routes/analyze.ts:48 | cutting leading then trailing white space leaves the inner slice, with only white space on either side |
| `Analyze.Lower` | src/routes/analyze.ts:48 | lowers A to Z character by character |
| `Analyze.Normalize` | src/routes/analyze.ts:48 | the raw response has no white space at either end and no upper-case letter A to Z |
| `Analyze.LowerCharKeepsSpace` | src/routes/analyze.ts:48 | lowering a character leaves no letter A to Z and keeps white space white space |
| `Analyze.Contains` | src/routes/analyze.ts:51-52 | true exactly when the word occurs at some position |
| `Analyze.Classify` | src/routes/analyze.ts:49-52 | positive exactly when "positive" occurs; negative exactly when "negative" occurs and "positive" does not; else neutral |
| `Analyze.HandleAnalyze` | src/routes/analyze.ts:12-66 | with `Request` (analyze.ts:39-46: endpoint, model `llama`, one user message holding the prompt, temperature 0.2, 50 tokens, 10 s timeout) as what is sent: 400 exactly for a missing or empty URL; the scrape error exactly when scraping threw; an analysis carries the trimmed text, the normalised reply to that text's prompt and its label |
| `Analyze.AnalysisExactlyWhenContent` | src/routes/analyze.ts:37-62 | once the page is scraped, the reply is an analysis exactly when the LLaMA server returns content |
| `Analyze.ClassifyIgnoresCase` | src/routes/analyze.ts:48-52 | an upper-cased reply normalises, and so classifies, like the original |
| `ApiContext.WithStatus` | src/contexts/ApiContext.tsx:67 | the spread update sets one service and leaves the other two alone |
| `ApiContext.Stored` | src/contexts/ApiContext.tsx:26-40 | a stored non-empty item, else the fallback |
| `ApiContext.ResetForgetsConnections` | src/contexts/ApiContext.tsx:90-97 | `ResetStatuses`: after a reset no service is connected or connecting, and a service is in error exactly when one of its settings is empty |
| `ApiContext.TestsCommute` | src/contexts/ApiContext.tsx:67-84 | status updates of two different services commute |
| `ApiContext.ClearedLlamaUrlReloadsAsDefault` | src/contexts/ApiContext.tsx:38-63 | after clearing the LLaMA URL a reload reads back the default URL |
| `ApiContext.Api.constructor` | src/contexts/ApiContext.tsx:26-46 | settings read from storage with the default LLaMA URL, statuses as the first run of the reset effect sets them |
| `ApiContext.Api.SettingsEffect` | src/contexts/ApiContext.tsx:90-97 | recomputes all statuses when a setting changed, otherwise leaves them |
| `ApiContext.Api.UpdateKrakenCredentials` | src/contexts/ApiContext.tsx:48-53 | sets key and secret and both storage items, touches no other setting, resets the statuses exactly when a value changed |
| `ApiContext.Api.UpdateSqlConnection` | src/contexts/ApiContext.tsx:55-58 | sets the connection string and its storage item, resets the statuses exactly when it changed |
| `ApiContext.Api.UpdateLlamaApiUrl` | src/contexts/ApiContext.tsx:60-63 | sets the URL and its storage item, resets the statuses exactly when it changed |
| `ApiContext.Api.StartTest` | src/contexts/ApiContext.tsx:67 | the tested service becomes connecting, the others unchanged |
| `ApiContext.Api.FinishTest` | src/contexts/ApiContext.tsx:70-87 | the tested service becomes connected on success (draw above 0.3, no exception), else in error; the result says which |
| `ApiContext.Api.TestConnection` | src/contexts/ApiContext.tsx:65-88 | returns true exactly when the service ends connected, else it ends in error; the other services keep their status |

## Left out

- The Ichimoku candle store, indicator and signal engine are not modelled; `IchimokuSignalsList.tsx` only renders their record type.
- All rendering: JSX, Recharts and the UI components, including `ConnectionPanel.tsx`, `TradingStrategy.tsx`, `MarketMonitor.tsx`, `SentimentAnalysis.tsx`, `AppLayout.tsx` and `Dashboard.tsx`.
- `SentimentContext.tsx`: its only behaviour is a delay followed by a random pick.
- `kraken-test.js`, the `/api/test-kraken` route and `start.cjs`: these are network and process plumbing.
- Number and date formatting (`toLocaleString`, `toLocaleTimeString`, `Intl.NumberFormat`, `toISOString`, `toFixed` in log text). The CSV export takes the date and number printers as a parameter.
- Console logging and toasts. The only toast text kept is what the two toggles return.
- Floating point. Every quantity is an exact `real`, so there is no rounding error, NaN or infinity.
- Timers. The 500 ms reconnect is reported by `UpdatePair`/`UpdateDataMode` returning `reconnect`. The 1000 ms connect delay and the 1500 ms test delay are split into the methods that run after them. The interval itself is the caller invoking `Tick`.
- `VolumeTimeChart.ProcessChartData`: the unused `now` and `minTime` values and the bucket's display `timestamp` string are not modelled.
- `OrderBookChart.ToLevel`: levels are integer ticks rather than `toFixed` strings. A tiny negative price whose string would be "-0.00" shares level 0 with "0.00". Book prices are positive, so this does not arise for real books.
- `KrakenOrderflow.HandleOrderflow`: the reply omits `success`, `fetchedAt` and, on error, the `details` and `path` fields. Prices and volumes arrive as numbers rather than strings for `parseFloat`.
- `TradingContext.Trading.Tick`: the market data's `lastUpdated`, the log `id` and the log `timestamp` are three clock reads in the source; the model gives all three the one clock value `now`. The volume-driven 'hold' action never occurs in the source and is not produced.
- `TradingContext.Trading.ConnectToMarket`: its `catch` branch is not modelled, because nothing inside its `try` can throw once the toast is left out.
- `Analyze.Lower`: it covers the ASCII letters only. Other Unicode case mappings of `toLowerCase` are not modelled, and "positive"/"negative" are ASCII words.
- `Analyze.TrimmedText`: it counts characters as code points, whereas JavaScript's `substring` counts UTF-16 code units.
- `KrakenOrderflow.Lookup`: a Kraken `result` object is modelled as a list of key/value pairs in key order. A parsed JSON object has distinct keys; a list could hold a key twice, in which case `Lookup` takes the first entry, whereas `JSON.parse` keeps the last. Kraken results have distinct keys, so the model assumes none is repeated.
- `Analyze.HandleAnalyze`: the outer "Failed to analyze content" reply is unreachable in the model, because every failure it could catch is handled by the two inner `catch` blocks. The `url` field is a string or missing; other JSON types are not modelled.
- Browser storage is a map field of `ApiContext.Api`. Real storage failures (quota, private mode) are not modelled.
