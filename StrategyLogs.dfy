/** The strategy-log view's logic: pages of ten logs, the "Showing x to y of
    n" line, which navigation buttons are enabled, the CSV export, and the
    colour classes of sentiments and actions. */
module StrategyLogs {
  import opened Common
  import opened TradingContext

  const PageSize: nat := 10

  /** `Math.ceil(n / 10)`. */
  function TotalPages(n: nat): (p: nat)
    ensures p * PageSize >= n
    ensures p > 0 ==> (p - 1) * PageSize < n
    ensures p == 0 <==> n == 0
  {
    (n + PageSize - 1) / PageSize
  }

  /** JavaScript's `s.slice(start, end)`: a negative bound counts from the
      end, bounds are clamped to the sequence, and a start past the end gives
      the empty sequence. */
  function Slice<T>(s: seq<T>, start: int, end: int): (r: seq<T>)
    ensures 0 <= start <= end <= |s| ==> r == s[start..end]
  {
    var from := if start < 0 then Max0(|s| + start) else Min(start, |s|);
    var to := if end < 0 then Max0(|s| + end) else Min(end, |s|);
    if from < to then s[from..to] else []
  }

  function Max0(x: int): nat { if x < 0 then 0 else x }

  function Min(x: int, y: int): int { if x <= y then x else y }

  /** `tradeLogs.slice((page - 1) * 10, page * 10)`. */
  function PaginatedLogs(logs: seq<TradeLog>, page: int): seq<TradeLog>
  {
    Slice(logs, (page - 1) * PageSize, page * PageSize)
  }

  /** Whatever the page number, a page holds at most ten logs, and a page in
      range holds exactly the logs from its first index, ten of them except
      possibly on the last page. */
  lemma PageContents(logs: seq<TradeLog>, page: int)
    ensures |PaginatedLogs(logs, page)| <= PageSize
    ensures 1 <= page <= TotalPages(|logs|) ==>
              var start := (page - 1) * PageSize;
              PaginatedLogs(logs, page) == logs[start..Min(page * PageSize, |logs|)]
              && (page < TotalPages(|logs|) ==> |PaginatedLogs(logs, page)| == PageSize)
  {
  }

  /** The logs of pages `from` to `to - 1`, one after the other. */
  function Pages(logs: seq<TradeLog>, from: int, to: int): seq<TradeLog>
    decreases to - from
  {
    if from >= to then [] else PaginatedLogs(logs, from) + Pages(logs, from + 1, to)
  }

  /** Reading the pages from 1 to the last in turn gives back the whole log,
      in order. */
  lemma PagesCoverLogs(logs: seq<TradeLog>)
    ensures Pages(logs, 1, TotalPages(|logs|) + 1) == logs
  {
    PagesFrom(logs, 1);
  }

  lemma {:induction false} PagesFrom(logs: seq<TradeLog>, page: int)
    requires 1 <= page <= TotalPages(|logs|) + 1
    ensures Pages(logs, page, TotalPages(|logs|) + 1) == logs[Min((page - 1) * PageSize, |logs|)..]
    decreases TotalPages(|logs|) + 1 - page
  {
    var n := |logs|;
    if page == TotalPages(n) + 1 {
      assert Min((page - 1) * PageSize, n) == n;
    } else {
      PagesFrom(logs, page + 1);
      var a, b := (page - 1) * PageSize, Min(page * PageSize, n);
      PageContents(logs, page);
      assert Min(a, n) == a;
      if page < TotalPages(n) {
        assert b == page * PageSize;
      } else {
        assert b == n;
        assert Min(page * PageSize, n) == n;
      }
      assert logs[a..] == logs[a..b] + logs[b..];
    }
  }

  /** The numbers of "Showing {first} to {last} of {total} logs". */
  datatype ShownRange = ShownRange(first: int, last: int, total: nat)

  function Shown(page: int, n: nat): ShownRange
  {
    ShownRange((page - 1) * PageSize + 1, Min(page * PageSize, n), n)
  }

  /** For a page in range the line names exactly the positions (counting
      from 1) of the logs on that page. */
  lemma ShownMatchesPage(logs: seq<TradeLog>, page: int)
    requires 1 <= page <= TotalPages(|logs|)
    ensures var r := Shown(page, |logs|);
            && r.first == (page - 1) * PageSize + 1
            && r.last == (page - 1) * PageSize + |PaginatedLogs(logs, page)|
            && 1 <= r.first <= r.last <= r.total == |logs|
  {
    PageContents(logs, page);
  }

  /** The navigation bar only appears with more than one page. */
  predicate ShowsNavigation(n: nat)
  {
    TotalPages(n) > 1
  }

  /** The page buttons appear exactly when there are more than ten logs. */
  lemma NavigationNeedsElevenLogs(n: nat)
    ensures ShowsNavigation(n) <==> n > PageSize
  {
  }

  /** The export button is disabled while there are no logs. */
  predicate ExportDisabled(logs: seq<TradeLog>): (b: bool)
    ensures b <==> TotalPages(|logs|) == 0
  {
    |logs| == 0
  }

  predicate PreviousDisabled(page: int)
  {
    page == 1
  }

  predicate NextDisabled(page: int, n: nat)
  {
    page == TotalPages(n)
  }

  /** Clicking an enabled button from a page in range lands on a page in
      range, one step away. */
  lemma NavigationStaysInRange(page: int, n: nat)
    requires 1 <= page <= TotalPages(n)
    ensures !PreviousDisabled(page) ==> 1 <= page - 1 <= TotalPages(n)
    ensures !NextDisabled(page, n) ==> 1 <= page + 1 <= TotalPages(n)
  {
  }

  const CsvPrefix: string := "data:text/csv;charset=utf-8,"
  /** The column names of the header line, joined by commas. */
  const CsvHeaderFields: seq<string> := ["Timestamp", "Pair", "Volume", "Sentiment", "Action", "Amount", "PaperMode"]
  const CsvHeader: string := Join(CsvHeaderFields, ',')

  lemma PlainHeader()
    ensures forall i :: 0 <= i < |CsvHeaderFields| ==> ',' !in CsvHeaderFields[i] && '\n' !in CsvHeaderFields[i]
  {
    assert '\n' !in "Timestamp" && ',' !in "Timestamp";
    assert '\n' !in "Sentiment" && ',' !in "Sentiment";
    assert '\n' !in "PaperMode" && ',' !in "PaperMode";
  }

  /** How the export prints a date (`toISOString`) and a number; the two
      are the platform's and are left abstract. */
  datatype Format = Format(isoTime: int -> string, number: real -> string)

  /** Neither printer ever produces a comma or a line break. */
  ghost predicate PlainFormat(fmt: Format)
  {
    && (forall t :: ',' !in fmt.isoTime(t) && '\n' !in fmt.isoTime(t))
    && (forall x :: ',' !in fmt.number(x) && '\n' !in fmt.number(x))
  }

  function BoolText(b: bool): string
  {
    if b then "true" else "false"
  }

  /** The seven fields of one CSV line, in header order. */
  function CsvFields(log: TradeLog, fmt: Format): seq<string>
  {
    [fmt.isoTime(log.timestamp), PairName(log.pair), fmt.number(log.volumeChecked),
     SentimentName(log.sentiment), ActionName(log.action), fmt.number(log.usdAmount),
     BoolText(log.paperMode)]
  }

  function CsvRow(log: TradeLog, fmt: Format): string
  {
    Join(CsvFields(log, fmt), ',')
  }

  function CsvRows(logs: seq<TradeLog>, fmt: Format): (r: seq<string>)
    ensures |r| == |logs|
    ensures forall i :: 0 <= i < |logs| ==> r[i] == CsvRow(logs[i], fmt)
  {
    if logs == [] then [] else [CsvRow(logs[0], fmt)] + CsvRows(logs[1..], fmt)
  }

  /** The `csvContent` string of `handleExport`. */
  function CsvContent(logs: seq<TradeLog>, fmt: Format): string
  {
    CsvPrefix + CsvText(logs, fmt)
  }

  /** The CSV text after the data-URL prefix: the header, a line break,
      and the log lines joined by line breaks. */
  function CsvText(logs: seq<TradeLog>, fmt: Format): string
  {
    CsvHeader + "\n" + Join(CsvRows(logs, fmt), '\n')
  }

  /** The text is the header and the log lines joined by line breaks, or,
      with no logs, the header and one empty line. */
  lemma CsvTextLines(logs: seq<TradeLog>, fmt: Format)
    ensures CsvText(logs, fmt) == Join([CsvHeader] + (if logs == [] then [""] else CsvRows(logs, fmt)), '\n')
  {
    var rest := if logs == [] then [""] else CsvRows(logs, fmt);
    assert ([CsvHeader] + rest)[1..] == rest;
    assert Join(rest, '\n') == Join(CsvRows(logs, fmt), '\n');
  }

  lemma PlainFields(log: TradeLog, fmt: Format)
    requires PlainFormat(fmt)
    ensures forall i :: 0 <= i < 7 ==> ',' !in CsvFields(log, fmt)[i] && '\n' !in CsvFields(log, fmt)[i]
  {
  }

  lemma {:induction false} NoBreakInJoin(xs: seq<string>, sep: char, c: char)
    requires c != sep
    requires forall i :: 0 <= i < |xs| ==> c !in xs[i]
    ensures c !in Join(xs, sep)
  {
    if |xs| > 1 {
      NoBreakInJoin(xs[1..], sep, c);
    }
  }

  /** The header line has no line break and splits into its column names. */
  lemma HeaderSplits()
    ensures '\n' !in CsvHeader && Split(CsvHeader, ',') == CsvHeaderFields
  {
    PlainHeader();
    NoBreakInJoin(CsvHeaderFields, ',', '\n');
    SplitJoin(CsvHeaderFields, ',');
  }

  /** A log's line has no line break and splits into the log's fields. */
  lemma RowSplits(log: TradeLog, fmt: Format)
    requires PlainFormat(fmt)
    ensures '\n' !in CsvRow(log, fmt) && Split(CsvRow(log, fmt), ',') == CsvFields(log, fmt)
  {
    PlainFields(log, fmt);
    NoBreakInJoin(CsvFields(log, fmt), ',', '\n');
    SplitJoin(CsvFields(log, fmt), ',');
  }

  /** The export is the data-URL prefix, then the header line, whose seven
      column names split at the commas, and then one line per log, in log order,
      each of which splits into the log's seven fields; without logs it is
      the header and one empty line. */
  lemma CsvLayout(logs: seq<TradeLog>, fmt: Format)
    requires PlainFormat(fmt)
    ensures var content := CsvContent(logs, fmt);
            var lines := Split(content[|CsvPrefix|..], '\n');
            && content[..|CsvPrefix|] == CsvPrefix
            && Split(CsvHeader, ',') == CsvHeaderFields
            && lines == [CsvHeader] + (if logs == [] then [""] else CsvRows(logs, fmt))
            && forall i :: 0 <= i < |logs| ==>
                 Split(lines[i + 1], ',') == CsvFields(logs[i], fmt) && |Split(lines[i + 1], ',')| == 7
  {
    var rows := CsvRows(logs, fmt);
    var pieces := [CsvHeader] + (if logs == [] then [""] else rows);
    assert CsvContent(logs, fmt)[|CsvPrefix|..] == CsvText(logs, fmt);
    assert CsvContent(logs, fmt)[..|CsvPrefix|] == CsvPrefix;
    HeaderSplits();
    forall k | 0 <= k < |pieces|
      ensures '\n' !in pieces[k]
    {
      if k > 0 && logs != [] {
        RowSplits(logs[k - 1], fmt);
      }
    }
    CsvTextLines(logs, fmt);
    SplitJoin(pieces, '\n');
    forall i | 0 <= i < |logs|
      ensures Split(pieces[i + 1], ',') == CsvFields(logs[i], fmt)
    {
      RowSplits(logs[i], fmt);
    }
  }

  /** `getSentimentClass`. */
  function SentimentClass(sentiment: string): string
  {
    match sentiment
    case "positive" => "text-profit"
    case "negative" => "text-loss"
    case "neutral" => "text-neutral"
    case _ => ""
  }

  /** `getActionClass`. */
  function ActionClass(action: string): string
  {
    match action
    case "buy" => "text-profit"
    case "sell" => "text-loss"
    case "hold" => "text-neutral"
    case _ => ""
  }

  /** Every sentiment and action a log can hold gets a class; any other value
      gets none. Sentiment and action share one palette: positive with buy,
      negative with sell, neutral with hold. */
  lemma ClassesTotal(s: Sentiment, a: Action, other: string)
    ensures SentimentClass(SentimentName(s)) != "" && ActionClass(ActionName(a)) != ""
    ensures SentimentClass(other) == "" <==> other !in {"positive", "negative", "neutral"}
    ensures ActionClass(other) == "" <==> other !in {"buy", "sell", "hold"}
    ensures SentimentClass(SentimentName(s)) == ActionClass(ActionName(
              match s case Positive => Buy case Negative => Sell case Neutral => Hold))
  {
  }
}
