/** The forecast page (src/app/forecast/page.tsx): the history-window rule, the
    projections that turn one forecast response into the chart series, the separator
    date, the rounded total and the searchable table, and the session state that the
    file picker and the forecast request update. */
module Forecast {
  import opened Common

  /** One row of the forecast backend's JSON answer. Historical rows carry `y`,
      forecast rows carry `yhat` and its bounds. None stands for a field the JSON leaves
      out (undefined) and also for the `y: null` the chart writes into forecast rows; an
      explicit `"yhat": null` in the answer is not represented. */
  datatype Point = Point(ds: string, y: Option<real>, yhat: Option<real>,
                         yhatLower: Option<real>, yhatUpper: Option<real>)

  /** The parsed body of a successful forecast response. */
  datatype ForecastResult = ForecastResult(historical: seq<Point>, forecast: seq<Point>)

  /** The `type` tag the chart series puts on each row. */
  datatype Segment = HistoricalSegment | ForecastSegment

  /** A chart row: the response row spread into a new object, plus its tag. */
  datatype ChartRow = ChartRow(point: Point, segment: Segment)

  /** The select value that means "show everything" for both the history window
      and the table's page size. */
  const ShowAll := 9999

  const DefaultPeriod := 30
  const DefaultHistoryDays := 90
  const DefaultRowsPerPage := 25

  const NotCsvMessage := "Harap upload file CSV saja"
  const NoFileMessage := "Pilih file CSV terlebih dahulu"
  const RequestFailedMessage := "Gagal melakukan forecast"
  const UnexpectedErrorMessage := "Terjadi kesalahan saat forecast"

  // ---------------------------------------------------------------------------
  // History window

  /** How many days of history the chart shows by default for a forecast horizon. */
  function DefaultHistoryWindow(period: int): (days: int)
    ensures days == 90 <==> period <= 30
    ensures days == 180 <==> 30 < period <= 90
    ensures days == 365 <==> 90 < period
  {
    if period <= 30 then 90
    else if period <= 90 then 180
    else 365
  }

  /** A longer horizon never shows less history. */
  lemma WindowMonotone(p: int, q: int)
    requires p <= q
    ensures DefaultHistoryWindow(p) <= DefaultHistoryWindow(q)
  {
  }

  /** The window that the session starts with is the one the rule gives for the
      default horizon, so the effect that re-derives it changes nothing at start-up. */
  lemma DefaultWindowMatchesDefaultPeriod()
    ensures DefaultHistoryWindow(DefaultPeriod) == DefaultHistoryDays
  {
  }

  /** The historical rows the chart shows: all of them for ShowAll, otherwise the
      last `days` rows (none when `days` is zero or negative), in their original order. */
  function VisibleHistory(historical: seq<Point>, days: int): (v: seq<Point>)
    ensures days == ShowAll ==> v == historical
    ensures days != ShowAll ==> |v| == Min(Max(days, 0), |historical|)
    ensures v == historical[|historical| - |v|..]
  {
    if days == ShowAll then historical
    else JsSliceFrom(historical, Max(0, |historical| - days))
  }

  /** `limitedHistorical`: the visible history of the current result, empty without one. */
  function LimitedHistorical(result: Option<ForecastResult>, days: int): (v: seq<Point>)
    ensures result.None? ==> v == []
    ensures result.Some? ==> v == VisibleHistory(result.value.historical, days)
  {
    if result.None? then [] else VisibleHistory(result.value.historical, days)
  }

  /** `displayedSeparatorDate`: the date where the chart's history ends. */
  function SeparatorDate(visible: seq<Point>): (d: Option<string>)
    ensures d.None? <==> visible == []
    ensures d.Some? ==> d.value == visible[|visible| - 1].ds
  {
    if |visible| > 0 then Some(visible[|visible| - 1].ds) else None
  }

  /** Whenever any history is visible, the separator sits on the date of the newest
      historical row of the whole response, whatever the window size. */
  lemma SeparatorIsNewestHistoricalDate(historical: seq<Point>, days: int)
    ensures SeparatorDate(VisibleHistory(historical, days)).Some?
        <==> historical != [] && (days == ShowAll || days > 0)
    ensures SeparatorDate(VisibleHistory(historical, days)).Some?
        ==> SeparatorDate(VisibleHistory(historical, days)).value == historical[|historical| - 1].ds
  {
  }

  // ---------------------------------------------------------------------------
  // Chart series

  function TagHistorical(rows: seq<Point>): (tagged: seq<ChartRow>)
    ensures |tagged| == |rows|
    ensures forall i :: 0 <= i < |rows| ==> tagged[i] == ChartRow(rows[i], HistoricalSegment)
  {
    seq(|rows|, i requires 0 <= i < |rows| => ChartRow(rows[i], HistoricalSegment))
  }

  function TagForecast(rows: seq<Point>): (tagged: seq<ChartRow>)
    ensures |tagged| == |rows|
    ensures forall i :: 0 <= i < |rows| ==> tagged[i] == ChartRow(rows[i].(y := None), ForecastSegment)
  {
    seq(|rows|, i requires 0 <= i < |rows| => ChartRow(rows[i].(y := None), ForecastSegment))
  }

  /** `chartData`: the visible history tagged historical, then every forecast row
      tagged forecast with its actual value hidden; nothing without a result. */
  function ChartData(result: Option<ForecastResult>, days: int): (chart: seq<ChartRow>)
    ensures result.None? ==> chart == []
    ensures result.Some? ==>
      var v, f := VisibleHistory(result.value.historical, days), result.value.forecast;
      |chart| == |v| + |f|
      && (forall i :: 0 <= i < |v| ==> chart[i] == ChartRow(v[i], HistoricalSegment))
      && (forall i :: 0 <= i < |f| ==> chart[|v| + i] == ChartRow(f[i].(y := None), ForecastSegment))
  {
    if result.None? then []
    else
      var v, f := LimitedHistorical(result, days), TagForecast(result.value.forecast);
      var chart := TagHistorical(v) + f;
      assert forall i :: 0 <= i < |f| ==> chart[|v| + i] == f[i];
      chart
  }

  /** The chart never shows an actual value in the future, and all historical rows
      come before all forecast rows. */
  lemma ChartShape(result: Option<ForecastResult>, days: int)
    ensures var chart := ChartData(result, days);
      (forall i :: 0 <= i < |chart| && chart[i].segment == ForecastSegment ==> chart[i].point.y.None?)
      && (forall i, j :: 0 <= i < j < |chart| && chart[i].segment == ForecastSegment
            ==> chart[j].segment == ForecastSegment)
  {
    var chart := ChartData(result, days);
    var n := if result.Some? then |VisibleHistory(result.value.historical, days)| else 0;
    forall i | 0 <= i < |chart|
      ensures chart[i].segment == ForecastSegment <==> i >= n
      ensures i >= n ==> chart[i].point.y.None?
    {
      if i >= n {
        var f := result.value.forecast;
        assert chart[n + (i - n)] == ChartRow(f[i - n].(y := None), ForecastSegment);
      }
    }
    assert forall i :: 0 <= i < |chart| && chart[i].segment == ForecastSegment ==> chart[i].point.y.None?;
    assert forall i, j :: 0 <= i < j < |chart| && chart[i].segment == ForecastSegment
             ==> chart[j].segment == ForecastSegment;
  }

  /** The separator date is the date of the last chart row tagged historical. */
  lemma SeparatorEndsHistoricalSegment(r: ForecastResult, days: int)
    ensures var v := VisibleHistory(r.historical, days);
      var chart := ChartData(Some(r), days);
      SeparatorDate(v).Some? ==>
        chart[|v| - 1].segment == HistoricalSegment
        && chart[|v| - 1].point.ds == SeparatorDate(v).value
        && (|v| < |chart| ==> chart[|v|].segment == ForecastSegment)
  {
  }

  // ---------------------------------------------------------------------------
  // Total prediction

  /** Math.round: the integer nearest to x, halves rounded up. */
  function Round(x: real): (n: int)
    ensures n as real - 1.0 / 2.0 <= x < n as real + 1.0 / 2.0
  {
    (x + 1.0 / 2.0).Floor
  }

  /** The `reduce` of `totalForecast`: the running sum of Math.round(yhat), left to
      right. A row without yhat makes the JavaScript sum NaN, modelled as None. */
  function SumOfRounded(rows: seq<Point>): (total: Option<int>)
    decreases |rows|
  {
    if rows == [] then Some(0)
    else
      var prefix := SumOfRounded(rows[..|rows| - 1]);
      var last := rows[|rows| - 1].yhat;
      if prefix.Some? && last.Some? then Some(prefix.value + Round(last.value)) else None
  }

  /** `totalForecast`: 0 without a result. */
  function TotalForecast(result: Option<ForecastResult>): (total: Option<int>)
    ensures result.None? ==> total == Some(0)
    ensures result.Some? ==> total == SumOfRounded(result.value.forecast)
  {
    if result.None? then Some(0) else SumOfRounded(result.value.forecast)
  }

  predicate AllPredicted(rows: seq<Point>)
  {
    forall i :: 0 <= i < |rows| ==> rows[i].yhat.Some?
  }

  /** The sum of the predicted values themselves, for rows that all carry one. */
  function SumPredicted(rows: seq<Point>): real
    requires AllPredicted(rows)
    decreases |rows|
  {
    if rows == [] then 0.0 else SumPredicted(rows[..|rows| - 1]) + rows[|rows| - 1].yhat.value
  }

  /** The total is a number exactly when every row carries a prediction. */
  lemma {:induction false} TotalDefinedIffAllPredicted(rows: seq<Point>)
    ensures SumOfRounded(rows).Some? <==> AllPredicted(rows)
    decreases |rows|
  {
    if rows != [] {
      var init := rows[..|rows| - 1];
      TotalDefinedIffAllPredicted(init);
      assert forall i :: 0 <= i < |init| ==> init[i] == rows[i];
      assert AllPredicted(rows) <==> AllPredicted(init) && rows[|rows| - 1].yhat.Some?;
    }
  }

  /** Summing rounded rows: the total of two consecutive runs of rows is the sum of
      their totals. */
  lemma {:induction false} TotalOfConcat(a: seq<Point>, b: seq<Point>)
    ensures SumOfRounded(a).Some? && SumOfRounded(b).Some?
        ==> SumOfRounded(a + b) == Some(SumOfRounded(a).value + SumOfRounded(b).value)
    decreases |b|
  {
    if b != [] {
      var init := b[..|b| - 1];
      assert (a + b)[..|a + b| - 1] == a + init;
      TotalOfConcat(a, init);
    } else {
      assert a + b == a;
    }
  }

  /** Sum of roundings against rounding of the sum: each row moves the total by at most
      one half, so the total is within |rows|/2 of the sum of the raw predictions. */
  lemma {:induction false} TotalNearSumOfPredictions(rows: seq<Point>)
    requires AllPredicted(rows)
    ensures SumOfRounded(rows).Some?
    ensures var d := SumOfRounded(rows).value as real - SumPredicted(rows);
      -(|rows| as real) / 2.0 <= d <= (|rows| as real) / 2.0
    decreases |rows|
  {
    if rows != [] {
      var init := rows[..|rows| - 1];
      assert AllPredicted(init) by {
        forall i | 0 <= i < |init| ensures init[i].yhat.Some? { assert init[i] == rows[i]; }
      }
      TotalNearSumOfPredictions(init);
    }
  }

  /** The sum of roundings is not the rounding of the sum: two rows of 1.4 total 2. */
  lemma SumOfRoundingsExample()
    ensures var p := Point("2025-01-01", None, Some(1.4), None, None);
      SumOfRounded([p, p]) == Some(2) && Round(1.4 + 1.4) == 3
  {
    var p := Point("2025-01-01", None, Some(1.4), None, None);
    assert Round(1.4) == 1;
    assert [p][..0] == [];
    assert SumOfRounded([p]) == Some(1);
    assert [p, p][..1] == [p];
  }

  // ---------------------------------------------------------------------------
  // Table

  /** A forecast row is kept by the table search when its lower-cased date contains
      the lower-cased search text. */
  predicate MatchesSearch(p: Point, term: string)
  {
    Contains(Lower(p.ds), Lower(term))
  }

  /** Array.prototype.filter with MatchesSearch. */
  function FilterByDate(rows: seq<Point>, term: string): (kept: seq<Point>)
    ensures IsSubsequence(kept, rows)
    ensures forall p :: p in kept <==> p in rows && MatchesSearch(p, term)
    decreases |rows|
  {
    if rows == [] then []
    else
      var rest := FilterByDate(rows[1..], term);
      if MatchesSearch(rows[0], term) then
        assert [rows[0]] + rest == [rows[0]] + rest;
        assert ([rows[0]] + rest)[1..] == rest;
        [rows[0]] + rest
      else
        rest
  }

  /** Filtering two consecutive runs of rows filters each on its own. Together with
      the one-row case this determines FilterByDate completely. */
  lemma {:induction false} FilterOfConcat(a: seq<Point>, b: seq<Point>, term: string)
    ensures FilterByDate(a + b, term) == FilterByDate(a, term) + FilterByDate(b, term)
    decreases |a|
  {
    if a == [] {
      assert a + b == b;
    } else {
      assert (a + b)[1..] == a[1..] + b;
      FilterOfConcat(a[1..], b, term);
    }
  }

  /** Every row contains the empty string, so filtering by an empty search keeps all
      rows: the page's early return for an empty search agrees with the filter. */
  lemma {:induction false} FilterEmptyTermKeepsAll(rows: seq<Point>)
    ensures FilterByDate(rows, "") == rows
    decreases |rows|
  {
    if rows != [] {
      FilterEmptyTermKeepsAll(rows[1..]);
      assert MatchesSearch(rows[0], "");
    }
  }

  /** `filteredForecast`: nothing without a result, every row for an empty search,
      otherwise the matching rows. */
  function FilteredForecast(result: Option<ForecastResult>, term: string): (rows: seq<Point>)
    ensures result.None? ==> rows == []
    ensures result.Some? ==> rows == FilterByDate(result.value.forecast, term)
  {
    if result.None? then []
    else if term == "" then
      FilterEmptyTermKeepsAll(result.value.forecast);
      result.value.forecast
    else FilterByDate(result.value.forecast, term)
  }

  /** Search is case-insensitive substring search on the date: "2025-12" matches
      "2025-12-25". */
  lemma SearchMatchesMonth()
    ensures MatchesSearch(Point("2025-12-25", None, None, None, None), "2025-12")
  {
  }

  /** "2025-12" does not match "2025-11-30". */
  lemma SearchSkipsOtherMonth()
    ensures !MatchesSearch(Point("2025-11-30", None, None, None, None), "2025-12")
  {
    var s, t := "2025-11-30", "2025-12";
    LowerWithoutCapitals(s);
    LowerWithoutCapitals(t);
    forall k: nat ensures !OccursAt(s, t, k) {
      if k + |t| <= |s| {
        var w := s[k..k + |t|];
        if k == 0 { assert w[6] != t[6]; }
        else if k == 1 { assert w[0] != t[0]; }
        else if k == 2 { assert w[1] != t[1]; }
        else { assert w[0] != t[0]; }
      }
    }
    NoOccurrenceNotContains(s, t);
  }

  /** Capitals in the date or the search text do not matter: "T00" is found by "t00". */
  lemma SearchIgnoresCase()
    ensures MatchesSearch(Point("2025-12-25T00:00", None, None, None, None), "t00")
  {
    LowerWithoutCapitals("t00");
    var d := "2025-12-25T00:00";
    assert Lower(d)[10..13] == "t00";
    ContainsAt(Lower(d), "t00", 10);
  }

  /** `displayedForecast`: all filtered rows for ShowAll, otherwise the first
      `rowsPerPage` of them (JavaScript's slice counts a negative end from the back). */
  function DisplayedForecast(filtered: seq<Point>, rowsPerPage: int): (shown: seq<Point>)
    ensures rowsPerPage == ShowAll ==> shown == filtered
    ensures rowsPerPage != ShowAll && rowsPerPage >= 0 ==> shown == filtered[..Min(rowsPerPage, |filtered|)]
    ensures rowsPerPage < 0 ==> shown == filtered[..Max(|filtered| + rowsPerPage, 0)]
  {
    if rowsPerPage == ShowAll then filtered else JsSlice(filtered, 0, rowsPerPage)
  }

  /** With an empty search and every row shown, the table's rounded prediction
      column adds up to the big total shown above the table. */
  lemma TableColumnAddsUpToTotal(result: Option<ForecastResult>)
    ensures SumOfRounded(DisplayedForecast(FilteredForecast(result, ""), ShowAll)) == TotalForecast(result)
  {
  }

  /** The scenario of a long history and the default 30-day horizon: the chart shows
      the last 90 historical rows and all 30 forecast rows, and the separator is the
      date of the newest historical row. */
  lemma DefaultHorizonScenario(r: ForecastResult)
    requires |r.historical| == 400 && |r.forecast| == 30
    ensures |ChartData(Some(r), DefaultHistoryWindow(30))| == 120
    ensures SeparatorDate(LimitedHistorical(Some(r), DefaultHistoryWindow(30)))
        == Some(r.historical[399].ds)
  {
  }

  // ---------------------------------------------------------------------------
  // Session

  /** What the forecast request produced, as the page sees it after the await:
      a parsed body on a 2xx answer, the error body's `details` and `error` fields on
      any other status, or a thrown exception's message (network failure, unreadable body). */
  datatype Response =
    | Success(data: ForecastResult)
    | ErrorStatus(details: Option<string>, error: Option<string>)
    | Thrown(message: string)

  /** JavaScript truthiness of an optional string. */
  predicate Truthy(s: Option<string>)
  {
    s.Some? && s.value != ""
  }

  /** The message the page shows for a failed request: `details`, else `error`, else
      the fallback text; never empty, so the error banner always appears. */
  function FailureMessage(response: Response): (message: string)
    requires !response.Success?
    ensures message != ""
    ensures response.ErrorStatus? && Truthy(response.details) ==> message == response.details.value
    ensures response.ErrorStatus? && !Truthy(response.details) && Truthy(response.error)
        ==> message == response.error.value
    ensures response.ErrorStatus? && !Truthy(response.details) && !Truthy(response.error)
        ==> message == RequestFailedMessage
    ensures response.Thrown? ==> message == if response.message != "" then response.message else UnexpectedErrorMessage
  {
    match response
    case ErrorStatus(details, error) =>
      if Truthy(details) then details.value
      else if Truthy(error) then error.value
      else RequestFailedMessage
    case Thrown(m) => if m != "" then m else UnexpectedErrorMessage
  }

  /** The state of the forecast page. The uploaded file is represented by its name. */
  class ForecastSession {
    var file: Option<string>
    var forecastPeriod: int
    var historyDaysToShow: int
    var searchTerm: string
    var rowsPerPage: int
    var loading: bool
    var error: Option<string>
    var result: Option<ForecastResult>

    constructor ()
      ensures file.None? && result.None? && error.None? && !loading
      ensures forecastPeriod == DefaultPeriod && historyDaysToShow == DefaultHistoryDays
      ensures searchTerm == "" && rowsPerPage == DefaultRowsPerPage
    {
      file := None;
      forecastPeriod := DefaultPeriod;
      historyDaysToShow := DefaultHistoryDays;
      searchTerm := "";
      rowsPerPage := DefaultRowsPerPage;
      loading := false;
      error := None;
      result := None;
    }

    /** `handleFileChange` with the picked file's name (None when nothing was picked).
        A `.csv` name in any letter case is accepted and starts a fresh session; any
        other name is rejected and clears the file. `autoPeriod` is the horizon the
        file effect then requests, which happens exactly when a file was accepted. */
    method HandleFileChange(picked: Option<string>) returns (autoPeriod: Option<int>)
      modifies this
      ensures picked.None? ==> unchanged(this) && autoPeriod.None?
      ensures picked.Some? && EndsWith(Lower(picked.value), ".csv") ==>
        file == picked && result.None? && error.None?
        && forecastPeriod == DefaultPeriod && historyDaysToShow == DefaultHistoryDays
        && searchTerm == old(searchTerm) && rowsPerPage == old(rowsPerPage) && loading == old(loading)
        && autoPeriod == Some(DefaultPeriod)
      ensures picked.Some? && !EndsWith(Lower(picked.value), ".csv") ==>
        file.None? && error == Some(NotCsvMessage)
        && result == old(result) && forecastPeriod == old(forecastPeriod)
        && historyDaysToShow == old(historyDaysToShow) && searchTerm == old(searchTerm)
        && rowsPerPage == old(rowsPerPage) && loading == old(loading)
        && autoPeriod.None?
    {
      autoPeriod := None;
      if picked.Some? {
        if EndsWith(Lower(picked.value), ".csv") {
          file := picked;
          result := None;
          error := None;
          forecastPeriod := DefaultPeriod;
          historyDaysToShow := DefaultHistoryDays;
          // The period effect may fire here too; it sets the same window.
          DefaultWindowMatchesDefaultPeriod();
          // The file effect: a file and no result, so the default horizon is requested.
          if file.Some? && result.None? {
            autoPeriod := Some(DefaultPeriod);
          }
        } else {
          error := Some(NotCsvMessage);
          file := None;
        }
      }
    }

    /** The synchronous start of `runForecast`: without a file it only reports the
        error; otherwise it marks the page as loading and clears the error. */
    method StartForecast(periods: int) returns (sent: bool)
      modifies this
      ensures sent <==> old(file).Some?
      ensures !sent ==> error == Some(NoFileMessage) && loading == old(loading)
      ensures sent ==> error.None? && loading
      ensures file == old(file) && result == old(result) && forecastPeriod == old(forecastPeriod)
      ensures historyDaysToShow == old(historyDaysToShow) && searchTerm == old(searchTerm)
      ensures rowsPerPage == old(rowsPerPage)
    {
      if file.None? {
        error := Some(NoFileMessage);
        sent := false;
        return;
      }
      loading := true;
      error := None;
      sent := true;
    }

    /** The rest of `runForecast` once the request for `periods` has been answered.
        Success replaces the result wholesale and records the horizon; the period
        effect then re-derives the history window, but only if the horizon changed.
        A failure keeps the old result and reports a message. Loading always ends. */
    method FinishForecast(periods: int, response: Response)
      modifies this
      ensures !loading
      ensures file == old(file) && searchTerm == old(searchTerm) && rowsPerPage == old(rowsPerPage)
      ensures response.Success? ==>
        result == Some(response.data) && forecastPeriod == periods && error == old(error)
        && historyDaysToShow == (if periods != old(forecastPeriod) then DefaultHistoryWindow(periods)
                                 else old(historyDaysToShow))
      ensures !response.Success? ==>
        result == old(result) && forecastPeriod == old(forecastPeriod)
        && historyDaysToShow == old(historyDaysToShow)
        && error == Some(FailureMessage(response))
    {
      if response.Success? {
        var previous := forecastPeriod;
        result := Some(response.data);
        forecastPeriod := periods;
        if forecastPeriod != previous {
          historyDaysToShow := DefaultHistoryWindow(forecastPeriod);
        }
      } else {
        error := Some(FailureMessage(response));
      }
      loading := false;
    }

    /** The history-window select. */
    method SetHistoryDays(days: int)
      modifies this`historyDaysToShow
      ensures historyDaysToShow == days
    {
      historyDaysToShow := days;
    }

    /** The table's search box. */
    method SetSearchTerm(term: string)
      modifies this`searchTerm
      ensures searchTerm == term
    {
      searchTerm := term;
    }

    /** The table's rows-per-page select. */
    method SetRowsPerPage(rows: int)
      modifies this`rowsPerPage
      ensures rowsPerPage == rows
    {
      rowsPerPage := rows;
    }

    /** What the page derives from the session for the chart, the separator line, the
        total and the table. */
    function Chart(): (chart: seq<ChartRow>)
      reads this
      ensures result.None? ==> chart == []
    {
      ChartData(result, historyDaysToShow)
    }

    function Separator(): Option<string>
      reads this
    {
      SeparatorDate(LimitedHistorical(result, historyDaysToShow))
    }

    /** The table: forecast rows that match the search, in their order, at most
        `rowsPerPage` of them, and every matching row when "all" is chosen. */
    function Table(): (rows: seq<Point>)
      reads this
      ensures result.None? ==> rows == []
      ensures forall i :: 0 <= i < |rows| ==>
                result.Some? && rows[i] in result.value.forecast && MatchesSearch(rows[i], searchTerm)
      ensures 0 <= rowsPerPage != ShowAll ==> |rows| <= rowsPerPage
      ensures rowsPerPage == ShowAll && result.Some? ==>
                forall p :: p in result.value.forecast && MatchesSearch(p, searchTerm) ==> p in rows
    {
      var filtered := FilteredForecast(result, searchTerm);
      var rows := DisplayedForecast(filtered, rowsPerPage);
      assert forall i :: 0 <= i < |rows| ==> rows[i] in filtered;
      rows
    }
  }

  /** After a successful request for a new horizon, the chart shows as much history as
      the window rule gives for that horizon (or all there is) followed by every
      forecast row. */
  method SuccessfulHorizonChange(s: ForecastSession, periods: int, data: ForecastResult)
    requires periods != s.forecastPeriod
    modifies s
    ensures |s.Chart()| == Min(DefaultHistoryWindow(periods), |data.historical|) + |data.forecast|
    ensures s.Separator() == if data.historical == [] then None else Some(data.historical[|data.historical| - 1].ds)
  {
    s.FinishForecast(periods, Success(data));
    SeparatorIsNewestHistoricalDate(data.historical, s.historyDaysToShow);
  }
}
