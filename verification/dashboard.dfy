/**
  The chart side of main.js: `render`, `init`, and the `plotly_relayout`
  handler that re-renders the viewport. Plotly, the DOM and the clock are
  outside the model: a drawn chart is the `Chart` value handed to Plotly,
  and `Date.now()` is the parameter `now`.
*/
module Dashboard {
  import opened Wrappers
  import opened Samples
  import opened Windows
  import opened Extrema

  /** What `render` hands to Plotly: the pressure trace and the two extremum markers. */
  datatype Chart = Chart(trace: seq<Sample>, low: Sample, high: Sample)

  /** The exception the script can raise. */
  datatype ScriptError = TypeError

  /** The page after `init`: the cleaned feed, the chart on screen, and whether the relayout handler is attached. */
  datatype Page = Page(allPoints: seq<Sample>, chart: Option<Chart>, interactive: bool)

  /**
    A `plotly_relayout` event: the new x-axis bounds as epoch milliseconds.
    `range0` is `None` when the event does not carry it, when it is falsy
    (the handler tests only this bound), or when `new Date` cannot read it.
    `range1` is `None` only when `new Date` cannot read it (its time is NaN);
    a missing `range1` is read as `new Date(undefined)`, which is NaN, while a
    falsy one such as `null` or `0` is epoch 0 and so is `Some(0)`.
  */
  datatype RelayoutEvent = RelayoutEvent(range0: Option<int>, range1: Option<int>)

  /** `c` draws `points` with markers on their first minimum and first maximum. */
  ghost predicate ChartOf(c: Chart, points: seq<Sample>) {
    c.trace == points && IsFirstMinOf(points, c.low) && IsFirstMaxOf(points, c.high)
  }

  /** `render(points)` for a non-empty series. */
  method Render(points: seq<Sample>) returns (chart: Chart)
    requires |points| > 0
    ensures ChartOf(chart, points)
    ensures forall p :: p in points ==> chart.low.y <= p.y <= chart.high.y
  {
    var low, high := MinMax(points);
    chart := Chart(points, low, high);
  }

  /**
    `render(points)` for any series. On an empty one `minMax` returns
    undefined fields and reading `mm.min.x` (main.js:74) throws.
  */
  method RenderAsWritten(points: seq<Sample>) returns (r: Result<Chart, ScriptError>)
    ensures r.Failure? <==> |points| == 0
    ensures r.Success? ==> ChartOf(r.value, points)
  {
    if |points| == 0 {
      r := Failure(TypeError);
    } else {
      var c := Render(points);
      r := Success(c);
    }
  }

  /**
    `init` as written: clean the feed, cut it to the current range and
    render the cut unconditionally. An empty cut throws inside `render`, so
    `init` stops before the relayout handler is attached.
  */
  method InitAsWritten(feed: seq<Reading>, now: int) returns (r: Result<Page, ScriptError>)
    ensures r.Failure? <==> |InitialWindow(CleanFeed(feed), now, CurrentRange)| == 0
    ensures r.Success? ==> r.value.allPoints == CleanFeed(feed) && r.value.interactive
    ensures r.Success? ==> r.value.chart.Some?
    ensures r.Success? && r.value.chart.Some? ==> ChartOf(r.value.chart.value, InitialWindow(CleanFeed(feed), now, CurrentRange))
  {
    var all := CleanFeed(feed);
    var initial := InitialWindow(all, now, CurrentRange);
    var drawn := RenderAsWritten(initial);
    if drawn.Success? {
      r := Success(Page(all, Some(drawn.value), true));
    } else {
      r := Failure(drawn.error);
    }
  }

  /**
    `init` with the initial render guarded by a non-empty cut: it never
    throws, draws the cut whenever there is something to draw, and always
    attaches the relayout handler.
  */
  method Init(feed: seq<Reading>, now: int) returns (page: Page)
    ensures page.allPoints == CleanFeed(feed)
    ensures page.interactive
    ensures page.chart.Some? <==> |InitialWindow(CleanFeed(feed), now, CurrentRange)| > 0
    ensures page.chart.Some? ==> ChartOf(page.chart.value, InitialWindow(CleanFeed(feed), now, CurrentRange))
  {
    var all := CleanFeed(feed);
    var initial := InitialWindow(all, now, CurrentRange);
    if |initial| > 0 {
      var c := Render(initial);
      page := Page(all, Some(c), true);
    } else {
      page := Page(all, None, true);
    }
  }

  /**
    A feed whose newest sample is more than a day old leaves the initial
    window empty, which is the case where `InitAsWritten` fails.
  */
  lemma StaleFeedEmptiesInitialWindow(all: seq<Sample>, now: int)
    requires forall i :: 0 <= i < |all| ==> all[i].x < Cutoff(now, Hours(OneDay))
    ensures InitialWindow(all, now, CurrentRange) == []
  {
  }

  /** A concrete feed: one valid reading taken 25 hours before `init` runs leaves nothing to draw. */
  lemma OneStaleReadingEmptiesInitialWindow()
    ensures InitialWindow(CleanFeed([Reading(0, Finite(1013.0))]), 25 * MillisPerHour, CurrentRange) == []
  {
    var all := CleanFeed([Reading(0, Finite(1013.0))]);
    assert all == [Sample(0, 1013.0)];
    StaleFeedEmptiesInitialWindow(all, 25 * MillisPerHour);
  }

  /**
    The `plotly_relayout` handler: an event without a first bound is
    ignored; otherwise the full cleaned series is filtered to the viewport
    and re-rendered when more than two samples survive. A bound that is NaN
    fails every comparison, so nothing survives and nothing is drawn.
    `None` means the chart on screen stays as it is.
  */
  method OnRelayout(all: seq<Sample>, ev: RelayoutEvent) returns (shown: Option<Chart>)
    ensures shown.Some? <==> ev.range0.Some? && ev.range1.Some? && |FilterByX(all, ev.range0.value, ev.range1.value)| > 2
    ensures shown.Some? ==> ChartOf(shown.value, FilterByX(all, ev.range0.value, ev.range1.value))
    ensures shown.Some? ==> |shown.value.trace| >= 3
  {
    shown := None;
    if ev.range0.Some? {
      var filtered: seq<Sample>;
      if ev.range1.Some? {
        filtered := FilterByX(all, ev.range0.value, ev.range1.value);
      } else {
        filtered := [];
      }
      if |filtered| > 2 {
        var c := Render(filtered);
        shown := Some(c);
      }
    }
  }
}
