# Pressure dashboard core, modelled in Dafny

This project models the decision logic of the meteo dashboard's `main.js`: a
small pipeline over timestamped barometric pressure samples `{x: time, y: hPa}`
read from a ThingSpeak channel feed.

- **Sample cleaning** (`loadData`): each feed row becomes `{x, y}` and only rows
  whose parsed value is a finite number are kept, in feed order.
- **Initial horizon cut** (`init`): the samples at or after
  `now − RANGE_HOURS[currentRange] · 3600 · 1000`, with the `RANGE_HOURS` table
  `1h → 1, 3h → 3, 6h → 6, 12h → 12, 1d → 24` and `currentRange = "1d"`.
- **Viewport filter** (`filterByX`): the samples inside the closed interval
  `[t0, t1]`, recomputed from the full cleaned series on every pan or zoom; the
  relayout handler re-renders only when more than two samples survive.
- **Extrema scan** (`minMax`): one left-to-right pass with strict `<` and `>`,
  so ties go to the earliest sample.

Layout, one module per file:

- `wrappers.dfy` — `Option` and `Result`.
- `seqs.dfy` — `Filter`, the model of `Array.prototype.filter`, with a
  contract and a counting lemma that together pin its result down (an
  order-preserving subsequence holding every accepted value exactly as often as
  the input does), and the lemmas about composing filters.
- `samples.dfy` — the parsed value (`Number`: finite, NaN or an infinity), feed
  readings, samples, and the cleaning step.
- `windows.dfy` — the `RANGE_HOURS` table, the horizon cut and `filterByX`.
- `extrema.dfy` — `minMax` as a loop, specified against a declarative
  "first minimum / first maximum" definition.
- `dashboard.dfy` — `render`, `init` (as written and guarded) and the
  `plotly_relayout` handler.

Timestamps are integer epoch milliseconds. Values are `real`. `Date.now()` is
the parameter `now`. The results of `new Date(...)` and `parseFloat` are given
as inputs. The global `allPoints` is passed as an argument, and `currentRange` is the
constant `"1d"`, looked up in `RANGE_HOURS` by name.

Cleaning drops only non-finite values, and `minMax` has no empty case (it
reads `points[0]`), so every caller must hand it a non-empty series.

## Model

| member | source | states |
|---|---|---|
| Seqs.Filter | main.js:43-46 | the result is a subsequence of the input; every element satisfies the condition; a value is in the result iff it is in the input and satisfies the condition |
| Seqs.FilterCounts | main.js:43-46 | each accepted value occurs in the result exactly as often as in the input, and rejected values never occur |
| Seqs.FilterFilter | main.js:43-46 | filtering with a weaker condition and then a stronger one is the same as filtering once with the stronger one |
| Samples.CleanFeed | main.js:30-33 | the cleaned series is no longer than the feed; every sample comes from a feed reading with that time and a finite value; every finite reading of the feed appears as a sample |
| Samples.CleanFeedIsFilter | main.js:30-33 | read back as readings, the cleaned series equals the generic order-preserving filter of the feed on `Number.isFinite` |
| Samples.CleanFeedKeepsExactlyFinite | main.js:33 | the cleaned series keeps feed order, holds exactly the finite readings, and keeps each one as often as the feed holds it |
| Windows.FromName | main.js:12-18 | a name found in `RANGE_HOURS` is the table spelling of the key it returns |
| Windows.FromNameOfName | main.js:12-18 | every key of the table is found under its own name |
| Windows.Hours | main.js:12-18 | every horizon of the table is between 1 and 24 hours |
| Windows.HoursIncreasing | main.js:12-18 | later keys of the table span strictly more hours, and only later keys do |
| Windows.Cutoff | main.js:106 | the cut is never later than `now` |
| Windows.RangeCut | main.js:106-107 | the result keeps order and holds exactly the input samples with `x ≥ now − hours·3600000` |
| Windows.RangeCutCounts | main.js:107 | each sample with `x ≥ now − hours·3600000` is kept as often as the input holds it, and no older sample is kept |
| Windows.RangeCutNested | main.js:106-107 | cutting a longer horizon's result at a shorter horizon gives the shorter horizon's result, so a larger hour count yields a superset, in order |
| Windows.InitialWindowOfKey | main.js:106-107 | the initial window for a key's name cuts the series at that key's `RANGE_HOURS` value |
| Windows.UnknownRangeKeepsNothing | main.js:106-107 | a range name missing from `RANGE_HOURS` gives a NaN cut, so the initial window is empty |
| Windows.InitialWindowsNested | main.js:12-18 | the initial window of a key's name is a subsequence of the window of every later key of `RANGE_HOURS` |
| Windows.RangeCutAsViewport | main.js:106-107 | when no sample is in the future, the horizon cut equals `filterByX` over `[now − hours·3600000, now]` |
| Windows.FilterByX | main.js:40-47 | the result keeps order, every returned sample has `t0 ≤ x ≤ t1` (both ends inclusive), and no input sample inside `[t0, t1]` is dropped |
| Windows.FilterByXCounts | main.js:43-46 | each sample inside `[t0, t1]` is kept as often as the input holds it, and no other sample is kept |
| Windows.FilterByXIdempotent | main.js:43-46 | applying `filterByX` twice with the same bounds equals applying it once |
| Windows.FilterByXZoomIn | main.js:115-119 | filtering the full series to a sub-interval equals filtering an enclosing viewport's result to it |
| Extrema.MinMax | main.js:49-56 | for a non-empty series, `min` and `max` are samples of the series with `min.y ≤ p.y ≤ max.y` for every sample `p`; each is the earliest sample with its value; a single sample is both `min` and `max` |
| Extrema.FirstMinDetermined | main.js:52 | two samples that are both the first minimum of a series are the same sample |
| Extrema.FirstMaxDetermined | main.js:53 | two samples that are both the first maximum of a series are the same sample |
| Dashboard.Render | main.js:62-64 | a non-empty series is drawn as a trace of exactly that series with markers on its first minimum and first maximum |
| Dashboard.RenderAsWritten | main.js:62-77 | on an empty series rendering throws a TypeError; otherwise it draws the series with its first extrema |
| Dashboard.InitAsWritten | main.js:103-108 | `init` throws exactly when the cut to the last 24 hours is empty; otherwise it draws that cut and attaches the handler |
| Dashboard.Init | main.js:103-112 | the guarded `init` never throws, always attaches the handler, and draws the 24-hour cut exactly when it is non-empty |
| Dashboard.StaleFeedEmptiesInitialWindow | main.js:106-107 | if every sample is older than 24 hours before `now`, the initial window is empty |
| Dashboard.OneStaleReadingEmptiesInitialWindow | main.js:106-107 | a feed with one valid reading taken 25 hours before `now` leaves an empty initial window |
| Dashboard.OnRelayout | main.js:112-122 | the handler draws a chart iff both bounds are present and more than two samples of the full series lie in `[t0, t1]`; the chart shows exactly those samples with their first extrema, so `minMax` always receives at least three samples |

## Findings

| source | as written | input that shows it | evidently intended | confidence | as-written member | corrected member |
|---|---|---|---|---|---|---|
| main.js:106-108 | `init` calls `render(initial)` without checking that `initial` is non-empty; `minMax([])` returns undefined fields and `mm.min.x` (main.js:74) throws, so `init` also never reaches the relayout wiring at main.js:110-122 | a feed whose newest valid reading is more than 24 hours older than `Date.now()`, e.g. one reading at time 0 with `now = 25·3600000`; an empty feed does the same | draw the initial chart only when the cut holds a sample, as the relayout path guards its own `render` call, and attach the handler regardless | not executed; high that it throws, since the code path is direct | Dashboard.InitAsWritten | Dashboard.Init |

## Left out

- The HTTP `fetch` of the ThingSpeak feed and its JSON decoding (main.js:24-28): network I/O. The feed arrives as a sequence of readings.
- `new Date(f.created_at)` and `parseFloat` (main.js:31-32, 41-42): foreign library calls. Their results are inputs: an integer timestamp and a `Number`.
- Feed rows whose `created_at` cannot be parsed: their time would be NaN. The model gives every reading an integer time. Such a sample would survive cleaning but fail every time comparison, so it could never reach `minMax`.
- Samples whose timestamps exceed the exact integer range of JavaScript numbers: times are unbounded integers here.
- `Plotly.react`, the trace and layout objects, and the `toFixed(1)` labels (main.js:66-96): rendering and float formatting. A drawn chart is the `Chart` value.
- The DOM lookup and the event registration (main.js:110-112): UI wiring. `Page.interactive` records whether the handler gets attached.
- Dashboard.OnRelayout: the truthiness test on `xaxis.range[0]` is modelled as "bound present". A bound that is present but falsy in JavaScript (an empty string) counts as absent, which gives the same outcome.
- NaN comparisons inside `minMax` are not modelled: values are reals, and cleaning removes every non-finite value before any scan.
- The global mutable `allPoints` and `currentRange` (main.js:9-10): `allPoints` is passed as an argument; `currentRange` is never reassigned, so it is the constant `Windows.CurrentRange = "1d"`.
